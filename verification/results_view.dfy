/**
 * The lookups of the results page (Results.jsx): the colour, description and
 * suggestions of a risk level, and the five credit-factor bars derived from
 * the credit score. The page reads `location.state?.riskData || {}`, so a
 * level or score may be absent (`None`).
 */
module ResultsView {
  import opened Options

  const KnownLevels: set<string> := {"P1", "P2", "P3", "P4"}

  // The colours and texts of the page.
  const GreenColor: string := "#4CAF50"
  const AmberColor: string := "#FFC107"
  const OrangeColor: string := "#FF9800"
  const RedColor: string := "#F44336"
  const GreyColor: string := "#757575"

  const ExcellentText: string := "Excellent credit risk - Highly likely to repay loans"
  const GoodText: string := "Good credit risk - Generally reliable in loan repayment"
  const FairText: string := "Fair credit risk - Some concerns about repayment ability"
  const PoorText: string := "Poor credit risk - High risk of default"
  const UnknownText: string := "Unable to determine risk level"

  /** `getRiskColor`: `riskColors[risk] || '#757575'`. */
  function RiskColor(level: Option<string>): (color: string)
    ensures color in {GreenColor, AmberColor, OrangeColor, RedColor, GreyColor}
    ensures level.Some? && level.value in KnownLevels ==> color != GreyColor
  {
    if level == Some("P1") then GreenColor
    else if level == Some("P2") then AmberColor
    else if level == Some("P3") then OrangeColor
    else if level == Some("P4") then RedColor
    else GreyColor
  }

  /** `getRiskDescription`. */
  function RiskDescription(level: Option<string>): (text: string)
    ensures text in {ExcellentText, GoodText, FairText, PoorText, UnknownText}
    ensures level.Some? && level.value in KnownLevels ==> text != UnknownText
  {
    if level == Some("P1") then ExcellentText
    else if level == Some("P2") then GoodText
    else if level == Some("P3") then FairText
    else if level == Some("P4") then PoorText
    else UnknownText
  }

  /** Every input outside P1..P4, an absent level included, gets the grey fallback colour and text. */
  lemma FallbackLookups(level: Option<string>)
    ensures RiskColor(level) == GreyColor <==> !(level.Some? && level.value in KnownLevels)
    ensures RiskDescription(level) == UnknownText <==> !(level.Some? && level.value in KnownLevels)
  {
  }

  /** The four known levels get four different colours and four different texts. */
  lemma KnownLevelsAreDistinguished(level: string, other: string)
    requires level in KnownLevels && other in KnownLevels && level != other
    ensures RiskColor(Some(level)) != RiskColor(Some(other))
    ensures RiskDescription(Some(level)) != RiskDescription(Some(other))
  {
    assert GreenColor[3] == 'A' && AmberColor[3] == 'C' && OrangeColor[3] == '9' && RedColor[3] == '4';
    assert |ExcellentText| == 52 && |GoodText| == 55 && |FairText| == 56 && |PoorText| == 39;
  }

  const PayOnTime: string := "Make all payments on time"
  const LowUtilization: string := "Keep credit utilization below 30%"
  const KeepOldAccounts: string := "Maintain older credit accounts"
  const LimitApplications: string := "Limit new credit applications"
  const DiversifyMix: string := "Consider diversifying credit mix for even better scores"
  const MonitorReport: string := "Monitor credit report regularly to maintain excellent status"
  const PremiumProducts: string := "You may qualify for premium credit products"
  const ReduceUtilization: string := "Work on reducing credit utilization"
  const ConsistentPayments: string := "Continue consistent payment history"
  const ConsolidateDebt: string := "Consider consolidating any high-interest debt"
  const FocusOnTime: string := "Focus on making all payments on time"
  const ReduceDebt: string := "Reduce overall debt levels"
  const AvoidNewCredit: string := "Avoid applying for new credit"
  const CreditCounseling: string := "Consider credit counseling services"
  const PayOverdue: string := "Prioritize paying off overdue accounts"
  const PaymentReminders: string := "Set up payment reminders"
  const CreditRepair: string := "Consider credit repair services"
  const SecuredProducts: string := "Look into secured credit products"

  const CommonSuggestions: seq<string> := [
    PayOnTime,
    LowUtilization,
    KeepOldAccounts,
    LimitApplications]

  /** `specificSuggestions[riskLevel] || []`. */
  function SpecificSuggestions(level: Option<string>): (s: seq<string>)
    ensures s == [] <==> !(level.Some? && level.value in KnownLevels)
    ensures level.Some? && level.value in KnownLevels ==> 3 <= |s| <= 4
  {
    if level == Some("P1") then [
      DiversifyMix,
      MonitorReport,
      PremiumProducts]
    else if level == Some("P2") then [
      ReduceUtilization,
      ConsistentPayments,
      ConsolidateDebt]
    else if level == Some("P3") then [
      FocusOnTime,
      ReduceDebt,
      AvoidNewCredit,
      CreditCounseling]
    else if level == Some("P4") then [
      PayOverdue,
      PaymentReminders,
      CreditRepair,
      SecuredProducts]
    else []
  }

  /** `getSuggestions`. */
  function Suggestions(level: Option<string>): (s: seq<string>)
    ensures |s| == |CommonSuggestions| + |SpecificSuggestions(level)|
    ensures s[..|CommonSuggestions|] == CommonSuggestions
    ensures s[|CommonSuggestions|..] == SpecificSuggestions(level)
  {
    CommonSuggestions + SpecificSuggestions(level)
  }

  /** 7 suggestions for P1 and P2, 8 for P3 and P4, the 4 common ones alone for anything else. */
  lemma SuggestionCounts(level: Option<string>)
    ensures level == Some("P1") || level == Some("P2") ==> |Suggestions(level)| == 7
    ensures level == Some("P3") || level == Some("P4") ==> |Suggestions(level)| == 8
    ensures !(level.Some? && level.value in KnownLevels) ==> Suggestions(level) == CommonSuggestions
  {
    assert |CommonSuggestions| == 4;
    if level == Some("P1") || level == Some("P2") {
      assert |SpecificSuggestions(level)| == 3;
    } else if level == Some("P3") || level == Some("P4") {
      assert |SpecificSuggestions(level)| == 4;
    } else {
      assert SpecificSuggestions(level) == [];
    }
  }

  datatype Factor = Factor(name: string, score: real)

  function Min(a: real, b: real): real
  {
    if a <= b then a else b
  }

  const FactorNames: seq<string> := ["Payment History", "Credit Utilization", "Credit Age", "Account Mix", "Recent Inquiries"]
  const FactorWeights: seq<real> := [0.35, 0.30, 0.15, 0.10, 0.10]

  /** `riskData.creditScore || 0`. */
  function BaseScore(creditScore: Option<real>): real
  {
    if creditScore.Some? then creditScore.value else 0.0
  }

  /** `Math.min(100, baseScore * weight / 850 * 100)`. */
  function FactorScore(base: real, weight: real): (score: real)
    ensures score <= 100.0
    ensures base == 0.0 ==> score == 0.0
    ensures 0.0 <= base && 0.0 <= weight && base * weight <= 850.0 ==> score == base * weight / 8.5
  {
    Min(100.0, base * weight / 850.0 * 100.0)
  }

  /** `getCreditFactors`: one bar per factor, in order. */
  function CreditFactors(creditScore: Option<real>): (fs: seq<Factor>)
    ensures |fs| == 5
    ensures forall i :: 0 <= i < 5 ==> fs[i].name == FactorNames[i] && fs[i].score <= 100.0
    ensures creditScore.None? ==> forall i :: 0 <= i < 5 ==> fs[i].score == 0.0
  {
    var base := BaseScore(creditScore);
    seq(5, i requires 0 <= i < 5 => Factor(FactorNames[i], FactorScore(base, FactorWeights[i])))
  }

  /** For a score the form can produce (0..850) no bar is capped, and the bars add up to the score as a percentage of 850. */
  lemma CreditFactorsShareTheScore(creditScore: real)
    requires 0.0 <= creditScore <= 850.0
    ensures var fs := CreditFactors(Some(creditScore));
            forall i :: 0 <= i < 5 ==> 0.0 <= fs[i].score == creditScore * FactorWeights[i] / 8.5
    ensures var fs := CreditFactors(Some(creditScore));
            fs[0].score + fs[1].score + fs[2].score + fs[3].score + fs[4].score == creditScore * 100.0 / 850.0
  {
    var fs := CreditFactors(Some(creditScore));
    forall i | 0 <= i < 5
      ensures 0.0 <= fs[i].score == creditScore * FactorWeights[i] / 8.5
    {
      assert 0.0 <= FactorWeights[i] <= 0.35;
      assert creditScore * FactorWeights[i] <= 850.0 * 0.35 by {
        assert creditScore * (0.35 - FactorWeights[i]) >= 0.0;
        assert (850.0 - creditScore) * 0.35 >= 0.0;
      }
    }
  }
}
