/**
 * How the customer risk form reads the scoring server's answer (the
 * "Stashed changes" side of the merge conflict in `handleSubmit`,
 * CustomerDashboard.jsx): the majority risk level, a credit score drawn from
 * a per-level range and averaged, the category and eligibility of the level,
 * and a success rate drawn from a range chosen by eligibility.
 *
 * `Math.random()` is a parameter: `draws[i]` is the value it returned while
 * scoring prediction `i`, `rateDraw` the value used for the success rate;
 * each lies in [0, 1). Arithmetic is exact, so double rounding is not modelled.
 */
module Interpretation {
  import opened Options

  // ---------------------------------------------------------------------
  // Majority vote

  /** How many times `x` occurs in `ps`. */
  function Count(ps: seq<string>, x: string): (n: nat)
    ensures n <= |ps|
    ensures n > 0 <==> x in ps
  {
    if ps == [] then 0 else (if ps[0] == x then 1 else 0) + Count(ps[1..], x)
  }

  /** The index of the first occurrence of `x` in `ps`. */
  function FirstIndex(ps: seq<string>, x: string): (i: nat)
    requires x in ps
    ensures i < |ps| && ps[i] == x
    ensures forall j :: 0 <= j < i ==> ps[j] != x
  {
    if ps[0] == x then 0 else 1 + FirstIndex(ps[1..], x)
  }

  /** The keys of the `reduce` accumulator in insertion order: each label once, by first occurrence. */
  function Labels(ps: seq<string>): (d: seq<string>)
    ensures forall x :: x in d <==> x in ps
    ensures forall i, j :: 0 <= i < j < |d| ==> d[i] != d[j]
  {
    if ps == [] then []
    else
      var d := Labels(ps[..|ps| - 1]);
      assert forall x :: x in ps <==> x in ps[..|ps| - 1] || x == ps[|ps| - 1];
      if ps[|ps| - 1] in d then d else d + [ps[|ps| - 1]]
  }

  /** Labels come in the order of their first occurrence. */
  lemma {:induction false} LabelsInFirstOccurrenceOrder(ps: seq<string>)
    ensures forall i, j :: 0 <= i < j < |Labels(ps)| ==> FirstIndex(ps, Labels(ps)[i]) < FirstIndex(ps, Labels(ps)[j])
  {
    if ps != [] {
      var prefix := ps[..|ps| - 1];
      LabelsInFirstOccurrenceOrder(prefix);
      FirstIndexInPrefix(ps);
    }
  }

  /** A label already in the prefix has the same first index in the whole sequence; a new one is last. */
  lemma FirstIndexInPrefix(ps: seq<string>)
    requires ps != []
    ensures forall x :: x in ps[..|ps| - 1] ==> FirstIndex(ps, x) == FirstIndex(ps[..|ps| - 1], x)
    ensures ps[|ps| - 1] !in ps[..|ps| - 1] ==> FirstIndex(ps, ps[|ps| - 1]) == |ps| - 1
  {
    var prefix := ps[..|ps| - 1];
    forall x | x in prefix
      ensures FirstIndex(ps, x) == FirstIndex(prefix, x)
    {
      var i := FirstIndex(prefix, x);
      assert ps[i] == x;
      var k := FirstIndex(ps, x);
      assert k <= i;
      assert prefix[k] == x;
    }
    assert forall j :: 0 <= j < |prefix| ==> ps[j] == prefix[j];
  }

  /** `Object.entries(riskLevelCounts)`: each label with its count. */
  function Entries(ps: seq<string>): (e: seq<(string, nat)>)
    ensures |e| == |Labels(ps)|
    ensures forall i :: 0 <= i < |e| ==> e[i] == (Labels(ps)[i], Count(ps, Labels(ps)[i]))
  {
    var d := Labels(ps);
    seq(|d|, i requires 0 <= i < |d| => (d[i], Count(ps, d[i])))
  }

  /**
   * The index of the head after a stable sort by descending count: the
   * first entry whose count no other entry exceeds.
   */
  function TopIndex(e: seq<(string, nat)>): (k: nat)
    requires e != []
    ensures k < |e|
    ensures forall j :: 0 <= j < |e| ==> e[j].1 <= e[k].1
    ensures forall j :: 0 <= j < k ==> e[j].1 < e[k].1
  {
    if |e| == 1 then 0
    else
      var k := 1 + TopIndex(e[1..]);
      if e[0].1 >= e[k].1 then 0 else k
  }

  /** `mostFrequentRiskLevel`. */
  function MostFrequent(ps: seq<string>): (level: string)
    requires ps != []
    ensures level in ps
  {
    var e := Entries(ps);
    assert ps[0] in Labels(ps);
    e[TopIndex(e)].0
  }

  /**
   * The chosen level is one of the predictions, no label occurs more often,
   * and among equally frequent labels it is the one that occurs first.
   */
  lemma MostFrequentIsFirstMode(ps: seq<string>)
    requires ps != []
    ensures MostFrequent(ps) in ps
    ensures forall x :: Count(ps, x) <= Count(ps, MostFrequent(ps))
    ensures forall x :: x in ps && Count(ps, x) == Count(ps, MostFrequent(ps)) ==>
      FirstIndex(ps, MostFrequent(ps)) <= FirstIndex(ps, x)
  {
    var d := Labels(ps);
    var e := Entries(ps);
    assert ps[0] in d;
    var k := TopIndex(e);
    var m := MostFrequent(ps);
    assert m == d[k];
    LabelsInFirstOccurrenceOrder(ps);
    forall x
      ensures Count(ps, x) <= Count(ps, m)
      ensures x in ps && Count(ps, x) == Count(ps, m) ==> FirstIndex(ps, m) <= FirstIndex(ps, x)
    {
      if x in ps {
        var i :| 0 <= i < |d| && d[i] == x;
        assert e[i].1 == Count(ps, x);
      }
    }
  }

  // ---------------------------------------------------------------------
  // Credit score

  /** `Math.floor(r * (hi - lo) + lo)` for a draw `r` of `Math.random()`. */
  function Drawn(r: real, lo: int, hi: int): (v: int)
    requires 0.0 <= r < 1.0 && lo < hi
    ensures lo <= v < hi
  {
    var w := (hi - lo) as real;
    ScaledDraw(r, w);
    (r * w + lo as real).Floor
  }

  /** A draw in [0, 1) scaled by a positive width lies in [0, width). */
  lemma ScaledDraw(r: real, w: real)
    requires 0.0 <= r < 1.0 && w > 0.0
    ensures 0.0 <= r * w < w
  {
    assert w - r * w == (1.0 - r) * w;
    assert (1.0 - r) * w > 0.0;
  }

  /** Scores `lo <= score < hi`. */
  datatype Range = Range(lo: int, hi: int)

  /** The score range of a label, from the bounds written in its `Math.random` expression. */
  function ScoreRange(level: string): Option<Range>
  {
    if level == "P1" then Some(Range(740, 850))
    else if level == "P2" then Some(Range(670, 739))
    else if level == "P3" then Some(Range(580, 669))
    else if level == "P4" then Some(Range(300, 579))
    else None
  }

  /** The score one prediction draws, 0 for an unknown label. */
  function Score(level: string, r: real): (s: int)
    requires 0.0 <= r < 1.0
    ensures level == "P1" ==> 740 <= s <= 849
    ensures level == "P2" ==> 670 <= s <= 738
    ensures level == "P3" ==> 580 <= s <= 668
    ensures level == "P4" ==> 300 <= s <= 578
    ensures ScoreRange(level).None? ==> s == 0
  {
    match ScoreRange(level)
    case Some(range) => Drawn(r, range.lo, range.hi)
    case None => 0
  }

  predicate ValidDraws(draws: seq<real>)
  {
    forall i :: 0 <= i < |draws| ==> 0.0 <= draws[i] < 1.0
  }

  /** `creditScores`: one score per prediction. */
  function CreditScores(ps: seq<string>, draws: seq<real>): (ss: seq<int>)
    requires |draws| == |ps| && ValidDraws(draws)
    ensures |ss| == |ps|
    ensures forall i :: 0 <= i < |ps| ==> ss[i] == Score(ps[i], draws[i])
  {
    seq(|ps|, i requires 0 <= i < |ps| => Score(ps[i], draws[i]))
  }

  function Sum(ss: seq<int>): int
  {
    if ss == [] then 0 else ss[0] + Sum(ss[1..])
  }

  /** `Math.round(sum / n)`: the nearest integer to the mean, halves rounded up. */
  function RoundedMean(ss: seq<int>): int
    requires ss != []
  {
    (2 * Sum(ss) + |ss|) / (2 * |ss|)
  }

  lemma {:induction false} SumBounds(ss: seq<int>, lo: int, hi: int)
    requires forall i :: 0 <= i < |ss| ==> lo <= ss[i] <= hi
    ensures |ss| * lo <= Sum(ss) <= |ss| * hi
  {
    if ss != [] {
      SumBounds(ss[1..], lo, hi);
    }
  }

  /** The rounded mean of scores between `lo` and `hi` lies between them too. */
  lemma RoundedMeanBounds(ss: seq<int>, lo: int, hi: int)
    requires ss != []
    requires forall i :: 0 <= i < |ss| ==> lo <= ss[i] <= hi
    ensures lo <= RoundedMean(ss) <= hi
  {
    var n := |ss|;
    SumBounds(ss, lo, hi);
    var m := 2 * n;
    var t := 2 * Sum(ss) + n;
    var q := t / m;
    assert q == RoundedMean(ss);
    assert q * m <= t < q * m + m by {
      DivisionBounds(t, m);
    }
    assert (lo - 1) * m == 2 * (n * lo) - m && (hi + 1) * m == 2 * (n * hi) + m by {
      Distribute(lo, n);
      Distribute(hi, n);
    }
    MulCancel(q, lo - 1, m);
    MulCancel(hi + 1, q, m);
  }

  lemma DivisionBounds(t: int, m: int)
    requires m > 0
    ensures (t / m) * m <= t < (t / m) * m + m
  {
  }

  lemma Distribute(a: int, n: int)
    ensures (a - 1) * (2 * n) == 2 * (n * a) - 2 * n
    ensures (a + 1) * (2 * n) == 2 * (n * a) + 2 * n
  {
  }

  lemma MulCancel(a: int, b: int, c: int)
    requires c > 0 && a * c > b * c
    ensures a > b
  {
    assert (a - b) * c > 0;
  }

  /** `creditScore`. */
  function CreditScore(ps: seq<string>, draws: seq<real>): (score: int)
    requires ps != [] && |draws| == |ps| && ValidDraws(draws)
    ensures 0 <= score <= 849
  {
    var ss := CreditScores(ps, draws);
    RoundedMeanBounds(ss, 0, 849);
    RoundedMean(ss)
  }

  /** When every prediction has the same known label, the credit score lies in that label's range. */
  lemma CreditScoreRange(ps: seq<string>, draws: seq<real>, level: string)
    requires ps != [] && |draws| == |ps| && ValidDraws(draws)
    ensures (forall i :: 0 <= i < |ps| ==> ps[i] == level) && ScoreRange(level).Some? ==>
      ScoreRange(level).value.lo <= CreditScore(ps, draws) < ScoreRange(level).value.hi
  {
    var ss := CreditScores(ps, draws);
    if (forall i :: 0 <= i < |ps| ==> ps[i] == level) && ScoreRange(level).Some? {
      var range := ScoreRange(level).value;
      RoundedMeanBounds(ss, range.lo, range.hi - 1);
    }
  }

  // ---------------------------------------------------------------------
  // Category, eligibility and success rate

  datatype Assessment = Assessment(isEligible: bool, category: string, riskDescription: string)

  /** The `switch (mostFrequentRiskLevel)`. */
  function Assess(level: string): (a: Assessment)
    ensures a.isEligible <==> level == "P1" || level == "P2"
  {
    if level == "P1" then Assessment(true, "Excellent", "Very low risk profile")
    else if level == "P2" then Assessment(true, "Good", "Low to moderate risk profile")
    else if level == "P3" then Assessment(false, "Fair", "Moderate to high risk profile")
    else if level == "P4" then Assessment(false, "Poor", "High risk profile")
    else Assessment(false, "Unknown", "Unable to determine risk profile")
  }

  /**
   * Only the four known levels get a known category and description, and
   * distinct known levels get distinct categories and descriptions.
   */
  lemma AssessmentTable(level: string, other: string)
    ensures Assess(level).category == "Unknown" <==> ScoreRange(level).None?
    ensures Assess(level).riskDescription == "Unable to determine risk profile" <==> ScoreRange(level).None?
    ensures ScoreRange(level).Some? && ScoreRange(other).Some? && level != other ==>
      Assess(level).category != Assess(other).category
      && Assess(level).riskDescription != Assess(other).riskDescription
  {
  }

  /** `successRate`: 75..94 when eligible, 40..73 otherwise. */
  function SuccessRate(isEligible: bool, r: real): (rate: int)
    requires 0.0 <= r < 1.0
    ensures isEligible ==> 75 <= rate <= 94
    ensures !isEligible ==> 40 <= rate <= 73
  {
    if isEligible then Drawn(r, 75, 95) else Drawn(r, 40, 74)
  }

  /** The `riskData` handed to the results page. */
  datatype RiskData = RiskData(
    riskLevel: string,
    creditScore: int,
    isEligible: bool,
    category: string,
    riskDescription: string,
    successRate: int,
    predictions: seq<string>)

  function Interpret(ps: seq<string>, draws: seq<real>, rateDraw: real): (data: RiskData)
    requires ps != [] && |draws| == |ps| && ValidDraws(draws) && 0.0 <= rateDraw < 1.0
    ensures data.riskLevel in ps && data.predictions == ps
    ensures 0 <= data.creditScore <= 849
    ensures data.isEligible <==> data.riskLevel == "P1" || data.riskLevel == "P2"
  {
    var level := MostFrequent(ps);
    var a := Assess(level);
    RiskData(level, CreditScore(ps, draws), a.isEligible, a.category, a.riskDescription,
             SuccessRate(a.isEligible, rateDraw), ps)
  }

  /** The fields of `riskData` agree with one another and with the predictions. */
  lemma InterpretationConsistent(ps: seq<string>, draws: seq<real>, rateDraw: real)
    requires ps != [] && |draws| == |ps| && ValidDraws(draws) && 0.0 <= rateDraw < 1.0
    ensures Interpret(ps, draws, rateDraw).riskLevel in ps
    ensures forall x :: Count(ps, x) <= Count(ps, Interpret(ps, draws, rateDraw).riskLevel)
    ensures forall x :: x in ps && Count(ps, x) == Count(ps, Interpret(ps, draws, rateDraw).riskLevel) ==>
      FirstIndex(ps, Interpret(ps, draws, rateDraw).riskLevel) <= FirstIndex(ps, x)
    ensures Interpret(ps, draws, rateDraw).isEligible <==> Interpret(ps, draws, rateDraw).riskLevel in {"P1", "P2"}
    ensures Interpret(ps, draws, rateDraw).category == "Unknown" <==> ScoreRange(Interpret(ps, draws, rateDraw).riskLevel).None?
    ensures 0 <= Interpret(ps, draws, rateDraw).creditScore <= 849
    ensures (forall i :: 0 <= i < |ps| ==> ps[i] == ps[0]) && ScoreRange(ps[0]).Some? ==>
      Interpret(ps, draws, rateDraw).riskLevel == ps[0]
      && ScoreRange(ps[0]).value.lo <= Interpret(ps, draws, rateDraw).creditScore < ScoreRange(ps[0]).value.hi
    ensures Interpret(ps, draws, rateDraw).isEligible ==> 75 <= Interpret(ps, draws, rateDraw).successRate <= 94
    ensures !Interpret(ps, draws, rateDraw).isEligible ==> 40 <= Interpret(ps, draws, rateDraw).successRate <= 73
    ensures Interpret(ps, draws, rateDraw).predictions == ps
  {
    MostFrequentIsFirstMode(ps);
    AssessmentTable(MostFrequent(ps), MostFrequent(ps));
    CreditScoreRange(ps, draws, ps[0]);
  }

  // ---------------------------------------------------------------------
  // The end of handleSubmit

  /** What `fetch` gave back: `response.ok`, and the `detail` or `predictions` of its JSON body. */
  datatype ServerReply = ServerReply(ok: bool, detail: Option<string>, predictions: Option<seq<string>>)

  /** The page either goes to the results or shows the `error` text. */
  datatype SubmitOutcome = ShowResults(riskData: RiskData) | ShowError(message: string)

  const ErrorPrefix := "Failed to process form data: "

  predicate DrawsFor(reply: ServerReply, draws: seq<real>, rateDraw: real)
  {
    ValidDraws(draws) && 0.0 <= rateDraw < 1.0
    && (reply.predictions.Some? ==> |draws| == |reply.predictions.value|)
  }

  /** The message of the error thrown for a reply, if any, before the results would be shown. */
  function ReplyError(reply: ServerReply): (e: Option<string>)
    ensures e.None? <==> reply.ok && reply.predictions.Some? && reply.predictions.value != []
  {
    if !reply.ok then
      Some(if reply.detail.Some? && reply.detail.value != "" then reply.detail.value else "Failed to process data")
    else if reply.predictions.None? || reply.predictions.value == [] then Some("No predictions received from server")
    else None
  }

  /**
   * The code as written: `navigate` is neither imported nor declared, so the
   * call throws a ReferenceError that the `catch` turns into the error text.
   */
  function SubmitAsWritten(reply: ServerReply, draws: seq<real>, rateDraw: real): (outcome: SubmitOutcome)
    requires DrawsFor(reply, draws, rateDraw)
    ensures outcome.ShowError? && |ErrorPrefix| <= |outcome.message| && outcome.message[..|ErrorPrefix|] == ErrorPrefix
  {
    match ReplyError(reply)
    case Some(message) => ShowError(ErrorPrefix + message)
    case None => ShowError(ErrorPrefix + "navigate is not defined")
  }

  /** The evident intent: with predictions, go to the results page with `riskData`. */
  function Submit(reply: ServerReply, draws: seq<real>, rateDraw: real): (outcome: SubmitOutcome)
    requires DrawsFor(reply, draws, rateDraw)
    ensures outcome.ShowResults? <==> reply.ok && reply.predictions.Some? && reply.predictions.value != []
    ensures outcome.ShowResults? ==> outcome.riskData.predictions == reply.predictions.value
    ensures outcome.ShowError? ==> |ErrorPrefix| <= |outcome.message| && outcome.message[..|ErrorPrefix|] == ErrorPrefix
  {
    match ReplyError(reply)
    case Some(message) => ShowError(ErrorPrefix + message)
    case None => ShowResults(Interpret(reply.predictions.value, draws, rateDraw))
  }

  /** As written, even a successful reply with predictions ends in an error message. */
  lemma SubmitAsWrittenNeverShowsResults(reply: ServerReply, draws: seq<real>, rateDraw: real)
    requires DrawsFor(reply, draws, rateDraw)
    ensures SubmitAsWritten(reply, draws, rateDraw).ShowError?
    ensures reply.ok && reply.predictions.Some? && reply.predictions.value != [] ==>
      SubmitAsWritten(reply, draws, rateDraw).message == ErrorPrefix + "navigate is not defined"
  {
  }

  /** Corrected: results exactly for an ok reply with predictions; otherwise the thrown message. */
  lemma SubmitOutcomes(reply: ServerReply, draws: seq<real>, rateDraw: real)
    requires DrawsFor(reply, draws, rateDraw)
    ensures Submit(reply, draws, rateDraw).ShowResults? <==> reply.ok && reply.predictions.Some? && reply.predictions.value != []
    ensures Submit(reply, draws, rateDraw).ShowResults? ==>
      Submit(reply, draws, rateDraw).riskData.predictions == reply.predictions.value
      && Submit(reply, draws, rateDraw).riskData.riskLevel in reply.predictions.value
    ensures !reply.ok ==> Submit(reply, draws, rateDraw) == ShowError(ErrorPrefix +
      (if reply.detail.Some? && reply.detail.value != "" then reply.detail.value else "Failed to process data"))
    ensures reply.ok && (reply.predictions.None? || reply.predictions.value == []) ==>
      Submit(reply, draws, rateDraw) == ShowError(ErrorPrefix + "No predictions received from server")
  {
    if reply.ok && reply.predictions.Some? && reply.predictions.value != [] {
      MostFrequentIsFirstMode(reply.predictions.value);
    }
  }
}
