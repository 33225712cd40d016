/**
 * The customer risk form of CustomerDashboard.jsx as a six-section wizard:
 * the string-valued form record, the section the user is on, and a per-section
 * "completed" flag shown by the progress indicator.
 *
 * `handleChange` decides completion from the `formData` of the render in
 * which it runs, that is the record BEFORE the keystroke it handles: React's
 * `setFormData` only takes effect on the next render. The model keeps that.
 */
module RiskForm {

  datatype Section = AccountActivity | AccountTypes | Delinquency | Inquiries | LoanFlags | CustomerInfo

  /** The order of the sections for Next and Previous. */
  const Sections: seq<Section> := [AccountActivity, AccountTypes, Delinquency, Inquiries, LoanFlags, CustomerInfo]

  /** `sections.indexOf(activeTab)`; every section is in the list. */
  function IndexOf(s: Section): (i: nat)
    ensures i < |Sections| && Sections[i] == s
    ensures forall j :: 0 <= j < i ==> Sections[j] != s
  {
    match s
    case AccountActivity => 0
    case AccountTypes => 1
    case Delinquency => 2
    case Inquiries => 3
    case LoanFlags => 4
    case CustomerInfo => 5
  }

  /** The fields `handleChange` requires filled before it marks a section complete. */
  function SectionFields(s: Section): seq<string>
  {
    match s
    case AccountActivity => ["pct_tl_open_L6M", "pct_tl_closed_L6M", "Tot_TL_closed_L12M", "pct_tl_closed_L12M", "Tot_Missed_Pmnt"]
    case AccountTypes => ["CC_TL", "Home_TL", "PL_TL", "Secured_TL", "Unsecured_TL", "Other_TL"]
    case Delinquency => ["max_recent_level_of_deliq", "num_deliq_6_12mts", "num_times_60p_dpd", "num_std_12mts", "num_sub"]
    case Inquiries => ["CC_enq_L12m", "PL_enq_L12m", "time_since_recent_enq", "enq_L3m"]
    case LoanFlags => ["PL_Flag", "HL_Flag", "GL_Flag"]
    case CustomerInfo => ["NETMONTHLYINCOME", "Time_With_Curr_Empr", "CC_Flag", "PL_Flag", "MARITALSTATUS", "EDUCATION",
                          "GENDER", "last_prod_enq2", "first_prod_enq2"]
  }

  /** `currentSectionFields.every(field => formData[field])`: present and non-empty. */
  predicate SectionFilled(formData: map<string, string>, s: Section)
  {
    forall i :: 0 <= i < |SectionFields(s)| ==> SectionFields(s)[i] in formData && formData[SectionFields(s)[i]] != ""
  }

  /** The keys of the initial form record, each starting as "". */
  const InitialFields: seq<string> := [
    "pct_tl_open_L6M", "pct_tl_closed_L6M", "Tot_TL_closed_L12M", "pct_tl_closed_L12M", "Tot_Missed_Pmnt",
    "CC_TL", "Home_TL", "PL_TL", "Secured_TL", "Unsecured_TL", "Other_TL",
    "Age_Oldest_TL", "Age_Newest_TL", "time_since_recent_payment",
    "max_recent_level_of_deliq", "num_deliq_6_12mts", "num_times_60p_dpd", "num_std_12mts", "num_sub",
    "num_sub_6mts", "num_sub_12mts", "num_dbt", "num_dbt_12mts", "num_lss", "recent_level_of_deliq",
    "CC_enq_L12m", "PL_enq_L12m", "time_since_recent_enq", "enq_L3m",
    "NETMONTHLYINCOME", "Time_With_Curr_Empr", "CC_Flag", "PL_Flag", "pct_PL_enq_L6m_of_ever",
    "pct_CC_enq_L6m_of_ever", "HL_Flag", "GL_Flag", "MARITALSTATUS", "EDUCATION", "GENDER",
    "last_prod_enq2", "first_prod_enq2"]

  function InitialFormData(): (d: map<string, string>)
    ensures forall i :: 0 <= i < |InitialFields| ==> InitialFields[i] in d
    ensures forall k :: k in d ==> d[k] == ""
  {
    map k | k in InitialFields :: ""
  }

  /** `handleNext`: one section forward, staying on the last one. */
  function NextSection(s: Section): (t: Section)
    ensures IndexOf(s) < |Sections| - 1 ==> IndexOf(t) == IndexOf(s) + 1
    ensures IndexOf(s) == |Sections| - 1 ==> t == s
  {
    var i := IndexOf(s);
    if i < |Sections| - 1 then Sections[i + 1] else s
  }

  /** `handlePrevious`: one section back, staying on the first one. */
  function PreviousSection(s: Section): (t: Section)
    ensures IndexOf(s) > 0 ==> IndexOf(t) == IndexOf(s) - 1
    ensures IndexOf(s) == 0 ==> t == s
  {
    var i := IndexOf(s);
    if i > 0 then Sections[i - 1] else s
  }

  /** Previous undoes Next everywhere but on the last section, and Next undoes Previous everywhere but on the first. */
  lemma NextPreviousRoundTrip(s: Section)
    ensures s != CustomerInfo ==> PreviousSection(NextSection(s)) == s
    ensures s != AccountActivity ==> NextSection(PreviousSection(s)) == s
  {
  }

  /** Repeated Next reaches every section from the first one, in list order. */
  function NextTimes(s: Section, n: nat): Section
  {
    if n == 0 then s else NextSection(NextTimes(s, n - 1))
  }

  lemma {:induction false} NextTimesWalksTheList(n: nat)
    ensures IndexOf(NextTimes(AccountActivity, n)) == if n < |Sections| then n else |Sections| - 1
  {
    if n > 0 {
      NextTimesWalksTheList(n - 1);
    }
  }

  /** The completion flags after a keystroke in section `active`, judged on the record before it. */
  function CompletedAfterChange(before: map<string, string>, completed: map<Section, bool>, active: Section)
    : (after: map<Section, bool>)
    ensures forall s :: s in completed && completed[s] ==> s in after && after[s]
    ensures forall s :: s in after && s != active ==> s in completed && after[s] == completed[s]
    ensures SectionFilled(before, active) ==> active in after && after[active]
    ensures !SectionFilled(before, active) ==> after == completed
  {
    if SectionFilled(before, active) then completed[active := true] else completed
  }

  /** Every section requires at least one field, and every required field is a field of the form. */
  lemma SectionFieldsAreFormFields(s: Section)
    ensures SectionFields(s) != []
    ensures forall i :: 0 <= i < |SectionFields(s)| ==> SectionFields(s)[i] in InitialFields
  {
  }

  /** No section of the initial, empty form counts as filled. */
  lemma InitialFormNotFilled(s: Section)
    ensures !SectionFilled(InitialFormData(), s)
  {
    SectionFieldsAreFormFields(s);
    var f := SectionFields(s)[0];
    assert f in InitialFormData() ==> InitialFormData()[f] == "";
  }

  predicate AllSectionsKeyed(completed: map<Section, bool>)
  {
    forall s: Section :: s in completed
  }

  /** `completedSections` as first rendered. */
  const NoneCompleted: map<Section, bool> := map[AccountActivity := false, AccountTypes := false, Delinquency := false,
                                                 Inquiries := false, LoanFlags := false, CustomerInfo := false]

  lemma NoneCompletedCoversAll()
    ensures AllSectionsKeyed(NoneCompleted)
    ensures forall s :: !NoneCompleted[s]
  {
    forall s: Section
      ensures s in NoneCompleted && !NoneCompleted[s]
    {
      match s
      case AccountActivity =>
      case AccountTypes =>
      case Delinquency =>
      case Inquiries =>
      case LoanFlags =>
      case CustomerInfo =>
    }
  }

  /**
   * A flag only goes from false to true, only the active section's flag can
   * change, and it is set exactly when the active section was already filled.
   */
  lemma CompletionFlags(before: map<string, string>, completed: map<Section, bool>, active: Section)
    requires AllSectionsKeyed(completed)
    ensures AllSectionsKeyed(CompletedAfterChange(before, completed, active))
    ensures forall s :: completed[s] ==> CompletedAfterChange(before, completed, active)[s]
    ensures forall s :: s != active ==> CompletedAfterChange(before, completed, active)[s] == completed[s]
    ensures CompletedAfterChange(before, completed, active)[active] <==> completed[active] || SectionFilled(before, active)
  {
  }

  /** Typing the last missing value of a section does not complete it: the check sees the record before the keystroke. */
  lemma LastKeystrokeIsNotSeen()
    ensures var before := map["CC_enq_L12m" := "1", "PL_enq_L12m" := "0", "time_since_recent_enq" := "3", "enq_L3m" := ""];
            SectionFilled(before["enq_L3m" := "2"], Inquiries)
            && !CompletedAfterChange(before, NoneCompleted, Inquiries)[Inquiries]
  {
    var before := map["CC_enq_L12m" := "1", "PL_enq_L12m" := "0", "time_since_recent_enq" := "3", "enq_L3m" := ""];
    assert SectionFields(Inquiries)[3] == "enq_L3m";
    assert !SectionFilled(before, Inquiries);
  }

  /** The form state of `CustomerDashboard`: `formData`, `completedSections` and `activeTab`. */
  class CustomerForm {
    var formData: map<string, string>
    var completed: map<Section, bool>
    var activeTab: Section

    ghost predicate Valid()
      reads this
    {
      AllSectionsKeyed(completed)
    }

    /** The initial state: every field "", no section complete, on the first section. */
    constructor ()
      ensures Valid()
      ensures formData == InitialFormData()
      ensures forall s :: !completed[s]
      ensures activeTab == AccountActivity
    {
      formData := InitialFormData();
      completed := NoneCompleted;
      activeTab := AccountActivity;
      NoneCompletedCoversAll();
    }

    /** `handleChange(field, value)`. */
    method HandleChange(field: string, value: string)
      requires Valid()
      modifies this
      ensures Valid()
      ensures formData == old(formData)[field := value]
      ensures completed == CompletedAfterChange(old(formData), old(completed), activeTab)
      ensures activeTab == old(activeTab)
    {
      var before := formData;
      formData := formData[field := value];
      if SectionFilled(before, activeTab) {
        completed := completed[activeTab := true];
      }
    }

    /** `handleNext`. */
    method HandleNext()
      requires Valid()
      modifies this
      ensures Valid()
      ensures activeTab == NextSection(old(activeTab))
      ensures formData == old(formData) && completed == old(completed)
    {
      var currentIndex := IndexOf(activeTab);
      if currentIndex < |Sections| - 1 {
        activeTab := Sections[currentIndex + 1];
      }
    }

    /** `handlePrevious`. */
    method HandlePrevious()
      requires Valid()
      modifies this
      ensures Valid()
      ensures activeTab == PreviousSection(old(activeTab))
      ensures formData == old(formData) && completed == old(completed)
    {
      var currentIndex := IndexOf(activeTab);
      if currentIndex > 0 {
        activeTab := Sections[currentIndex - 1];
      }
    }
  }
}
