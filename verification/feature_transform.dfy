/**
 * The client-side feature transformer of the customer risk form: the part of
 * `handleSubmit` in CustomerDashboard.jsx that turns the string-valued form
 * record into the number-valued record sent for scoring.
 *
 * The source file holds unresolved merge-conflict markers. This model takes
 * the "Updated upstream" side for the `customer_since` step (the day count),
 * which the other side leaves out.
 *
 * The steps, each a loop or an object literal in the source:
 *   1. the four categorical fields are replaced by their table code, or 0;
 *   2. `customer_since` becomes a whole number of days before "now", or 0;
 *   3. every other key is coerced with `Number`, NaN becoming 0;
 *   4. derived defaults and one-hot indicators are laid over the record;
 *   5. any value that is not a number, or is NaN, becomes 0.
 * The clock (`new Date()`) and date parsing (`new Date(text)`) are parameters:
 * `nowMs` is the current time and `dateMs` the parsed date, both in
 * milliseconds since the epoch, `None` standing for an invalid date.
 */
module FeatureTransform {
  import opened Options
  import opened JsNumbers

  type Record = map<string, JsValue>

  // The form's field names and labels.
  const MaritalStatus: string := "MARITALSTATUS"
  const Education: string := "EDUCATION"
  const Gender: string := "GENDER"
  const IncomeSegment: string := "income_segment"
  const LastProduct: string := "last_prod_enq2"
  const FirstProduct: string := "first_prod_enq2"

  const SingleLabel: string := "Single"
  const MarriedLabel: string := "Married"
  const MaleLabel: string := "Male"
  const FemaleLabel: string := "Female"

  // The model's feature names.
  const Doubtful: string := "num_dbt"
  const Doubtful12: string := "num_dbt_12mts"
  const Substandard: string := "num_lss"
  const Substandard12: string := "num_lss_12mts"
  const RecentDelinquency: string := "recent_level_of_deliq"
  const MaxRecentDelinquency: string := "max_recent_level_of_deliq"
  const CardEnquiries: string := "CC_enq_L12m"
  const PersonalLoanEnquiries: string := "PL_enq_L12m"
  const TimeSinceEnquiry: string := "time_since_recent_enq"
  const Enquiries3m: string := "enq_L3m"
  const NetMonthlyIncome: string := "NETMONTHLYINCOME"
  const TimeWithEmployer: string := "Time_With_Curr_Empr"
  const CurrentBalanceShare: string := "pct_currentBal_all_TL"

  const MarriedFeature: string := "MARITALSTATUS_Married"
  const SingleFeature: string := "MARITALSTATUS_Single"
  const FemaleFeature: string := "GENDER_F"
  const MaleFeature: string := "GENDER_M"
  const LastProductAL: string := "last_prod_enq2_AL"
  const LastProductCC: string := "last_prod_enq2_CC"
  const LastProductConsumerLoan: string := "last_prod_enq2_ConsumerLoan"
  const LastProductHL: string := "last_prod_enq2_HL"
  const LastProductPL: string := "last_prod_enq2_PL"
  const LastProductOthers: string := "last_prod_enq2_others"
  const FirstProductAL: string := "first_prod_enq2_AL"
  const FirstProductCC: string := "first_prod_enq2_CC"
  const FirstProductConsumerLoan: string := "first_prod_enq2_ConsumerLoan"
  const FirstProductHL: string := "first_prod_enq2_HL"
  const FirstProductPL: string := "first_prod_enq2_PL"
  const FirstProductOthers: string := "first_prod_enq2_others"

  // A plain feature of the form and a numeric text it may hold.
  const CardLines: string := "CC_TL"
  const InfinityLiteral: string := "Infinity"

  const CategoricalKeys: seq<string> := [MaritalStatus, Education, Gender, IncomeSegment]
  const CustomerSinceKey := "customer_since"
  const MsPerDay := 86400000

  /** The fixed label-to-code table of each categorical field. */
  function CategoryTable(field: string): map<string, int>
  {
    if field == MaritalStatus then map[SingleLabel := 1, MarriedLabel := 2, "Divorced" := 3, "Widowed" := 4]
    else if field == Education then map["High School" := 1, "Bachelor" := 2, "Master" := 3, "PhD" := 4, "Other" := 5]
    else if field == Gender then map[MaleLabel := 1, FemaleLabel := 2, "Other" := 3]
    else if field == IncomeSegment then map["Low" := 1, "Medium" := 2, "High" := 3, "Very High" := 4]
    else map[]
  }

  /** `categoricalMappings[field][value] || 0`. A number never names a table entry. */
  function CategoryCode(field: string, v: Option<JsValue>): (code: int)
    ensures code >= 0
    ensures code == 0 <==> !(v.Some? && v.value.Str? && v.value.s in CategoryTable(field))
    ensures code != 0 ==> code == CategoryTable(field)[v.value.s]
  {
    if v.Some? && v.value.Str? && v.value.s in CategoryTable(field) then CategoryTable(field)[v.value.s] else 0
  }

  /** The form record with every string wrapped as a JavaScript value. */
  function Lift(raw: map<string, string>): (d: Record)
    ensures d.Keys == raw.Keys
    ensures forall k :: k in raw ==> d[k] == Str(raw[k])
  {
    map k | k in raw :: Str(raw[k])
  }

  // ---------------------------------------------------------------------
  // Step 1: categorical encoding

  /** `processedData[field] = categoricalMappings[field][processedData[field]] || 0` */
  function EncodeField(p: Record, field: string): Record
  {
    p[field := Num(Finite(CategoryCode(field, Get(p, field)) as real))]
  }

  /** One round writes a non-negative code into the field, which is 0 unless the field holds a label of its table, and leaves every other key alone. */
  lemma EncodeFieldEffect(p: Record, field: string)
    ensures EncodeField(p, field).Keys == p.Keys + {field}
    ensures EncodeField(p, field)[field].Num? && EncodeField(p, field)[field].n.Finite?
    ensures EncodeField(p, field)[field].n.r >= 0.0
    ensures EncodeField(p, field)[field] != Zero <==> field in p && p[field].Str? && p[field].s in CategoryTable(field)
    ensures forall k :: k in p && k != field ==> EncodeField(p, field)[k] == p[k]
  {
  }

  /** The record after the first `i` categorical fields have been encoded. */
  function EncodedUpTo(d: Record, i: nat): Record
    requires i <= |CategoricalKeys|
  {
    if i == 0 then d else EncodeField(EncodedUpTo(d, i - 1), CategoricalKeys[i - 1])
  }

  function Encoded(d: Record): Record
  {
    EncodedUpTo(d, |CategoricalKeys|)
  }

  /** The `forEach` over the four categorical fields, rewriting the record in place. */
  method EncodeCategoricals(d: Record) returns (p: Record)
    ensures p == Encoded(d)
  {
    p := d;
    var i := 0;
    while i < |CategoricalKeys|
      invariant 0 <= i <= |CategoricalKeys|
      invariant p == EncodedUpTo(d, i)
    {
      var field := CategoricalKeys[i];
      assert EncodedUpTo(d, i + 1) == EncodeField(p, field);
      p := p[field := Num(Finite(CategoryCode(field, Get(p, field)) as real))];
      i := i + 1;
    }
  }

  /** The four categorical keys are four different names. */
  lemma CategoricalKeysDiffer()
    ensures CategoricalKeys == [MaritalStatus, Education, Gender, IncomeSegment]
    ensures MaritalStatus != Education && MaritalStatus != Gender && MaritalStatus != IncomeSegment
    ensures Education != Gender && Education != IncomeSegment && Gender != IncomeSegment
  {
    assert |MaritalStatus| == 13 && |Education| == 9 && |Gender| == 6 && |IncomeSegment| == 14;
  }

  /** The first `i` rounds encode exactly the first `i` categorical keys, each from its own label. */
  lemma {:induction false} EncodedUpToValues(d: Record, i: nat)
    requires i <= |CategoricalKeys|
    ensures forall k :: k in EncodedUpTo(d, i) <==> k in d || k in CategoricalKeys[..i]
    ensures forall f :: f in CategoricalKeys[..i] ==> EncodedUpTo(d, i)[f] == Num(Finite(CategoryCode(f, Get(d, f)) as real))
    ensures forall k :: k in d && k !in CategoricalKeys[..i] ==> EncodedUpTo(d, i)[k] == d[k]
  {
    if i > 0 {
      EncodedUpToValues(d, i - 1);
      CategoricalKeysDiffer();
      var f := CategoricalKeys[i - 1];
      assert CategoricalKeys[..i] == CategoricalKeys[..i - 1] + [f];
      EncodeRound(d, EncodedUpTo(d, i - 1), f, CategoricalKeys[..i - 1]);
    }
  }

  /** One more round, on a record in which the keys `done` are already encoded. */
  lemma EncodeRound(d: Record, prev: Record, f: string, done: seq<string>)
    requires f !in done
    requires forall k :: k in prev <==> k in d || k in done
    requires forall g :: g in done ==> prev[g] == Num(Finite(CategoryCode(g, Get(d, g)) as real))
    requires forall k :: k in d && k !in done ==> prev[k] == d[k]
    ensures forall k :: k in EncodeField(prev, f) <==> k in d || k in done + [f]
    ensures forall g :: g in done + [f] ==> EncodeField(prev, f)[g] == Num(Finite(CategoryCode(g, Get(d, g)) as real))
    ensures forall k :: k in d && k !in done + [f] ==> EncodeField(prev, f)[k] == d[k]
  {
    assert Get(prev, f) == Get(d, f);
  }

  /** Step 1 touches exactly the four categorical keys, and each gets the code of its own label. */
  lemma EncodedValues(d: Record)
    ensures forall k :: k in Encoded(d) <==> k in d || k in CategoricalKeys
    ensures forall f :: f in CategoricalKeys ==> Encoded(d)[f] == Num(Finite(CategoryCode(f, Get(d, f)) as real))
    ensures forall k :: k in d && k !in CategoricalKeys ==> Encoded(d)[k] == d[k]
  {
    EncodedUpToValues(d, |CategoricalKeys|);
    assert CategoricalKeys[..|CategoricalKeys|] == CategoricalKeys;
  }

  // ---------------------------------------------------------------------
  // Step 2: customer_since as a day count

  /** `Math.floor((today - new Date(s)) / 86400000)` when the field is non-empty, else 0. */
  function SinceDays(raw: map<string, string>, nowMs: int, dateMs: string -> Option<int>): (n: JsNumber)
    ensures n.Finite? || n.NaN?
    ensures n.NaN? <==> CustomerSinceKey in raw && raw[CustomerSinceKey] != "" && dateMs(raw[CustomerSinceKey]).None?
  {
    if CustomerSinceKey in raw && raw[CustomerSinceKey] != "" then
      match dateMs(raw[CustomerSinceKey])
      case Some(ms) => Finite(((nowMs - ms) / MsPerDay) as real)
      case None => NaN
    else Finite(0.0)
  }

  // ---------------------------------------------------------------------
  // Step 3: numeric coercion of every non-categorical key

  function Coerce(key: string, v: JsValue): (w: JsValue)
    ensures key in CategoricalKeys ==> w == v
    ensures key !in CategoricalKeys ==> w.Num? && !w.n.NaN?
  {
    if key in CategoricalKeys then v else Num(NaNToZero(ToNumberOf(v)))
  }

  function Coerced(d: Record): (p: Record)
    ensures p.Keys == d.Keys
  {
    map k | k in d :: Coerce(k, d[k])
  }

  /** The `forEach` over `Object.keys(processedData)`, rewriting the record in place. */
  method CoerceNumbers(d: Record) returns (p: Record)
    ensures p == Coerced(d)
  {
    p := d;
    var todo := d.Keys;
    while todo != {}
      invariant todo <= d.Keys && p.Keys == d.Keys
      invariant forall k :: k in d && k !in todo ==> p[k] == Coerce(k, d[k])
      invariant forall k :: k in todo ==> p[k] == d[k]
      decreases todo
    {
      var k :| k in todo;
      p := p[k := Coerce(k, p[k])];
      todo := todo - {k};
    }
  }

  // ---------------------------------------------------------------------
  // Step 4: derived defaults and one-hot indicators

  /** `processedData[key] || 0` */
  function OrZero(p: Record, key: string): (v: JsValue)
    ensures key in p && Truthy(p[key]) ==> v == p[key]
    ensures !(key in p && Truthy(p[key])) ==> v == Zero
  {
    if key in p && Truthy(p[key]) then p[key] else Zero
  }

  /** `processedData[key] === expected ? 1 : 0` */
  function Indicator(p: Record, key: string, expected: JsValue): (v: JsValue)
    ensures v == One <==> key in p && p[key] == expected
    ensures v == Zero <==> !(key in p && p[key] == expected)
  {
    if key in p && p[key] == expected then One else Zero
  }

  /** Model features filled with `processedData[source] || 0`, keyed by feature. */
  const DefaultSources: map<string, string> := map[
    Doubtful := Doubtful,
    Doubtful12 := Doubtful12,
    Substandard := Substandard,
    Substandard12 := Substandard12,
    RecentDelinquency := MaxRecentDelinquency,
    CardEnquiries := CardEnquiries,
    PersonalLoanEnquiries := PersonalLoanEnquiries,
    TimeSinceEnquiry := TimeSinceEnquiry,
    Enquiries3m := Enquiries3m,
    NetMonthlyIncome := NetMonthlyIncome,
    TimeWithEmployer := TimeWithEmployer,
    CurrentBalanceShare := CurrentBalanceShare]

  /** One-hot features `processedData[source] === expected ? 1 : 0`, keyed by feature. */
  const IndicatorSources: map<string, (string, JsValue)> := map[
    MarriedFeature := (MaritalStatus, Num(Finite(2.0))),
    SingleFeature := (MaritalStatus, Num(Finite(1.0))),
    FemaleFeature := (Gender, Num(Finite(2.0))),
    MaleFeature := (Gender, Num(Finite(1.0))),
    LastProductAL := (LastProduct, Str("AL")),
    LastProductCC := (LastProduct, Str("CC")),
    LastProductConsumerLoan := (LastProduct, Str("ConsumerLoan")),
    LastProductHL := (LastProduct, Str("HL")),
    LastProductPL := (LastProduct, Str("PL")),
    LastProductOthers := (LastProduct, Str("Others")),
    FirstProductAL := (FirstProduct, Str("AL")),
    FirstProductCC := (FirstProduct, Str("CC")),
    FirstProductConsumerLoan := (FirstProduct, Str("ConsumerLoan")),
    FirstProductHL := (FirstProduct, Str("HL")),
    FirstProductPL := (FirstProduct, Str("PL")),
    FirstProductOthers := (FirstProduct, Str("Others"))]

  /** The entries that the object literal of step 4 lays over `...processedData`. */
  function Overlay(p: Record): (o: Record)
    ensures o.Keys == DefaultSources.Keys + IndicatorSources.Keys
  {
    (map k | k in DefaultSources :: OrZero(p, DefaultSources[k]))
    + (map k | k in IndicatorSources :: Indicator(p, IndicatorSources[k].0, IndicatorSources[k].1))
  }

  // ---------------------------------------------------------------------
  // Step 5: sanitation

  function Sanitary(v: JsValue): JsValue
  {
    if v.Num? && !v.n.NaN? then v else Zero
  }

  function Sanitized(t: Record): (u: Record)
    ensures u.Keys == t.Keys
    ensures forall k :: k in u ==> u[k].Num? && !u[k].n.NaN?
  {
    map k | k in t :: Sanitary(t[k])
  }

  /** The final `forEach` over `Object.keys(transformedData)`. */
  method SanitizeNumbers(t: Record) returns (u: Record)
    ensures u == Sanitized(t)
  {
    u := t;
    var todo := t.Keys;
    while todo != {}
      invariant todo <= t.Keys && u.Keys == t.Keys
      invariant forall k :: k in t && k !in todo ==> u[k] == Sanitary(t[k])
      invariant forall k :: k in todo ==> u[k] == t[k]
      decreases todo
    {
      var k :| k in todo;
      if !(u[k].Num? && !u[k].n.NaN?) {
        u := u[k := Zero];
      }
      todo := todo - {k};
    }
  }

  // ---------------------------------------------------------------------
  // The whole transformation

  /** `processedData` after steps 1 to 3. */
  function Processed(raw: map<string, string>, nowMs: int, dateMs: string -> Option<int>): Record
  {
    Coerced(Encoded(Lift(raw))[CustomerSinceKey := Num(SinceDays(raw, nowMs, dateMs))])
  }

  /** `transformedData` before sanitation: steps 1 to 4. */
  function Unsanitized(raw: map<string, string>, nowMs: int, dateMs: string -> Option<int>): Record
  {
    var p := Processed(raw, nowMs, dateMs);
    p + Overlay(p)
  }

  function Transform(raw: map<string, string>, nowMs: int, dateMs: string -> Option<int>): (t: Record)
    ensures forall k :: k in t ==> t[k].Num? && !t[k].n.NaN?
  {
    Sanitized(Unsanitized(raw, nowMs, dateMs))
  }

  /** The `customer_since` statement of `handleSubmit`, on the record after step 1. */
  method ConvertCustomerSince(p: Record, raw: map<string, string>, nowMs: int, dateMs: string -> Option<int>)
    returns (q: Record)
    requires Get(p, CustomerSinceKey) == Get(Lift(raw), CustomerSinceKey)
    ensures q == p[CustomerSinceKey := Num(SinceDays(raw, nowMs, dateMs))]
  {
    if CustomerSinceKey in p && Truthy(p[CustomerSinceKey]) {
      var customerDate := dateMs(p[CustomerSinceKey].s);
      match customerDate {
        case Some(ms) => q := p[CustomerSinceKey := Num(Finite(((nowMs - ms) / MsPerDay) as real))];
        case None => q := p[CustomerSinceKey := Num(NaN)];
      }
    } else {
      q := p[CustomerSinceKey := Zero];
    }
  }

  /** The feature-building part of `handleSubmit`. */
  method TransformFormData(raw: map<string, string>, nowMs: int, dateMs: string -> Option<int>) returns (t: Record)
    ensures t == Transform(raw, nowMs, dateMs)
  {
    var processed := map k | k in raw :: Str(raw[k]);
    assert processed == Lift(raw);
    processed := EncodeCategoricals(processed);
    EncodedValues(Lift(raw));
    processed := ConvertCustomerSince(processed, raw, nowMs, dateMs);
    processed := CoerceNumbers(processed);
    assert processed == Processed(raw, nowMs, dateMs);
    var transformed := processed + Overlay(processed);
    t := SanitizeNumbers(transformed);
  }

  // ---------------------------------------------------------------------
  // Properties of the transformation

  /** The code step 1 gives a categorical field of the raw form. */
  function LabelCode(raw: map<string, string>, field: string): (code: int)
    ensures code == 0 <==> !(field in raw && raw[field] in CategoryTable(field))
  {
    if field in raw && raw[field] in CategoryTable(field) then CategoryTable(field)[raw[field]] else 0
  }

  /** `Number(raw[key])` with NaN as 0, or 0 when the form has no such key. */
  function NumberField(raw: map<string, string>, key: string): JsValue
  {
    if key in raw then Num(NaNToZero(ToNumber(raw[key]))) else Zero
  }

  /** The keys every transformed record holds besides the form's own. */
  function FixedKeys(): set<string>
  {
    (set f | f in CategoricalKeys) + {CustomerSinceKey} + DefaultSources.Keys + IndicatorSources.Keys
  }

  /** After steps 1 to 3: the keys, the categorical codes, the day count, and `Number` of the rest. */
  lemma ProcessedValues(raw: map<string, string>, nowMs: int, dateMs: string -> Option<int>)
    ensures Processed(raw, nowMs, dateMs).Keys == raw.Keys + (set f | f in CategoricalKeys) + {CustomerSinceKey}
    ensures forall k :: k in Processed(raw, nowMs, dateMs) ==>
      Processed(raw, nowMs, dateMs)[k].Num? && !Processed(raw, nowMs, dateMs)[k].n.NaN?
    ensures forall f :: f in CategoricalKeys ==> Processed(raw, nowMs, dateMs)[f] == Num(Finite(LabelCode(raw, f) as real))
    ensures Processed(raw, nowMs, dateMs)[CustomerSinceKey] == Num(NaNToZero(SinceDays(raw, nowMs, dateMs)))
    ensures forall k :: k in raw && k !in CategoricalKeys && k != CustomerSinceKey ==>
      Processed(raw, nowMs, dateMs)[k] == NumberField(raw, k)
  {
    var d := Lift(raw);
    EncodedValues(d);
    var e := Encoded(d)[CustomerSinceKey := Num(SinceDays(raw, nowMs, dateMs))];
    assert forall f :: f in CategoricalKeys ==> CategoryCode(f, Get(d, f)) == LabelCode(raw, f);
    assert CustomerSinceKey !in CategoricalKeys;
    forall k | k in e
      ensures Coerce(k, e[k]).Num? && !Coerce(k, e[k]).n.NaN?
    {
    }
  }

  /** After steps 1 to 3 a categorical field holds the code of its label. */
  lemma ProcessedCode(raw: map<string, string>, nowMs: int, dateMs: string -> Option<int>, f: string)
    requires f in CategoricalKeys
    ensures f in Processed(raw, nowMs, dateMs)
    ensures Processed(raw, nowMs, dateMs)[f] == Num(Finite(LabelCode(raw, f) as real))
  {
    ProcessedValues(raw, nowMs, dateMs);
  }

  /** The output holds exactly the form's keys plus the fixed feature keys, each a number other than NaN. */
  lemma TransformKeysAndNumbers(raw: map<string, string>, nowMs: int, dateMs: string -> Option<int>)
    ensures Transform(raw, nowMs, dateMs).Keys == raw.Keys + FixedKeys()
    ensures forall k :: k in Transform(raw, nowMs, dateMs) ==>
      Transform(raw, nowMs, dateMs)[k].Num? && !Transform(raw, nowMs, dateMs)[k].n.NaN?
  {
    ProcessedValues(raw, nowMs, dateMs);
  }

  /** Over a record of numbers other than NaN, every entry of the overlay is such a number too. */
  lemma OverlayIsSanitary(p: Record)
    requires forall k :: k in p ==> p[k].Num? && !p[k].n.NaN?
    ensures forall k :: k in Overlay(p) ==> Sanitary(Overlay(p)[k]) == Overlay(p)[k]
  {
    forall k | k in Overlay(p)
      ensures Sanitary(Overlay(p)[k]) == Overlay(p)[k]
    {
      if k !in IndicatorSources {
        assert Overlay(p)[k] == OrZero(p, DefaultSources[k]);
      }
    }
  }

  /** The sanitation pass changes nothing: steps 1 to 4 already give numbers other than NaN. */
  lemma SanitationIsIdentity(raw: map<string, string>, nowMs: int, dateMs: string -> Option<int>)
    ensures Transform(raw, nowMs, dateMs) == Unsanitized(raw, nowMs, dateMs)
  {
    ProcessedValues(raw, nowMs, dateMs);
    var p := Processed(raw, nowMs, dateMs);
    var t := Unsanitized(raw, nowMs, dateMs);
    OverlayIsSanitary(p);
    forall k | k in t
      ensures Sanitary(t[k]) == t[k]
    {
      if k in Overlay(p) {
        assert t[k] == Overlay(p)[k];
      } else {
        assert t[k] == p[k];
      }
    }
  }

  lemma CategoricalNotDefaulted()
    ensures forall f :: f in CategoricalKeys ==> f !in DefaultSources
  {
    assert MaritalStatus !in DefaultSources;
    assert Education !in DefaultSources;
    assert Gender !in DefaultSources;
    assert IncomeSegment !in DefaultSources;
  }

  lemma CategoricalNotIndicated()
    ensures forall f :: f in CategoricalKeys ==> f !in IndicatorSources
  {
    assert MaritalStatus !in IndicatorSources;
    assert Education !in IndicatorSources;
    assert Gender !in IndicatorSources;
    assert IncomeSegment !in IndicatorSources;
  }

  /** The overlay of step 4 never replaces a categorical code or the day count. */
  lemma OverlayKeysAreNew()
    ensures forall f :: f in CategoricalKeys ==> f !in DefaultSources && f !in IndicatorSources
    ensures CustomerSinceKey !in DefaultSources && CustomerSinceKey !in IndicatorSources
  {
    CategoricalNotDefaulted();
    CategoricalNotIndicated();
  }

  /** Each categorical feature holds its table code, or 0 for a missing, empty or unknown label. */
  lemma TransformCategoricals(raw: map<string, string>, nowMs: int, dateMs: string -> Option<int>)
    ensures forall f :: f in CategoricalKeys ==>
      Get(Transform(raw, nowMs, dateMs), f) == Some(Num(Finite(LabelCode(raw, f) as real)))
  {
    var p := Processed(raw, nowMs, dateMs);
    ProcessedValues(raw, nowMs, dateMs);
    SanitationIsIdentity(raw, nowMs, dateMs);
    OverlayKeysAreNew();
  }

  /** Every form key the transformation does not name itself is `Number(value)`, NaN becoming 0. */
  lemma TransformPassThrough(raw: map<string, string>, nowMs: int, dateMs: string -> Option<int>)
    ensures forall k :: k in raw && k !in FixedKeys() ==> Get(Transform(raw, nowMs, dateMs), k) == Some(NumberField(raw, k))
  {
    ProcessedValues(raw, nowMs, dateMs);
    SanitationIsIdentity(raw, nowMs, dateMs);
  }

  /** `customer_since` is the whole number of days from the parsed date to now, 0 when empty, missing or invalid. */
  lemma TransformCustomerSince(raw: map<string, string>, nowMs: int, dateMs: string -> Option<int>)
    ensures Get(Transform(raw, nowMs, dateMs), CustomerSinceKey) == Some(
      if CustomerSinceKey in raw && raw[CustomerSinceKey] != "" && dateMs(raw[CustomerSinceKey]).Some?
      then Num(Finite(((nowMs - dateMs(raw[CustomerSinceKey]).value) / MsPerDay) as real))
      else Zero)
  {
    ProcessedValues(raw, nowMs, dateMs);
    SanitationIsIdentity(raw, nowMs, dateMs);
    OverlayKeysAreNew();
  }

  /** No source of a defaulted feature is a categorical field or `customer_since`. */
  lemma DefaultSourcesArePlain()
    ensures forall k :: k in DefaultSources ==> DefaultSources[k] !in CategoricalKeys && DefaultSources[k] != CustomerSinceKey
  {
    forall k | k in DefaultSources
      ensures DefaultSources[k] !in CategoricalKeys && DefaultSources[k] != CustomerSinceKey
    {
      var src := DefaultSources[k];
      assert src == k || src == MaxRecentDelinquency;
      assert src in {
        Doubtful, Doubtful12, Substandard, Substandard12, MaxRecentDelinquency, CardEnquiries,
        PersonalLoanEnquiries, TimeSinceEnquiry, Enquiries3m, NetMonthlyIncome, TimeWithEmployer,
        CurrentBalanceShare};
    }
  }

  /** The names of the defaulted features. */
  const DefaultFeatures: set<string> := {
    Doubtful, Doubtful12, Substandard, Substandard12, RecentDelinquency, CardEnquiries,
    PersonalLoanEnquiries, TimeSinceEnquiry, Enquiries3m, NetMonthlyIncome, TimeWithEmployer,
    CurrentBalanceShare}

  lemma DefaultsNotDemographic()
    ensures forall k :: k in DefaultFeatures ==> k !in {MarriedFeature, SingleFeature, FemaleFeature, MaleFeature}
  {
  }

  lemma DefaultsNotLastProduct()
    ensures forall k :: k in DefaultFeatures ==>
      k !in {LastProductAL, LastProductCC, LastProductConsumerLoan, LastProductHL, LastProductPL, LastProductOthers}
  {
  }

  lemma DefaultsNotFirstProduct()
    ensures forall k :: k in DefaultFeatures ==>
      k !in {FirstProductAL, FirstProductCC, FirstProductConsumerLoan, FirstProductHL, FirstProductPL, FirstProductOthers}
  {
  }

  /** No feature is both defaulted and one-hot. */
  lemma DefaultsNotIndicated()
    ensures forall k :: k in DefaultSources ==> k !in IndicatorSources
  {
    DefaultsNotDemographic();
    DefaultsNotLastProduct();
    DefaultsNotFirstProduct();
    assert forall k :: k in DefaultSources ==> k in DefaultFeatures;
    assert forall k :: k in IndicatorSources ==>
      (|| k in {MarriedFeature, SingleFeature, FemaleFeature, MaleFeature}
       || k in {LastProductAL, LastProductCC, LastProductConsumerLoan, LastProductHL, LastProductPL, LastProductOthers}
       || k in {FirstProductAL, FirstProductCC, FirstProductConsumerLoan, FirstProductHL, FirstProductPL, FirstProductOthers});
  }

  /** `processedData[src] || 0` for a field that steps 1 to 3 only pass through `Number`. */
  lemma OrZeroOfPlainField(raw: map<string, string>, nowMs: int, dateMs: string -> Option<int>, src: string)
    requires src !in CategoricalKeys && src != CustomerSinceKey
    ensures OrZero(Processed(raw, nowMs, dateMs), src) == NumberField(raw, src)
  {
    ProcessedValues(raw, nowMs, dateMs);
  }

  lemma TransformDefault(raw: map<string, string>, nowMs: int, dateMs: string -> Option<int>, k: string)
    requires k in DefaultSources
    ensures Get(Transform(raw, nowMs, dateMs), k) == Some(NumberField(raw, DefaultSources[k]))
  {
    DefaultSourcesArePlain();
    DefaultsNotIndicated();
    OrZeroOfPlainField(raw, nowMs, dateMs, DefaultSources[k]);
    SanitationIsIdentity(raw, nowMs, dateMs);
    var p := Processed(raw, nowMs, dateMs);
    assert Overlay(p)[k] == OrZero(p, DefaultSources[k]);
  }

  lemma DelinquencySource()
    ensures RecentDelinquency in DefaultSources
    ensures DefaultSources[RecentDelinquency] == MaxRecentDelinquency
  {
  }

  /** Each defaulted feature is its source field's number, or 0; `recent_level_of_deliq` comes from `max_recent_level_of_deliq`. */
  lemma TransformDefaults(raw: map<string, string>, nowMs: int, dateMs: string -> Option<int>)
    ensures forall k :: k in DefaultSources ==>
      Get(Transform(raw, nowMs, dateMs), k) == Some(NumberField(raw, DefaultSources[k]))
    ensures Get(Transform(raw, nowMs, dateMs), RecentDelinquency) == Some(NumberField(raw, MaxRecentDelinquency))
  {
    forall k | k in DefaultSources
      ensures Get(Transform(raw, nowMs, dateMs), k) == Some(NumberField(raw, DefaultSources[k]))
    {
      TransformDefault(raw, nowMs, dateMs, k);
    }
    DelinquencySource();
  }

  /** Each one-hot feature is the strict comparison of its source field after steps 1 to 3. */
  lemma TransformIndicator(raw: map<string, string>, nowMs: int, dateMs: string -> Option<int>, k: string)
    requires k in IndicatorSources
    ensures Get(Transform(raw, nowMs, dateMs), k) ==
      Some(Indicator(Processed(raw, nowMs, dateMs), IndicatorSources[k].0, IndicatorSources[k].1))
  {
    SanitationIsIdentity(raw, nowMs, dateMs);
  }

  /** The product-enquiry fields are already numbers when compared with strings, so those indicators are all 0. */
  lemma ProductIndicatorsAlwaysZero(raw: map<string, string>, nowMs: int, dateMs: string -> Option<int>)
    ensures forall k :: k in IndicatorSources && IndicatorSources[k].1.Str? ==>
      Get(Transform(raw, nowMs, dateMs), k) == Some(Zero)
  {
    ProcessedValues(raw, nowMs, dateMs);
    forall k | k in IndicatorSources && IndicatorSources[k].1.Str?
      ensures Get(Transform(raw, nowMs, dateMs), k) == Some(Zero)
    {
      TransformIndicator(raw, nowMs, dateMs, k);
    }
  }

  lemma MaritalSources()
    ensures MarriedFeature in IndicatorSources && IndicatorSources[MarriedFeature] == (MaritalStatus, Num(Finite(2.0)))
    ensures SingleFeature in IndicatorSources && IndicatorSources[SingleFeature] == (MaritalStatus, Num(Finite(1.0)))
  {
  }

  lemma GenderSources()
    ensures FemaleFeature in IndicatorSources && IndicatorSources[FemaleFeature] == (Gender, Num(Finite(2.0)))
    ensures MaleFeature in IndicatorSources && IndicatorSources[MaleFeature] == (Gender, Num(Finite(1.0)))
  {
  }

  lemma MaritalCodes(raw: map<string, string>)
    ensures LabelCode(raw, MaritalStatus) == 2 <==> MaritalStatus in raw && raw[MaritalStatus] == MarriedLabel
    ensures LabelCode(raw, MaritalStatus) == 1 <==> MaritalStatus in raw && raw[MaritalStatus] == SingleLabel
  {
  }

  lemma GenderCodes(raw: map<string, string>)
    ensures LabelCode(raw, Gender) == 2 <==> Gender in raw && raw[Gender] == FemaleLabel
    ensures LabelCode(raw, Gender) == 1 <==> Gender in raw && raw[Gender] == MaleLabel
  {
  }

  /** `MARITALSTATUS_Married` is 1 exactly for "Married" and `MARITALSTATUS_Single` exactly for "Single". */
  lemma MaritalIndicators(raw: map<string, string>, nowMs: int, dateMs: string -> Option<int>)
    ensures Get(Transform(raw, nowMs, dateMs), MarriedFeature) ==
      Some(if MaritalStatus in raw && raw[MaritalStatus] == MarriedLabel then One else Zero)
    ensures Get(Transform(raw, nowMs, dateMs), SingleFeature) ==
      Some(if MaritalStatus in raw && raw[MaritalStatus] == SingleLabel then One else Zero)
  {
    CategoricalKeysDiffer();
    ProcessedCode(raw, nowMs, dateMs, MaritalStatus);
    MaritalCodes(raw);
    MaritalSources();
    TransformIndicator(raw, nowMs, dateMs, MarriedFeature);
    TransformIndicator(raw, nowMs, dateMs, SingleFeature);
  }

  /** `GENDER_F` is 1 exactly for "Female" and `GENDER_M` exactly for "Male". */
  lemma GenderIndicators(raw: map<string, string>, nowMs: int, dateMs: string -> Option<int>)
    ensures Get(Transform(raw, nowMs, dateMs), FemaleFeature) ==
      Some(if Gender in raw && raw[Gender] == FemaleLabel then One else Zero)
    ensures Get(Transform(raw, nowMs, dateMs), MaleFeature) ==
      Some(if Gender in raw && raw[Gender] == MaleLabel then One else Zero)
  {
    CategoricalKeysDiffer();
    ProcessedCode(raw, nowMs, dateMs, Gender);
    GenderCodes(raw);
    GenderSources();
    TransformIndicator(raw, nowMs, dateMs, FemaleFeature);
    TransformIndicator(raw, nowMs, dateMs, MaleFeature);
  }

  /** The options the form's own selects offer for GENDER and EDUCATION. */
  const GenderOptions: seq<string> := ["F", "M"]
  const EducationOptions: seq<string> := ["12TH", "GRADUATE", "OTHERS", "POST-GRADUATE", "SSC", "UNDER GRADUATE"]

  /**
   * No option of the GENDER or EDUCATION select is a label of its table, so
   * a value chosen in the form is encoded as 0, and neither GENDER_F nor
   * GENDER_M is ever 1 for it.
   */
  lemma FormOptionsEncodeToZero(raw: map<string, string>, nowMs: int, dateMs: string -> Option<int>)
    ensures Gender in raw && raw[Gender] in GenderOptions ==>
      LabelCode(raw, Gender) == 0
      && Get(Transform(raw, nowMs, dateMs), FemaleFeature) == Some(Zero)
      && Get(Transform(raw, nowMs, dateMs), MaleFeature) == Some(Zero)
    ensures Education in raw && raw[Education] in EducationOptions ==> LabelCode(raw, Education) == 0
  {
    if Gender in raw {
      OptionsAreNotLabels(raw[Gender]);
      assert raw[Gender] in GenderOptions ==> raw[Gender] != FemaleLabel && raw[Gender] != MaleLabel;
    }
    if Education in raw {
      OptionsAreNotLabels(raw[Education]);
    }
    GenderIndicators(raw, nowMs, dateMs);
  }

  lemma OptionsAreNotLabels(o: string)
    ensures o in GenderOptions ==> o !in CategoryTable(Gender)
    ensures o in EducationOptions ==> o !in CategoryTable(Education)
  {
  }

  lemma InfinityText()
    ensures ToNumber(InfinityLiteral) == PosInf
  {
    var s := InfinityLiteral;
    assert TrimStart(s) == s by { assert !IsSpace(s[0]); }
    assert TrimEnd(s) == s by { assert !IsSpace(s[|s| - 1]); }
  }

  lemma PlainFeatureKey()
    ensures CardLines !in FixedKeys()
  {
    assert CardLines !in DefaultSources;
    assert CardLines !in IndicatorSources;
  }

  /** Only `isNaN` is checked: a form value "Infinity" reaches the model as Infinity. */
  lemma InfinityPassesSanitation(nowMs: int, dateMs: string -> Option<int>)
    ensures Get(Transform(map[CardLines := InfinityLiteral], nowMs, dateMs), CardLines) == Some(Num(PosInf))
  {
    var raw := map[CardLines := InfinityLiteral];
    PlainFeatureKey();
    InfinityText();
    TransformPassThrough(raw, nowMs, dateMs);
  }
}
