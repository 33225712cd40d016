/**
 * The `/process-file` endpoint of the scoring server (backend/main.py): an
 * uploaded sheet is coerced to numbers, MARITALSTATUS and GENDER are expanded
 * into indicator columns, the frame is aligned to the 56 feature columns the
 * model was trained on, and the model's class indices are decoded to labels.
 *
 * Reading the Excel bytes is outside the model: the handler receives the
 * sheet as a `Frame`. The loaded XGBoost model is a function from a feature
 * row to a class index, and the label encoder is its list of classes; a
 * failed load at startup is `None`.
 */
module ScoringServer {
  import opened Options
  import JsNumbers
  import opened Tables

  /** What the server loaded at startup: the classifier and `label_encoder_classes`. */
  datatype Loaded = Loaded(predict: seq<Cell> -> int, classes: seq<string>)

  /** The feature columns of the model, in the order it expects them, in six groups. */
  const RequiredColumns: seq<string> :=
    TradeLineColumns + DelinquencyColumns + EnquiryColumns + CustomerColumns + DerivedColumns + ProductColumns

  const TradeLineColumns: seq<string> := [
    "pct_tl_open_L6M", "pct_tl_closed_L6M", "Tot_TL_closed_L12M", "pct_tl_closed_L12M",
    "Tot_Missed_Pmnt", "CC_TL", "Home_TL", "PL_TL", "Secured_TL", "Unsecured_TL",
    "Other_TL", "Age_Oldest_TL", "Age_Newest_TL", "time_since_recent_payment"]

  const DelinquencyColumns: seq<string> := [
    "max_recent_level_of_deliq", "num_deliq_6_12mts", "num_times_60p_dpd",
    "num_std_12mts", "num_sub", "num_sub_6mts", "num_sub_12mts", "num_dbt",
    "num_dbt_12mts", "num_lss", "num_lss_12mts", "recent_level_of_deliq"]

  const EnquiryColumns: seq<string> := ["CC_enq_L12m", "PL_enq_L12m", "time_since_recent_enq", "enq_L3m"]

  const CustomerColumns: seq<string> := [
    "NETMONTHLYINCOME", "Time_With_Curr_Empr", "pct_currentBal_all_TL",
    "CC_Flag", "PL_Flag", "pct_PL_enq_L6m_of_ever", "pct_CC_enq_L6m_of_ever",
    "HL_Flag", "GL_Flag", "EDUCATION"]

  const DerivedColumns: seq<string> := [Married, Single, Female, Male]

  const ProductColumns: seq<string> := [
    "last_prod_enq2_AL", "last_prod_enq2_CC", "last_prod_enq2_ConsumerLoan", "last_prod_enq2_HL",
    "last_prod_enq2_PL", "last_prod_enq2_others", "first_prod_enq2_AL",
    "first_prod_enq2_CC", "first_prod_enq2_ConsumerLoan", "first_prod_enq2_HL",
    "first_prod_enq2_PL", "first_prod_enq2_others"]

  /** The two categorical source columns and the indicator columns derived from them. */
  const MaritalStatus: string := "MARITALSTATUS"
  const Gender: string := "GENDER"
  const Married: string := "MARITALSTATUS_Married"
  const Single: string := "MARITALSTATUS_Single"
  const Female: string := "GENDER_F"
  const Male: string := "GENDER_M"

  /** The four indicator columns the handler derives itself. */
  const IndicatorColumns: set<string> := {Married, Single, Female, Male}

  /** The two columns the expansion replaces. */
  const SourceColumns: set<string> := {MaritalStatus, Gender}

  // ---------------------------------------------------------------------
  // Step 1: every column to numbers

  /** `pd.to_numeric(..., errors='coerce').fillna(0)` on one cell: a number stays, a decimal text is read, anything else is 0. */
  function ToNumeric(c: Cell): (d: Cell)
    ensures d.Num?
    ensures c.Num? ==> d == c
    ensures c.Blank? ==> d == Num(0.0)
    ensures c.Text? && JsNumbers.ParseSignedDecimal(JsNumbers.Trim(c.s)).Some? ==> d == Num(JsNumbers.ParseSignedDecimal(JsNumbers.Trim(c.s)).value)
    ensures c.Text? && JsNumbers.ParseSignedDecimal(JsNumbers.Trim(c.s)).None? ==> d == Num(0.0)
  {
    match c
    case Num(_) => c
    case Blank => Num(0.0)
    case Text(s) =>
      match JsNumbers.ParseSignedDecimal(JsNumbers.Trim(s))
      case Some(r) => Num(r)
      case None => Num(0.0)
  }

  function NumericColumn(col: seq<Cell>): (d: seq<Cell>)
    ensures |d| == |col|
  {
    seq(|col|, i requires 0 <= i < |col| => ToNumeric(col[i]))
  }

  /** Converting a column twice is converting it once. */
  lemma NumericColumnIdempotent(col: seq<Cell>)
    ensures NumericColumn(NumericColumn(col)) == NumericColumn(col)
  {
  }

  predicate AllNumeric(f: Frame)
  {
    forall c, i :: c in f.cells && 0 <= i < |f.cells[c]| ==> f.cells[c][i].Num?
  }

  /** The frame after the conversion loop. */
  function Coerced(f: Frame): (g: Frame)
    requires WellFormed(f)
  {
    Frame(f.columns, map c | c in f.cells :: NumericColumn(f.cells[c]), f.height)
  }

  /** Conversion keeps the columns and their order and leaves only numbers. */
  lemma CoercedShape(f: Frame)
    requires WellFormed(f)
    ensures WellFormed(Coerced(f)) && AllNumeric(Coerced(f))
    ensures Coerced(f).columns == f.columns && Coerced(f).height == f.height
    ensures forall c :: c in Coerced(f).cells <==> c in f.cells
  {
  }

  /** The frame after the first `i` rounds of the conversion loop. */
  function CoercedUpTo(f: Frame, i: nat): (g: Frame)
    requires WellFormed(f) && i <= |f.columns|
    ensures WellFormed(g) && g.columns == f.columns && g.height == f.height
  {
    Frame(f.columns, map c | c in f.cells :: if c in f.columns[..i] then NumericColumn(f.cells[c]) else f.cells[c], f.height)
  }

  /** Round `i` converts column `f.columns[i]`; a name seen before is already converted, and converting it again changes nothing. */
  lemma CoercedStep(f: Frame, i: nat)
    requires WellFormed(f) && i < |f.columns|
    ensures var g := CoercedUpTo(f, i);
      CoercedUpTo(f, i + 1) == SetColumn(g, f.columns[i], NumericColumn(g.cells[f.columns[i]]))
  {
    var col := f.columns[i];
    var g := CoercedUpTo(f, i);
    NumericColumnIdempotent(f.cells[col]);
    var h := CoercedUpTo(f, i + 1);
    assert f.columns[..i + 1] == f.columns[..i] + [col];
    forall c | c in f.cells
      ensures h.cells[c] == g.cells[col := NumericColumn(g.cells[col])][c]
    {
      if c != col {
        assert c in f.columns[..i + 1] <==> c in f.columns[..i];
      }
    }
    assert h.cells == g.cells[col := NumericColumn(g.cells[col])];
  }

  lemma CoercedBounds(f: Frame)
    requires WellFormed(f)
    ensures CoercedUpTo(f, 0) == f
    ensures CoercedUpTo(f, |f.columns|) == Coerced(f)
  {
    assert f.columns[..0] == [];
    assert CoercedUpTo(f, 0).cells == f.cells;
    assert f.columns[..|f.columns|] == f.columns;
  }

  /** `for col in df.columns: df[col] = pd.to_numeric(df[col], errors='coerce').fillna(0)`. */
  method CoerceColumns(f: Frame) returns (g: Frame)
    requires WellFormed(f)
    ensures g == Coerced(f)
  {
    CoercedBounds(f);
    g := f;
    var i := 0;
    while i < |f.columns|
      invariant 0 <= i <= |f.columns|
      invariant g == CoercedUpTo(f, i)
    {
      var col := f.columns[i];
      CoercedStep(f, i);
      g := SetColumn(g, col, NumericColumn(g.cells[col]));
      i := i + 1;
    }
  }

  // ---------------------------------------------------------------------
  // Step 2: indicator columns

  /** `(df[source] == value).astype(int)`. */
  function Indicator(col: seq<Cell>, value: real): (d: seq<Cell>)
    ensures |d| == |col|
    ensures forall i :: 0 <= i < |col| ==> (d[i] == Num(1.0) <==> col[i] == Num(value))
    ensures forall i :: 0 <= i < |col| ==> (d[i] == Num(0.0) <==> col[i] != Num(value))
    ensures forall i :: 0 <= i < |col| ==> d[i].Num?
  {
    seq(|col|, i requires 0 <= i < |col| => if col[i] == Num(value) then Num(1.0) else Num(0.0))
  }

  /** The indicator names differ from each other and from the source columns. */
  lemma IndicatorNames()
    ensures IndicatorColumns == {Married, Single, Female, Male}
    ensures Married != Single && Female != Male
    ensures Married != Female && Married != Male
    ensures Single != Female && Single != Male
    ensures MaritalStatus !in IndicatorColumns && Gender !in IndicatorColumns
  {
  }

  /** Setting a numeric column keeps a frame numeric. */
  lemma SetColumnNumeric(f: Frame, name: string, values: seq<Cell>)
    requires WellFormed(f) && AllNumeric(f) && |values| == f.height
    requires forall i :: 0 <= i < |values| ==> values[i].Num?
    ensures AllNumeric(SetColumn(f, name, values))
  {
  }

  /** `df[name] = (df[source] == code).astype(int)`. */
  function WithIndicator(df: Frame, name: string, source: string, code: real): (g: Frame)
    requires WellFormed(df) && source in df.cells && name != source
    ensures WellFormed(g) && g.height == df.height
    ensures forall c :: c in g.cells <==> c in df.cells || c == name
    ensures g.cells[name] == Indicator(df.cells[source], code)
    ensures forall c :: c in df.cells && c != name ==> g.cells[c] == df.cells[c]
    ensures AllNumeric(df) ==> AllNumeric(g)
  {
    SetColumn(df, name, Indicator(df.cells[source], code))
  }

  /** `MARITALSTATUS_Married` (code 2) and `MARITALSTATUS_Single` (code 1). */
  function WithMaritalIndicators(df: Frame): (g: Frame)
    requires WellFormed(df) && MaritalStatus in df.cells
    ensures WellFormed(g) && g.height == df.height
    ensures forall c :: c in g.cells <==> c in df.cells || c == Married || c == Single
    ensures forall c :: c in df.cells && c != Married && c != Single ==> g.cells[c] == df.cells[c]
    ensures g.cells[Married] == Indicator(df.cells[MaritalStatus], 2.0)
    ensures g.cells[Single] == Indicator(df.cells[MaritalStatus], 1.0)
    ensures AllNumeric(df) ==> AllNumeric(g)
  {
    var df1 := WithIndicator(df, Married, MaritalStatus, 2.0);
    WithIndicator(df1, Single, MaritalStatus, 1.0)
  }

  /** `GENDER_F` (code 2) and `GENDER_M` (code 1). */
  function WithGenderIndicators(df: Frame): (g: Frame)
    requires WellFormed(df) && Gender in df.cells
    ensures WellFormed(g) && g.height == df.height
    ensures forall c :: c in g.cells <==> c in df.cells || c == Female || c == Male
    ensures forall c :: c in df.cells && c != Female && c != Male ==> g.cells[c] == df.cells[c]
    ensures g.cells[Female] == Indicator(df.cells[Gender], 2.0)
    ensures g.cells[Male] == Indicator(df.cells[Gender], 1.0)
    ensures AllNumeric(df) ==> AllNumeric(g)
  {
    var df1 := WithIndicator(df, Female, Gender, 2.0);
    WithIndicator(df1, Male, Gender, 1.0)
  }

  /** The frame with the four indicator columns set from the two (converted) source columns. */
  function WithIndicators(df: Frame): (g: Frame)
    requires WellFormed(df) && MaritalStatus in df.cells && Gender in df.cells
    ensures WellFormed(g) && g.height == df.height
    ensures forall c :: c in g.cells <==> c in df.cells || c in IndicatorColumns
    ensures forall c :: c in df.cells && c !in IndicatorColumns ==> g.cells[c] == df.cells[c]
    ensures g.cells[Married] == Indicator(df.cells[MaritalStatus], 2.0)
    ensures g.cells[Single] == Indicator(df.cells[MaritalStatus], 1.0)
    ensures g.cells[Female] == Indicator(df.cells[Gender], 2.0)
    ensures g.cells[Male] == Indicator(df.cells[Gender], 1.0)
    ensures AllNumeric(df) ==> AllNumeric(g)
  {
    IndicatorNames();
    WithGenderIndicators(WithMaritalIndicators(df))
  }

  /**
   * The frame after the indicator columns are added and MARITALSTATUS and
   * GENDER dropped; a missing source column is pandas' KeyError, whose text
   * is the quoted column name.
   */
  function Expanded(df: Frame): (r: Result<Frame, HttpError>)
    requires WellFormed(df)
    ensures r.Ok? ==> WellFormed(r.value) && r.value.height == df.height
  {
    if MaritalStatus !in df.cells then Err(HttpError(400, "'MARITALSTATUS'"))
    else if Gender !in df.cells then Err(HttpError(400, "'GENDER'"))
    else
      Ok(DropColumns(WithIndicators(df), SourceColumns))
  }

  /**
   * Whether the upload reaches the model: the frame aligned to the feature
   * columns, or the error raised first. `df.empty` is checked before the
   * conversion; every error of the handler's body becomes status 400.
   */
  function Prepared(upload: Frame): (r: Result<Frame, HttpError>)
    requires WellFormed(upload)
    ensures r.Ok? ==> WellFormed(r.value) && r.value.columns == RequiredColumns && r.value.height == upload.height
  {
    if Empty(upload) then Err(HttpError(400, "Received empty dataset"))
    else
      CoercedShape(upload);
      match Expanded(Coerced(upload))
      case Err(e) => Err(e)
      case Ok(df) =>
        AlignedColumns(df, RequiredColumns);
        Ok(Aligned(df, RequiredColumns))
  }

  // ---------------------------------------------------------------------
  // Step 3: prediction and label decoding

  /** numpy accepts an index in `-n..n-1`; a negative one counts from the end. */
  predicate InBounds(p: int, n: nat)
  {
    -(n as int) <= p < n
  }

  function Wrap(p: int, n: nat): (k: nat)
    requires InBounds(p, n)
    ensures k < n && (p >= 0 ==> k == p) && (p < 0 ==> k == n + p)
  {
    if p < 0 then n + p else p
  }

  /** The position of the first out-of-bounds index in `raw`, or `|raw|` when there is none. */
  function FirstOutOfBounds(raw: seq<int>, n: nat): (i: nat)
    ensures i <= |raw|
    ensures forall j :: 0 <= j < i ==> InBounds(raw[j], n)
    ensures i < |raw| ==> !InBounds(raw[i], n)
  {
    if raw == [] then 0
    else if !InBounds(raw[0], n) then 0
    else 1 + FirstOutOfBounds(raw[1..], n)
  }

  function IndexErrorText(p: int, n: nat): string
  {
    "index " + JsNumbers.IntText(p) + " is out of bounds for axis 0 with size " + JsNumbers.NatText(n)
  }

  /** `label_encoder_classes[predictions]`, numpy's fancy indexing, which stops at the first bad index. */
  function Decode(classes: seq<string>, raw: seq<int>): (r: Result<seq<string>, HttpError>)
    ensures r.Ok? <==> forall j :: 0 <= j < |raw| ==> InBounds(raw[j], |classes|)
    ensures r.Ok? ==> |r.value| == |raw| && forall j :: 0 <= j < |raw| ==> r.value[j] in classes
    ensures r.Err? ==> r.error.status == 400
  {
    var bad := FirstOutOfBounds(raw, |classes|);
    if bad < |raw| then Err(HttpError(400, "Error converting predictions: " + IndexErrorText(raw[bad], |classes|)))
    else Ok(seq(|raw|, j requires 0 <= j < |raw| && InBounds(raw[j], |classes|) => classes[Wrap(raw[j], |classes|)]))
  }

  /** The reply of `process_file`: the predicted labels, or the HTTP error. */
  function Serve(model: Option<Loaded>, upload: Frame): (r: Result<seq<string>, HttpError>)
    requires WellFormed(upload)
    ensures r.Ok? ==> model.Some? && |r.value| == upload.height
    ensures r.Ok? ==> forall j :: 0 <= j < |r.value| ==> r.value[j] in model.value.classes
    ensures r.Err? ==> r.error.status == 400 || r.error.status == 500
  {
    if model.None? then Err(HttpError(500, "Model not loaded"))
    else match Prepared(upload)
      case Err(e) => Err(e)
      case Ok(df) => Decode(model.value.classes, Predictions(model.value.predict, df))
  }

  /** The preparation steps of the handler, up to `df = df[required_columns]`. */
  method PrepareFrame(upload: Frame) returns (r: Result<Frame, HttpError>)
    requires WellFormed(upload)
    ensures r == Prepared(upload)
  {
    if Empty(upload) {
      return Err(HttpError(400, "Received empty dataset"));
    }
    var df := CoerceColumns(upload);
    CoercedShape(upload);
    var expanded := Expanded(df);
    if expanded.Err? {
      return Err(expanded.error);
    }
    var filled := FillMissing(expanded.value, RequiredColumns);
    r := Ok(SelectFilled(expanded.value, filled, RequiredColumns));
  }

  /** `model.predict(df)`, row by row. */
  method PredictRows(model: Loaded, df: Frame) returns (predictions: seq<int>)
    requires WellFormed(df)
    ensures predictions == Predictions(model.predict, df)
  {
    predictions := [];
    var r := 0;
    while r < df.height
      invariant 0 <= r <= df.height
      invariant predictions == Predictions(model.predict, df)[..r]
    {
      predictions := predictions + [model.predict(Row(df, r))];
      r := r + 1;
    }
  }

  /** `label_encoder_classes[predictions]`, index by index. */
  method DecodePredictions(classes: seq<string>, predictions: seq<int>) returns (reply: Result<seq<string>, HttpError>)
    ensures reply == Decode(classes, predictions)
  {
    var labels: seq<string> := [];
    var j := 0;
    while j < |predictions|
      invariant 0 <= j <= |predictions|
      invariant forall k :: 0 <= k < j ==> InBounds(predictions[k], |classes|)
      invariant |labels| == j
      invariant forall k :: 0 <= k < j ==> labels[k] == classes[Wrap(predictions[k], |classes|)]
    {
      var p := predictions[j];
      if !(-|classes| <= p < |classes|) {
        assert FirstOutOfBounds(predictions, |classes|) == j;
        return Err(HttpError(400, "Error converting predictions: " + IndexErrorText(p, |classes|)));
      }
      var k := if p < 0 then |classes| + p else p;
      labels := labels + [classes[k]];
      j := j + 1;
    }
    assert FirstOutOfBounds(predictions, |classes|) == |predictions|;
    assert labels == seq(|predictions|, k requires 0 <= k < |predictions| && InBounds(predictions[k], |classes|) =>
                           classes[Wrap(predictions[k], |classes|)]);
    reply := Ok(labels);
  }

  /** The handler. */
  method ProcessFile(model: Option<Loaded>, upload: Frame) returns (reply: Result<seq<string>, HttpError>)
    requires WellFormed(upload)
    ensures reply == Serve(model, upload)
  {
    if model.None? {
      return Err(HttpError(500, "Model not loaded"));
    }
    var prepared := PrepareFrame(upload);
    if prepared.Err? {
      return Err(prepared.error);
    }
    var df := prepared.value;
    var predictions := PredictRows(model.value, df);
    reply := DecodePredictions(model.value.classes, predictions);
  }

  // ---------------------------------------------------------------------
  // Properties

  /** The error replies, in the order the handler meets them. */
  lemma ServeErrors(model: Option<Loaded>, upload: Frame)
    requires WellFormed(upload)
    ensures model.None? ==> Serve(model, upload) == Err(HttpError(500, "Model not loaded"))
    ensures model.Some? && Empty(upload) ==> Serve(model, upload) == Err(HttpError(400, "Received empty dataset"))
    ensures model.Some? && !Empty(upload) && MaritalStatus !in upload.cells ==>
      Serve(model, upload) == Err(HttpError(400, "'MARITALSTATUS'"))
    ensures model.Some? && !Empty(upload) && MaritalStatus in upload.cells && Gender !in upload.cells ==>
      Serve(model, upload) == Err(HttpError(400, "'GENDER'"))
  {
    if model.Some? && !Empty(upload) {
      CoercedShape(upload);
    }
  }

  /** The two source columns are not features themselves, so the drop removes them for good. */
  lemma SourcesAreNotFeatures()
    ensures MaritalStatus !in RequiredColumns && Gender !in RequiredColumns
  {
    SourcesAreNotRecordColumns();
    SourcesAreNotCustomerColumns();
  }

  lemma SourcesAreNotRecordColumns()
    ensures MaritalStatus !in TradeLineColumns + DelinquencyColumns + EnquiryColumns
    ensures Gender !in TradeLineColumns + DelinquencyColumns + EnquiryColumns
  {
  }

  lemma SourcesAreNotCustomerColumns()
    ensures MaritalStatus !in CustomerColumns + DerivedColumns + ProductColumns
    ensures Gender !in CustomerColumns + DerivedColumns + ProductColumns
  {
  }

  /** The derived indicators are among the features. */
  lemma IndicatorsAreFeatures()
    ensures forall c :: c in IndicatorColumns ==> c in RequiredColumns
  {
    assert forall c :: c in IndicatorColumns ==> c in DerivedColumns;
  }

  /** With both source columns present, the expansion is the indicator frame without the two sources. */
  lemma ExpandedFrame(co: Frame)
    requires WellFormed(co) && MaritalStatus in co.cells && Gender in co.cells
    ensures Expanded(co) == Ok(DropColumns(WithIndicators(co), SourceColumns))
  {
  }

  lemma SourceColumn(c: string)
    ensures c in SourceColumns <==> c == MaritalStatus || c == Gender
  {
  }

  lemma IndicatorFrameKey(co: Frame, c: string)
    requires WellFormed(co) && MaritalStatus in co.cells && Gender in co.cells
    ensures c in WithIndicators(co).cells <==> c in co.cells || c in IndicatorColumns
  {
  }

  /** The expansion's columns: the upload's and the four indicators, without the two sources; all numeric. */
  lemma ExpandedKeys(co: Frame)
    requires WellFormed(co) && AllNumeric(co)
    requires MaritalStatus in co.cells && Gender in co.cells
    ensures Expanded(co).Ok?
    ensures forall c :: c in Expanded(co).value.cells <==>
      (c in co.cells || c in IndicatorColumns) && c != MaritalStatus && c != Gender
    ensures AllNumeric(Expanded(co).value)
  {
    ExpandedFrame(co);
    var wi := WithIndicators(co);
    var ex := DropColumns(wi, SourceColumns);
    forall c
      ensures c in ex.cells <==> (c in co.cells || c in IndicatorColumns) && c != MaritalStatus && c != Gender
    {
      DroppedKey(wi, SourceColumns, c);
      IndicatorFrameKey(co, c);
      SourceColumn(c);
    }
    forall c, i | c in ex.cells && 0 <= i < |ex.cells[c]|
      ensures ex.cells[c][i].Num?
    {
      DroppedKey(wi, SourceColumns, c);
      DroppedCells(wi, SourceColumns, c);
    }
  }

  /** The expansion's cells: the indicators compare their source with the code, the rest are unchanged. */
  lemma ExpandedCells(co: Frame)
    requires WellFormed(co) && MaritalStatus in co.cells && Gender in co.cells
    ensures Expanded(co).Ok?
    ensures var ex := Expanded(co).value;
      && Married in ex.cells && Single in ex.cells && Female in ex.cells && Male in ex.cells
      && ex.cells[Married] == Indicator(co.cells[MaritalStatus], 2.0)
      && ex.cells[Single] == Indicator(co.cells[MaritalStatus], 1.0)
      && ex.cells[Female] == Indicator(co.cells[Gender], 2.0)
      && ex.cells[Male] == Indicator(co.cells[Gender], 1.0)
      && forall c :: c in ex.cells && c !in IndicatorColumns ==> ex.cells[c] == co.cells[c]
  {
    IndicatorNames();
    ExpandedFrame(co);
  }

  /**
   * With both source columns present, the expansion adds the four indicators
   * (each comparing its source column with the code), removes the two
   * sources and keeps every other column as it was.
   */
  lemma ExpandedColumns(co: Frame)
    requires WellFormed(co) && AllNumeric(co)
    requires MaritalStatus in co.cells && Gender in co.cells
    ensures Expanded(co).Ok?
    ensures var ex := Expanded(co).value;
      && (forall c :: c in ex.cells <==> (c in co.cells || c in IndicatorColumns) && c != MaritalStatus && c != Gender)
      && AllNumeric(ex)
      && Married in ex.cells && Single in ex.cells && Female in ex.cells && Male in ex.cells
      && ex.cells[Married] == Indicator(co.cells[MaritalStatus], 2.0)
      && ex.cells[Single] == Indicator(co.cells[MaritalStatus], 1.0)
      && ex.cells[Female] == Indicator(co.cells[Gender], 2.0)
      && ex.cells[Male] == Indicator(co.cells[Gender], 1.0)
      && forall c :: c in ex.cells && c !in IndicatorColumns ==> ex.cells[c] == co.cells[c]
  {
    ExpandedKeys(co);
    ExpandedCells(co);
  }

  /** Alignment adds only zero columns, so it keeps a frame numeric. */
  lemma AlignedNumeric(f: Frame, required: seq<string>)
    requires WellFormed(f) && AllNumeric(f)
    ensures AllNumeric(Aligned(f, required))
  {
    AlignedColumns(f, required);
    var g := Aligned(f, required);
    forall c, i | c in g.cells && 0 <= i < |g.cells[c]|
      ensures g.cells[c][i].Num?
    {
      if c !in f.cells {
        assert g.cells[c] == Zeros(f.height);
      }
    }
  }

  /** An upload with rows, columns, MARITALSTATUS and GENDER always reaches the model. */
  lemma PreparedSucceeds(upload: Frame)
    requires WellFormed(upload) && !Empty(upload)
    requires MaritalStatus in upload.cells && Gender in upload.cells
    ensures Prepared(upload).Ok?
  {
    CoercedShape(upload);
  }

  /** The prepared frame is the expansion of the converted upload, aligned to the features. */
  lemma PreparedIsAligned(upload: Frame)
    requires WellFormed(upload) && !Empty(upload)
    requires MaritalStatus in upload.cells && Gender in upload.cells
    ensures WellFormed(Coerced(upload)) && AllNumeric(Coerced(upload)) && Coerced(upload).height == upload.height
    ensures MaritalStatus in Coerced(upload).cells && Gender in Coerced(upload).cells
    ensures Expanded(Coerced(upload)).Ok?
    ensures Prepared(upload) == Ok(Aligned(Expanded(Coerced(upload)).value, RequiredColumns))
  {
    CoercedShape(upload);
  }

  /** Alignment keeps the indicators of an expanded frame when they are among the required columns. */
  lemma AlignedIndicators(co: Frame, required: seq<string>)
    requires WellFormed(co) && AllNumeric(co) && MaritalStatus in co.cells && Gender in co.cells
    requires forall c :: c in IndicatorColumns ==> c in required
    ensures Expanded(co).Ok?
    ensures var df := Aligned(Expanded(co).value, required);
      && WellFormed(df) && df.columns == required && df.height == co.height && AllNumeric(df)
      && (forall c :: c in IndicatorColumns ==> c in df.cells)
      && df.cells[Married] == Indicator(co.cells[MaritalStatus], 2.0)
      && df.cells[Single] == Indicator(co.cells[MaritalStatus], 1.0)
      && df.cells[Female] == Indicator(co.cells[Gender], 2.0)
      && df.cells[Male] == Indicator(co.cells[Gender], 1.0)
  {
    ExpandedColumns(co);
    var ex := Expanded(co).value;
    AlignedColumns(ex, required);
    AlignedNumeric(ex, required);
  }

  /** Alignment passes every other required column of the converted frame through, and zero-fills the rest. */
  lemma AlignedPassThrough(co: Frame, required: seq<string>)
    requires WellFormed(co) && AllNumeric(co) && MaritalStatus in co.cells && Gender in co.cells
    requires MaritalStatus !in required && Gender !in required
    ensures Expanded(co).Ok?
    ensures var df := Aligned(Expanded(co).value, required);
      forall c :: c in required && c !in IndicatorColumns ==>
        c in df.cells && df.cells[c] == if c in co.cells then co.cells[c] else Zeros(co.height)
  {
    ExpandedColumns(co);
    var ex := Expanded(co).value;
    AlignedColumns(ex, required);
  }

  /**
   * An upload with rows, columns, MARITALSTATUS and GENDER reaches the model
   * as exactly the 56 feature columns, in order and all numeric, and each
   * derived indicator compares the converted source column with its code.
   */
  lemma PreparedFeatures(upload: Frame)
    requires WellFormed(upload) && !Empty(upload)
    requires MaritalStatus in upload.cells && Gender in upload.cells
    ensures Prepared(upload).Ok?
    ensures var df := Prepared(upload).value;
      && WellFormed(df) && df.columns == RequiredColumns && df.height == upload.height && AllNumeric(df)
      && (forall c :: c in IndicatorColumns ==> c in df.cells)
      && df.cells[Married] == Indicator(NumericColumn(upload.cells[MaritalStatus]), 2.0)
      && df.cells[Single] == Indicator(NumericColumn(upload.cells[MaritalStatus]), 1.0)
      && df.cells[Female] == Indicator(NumericColumn(upload.cells[Gender]), 2.0)
      && df.cells[Male] == Indicator(NumericColumn(upload.cells[Gender]), 1.0)
  {
    PreparedIsAligned(upload);
    IndicatorsAreFeatures();
    AlignedIndicators(Coerced(upload), RequiredColumns);
  }

  /** Every other feature the upload has is its converted column, and every feature it lacks is 0. */
  lemma PreparedPassThrough(upload: Frame)
    requires WellFormed(upload) && !Empty(upload)
    requires MaritalStatus in upload.cells && Gender in upload.cells
    ensures Prepared(upload).Ok?
    ensures var df := Prepared(upload).value;
      forall c :: c in RequiredColumns && c !in IndicatorColumns ==>
        c in df.cells && df.cells[c] == if c in upload.cells then NumericColumn(upload.cells[c]) else Zeros(upload.height)
  {
    PreparedIsAligned(upload);
    SourcesAreNotFeatures();
    AlignedPassThrough(Coerced(upload), RequiredColumns);
  }

  /** A row has at most one marital indicator and at most one gender indicator set. */
  lemma IndicatorsExclusive(upload: Frame, r: nat)
    requires WellFormed(upload) && !Empty(upload)
    requires MaritalStatus in upload.cells && Gender in upload.cells
    requires r < upload.height
    ensures Prepared(upload).Ok?
    ensures var df := Prepared(upload).value;
      && (forall c :: c in IndicatorColumns ==> c in df.cells)
      && !(df.cells[Married][r] == Num(1.0) && df.cells[Single][r] == Num(1.0))
      && !(df.cells[Female][r] == Num(1.0) && df.cells[Male][r] == Num(1.0))
  {
    PreparedFeatures(upload);
    var df := Prepared(upload).value;
    var marital := NumericColumn(upload.cells[MaritalStatus]);
    var gender := NumericColumn(upload.cells[Gender]);
    assert df.cells[Married][r] == Num(1.0) ==> marital[r] == Num(2.0);
    assert df.cells[Single][r] == Num(1.0) ==> marital[r] == Num(1.0);
    assert df.cells[Female][r] == Num(1.0) ==> gender[r] == Num(2.0);
    assert df.cells[Male][r] == Num(1.0) ==> gender[r] == Num(1.0);
  }

  /**
   * Decoding yields labels exactly when every index is one numpy accepts;
   * the label at position r is then the class at that (possibly negative)
   * index, and otherwise the error names an index that is out of bounds.
   */
  lemma DecodeMeaning(classes: seq<string>, raw: seq<int>)
    ensures var reply := Decode(classes, raw);
      && (reply.Ok? <==> forall r :: 0 <= r < |raw| ==> InBounds(raw[r], |classes|))
      && (reply.Ok? ==> |reply.value| == |raw|
                        && forall r :: 0 <= r < |raw| ==> reply.value[r] == classes[Wrap(raw[r], |classes|)])
      && (reply.Err? ==> reply.error.status == 400
                         && (exists r :: 0 <= r < |raw| && !InBounds(raw[r], |classes|)
                               && reply.error.detail == "Error converting predictions: " + IndexErrorText(raw[r], |classes|)))
  {
  }

  /** With the features ready, the reply is the decoding of the model's indices for the rows. */
  lemma ServeDecodes(model: Loaded, upload: Frame)
    requires WellFormed(upload) && Prepared(upload).Ok?
    ensures Serve(Some(model), upload) == Decode(model.classes, Predictions(model.predict, Prepared(upload).value))
  {
  }

  /**
   * Once the features are ready, the reply is the list of labels exactly when
   * every predicted index is one numpy accepts, and then the label of row r
   * is the class at that (possibly negative) index; otherwise it names the
   * first bad index.
   */
  lemma ServeLabels(model: Loaded, upload: Frame)
    requires WellFormed(upload) && Prepared(upload).Ok?
    ensures var df := Prepared(upload).value;
      WellFormed(df) && df.height == upload.height
    ensures var df := Prepared(upload).value;
      var raw := Predictions(model.predict, df);
      var reply := Serve(Some(model), upload);
      && (reply.Ok? <==> forall r :: 0 <= r < |raw| ==> InBounds(raw[r], |model.classes|))
      && (reply.Ok? ==> |reply.value| == upload.height
                        && forall r :: 0 <= r < |raw| ==> reply.value[r] == model.classes[Wrap(raw[r], |model.classes|)])
      && (reply.Err? ==> reply.error.status == 400
                         && (exists r :: 0 <= r < |raw| && !InBounds(raw[r], |model.classes|)
                               && reply.error.detail == "Error converting predictions: " + IndexErrorText(raw[r], |model.classes|)))
  {
    ServeDecodes(model, upload);
    DecodeMeaning(model.classes, Predictions(model.predict, Prepared(upload).value));
  }

  /** Indices that are all valid positions decode to one class each. */
  lemma DecodeInRange(classes: seq<string>, raw: seq<int>)
    requires forall r :: 0 <= r < |raw| ==> 0 <= raw[r] < |classes|
    ensures var reply := Decode(classes, raw);
      reply.Ok? && |reply.value| == |raw| && forall r :: 0 <= r < |raw| ==> reply.value[r] == classes[raw[r]]
    ensures Decode(classes, raw).Ok? && forall r :: 0 <= r < |raw| ==> Decode(classes, raw).value[r] in classes
  {
    var labels := Decode(classes, raw).value;
    forall r | 0 <= r < |raw|
      ensures labels[r] in classes
    {
      assert labels[r] == classes[raw[r]];
    }
  }

  /** A model whose indices are always valid classes answers every well-shaped upload with one known label per row. */
  lemma ValidModelLabelsEveryRow(model: Loaded, upload: Frame)
    requires WellFormed(upload) && !Empty(upload)
    requires MaritalStatus in upload.cells && Gender in upload.cells
    requires forall row :: 0 <= model.predict(row) < |model.classes|
    ensures var reply := Serve(Some(model), upload);
      reply.Ok? && |reply.value| == upload.height && forall r :: 0 <= r < upload.height ==> reply.value[r] in model.classes
  {
    PreparedSucceeds(upload);
    ServeDecodes(model, upload);
    var df := Prepared(upload).value;
    var raw := Predictions(model.predict, df);
    forall r | 0 <= r < |raw|
      ensures 0 <= raw[r] < |model.classes|
    {
      var row := Row(df, r);
      assert raw[r] == model.predict(row);
    }
    DecodeInRange(model.classes, raw);
  }
}
