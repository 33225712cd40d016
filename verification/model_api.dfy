/**
 * The `/process-file` endpoint of the second scoring server (ml_model/api.py).
 * PROSPECTID is set aside as the customer IDs, EDUCATION is mapped to a
 * level, four categorical columns become dummy columns, two columns get a
 * default of 0, the frame is aligned to the booster's feature names, and the
 * predicted class indices are decoded by the label encoder. Every failure of
 * the handler is HTTP 500 with the exception's text.
 *
 * Reading the Excel file, and saving and removing its copy on disk, are
 * outside the model: the handler receives the sheet as a `Frame`. The booster
 * is a function from a feature row to a class index. A failed load at startup
 * stops the server, so the handler always has a model.
 */
module ModelApi {
  import opened Options
  import JsNumbers
  import opened Tables

  /**
   * What startup loaded: `get_booster().feature_names` (absent for a booster
   * trained without names), the classifier, and `label_encoder.classes_`.
   */
  datatype Model = Model(featureNames: Option<seq<string>>, predict: seq<Cell> -> int, classes: seq<string>)

  /** The JSON reply: `predictions` and `customer_ids`. */
  datatype Reply = Reply(predictions: seq<string>, customerIds: seq<Cell>)

  const ProspectId: string := "PROSPECTID"
  const Education: string := "EDUCATION"
  const MaritalStatus: string := "MARITALSTATUS"
  const Gender: string := "GENDER"
  const LastProduct: string := "last_prod_enq2"
  const FirstProduct: string := "first_prod_enq2"
  const CurrentBalanceShare: string := "pct_currentBal_all_TL"
  const Substandard12: string := "num_lss_12mts"

  /** `categorical_columns`, in the handler's order, and as a set. */
  const CategoricalColumns: seq<string> := [MaritalStatus, Gender, LastProduct, FirstProduct]
  const CategoricalSet: set<string> := {MaritalStatus, Gender, LastProduct, FirstProduct}

  const ProspectIdSet: set<string> := {ProspectId}

  /** `education_mapping`. */
  const EducationLevels: map<string, int> := map[
    "SSC" := 1, "12TH" := 2, "GRADUATE" := 3,
    "UNDER GRADUATE" := 3, "POST-GRADUATE" := 4,
    "OTHERS" := 1, "PROFESSIONAL" := 3]

  // The texts of the exceptions the handler turns into its 500 replies.
  const NoFeatureNamesText: string := "'NoneType' object is not iterable"
  const DtypeText: string := "DataFrame.dtypes for data must be int, float, bool or category"

  /** `str(KeyError(name))`. */
  function KeyErrorText(name: string): string
  {
    "'" + name + "'"
  }

  function UnseenLabelText(p: int): string
  {
    "y contains previously unseen labels: [" + JsNumbers.IntText(p) + "]"
  }

  // ---------------------------------------------------------------------
  // Step 1: the customer IDs

  /** `df['PROSPECTID'].tolist() if 'PROSPECTID' in df.columns else None`. */
  function ProspectIds(df: Frame): (ids: Option<seq<Cell>>)
    requires WellFormed(df)
    ensures ids.Some? <==> ProspectId in df.columns
    ensures ids.Some? ==> |ids.value| == df.height
  {
    if ProspectId in df.cells then Some(df.cells[ProspectId]) else None
  }

  /** `df.drop('PROSPECTID', axis=1)` when the column exists: it is gone, and every other column is as it was. */
  function WithoutProspectId(df: Frame): (g: Frame)
    requires WellFormed(df)
    ensures WellFormed(g) && g.height == df.height
    ensures forall c :: c in g.cells <==> c in df.cells && c != ProspectId
    ensures forall c :: c in g.cells ==> g.cells[c] == df.cells[c]
  {
    if ProspectId in df.cells then DropColumns(df, ProspectIdSet) else df
  }

  /**
   * `prospect_ids if prospect_ids else list(range(len(predictions)))`: an
   * absent or empty list is falsy.
   */
  function CustomerIds(prospectIds: Option<seq<Cell>>, n: nat): (ids: seq<Cell>)
    ensures prospectIds.Some? && prospectIds.value != [] ==> ids == prospectIds.value
    ensures !(prospectIds.Some? && prospectIds.value != []) ==>
      |ids| == n && forall i :: 0 <= i < n ==> ids[i] == Num(i as real)
  {
    if prospectIds.Some? && prospectIds.value != [] then prospectIds.value
    else seq(n, i => Num(i as real))
  }

  // ---------------------------------------------------------------------
  // Step 2: EDUCATION

  /** `Series.map(education_mapping)` on one cell: a label of the table gets its level, anything else is NaN. */
  function EducationLevel(c: Cell): (d: Cell)
    ensures d.Blank? <==> !(c.Text? && c.s in EducationLevels)
    ensures d.Num? ==> d.r == 1.0 || d.r == 2.0 || d.r == 3.0 || d.r == 4.0
  {
    if c.Text? && c.s in EducationLevels then Num(EducationLevels[c.s] as real) else Blank
  }

  /** The seven labels and their levels; the lookup is exact, so another spelling is missing. */
  lemma EducationTable()
    ensures EducationLevel(Text("SSC")) == Num(1.0) && EducationLevel(Text("OTHERS")) == Num(1.0)
    ensures EducationLevel(Text("12TH")) == Num(2.0)
    ensures EducationLevel(Text("GRADUATE")) == Num(3.0) && EducationLevel(Text("UNDER GRADUATE")) == Num(3.0)
    ensures EducationLevel(Text("PROFESSIONAL")) == Num(3.0)
    ensures EducationLevel(Text("POST-GRADUATE")) == Num(4.0)
    ensures EducationLevel(Text("Graduate")) == Blank && EducationLevel(Num(3.0)) == Blank
  {
    assert "Graduate" !in EducationLevels by {
      assert "Graduate"[1] == 'r';
    }
  }

  /** `df['EDUCATION'] = df['EDUCATION'].map(education_mapping)`: the column is replaced where it stands, cell by cell. */
  function MappedEducation(df: Frame): (g: Frame)
    requires WellFormed(df) && Education in df.cells
    ensures WellFormed(g) && g.height == df.height && g.columns == df.columns
    ensures forall c :: c in g.cells <==> c in df.cells
    ensures forall c :: c in g.cells && c != Education ==> g.cells[c] == df.cells[c]
    ensures forall r :: 0 <= r < g.height ==> g.cells[Education][r] == EducationLevel(df.cells[Education][r])
  {
    SetColumn(df, Education, seq(df.height, r requires 0 <= r < df.height => EducationLevel(df.cells[Education][r])))
  }

  // ---------------------------------------------------------------------
  // Step 3: dummy columns

  /** The text pandas writes after the prefix: a text as it is, a number by its integer part. */
  function Label(c: Cell): string
  {
    match c
    case Text(s) => s
    case Num(r) => JsNumbers.IntText(r.Floor)
    case Blank => ""
  }

  /** The dummy column of value `c` of column `col`: prefix, `_`, label. */
  function DummyName(col: string, c: Cell): string
  {
    col + "_" + Label(c)
  }

  /** The dummy names of one column, one per non-empty cell, in row order. */
  function DummyNames(col: string, column: seq<Cell>): seq<string>
  {
    if column == [] then []
    else (if column[0] == Blank then [] else [DummyName(col, column[0])]) + DummyNames(col, column[1..])
  }

  /** A column has a dummy for exactly the values in its non-empty cells. */
  lemma {:induction false} DummyNamesMembers(col: string, column: seq<Cell>, name: string)
    ensures name in DummyNames(col, column) <==>
      exists r :: 0 <= r < |column| && column[r] != Blank && DummyName(col, column[r]) == name
  {
    if column != [] {
      var head := if column[0] == Blank then [] else [DummyName(col, column[0])];
      assert DummyNames(col, column) == head + DummyNames(col, column[1..]);
      DummyNamesMembers(col, column[1..], name);
      if name in DummyNames(col, column[1..]) {
        var r :| 0 <= r < |column[1..]| && column[1..][r] != Blank && DummyName(col, column[1..][r]) == name;
        assert column[r + 1] == column[1..][r];
      }
      if exists r :: 0 <= r < |column| && column[r] != Blank && DummyName(col, column[r]) == name {
        var r :| 0 <= r < |column| && column[r] != Blank && DummyName(col, column[r]) == name;
        if r > 0 {
          assert column[1..][r - 1] == column[r];
        }
      }
    }
  }

  predicate HasCategoricals(df: Frame)
  {
    forall i :: 0 <= i < |CategoricalColumns| ==> CategoricalColumns[i] in df.cells
  }

  /** The dummy names of categorical column `i`. */
  function ColumnDummies(df: Frame, i: nat): seq<string>
    requires HasCategoricals(df) && i < |CategoricalColumns|
  {
    DummyNames(CategoricalColumns[i], df.cells[CategoricalColumns[i]])
  }

  /** The dummy names of the four categorical columns, in the handler's order. */
  function AllDummyNames(df: Frame): seq<string>
    requires HasCategoricals(df)
  {
    ColumnDummies(df, 0) + ColumnDummies(df, 1) + ColumnDummies(df, 2) + ColumnDummies(df, 3)
  }

  /** Row `r` of some categorical column holds the value whose dummy is `name`. */
  predicate Names(df: Frame, r: nat, name: string)
    requires WellFormed(df) && HasCategoricals(df) && r < df.height
  {
    exists i :: 0 <= i < |CategoricalColumns| && df.cells[CategoricalColumns[i]][r] != Blank
                && DummyName(CategoricalColumns[i], df.cells[CategoricalColumns[i]][r]) == name
  }

  /** The 0/1 column of dummy `name`. */
  function DummyColumn(df: Frame, name: string): (column: seq<Cell>)
    requires WellFormed(df) && HasCategoricals(df)
    ensures |column| == df.height
  {
    seq(df.height, r requires 0 <= r < df.height => if Names(df, r, name) then Num(1.0) else Num(0.0))
  }

  /**
   * `pd.get_dummies(df, columns=categorical_columns)`: the four columns are
   * dropped, and every value of theirs becomes a 0/1 column after the others.
   */
  function GetDummies(df: Frame): (g: Frame)
    requires WellFormed(df) && HasCategoricals(df)
    ensures WellFormed(g) && g.height == df.height
  {
    var kept := DropColumns(df, CategoricalSet);
    var names := AllDummyNames(df);
    Frame(kept.columns + names,
          map c | c in kept.cells.Keys + (set n | n in names) :: if c in names then DummyColumn(df, c) else kept.cells[c],
          df.height)
  }

  lemma GetDummiesKey(df: Frame, c: string)
    requires WellFormed(df) && HasCategoricals(df)
    ensures c in GetDummies(df).cells <==> (c in df.cells && c !in CategoricalSet) || c in AllDummyNames(df)
  {
    DroppedKey(df, CategoricalSet, c);
  }

  lemma GetDummiesCell(df: Frame, c: string)
    requires WellFormed(df) && HasCategoricals(df) && c in GetDummies(df).cells
    ensures c in AllDummyNames(df) ==> GetDummies(df).cells[c] == DummyColumn(df, c)
    ensures c !in AllDummyNames(df) ==> c in df.cells && GetDummies(df).cells[c] == df.cells[c]
  {
    GetDummiesKey(df, c);
    if c !in AllDummyNames(df) {
      DroppedCells(df, CategoricalSet, c);
    }
  }

  /** The four column names start with four different letters. */
  lemma CategoricalHeads(i: nat, j: nat)
    requires i < |CategoricalColumns| && j < |CategoricalColumns|
    ensures |CategoricalColumns[i]| > 0
    ensures CategoricalColumns[i][0] == CategoricalColumns[j][0] ==> i == j
  {
  }

  /** A dummy name tells its column and its label apart: it starts with the column's letter, then the full prefix. */
  lemma DummyNameParts(i: nat, j: nat, a: Cell, b: Cell)
    requires i < |CategoricalColumns| && j < |CategoricalColumns|
    requires DummyName(CategoricalColumns[i], a) == DummyName(CategoricalColumns[j], b)
    ensures i == j && Label(a) == Label(b)
  {
    var x, y := CategoricalColumns[i], CategoricalColumns[j];
    CategoricalHeads(i, j);
    assert DummyName(x, a)[0] == x[0];
    assert DummyName(y, b)[0] == y[0];
    assert (x + "_") + Label(a) == (x + "_") + Label(b);
    assert Label(a) == ((x + "_") + Label(a))[|x| + 1..];
  }

  /** No dummy name is one of the four source names, so the drop removes them for good. */
  lemma DummyIsNotSource(i: nat, j: nat, a: Cell)
    requires i < |CategoricalColumns| && j < |CategoricalColumns|
    ensures DummyName(CategoricalColumns[i], a) != CategoricalColumns[j]
  {
    var x, y := CategoricalColumns[i], CategoricalColumns[j];
    CategoricalHeads(i, j);
    assert DummyName(x, a)[0] == x[0];
    assert |DummyName(x, a)| > |x|;
  }

  /** The dummy names are exactly the names of the values in the four columns' non-empty cells. */
  lemma AllDummyNamesMembers(df: Frame, name: string)
    requires WellFormed(df) && HasCategoricals(df)
    ensures name in AllDummyNames(df) <==>
      exists i, r :: 0 <= i < |CategoricalColumns| && 0 <= r < df.height
                     && df.cells[CategoricalColumns[i]][r] != Blank
                     && DummyName(CategoricalColumns[i], df.cells[CategoricalColumns[i]][r]) == name
  {
    forall i | 0 <= i < |CategoricalColumns|
      ensures name in ColumnDummies(df, i) <==>
        exists r :: 0 <= r < df.height && df.cells[CategoricalColumns[i]][r] != Blank
                    && DummyName(CategoricalColumns[i], df.cells[CategoricalColumns[i]][r]) == name
    {
      DummyNamesMembers(CategoricalColumns[i], df.cells[CategoricalColumns[i]], name);
    }
    if name in AllDummyNames(df) {
      var i: nat :| i < |CategoricalColumns| && name in ColumnDummies(df, i);
      var r :| 0 <= r < df.height && df.cells[CategoricalColumns[i]][r] != Blank
               && DummyName(CategoricalColumns[i], df.cells[CategoricalColumns[i]][r]) == name;
    }
    if exists i, r :: 0 <= i < |CategoricalColumns| && 0 <= r < df.height
                      && df.cells[CategoricalColumns[i]][r] != Blank
                      && DummyName(CategoricalColumns[i], df.cells[CategoricalColumns[i]][r]) == name {
      var i, r :| 0 <= i < |CategoricalColumns| && 0 <= r < df.height
                  && df.cells[CategoricalColumns[i]][r] != Blank
                  && DummyName(CategoricalColumns[i], df.cells[CategoricalColumns[i]][r]) == name;
      assert name in ColumnDummies(df, i);
      assert i == 0 || i == 1 || i == 2 || i == 3;
    }
  }

  /** The four source columns are gone after `get_dummies`: no dummy takes one of their names. */
  lemma SourcesDropped(df: Frame)
    requires WellFormed(df) && HasCategoricals(df)
    ensures forall c :: c in CategoricalSet ==> c !in GetDummies(df).cells
  {
    forall c | c in CategoricalSet
      ensures c !in GetDummies(df).cells
    {
      var j := if c == MaritalStatus then 0 else if c == Gender then 1 else if c == LastProduct then 2 else 3;
      assert CategoricalColumns[j] == c;
      GetDummiesKey(df, c);
      if c in AllDummyNames(df) {
        AllDummyNamesMembers(df, c);
        var k, r :| 0 <= k < |CategoricalColumns| && 0 <= r < df.height
                    && df.cells[CategoricalColumns[k]][r] != Blank
                    && DummyName(CategoricalColumns[k], df.cells[CategoricalColumns[k]][r]) == c;
        DummyIsNotSource(k, j, df.cells[CategoricalColumns[k]][r]);
      }
    }
  }

  /** Every other column is as it was, unless a dummy takes its name. */
  lemma OthersKept(df: Frame)
    requires WellFormed(df) && HasCategoricals(df)
    ensures forall c :: c in df.cells && c !in CategoricalSet && c !in AllDummyNames(df) ==>
      c in GetDummies(df).cells && GetDummies(df).cells[c] == df.cells[c]
  {
    forall c | c in df.cells && c !in CategoricalSet && c !in AllDummyNames(df)
      ensures c in GetDummies(df).cells && GetDummies(df).cells[c] == df.cells[c]
    {
      GetDummiesKey(df, c);
      GetDummiesCell(df, c);
    }
  }

  /**
   * The dummy of the value in row `s` of categorical column `i` is 1 in
   * exactly the rows of that column holding a value with the same label.
   */
  lemma DummyIndicator(df: Frame, i: nat, s: nat)
    requires WellFormed(df) && HasCategoricals(df)
    requires i < |CategoricalColumns| && s < df.height && df.cells[CategoricalColumns[i]][s] != Blank
    ensures var col := CategoricalColumns[i];
            var name := DummyName(col, df.cells[col][s]);
            && name in GetDummies(df).cells
            && forall r :: 0 <= r < df.height ==>
                 GetDummies(df).cells[name][r] ==
                   if df.cells[col][r] != Blank && Label(df.cells[col][r]) == Label(df.cells[col][s]) then Num(1.0) else Num(0.0)
  {
    var col := CategoricalColumns[i];
    var name := DummyName(col, df.cells[col][s]);
    AllDummyNamesMembers(df, name);
    GetDummiesKey(df, name);
    GetDummiesCell(df, name);
    var column := DummyColumn(df, name);
    forall r | 0 <= r < df.height
      ensures column[r] ==
        if df.cells[col][r] != Blank && Label(df.cells[col][r]) == Label(df.cells[col][s]) then Num(1.0) else Num(0.0)
    {
      if Names(df, r, name) {
        var k :| 0 <= k < |CategoricalColumns| && df.cells[CategoricalColumns[k]][r] != Blank
                 && DummyName(CategoricalColumns[k], df.cells[CategoricalColumns[k]][r]) == name;
        DummyNameParts(k, i, df.cells[CategoricalColumns[k]][r], df.cells[col][s]);
      }
    }
  }

  // ---------------------------------------------------------------------
  // Step 4: defaults and alignment

  /** `if name not in df.columns: df[name] = 0` for the two columns with a default. */
  function WithDefaults(df: Frame): (g: Frame)
    requires WellFormed(df)
    ensures WellFormed(g) && g.height == df.height
    ensures forall c :: c in g.cells <==> c in df.cells || c == CurrentBalanceShare || c == Substandard12
    ensures forall c :: c in df.cells ==> g.cells[c] == df.cells[c]
    ensures CurrentBalanceShare !in df.cells ==> g.cells[CurrentBalanceShare] == Zeros(df.height)
    ensures Substandard12 !in df.cells ==> g.cells[Substandard12] == Zeros(df.height)
  {
    FillStep(FillStep(df, CurrentBalanceShare), Substandard12)
  }

  /** Some cell is a text, which makes its column an `object` column. */
  predicate HasText(df: Frame)
  {
    exists c, r :: c in df.cells && 0 <= r < |df.cells[c]| && df.cells[c][r].Text?
  }

  /** The names among `names` that the frame lacks, in the order of `names`. */
  function Absent(names: seq<string>, df: Frame): (missing: seq<string>)
    ensures forall c :: c in missing <==> c in names && c !in df.cells
    ensures |missing| <= |names|
    ensures missing == [] <==> forall i :: 0 <= i < |names| ==> names[i] in df.cells
    ensures |missing| == |names| <==> forall i :: 0 <= i < |names| ==> names[i] !in df.cells
  {
    if names == [] then []
    else (if names[0] in df.cells then [] else [names[0]]) + Absent(names[1..], df)
  }

  /** The categorical columns the frame lacks, in the handler's order. */
  function MissingCategoricals(df: Frame): (missing: seq<string>)
    ensures missing == [] <==> HasCategoricals(df)
    ensures forall c :: c in missing <==> c in CategoricalSet && c !in df.cells
    ensures |missing| == |CategoricalColumns| <==>
      MaritalStatus !in df.cells && Gender !in df.cells && LastProduct !in df.cells && FirstProduct !in df.cells
  {
    assert CategoricalColumns[0] == MaritalStatus && CategoricalColumns[1] == Gender;
    assert CategoricalColumns[2] == LastProduct && CategoricalColumns[3] == FirstProduct;
    Absent(CategoricalColumns, df)
  }

  /** Which names are absent depends only on which columns the frame has. */
  lemma {:induction false} AbsentFollowsMembership(names: seq<string>, a: Frame, b: Frame)
    requires forall i :: 0 <= i < |names| ==> (names[i] in a.cells <==> names[i] in b.cells)
    ensures Absent(names, a) == Absent(names, b)
  {
    if names != [] {
      AbsentFollowsMembership(names[1..], a, b);
    }
  }

  /** Python's `repr` of a list of names: `['A', 'B']`. */
  function ListRepr(names: seq<string>): string
  {
    "[" + QuotedNames(names) + "]"
  }

  function QuotedNames(names: seq<string>): string
  {
    if names == [] then ""
    else if |names| == 1 then "'" + names[0] + "'"
    else "'" + names[0] + "', " + QuotedNames(names[1..])
  }

  /**
   * `str(KeyError)` when `df[categorical_columns]` finds none of the four
   * columns: pandas shows the requested names as an `Index`.
   */
  const NoneOfText: string :=
    "\"None of [Index(['MARITALSTATUS', 'GENDER', 'last_prod_enq2', 'first_prod_enq2'], dtype='object')] are in the [columns]\""

  /**
   * `str(KeyError)` raised by `df[categorical_columns]` inside `pd.get_dummies`:
   * the list of the missing names, or the whole index when all are missing.
   * The message holds single quotes, so Python shows it in double quotes.
   */
  function DummiesKeyErrorText(missing: seq<string>): string
  {
    if |missing| == |CategoricalColumns| then NoneOfText else NotInIndexText(missing)
  }

  function NotInIndexText(missing: seq<string>): string
  {
    "\"" + ListRepr(missing) + " not in index\""
  }

  /** Only MARITALSTATUS missing gives pandas' one-element list. */
  lemma OnlyMaritalStatusMissing(df: Frame)
    requires MaritalStatus !in df.cells && Gender in df.cells && LastProduct in df.cells && FirstProduct in df.cells
    ensures MissingCategoricals(df) == [MaritalStatus]
    ensures DummiesKeyErrorText(MissingCategoricals(df)) == NotInIndexText([MaritalStatus])
  {
    assert Absent(CategoricalColumns[3..], df) == [];
    assert Absent(CategoricalColumns[2..], df) == [];
    assert Absent(CategoricalColumns[1..], df) == [];
  }

  lemma OneMissingText()
    ensures NotInIndexText([MaritalStatus]) == "\"['MARITALSTATUS'] not in index\""
  {
    OneNameRepr();
  }

  lemma OneNameRepr()
    ensures ListRepr([MaritalStatus]) == "['MARITALSTATUS']"
  {
    assert QuotedNames([MaritalStatus]) == "'MARITALSTATUS'";
  }

  /** The frame the preparation steps hand to the booster up to `df[required_columns]`, before the dtype check. */
  function Defaulted(upload: Frame): (r: Result<Frame, HttpError>)
    requires WellFormed(upload)
    ensures r.Ok? ==> WellFormed(r.value) && r.value.height == upload.height
    ensures r.Err? ==> r.error.status == 500
  {
    var df := WithoutProspectId(upload);
    if Education !in df.cells then Err(HttpError(500, KeyErrorText(Education)))
    else
      var mapped := MappedEducation(df);
      var missing := MissingCategoricals(mapped);
      if missing != [] then Err(HttpError(500, DummiesKeyErrorText(missing)))
      else Ok(WithDefaults(GetDummies(mapped)))
  }

  /**
   * The preparation steps of the handler: the frame the booster reads, or
   * the exception raised first.
   */
  function Prepared(featureNames: Option<seq<string>>, upload: Frame): (r: Result<Frame, HttpError>)
    requires WellFormed(upload)
    ensures r.Ok? ==> WellFormed(r.value) && r.value.height == upload.height
    ensures r.Err? ==> r.error.status == 500
  {
    match Defaulted(upload)
    case Err(e) => Err(e)
    case Ok(df) =>
      if featureNames.None? then Err(HttpError(500, NoFeatureNamesText))
      else
        var aligned := Aligned(df, featureNames.value);
        AlignedColumns(df, featureNames.value);
        if HasText(aligned) then Err(HttpError(500, DtypeText)) else Ok(aligned)
  }

  // ---------------------------------------------------------------------
  // Step 5: prediction and decoding

  /** The position of the first index outside `0..n-1`, or `|raw|` when there is none. */
  function FirstUnseen(raw: seq<int>, n: nat): (i: nat)
    ensures i <= |raw|
    ensures forall j :: 0 <= j < i ==> 0 <= raw[j] < n
    ensures i < |raw| ==> !(0 <= raw[i] < n)
  {
    if raw == [] then 0
    else if !(0 <= raw[0] < n) then 0
    else 1 + FirstUnseen(raw[1..], n)
  }

  /** `label_encoder.inverse_transform(predictions)`, which refuses any index that is not a class position. */
  function InverseTransform(classes: seq<string>, raw: seq<int>): (r: Result<seq<string>, HttpError>)
    ensures r.Err? ==> r.error.status == 500
  {
    var bad := FirstUnseen(raw, |classes|);
    if bad < |raw| then Err(HttpError(500, UnseenLabelText(raw[bad])))
    else Ok(seq(|raw|, j requires 0 <= j < |raw| && 0 <= raw[j] < |classes| => classes[raw[j]]))
  }

  /** The reply for the prepared frame `df`, given the customer IDs set aside at the start. */
  function Answer(model: Model, df: Frame, prospectIds: Option<seq<Cell>>): (r: Result<Reply, HttpError>)
    requires WellFormed(df)
    ensures r.Err? ==> r.error.status == 500
  {
    var raw := Predictions(model.predict, df);
    match InverseTransform(model.classes, raw)
    case Err(e) => Err(e)
    case Ok(labels) => Ok(Reply(labels, CustomerIds(prospectIds, |raw|)))
  }

  /** The reply of `process_file`. */
  function Serve(model: Model, upload: Frame): (r: Result<Reply, HttpError>)
    requires WellFormed(upload)
    ensures r.Err? ==> r.error.status == 500
  {
    match Prepared(model.featureNames, upload)
    case Err(e) => Err(e)
    case Ok(df) => Answer(model, df, ProspectIds(upload))
  }

  // ---------------------------------------------------------------------
  // The handler

  /** `label_encoder.inverse_transform(predictions)`, index by index. */
  method DecodePredictions(classes: seq<string>, predictions: seq<int>) returns (reply: Result<seq<string>, HttpError>)
    ensures reply == InverseTransform(classes, predictions)
  {
    var labels: seq<string> := [];
    var j := 0;
    while j < |predictions|
      invariant 0 <= j <= |predictions|
      invariant forall k :: 0 <= k < j ==> 0 <= predictions[k] < |classes|
      invariant |labels| == j
      invariant forall k :: 0 <= k < j ==> labels[k] == classes[predictions[k]]
    {
      var p := predictions[j];
      if !(0 <= p < |classes|) {
        assert FirstUnseen(predictions, |classes|) == j;
        return Err(HttpError(500, UnseenLabelText(p)));
      }
      labels := labels + [classes[p]];
      j := j + 1;
    }
    assert FirstUnseen(predictions, |classes|) == |predictions|;
    assert labels == seq(|predictions|, k requires 0 <= k < |predictions| && 0 <= predictions[k] < |classes| =>
                           classes[predictions[k]]);
    reply := Ok(labels);
  }

  /** The handler's steps up to the two defaults, as the source reassigns `df_unseen`; also the captured ids. */
  method DefaultFrame(upload: Frame) returns (r: Result<Frame, HttpError>, prospectIds: Option<seq<Cell>>)
    requires WellFormed(upload)
    ensures r == Defaulted(upload) && prospectIds == ProspectIds(upload)
  {
    var df := upload;
    prospectIds := None;
    if ProspectId in df.cells {
      prospectIds := Some(df.cells[ProspectId]);
      df := DropColumns(df, ProspectIdSet);
    }
    if Education !in df.cells {
      return Err(HttpError(500, KeyErrorText(Education))), prospectIds;
    }
    df := SetColumn(df, Education, seq(df.height, r requires 0 <= r < df.height => EducationLevel(df.cells[Education][r])));
    var missing := MissingCategoricals(df);
    if missing != [] {
      return Err(HttpError(500, DummiesKeyErrorText(missing))), prospectIds;
    }
    df := GetDummies(df);
    if CurrentBalanceShare !in df.cells {
      df := SetColumn(df, CurrentBalanceShare, Zeros(df.height));
    }
    if Substandard12 !in df.cells {
      df := SetColumn(df, Substandard12, Zeros(df.height));
    }
    r := Ok(df);
  }

  /** The handler, step by step as the source reassigns `df_unseen`. */
  method ProcessFile(model: Model, upload: Frame) returns (reply: Result<Reply, HttpError>)
    requires WellFormed(upload)
    ensures reply == Serve(model, upload)
  {
    var defaulted, prospectIds := DefaultFrame(upload);
    if defaulted.Err? {
      return Err(defaulted.error);
    }
    var df := defaulted.value;
    if model.featureNames.None? {
      return Err(HttpError(500, NoFeatureNamesText));
    }
    var required := model.featureNames.value;
    var filled := FillMissing(df, required);
    var aligned := SelectFilled(df, filled, required);
    if HasText(aligned) {
      return Err(HttpError(500, DtypeText));
    }
    var predictions := Predictions(model.predict, aligned);
    var labels := DecodePredictions(model.classes, predictions);
    if labels.Err? {
      return Err(labels.error);
    }
    reply := Ok(Reply(labels.value, CustomerIds(prospectIds, |predictions|)));
  }

  // ---------------------------------------------------------------------
  // Properties

  /**
   * A sheet without EDUCATION is refused with a KeyError naming it; a sheet
   * lacking categorical columns is refused with pandas' list of the missing
   * ones, or with the whole index when all four are missing.
   */
  lemma MissingColumns(upload: Frame)
    requires WellFormed(upload)
    ensures Education !in upload.cells ==> Defaulted(upload) == Err(HttpError(500, "'EDUCATION'"))
    ensures Education in upload.cells && !HasCategoricals(upload) ==>
      Defaulted(upload) == Err(HttpError(500, DummiesKeyErrorText(MissingCategoricals(upload))))
    ensures Education in upload.cells && MaritalStatus !in upload.cells
            && Gender in upload.cells && LastProduct in upload.cells && FirstProduct in upload.cells ==>
      Defaulted(upload) == Err(HttpError(500, "\"['MARITALSTATUS'] not in index\""))
    ensures Education in upload.cells && MaritalStatus !in upload.cells
            && Gender !in upload.cells && LastProduct !in upload.cells && FirstProduct !in upload.cells ==>
      Defaulted(upload) == Err(HttpError(500, NoneOfText))
  {
    assert KeyErrorText(Education) == "'EDUCATION'";
    if Education in upload.cells {
      var mapped := MappedEducation(WithoutProspectId(upload));
      AbsentFollowsMembership(CategoricalColumns, mapped, upload);
      if MaritalStatus !in upload.cells && Gender in upload.cells && LastProduct in upload.cells && FirstProduct in upload.cells {
        OnlyMaritalStatusMissing(upload);
        OneMissingText();
      }
    }
  }

  /** A failed preparation is the reply; a booster without feature names fails once the frame is ready. */
  lemma ServeErrors(model: Model, upload: Frame)
    requires WellFormed(upload)
    ensures Defaulted(upload).Err? ==> Serve(model, upload) == Err(Defaulted(upload).error)
    ensures Defaulted(upload).Ok? && model.featureNames.None? ==>
      Serve(model, upload) == Err(HttpError(500, NoFeatureNamesText))
  {
  }

  /** The frame the booster reads has exactly its feature names as columns, in their order, and no text cell. */
  lemma PreparedFrame(featureNames: Option<seq<string>>, upload: Frame)
    requires WellFormed(upload) && Prepared(featureNames, upload).Ok?
    ensures featureNames.Some? && Defaulted(upload).Ok?
    ensures Prepared(featureNames, upload).value.columns == featureNames.value
    ensures !HasText(Prepared(featureNames, upload).value)
    ensures var df := Defaulted(upload).value;
            var g := Prepared(featureNames, upload).value;
            && (forall c :: c in g.cells <==> c in featureNames.value)
            && (forall c :: c in featureNames.value && c in df.cells ==> g.cells[c] == df.cells[c])
            && (forall c :: c in featureNames.value && c !in df.cells ==> g.cells[c] == Zeros(upload.height))
  {
    AlignedColumns(Defaulted(upload).value, featureNames.value);
  }

  /** A text cell that survives alignment makes the booster refuse the frame. */
  lemma TextIsRefused(featureNames: seq<string>, upload: Frame)
    requires WellFormed(upload) && Defaulted(upload).Ok?
    ensures Prepared(Some(featureNames), upload).Err? <==> HasText(Aligned(Defaulted(upload).value, featureNames))
  {
  }

  /** `inverse_transform` succeeds exactly when every index is a class position, and then maps each to its class. */
  lemma InverseTransformMeaning(classes: seq<string>, raw: seq<int>)
    ensures InverseTransform(classes, raw).Ok? <==> forall j :: 0 <= j < |raw| ==> 0 <= raw[j] < |classes|
    ensures InverseTransform(classes, raw).Ok? ==>
      var labels := InverseTransform(classes, raw).value;
      |labels| == |raw| && forall j :: 0 <= j < |raw| ==> labels[j] == classes[raw[j]]
    ensures InverseTransform(classes, raw).Err? ==>
      exists j :: 0 <= j < |raw| && !(0 <= raw[j] < |classes|)
  {
    var bad := FirstUnseen(raw, |classes|);
    if bad < |raw| {
      assert !(0 <= raw[bad] < |classes|);
    }
  }

  /**
   * A successful reply has one label per row of the frame, the class of the
   * booster's index for that row, and one customer ID per row: the IDs set
   * aside when there are any, and 0..n-1 otherwise.
   */
  lemma AnswerReply(model: Model, df: Frame, prospectIds: Option<seq<Cell>>)
    requires WellFormed(df) && Answer(model, df, prospectIds).Ok?
    requires prospectIds.Some? ==> |prospectIds.value| == df.height
    ensures var reply := Answer(model, df, prospectIds).value;
            && |reply.predictions| == df.height
            && (forall r :: 0 <= r < df.height ==>
                  0 <= model.predict(Row(df, r)) < |model.classes|
                  && reply.predictions[r] == model.classes[model.predict(Row(df, r))])
    ensures var reply := Answer(model, df, prospectIds).value;
            && |reply.customerIds| == df.height
            && (prospectIds.Some? && df.height > 0 ==> reply.customerIds == prospectIds.value)
            && (prospectIds.None? || df.height == 0 ==>
                  forall i :: 0 <= i < df.height ==> reply.customerIds[i] == Num(i as real))
  {
    var raw := Predictions(model.predict, df);
    InverseTransformMeaning(model.classes, raw);
  }

  /**
   * A successful reply has one label per row of the sheet and one customer
   * ID per row: the PROSPECTID column when the sheet has one and at least
   * one row, and 0..n-1 otherwise.
   */
  lemma ServeReply(model: Model, upload: Frame)
    requires WellFormed(upload) && Serve(model, upload).Ok?
    ensures Prepared(model.featureNames, upload).Ok?
    ensures Serve(model, upload) == Answer(model, Prepared(model.featureNames, upload).value, ProspectIds(upload))
    ensures var reply := Serve(model, upload).value;
            && |reply.predictions| == upload.height
            && |reply.customerIds| == upload.height
            && (ProspectId in upload.cells && upload.height > 0 ==> reply.customerIds == upload.cells[ProspectId])
            && (ProspectId !in upload.cells || upload.height == 0 ==>
                  forall i :: 0 <= i < upload.height ==> reply.customerIds[i] == Num(i as real))
  {
    var df := Prepared(model.featureNames, upload).value;
    AnswerReply(model, df, ProspectIds(upload));
  }
}
