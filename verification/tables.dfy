/**
 * A pandas DataFrame as both scoring servers use it: named columns in order,
 * each a column of cells of the same height. A cell read from an Excel sheet
 * is a number, a text, or empty (pandas NaN).
 *
 * The column operations the servers share are here: setting a column (in
 * place when the name exists, appended otherwise), dropping columns, the
 * "add every missing required column as 0" loop and the projection
 * `df[required_columns]`.
 */
module Tables {

  datatype Cell = Num(r: real) | Text(s: string) | Blank

  datatype Frame = Frame(columns: seq<string>, cells: map<string, seq<Cell>>, height: nat)

  /**
   * The column order names exactly the stored columns, and every column has
   * `height` cells. A name listed twice (`df[["a", "a"]]`) shows the same
   * column twice.
   */
  predicate WellFormed(f: Frame)
  {
    && (forall c :: c in f.cells ==> c in f.columns)
    && (forall c :: c in f.columns ==> c in f.cells)
    && (forall c :: c in f.cells ==> |f.cells[c]| == f.height)
  }

  /** `df.empty`: no rows or no columns. */
  predicate Empty(f: Frame)
  {
    f.height == 0 || f.columns == []
  }

  function Zeros(n: nat): (z: seq<Cell>)
    ensures |z| == n && forall i :: 0 <= i < n ==> z[i] == Num(0.0)
  {
    seq(n, _ => Num(0.0))
  }

  /** `df[name] = values`: replaces the column where it stands, or appends it. */
  function SetColumn(f: Frame, name: string, values: seq<Cell>): (g: Frame)
    requires WellFormed(f) && |values| == f.height
    ensures WellFormed(g)
    ensures g.height == f.height
    ensures g.cells == f.cells[name := values]
    ensures g.columns == if name in f.cells then f.columns else f.columns + [name]
  {
    Frame(if name in f.cells then f.columns else f.columns + [name], f.cells[name := values], f.height)
  }

  /** `names` in order without the members of `removed`. */
  function Without(names: seq<string>, removed: set<string>): (r: seq<string>)
    ensures forall x :: x in r <==> x in names && x !in removed
  {
    if names == [] then []
    else if names[0] in removed then Without(names[1..], removed)
    else [names[0]] + Without(names[1..], removed)
  }

  /** `df.drop(names, axis=1)`; the callers drop only columns that exist (pandas raises KeyError otherwise). */
  function DropColumns(f: Frame, names: set<string>): (g: Frame)
    requires WellFormed(f)
    ensures WellFormed(g)
    ensures g.height == f.height
    ensures forall c :: c in g.cells <==> c in f.cells && c !in names
    ensures forall c :: c in g.cells ==> g.cells[c] == f.cells[c]
  {
    Frame(Without(f.columns, names), f.cells - names, f.height)
  }

  lemma DroppedKey(f: Frame, names: set<string>, c: string)
    requires WellFormed(f)
    ensures c in DropColumns(f, names).cells <==> c in f.cells && c !in names
  {
  }

  lemma DroppedCells(f: Frame, names: set<string>, c: string)
    requires WellFormed(f) && c in f.cells && c !in names
    ensures DropColumns(f, names).cells[c] == f.cells[c]
  {
  }

  /** `df[names]`, where every name exists (pandas raises KeyError otherwise). */
  function Select(f: Frame, names: seq<string>): (g: Frame)
    requires WellFormed(f) && forall i :: 0 <= i < |names| ==> names[i] in f.cells
    ensures WellFormed(g)
    ensures g.columns == names && g.height == f.height
    ensures forall c :: c in g.cells ==> g.cells[c] == f.cells[c]
  {
    Frame(names, map c | c in names :: f.cells[c], f.height)
  }

  /** One round of the fill loop: `if col not in df.columns: df[col] = 0`. */
  function FillStep(g: Frame, col: string): (h: Frame)
    requires WellFormed(g)
    ensures WellFormed(h) && h.height == g.height
  {
    if col in g.cells then g else SetColumn(g, col, Zeros(g.height))
  }

  /** The frame after the first `i` rounds of `for col in required: if col not in df.columns: df[col] = 0`. */
  function Filled(f: Frame, required: seq<string>, i: nat): (g: Frame)
    requires WellFormed(f) && i <= |required|
    ensures WellFormed(g) && g.height == f.height
  {
    if i == 0 then f else FillStep(Filled(f, required, i - 1), required[i - 1])
  }

  /** The fill loop adds exactly the missing required columns, as zeros, and changes no existing column. */
  lemma {:induction false} FilledCells(f: Frame, required: seq<string>, i: nat)
    requires WellFormed(f) && i <= |required|
    ensures forall c :: c in Filled(f, required, i).cells <==> c in f.cells || c in required[..i]
    ensures forall c :: c in f.cells ==> Filled(f, required, i).cells[c] == f.cells[c]
    ensures forall c :: c in required[..i] && c !in f.cells ==> Filled(f, required, i).cells[c] == Zeros(f.height)
  {
    if i > 0 {
      FilledCells(f, required, i - 1);
      assert required[..i] == required[..i - 1] + [required[i - 1]];
      var g := Filled(f, required, i - 1);
      var col := required[i - 1];
      if col !in g.cells {
        assert Filled(f, required, i).cells == g.cells[col := Zeros(f.height)];
      } else {
        assert Filled(f, required, i) == g;
      }
    }
  }

  /** The fill loop itself, on the frame it is given. */
  method FillMissing(f: Frame, required: seq<string>) returns (g: Frame)
    requires WellFormed(f)
    ensures g == Filled(f, required, |required|)
  {
    g := f;
    var i := 0;
    while i < |required|
      invariant 0 <= i <= |required|
      invariant g == Filled(f, required, i)
    {
      assert FillStep(g, required[i]) == Filled(f, required, i + 1);
      g := FillStep(g, required[i]);
      i := i + 1;
    }
  }

  /** The frame the model sees: missing required columns added as 0, then `df[required]`. */
  function Aligned(f: Frame, required: seq<string>): (g: Frame)
    requires WellFormed(f)
    ensures WellFormed(g) && g.columns == required && g.height == f.height
  {
    var filled := Filled(f, required, |required|);
    FilledCells(f, required, |required|);
    assert required[..|required|] == required;
    Select(filled, required)
  }

  /** `df[required]` on the filled frame is the aligned frame. */
  function SelectFilled(f: Frame, filled: Frame, required: seq<string>): (g: Frame)
    requires WellFormed(f) && filled == Filled(f, required, |required|)
    ensures g == Aligned(f, required)
  {
    FilledCells(f, required, |required|);
    assert required[..|required|] == required;
    Select(filled, required)
  }

  /**
   * Alignment gives exactly the required columns in the required order; a
   * column the frame had keeps its cells, a missing one is all zeros, and
   * every other column is gone.
   */
  lemma AlignedColumns(f: Frame, required: seq<string>)
    requires WellFormed(f)
    ensures WellFormed(Aligned(f, required))
    ensures Aligned(f, required).columns == required
    ensures Aligned(f, required).height == f.height
    ensures forall c :: c in Aligned(f, required).cells <==> c in required
    ensures forall c :: c in required && c in f.cells ==> Aligned(f, required).cells[c] == f.cells[c]
    ensures forall c :: c in required && c !in f.cells ==> Aligned(f, required).cells[c] == Zeros(f.height)
  {
    FilledCells(f, required, |required|);
    assert required[..|required|] == required;
  }

  /** Row `r` in column order, as the model reads it. */
  function Row(f: Frame, r: nat): (row: seq<Cell>)
    requires WellFormed(f) && r < f.height
    ensures |row| == |f.columns|
    ensures forall j :: 0 <= j < |row| ==> row[j] == f.cells[f.columns[j]][r]
  {
    seq(|f.columns|, j requires 0 <= j < |f.columns| => f.cells[f.columns[j]][r])
  }

  /** The error both servers reply with: an HTTP status and the `detail` text. */
  datatype HttpError = HttpError(status: int, detail: string)

  /** `model.predict(df)`: one class index per row, the classifier applied to that row in column order. */
  function Predictions(predict: seq<Cell> -> int, df: Frame): (raw: seq<int>)
    requires WellFormed(df)
    ensures |raw| == df.height
    ensures forall r :: 0 <= r < df.height ==> raw[r] == predict(Row(df, r))
  {
    seq(df.height, r requires 0 <= r < df.height => predict(Row(df, r)))
  }
}
