/**
 * The in-memory table the engine works on (a pandas DataFrame): a set of
 * column names and a sequence of rows, each row mapping every column name
 * to a cell. Row order is the frame's order; pandas' index labels are not
 * modelled (the engine only ever renumbers them).
 */
module Tables {
  import opened Wrappers
  import opened Numerals

  /** A cell: NaN/None, a number, or text. */
  datatype Cell = Missing | Num(value: real) | Text(text: string)

  type Row = map<string, Cell>

  datatype Frame = Frame(columns: set<string>, rows: seq<Row>)

  /** Every row holds exactly the frame's columns. */
  predicate WellFormed(f: Frame) {
    forall i :: 0 <= i < |f.rows| ==> f.rows[i].Keys == f.columns
  }

  /** `pd.to_numeric(cell, errors="coerce")`: numbers stay, text is parsed, anything else is NaN. */
  function ToNumeric(c: Cell): Option<real> {
    match c
    case Missing => None
    case Num(v) => Some(v)
    case Text(t) => ParseFloat(t)
  }

  function FromNumber(v: Option<real>): Cell {
    match v
    case None => Missing
    case Some(x) => Num(x)
  }

  /** The cell after the numeric cast: a number or NaN, with the same numeric reading. */
  function Coerce(c: Cell): (r: Cell)
    ensures r.Missing? || r.Num?
    ensures ToNumeric(r) == ToNumeric(c)
  {
    FromNumber(ToNumeric(c))
  }

  /** Casting twice is casting once. */
  lemma CoerceIdempotent(c: Cell)
    ensures Coerce(Coerce(c)) == Coerce(c)
  {
  }

  /** `df[c]` read through `pd.to_numeric`: one optional number per row. */
  function Numbers(f: Frame, c: string): (r: seq<Option<real>>)
    requires WellFormed(f) && c in f.columns
    ensures |r| == |f.rows|
  {
    seq(|f.rows|, i requires 0 <= i < |f.rows| => ToNumeric(f.rows[i][c]))
  }

  /** A column of numbers as cells. */
  function NumCells(v: seq<real>): (r: seq<Cell>)
    ensures |r| == |v|
  {
    seq(|v|, i requires 0 <= i < |v| => Num(v[i]))
  }

  /** `df[c] = col`: adds the column or overwrites it, row by row. */
  function WithColumn(f: Frame, c: string, col: seq<Cell>): (r: Frame)
    requires WellFormed(f) && |col| == |f.rows|
    ensures WellFormed(r)
    ensures r.columns == f.columns + {c} && |r.rows| == |f.rows|
  {
    Frame(f.columns + {c}, seq(|f.rows|, i requires 0 <= i < |f.rows| => f.rows[i][c := col[i]]))
  }

  /** Writing a column's own cells back leaves the frame as it was. */
  lemma WithOwnColumn(f: Frame, c: string, col: seq<Cell>)
    requires WellFormed(f) && c in f.columns && |col| == |f.rows|
    requires forall i :: 0 <= i < |f.rows| ==> col[i] == f.rows[i][c]
    ensures WithColumn(f, c, col) == f
  {
    var r := WithColumn(f, c, col);
    assert r.columns == f.columns;
    forall i | 0 <= i < |f.rows| ensures r.rows[i] == f.rows[i] {
      assert r.rows[i] == f.rows[i][c := col[i]];
    }
  }

  /**
   * The column a lookup with a fallback reads (`df.get(a, df.get(b))`, or a
   * conditional on `a in df.columns`): `a` when the table has it, else `b`
   * when it has that, else none.
   */
  function FirstColumn(columns: set<string>, a: string, b: string): (r: Option<string>)
    ensures r.Some? ==> r.value in columns && (r.value == a || r.value == b)
    ensures a in columns ==> r == Some(a)
    ensures r.None? <==> a !in columns && b !in columns
  {
    if a in columns then Some(a) else if b in columns then Some(b) else None
  }

  /** The frame's first `n` rows, all of them when it has fewer (`df.head(n)` for `n >= 0`). */
  function Head(f: Frame, n: nat): (r: Frame)
    requires WellFormed(f)
    ensures WellFormed(r) && r.columns == f.columns
    ensures |r.rows| == if n < |f.rows| then n else |f.rows|
    ensures r.rows == f.rows[..|r.rows|]
  {
    Frame(f.columns, if n < |f.rows| then f.rows[..n] else f.rows)
  }

  /** Two well-formed frames with the same columns, the same number of rows and the same cells are the same frame. */
  lemma FrameExt(f: Frame, g: Frame)
    requires WellFormed(f) && WellFormed(g) && f.columns == g.columns && |f.rows| == |g.rows|
    requires forall i, c :: 0 <= i < |f.rows| && c in f.columns ==> f.rows[i][c] == g.rows[i][c]
    ensures f == g
  {
    forall i | 0 <= i < |f.rows| ensures f.rows[i] == g.rows[i] {
      assert f.rows[i].Keys == g.rows[i].Keys;
    }
  }

  /** Writing a column twice leaves the second write. */
  lemma WithColumnTwice(f: Frame, c: string, a: seq<Cell>, b: seq<Cell>)
    requires WellFormed(f) && |a| == |f.rows| && |b| == |f.rows|
    ensures WithColumn(WithColumn(f, c, a), c, b) == WithColumn(f, c, b)
  {
    var g, h := WithColumn(WithColumn(f, c, a), c, b), WithColumn(f, c, b);
    forall i | 0 <= i < |f.rows| ensures g.rows[i] == h.rows[i] {
      assert g.rows[i] == f.rows[i][c := a[i]][c := b[i]];
    }
  }
}
