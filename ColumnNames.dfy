/**
 * How the data logger names its columns. A registered attribute expands
 * into one or more columns, each a name and the (derived) attribute whose
 * value the column shows:
 *
 *   - an integer or real attribute: one column under its own name;
 *   - a complex attribute: `name.re` and `name.im`;
 *   - a real matrix: `name` if it is 1x1, `name(k)` for a column vector,
 *     otherwise `name(k, l)` for every coefficient, row by row;
 *   - a complex matrix, after clamping the requested row and column
 *     counts: `name.re`/`name.im` if it is 1x1, `name_k.re`/`name_k.im`
 *     for a column vector, otherwise `name_k_l.re`/`name_k_l.im`;
 *   - the node-value logs: `node` and a zero-padded node number, with
 *     `.re`/`.im` in the phasor domain.
 *
 * Every expansion is proved to produce pairwise distinct names, which is
 * what makes it add exactly its number of columns to a map that does not
 * already hold them.
 */
module ColumnNames {
  import opened Decimal
  import opened ColumnMap

  /** What a column shows: an attribute, or a part of one, by attribute identity. */
  datatype Source =
    | Whole(attr: nat)
    | RealPart(attr: nat)
    | ImagPart(attr: nat)
    | Coeff(attr: nat, row: nat, col: nat)
    | CoeffReal(attr: nat, row: nat, col: nat)
    | CoeffImag(attr: nat, row: nat, col: nat)

  type Column = Entry<Source>

  // ---------------------------------------------------------------------
  // Name shapes

  function Re(base: string): string { base + ".re" }
  function Im(base: string): string { base + ".im" }

  /** `name(k)` */
  function IndexName(name: string, k: nat): string {
    name + "(" + ToDecimal(k) + ")"
  }

  /** `name(k, l)` */
  function CellName(name: string, k: nat, l: nat): string {
    name + "(" + ToDecimal(k) + ", " + ToDecimal(l) + ")"
  }

  /** `name_k` */
  function VectorBase(name: string, k: nat): string {
    name + "_" + ToDecimal(k)
  }

  /** `name_k_l` */
  function GridBase(name: string, k: nat, l: nat): string {
    name + "_" + ToDecimal(k) + "_" + ToDecimal(l)
  }

  /** `node` followed by the node number padded to five digits. */
  function NodeName(i: nat): string {
    "node" + Padded5(i)
  }

  /** The name of row `i` of an `n`-row phasor node vector: real parts first, then imaginary parts. */
  function PhasorNodeName(n: nat, i: nat): string
    requires i < n
  {
    if i < n / 2 then Re(NodeName(i)) else Im(NodeName(i - n / 2))
  }

  /** The first `k` header names of an `n`-row phasor node vector. */
  function PhasorNodeNamePrefix(n: nat, k: nat): (names: seq<string>)
    requires k <= n
    ensures |names| == k
    ensures forall i :: 0 <= i < k ==> names[i] == PhasorNodeName(n, i)
  {
    if k == 0 then []
    else
      var before := PhasorNodeNamePrefix(n, k - 1);
      var names := before + [PhasorNodeName(n, k - 1)];
      assert forall i :: 0 <= i < k - 1 ==> names[i] == before[i];
      names
  }

  /** The first `k` header names of an EMT node vector. */
  function EmtNodeNamePrefix(k: nat): (names: seq<string>)
    ensures |names| == k
    ensures forall i :: 0 <= i < k ==> names[i] == NodeName(i)
  {
    if k == 0 then []
    else
      var before := EmtNodeNamePrefix(k - 1);
      var names := before + [NodeName(k - 1)];
      assert forall i :: 0 <= i < k - 1 ==> names[i] == before[i];
      names
  }

  // ---------------------------------------------------------------------
  // Injectivity of the name shapes

  lemma StripPrefix(p: string, x: string, y: string)
    requires p + x == p + y
    ensures x == y
  {
    assert x == (p + x)[|p|..];
    assert y == (p + y)[|p|..];
  }

  lemma StripSuffix(x: string, y: string, q: string)
    requires x + q == y + q
    ensures x == y
  {
    assert x == (x + q)[..|x|];
    assert y == (y + q)[..|y|];
  }

  /** In a digit string followed by a non-digit, the digits come first and the separator right after them. */
  lemma SeparatorPosition(a: string, c: char, x: string)
    requires AllDigits(a) && !IsDigit(c)
    ensures forall i :: 0 <= i < |a| ==> IsDigit((a + [c] + x)[i])
    ensures (a + [c] + x)[|a|] == c
  {
  }

  /** A digit string followed by a non-digit separator can be split back at that separator. */
  lemma SplitAtSeparator(a: string, x: string, b: string, y: string, c: char)
    requires AllDigits(a) && AllDigits(b) && !IsDigit(c)
    requires a + [c] + x == b + [c] + y
    ensures a == b && x == y
  {
    var s := a + [c] + x;
    assert |a| == |b| by {
      SeparatorPosition(a, c, x);
      SeparatorPosition(b, c, y);
    }
    assert a == s[..|a|] && b == s[..|b|];
    assert x == s[|a| + 1..] && y == s[|b| + 1..];
  }

  lemma ReInjective(a: string, b: string)
    requires Re(a) == Re(b)
    ensures a == b
  {
    StripSuffix(a, b, ".re");
  }

  lemma ImInjective(a: string, b: string)
    requires Im(a) == Im(b)
    ensures a == b
  {
    StripSuffix(a, b, ".im");
  }

  lemma ReIsNotIm(a: string, b: string)
    ensures Re(a) != Im(b)
  {
    assert Re(a)[|Re(a)| - 1] == 'e' && Im(b)[|Im(b)| - 1] == 'm';
  }

  lemma IndexNameInjective(name: string, k1: nat, k2: nat)
    requires IndexName(name, k1) == IndexName(name, k2)
    ensures k1 == k2
  {
    var d1, d2 := ToDecimal(k1), ToDecimal(k2);
    ToDecimalShape(k1);
    ToDecimalShape(k2);
    assert IndexName(name, k1) == (name + "(") + (d1 + [')'] + []);
    assert IndexName(name, k2) == (name + "(") + (d2 + [')'] + []);
    StripPrefix(name + "(", d1 + [')'] + [], d2 + [')'] + []);
    SplitAtSeparator(d1, [], d2, [], ')');
    ToDecimalInjective(k1, k2);
  }

  lemma CellNameInjective(name: string, k1: nat, l1: nat, k2: nat, l2: nat)
    requires CellName(name, k1, l1) == CellName(name, k2, l2)
    ensures k1 == k2 && l1 == l2
  {
    var dk1, dl1, dk2, dl2 := ToDecimal(k1), ToDecimal(l1), ToDecimal(k2), ToDecimal(l2);
    ToDecimalShape(k1);
    ToDecimalShape(l1);
    ToDecimalShape(k2);
    ToDecimalShape(l2);
    var rest1, rest2 := [' '] + (dl1 + [')'] + []), [' '] + (dl2 + [')'] + []);
    assert CellName(name, k1, l1) == (name + "(") + (dk1 + [','] + rest1);
    assert CellName(name, k2, l2) == (name + "(") + (dk2 + [','] + rest2);
    StripPrefix(name + "(", dk1 + [','] + rest1, dk2 + [','] + rest2);
    SplitAtSeparator(dk1, rest1, dk2, rest2, ',');
    StripPrefix([' '], dl1 + [')'] + [], dl2 + [')'] + []);
    SplitAtSeparator(dl1, [], dl2, [], ')');
    ToDecimalInjective(k1, k2);
    ToDecimalInjective(l1, l2);
  }

  lemma VectorBaseInjective(name: string, k1: nat, k2: nat)
    requires VectorBase(name, k1) == VectorBase(name, k2)
    ensures k1 == k2
  {
    StripPrefix(name + "_", ToDecimal(k1), ToDecimal(k2));
    ToDecimalInjective(k1, k2);
  }

  lemma GridBaseInjective(name: string, k1: nat, l1: nat, k2: nat, l2: nat)
    requires GridBase(name, k1, l1) == GridBase(name, k2, l2)
    ensures k1 == k2 && l1 == l2
  {
    var dk1, dl1, dk2, dl2 := ToDecimal(k1), ToDecimal(l1), ToDecimal(k2), ToDecimal(l2);
    ToDecimalShape(k1);
    ToDecimalShape(l1);
    ToDecimalShape(k2);
    ToDecimalShape(l2);
    assert GridBase(name, k1, l1) == (name + "_") + (dk1 + ['_'] + dl1);
    assert GridBase(name, k2, l2) == (name + "_") + (dk2 + ['_'] + dl2);
    StripPrefix(name + "_", dk1 + ['_'] + dl1, dk2 + ['_'] + dl2);
    SplitAtSeparator(dk1, dl1, dk2, dl2, '_');
    ToDecimalInjective(k1, k2);
    ToDecimalInjective(l1, l2);
  }

  lemma NodeNameInjective(i1: nat, i2: nat)
    requires NodeName(i1) == NodeName(i2)
    ensures i1 == i2
  {
    StripPrefix("node", Padded5(i1), Padded5(i2));
    Padded5Injective(i1, i2);
  }

  // ---------------------------------------------------------------------
  // Matrix cells in the order the logger's loops visit them

  /** The cells `(k, 0) .. (k, l - 1)` of row `k`. */
  function RowCells(k: nat, l: nat): (cs: seq<(nat, nat)>)
    ensures |cs| == l
    ensures forall p :: 0 <= p < l ==> cs[p] == (k, p)
  {
    if l == 0 then [] else RowCells(k, l - 1) + [(k, l - 1)]
  }

  /** All cells of a `rows` x `cols` matrix, row by row, each exactly once. */
  function Cells(rows: nat, cols: nat): (cs: seq<(nat, nat)>)
    ensures |cs| == rows * cols
    ensures forall p :: 0 <= p < |cs| ==> cs[p].0 < rows && cs[p].1 < cols
    ensures forall p, q :: 0 <= p < q < |cs| ==> cs[p] != cs[q]
  {
    if rows == 0 then []
    else
      var before := Cells(rows - 1, cols);
      var row := RowCells(rows - 1, cols);
      assert |before| + |row| == rows * cols by {
        assert (rows - 1) * cols + cols == rows * cols;
      }
      before + row
  }

  // ---------------------------------------------------------------------
  // Column lists of the expansions

  /** A complex attribute: its real and imaginary parts. */
  function ComplexColumns(name: string, id: nat): seq<Column> {
    [Entry(Re(name), RealPart(id)), Entry(Im(name), ImagPart(id))]
  }

  /** `name(k)` for the rows `k < n` of a real column vector. */
  function IndexColumns(name: string, id: nat, n: nat): (cs: seq<Column>)
    ensures |cs| == n
    ensures forall k :: 0 <= k < n ==> cs[k] == Entry(IndexName(name, k), Coeff(id, k, 0))
  {
    if n == 0 then [] else IndexColumns(name, id, n - 1) + [Entry(IndexName(name, n - 1), Coeff(id, n - 1, 0))]
  }

  /** `name(k, l)` for the given cells of a real matrix. */
  function CellColumns(name: string, id: nat, cells: seq<(nat, nat)>): (cs: seq<Column>)
    ensures |cs| == |cells|
    ensures forall p :: 0 <= p < |cells| ==>
      cs[p] == Entry(CellName(name, cells[p].0, cells[p].1), Coeff(id, cells[p].0, cells[p].1))
  {
    if cells == [] then []
    else
      var c := cells[|cells| - 1];
      CellColumns(name, id, cells[..|cells| - 1]) + [Entry(CellName(name, c.0, c.1), Coeff(id, c.0, c.1))]
  }

  /** `name_k.re`, `name_k.im` for the rows `k < n` of a complex column vector. */
  function VectorColumns(name: string, id: nat, n: nat): (cs: seq<Column>)
    ensures |cs| == 2 * n
    ensures forall p :: 0 <= p < 2 * n ==>
      cs[p] == if p % 2 == 0 then Entry(Re(VectorBase(name, p / 2)), CoeffReal(id, p / 2, 0))
               else Entry(Im(VectorBase(name, p / 2)), CoeffImag(id, p / 2, 0))
  {
    if n == 0 then []
    else
      VectorColumns(name, id, n - 1)
        + [Entry(Re(VectorBase(name, n - 1)), CoeffReal(id, n - 1, 0)),
           Entry(Im(VectorBase(name, n - 1)), CoeffImag(id, n - 1, 0))]
  }

  /** `name_k_l.re`, `name_k_l.im` for the given cells of a complex matrix. */
  function GridColumns(name: string, id: nat, cells: seq<(nat, nat)>): (cs: seq<Column>)
    ensures |cs| == 2 * |cells|
    ensures forall p :: 0 <= p < 2 * |cells| ==>
      var c := cells[p / 2];
      cs[p] == if p % 2 == 0 then Entry(Re(GridBase(name, c.0, c.1)), CoeffReal(id, c.0, c.1))
               else Entry(Im(GridBase(name, c.0, c.1)), CoeffImag(id, c.0, c.1))
  {
    if cells == [] then []
    else
      var c := cells[|cells| - 1];
      GridColumns(name, id, cells[..|cells| - 1])
        + [Entry(Re(GridBase(name, c.0, c.1)), CoeffReal(id, c.0, c.1)),
           Entry(Im(GridBase(name, c.0, c.1)), CoeffImag(id, c.0, c.1))]
  }

  /** The expansion of a real matrix of the given shape. */
  function RealMatrixColumns(name: string, id: nat, rows: nat, cols: nat): seq<Column> {
    if rows == 1 && cols == 1 then [Entry(name, Coeff(id, 0, 0))]
    else if cols == 1 then IndexColumns(name, id, rows)
    else CellColumns(name, id, Cells(rows, cols))
  }

  /** A requested row or column count of 0, or one beyond the matrix, means the whole dimension. */
  function Clamp(requested: nat, dim: nat): (c: nat)
    ensures c <= dim
    ensures 0 < requested <= dim ==> c == requested
    ensures requested == 0 || requested > dim ==> c == dim
  {
    if requested == 0 || requested > dim then dim else requested
  }

  /** The expansion of a complex matrix of the given shape, limited to the clamped rows and columns. */
  function ComplexMatrixColumns(name: string, id: nat, rows: nat, cols: nat, rowsMax: nat, colsMax: nat): seq<Column> {
    var rm, cm := Clamp(rowsMax, rows), Clamp(colsMax, cols);
    if rows == 1 && cols == 1 then [Entry(Re(name), CoeffReal(id, 0, 0)), Entry(Im(name), CoeffImag(id, 0, 0))]
    else if cols == 1 then VectorColumns(name, id, rm)
    else GridColumns(name, id, Cells(rm, cm))
  }

  // ---------------------------------------------------------------------
  // The expansions never repeat a name

  lemma ComplexColumnsDistinct(name: string, id: nat)
    ensures DistinctKeys(ComplexColumns(name, id))
  {
    ReIsNotIm(name, name);
  }

  lemma IndexColumnsDistinct(name: string, id: nat, n: nat)
    ensures DistinctKeys(IndexColumns(name, id, n))
  {
    var cs := IndexColumns(name, id, n);
    forall i, j | 0 <= i < j < n
      ensures cs[i].key != cs[j].key
    {
      if cs[i].key == cs[j].key {
        IndexNameInjective(name, i, j);
      }
    }
  }

  lemma CellColumnsDistinct(name: string, id: nat, cells: seq<(nat, nat)>)
    requires forall p, q :: 0 <= p < q < |cells| ==> cells[p] != cells[q]
    ensures DistinctKeys(CellColumns(name, id, cells))
  {
    var cs := CellColumns(name, id, cells);
    forall p, q | 0 <= p < q < |cs|
      ensures cs[p].key != cs[q].key
    {
      if cs[p].key == cs[q].key {
        CellNameInjective(name, cells[p].0, cells[p].1, cells[q].0, cells[q].1);
      }
    }
  }

  lemma VectorColumnsDistinct(name: string, id: nat, n: nat)
    ensures DistinctKeys(VectorColumns(name, id, n))
  {
    var cs := VectorColumns(name, id, n);
    forall p, q | 0 <= p < q < |cs|
      ensures cs[p].key != cs[q].key
    {
      var b1, b2 := VectorBase(name, p / 2), VectorBase(name, q / 2);
      if p % 2 == 0 && q % 2 == 0 {
        if Re(b1) == Re(b2) {
          ReInjective(b1, b2);
          VectorBaseInjective(name, p / 2, q / 2);
        }
      } else if p % 2 == 1 && q % 2 == 1 {
        if Im(b1) == Im(b2) {
          ImInjective(b1, b2);
          VectorBaseInjective(name, p / 2, q / 2);
        }
      } else {
        ReIsNotIm(b1, b2);
        ReIsNotIm(b2, b1);
      }
    }
  }

  lemma GridColumnsDistinct(name: string, id: nat, cells: seq<(nat, nat)>)
    requires forall p, q :: 0 <= p < q < |cells| ==> cells[p] != cells[q]
    ensures DistinctKeys(GridColumns(name, id, cells))
  {
    var cs := GridColumns(name, id, cells);
    forall p, q | 0 <= p < q < |cs|
      ensures cs[p].key != cs[q].key
    {
      var c1, c2 := cells[p / 2], cells[q / 2];
      var b1, b2 := GridBase(name, c1.0, c1.1), GridBase(name, c2.0, c2.1);
      if p % 2 == 0 && q % 2 == 0 {
        if Re(b1) == Re(b2) {
          ReInjective(b1, b2);
          GridBaseInjective(name, c1.0, c1.1, c2.0, c2.1);
        }
      } else if p % 2 == 1 && q % 2 == 1 {
        if Im(b1) == Im(b2) {
          ImInjective(b1, b2);
          GridBaseInjective(name, c1.0, c1.1, c2.0, c2.1);
        }
      } else {
        ReIsNotIm(b1, b2);
        ReIsNotIm(b2, b1);
      }
    }
  }

  /**
   * A real matrix expands into one column if it is 1x1, `rows` columns if
   * it is a column vector and `rows * cols` columns otherwise, all with
   * distinct names.
   */
  lemma RealMatrixColumnsShape(name: string, id: nat, rows: nat, cols: nat)
    ensures |RealMatrixColumns(name, id, rows, cols)| ==
      if rows == 1 && cols == 1 then 1 else if cols == 1 then rows else rows * cols
    ensures DistinctKeys(RealMatrixColumns(name, id, rows, cols))
  {
    if rows == 1 && cols == 1 {
    } else if cols == 1 {
      IndexColumnsDistinct(name, id, rows);
    } else {
      CellColumnsDistinct(name, id, Cells(rows, cols));
    }
  }

  /**
   * A complex matrix expands into two columns if it is 1x1, two per kept
   * row if it is a column vector and two per kept cell otherwise, all with
   * distinct names.
   */
  lemma ComplexMatrixColumnsShape(name: string, id: nat, rows: nat, cols: nat, rowsMax: nat, colsMax: nat)
    ensures |ComplexMatrixColumns(name, id, rows, cols, rowsMax, colsMax)| ==
      if rows == 1 && cols == 1 then 2
      else if cols == 1 then 2 * Clamp(rowsMax, rows)
      else 2 * (Clamp(rowsMax, rows) * Clamp(colsMax, cols))
    ensures DistinctKeys(ComplexMatrixColumns(name, id, rows, cols, rowsMax, colsMax))
  {
    var rm, cm := Clamp(rowsMax, rows), Clamp(colsMax, cols);
    if rows == 1 && cols == 1 {
      ReIsNotIm(name, name);
    } else if cols == 1 {
      VectorColumnsDistinct(name, id, rm);
    } else {
      GridColumnsDistinct(name, id, Cells(rm, cm));
    }
  }

  /**
   * The phasor node names are pairwise distinct, and for an even row count
   * row `i` and row `i + n / 2` are the real and imaginary part of the same
   * node.
   */
  lemma PhasorNodeNamesDistinct(n: nat)
    ensures forall i, j :: 0 <= i < j < n ==> PhasorNodeName(n, i) != PhasorNodeName(n, j)
    ensures n % 2 == 0 ==> forall i :: 0 <= i < n / 2 ==>
      PhasorNodeName(n, i) == Re(NodeName(i)) && PhasorNodeName(n, i + n / 2) == Im(NodeName(i))
  {
    forall i, j | 0 <= i < j < n
      ensures PhasorNodeName(n, i) != PhasorNodeName(n, j)
    {
      if i < n / 2 && j < n / 2 {
        if Re(NodeName(i)) == Re(NodeName(j)) {
          ReInjective(NodeName(i), NodeName(j));
          NodeNameInjective(i, j);
        }
      } else if i >= n / 2 && j >= n / 2 {
        if Im(NodeName(i - n / 2)) == Im(NodeName(j - n / 2)) {
          ImInjective(NodeName(i - n / 2), NodeName(j - n / 2));
          NodeNameInjective(i - n / 2, j - n / 2);
        }
      } else {
        ReIsNotIm(NodeName(i), NodeName(j - n / 2));
      }
    }
  }

  lemma EmtNodeNamesDistinct(n: nat)
    ensures forall i, j :: 0 <= i < j < n ==> NodeName(i) != NodeName(j)
  {
    forall i, j | 0 <= i < j < n
      ensures NodeName(i) != NodeName(j)
    {
      if NodeName(i) == NodeName(j) {
        NodeNameInjective(i, j);
      }
    }
  }
}
