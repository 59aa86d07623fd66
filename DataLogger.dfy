/**
 * The data logger: a map from column names to the (derived) attributes
 * they show, kept in name order, and a CSV file that receives one header
 * row and then one data row per logged step.
 *
 * The file is modelled by the rows written so far and by whether the
 * stream accepts writes. A row written to a stream that does not accept
 * writes is lost; the header is written only while the file is still
 * empty, that is, while the stream is good and no row has been written.
 * Cell formatting (widths, scientific notation) is not modelled: a data
 * row holds the values themselves, or the text an attribute renders to.
 */
module Logging {
  import opened Optional
  import opened Attributes
  import opened ColumnMap
  import opened ColumnNames

  datatype Cell =
    | RealCell(x: real)
    | ComplexCell(re: real, im: real)
    | Text(s: string)

  datatype Row =
    | Header(names: seq<string>)
    | Data(time: real, cells: seq<Cell>)

  /** The outcome of the type-dispatching registration. */
  datatype Registration = Registered | InvalidAttribute

  /** The header row for the given column names: a leading `time` column, then the names in order. */
  function HeaderRow(names: seq<string>): (r: Row)
    ensures r.Header? && |r.names| == |names| + 1 && r.names[0] == "time"
    ensures forall i :: 0 <= i < |names| ==> r.names[i + 1] == names[i]
  {
    Header(["time"] + names)
  }

  /** The first column of a real matrix, one cell per row. */
  function FirstColumn(m: seq<seq<real>>): (cs: seq<Cell>)
    requires forall i :: 0 <= i < |m| ==> |m[i]| > 0
    ensures |cs| == |m|
    ensures forall i :: 0 <= i < |m| ==> cs[i] == RealCell(m[i][0])
  {
    seq(|m|, i requires 0 <= i < |m| => RealCell(m[i][0]))
  }

  /** The first column of a complex matrix, one cell per row. */
  function FirstComplexColumn(m: seq<seq<(real, real)>>): (cs: seq<Cell>)
    requires forall i :: 0 <= i < |m| ==> |m[i]| > 0
    ensures |cs| == |m|
    ensures forall i :: 0 <= i < |m| ==> cs[i] == ComplexCell(m[i][0].0, m[i][0].1)
  {
    seq(|m|, i requires 0 <= i < |m| => ComplexCell(m[i][0].0, m[i][0].1))
  }

  /** One rendered cell per column, in column order. */
  function Rendered(columns: seq<Column>, render: Source -> string): (cs: seq<Cell>)
    ensures |cs| == |columns|
    ensures forall j :: 0 <= j < |columns| ==> cs[j] == Text(render(columns[j].value))
  {
    seq(|columns|, j requires 0 <= j < |columns| => Text(render(columns[j].value)))
  }

  /** The names of an `n`-row phasor node vector, as the logger builds them. */
  method PhasorNodeNames(n: nat) returns (names: seq<string>)
    ensures names == PhasorNodeNamePrefix(n, n)
    ensures forall i, j :: 0 <= i < j < n ==> names[i] != names[j]
  {
    names := [];
    for i := 0 to n
      invariant names == PhasorNodeNamePrefix(n, i)
    {
      var name;
      if i < n / 2 {
        name := Re(NodeName(i));
      } else {
        name := Im(NodeName(i - n / 2));
      }
      assert name == PhasorNodeName(n, i);
      names := names + [name];
    }
    PhasorNodeNamesDistinct(n);
  }

  /** The names of an `n`-row EMT node vector, as the logger builds them. */
  method EmtNodeNames(n: nat) returns (names: seq<string>)
    ensures names == EmtNodeNamePrefix(n)
    ensures forall i, j :: 0 <= i < j < n ==> names[i] != names[j]
  {
    names := [];
    for i := 0 to n
      invariant names == EmtNodeNamePrefix(i)
    {
      names := names + [NodeName(i)];
    }
    EmtNodeNamesDistinct(n);
  }

  lemma PutAllSnoc<V>(es: seq<Entry<V>>, ps: seq<Entry<V>>, p: Entry<V>)
    requires Sorted(es)
    ensures PutAll(es, ps + [p]) == Put(PutAll(es, ps), p.key, p.value)
  {
    assert (ps + [p])[..|ps|] == ps;
  }

  lemma PutAllSnocPair<V>(es: seq<Entry<V>>, ps: seq<Entry<V>>, a: Entry<V>, b: Entry<V>)
    requires Sorted(es)
    ensures PutAll(es, ps + [a, b]) == Put(Put(PutAll(es, ps), a.key, a.value), b.key, b.value)
  {
    PutAllSnoc(es, ps, a);
    PutAllSnoc(es, ps + [a], b);
    assert ps + [a] + [b] == ps + [a, b];
  }

  lemma CellColumnsSnoc(name: string, id: nat, cells: seq<(nat, nat)>, c: (nat, nat))
    ensures CellColumns(name, id, cells + [c]) == CellColumns(name, id, cells) + [Entry(CellName(name, c.0, c.1), Coeff(id, c.0, c.1))]
  {
    assert (cells + [c])[..|cells|] == cells;
  }

  lemma GridColumnsSnoc(name: string, id: nat, cells: seq<(nat, nat)>, c: (nat, nat))
    ensures GridColumns(name, id, cells + [c]) == GridColumns(name, id, cells)
      + [Entry(Re(GridBase(name, c.0, c.1)), CoeffReal(id, c.0, c.1)),
         Entry(Im(GridBase(name, c.0, c.1)), CoeffImag(id, c.0, c.1))]
  {
    assert (cells + [c])[..|cells|] == cells;
  }

  lemma PutAllPair<V>(es: seq<Entry<V>>, a: Entry<V>, b: Entry<V>)
    requires Sorted(es)
    ensures PutAll(es, [a]) == Put(es, a.key, a.value)
    ensures PutAll(es, [a, b]) == Put(Put(es, a.key, a.value), b.key, b.value)
  {
    PutAllSnoc(es, [], a);
    PutAllSnoc(es, [a], b);
  }

  /** Cells(k, n) followed by the first `l` cells of row `k` is a prefix of the row-major order. */
  lemma RowBoundaries(k: nat, n: nat)
    ensures Cells(k, n) + RowCells(k, 0) == Cells(k, n)
    ensures Cells(k, n) + RowCells(k, n) == Cells(k + 1, n)
  {
  }

  lemma CellStep(es: seq<Column>, name: string, id: nat, k: nat, n: nat, l: nat)
    requires Sorted(es)
    ensures var before := CellColumns(name, id, Cells(k, n) + RowCells(k, l));
            PutAll(es, CellColumns(name, id, Cells(k, n) + RowCells(k, l + 1)))
              == Put(PutAll(es, before), CellName(name, k, l), Coeff(id, k, l))
  {
    var cells := Cells(k, n) + RowCells(k, l);
    CellColumnsSnoc(name, id, cells, (k, l));
    assert cells + [(k, l)] == Cells(k, n) + RowCells(k, l + 1);
    PutAllSnoc(es, CellColumns(name, id, cells), Entry(CellName(name, k, l), Coeff(id, k, l)));
  }

  lemma GridStep(es: seq<Column>, name: string, id: nat, k: nat, n: nat, l: nat)
    requires Sorted(es)
    ensures var before := PutAll(es, GridColumns(name, id, Cells(k, n) + RowCells(k, l)));
            var base := GridBase(name, k, l);
            PutAll(es, GridColumns(name, id, Cells(k, n) + RowCells(k, l + 1)))
              == Put(Put(before, Re(base), CoeffReal(id, k, l)), Im(base), CoeffImag(id, k, l))
  {
    var cells := Cells(k, n) + RowCells(k, l);
    var base := GridBase(name, k, l);
    var re, im := Entry(Re(base), CoeffReal(id, k, l)), Entry(Im(base), CoeffImag(id, k, l));
    GridColumnsSnoc(name, id, cells, (k, l));
    assert cells + [(k, l)] == Cells(k, n) + RowCells(k, l + 1);
    PutAllSnocPair(es, GridColumns(name, id, cells), re, im);
  }

  lemma VectorStep(es: seq<Column>, name: string, id: nat, k: nat)
    requires Sorted(es)
    ensures var base := VectorBase(name, k);
            PutAll(es, VectorColumns(name, id, k + 1))
              == Put(Put(PutAll(es, VectorColumns(name, id, k)), Re(base), CoeffReal(id, k, 0)), Im(base), CoeffImag(id, k, 0))
  {
    var base := VectorBase(name, k);
    var re, im := Entry(Re(base), CoeffReal(id, k, 0)), Entry(Im(base), CoeffImag(id, k, 0));
    assert VectorColumns(name, id, k + 1) == VectorColumns(name, id, k) + [re, im];
    PutAllSnocPair(es, VectorColumns(name, id, k), re, im);
  }

  /**
   * Putting a list of columns with distinct names leaves every one of them
   * findable under its name.
   */
  lemma {:induction false} PutAllFindsEach<V>(es: seq<Entry<V>>, ps: seq<Entry<V>>)
    requires Sorted(es) && DistinctKeys(ps)
    ensures forall j :: 0 <= j < |ps| ==> Lookup(PutAll(es, ps), ps[j].key) == Some(ps[j].value)
    decreases |ps|
  {
    if ps != [] {
      var n := |ps| - 1;
      assert ps == ps[..n] + [ps[n]];
      PutAllSnoc(es, ps[..n], ps[n]);
      PutAllFindsEach(es, ps[..n]);
    }
  }

  /**
   * A complex attribute registered into a map that holds neither of its
   * names adds exactly two columns, each findable under its name.
   */
  lemma ComplexRegistration(es: seq<Column>, name: string, id: nat)
    requires Sorted(es) && Keys(es) !! Keys(ComplexColumns(name, id))
    ensures |PutAll(es, ComplexColumns(name, id))| == |es| + 2
    ensures Lookup(PutAll(es, ComplexColumns(name, id)), Re(name)) == Some(RealPart(id))
    ensures Lookup(PutAll(es, ComplexColumns(name, id)), Im(name)) == Some(ImagPart(id))
  {
    var cs := ComplexColumns(name, id);
    ComplexColumnsDistinct(name, id);
    PutAllFindsEach(es, cs);
    assert cs[0].key == Re(name) && cs[1].key == Im(name);
  }

  /**
   * A real matrix registered into a map that holds none of its names adds
   * one column per coefficient (one for a 1x1 matrix, one per row for a
   * column vector), each findable under its name.
   */
  lemma RealMatrixRegistration(es: seq<Column>, name: string, id: nat, rows: nat, cols: nat)
    requires Sorted(es) && Keys(es) !! Keys(RealMatrixColumns(name, id, rows, cols))
    ensures |PutAll(es, RealMatrixColumns(name, id, rows, cols))| ==
      |es| + if rows == 1 && cols == 1 then 1 else if cols == 1 then rows else rows * cols
    ensures var cs := RealMatrixColumns(name, id, rows, cols);
            forall j :: 0 <= j < |cs| ==> Lookup(PutAll(es, cs), cs[j].key) == Some(cs[j].value)
  {
    RealMatrixColumnsShape(name, id, rows, cols);
    PutAllFindsEach(es, RealMatrixColumns(name, id, rows, cols));
  }

  /**
   * A complex matrix registered into a map that holds none of its names
   * adds two columns per kept coefficient, each findable under its name.
   */
  lemma ComplexMatrixRegistration(es: seq<Column>, name: string, id: nat, rows: nat, cols: nat, rowsMax: nat, colsMax: nat)
    requires Sorted(es) && Keys(es) !! Keys(ComplexMatrixColumns(name, id, rows, cols, rowsMax, colsMax))
    ensures |PutAll(es, ComplexMatrixColumns(name, id, rows, cols, rowsMax, colsMax))| ==
      |es| + if rows == 1 && cols == 1 then 2
             else if cols == 1 then 2 * Clamp(rowsMax, rows)
             else 2 * (Clamp(rowsMax, rows) * Clamp(colsMax, cols))
    ensures var cs := ComplexMatrixColumns(name, id, rows, cols, rowsMax, colsMax);
            forall j :: 0 <= j < |cs| ==> Lookup(PutAll(es, cs), cs[j].key) == Some(cs[j].value)
  {
    ComplexMatrixColumnsShape(name, id, rows, cols, rowsMax, colsMax);
    PutAllFindsEach(es, ComplexMatrixColumns(name, id, rows, cols, rowsMax, colsMax));
  }

  /**
   * The header the logging step writes names every registered column once,
   * in strictly ascending name order, after the time column.
   */
  lemma LogHeaderOrdered(columns: seq<Column>)
    requires Sorted(columns)
    ensures var h := HeaderRow(KeyList(columns));
            |h.names| == |columns| + 1 && h.names[0] == "time"
            && (forall i, j :: 1 <= i < j < |h.names| ==> Below(h.names[i], h.names[j]))
            && (forall i :: 1 <= i < |h.names| ==> h.names[i] in Keys(columns))
  {
    SortedAscending(columns);
    var h := HeaderRow(KeyList(columns));
    forall i | 1 <= i < |h.names|
      ensures h.names[i] in Keys(columns)
    {
      KeyAtIndex(columns, i - 1);
    }
  }

  class DataLogger {
    var enabled: bool
    /** Whether the file stream accepts writes (it was opened and not closed). */
    var streamGood: bool
    const downsampling: nat
    /** The registered columns, in name order. */
    var columns: seq<Column>
    /** The rows written to the file so far. */
    var rows: seq<Row>

    ghost predicate Valid()
      reads this
    {
      Sorted(columns)
    }

    /** The file position is still 0: the stream is good and nothing has been written. */
    predicate AtStart()
      reads this
    {
      streamGood && rows == []
    }

    /** A logger without a file: its stream is put into the bad state at once. */
    constructor WithoutFile(enabled: bool)
      ensures Valid()
      ensures this.enabled == enabled && !streamGood && downsampling == 1
      ensures columns == [] && rows == []
    {
      this.enabled := enabled;
      streamGood := false;
      downsampling := 1;
      columns := [];
      rows := [];
    }

    /**
     * A logger writing to a file. A disabled logger does not open the file.
     * When opening fails, `fileOpens` is false and the logger disables
     * itself.
     */
    constructor (enabled: bool, downsampling: nat, fileOpens: bool)
      ensures Valid()
      ensures this.enabled == (enabled && fileOpens) && streamGood == (enabled && fileOpens)
      ensures this.downsampling == downsampling
      ensures columns == [] && rows == []
    {
      this.enabled := enabled && fileOpens;
      streamGood := enabled && fileOpens;
      this.downsampling := downsampling;
      columns := [];
      rows := [];
    }

    /** Closing the stream: later writes are lost. */
    method Close()
      modifies this
      ensures !streamGood
      ensures enabled == old(enabled) && columns == old(columns) && rows == old(rows)
    {
      streamGood := false;
    }

    /** A row goes to the file only if the stream accepts writes. */
    method Write(row: Row)
      modifies this
      ensures rows == if old(streamGood) then old(rows) + [row] else old(rows)
      ensures enabled == old(enabled) && streamGood == old(streamGood) && columns == old(columns)
    {
      if streamGood {
        rows := rows + [row];
      }
    }

    /** Writes the header for the given names, only while the file is empty. */
    method SetColumnNames(names: seq<string>)
      modifies this
      ensures rows == if old(AtStart()) then [HeaderRow(names)] else old(rows)
      ensures enabled == old(enabled) && streamGood == old(streamGood) && columns == old(columns)
    {
      if AtStart() {
        var header := ["time"];
        for i := 0 to |names|
          invariant header == ["time"] + names[..i]
        {
          header := header + [names[i]];
        }
        assert names[..|names|] == names;
        Write(Header(header));
      }
    }

    method LogRealLine(time: real, data: real)
      modifies this
      ensures rows == if old(enabled && streamGood) then old(rows) + [Data(time, [RealCell(data)])] else old(rows)
      ensures enabled == old(enabled) && streamGood == old(streamGood) && columns == old(columns)
    {
      if !enabled {
        return;
      }
      Write(Data(time, [RealCell(data)]));
    }

    /** Logs the first column of a real matrix, one cell per row. */
    method LogMatrixLine(time: real, data: seq<seq<real>>)
      requires forall i :: 0 <= i < |data| ==> |data[i]| > 0
      modifies this
      ensures rows == if old(enabled && streamGood) then old(rows) + [Data(time, FirstColumn(data))] else old(rows)
      ensures enabled == old(enabled) && streamGood == old(streamGood) && columns == old(columns)
    {
      if !enabled {
        return;
      }
      var cells := [];
      for i := 0 to |data|
        invariant cells == FirstColumn(data[..i])
      {
        cells := cells + [RealCell(data[i][0])];
      }
      assert data[..|data|] == data;
      Write(Data(time, cells));
    }

    /** Logs the first column of a complex matrix, one cell per row. */
    method LogComplexMatrixLine(time: real, data: seq<seq<(real, real)>>)
      requires forall i :: 0 <= i < |data| ==> |data[i]| > 0
      modifies this
      ensures rows == if old(enabled && streamGood) then old(rows) + [Data(time, FirstComplexColumn(data))] else old(rows)
      ensures enabled == old(enabled) && streamGood == old(streamGood) && columns == old(columns)
    {
      if !enabled {
        return;
      }
      var cells := [];
      for i := 0 to |data|
        invariant cells == FirstComplexColumn(data[..i])
      {
        cells := cells + [ComplexCell(data[i][0].0, data[i][0].1)];
      }
      assert data[..|data|] == data;
      Write(Data(time, cells));
    }

    /**
     * Logs a vector of phasor node voltages: on an empty file, first a
     * header naming the real parts and then the imaginary parts of every
     * node; then the row itself.
     */
    method LogPhasorNodeValues(time: real, data: seq<seq<real>>)
      requires forall i :: 0 <= i < |data| ==> |data[i]| > 0
      modifies this
      ensures var header := if old(AtStart()) then [HeaderRow(PhasorNodeNamePrefix(|data|, |data|))] else [];
              var line := if old(enabled && streamGood) then [Data(time, FirstColumn(data))] else [];
              rows == old(rows) + header + line
      ensures enabled == old(enabled) && streamGood == old(streamGood) && columns == old(columns)
    {
      if AtStart() {
        var names := PhasorNodeNames(|data|);
        SetColumnNames(names);
      }
      LogMatrixLine(time, data);
    }

    /**
     * Logs a vector of EMT node voltages: on an empty file, first a header
     * naming every node; then the row itself.
     */
    method LogEmtNodeValues(time: real, data: seq<seq<real>>)
      requires forall i :: 0 <= i < |data| ==> |data[i]| > 0
      modifies this
      ensures var header := if old(AtStart()) then [HeaderRow(EmtNodeNamePrefix(|data|))] else [];
              var line := if old(enabled && streamGood) then [Data(time, FirstColumn(data))] else [];
              rows == old(rows) + header + line
      ensures enabled == old(enabled) && streamGood == old(streamGood) && columns == old(columns)
    {
      if AtStart() {
        var names := EmtNodeNames(|data|);
        SetColumnNames(names);
      }
      LogMatrixLine(time, data);
    }

    /**
     * The logging step. A disabled logger, or a step that is not a
     * multiple of the downsampling factor, writes nothing. Otherwise, on
     * an empty file, the header names every column in name order; then one
     * row renders every column's attribute at this step. `render` stands
     * for the attributes' current text form.
     */
    method Log(time: real, timeStepCount: nat, render: Source -> string)
      requires Valid()
      requires enabled ==> downsampling > 0
      modifies this
      ensures Valid()
      ensures var due := old(enabled) && timeStepCount % downsampling == 0;
              var header := if due && old(AtStart()) then [HeaderRow(KeyList(columns))] else [];
              var line := if due && old(streamGood) then [Data(time, Rendered(columns, render))] else [];
              rows == old(rows) + header + line
      ensures enabled == old(enabled) && streamGood == old(streamGood) && columns == old(columns)
    {
      if !enabled || timeStepCount % downsampling != 0 {
        return;
      }
      if AtStart() {
        var header := HeaderNames();
        Write(Header(header));
      }
      var cells := RenderCells(render);
      Write(Data(time, cells));
    }

    /** The header line: "time" followed by every column name in key order. */
    method HeaderNames() returns (header: seq<string>)
      ensures header == ["time"] + KeyList(columns)
    {
      header := ["time"];
      for i := 0 to |columns|
        invariant |header| == i + 1 && header[0] == "time"
        invariant forall k :: 0 <= k < i ==> header[k + 1] == columns[k].key
      {
        header := header + [columns[i].key];
      }
      assert header == ["time"] + KeyList(columns);
    }

    /** One rendered cell per column, in key order. */
    method RenderCells(render: Source -> string) returns (cells: seq<Cell>)
      ensures cells == Rendered(columns, render)
    {
      cells := [];
      for j := 0 to |columns|
        invariant cells == Rendered(columns[..j], render)
      {
        cells := cells + [Text(render(columns[j].value))];
      }
      assert columns[..|columns|] == columns;
    }

    /** `mAttributes[key] = source` */
    method PutColumn(key: string, source: Source)
      requires Valid()
      modifies this
      ensures Valid()
      ensures columns == Put(old(columns), key, source)
      ensures enabled == old(enabled) && streamGood == old(streamGood) && rows == old(rows)
    {
      columns := Put(columns, key, source);
    }

    /** Registers an integer attribute under its name. */
    method AddInt(name: string, attr: Attribute)
      requires Valid() && KindOf(attr.value) == IntKind
      modifies this
      ensures Valid()
      ensures columns == Put(old(columns), name, Whole(attr.id))
      ensures enabled == old(enabled) && streamGood == old(streamGood) && rows == old(rows)
    {
      PutColumn(name, Whole(attr.id));
    }

    /** Registers a real attribute under its name. */
    method AddReal(name: string, attr: Attribute)
      requires Valid() && KindOf(attr.value) == RealKind
      modifies this
      ensures Valid()
      ensures columns == Put(old(columns), name, Whole(attr.id))
      ensures enabled == old(enabled) && streamGood == old(streamGood) && rows == old(rows)
    {
      PutColumn(name, Whole(attr.id));
    }

    /** Registers a complex attribute as its real part `name.re` and imaginary part `name.im`. */
    method AddComplex(name: string, attr: Attribute)
      requires Valid() && KindOf(attr.value) == ComplexKind
      modifies this
      ensures Valid()
      ensures columns == PutAll(old(columns), ComplexColumns(name, attr.id))
      ensures enabled == old(enabled) && streamGood == old(streamGood) && rows == old(rows)
    {
      PutAllPair(columns, Entry(Re(name), RealPart(attr.id)), Entry(Im(name), ImagPart(attr.id)));
      PutColumn(Re(name), RealPart(attr.id));
      PutColumn(Im(name), ImagPart(attr.id));
    }

    /** Registers every coefficient of a real matrix, named by its shape. */
    method AddRealMatrix(name: string, attr: Attribute)
      requires Valid() && KindOf(attr.value) == RealMatrixKind
      modifies this
      ensures Valid()
      ensures columns == PutAll(old(columns), RealMatrixColumns(name, attr.id, attr.value.rows, attr.value.cols))
      ensures enabled == old(enabled) && streamGood == old(streamGood) && rows == old(rows)
    {
      var id, m, n := attr.id, attr.value.rows, attr.value.cols;
      if m == 1 && n == 1 {
        PutAllPair(columns, Entry(name, Coeff(id, 0, 0)), Entry(name, Coeff(id, 0, 0)));
        PutColumn(name, Coeff(id, 0, 0));
      } else if n == 1 {
        AddRealColumn(name, id, m);
      } else {
        AddRealGrid(name, id, m, n);
      }
    }

    method AddRealColumn(name: string, id: nat, m: nat)
      requires Valid()
      modifies this
      ensures Valid()
      ensures columns == PutAll(old(columns), IndexColumns(name, id, m))
      ensures enabled == old(enabled) && streamGood == old(streamGood) && rows == old(rows)
    {
      for k := 0 to m
        invariant Valid()
        invariant columns == PutAll(old(columns), IndexColumns(name, id, k))
        invariant enabled == old(enabled) && streamGood == old(streamGood) && rows == old(rows)
      {
        PutAllSnoc(old(columns), IndexColumns(name, id, k), Entry(IndexName(name, k), Coeff(id, k, 0)));
        PutColumn(IndexName(name, k), Coeff(id, k, 0));
      }
    }

    method AddRealGrid(name: string, id: nat, m: nat, n: nat)
      requires Valid()
      modifies this
      ensures Valid()
      ensures columns == PutAll(old(columns), CellColumns(name, id, Cells(m, n)))
      ensures enabled == old(enabled) && streamGood == old(streamGood) && rows == old(rows)
    {
      for k := 0 to m
        invariant Valid()
        invariant columns == PutAll(old(columns), CellColumns(name, id, Cells(k, n)))
        invariant enabled == old(enabled) && streamGood == old(streamGood) && rows == old(rows)
      {
        RowBoundaries(k, n);
        for l := 0 to n
          invariant Valid()
          invariant columns == PutAll(old(columns), CellColumns(name, id, Cells(k, n) + RowCells(k, l)))
          invariant enabled == old(enabled) && streamGood == old(streamGood) && rows == old(rows)
        {
          CellStep(old(columns), name, id, k, n, l);
          PutColumn(CellName(name, k, l), Coeff(id, k, l));
        }
      }
    }

    /**
     * Registers the real and imaginary part of the coefficients of a
     * complex matrix, limited to `rowsMax` rows and `colsMax` columns when
     * those are positive and within the matrix.
     */
    method AddComplexMatrix(name: string, attr: Attribute, rowsMax: nat, colsMax: nat)
      requires Valid() && KindOf(attr.value) == ComplexMatrixKind
      modifies this
      ensures Valid()
      ensures columns == PutAll(old(columns), ComplexMatrixColumns(name, attr.id, attr.value.rows, attr.value.cols, rowsMax, colsMax))
      ensures enabled == old(enabled) && streamGood == old(streamGood) && rows == old(rows)
    {
      var id, m, n := attr.id, attr.value.rows, attr.value.cols;
      var rm, cm := rowsMax, colsMax;
      if rm == 0 || rm > m {
        rm := m;
      }
      if cm == 0 || cm > n {
        cm := n;
      }
      if m == 1 && n == 1 {
        PutAllPair(columns, Entry(Re(name), CoeffReal(id, 0, 0)), Entry(Im(name), CoeffImag(id, 0, 0)));
        PutColumn(Re(name), CoeffReal(id, 0, 0));
        PutColumn(Im(name), CoeffImag(id, 0, 0));
      } else if n == 1 {
        AddComplexColumn(name, id, rm);
      } else {
        AddComplexGrid(name, id, rm, cm);
      }
    }

    method AddComplexColumn(name: string, id: nat, m: nat)
      requires Valid()
      modifies this
      ensures Valid()
      ensures columns == PutAll(old(columns), VectorColumns(name, id, m))
      ensures enabled == old(enabled) && streamGood == old(streamGood) && rows == old(rows)
    {
      for k := 0 to m
        invariant Valid()
        invariant columns == PutAll(old(columns), VectorColumns(name, id, k))
        invariant enabled == old(enabled) && streamGood == old(streamGood) && rows == old(rows)
      {
        VectorStep(old(columns), name, id, k);
        var base := VectorBase(name, k);
        PutColumn(Re(base), CoeffReal(id, k, 0));
        PutColumn(Im(base), CoeffImag(id, k, 0));
      }
    }

    method AddComplexGrid(name: string, id: nat, m: nat, n: nat)
      requires Valid()
      modifies this
      ensures Valid()
      ensures columns == PutAll(old(columns), GridColumns(name, id, Cells(m, n)))
      ensures enabled == old(enabled) && streamGood == old(streamGood) && rows == old(rows)
    {
      for k := 0 to m
        invariant Valid()
        invariant columns == PutAll(old(columns), GridColumns(name, id, Cells(k, n)))
        invariant enabled == old(enabled) && streamGood == old(streamGood) && rows == old(rows)
      {
        RowBoundaries(k, n);
        for l := 0 to n
          invariant Valid()
          invariant columns == PutAll(old(columns), GridColumns(name, id, Cells(k, n) + RowCells(k, l)))
          invariant enabled == old(enabled) && streamGood == old(streamGood) && rows == old(rows)
        {
          GridStep(old(columns), name, id, k, n, l);
          var base := GridBase(name, k, l);
          PutColumn(Re(base), CoeffReal(id, k, l));
          PutColumn(Im(base), CoeffImag(id, k, l));
        }
      }
    }

    /**
     * Registration of an attribute of unknown static type: dispatches on
     * its kind to the typed registrations (a complex matrix with no row or
     * column limit) and refuses any other kind, registering nothing.
     */
    method AddAttribute(name: string, attr: Attribute) returns (outcome: Registration)
      requires Valid()
      modifies this
      ensures Valid()
      ensures outcome == InvalidAttribute <==> KindOf(attr.value).OtherKind?
      ensures columns == match attr.value
        case IntValue(_) => Put(old(columns), name, Whole(attr.id))
        case RealValue(_) => Put(old(columns), name, Whole(attr.id))
        case ComplexValue(_, _) => PutAll(old(columns), ComplexColumns(name, attr.id))
        case RealMatrixValue(m, n) => PutAll(old(columns), RealMatrixColumns(name, attr.id, m, n))
        case ComplexMatrixValue(m, n) => PutAll(old(columns), ComplexMatrixColumns(name, attr.id, m, n, 0, 0))
        case OtherValue(_) => old(columns)
      ensures enabled == old(enabled) && streamGood == old(streamGood) && rows == old(rows)
    {
      outcome := Registered;
      match attr.value
      case IntValue(_) =>
        AddInt(name, attr);
      case RealValue(_) =>
        AddReal(name, attr);
      case ComplexValue(_, _) =>
        AddComplex(name, attr);
      case RealMatrixValue(_, _) =>
        AddRealMatrix(name, attr);
      case ComplexMatrixValue(_, _) =>
        AddComplexMatrix(name, attr, 0, 0);
      case OtherValue(_) =>
        outcome := InvalidAttribute;
    }
  }
}
