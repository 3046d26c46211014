/**
 * The `Matrix` utilities: loading the CSV capture (columns swapped into rail
 * vectors), ordering the rails for the analyser, and decoding the binary metadata
 * file of stage markers (pairs of big-endian 32-bit values).
 */
module Matrix {
  import opened Common
  import opened AnalyzerTypes
  import opened CsvText

  // ---------------------------------------------------------------------------
  // Metadata files
  // ---------------------------------------------------------------------------

  /** Every entry of a file is a byte. */
  predicate IsByteFile(data: seq<int>)
  {
    forall j :: 0 <= j < |data| ==> 0 <= data[j] < 256
  }

  /** `Stream.ReadByte` at `pos`: the byte there, or -1 once the stream is exhausted. */
  function ByteAt(data: seq<int>, pos: nat): int
  {
    if pos < |data| then data[pos] else -1
  }

  /** The read-only `FileStream` over a metadata file: fixed contents and a position. */
  class ByteStream {
    const data: seq<int>
    var position: nat

    predicate Valid()
      reads this
    {
      position <= |data|
    }

    constructor(data: seq<int>)
      ensures this.data == data && position == 0 && Valid()
    {
      this.data := data;
      position := 0;
    }

    /** Returns the byte at the position and steps past it; at the end returns -1 and stays. */
    method ReadByte() returns (b: int)
      requires Valid()
      modifies this`position
      ensures Valid()
      ensures b == ByteAt(data, old(position))
      ensures position == if old(position) < |data| then old(position) + 1 else old(position)
    {
      if position < |data| {
        b := data[position];
        position := position + 1;
      } else {
        b := -1;
      }
    }
  }

  /** Four values combined most significant first, each shift by 8 bits of the `long`
      accumulator written as a product (the accumulator never leaves 40 bits). */
  function BigEndian(b0: int, b1: int, b2: int, b3: int): int
  {
    ((b0 * 256 + b1) * 256 + b2) * 256 + b3
  }

  /** The value `ReadLongFromStream` returns when the stream stands at `pos`. */
  function LongAt(data: seq<int>, pos: nat): int
  {
    BigEndian(ByteAt(data, pos), ByteAt(data, pos + 1), ByteAt(data, pos + 2), ByteAt(data, pos + 3))
  }

  /** Reads four bytes (each -1 past the end) and combines them big-endian. */
  method ReadLongFromStream(stream: ByteStream) returns (value: int)
    requires stream.Valid()
    modifies stream`position
    ensures stream.Valid()
    ensures value == LongAt(stream.data, old(stream.position))
    ensures stream.position == if old(stream.position) + 4 <= |stream.data| then old(stream.position) + 4 else |stream.data|
  {
    var valh1 := stream.ReadByte();
    var vall1 := stream.ReadByte();
    var valh2 := stream.ReadByte();
    var vall2 := stream.ReadByte();

    value := valh1;
    value := value * 256;
    value := value + vall1;

    value := value * 256;
    value := value + valh2;
    value := value * 256;
    value := value + vall2;
  }

  /** Four whole bytes give an unsigned 32-bit value. */
  lemma LongAtRange(data: seq<int>, pos: nat)
    requires IsByteFile(data) && pos + 4 <= |data|
    ensures 0 <= LongAt(data, pos) < 0x1_0000_0000
  {
    var a := data[pos] * 256 + data[pos + 1];
    assert 0 <= a < 0x1_0000;
    var b := a * 256 + data[pos + 2];
    assert 0 <= b < 0x100_0000;
  }

  /** A read at the end of the stream combines four -1 values. */
  lemma LongAtEnd(data: seq<int>, pos: nat)
    requires pos >= |data|
    ensures LongAt(data, pos) == -16843009
  {
  }

  /** The four big-endian bytes of an unsigned 32-bit value. */
  function Encode32(x: int): seq<int>
  {
    [x / 256 / 256 / 256, x / 256 / 256 % 256, x / 256 % 256, x % 256]
  }

  lemma DivMod256(a: int, b: int)
    requires 0 <= b < 256
    ensures (a * 256 + b) / 256 == a && (a * 256 + b) % 256 == b
  {
  }

  /** Reading back an encoded value gives the value. */
  lemma DecodeEncode32(x: int)
    requires 0 <= x < 0x1_0000_0000
    ensures LongAt(Encode32(x), 0) == x
  {
    var e := Encode32(x);
    var q1 := x / 256;
    var q2 := q1 / 256;
    assert x == q1 * 256 + x % 256;
    assert q1 == q2 * 256 + q1 % 256;
    assert q2 == q2 / 256 * 256 + q2 % 256;
    assert BigEndian(e[0], e[1], e[2], e[3]) == x;
  }

  /** Encoding the value read from four whole bytes gives those bytes. */
  lemma EncodeDecode32(data: seq<int>, pos: nat)
    requires IsByteFile(data) && pos + 4 <= |data|
    ensures Encode32(LongAt(data, pos)) == data[pos..pos + 4]
  {
    var a := data[pos] * 256 + data[pos + 1];
    var b := a * 256 + data[pos + 2];
    var c := b * 256 + data[pos + 3];
    DivMod256(data[pos], data[pos + 1]);
    DivMod256(a, data[pos + 2]);
    DivMod256(b, data[pos + 3]);
    assert LongAt(data, pos) == c;
  }

  /** The markers of a metadata file: one per 8 bytes, value then time, a short final
      record completed with -1 bytes. */
  function DecodeMarkers(data: seq<int>): seq<Marker>
    decreases |data|
  {
    if |data| == 0 then []
    else [Marker(LongAt(data, 0), LongAt(data, 4))] + DecodeMarkers(if |data| >= 8 then data[8..] else [])
  }

  /** Reading from a later position is reading the bytes from there on. */
  lemma LongAtDrop(data: seq<int>, pos: nat, k: nat)
    requires k <= |data|
    ensures LongAt(data, pos + k) == LongAt(data[k..], pos)
  {
    assert ByteAt(data, pos + k) == ByteAt(data[k..], pos);
    assert ByteAt(data, pos + 1 + k) == ByteAt(data[k..], pos + 1);
    assert ByteAt(data, pos + 2 + k) == ByteAt(data[k..], pos + 2);
    assert ByteAt(data, pos + 3 + k) == ByteAt(data[k..], pos + 3);
  }

  /** Reads value/time pairs while the position is short of the length. The stream of
      an opened file can always be read, so `CanRead` is not modelled. */
  method LoadMetadataMarkers(data: seq<int>) returns (markers: seq<Marker>)
    ensures markers == DecodeMarkers(data)
  {
    markers := [];
    var fs := new ByteStream(data);
    assert data[0..] == data;
    while fs.position < |fs.data|
      invariant fs.Valid() && fs.data == data
      invariant markers + DecodeMarkers(data[fs.position..]) == DecodeMarkers(data)
      decreases |fs.data| - fs.position
    {
      ghost var p := fs.position;
      var value := ReadLongFromStream(fs);
      var time := ReadLongFromStream(fs);
      LongAtDrop(data, 0, p);
      LongAtDrop(data, 4, p);
      ghost var tail := data[p..];
      assert DecodeMarkers(tail) == [Marker(value, time)] + DecodeMarkers(data[fs.position..]) by {
        if |tail| >= 8 {
          assert tail[8..] == data[fs.position..];
        } else {
          assert data[fs.position..] == [];
        }
      }
      markers := markers + [Marker(value, time)];
    }
  }

  /** A file of `n` bytes holds ceil(n / 8) markers. */
  lemma {:induction false} MarkerCount(data: seq<int>)
    ensures |DecodeMarkers(data)| == (|data| + 7) / 8
    decreases |data|
  {
    if |data| >= 8 {
      MarkerCount(data[8..]);
    }
  }

  /** The metadata file of a list of markers: each as its value then its time, big-endian. */
  function EncodeMarkers(ms: seq<Marker>): (data: seq<int>)
    ensures |data| == 8 * |ms|
  {
    if |ms| == 0 then [] else Encode32(ms[0].frame) + Encode32(ms[0].timeUs) + EncodeMarkers(ms[1..])
  }

  /** Markers fit the file format when both fields are unsigned 32-bit values. */
  predicate Encodable(ms: seq<Marker>)
  {
    forall k :: 0 <= k < |ms| ==> 0 <= ms[k].frame < 0x1_0000_0000 && 0 <= ms[k].timeUs < 0x1_0000_0000
  }

  /** Loading the file written for a list of markers gives the list back. */
  lemma {:induction false} DecodeEncodeMarkers(ms: seq<Marker>)
    requires Encodable(ms)
    ensures DecodeMarkers(EncodeMarkers(ms)) == ms
  {
    if |ms| > 0 {
      var data := EncodeMarkers(ms);
      var rest := EncodeMarkers(ms[1..]);
      assert data == Encode32(ms[0].frame) + Encode32(ms[0].timeUs) + rest;
      DecodeEncode32(ms[0].frame);
      DecodeEncode32(ms[0].timeUs);
      forall q: nat | q < 4
        ensures ByteAt(data, q) == ByteAt(Encode32(ms[0].frame), q)
        ensures ByteAt(data, 4 + q) == ByteAt(Encode32(ms[0].timeUs), q)
      {
      }
      assert LongAt(data, 0) == LongAt(Encode32(ms[0].frame), 0);
      assert LongAt(data, 4) == LongAt(Encode32(ms[0].timeUs), 0);
      assert data[8..] == rest;
      assert Encodable(ms[1..]) by {
        assert forall k :: 0 <= k < |ms| - 1 ==> ms[1..][k] == ms[k + 1];
      }
      DecodeEncodeMarkers(ms[1..]);
    }
  }

  lemma ByteFileDrop(data: seq<int>, k: nat)
    requires IsByteFile(data) && k <= |data|
    ensures IsByteFile(data[k..])
  {
    assert forall j :: 0 <= j < |data| - k ==> data[k..][j] == data[j + k];
  }

  /** Writing back the markers of a whole-record byte file gives the file back. */
  lemma {:induction false} EncodeDecodeMarkers(data: seq<int>)
    requires IsByteFile(data) && |data| % 8 == 0
    ensures EncodeMarkers(DecodeMarkers(data)) == data
    decreases |data|
  {
    if |data| > 0 {
      var rest := data[8..];
      var ms := DecodeMarkers(data);
      assert ms == [Marker(LongAt(data, 0), LongAt(data, 4))] + DecodeMarkers(rest);
      assert ms[1..] == DecodeMarkers(rest);
      ByteFileDrop(data, 8);
      EncodeDecodeMarkers(rest);
      EncodeDecode32(data, 0);
      EncodeDecode32(data, 4);
      assert EncodeMarkers(ms) == Encode32(LongAt(data, 0)) + Encode32(LongAt(data, 4)) + EncodeMarkers(ms[1..]);
      assert data == data[0..4] + data[4..8] + rest;
    }
  }

  // ---------------------------------------------------------------------------
  // Rail order
  // ---------------------------------------------------------------------------

  /** The order `SortMatrix` emits: +5VSB first, then +12V, +5V and +3.3V. */
  const SortPriority: seq<Rail> := [V5SB, V12, V5, V3_3]

  /** A rail's place in `SortPriority`; the negative rails come after all of them. */
  function Rank(r: Rail): nat
  {
    match r
    case V5SB => 0
    case V12 => 1
    case V5 => 2
    case V3_3 => 3
    case _ => 4
  }

  /** The entries of `matrix` for the rails of `order`, in that order, absent rails skipped. */
  function Prioritized(matrix: map<Rail, seq<real>>, order: seq<Rail>): seq<(Rail, seq<real>)>
  {
    if |order| == 0 then []
    else
      var r := order[|order| - 1];
      Prioritized(matrix, order[..|order| - 1]) + (if r in matrix then [(r, matrix[r])] else [])
  }

  /** The set of rails an ordered dictionary holds. */
  function KeysOf(entries: seq<(Rail, seq<real>)>): set<Rail>
  {
    set j | 0 <= j < |entries| :: entries[j].0
  }

  /** Copies the +5VSB, +12V, +5V and +3.3V entries present, in that order. The
      output dictionary is filled by `Add` only, so it enumerates in insertion order;
      it is modelled as that sequence of entries. */
  method SortMatrix(matrix: map<Rail, seq<real>>) returns (output: seq<(Rail, seq<real>)>)
    ensures output == Prioritized(matrix, SortPriority)
  {
    output := [];
    for i := 0 to 4
      invariant output == Prioritized(matrix, SortPriority[..i])
    {
      var req := V12;
      match i {
        case 0 => req := V5SB;
        case 1 => req := V12;
        case 2 => req := V5;
        case 3 => req := V3_3;
      }
      assert SortPriority[..i + 1][..i] == SortPriority[..i];
      if req in matrix {
        output := output + [(req, matrix[req])];
      }
    }
    assert SortPriority[..4] == SortPriority;
  }

  /** Every entry is an input entry for a rail of `order`, and every rail of `order`
      the input holds has an entry. */
  lemma {:induction false} PrioritizedEntries(matrix: map<Rail, seq<real>>, order: seq<Rail>)
    ensures forall j :: 0 <= j < |Prioritized(matrix, order)| ==>
      var e := Prioritized(matrix, order)[j]; e.0 in matrix && e.0 in order && e.1 == matrix[e.0]
    ensures forall r :: r in matrix && r in order ==> r in KeysOf(Prioritized(matrix, order))
  {
    if |order| > 0 {
      var init := order[..|order| - 1];
      var r := order[|order| - 1];
      PrioritizedEntries(matrix, init);
      var out := Prioritized(matrix, order);
      var prev := Prioritized(matrix, init);
      assert forall j :: 0 <= j < |prev| ==> out[j] == prev[j];
      assert forall x :: x in init ==> x in order;
      forall x | x in matrix && x in order
        ensures x in KeysOf(out)
      {
        if x == r {
          assert out[|prev|] == (r, matrix[r]);
        } else {
          var k :| 0 <= k < |order| && order[k] == x;
          assert init[k] == x;
          var j :| 0 <= j < |prev| && prev[j].0 == x;
          assert out[j].0 == x;
        }
      }
    }
  }

  /** When `order` ranks strictly upwards, so do the entries. */
  lemma {:induction false} PrioritizedOrdered(matrix: map<Rail, seq<real>>, order: seq<Rail>)
    requires forall i, j :: 0 <= i < j < |order| ==> Rank(order[i]) < Rank(order[j])
    ensures forall i, j :: 0 <= i < j < |Prioritized(matrix, order)| ==>
      Rank(Prioritized(matrix, order)[i].0) < Rank(Prioritized(matrix, order)[j].0)
  {
    if |order| > 0 {
      var init := order[..|order| - 1];
      var r := order[|order| - 1];
      PrioritizedOrdered(matrix, init);
      PrioritizedEntries(matrix, init);
      var prev := Prioritized(matrix, init);
      forall j | 0 <= j < |prev|
        ensures Rank(prev[j].0) < Rank(r)
      {
        var k :| 0 <= k < |init| && init[k] == prev[j].0;
      }
    }
  }

  /** `SortMatrix` keeps each rail's vector, keeps exactly the +5VSB, +12V, +5V and
      +3.3V rails the input holds (the negative rails are dropped), and emits them in
      that order, each at most once. */
  lemma SortMatrixContents(matrix: map<Rail, seq<real>>)
    ensures var out := Prioritized(matrix, SortPriority);
      (forall j :: 0 <= j < |out| ==> out[j].0 in matrix && out[j].1 == matrix[out[j].0])
      && (forall r :: r in KeysOf(out) <==> r in matrix && r != V12N && r != V5N)
      && (forall i, j :: 0 <= i < j < |out| ==> Rank(out[i].0) < Rank(out[j].0))
  {
    PrioritizedEntries(matrix, SortPriority);
    PrioritizedOrdered(matrix, SortPriority);
    var out := Prioritized(matrix, SortPriority);
    forall r | r in KeysOf(out)
      ensures r in matrix && r != V12N && r != V5N
    {
      var j :| 0 <= j < |out| && out[j].0 == r;
    }
  }

  // ---------------------------------------------------------------------------
  // CSV capture
  // ---------------------------------------------------------------------------

  /** Why `LoadMatrix` throws: a file without a first line, or a cell `float.Parse` rejects. */
  datatype LoadError = EmptyFile | BadNumber(cell: string)

  /** What `LoadMatrix` produces: one vector per CSV column, and the header names. */
  datatype Loaded = Loaded(columns: seq<seq<real>>, headers: seq<string>)

  /** The header names used when the file has no header line. */
  const DefaultHeaders: seq<string> := ["t0", "v12", "v5", "v5sb", "v3_3"]

  /** A line contributes a row when, once trimmed, it is not empty, does not start a
      `#` comment, and has more than one comma-separated cell. */
  predicate Accepted(line: string)
  {
    var t := Trim(line);
    |t| > 0 && t[0] != '#' && |Split(t, ',')| > 1
  }

  /** The cells of the lines that contribute rows, in file order. */
  function CellRows(lines: seq<string>): seq<seq<string>>
  {
    if |lines| == 0 then []
    else
      var line := lines[|lines| - 1];
      CellRows(lines[..|lines| - 1]) + (if Accepted(line) then [Split(Trim(line), ',')] else [])
  }

  /** The cells parsed in order; the first cell `parse` rejects is the error. */
  function ParseCells(cells: seq<string>, parse: string -> Option<real>): (r: Result<seq<real>, LoadError>)
    ensures r.Ok? ==> |r.value| == |cells|
  {
    if |cells| == 0 then Ok([])
    else
      match ParseCells(cells[..|cells| - 1], parse)
      case Err(e) => Err(e)
      case Ok(vs) =>
        var c := cells[|cells| - 1];
        match parse(c)
        case None => Err(BadNumber(c))
        case Some(v) => Ok(vs + [v])
  }

  /** The rows parsed in order; the first rejected cell of the first bad row is the error. */
  function ParseRows(rows: seq<seq<string>>, parse: string -> Option<real>): Result<seq<seq<real>>, LoadError>
  {
    if |rows| == 0 then Ok([])
    else
      match ParseRows(rows[..|rows| - 1], parse)
      case Err(e) => Err(e)
      case Ok(vss) =>
        match ParseCells(rows[|rows| - 1], parse)
        case Err(e) => Err(e)
        case Ok(vs) => Ok(vss + [vs])
  }

  /** The widest row's cell count. */
  function Width(rows: seq<seq<real>>): nat
  {
    if |rows| == 0 then 0
    else
      var w := Width(rows[..|rows| - 1]);
      if |rows[|rows| - 1]| > w then |rows[|rows| - 1]| else w
  }

  /** The index of the first row with a cell in column `c`, or the row count if none has. */
  function FirstWith(rows: seq<seq<real>>, c: nat): nat
  {
    if |rows| == 0 then 0
    else
      var f := FirstWith(rows[..|rows| - 1], c);
      if f < |rows| - 1 then f else if c < |rows[|rows| - 1]| then |rows| - 1 else |rows|
  }

  /** Column `c` of the rows that have one, in row order. */
  function Picks(rows: seq<seq<real>>, c: nat): seq<real>
  {
    if |rows| == 0 then []
    else Picks(rows[..|rows| - 1], c) + (if c < |rows[|rows| - 1]| then [rows[|rows| - 1][c]] else [])
  }

  function Zeros(n: nat): (z: seq<real>)
    ensures |z| == n && forall j :: 0 <= j < n ==> z[j] == 0.0
  {
    if n == 0 then [] else Zeros(n - 1) + [0.0]
  }

  /** The swapped matrix of a list of rows: as many columns as the widest row has cells;
      column `c` starts with one zero per row before the first row reaching it, then
      holds cell `c` of every row that has one. */
  function Columns(rows: seq<seq<real>>): seq<seq<real>>
  {
    seq(Width(rows), c requires 0 <= c < Width(rows) => Zeros(FirstWith(rows, c)) + Picks(rows, c))
  }

  /** The header names: the split first line, or the defaults. */
  function Headers(lines: seq<string>, hasHeaders: bool): seq<string>
    requires |lines| > 0
  {
    if hasHeaders then Split(lines[0], ',') else DefaultHeaders
  }

  /** The lines after the header line, if any. */
  function DataLines(lines: seq<string>, hasHeaders: bool): seq<string>
    requires |lines| > 0
  {
    if hasHeaders then lines[1..] else lines
  }

  /** What loading a file with these lines yields. */
  function Load(lines: seq<string>, hasHeaders: bool, parse: string -> Option<real>): Result<Loaded, LoadError>
  {
    if |lines| == 0 then Err(EmptyFile)
    else
      match ParseRows(CellRows(DataLines(lines, hasHeaders)), parse)
      case Err(e) => Err(e)
      case Ok(rows) => Ok(Loaded(Columns(rows), Headers(lines, hasHeaders)))
  }

  /** Column `c` before a row is added: the existing column, or all zeros when the
      column is new. */
  function PaddedColumn(rows: seq<seq<real>>, c: nat): seq<real>
  {
    if c < Width(rows) then Columns(rows)[c] else Zeros(|rows|)
  }

  /** No row before `FirstWith` reaches column `c`; `FirstWith` is short of the row
      count exactly when the column exists; the column holds one entry per row. */
  lemma {:induction false} FirstWithProps(rows: seq<seq<real>>, c: nat)
    ensures FirstWith(rows, c) <= |rows|
    ensures FirstWith(rows, c) < |rows| <==> c < Width(rows)
    ensures FirstWith(rows, c) == |rows| <==> |Picks(rows, c)| == 0
  {
    if |rows| > 0 {
      FirstWithProps(rows[..|rows| - 1], c);
    }
  }

  /** The number of columns is the largest cell count of any row. */
  lemma {:induction false} WidthIsLargestRow(rows: seq<seq<real>>)
    ensures forall k :: 0 <= k < |rows| ==> |rows[k]| <= Width(rows)
    ensures |rows| > 0 ==> exists k :: 0 <= k < |rows| && |rows[k]| == Width(rows)
  {
    if |rows| > 0 {
      var init := rows[..|rows| - 1];
      WidthIsLargestRow(init);
      assert forall k :: 0 <= k < |init| ==> rows[k] == init[k];
      if |init| > 0 && Width(init) >= |rows[|rows| - 1]| {
        var k :| 0 <= k < |init| && |init[k]| == Width(init);
        assert |rows[k]| == Width(rows);
      }
    }
  }

  /** Column `c` is first reached at row `FirstWith(rows, c)`: every earlier row is too
      short for it, so the column starts with one zero per earlier row. */
  lemma {:induction false} FirstWithIsFirst(rows: seq<seq<real>>, c: nat)
    ensures forall k :: 0 <= k < FirstWith(rows, c) && k < |rows| ==> |rows[k]| <= c
    ensures FirstWith(rows, c) < |rows| ==> |rows[FirstWith(rows, c)]| > c
  {
    if |rows| > 0 {
      var init := rows[..|rows| - 1];
      FirstWithIsFirst(init, c);
      FirstWithProps(init, c);
      assert forall k :: 0 <= k < |init| ==> rows[k] == init[k];
    }
  }

  /** Adding a row extends every column it reaches by its cell, opens the new columns
      padded with one zero per earlier row, and leaves the other columns alone. */
  lemma ColumnsStep(rows: seq<seq<real>>, row: seq<real>)
    ensures Width(rows + [row]) == if |row| > Width(rows) then |row| else Width(rows)
    ensures forall c :: 0 <= c < Width(rows + [row]) ==>
      Columns(rows + [row])[c] == PaddedColumn(rows, c) + (if c < |row| then [row[c]] else [])
  {
    var next := rows + [row];
    assert next[..|next| - 1] == rows;
    forall c | 0 <= c < Width(next)
      ensures Columns(next)[c] == PaddedColumn(rows, c) + (if c < |row| then [row[c]] else [])
    {
      FirstWithProps(rows, c);
      if c >= Width(rows) {
        assert Picks(rows, c) == [];
      }
    }
  }

  /** Once every row has been parsed: reading a file whose rows all have `w` cells gives
      exactly its transpose, `w` columns of one entry per row. */
  lemma {:induction false} ColumnsOfRectangle(rows: seq<seq<real>>, w: nat)
    requires |rows| > 0 && forall k :: 0 <= k < |rows| ==> |rows[k]| == w
    ensures |Columns(rows)| == w
    ensures forall c :: 0 <= c < w ==> |Columns(rows)[c]| == |rows|
    ensures forall c, k :: 0 <= c < w && 0 <= k < |rows| ==> Columns(rows)[c][k] == rows[k][c]
  {
    var init := rows[..|rows| - 1];
    var row := rows[|rows| - 1];
    assert rows == init + [row];
    ColumnsStep(init, row);
    if |init| == 0 {
      assert Width(init) == 0;
    } else {
      ColumnsOfRectangle(init, w);
    }
  }

  /** An error in some prefix of the lines is the error of the whole file. */
  lemma {:induction false} CellRowsAppend(a: seq<string>, b: seq<string>)
    ensures CellRows(a + b) == CellRows(a) + CellRows(b)
    decreases |b|
  {
    if |b| > 0 {
      assert (a + b)[..|a + b| - 1] == a + b[..|b| - 1];
      CellRowsAppend(a, b[..|b| - 1]);
    } else {
      assert a + b == a;
    }
  }

  lemma {:induction false} ParseRowsErrAppend(x: seq<seq<string>>, y: seq<seq<string>>, parse: string -> Option<real>)
    requires ParseRows(x, parse).Err?
    ensures ParseRows(x + y, parse) == ParseRows(x, parse)
    decreases |y|
  {
    if |y| == 0 {
      assert x + y == x;
    } else {
      assert (x + y)[..|x + y| - 1] == x + y[..|y| - 1];
      ParseRowsErrAppend(x, y[..|y| - 1], parse);
    }
  }

  lemma {:induction false} ParseCellsErrAppend(x: seq<string>, y: seq<string>, parse: string -> Option<real>)
    requires ParseCells(x, parse).Err?
    ensures ParseCells(x + y, parse) == ParseCells(x, parse)
    decreases |y|
  {
    if |y| == 0 {
      assert x + y == x;
    } else {
      assert (x + y)[..|x + y| - 1] == x + y[..|y| - 1];
      ParseCellsErrAppend(x, y[..|y| - 1], parse);
    }
  }

  /** The skip rules in terms of the raw line: a blank line, a line whose trimmed text
      starts with `#`, and a line without a comma contribute no row; every other line
      does. */
  lemma AcceptedMeans(line: string)
    ensures |Trim(line)| > 0 <==> !IsBlank(line)
    ensures Accepted(line) <==> !IsBlank(line) && Trim(line)[0] != '#' && Count(Trim(line), ',') >= 1
  {
    TrimProps(line);
    SplitCount(Trim(line), ',');
  }

  /** A line that contributes no row leaves the rows read so far as they were. */
  lemma SkipLine(data: seq<string>, n: nat)
    requires n < |data| && !Accepted(data[n])
    ensures CellRows(data[..n + 1]) == CellRows(data[..n])
  {
    assert data[..n + 1][..n] == data[..n];
  }

  /** A contributing line adds its cells as the next row. */
  lemma LineRows(data: seq<string>, n: nat)
    requires n < |data| && Accepted(data[n])
    ensures CellRows(data[..n + 1]) == CellRows(data[..n]) + [Split(Trim(data[n]), ',')]
  {
    assert data[..n + 1][..n] == data[..n];
  }

  lemma RowOk(x: seq<seq<string>>, row: seq<string>, rows: seq<seq<real>>, values: seq<real>,
              parse: string -> Option<real>)
    requires ParseRows(x, parse) == Ok(rows) && ParseCells(row, parse) == Ok(values)
    ensures ParseRows(x + [row], parse) == Ok(rows + [values])
  {
    assert (x + [row])[..|x|] == x;
  }

  lemma RowErr(x: seq<seq<string>>, row: seq<string>, parse: string -> Option<real>)
    requires ParseRows(x, parse).Ok? && ParseCells(row, parse).Err?
    ensures ParseRows(x + [row], parse) == Err(ParseCells(row, parse).error)
  {
    assert (x + [row])[..|x|] == x;
  }

  /** A contributing line adds its cells, and their values, as the next row. */
  lemma TakeLine(data: seq<string>, n: nat, rows: seq<seq<real>>, values: seq<real>,
                 parse: string -> Option<real>)
    requires n < |data| && Accepted(data[n])
    requires ParseRows(CellRows(data[..n]), parse) == Ok(rows)
    requires ParseCells(Split(Trim(data[n]), ','), parse) == Ok(values)
    ensures ParseRows(CellRows(data[..n + 1]), parse) == Ok(rows + [values])
  {
    LineRows(data, n);
    RowOk(CellRows(data[..n]), Split(Trim(data[n]), ','), rows, values, parse);
  }

  /** Once the rows of a prefix of the lines fail to parse, the rows of all of them fail
      the same way. */
  lemma PrefixErr(data: seq<string>, k: nat, parse: string -> Option<real>)
    requires k <= |data| && ParseRows(CellRows(data[..k]), parse).Err?
    ensures ParseRows(CellRows(data), parse) == ParseRows(CellRows(data[..k]), parse)
  {
    var a, b := data[..k], data[k..];
    assert CellRows(data) == CellRows(a) + CellRows(b) by {
      CellRowsAppend(a, b);
      assert a + b == data;
    }
    ParseRowsErrAppend(CellRows(a), CellRows(b), parse);
  }

  /** A row with a cell `parse` rejects makes the whole load fail with that row's error,
      whatever follows. */
  lemma BadRow(data: seq<string>, n: nat, parse: string -> Option<real>)
    requires n < |data| && Accepted(data[n])
    requires ParseRows(CellRows(data[..n]), parse).Ok?
    requires ParseCells(Split(Trim(data[n]), ','), parse).Err?
    ensures ParseRows(CellRows(data), parse) == Err(ParseCells(Split(Trim(data[n]), ','), parse).error)
  {
    LineRows(data, n);
    RowErr(CellRows(data[..n]), Split(Trim(data[n]), ','), parse);
    PrefixErr(data, n + 1, parse);
  }

  /** The columns after the padding and the cell loop are those of the rows with the new row. */
  lemma RowAppended(rows: seq<seq<real>>, values: seq<real>, padded: seq<seq<real>>, matrix: seq<seq<real>>)
    requires |padded| == (if |values| > Width(rows) then |values| else Width(rows))
    requires forall c :: 0 <= c < |padded| ==> padded[c] == PaddedColumn(rows, c)
    requires |matrix| == |padded|
    requires forall c :: 0 <= c < |matrix| ==> matrix[c] == padded[c] + (if c < |values| then [values[c]] else [])
    ensures matrix == Columns(rows + [values])
  {
    ColumnsStep(rows, values);
  }

  /** The padding loop: while there are fewer columns than `width`, adds a column of
      `xcount` zeros. */
  method OpenColumns(matrix: seq<seq<real>>, width: nat, xcount: nat) returns (padded: seq<seq<real>>)
    ensures |padded| == if width > |matrix| then width else |matrix|
    ensures forall c :: 0 <= c < |padded| ==> padded[c] == if c < |matrix| then matrix[c] else Zeros(xcount)
  {
    padded := matrix;
    while |padded| < width
      invariant |matrix| <= |padded| && (|padded| == |matrix| || |padded| <= width)
      invariant forall c :: 0 <= c < |padded| ==> padded[c] == if c < |matrix| then matrix[c] else Zeros(xcount)
    {
      var vector: seq<real> := [];
      while |vector| < xcount
        invariant vector == Zeros(|vector|) && |vector| <= xcount
      {
        vector := vector + [0.0];
      }
      padded := padded + [vector];
    }
  }

  /** The cell loop: parses cell i and appends it to column i, in order; stops at the
      first cell `parse` rejects. */
  method AppendCells(matrix: seq<seq<real>>, cells: seq<string>, parse: string -> Option<real>)
    returns (r: Result<seq<seq<real>>, LoadError>)
    requires |cells| <= |matrix|
    ensures ParseCells(cells, parse).Err? ==> r == Err(ParseCells(cells, parse).error)
    ensures ParseCells(cells, parse).Ok? ==>
      r.Ok? && |r.value| == |matrix| &&
      forall c :: 0 <= c < |matrix| ==>
        r.value[c] == matrix[c] + (if c < |cells| then [ParseCells(cells, parse).value[c]] else [])
  {
    var m := matrix;
    ghost var values: seq<real> := [];
    for i := 0 to |cells|
      invariant |m| == |matrix|
      invariant ParseCells(cells[..i], parse) == Ok(values) && |values| == i
      invariant forall c :: 0 <= c < |m| ==> m[c] == matrix[c] + (if c < i then [values[c]] else [])
    {
      assert cells[..i + 1][..i] == cells[..i];
      var v := parse(cells[i]);
      if v.None? {
        ParseCellsErrAppend(cells[..i + 1], cells[i + 1..], parse);
        assert cells[..i + 1] + cells[i + 1..] == cells;
        return Err(BadNumber(cells[i]));
      }
      values := values + [v.value];
      m := m[i := m[i] + [v.value]];
    }
    assert cells[..|cells|] == cells;
    r := Ok(m);
  }

  /** One pass of the reading loop, over the trimmed-or-not `line`: a blank line, a `#`
      comment or a line of at most one cell leaves the matrix alone; any other line first
      opens the columns it reaches that do not yet exist, each padded with one zero per
      earlier row (`xcount`), then appends its i-th cell to column i. */
  method ReadDataLine(matrix: seq<seq<real>>, xcount: nat, line: string, parse: string -> Option<real>,
                      ghost rows: seq<seq<real>>)
    returns (used: bool, r: Result<seq<seq<real>>, LoadError>)
    requires matrix == Columns(rows) && xcount == |rows|
    ensures used == Accepted(line)
    ensures !used ==> r == Ok(matrix)
    ensures used ==>
      match ParseCells(Split(Trim(line), ','), parse)
      case Err(e) => r == Err(e)
      case Ok(values) => r == Ok(Columns(rows + [values]))
  {
    TrimProps(line);
    if IsBlank(line) {
      return false, Ok(matrix);
    }
    var trimmed := Trim(line);
    if trimmed[0] == '#' {
      return false, Ok(matrix);
    }
    var cells := Split(trimmed, ',');
    if |cells| <= 1 {
      return false, Ok(matrix);
    }

    var padded := OpenColumns(matrix, |cells|, xcount);
    r := AppendCells(padded, cells, parse);
    used := true;
    if r.Ok? {
      RowAppended(rows, ParseCells(cells, parse).value, padded, r.value);
    }
  }

  /** Reads the capture line by line (the lines of the ASCII file; `float.Parse` is the
      parameter `parse`). The first line is the header line when `hasHeaders`; every
      later line goes through `ReadDataLine`, and the first rejected cell ends the load. */
  method LoadMatrix(lines: seq<string>, hasHeaders: bool, parse: string -> Option<real>)
    returns (r: Result<Loaded, LoadError>)
    ensures r == Load(lines, hasHeaders, parse)
  {
    var matrix: seq<seq<real>> := [];
    if |lines| == 0 {
      return Err(EmptyFile);
    }
    var headers: seq<string>;
    var data := lines;
    if hasHeaders {
      headers := Split(lines[0], ',');
      data := lines[1..];
    } else {
      headers := DefaultHeaders;
    }

    var xcount := 0;
    var next := 0;
    ghost var rows: seq<seq<real>> := [];
    while next < |data|
      invariant next <= |data|
      invariant ParseRows(CellRows(data[..next]), parse) == Ok(rows)
      invariant xcount == |rows|
      invariant matrix == Columns(rows)
    {
      var used, row := ReadDataLine(matrix, xcount, data[next], parse, rows);
      if row.Err? {
        BadRow(data, next, parse);
        return Err(row.error);
      }
      if used {
        ghost var values := ParseCells(Split(Trim(data[next]), ','), parse).value;
        TakeLine(data, next, rows, values, parse);
        rows := rows + [values];
        xcount := xcount + 1;
      } else {
        SkipLine(data, next);
      }
      matrix := row.value;
      next := next + 1;
    }
    assert data[..next] == data;
    r := Ok(Loaded(matrix, headers));
  }
}
