/**
 * The lut8Type ('mft1') and lut16Type ('mft2') decoders of ICC.1:2010 sections 10.10 and 10.11
 * (src/ICCProfile.c:372-510): a shared 48-byte head holding the channel counts, the grid
 * resolution and a 3x3 s15.16 matrix, followed by input tables, a colour lookup grid and
 * output tables whose positions the decoder computes.
 */
module Mft {
  import opened Wrappers
  import opened Bytes
  import opened Layout
  import opened Skcms
  import opened TagTable

  type Ptrs4 = s: seq<nat> | |s| == 4 witness [0, 0, 0, 0]
  type Ptrs3 = s: seq<nat> | |s| == 3 witness [0, 0, 0]

  /**
   * The fields of skcms_MultiFunctionTable that the decoder writes. The table pointers are
   * offsets into the profile buffer; the two pointer arrays are part of the record's value.
   */
  datatype MftState = MftState(
    matrix: Matrix3x3, inputChannels: u32, outputChannels: u32, gridPoints: u32,
    inputTableSize: u32, outputTableSize: u32, tableByteWidth: u32,
    inputTables: Ptrs4, grid: nat, outputTables: Ptrs3)

  /** skcms_MultiFunctionTable: the caller's record, filled in place by the decoder. */
  class MultiFunctionTable {
    var matrix: Matrix3x3
    var inputChannels: u32
    var outputChannels: u32
    var gridPoints: u32
    var inputTableSize: u32
    var outputTableSize: u32
    var tableByteWidth: u32
    var inputTables: Ptrs4
    var grid: nat
    var outputTables: Ptrs3

    function State(): MftState
      reads this
    {
      MftState(matrix, inputChannels, outputChannels, gridPoints, inputTableSize, outputTableSize,
               tableByteWidth, inputTables, grid, outputTables)
    }
  }

  // ---------------------------------------------------------------- the common head

  /** Where matrix entry (r, c) of the head at off is stored: row-major s15.16 words from byte 12. */
  function MatrixEntryOffset(off: nat, r: nat, c: nat): nat
  {
    off + 12 + 4 * (3 * r + c)
  }

  /** The 3x3 matrix of the head at off; every entry is its stored s15.16 word over 65536. */
  function MftMatrix(buf: seq<byte>, off: nat): (m: Matrix3x3)
    requires off + Mft1HeaderSize <= |buf|
    ensures forall r, c | 0 <= r < 3 && 0 <= c < 3 ::
      m[r][c] * 65536.0 == ReadBigI32(buf, MatrixEntryOffset(off, r, c)) as real
  {
    seq(3, r requires 0 <= r < 3 =>
      seq(3, c requires 0 <= c < 3 => ReadBigFixed(buf, MatrixEntryOffset(off, r, c))))
  }

  /** The channel and grid checks of read_mft_common: RGB/XYZ/Lab out, one to four channels in, a real grid. */
  predicate CommonValid(inputChannels: nat, outputChannels: nat, gridPoints: nat)
  {
    outputChannels == 3 && 1 <= inputChannels <= 4 && 2 <= gridPoints
  }

  /** The record after read_mft_common has copied the head at off: matrix, channel counts, grid points. */
  function CommonOf(buf: seq<byte>, off: nat, prior: MftState): MftState
    requires off + Mft1HeaderSize <= |buf|
  {
    prior.(matrix := MftMatrix(buf, off), inputChannels := buf[off + 8],
           outputChannels := buf[off + 9], gridPoints := buf[off + 10])
  }

  /** The matrix loops of read_mft_common: row by row, column by column, through a word pointer advancing by 4. */
  method ReadMftMatrix(buf: seq<byte>, off: nat, mft: MultiFunctionTable)
    requires off + Mft1HeaderSize <= |buf|
    modifies mft`matrix
    ensures mft.matrix == MftMatrix(buf, off)
  {
    ghost var m := MftMatrix(buf, off);
    var mtx := off + 12;
    for r := 0 to 3
      invariant mtx == MatrixEntryOffset(off, r, 0)
      invariant forall i | 0 <= i < r :: mft.matrix[i] == m[i]
    {
      for c := 0 to 3
        invariant mtx == MatrixEntryOffset(off, r, c)
        invariant forall i | 0 <= i < r :: mft.matrix[i] == m[i]
        invariant forall j | 0 <= j < c :: mft.matrix[r][j] == m[r][j]
      {
        mft.matrix := SetEntry(mft.matrix, r, c, ReadBigFixed(buf, mtx));
        mtx := mtx + 4;
      }
      assert mft.matrix[r] == m[r];
    }
  }

  /** read_mft_common: the matrix, then the three counts; the verdict comes from checks made after every write. */
  method ReadMftCommon(buf: seq<byte>, off: nat, mft: MultiFunctionTable) returns (ok: bool)
    requires off + Mft1HeaderSize <= |buf|
    modifies mft
    ensures mft.State() == CommonOf(buf, off, old(mft.State()))
    ensures ok == CommonValid(mft.inputChannels as nat, mft.outputChannels as nat, mft.gridPoints as nat)
  {
    ReadMftMatrix(buf, off, mft);
    mft.inputChannels := buf[off + 8];
    mft.gridPoints := buf[off + 10];
    mft.outputChannels := buf[off + 9];
    ok := CommonValid(mft.inputChannels as nat, mft.outputChannels as nat, mft.gridPoints as nat);
  }

  // ---------------------------------------------------------------- the table layout

  function Pow(b: nat, e: nat): nat
  {
    if e == 0 then 1 else b * Pow(b, e - 1)
  }

  /** Bytes of one input table and of one output table. */
  function PerInputTable(s: MftState): nat
  {
    s.inputTableSize * s.tableByteWidth
  }

  function PerOutputTable(s: MftState): nat
  {
    s.outputTableSize * s.tableByteWidth
  }

  /** Bytes of all input tables: one per input channel. */
  function InputBytes(s: MftState): nat
  {
    s.inputChannels * PerInputTable(s)
  }

  /** Bytes of the grid: grid_points^in_ch points of out_ch entries of width w. */
  function GridBytes(s: MftState): nat
  {
    s.outputChannels * s.tableByteWidth * Pow(s.gridPoints, s.inputChannels)
  }

  /** Bytes of all output tables: one per output channel. */
  function OutputBytes(s: MftState): nat
  {
    s.outputChannels * PerOutputTable(s)
  }

  /** Where input table i starts: right after the i tables before it. */
  function InputTableAt(s: MftState, base: nat, i: nat): nat
  {
    base + i * PerInputTable(s)
  }

  /** Where output table i starts: after all input tables, the grid and the i output tables before it. */
  function OutputTableAt(s: MftState, base: nat, i: nat): nat
  {
    base + InputBytes(s) + GridBytes(s) + i * PerOutputTable(s)
  }

  /**
   * init_mft_tables, as a function of the record: when input tables, grid and output tables
   * fit in maxLen bytes from base, the input tables (one per input channel) start at base and
   * follow each other, the grid follows them, and the three output tables follow the grid;
   * input table pointers past in_ch keep their values. Otherwise nothing changes.
   */
  function InitTablesOf(s: MftState, base: nat, maxLen: nat): (r: (bool, MftState))
    ensures r.0 <==> InputBytes(s) + GridBytes(s) + OutputBytes(s) <= maxLen
    ensures !r.0 ==> r.1 == s
    ensures r.0 ==> r.1 == s.(inputTables := r.1.inputTables, grid := r.1.grid, outputTables := r.1.outputTables)
    ensures r.0 ==> forall i | 0 <= i < 4 ::
      r.1.inputTables[i] == if i < s.inputChannels then InputTableAt(s, base, i) else s.inputTables[i]
    ensures r.0 ==> r.1.grid == base + InputBytes(s)
    ensures r.0 ==> forall i | 0 <= i < 3 :: r.1.outputTables[i] == OutputTableAt(s, base, i)
  {
    if maxLen < InputBytes(s) + GridBytes(s) + OutputBytes(s) then (false, s)
    else
      var ins: Ptrs4 := seq(4, i requires 0 <= i < 4 => if i < s.inputChannels then InputTableAt(s, base, i) else s.inputTables[i]);
      var outs: Ptrs3 := seq(3, i requires 0 <= i < 3 => OutputTableAt(s, base, i));
      (true, s.(inputTables := ins, grid := base + InputBytes(s), outputTables := outs))
  }

  /** k <= n tables of len bytes each end no later than n of them. */
  lemma MulMono(k: nat, n: nat, len: nat)
    requires k <= n
    ensures k * len <= n * len
  {
  }

  /**
   * Every table lies inside [base, base + maxLen): the input tables are consecutive and end
   * where the grid starts, the grid ends where output table 0 starts, and the output tables
   * are consecutive and end by base + maxLen.
   */
  lemma InitTablesLayout(s: MftState, base: nat, maxLen: nat)
    requires s.inputChannels <= 4 && s.outputChannels == 3
    requires InitTablesOf(s, base, maxLen).0
    ensures var r := InitTablesOf(s, base, maxLen).1;
      var perIn, perOut := PerInputTable(s), PerOutputTable(s);
      && (forall i | 0 <= i < s.inputChannels :: base <= r.inputTables[i] && r.inputTables[i] + perIn <= r.grid)
      && (forall i | 0 <= i && i + 1 < s.inputChannels :: r.inputTables[i] + perIn == r.inputTables[i + 1])
      && r.grid + GridBytes(s) == r.outputTables[0]
      && r.outputTables[0] + perOut == r.outputTables[1] && r.outputTables[1] + perOut == r.outputTables[2]
      && r.outputTables[2] + perOut <= base + maxLen
  {
    var r := InitTablesOf(s, base, maxLen).1;
    var perIn, perOut := PerInputTable(s), PerOutputTable(s);
    forall i | 0 <= i < s.inputChannels
      ensures base <= r.inputTables[i] && r.inputTables[i] + perIn <= r.grid
    {
      MulMono(i + 1, s.inputChannels, perIn);
    }
    forall i | 0 <= i && i + 1 < s.inputChannels
      ensures r.inputTables[i] + perIn == r.inputTables[i + 1]
    {
      assert (i + 1) * perIn == i * perIn + perIn;
    }
  }

  /** Powers are monotone in the base. */
  lemma {:induction false} PowMono(b: nat, c: nat, e: nat)
    requires b <= c
    ensures Pow(b, e) <= Pow(c, e)
  {
    if e > 0 {
      var pb, pc := Pow(b, e - 1), Pow(c, e - 1);
      PowMono(b, c, e - 1);
      MulMono(b, c, pb);
      MulMono(pb, pc, c);
      assert b * pb <= c * pb <= c * pc;
    }
  }

  /**
   * For the shapes the decoders admit (byte-sized counts, widths 1 or 2, table sizes at most
   * 4096), every length init_mft_tables computes, and their sum, is below 2^64: its uint64
   * arithmetic never wraps, so the unbounded arithmetic here is the C arithmetic.
   */
  lemma LayoutFitsU64(s: MftState)
    requires s.inputChannels <= 4 && s.outputChannels == 3 && s.gridPoints <= 255
    requires s.tableByteWidth <= 2 && s.inputTableSize <= 4096 && s.outputTableSize <= 4096
    ensures InputBytes(s) + GridBytes(s) + OutputBytes(s) < 0x1_0000_0000_0000_0000
  {
    var points := Pow(s.gridPoints, s.inputChannels);
    PowMono(s.gridPoints, 255, s.inputChannels);
    assert points <= 255 * 255 * 255 * 255 by {
      assert Pow(255, 1) == 255 && Pow(255, 2) == 255 * 255 && Pow(255, 3) == 255 * 255 * 255;
      assert Pow(255, 4) == 255 * 255 * 255 * 255;
    }
    MulMono(s.inputTableSize, 4096, s.tableByteWidth);
    MulMono(s.outputTableSize, 4096, s.tableByteWidth);
    MulMono(s.inputChannels, 4, PerInputTable(s));
    MulMono(s.outputChannels * s.tableByteWidth, 6, points);
    MulMono(points, 255 * 255 * 255 * 255, 6);
    assert InputBytes(s) <= 4 * PerInputTable(s) && OutputBytes(s) == 3 * PerOutputTable(s);
    assert GridBytes(s) <= 6 * 255 * 255 * 255 * 255;
  }

  /** The grid_size loop of init_mft_tables: entries times width, multiplied by the grid points once per input axis. */
  method GridSize(outputChannels: nat, width: nat, gridPoints: nat, inputChannels: nat) returns (size: nat)
    ensures size == outputChannels * width * Pow(gridPoints, inputChannels)
  {
    size := outputChannels * width;
    for axis := 0 to inputChannels
      invariant size == outputChannels * width * Pow(gridPoints, axis)
    {
      ghost var before := Pow(gridPoints, axis);
      assert Pow(gridPoints, axis + 1) == gridPoints * before;
      assert size * gridPoints == outputChannels * width * (gridPoints * before);
      size := size * gridPoints;
    }
  }

  /**
   * init_mft_tables: the byte lengths and grid_size, then, when everything fits in maxLen bytes,
   * the pointer arrays filled in loops. Callers have checked in_ch <= 4.
   */
  method InitMftTables(base: nat, maxLen: nat, mft: MultiFunctionTable) returns (ok: bool)
    requires mft.inputChannels <= 4
    modifies mft
    ensures (ok, mft.State()) == InitTablesOf(old(mft.State()), base, maxLen)
  {
    ghost var s := mft.State();
    var inCh, outCh, w := mft.inputChannels as nat, mft.outputChannels as nat, mft.tableByteWidth as nat;
    var perIn := mft.inputTableSize as nat * w;
    var perOut := mft.outputTableSize as nat * w;
    var allIn := inCh * perIn;
    var allOut := outCh * perOut;
    var gridSize := GridSize(outCh, w, mft.gridPoints as nat, inCh);
    assert perIn == PerInputTable(s) && perOut == PerOutputTable(s);
    assert allIn == InputBytes(s) && allOut == OutputBytes(s) && gridSize == GridBytes(s);
    if maxLen < allIn + gridSize + allOut {
      return false;
    }
    ghost var r := InitTablesOf(s, base, maxLen).1;
    for i := 0 to inCh
      invariant mft.State() == s.(inputTables := mft.inputTables)
      invariant forall k | 0 <= k < i :: mft.inputTables[k] == InputTableAt(s, base, k)
      invariant forall k | i <= k < 4 :: mft.inputTables[k] == s.inputTables[k]
    {
      mft.inputTables := mft.inputTables[i := base + i * perIn];
    }
    assert mft.inputTables == r.inputTables;
    mft.grid := base + allIn;
    for i := 0 to 3
      invariant mft.State() == s.(inputTables := r.inputTables, grid := base + allIn, outputTables := mft.outputTables)
      invariant forall k | 0 <= k < i :: mft.outputTables[k] == OutputTableAt(s, base, k)
    {
      mft.outputTables := mft.outputTables[i := base + allIn + gridSize + i * perOut];
    }
    assert mft.outputTables == r.outputTables;
    assert mft.State() == r;
    ok := true;
  }

  // ---------------------------------------------------------------- mft1 and mft2

  /**
   * read_tag_mft1: the tag must hold the 48-byte head; then the head checks, then the fixed
   * lut8 shape (256-entry input and output tables of one byte each), then the layout of the
   * tables in the tag's remaining bytes.
   */
  function ReadMft1Of(buf: seq<byte>, tag: Tag, prior: MftState): (r: (bool, MftState))
    requires tag.buf + tag.size <= |buf|
    ensures tag.size < Mft1HeaderSize ==> r == (false, prior)
    ensures r.0 <==>
      && Mft1HeaderSize <= tag.size
      && CommonValid(buf[tag.buf + 8], buf[tag.buf + 9], buf[tag.buf + 10])
      && InitTablesOf(CommonOf(buf, tag.buf, prior).(inputTableSize := 256, outputTableSize := 256, tableByteWidth := 1),
                      tag.buf + Mft1HeaderSize, tag.size - Mft1HeaderSize).0
    ensures r.0 ==>
      && r.1.matrix == MftMatrix(buf, tag.buf)
      && r.1.inputTableSize == 256 && r.1.outputTableSize == 256 && r.1.tableByteWidth == 1
    // Once the head is read it stays in the record, whether or not a later check fails.
    ensures Mft1HeaderSize <= tag.size ==>
      && r.1.matrix == MftMatrix(buf, tag.buf)
      && r.1.inputChannels == buf[tag.buf + 8] && r.1.outputChannels == buf[tag.buf + 9]
      && r.1.gridPoints == buf[tag.buf + 10]
    // On failure the table pointers are the caller's; the lut8 sizes are there once the head passed.
    ensures !r.0 ==> r.1.inputTables == prior.inputTables && r.1.grid == prior.grid && r.1.outputTables == prior.outputTables
    ensures !r.0 && Mft1HeaderSize <= tag.size ==>
      if CommonValid(buf[tag.buf + 8], buf[tag.buf + 9], buf[tag.buf + 10])
      then (r.1.inputTableSize == 256 && r.1.outputTableSize == 256 && r.1.tableByteWidth == 1)
      else (r.1.inputTableSize == prior.inputTableSize && r.1.outputTableSize == prior.outputTableSize
        && r.1.tableByteWidth == prior.tableByteWidth)
  {
    if tag.size < Mft1HeaderSize then (false, prior)
    else
      var common := CommonOf(buf, tag.buf, prior);
      if !CommonValid(common.inputChannels as nat, common.outputChannels as nat, common.gridPoints as nat) then (false, common)
      else
        InitTablesOf(common.(inputTableSize := 256, outputTableSize := 256, tableByteWidth := 1),
                     tag.buf + Mft1HeaderSize, tag.size - Mft1HeaderSize)
  }

  /** The lut16 table sizes the ICC specification allows: 2 to 4096 entries. */
  predicate Lut16SizeValid(n: nat)
  {
    2 <= n <= 4096
  }

  /**
   * read_tag_mft2: the tag must hold the 52-byte head; then the head checks, then the table
   * sizes from bytes 48 and 50 with two-byte entries (written before they are checked), then
   * the layout of the tables in the tag's remaining bytes.
   */
  function ReadMft2Of(buf: seq<byte>, tag: Tag, prior: MftState): (r: (bool, MftState))
    requires tag.buf + tag.size <= |buf|
    ensures tag.size < Mft2HeaderSize ==> r == (false, prior)
    ensures r.0 <==>
      && Mft2HeaderSize <= tag.size
      && CommonValid(buf[tag.buf + 8], buf[tag.buf + 9], buf[tag.buf + 10])
      && Lut16SizeValid(ReadBigU16(buf, tag.buf + 48)) && Lut16SizeValid(ReadBigU16(buf, tag.buf + 50))
      && InitTablesOf(CommonOf(buf, tag.buf, prior).(inputTableSize := ReadBigU16(buf, tag.buf + 48),
                        outputTableSize := ReadBigU16(buf, tag.buf + 50), tableByteWidth := 2),
                      tag.buf + Mft2HeaderSize, tag.size - Mft2HeaderSize).0
    ensures r.0 ==>
      && r.1.matrix == MftMatrix(buf, tag.buf)
      && r.1.inputTableSize == ReadBigU16(buf, tag.buf + 48) && r.1.outputTableSize == ReadBigU16(buf, tag.buf + 50)
      && r.1.tableByteWidth == 2
    // Once the head is read it stays in the record, whether or not a later check fails.
    ensures Mft2HeaderSize <= tag.size ==>
      && r.1.matrix == MftMatrix(buf, tag.buf)
      && r.1.inputChannels == buf[tag.buf + 8] && r.1.outputChannels == buf[tag.buf + 9]
      && r.1.gridPoints == buf[tag.buf + 10]
    // On failure the table pointers are the caller's; the lut16 sizes are written, even out of
    // range, once the head passed.
    ensures !r.0 ==> r.1.inputTables == prior.inputTables && r.1.grid == prior.grid && r.1.outputTables == prior.outputTables
    ensures !r.0 && Mft2HeaderSize <= tag.size ==>
      if CommonValid(buf[tag.buf + 8], buf[tag.buf + 9], buf[tag.buf + 10])
      then (r.1.inputTableSize == ReadBigU16(buf, tag.buf + 48) && r.1.outputTableSize == ReadBigU16(buf, tag.buf + 50)
        && r.1.tableByteWidth == 2)
      else (r.1.inputTableSize == prior.inputTableSize && r.1.outputTableSize == prior.outputTableSize
        && r.1.tableByteWidth == prior.tableByteWidth)
  {
    if tag.size < Mft2HeaderSize then (false, prior)
    else
      var common := CommonOf(buf, tag.buf, prior);
      if !CommonValid(common.inputChannels as nat, common.outputChannels as nat, common.gridPoints as nat) then (false, common)
      else
        var sized := common.(inputTableSize := ReadBigU16(buf, tag.buf + 48),
                             outputTableSize := ReadBigU16(buf, tag.buf + 50), tableByteWidth := 2);
        if !Lut16SizeValid(sized.inputTableSize as nat) || !Lut16SizeValid(sized.outputTableSize as nat) then (false, sized)
        else InitTablesOf(sized, tag.buf + Mft2HeaderSize, tag.size - Mft2HeaderSize)
  }

  /**
   * Whenever read_tag_mft1 or read_tag_mft2 reaches init_mft_tables, the record it passes has a
   * shape whose uint64 length arithmetic is exact.
   */
  lemma DecoderArithmeticExact(buf: seq<byte>, tag: Tag, prior: MftState)
    requires tag.buf + tag.size <= |buf| && Mft1HeaderSize <= tag.size
    requires CommonValid(buf[tag.buf + 8], buf[tag.buf + 9], buf[tag.buf + 10])
    ensures var s := CommonOf(buf, tag.buf, prior).(inputTableSize := 256, outputTableSize := 256, tableByteWidth := 1);
      InputBytes(s) + GridBytes(s) + OutputBytes(s) < 0x1_0000_0000_0000_0000
    ensures Mft2HeaderSize <= tag.size && Lut16SizeValid(ReadBigU16(buf, tag.buf + 48)) && Lut16SizeValid(ReadBigU16(buf, tag.buf + 50)) ==>
      var s := CommonOf(buf, tag.buf, prior).(inputTableSize := ReadBigU16(buf, tag.buf + 48),
                 outputTableSize := ReadBigU16(buf, tag.buf + 50), tableByteWidth := 2);
      InputBytes(s) + GridBytes(s) + OutputBytes(s) < 0x1_0000_0000_0000_0000
  {
    var common := CommonOf(buf, tag.buf, prior);
    LayoutFitsU64(common.(inputTableSize := 256, outputTableSize := 256, tableByteWidth := 1));
    if Mft2HeaderSize <= tag.size && Lut16SizeValid(ReadBigU16(buf, tag.buf + 48)) && Lut16SizeValid(ReadBigU16(buf, tag.buf + 50)) {
      LayoutFitsU64(common.(inputTableSize := ReadBigU16(buf, tag.buf + 48),
                      outputTableSize := ReadBigU16(buf, tag.buf + 50), tableByteWidth := 2));
    }
  }

  /** read_tag_mft1 on the caller's record. */
  method ReadTagMft1(buf: seq<byte>, tag: Tag, mft: MultiFunctionTable) returns (ok: bool)
    requires tag.buf + tag.size <= |buf|
    modifies mft
    ensures (ok, mft.State()) == ReadMft1Of(buf, tag, old(mft.State()))
  {
    if tag.size < Mft1HeaderSize {
      return false;
    }
    ok := ReadMftCommon(buf, tag.buf, mft);
    if !ok {
      return;
    }
    mft.inputTableSize := 256;
    mft.outputTableSize := 256;
    mft.tableByteWidth := 1;
    ok := InitMftTables(tag.buf + Mft1HeaderSize, tag.size - Mft1HeaderSize, mft);
  }

  /** read_tag_mft2 on the caller's record. */
  method ReadTagMft2(buf: seq<byte>, tag: Tag, mft: MultiFunctionTable) returns (ok: bool)
    requires tag.buf + tag.size <= |buf|
    modifies mft
    ensures (ok, mft.State()) == ReadMft2Of(buf, tag, old(mft.State()))
  {
    if tag.size < Mft2HeaderSize {
      return false;
    }
    ok := ReadMftCommon(buf, tag.buf, mft);
    if !ok {
      return;
    }
    mft.inputTableSize := ReadBigU16(buf, tag.buf + 48);
    mft.outputTableSize := ReadBigU16(buf, tag.buf + 50);
    mft.tableByteWidth := 2;
    if mft.inputTableSize < 2 || mft.inputTableSize > 4096 || mft.outputTableSize < 2 || mft.outputTableSize > 4096 {
      return false;
    }
    ok := InitMftTables(tag.buf + Mft2HeaderSize, tag.size - Mft2HeaderSize, mft);
  }

  // ---------------------------------------------------------------- the A2B0 lookup

  /**
   * skcms_GetMultiFunctionTable: the A2B0 tag decoded as mft1 or mft2; a missing tag or a tag
   * of any other type fails without writing.
   */
  function MultiFunctionTableOf(buf: Option<seq<byte>>, count: nat, prior: MftState): (r: (bool, MftState))
    requires buf.Some? ==> TagsInBounds(buf.value, count)
    ensures ProfileTag(buf, count, SigA2B0).None? ==> r == (false, prior)
    ensures r.0 ==> ProfileTag(buf, count, SigA2B0).Some?
    ensures ProfileTag(buf, count, SigA2B0).Some? ==>
      var t := ProfileTag(buf, count, SigA2B0).value;
      && (t.tagType == SigMft1 ==> r == ReadMft1Of(buf.value, t, prior))
      && (t.tagType == SigMft2 ==> r == ReadMft2Of(buf.value, t, prior))
      && (t.tagType != SigMft1 && t.tagType != SigMft2 ==> r == (false, prior))
  {
    match ProfileTag(buf, count, SigA2B0)
    case None => (false, prior)
    case Some(t) =>
      if t.tagType == SigMft1 then ReadMft1Of(buf.value, t, prior)
      else if t.tagType == SigMft2 then ReadMft2Of(buf.value, t, prior)
      else (false, prior)
  }

  /** skcms_GetMultiFunctionTable on a profile and the caller's record. */
  method GetMultiFunctionTable(p: ICCProfile, mft: MultiFunctionTable) returns (ok: bool)
    requires Readable(p)
    modifies mft
    ensures (ok, mft.State()) == MultiFunctionTableOf(p.buffer, p.header.tagCount, old(mft.State()))
  {
    var a2b := LookupTag(p, SigA2B0);
    if a2b.None? {
      return false;
    }
    var buf := p.buffer.value;
    if a2b.value.tagType == SigMft1 {
      ok := ReadTagMft1(buf, a2b.value, mft);
    } else if a2b.value.tagType == SigMft2 {
      ok := ReadTagMft2(buf, a2b.value, mft);
    } else {
      ok := false;
    }
  }

  /**
   * An accepted A2B0 table is well formed and lies inside its tag: three output channels, one
   * to four input channels, at least two grid points, input tables then grid then output
   * tables back to back from the end of the head, the last ending by the end of the tag.
   */
  lemma MultiFunctionTableInsideTag(buf: Option<seq<byte>>, count: nat, prior: MftState)
    requires buf.Some? ==> TagsInBounds(buf.value, count)
    requires MultiFunctionTableOf(buf, count, prior).0
    ensures var t := ProfileTag(buf, count, SigA2B0).value;
      var s := MultiFunctionTableOf(buf, count, prior).1;
      var perIn, perOut := PerInputTable(s), PerOutputTable(s);
      var head := if t.tagType == SigMft1 then Mft1HeaderSize else Mft2HeaderSize;
      && (t.tagType == SigMft1 || t.tagType == SigMft2)
      && CommonValid(s.inputChannels as nat, s.outputChannels as nat, s.gridPoints as nat)
      && (forall i | 0 <= i < s.inputChannels :: t.buf + head <= s.inputTables[i] && s.inputTables[i] + perIn <= s.grid)
      && s.grid + GridBytes(s) == s.outputTables[0]
      && s.outputTables[0] + perOut == s.outputTables[1] && s.outputTables[1] + perOut == s.outputTables[2]
      && s.outputTables[2] + perOut <= t.buf + t.size
  {
    var t := ProfileTag(buf, count, SigA2B0).value;
    var b := buf.value;
    var common := CommonOf(b, t.buf, prior);
    if t.tagType == SigMft1 {
      InitTablesLayout(common.(inputTableSize := 256, outputTableSize := 256, tableByteWidth := 1),
                       t.buf + Mft1HeaderSize, t.size - Mft1HeaderSize);
    } else {
      InitTablesLayout(common.(inputTableSize := ReadBigU16(b, t.buf + 48),
                         outputTableSize := ReadBigU16(b, t.buf + 50), tableByteWidth := 2),
                       t.buf + Mft2HeaderSize, t.size - Mft2HeaderSize);
    }
  }

  // ---------------------------------------------------------------- encoding

  /** The 48-byte head: type, reserved word, the three counts and a pad byte, nine matrix words. */
  function EncodeMftHead(tagType: u32, inputChannels: byte, outputChannels: byte, gridPoints: byte,
                         words: seq<i32>): (s: seq<byte>)
    requires |words| == 9
    ensures |s| == Mft1HeaderSize
  {
    EncodeU32(tagType) + [0, 0, 0, 0] + [inputChannels, outputChannels, gridPoints, 0] + EncodeI32s(words)
  }

  /** Decoding an encoded head gives back its counts, and its matrix entry (r, c) is word 3r + c over 65536. */
  lemma MftHeadRoundTrip(tagType: u32, inputChannels: byte, outputChannels: byte, gridPoints: byte,
                         words: seq<i32>, rest: seq<byte>)
    requires |words| == 9
    ensures var s := EncodeMftHead(tagType, inputChannels, outputChannels, gridPoints, words) + rest;
      && ReadBigU32(s, 0) == tagType
      && s[8] == inputChannels && s[9] == outputChannels && s[10] == gridPoints
      && forall r, c | 0 <= r < 3 && 0 <= c < 3 :: MftMatrix(s, 0)[r][c] == words[3 * r + c] as real / 65536.0
  {
    var front := EncodeU32(tagType) + [0, 0, 0, 0] + [inputChannels, outputChannels, gridPoints, 0];
    var s := front + EncodeI32s(words) + rest;
    assert s == front + (EncodeI32s(words) + rest);
    ReadInPrefixU32(EncodeU32(tagType), [0, 0, 0, 0] + [inputChannels, outputChannels, gridPoints, 0] + EncodeI32s(words) + rest, 0);
    assert s == EncodeU32(tagType) + ([0, 0, 0, 0] + [inputChannels, outputChannels, gridPoints, 0] + EncodeI32s(words) + rest);
    forall r, c | 0 <= r < 3 && 0 <= c < 3
      ensures MftMatrix(s, 0)[r][c] == words[3 * r + c] as real / 65536.0
    {
      var k := 3 * r + c;
      ReadEncodedI32s(words, k);
      ReadInPrefixU32(EncodeI32s(words), rest, 4 * k);
      ReadAfterPrefixU32(front, EncodeI32s(words) + rest, 4 * k);
    }
  }
}
