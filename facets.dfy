/**
 * The facets derived from tags (src/ICCProfile.c:110-150, 292-370): the XYZ colorant matrix,
 * the single transfer function shared by the three TRCs, and the sample layout handed to the
 * transfer-function fit.
 */
module Facets {
  import opened Wrappers
  import opened Bytes
  import opened Layout
  import opened Skcms
  import opened TagTable
  import opened Curves

  /** One XYZNumber triple. */
  datatype XYZ = XYZ(x: real, y: real, z: real)

  /**
   * read_tag_xyz: a tag of type 'XYZ ' with at least one whole triple (20 bytes) yields the
   * s15.16 values at offsets 8, 12 and 16 of its body; any other tag yields nothing.
   */
  function ReadTagXYZ(buf: seq<byte>, tag: Tag): (r: Option<XYZ>)
    requires tag.buf + tag.size <= |buf|
    ensures r.Some? <==> tag.tagType == SigXYZType && XyzSize <= tag.size
    ensures r.Some? ==>
      && r.value.x * 65536.0 == ReadBigI32(buf, tag.buf + 8) as real
      && r.value.y * 65536.0 == ReadBigI32(buf, tag.buf + 12) as real
      && r.value.z * 65536.0 == ReadBigI32(buf, tag.buf + 16) as real
  {
    if tag.tagType == SigXYZType && XyzSize <= tag.size then
      Some(XYZ(ReadBigFixed(buf, tag.buf + 8), ReadBigFixed(buf, tag.buf + 12), ReadBigFixed(buf, tag.buf + 16)))
    else
      None
  }

  /** An XYZType body holding one raw s15.16 triple. */
  function EncodeXYZ(x: i32, y: i32, z: i32): (s: seq<byte>)
    ensures |s| == XyzSize
  {
    EncodeU32(SigXYZType) + [0, 0, 0, 0] + EncodeI32(x) + EncodeI32(y) + EncodeI32(z)
  }

  /** read_tag_xyz reads back the triple an XYZType body was written with. */
  lemma XYZRoundTrip(x: i32, y: i32, z: i32)
    ensures var s := EncodeXYZ(x, y, z);
      ReadTagXYZ(s, Tag(SigRXYZ, ReadBigU32(s, 0), |s|, 0))
        == Some(XYZ(x as real / 65536.0, y as real / 65536.0, z as real / 65536.0))
  {
    var s := EncodeXYZ(x, y, z);
    var sig, pad := EncodeU32(SigXYZType), [0, 0, 0, 0];
    assert s == sig + (pad + EncodeI32(x) + EncodeI32(y) + EncodeI32(z));
    ReadInPrefixU32(sig, pad + EncodeI32(x) + EncodeI32(y) + EncodeI32(z), 0);
    assert s == (sig + pad) + (EncodeI32(x) + EncodeI32(y) + EncodeI32(z));
    ReadAfterPrefixU32(sig + pad, EncodeI32(x) + EncodeI32(y) + EncodeI32(z), 0);
    ReadInPrefixU32(EncodeI32(x), EncodeI32(y) + EncodeI32(z), 0);
    assert s == (sig + pad + EncodeI32(x)) + (EncodeI32(y) + EncodeI32(z));
    ReadAfterPrefixU32(sig + pad + EncodeI32(x), EncodeI32(y) + EncodeI32(z), 0);
    ReadInPrefixU32(EncodeI32(y), EncodeI32(z), 0);
    assert s == (sig + pad + EncodeI32(x) + EncodeI32(y)) + EncodeI32(z);
    ReadAfterPrefixU32(sig + pad + EncodeI32(x) + EncodeI32(y), EncodeI32(z), 0);
  }

  // ---------------------------------------------------------------- toXYZD50

  /** The tags of matrix columns 0, 1 and 2. */
  function ColumnSig(c: nat): u32
    requires c < 3
  {
    [SigRXYZ, SigGXYZ, SigBXYZ][c]
  }

  /** Column c of a matrix as a triple. */
  function Column(m: Matrix3x3, c: nat): XYZ
    requires c < 3
  {
    XYZ(m[0][c], m[1][c], m[2][c])
  }

  /** m with column c replaced by v. */
  function WithColumn(m: Matrix3x3, c: nat, v: XYZ): (m': Matrix3x3)
    requires c < 3
    ensures Column(m', c) == v
    ensures forall k | 0 <= k < 3 && k != c :: Column(m', k) == Column(m, k)
  {
    SetEntry(SetEntry(SetEntry(m, 0, c, v.x), 1, c, v.y), 2, c, v.z)
  }

  /** Every one of rXYZ, gXYZ and bXYZ is in the directory. */
  predicate ColumnTagsFound(buf: Option<seq<byte>>, count: nat)
    requires buf.Some? ==> TagsInBounds(buf.value, count)
  {
    && ProfileTag(buf, count, SigRXYZ).Some?
    && ProfileTag(buf, count, SigGXYZ).Some?
    && ProfileTag(buf, count, SigBXYZ).Some?
  }

  /** The triple of column c, if its tag exists and is a valid XYZType. */
  function ColumnXYZ(buf: Option<seq<byte>>, count: nat, c: nat): (r: Option<XYZ>)
    requires buf.Some? ==> TagsInBounds(buf.value, count)
    requires c < 3
    ensures r.Some? ==> ProfileTag(buf, count, ColumnSig(c)).Some?
  {
    match ProfileTag(buf, count, ColumnSig(c))
    case None => None
    case Some(t) => ReadTagXYZ(buf.value, t)
  }

  /** How many leading columns decode: read_to_XYZD50 writes exactly these before it stops. */
  function DecodedColumns(buf: Option<seq<byte>>, count: nat): (w: nat)
    requires buf.Some? ==> TagsInBounds(buf.value, count)
    ensures w <= 3
    ensures forall c | 0 <= c < w :: ColumnXYZ(buf, count, c).Some?
    ensures w < 3 ==> ColumnXYZ(buf, count, w).None?
  {
    if ColumnXYZ(buf, count, 0).None? then 0
    else if ColumnXYZ(buf, count, 1).None? then 1
    else if ColumnXYZ(buf, count, 2).None? then 2
    else 3
  }

  /**
   * read_to_XYZD50 on a matrix that holds prior. It succeeds exactly when all three colorant
   * tags exist and are valid XYZType tags, and then column c holds the triple of tag c. When a
   * tag is missing nothing is written; otherwise the columns are written in order up to the first
   * one that fails to decode, and the rest keep their prior values.
   */
  function ToXYZD50Of(buf: Option<seq<byte>>, count: nat, prior: Matrix3x3): (r: (bool, Matrix3x3))
    requires buf.Some? ==> TagsInBounds(buf.value, count)
    ensures r.0 <==> ColumnXYZ(buf, count, 0).Some? && ColumnXYZ(buf, count, 1).Some? && ColumnXYZ(buf, count, 2).Some?
    ensures r.0 ==> forall c | 0 <= c < 3 :: Column(r.1, c) == ColumnXYZ(buf, count, c).value
    ensures !ColumnTagsFound(buf, count) ==> r.1 == prior
    ensures ColumnTagsFound(buf, count) ==>
      forall c | 0 <= c < 3 ::
        Column(r.1, c) == if c < DecodedColumns(buf, count) then ColumnXYZ(buf, count, c).value else Column(prior, c)
  {
    assert ColumnSig(0) == SigRXYZ && ColumnSig(1) == SigGXYZ && ColumnSig(2) == SigBXYZ;
    if !ColumnTagsFound(buf, count) then
      (false, prior)
    else
      var w := DecodedColumns(buf, count);
      var m0 := if 0 < w then WithColumn(prior, 0, ColumnXYZ(buf, count, 0).value) else prior;
      var m1 := if 1 < w then WithColumn(m0, 1, ColumnXYZ(buf, count, 1).value) else m0;
      var m2 := if 2 < w then WithColumn(m1, 2, ColumnXYZ(buf, count, 2).value) else m1;
      (w == 3, m2)
  }

  /** read_to_XYZD50: three lookups, then the three columns in order. */
  method ReadToXYZD50(p: ICCProfile, prior: Matrix3x3) returns (ok: bool, m: Matrix3x3)
    requires Readable(p)
    ensures (ok, m) == ToXYZD50Of(p.buffer, p.header.tagCount, prior)
  {
    ghost var buf, count := p.buffer, p.header.tagCount;
    assert ColumnSig(0) == SigRXYZ && ColumnSig(1) == SigGXYZ && ColumnSig(2) == SigBXYZ;
    var rXYZ := LookupTag(p, SigRXYZ);
    var gXYZ := LookupTag(p, SigGXYZ);
    var bXYZ := LookupTag(p, SigBXYZ);
    if rXYZ.None? || gXYZ.None? || bXYZ.None? {
      return false, prior;
    }
    assert ColumnTagsFound(buf, count);
    m := prior;
    var red := ReadTagXYZ(p.buffer.value, rXYZ.value);
    if red.None? {
      return false, m;
    }
    m := WithColumn(m, 0, red.value);
    var green := ReadTagXYZ(p.buffer.value, gXYZ.value);
    if green.None? {
      return false, m;
    }
    m := WithColumn(m, 1, green.value);
    var blue := ReadTagXYZ(p.buffer.value, bXYZ.value);
    if blue.None? {
      return false, m;
    }
    m := WithColumn(m, 2, blue.value);
    return true, m;
  }

  // ---------------------------------------------------------------- TRCs

  function TrcSig(c: nat): u32
    requires c < 3
  {
    [SigRTRC, SigGTRC, SigBTRC][c]
  }

  /** The curve TRC tag c decodes to, if the tag exists and read_curve accepts it. */
  function TrcCurve(buf: Option<seq<byte>>, count: nat, c: nat): (r: Option<CurveState>)
    requires buf.Some? ==> TagsInBounds(buf.value, count)
    requires c < 3
    ensures r.Some? ==>
      && ProfileTag(buf, count, TrcSig(c)).Some?
      && var t := ProfileTag(buf, count, TrcSig(c)).value;
         DecodeCurve(buf.value, t.buf, t.size) == Wrote(r.value, true)
  {
    match ProfileTag(buf, count, TrcSig(c))
    case None => None
    case Some(t) =>
      var d := DecodeCurve(buf.value, t.buf, t.size);
      if d.Succeeded() then Some(d.state) else None
  }

  /** The transfer function of TRC c, if it decodes to a parametric curve. */
  function ParametricTrc(buf: Option<seq<byte>>, count: nat, c: nat): (r: Option<TransferFunction>)
    requires buf.Some? ==> TagsInBounds(buf.value, count)
    requires c < 3
    ensures r.Some? <==> TrcCurve(buf, count, c).Some? && TrcCurve(buf, count, c).value.table.None?
    ensures r.Some? ==> TrcCurve(buf, count, c) == Some(Parametric(r.value))
  {
    match TrcCurve(buf, count, c)
    case None => None
    case Some(cs) => if cs.table.None? then Some(cs.parametric) else None
  }

  /**
   * get_transfer_function: the profile has one transfer function exactly when all three TRCs
   * decode to the same parametric curve; it is then that common curve.
   */
  function TransferFunctionOf(buf: Option<seq<byte>>, count: nat): (r: Option<TransferFunction>)
    requires buf.Some? ==> TagsInBounds(buf.value, count)
    ensures r.Some? <==>
      && ParametricTrc(buf, count, 0).Some?
      && ParametricTrc(buf, count, 1) == ParametricTrc(buf, count, 0)
      && ParametricTrc(buf, count, 2) == ParametricTrc(buf, count, 0)
    ensures r.Some? ==> forall c | 0 <= c < 3 :: ParametricTrc(buf, count, c) == r
  {
    var red, green, blue := TrcCurve(buf, count, 0), TrcCurve(buf, count, 1), TrcCurve(buf, count, 2);
    if red.None? || red.value.table.Some? || green.None? || green.value.table.Some?
       || blue.None? || blue.value.table.Some? then None
    else if green.value.parametric != red.value.parametric || blue.value.parametric != red.value.parametric then None
    else Some(red.value.parametric)
  }

  /** get_transfer_function, writing *transferFunction (prior) only on success. */
  method GetTransferFunction(p: ICCProfile, prior: TransferFunction) returns (ok: bool, tf: TransferFunction)
    requires Readable(p)
    ensures ok == TransferFunctionOf(p.buffer, p.header.tagCount).Some?
    ensures ok ==> tf == TransferFunctionOf(p.buffer, p.header.tagCount).value
    ensures !ok ==> tf == prior
  {
    assert TrcSig(0) == SigRTRC && TrcSig(1) == SigGTRC && TrcSig(2) == SigBTRC;
    var rTRC := LookupTag(p, SigRTRC);
    var gTRC := LookupTag(p, SigGTRC);
    var bTRC := LookupTag(p, SigBTRC);
    if rTRC.None? || gTRC.None? || bTRC.None? {
      return false, prior;
    }
    var buf := p.buffer.value;
    var okR, rCurve := ReadTrcCurve(buf, rTRC.value);
    if !okR || rCurve.table.Some? {
      return false, prior;
    }
    var okG, gCurve := ReadTrcCurve(buf, gTRC.value);
    if !okG || gCurve.table.Some? {
      return false, prior;
    }
    var okB, bCurve := ReadTrcCurve(buf, bTRC.value);
    if !okB || bCurve.table.Some? {
      return false, prior;
    }
    if rCurve.parametric != gCurve.parametric || rCurve.parametric != bCurve.parametric {
      return false, prior;
    }
    return true, rCurve.parametric;
  }

  /** read_curve into a Curve local to the caller; what the caller then inspects is its state. */
  method ReadTrcCurve(buf: seq<byte>, tag: Tag) returns (ok: bool, curve: CurveState)
    requires tag.buf + tag.size <= |buf|
    ensures ok == DecodeCurve(buf, tag.buf, tag.size).Succeeded()
    ensures ok ==> curve == DecodeCurve(buf, tag.buf, tag.size).state
  {
    var local := new Curve();
    ok := ReadCurve(buf, tag.buf, tag.size, local);
    curve := local.State();
  }

  // ---------------------------------------------------------------- ApproximateTransferFunction

  /** INT_MAX of a 32-bit int: the largest sample count passed to the fit. */
  const IntMax: nat := 0x7FFF_FFFF

  /** A sampled TRC: size u16 samples at offset. */
  datatype Table = Table(offset: nat, size: nat)

  /** Every table has at least two samples and lies inside buf. */
  predicate TablesFit(buf: seq<byte>, ts: seq<Table>)
  {
    forall i | 0 <= i < |ts| :: 2 <= ts[i].size && ts[i].offset + 2 * ts[i].size <= |buf|
  }

  /** The number of samples in the first c tables. */
  function PrefixSize(ts: seq<Table>, c: nat): nat
    requires c <= |ts|
  {
    if c == 0 then 0 else PrefixSize(ts, c - 1) + ts[c - 1].size
  }

  /** The number of samples in all the tables. */
  function TotalSize(ts: seq<Table>): nat
  {
    PrefixSize(ts, |ts|)
  }

  /** The abscissae of one channel: i / (n - 1) for i in 0 .. n - 1, an even grid from 0 to 1. */
  function ChannelX(n: nat): (x: seq<real>)
    requires 2 <= n
    ensures |x| == n && x[0] == 0.0 && x[n - 1] == 1.0
    ensures forall i | 0 <= i < n :: x[i] * (n - 1) as real == i as real
    ensures forall i | 0 <= i < n :: 0.0 <= x[i] <= 1.0
  {
    var x := seq(n, i requires 0 <= i < n => i as real / (n - 1) as real);
    assert forall i | 0 <= i < n :: x[i] * (n - 1) as real == i as real && 0.0 <= x[i] <= 1.0 by {
      forall i | 0 <= i < n
        ensures x[i] * (n - 1) as real == i as real && 0.0 <= x[i] <= 1.0
      {
        GridPoint(i, n - 1);
      }
    }
    x
  }

  /** The grid point i / m, for i <= m, lies in [0, 1] and times m gives back i. */
  lemma GridPoint(i: nat, m: nat)
    requires 0 < m && i <= m
    ensures (i as real / m as real) * m as real == i as real
    ensures 0.0 <= i as real / m as real <= 1.0
  {
    var q := i as real / m as real;
    assert q * m as real == i as real;
    assert (1.0 - q) * m as real == (m - i) as real;
  }

  /** The ordinates of one channel: each u16 sample scaled to [0, 1] by 1 / 65535. */
  function ChannelT(buf: seq<byte>, t: Table): (y: seq<real>)
    requires t.offset + 2 * t.size <= |buf|
    ensures |y| == t.size
    ensures forall i | 0 <= i < t.size :: y[i] * 65535.0 == ReadBigU16(buf, t.offset + 2 * i) as real
    ensures forall i | 0 <= i < t.size :: 0.0 <= y[i] <= 1.0
  {
    seq(t.size, i requires 0 <= i < t.size => ReadBigU16(buf, t.offset + 2 * i) as real / 65535.0)
  }

  /** The abscissae of the first c channels, channel after channel; every one lies in [0, 1]. */
  function MergedX(ts: seq<Table>, c: nat): (x: seq<real>)
    requires c <= |ts| && forall i | 0 <= i < |ts| :: 2 <= ts[i].size
    ensures |x| == PrefixSize(ts, c)
    ensures forall k | 0 <= k < |x| :: 0.0 <= x[k] <= 1.0
  {
    if c == 0 then [] else MergedX(ts, c - 1) + ChannelX(ts[c - 1].size)
  }

  /** The ordinates of the first c channels, channel after channel; every one lies in [0, 1]. */
  function MergedT(buf: seq<byte>, ts: seq<Table>, c: nat): (t: seq<real>)
    requires c <= |ts| && TablesFit(buf, ts)
    ensures |t| == PrefixSize(ts, c)
    ensures forall k | 0 <= k < |t| :: 0.0 <= t[k] <= 1.0
  {
    if c == 0 then [] else MergedT(buf, ts, c - 1) + ChannelT(buf, ts[c - 1])
  }

  /** Taking more tables never yields fewer samples. */
  lemma {:induction false} PrefixSizeGrows(ts: seq<Table>, c: nat, d: nat)
    requires c <= d <= |ts|
    ensures PrefixSize(ts, c) <= PrefixSize(ts, d)
    decreases d
  {
    if c < d {
      PrefixSizeGrows(ts, c, d - 1);
    }
  }

  lemma TotalSizeOfThree(ts: seq<Table>)
    requires |ts| == 3
    ensures TotalSize(ts) == ts[0].size + ts[1].size + ts[2].size
  {
    assert PrefixSize(ts, 1) == ts[0].size;
    assert PrefixSize(ts, 2) == ts[0].size + ts[1].size;
  }

  /** In the merge of the first d channels, sample i of channel c < d sits at index PrefixSize(ts, c) + i. */
  lemma {:induction false} MergedLayout(buf: seq<byte>, ts: seq<Table>, d: nat, c: nat, i: nat)
    requires TablesFit(buf, ts) && c < d <= |ts| && i < ts[c].size
    ensures PrefixSize(ts, c) + i < PrefixSize(ts, d)
    ensures MergedX(ts, d)[PrefixSize(ts, c) + i] == ChannelX(ts[c].size)[i]
    ensures MergedT(buf, ts, d)[PrefixSize(ts, c) + i] == ChannelT(buf, ts[c])[i]
    decreases d
  {
    if c < d - 1 {
      MergedLayout(buf, ts, d - 1, c, i);
    }
  }

  /** The table TRC c decodes to, if it is table-backed. */
  function TrcTable(buf: Option<seq<byte>>, count: nat, c: nat): (r: Option<Table>)
    requires buf.Some? ==> TagsInBounds(buf.value, count)
    requires c < 3
    ensures r.Some? <==> TrcCurve(buf, count, c).Some? && TrcCurve(buf, count, c).value.table.Some?
    ensures r.Some? ==> 2 <= r.value.size && r.value.offset + 2 * r.value.size <= |buf.value|
  {
    match TrcCurve(buf, count, c)
    case None => None
    case Some(cs) =>
      if cs.table.Some? then Some(Table(cs.table.value, cs.tableSize)) else None
  }

  /** The three TRC tables, if all three TRCs are table-backed. */
  function TrcTables(buf: Option<seq<byte>>, count: nat): (r: Option<seq<Table>>)
    requires buf.Some? ==> TagsInBounds(buf.value, count)
    ensures r.Some? <==> TrcTable(buf, count, 0).Some? && TrcTable(buf, count, 1).Some? && TrcTable(buf, count, 2).Some?
    ensures r.Some? ==> |r.value| == 3 && TablesFit(buf.value, r.value)
    ensures r.Some? ==>
      && r.value[0] == TrcTable(buf, count, 0).value
      && r.value[1] == TrcTable(buf, count, 1).value
      && r.value[2] == TrcTable(buf, count, 2).value
  {
    var red, green, blue := TrcTable(buf, count, 0), TrcTable(buf, count, 1), TrcTable(buf, count, 2);
    if red.None? || green.None? || blue.None? then None
    else Some([red.value, green.value, blue.value])
  }

  /**
   * The samples skcms_ApproximateTransferFunction hands to the fit: admitted exactly when the
   * three TRCs are table-backed, their total sample count n is at most INT_MAX, and the byte
   * size of the 2n-float buffer fits size_t (largest value sizeMax); then x and t are the
   * merged channels, n values each.
   */
  function ApproximationInput(buf: Option<seq<byte>>, count: nat, sizeMax: nat): (r: Option<(seq<real>, seq<real>)>)
    requires buf.Some? ==> TagsInBounds(buf.value, count)
    ensures r.Some? <==>
      && TrcTables(buf, count).Some?
      && TotalSize(TrcTables(buf, count).value) <= IntMax
      && 2 * TotalSize(TrcTables(buf, count).value) * 4 <= sizeMax
    ensures r.Some? ==>
      var ts := TrcTables(buf, count).value;
      r.value == (MergedX(ts, 3), MergedT(buf.value, ts, 3))
  {
    match TrcTables(buf, count)
    case None => None
    case Some(ts) =>
      var n := ts[0].size + ts[1].size + ts[2].size;
      TotalSizeOfThree(ts);
      if n > IntMax || 2 * n * 4 > sizeMax then None
      else Some((MergedX(ts, 3), MergedT(buf.value, ts, 3)))
  }

  /** The result of the foreign fit: its verdict, *fn and *max_error afterwards. */
  datatype FitResult = FitResult(ok: bool, fn: TransferFunction, maxError: real)

  /**
   * skcms_ApproximateTransferFunction. The fit (skcms_TransferFunction_approximate, not part of
   * this model) is the parameter fit, given the samples and the caller's *fn and *max_error; the
   * largest size_t value is the parameter sizeMax. When the input is not admitted, nothing is
   * written and the result is false.
   */
  method ApproximateTransferFunction(p: ICCProfile, prior: TransferFunction, priorError: real,
                                     fit: (seq<real>, seq<real>, TransferFunction, real) -> FitResult,
                                     sizeMax: nat)
    returns (r: FitResult)
    requires Readable(p)
    ensures ApproximationInput(p.buffer, p.header.tagCount, sizeMax).None? ==> r == FitResult(false, prior, priorError)
    ensures ApproximationInput(p.buffer, p.header.tagCount, sizeMax).Some? ==>
      var input := ApproximationInput(p.buffer, p.header.tagCount, sizeMax).value;
      r == fit(input.0, input.1, prior, priorError)
  {
    ghost var pbuf, count := p.buffer, p.header.tagCount;
    var rest := FitResult(false, prior, priorError);
    assert TrcSig(0) == SigRTRC && TrcSig(1) == SigGTRC && TrcSig(2) == SigBTRC;
    var rTRC := LookupTag(p, SigRTRC);
    var gTRC := LookupTag(p, SigGTRC);
    var bTRC := LookupTag(p, SigBTRC);
    if rTRC.None? || gTRC.None? || bTRC.None? {
      return rest;
    }
    var buf := p.buffer.value;
    var ok0, c0 := ReadTrcCurve(buf, rTRC.value);
    if !ok0 || c0.table.None? {
      return rest;
    }
    var ok1, c1 := ReadTrcCurve(buf, gTRC.value);
    if !ok1 || c1.table.None? {
      return rest;
    }
    var ok2, c2 := ReadTrcCurve(buf, bTRC.value);
    if !ok2 || c2.table.None? {
      return rest;
    }
    var ts := [Table(c0.table.value, c0.tableSize), Table(c1.table.value, c1.tableSize),
               Table(c2.table.value, c2.tableSize)];
    assert TrcTables(pbuf, count) == Some(ts);
    var n := c0.tableSize as nat + c1.tableSize + c2.tableSize;
    if n > IntMax {
      return rest;
    }
    var bufSize := 2 * n * 4;
    if bufSize > sizeMax {
      return rest;
    }
    TotalSizeOfThree(ts);
    var x, t := MergeSamples(buf, ts, n);
    r := fit(x, t, prior, priorError);
  }

  /**
   * The merge loops: a buffer of 2n floats whose first half receives every channel's abscissae
   * and whose second half every channel's ordinates, through cursors that advance channel by
   * channel.
   */
  method MergeSamples(buf: seq<byte>, ts: seq<Table>, n: nat) returns (x: seq<real>, t: seq<real>)
    requires TablesFit(buf, ts) && n == TotalSize(ts)
    ensures x == MergedX(ts, |ts|) && t == MergedT(buf, ts, |ts|)
  {
    var xs := new real[n];
    var ys := new real[n];
    var xi := 0;
    for c := 0 to |ts|
      invariant xi == PrefixSize(ts, c) <= n
      invariant xs[..xi] == MergedX(ts, c) && ys[..xi] == MergedT(buf, ts, c)
    {
      PrefixSizeGrows(ts, c + 1, |ts|);
      assert MergedX(ts, c + 1) == MergedX(ts, c) + ChannelX(ts[c].size);
      assert MergedT(buf, ts, c + 1) == MergedT(buf, ts, c) + ChannelT(buf, ts[c]);
      MergeChannel(xs, ys, buf, ts[c], xi);
      xi := xi + ts[c].size;
    }
    x, t := xs[..], ys[..];
  }

  /**
   * The inner merge loop for one channel: its sample positions go to xs and its normalised
   * table values to ys, both from cursor xi on.
   */
  method MergeChannel(xs: array<real>, ys: array<real>, buf: seq<byte>, t: Table, xi: nat)
    requires xs != ys && xs.Length == ys.Length && xi + t.size <= xs.Length
    requires 2 <= t.size && t.offset + 2 * t.size <= |buf|
    modifies xs, ys
    ensures xs[..xi + t.size] == old(xs[..xi]) + ChannelX(t.size)
    ensures ys[..xi + t.size] == old(ys[..xi]) + ChannelT(buf, t)
    ensures xs[xi + t.size..] == old(xs[xi + t.size..]) && ys[xi + t.size..] == old(ys[xi + t.size..])
  {
    ghost var cx, cy := ChannelX(t.size), ChannelT(buf, t);
    for i := 0 to t.size
      invariant forall k | 0 <= k < i :: xs[xi + k] == cx[k]
      invariant forall k | 0 <= k < i :: ys[xi + k] == cy[k]
      invariant xs[..xi] == old(xs[..xi]) && ys[..xi] == old(ys[..xi])
      invariant xs[xi + t.size..] == old(xs[xi + t.size..]) && ys[xi + t.size..] == old(ys[xi + t.size..])
    {
      assert cx[i] == i as real / (t.size - 1) as real;
      assert cy[i] == ReadBigU16(buf, t.offset + 2 * i) as real / 65535.0;
      xs[xi + i] := i as real / (t.size as real - 1.0);
      ys[xi + i] := ReadBigU16(buf, t.offset + 2 * i) as real * (1.0 / 65535.0);
    }
    assert xs[..xi + t.size] == xs[..xi] + cx;
    assert ys[..xi + t.size] == ys[..xi] + cy;
  }
}
