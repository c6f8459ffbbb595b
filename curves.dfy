/**
 * The curve decoders of src/ICCProfile.c:152-290: read_curve_para (parametricCurveType,
 * ICC.1:2010 section 10.18), read_curve_curv (curveType, section 10.6) and read_curve, which
 * dispatches on the tag type. Each one fills a caller-owned Curve field by field.
 */
module Curves {
  import opened Wrappers
  import opened Bytes
  import opened Layout
  import opened Skcms

  /**
   * The content of the C Curve struct (src/ICCProfile.c:161-165): a table offset of None is the
   * parametric variant; otherwise table_size big-endian u16 samples start at the offset.
   */
  datatype CurveState = CurveState(parametric: TransferFunction, table: Option<nat>, tableSize: u32)

  /** A parametric curve: no table, size 0. */
  function Parametric(tf: TransferFunction): (c: CurveState)
    ensures c.table.None? && c.tableSize == 0 && c.parametric == tf
  {
    CurveState(tf, None, 0)
  }

  /**
   * What a read_curve* call does to its Curve: either it returns false before writing anything,
   * or it writes the whole state and returns ok (false only for a para curve whose a is zero).
   */
  datatype Outcome = Untouched | Wrote(state: CurveState, ok: bool)
  {
    predicate Succeeded()
    {
      Wrote? && ok
    }
  }

  /** The pure power curve x^g: every field the decoders do not read keeps these values. */
  function Defaults(g: real): (tf: TransferFunction)
    ensures tf.g == g && tf.a == 1.0
    ensures tf.b == 0.0 && tf.c == 0.0 && tf.d == 0.0 && tf.e == 0.0 && tf.f == 0.0
  {
    TransferFunction(g, 1.0, 0.0, 0.0, 0.0, 0.0, 0.0)
  }

  /** The Curve allocated by a caller. Its fields start zeroed here; in C they are uninitialised. */
  class Curve {
    var parametric: TransferFunction
    var table: Option<nat>
    var tableSize: u32

    constructor ()
      ensures State() == Parametric(ZeroTF)
    {
      parametric, table, tableSize := ZeroTF, None, 0;
    }

    function State(): CurveState
      reads this
    {
      CurveState(parametric, table, tableSize)
    }
  }

  // ---------------------------------------------------------------- para

  /** Parameter bytes per function type 0 .. 4 (the curve_bytes table). */
  const CurveBytes: seq<nat> := [4, 12, 16, 20, 28]

  /** The number of s15.16 parameters of function type ft: g; g a b; g a b c; g a b c d; g a b c d e f. */
  function ParamCount(ft: nat): (n: nat)
    requires ft < 5
    ensures 4 * n == CurveBytes[ft]
  {
    [1, 3, 4, 5, 7][ft]
  }

  function ParaType(buf: seq<byte>, off: nat): u16
    requires off + ParaHeaderSize <= |buf|
  {
    ReadBigU16(buf, off + 8)
  }

  /** Parameter k, read at offset 12 + 4k of the tag body. */
  function ParaParam(buf: seq<byte>, off: nat, k: nat): real
    requires off + ParaHeaderSize + 4 * k + 4 <= |buf|
  {
    ReadBigFixed(buf, off + ParaHeaderSize + 4 * k)
  }

  /**
   * The ParamCount(ft) parameters of a para body, in order: parameter k is the signed s15.16
   * word at byte 12 + 4k, so it lies in [-32768, 32768).
   */
  function ParaParams(buf: seq<byte>, off: nat, ft: nat): (p: seq<real>)
    requires ft < 5 && off + ParaHeaderSize + CurveBytes[ft] <= |buf|
    ensures |p| == ParamCount(ft)
    ensures forall k | 0 <= k < |p| :: p[k] * 65536.0 == ReadBigI32(buf, off + ParaHeaderSize + 4 * k) as real
    ensures forall k | 0 <= k < |p| :: -32768.0 <= p[k] < 32768.0
  {
    seq(ParamCount(ft), k requires 0 <= k < ParamCount(ft) => ParaParam(buf, off, k))
  }

  /**
   * The transfer function of function type ft with parameters p, and whether read_curve_para
   * accepts it. Types 1 and 2 place d where the power segment's base a x + b vanishes, and the
   * linear segment c x + f meets the power segment there (f = e for type 2).
   */
  function ParaFunction(ft: nat, p: seq<real>): (r: (TransferFunction, bool))
    requires ft < 5 && |p| == ParamCount(ft)
    ensures r.0.g == p[0]
    ensures ft == 0 ==> r.1 && r.0 == Defaults(p[0])
    ensures ft in {1, 2} ==>
      && r.0.a == p[1] && r.0.b == p[2] && r.0.c == 0.0
      && r.0.e == (if ft == 2 then p[3] else 0.0)
      && (r.1 <==> p[1] != 0.0)
      && (r.1 ==> r.0.a * r.0.d + r.0.b == 0.0 && r.0.c * r.0.d + r.0.f == r.0.e)
      && (!r.1 ==> r.0.d == 0.0 && r.0.f == 0.0)
    ensures ft >= 3 ==>
      && r.1
      && r.0.a == p[1] && r.0.b == p[2] && r.0.c == p[3] && r.0.d == p[4]
      && r.0.e == (if ft == 4 then p[5] else 0.0)
      && r.0.f == (if ft == 4 then p[6] else 0.0)
  {
    var g := p[0];
    if ft == 0 then
      (Defaults(g), true)
    else if ft == 1 || ft == 2 then
      var a, b := p[1], p[2];
      var e := if ft == 2 then p[3] else 0.0;
      var read := Defaults(g).(a := a, b := b, e := e);
      if a == 0.0 then (read, false)
      else (read.(d := -b / a, f := e), true)
    else if ft == 3 then
      (TransferFunction(g, p[1], p[2], p[3], p[4], 0.0, 0.0), true)
    else
      (TransferFunction(g, p[1], p[2], p[3], p[4], p[5], p[6]), true)
  }

  /**
   * read_curve_para on the size bytes at off. All three size checks come before the first
   * parameter read, and every read lies inside the tag (the reads here are only defined there).
   */
  function DecodePara(buf: seq<byte>, off: nat, size: u32): (r: Outcome)
    requires off + size <= |buf|
    ensures r.Untouched? <==>
      (size < ParaHeaderSize || ParaType(buf, off) > 4 || size < ParaHeaderSize + CurveBytes[ParaType(buf, off)])
    ensures r.Wrote? ==>
      && ParaHeaderSize + CurveBytes[ParaType(buf, off)] <= size
      && r.state.table.None? && r.state.tableSize == 0
      && (r.state.parametric, r.ok) == ParaFunction(ParaType(buf, off), ParaParams(buf, off, ParaType(buf, off)))
  {
    if size < ParaHeaderSize || ParaType(buf, off) > 4 || size < ParaHeaderSize + CurveBytes[ParaType(buf, off)] then
      Untouched
    else
      var ft := ParaType(buf, off);
      var f := ParaFunction(ft, ParaParams(buf, off, ft));
      Wrote(Parametric(f.0), f.1)
  }

  /** read_curve_para: the checks, then the defaults, then the parameters of the function type. */
  method ReadCurvePara(buf: seq<byte>, off: nat, size: u32, curve: Curve) returns (ok: bool)
    requires off + size <= |buf|
    modifies curve
    ensures ok == DecodePara(buf, off, size).Succeeded()
    ensures DecodePara(buf, off, size).Untouched? ==> curve.State() == old(curve.State())
    ensures DecodePara(buf, off, size).Wrote? ==> curve.State() == DecodePara(buf, off, size).state
  {
    if size < ParaHeaderSize {
      return false;
    }
    var functionType := ReadBigU16(buf, off + 8);
    if functionType > 4 {
      return false;
    }
    if size < ParaHeaderSize + CurveBytes[functionType] {
      return false;
    }
    var params := off + ParaHeaderSize;
    ghost var p := ParaParams(buf, off, functionType);
    curve.table := None;
    curve.tableSize := 0;
    // The parametric member is assembled in tf and stored before every return.
    var tf := Defaults(ReadBigFixed(buf, params));
    if functionType == 1 {
      tf := tf.(a := ReadBigFixed(buf, params + 4), b := ReadBigFixed(buf, params + 8));
      assert tf.a == p[1] && tf.b == p[2];
      if tf.a == 0.0 {
        curve.parametric := tf;
        return false;
      }
      tf := tf.(d := -tf.b / tf.a);
    } else if functionType == 2 {
      tf := tf.(a := ReadBigFixed(buf, params + 4), b := ReadBigFixed(buf, params + 8), e := ReadBigFixed(buf, params + 12));
      assert tf.a == p[1] && tf.b == p[2] && tf.e == p[3];
      if tf.a == 0.0 {
        curve.parametric := tf;
        return false;
      }
      tf := tf.(d := -tf.b / tf.a);
      tf := tf.(f := tf.e);
    } else if functionType == 3 {
      tf := tf.(a := ReadBigFixed(buf, params + 4), b := ReadBigFixed(buf, params + 8),
                c := ReadBigFixed(buf, params + 12), d := ReadBigFixed(buf, params + 16));
      assert tf.a == p[1] && tf.b == p[2] && tf.c == p[3] && tf.d == p[4];
    } else if functionType == 4 {
      tf := tf.(a := ReadBigFixed(buf, params + 4), b := ReadBigFixed(buf, params + 8),
                c := ReadBigFixed(buf, params + 12), d := ReadBigFixed(buf, params + 16),
                e := ReadBigFixed(buf, params + 20), f := ReadBigFixed(buf, params + 24));
      assert tf.a == p[1] && tf.b == p[2] && tf.c == p[3] && tf.d == p[4] && tf.e == p[5] && tf.f == p[6];
    }
    curve.parametric := tf;
    return true;
  }

  // ---------------------------------------------------------------- curv

  function CurvCount(buf: seq<byte>, off: nat): u32
    requires off + CurvHeaderSize <= |buf|
  {
    ReadBigU32(buf, off + 8)
  }

  /**
   * read_curve_curv. It fails, without writing, only on the two size checks. A count of 0 is
   * the identity, 1 a simple gamma in u8.8, and from 2 on a sampled table that lies inside the tag.
   */
  function DecodeCurv(buf: seq<byte>, off: nat, size: u32): (r: Outcome)
    requires off + size <= |buf|
    ensures r.Untouched? <==> size < CurvHeaderSize || size < CurvHeaderSize + 2 * CurvCount(buf, off)
    ensures r.Wrote? ==> r.ok && CurvHeaderSize + 2 * CurvCount(buf, off) <= size
    ensures r.Wrote? && CurvCount(buf, off) == 0 ==> r.state == Parametric(Defaults(1.0))
    ensures r.Wrote? && CurvCount(buf, off) == 1 ==>
      r.state == Parametric(Defaults(ReadBigU16(buf, off + CurvHeaderSize) as real / 256.0))
    ensures r.Wrote? && CurvCount(buf, off) >= 2 ==>
      && r.state.table == Some(off + CurvHeaderSize) && r.state.tableSize == CurvCount(buf, off)
      && r.state.parametric == ZeroTF
  {
    if size < CurvHeaderSize || size < CurvHeaderSize + 2 * CurvCount(buf, off) then
      Untouched
    else
      var count := CurvCount(buf, off);
      if count == 0 then Wrote(Parametric(Defaults(1.0)), true)
      else if count == 1 then Wrote(Parametric(Defaults(ReadBigU16(buf, off + CurvHeaderSize) as real / 256.0)), true)
      else Wrote(CurveState(ZeroTF, Some(off + CurvHeaderSize), count), true)
  }

  /** read_curve_curv: the size checks, then either the defaults with a gamma, or the table view. */
  method ReadCurveCurv(buf: seq<byte>, off: nat, size: u32, curve: Curve) returns (ok: bool)
    requires off + size <= |buf|
    modifies curve
    ensures ok == DecodeCurv(buf, off, size).Succeeded()
    ensures DecodeCurv(buf, off, size).Untouched? ==> curve.State() == old(curve.State())
    ensures DecodeCurv(buf, off, size).Wrote? ==> curve.State() == DecodeCurv(buf, off, size).state
  {
    if size < CurvHeaderSize {
      return false;
    }
    var valueCount := ReadBigU32(buf, off + 8);
    if size < CurvHeaderSize + valueCount as int * 2 {
      return false;
    }
    if valueCount < 2 {
      curve.table := None;
      curve.tableSize := 0;
      if valueCount == 0 {
        curve.parametric := Defaults(1.0);
      } else {
        curve.parametric := Defaults(ReadBigU16(buf, off + CurvHeaderSize) as real * (1.0 / 256.0));
      }
    } else {
      curve.parametric := ZeroTF;
      curve.tableSize := valueCount;
      curve.table := Some(off + CurvHeaderSize);
    }
    return true;
  }

  // ---------------------------------------------------------------- read_curve

  function CurveType(buf: seq<byte>, off: nat): u32
    requires off + 4 <= |buf|
  {
    ReadBigU32(buf, off)
  }

  /**
   * read_curve: a body of at least 4 bytes typed 'para' or 'curv', decoded by its own reader.
   * A successful read yields either a parametric curve or a table of at least two samples that
   * lies inside the tag body.
   */
  function DecodeCurve(buf: seq<byte>, off: nat, size: u32): (r: Outcome)
    requires off + size <= |buf|
    ensures size < 4 ==> r.Untouched?
    ensures 4 <= size && CurveType(buf, off) != SigPara && CurveType(buf, off) != SigCurv ==> r.Untouched?
    ensures 4 <= size && CurveType(buf, off) == SigPara ==> r == DecodePara(buf, off, size)
    ensures 4 <= size && CurveType(buf, off) == SigCurv ==> r == DecodeCurv(buf, off, size)
    ensures r.Wrote? && r.state.table.None? ==> r.state.tableSize == 0
    ensures r.Wrote? && r.state.table.Some? ==>
      && 2 <= r.state.tableSize
      && off <= r.state.table.value
      && r.state.table.value + 2 * r.state.tableSize <= off + size
  {
    if size < 4 then Untouched
    else if CurveType(buf, off) == SigPara then DecodePara(buf, off, size)
    else if CurveType(buf, off) == SigCurv then DecodeCurv(buf, off, size)
    else Untouched
  }

  /** read_curve. The C NULL checks are left out: offsets cannot be NULL. */
  method ReadCurve(buf: seq<byte>, off: nat, size: u32, curve: Curve) returns (ok: bool)
    requires off + size <= |buf|
    modifies curve
    ensures ok == DecodeCurve(buf, off, size).Succeeded()
    ensures DecodeCurve(buf, off, size).Untouched? ==> curve.State() == old(curve.State())
    ensures DecodeCurve(buf, off, size).Wrote? ==> curve.State() == DecodeCurve(buf, off, size).state
  {
    if size < 4 {
      return false;
    }
    var tagType := ReadBigU32(buf, off);
    if tagType == SigPara {
      ok := ReadCurvePara(buf, off, size, curve);
    } else if tagType == SigCurv {
      ok := ReadCurveCurv(buf, off, size, curve);
    } else {
      ok := false;
    }
  }

  // ---------------------------------------------------------------- encoders and round trips

  /** A parametricCurveType body of function type ft with raw s15.16 parameters ps. */
  function EncodePara(ft: nat, ps: seq<i32>): (s: seq<byte>)
    requires ft < 5 && |ps| == ParamCount(ft)
    ensures |s| == ParaHeaderSize + CurveBytes[ft]
  {
    EncodeU32(SigPara) + [0, 0, 0, 0] + EncodeU16(ft) + [0, 0] + EncodeI32s(ps)
  }

  /** A curveType body holding the samples vs. */
  function EncodeCurv(vs: seq<u16>): (s: seq<byte>)
    requires |vs| < 0x1_0000_0000
    ensures |s| == CurvHeaderSize + 2 * |vs|
  {
    EncodeU32(SigCurv) + [0, 0, 0, 0] + EncodeU32(|vs|) + EncodeU16s(vs)
  }

  /** The head of an encoded para body: its tag type and function type read back. */
  lemma EncodedParaHead(ft: nat, ps: seq<i32>)
    requires ft < 5 && |ps| == ParamCount(ft)
    ensures CurveType(EncodePara(ft, ps), 0) == SigPara && ParaType(EncodePara(ft, ps), 0) == ft
  {
    var s := EncodePara(ft, ps);
    ReadInPrefixU32(EncodeU32(SigPara), [0, 0, 0, 0] + EncodeU16(ft) + [0, 0] + EncodeI32s(ps), 0);
    assert s == EncodeU32(SigPara) + ([0, 0, 0, 0] + EncodeU16(ft) + [0, 0] + EncodeI32s(ps));
    assert s[8..10] == EncodeU16(ft);
  }

  /** The parameters of an encoded para body read back as the s15.16 values of its words. */
  lemma EncodedParaParams(ft: nat, ps: seq<i32>)
    requires ft < 5 && |ps| == ParamCount(ft)
    ensures forall k | 0 <= k < |ps| :: ParaParams(EncodePara(ft, ps), 0, ft)[k] == ps[k] as real / 65536.0
  {
    var s := EncodePara(ft, ps);
    var head := EncodeU32(SigPara) + [0, 0, 0, 0] + EncodeU16(ft) + [0, 0];
    assert s == head + EncodeI32s(ps);
    var p := ParaParams(s, 0, ft);
    forall k | 0 <= k < |ps|
      ensures p[k] == ps[k] as real / 65536.0
    {
      ReadEncodedI32s(ps, k);
      ReadAfterPrefixU32(head, EncodeI32s(ps), 4 * k);
      assert ReadBigI32(s, ParaHeaderSize + 4 * k) == ps[k];
    }
  }

  /**
   * Decoding an encoded para body reads back its type and every parameter, so it is written
   * (fails only when a type 1 or 2 curve has a = 0).
   */
  lemma ParaRoundTrip(ft: nat, ps: seq<i32>)
    requires ft < 5 && |ps| == ParamCount(ft)
    ensures var s := EncodePara(ft, ps);
      && CurveType(s, 0) == SigPara && ParaType(s, 0) == ft
      && (forall k | 0 <= k < |ps| :: ParaParams(s, 0, ft)[k] == ps[k] as real / 65536.0)
      && DecodeCurve(s, 0, |s|) == DecodePara(s, 0, |s|)
      && DecodePara(s, 0, |s|).Wrote?
      && (DecodePara(s, 0, |s|).ok <==> ft !in {1, 2} || ps[1] != 0)
  {
    EncodedParaHead(ft, ps);
    EncodedParaParams(ft, ps);
    if ft in {1, 2} {
      assert ParaParams(EncodePara(ft, ps), 0, ft)[1] == ps[1] as real / 65536.0;
    }
  }

  /** Decoding an encoded curv body succeeds and gives back the count, the gamma, or every sample. */
  lemma CurvRoundTrip(vs: seq<u16>)
    requires CurvHeaderSize + 2 * |vs| < 0x1_0000_0000
    ensures var s := EncodeCurv(vs);
      && CurveType(s, 0) == SigCurv && CurvCount(s, 0) == |vs|
      && DecodeCurve(s, 0, |s|) == DecodeCurv(s, 0, |s|)
      && DecodeCurv(s, 0, |s|).Succeeded()
      && (|vs| == 1 ==> DecodeCurv(s, 0, |s|).state.parametric.g == vs[0] as real / 256.0)
      && (forall i | 0 <= i < |vs| :: ReadBigU16(s, CurvHeaderSize + 2 * i) == vs[i])
  {
    var s := EncodeCurv(vs);
    var head := EncodeU32(SigCurv) + [0, 0, 0, 0] + EncodeU32(|vs|);
    assert s == head + EncodeU16s(vs);
    ReadInPrefixU32(EncodeU32(SigCurv), [0, 0, 0, 0] + EncodeU32(|vs|) + EncodeU16s(vs), 0);
    assert s == EncodeU32(SigCurv) + ([0, 0, 0, 0] + EncodeU32(|vs|) + EncodeU16s(vs));
    ReadAfterPrefixU32(EncodeU32(SigCurv) + [0, 0, 0, 0], EncodeU32(|vs|) + EncodeU16s(vs), 0);
    ReadInPrefixU32(EncodeU32(|vs|), EncodeU16s(vs), 0);
    assert s == (EncodeU32(SigCurv) + [0, 0, 0, 0]) + (EncodeU32(|vs|) + EncodeU16s(vs));
    forall i | 0 <= i < |vs|
      ensures ReadBigU16(s, CurvHeaderSize + 2 * i) == vs[i]
    {
      ReadEncodedU16s(vs, i);
      ReadAfterPrefixU16(head, EncodeU16s(vs), 2 * i);
    }
    if |vs| == 1 {
      assert ReadBigU16(s, CurvHeaderSize) == vs[0];
    }
  }
}
