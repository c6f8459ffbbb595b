/**
 * The public records of skcms.h and the profile object with its three inline builders
 * (skcms.h:25-111, 140-145, 242-261). Fields that src/ICCProfile.c uses but skcms.h does not
 * declare (the full header, has_tf and tf) are part of the profile here, since the parser fills them.
 */
module Skcms {
  import opened Wrappers
  import opened Bytes
  import opened Layout

  /**
   * skcms_TransferFunction: linear = sign(x) * (c|x| + f) below d, sign(x) * ((a|x| + b)^g + e) from d on.
   * The C fields are floats; here they are exact reals.
   */
  datatype TransferFunction = TransferFunction(g: real, a: real, b: real, c: real, d: real, e: real, f: real)

  /** The all-zero bit pattern of a TransferFunction, as memset leaves it. */
  const ZeroTF := TransferFunction(0.0, 0.0, 0.0, 0.0, 0.0, 0.0, 0.0)

  type Row3 = r: seq<real> | |r| == 3 witness [0.0, 0.0, 0.0]
  type Row4 = r: seq<real> | |r| == 4 witness [0.0, 0.0, 0.0, 0.0]
  const ZeroRow3: Row3 := [0.0, 0.0, 0.0]
  const ZeroRow4: Row4 := [0.0, 0.0, 0.0, 0.0]

  /** skcms_Matrix3x3, row-major: m[row][col]. */
  type Matrix3x3 = m: seq<Row3> | |m| == 3 witness [ZeroRow3, ZeroRow3, ZeroRow3]
  /** skcms_Matrix3x4, row-major. */
  type Matrix3x4 = m: seq<Row4> | |m| == 3
    witness [ZeroRow4, ZeroRow4, ZeroRow4]

  const ZeroMatrix3x3: Matrix3x3 := [ZeroRow3, ZeroRow3, ZeroRow3]
  const ZeroMatrix3x4: Matrix3x4 := [ZeroRow4, ZeroRow4, ZeroRow4]

  /** The matrix with one entry replaced. */
  function SetEntry(m: Matrix3x3, r: nat, c: nat, v: real): (m': Matrix3x3)
    requires r < 3 && c < 3
    ensures m'[r][c] == v
    ensures forall i, j | 0 <= i < 3 && 0 <= j < 3 && (i != r || j != c) :: m'[i][j] == m[i][j]
  {
    m[r := m[r][c := v]]
  }

  type PositiveU32 = n: u32 | n > 0 witness 1

  /**
   * skcms_Curve (skcms.h:46-57). The C union overlays table_entries with alias_of_table_entries;
   * table_entries == 0 selects the parametric member. The sum type makes that choice explicit:
   * a table always has at least one entry. Table pointers are offsets into the profile buffer.
   */
  datatype SkCurve =
    | SkParametric(parametric: TransferFunction)
    | SkTable(entries: PositiveU32, table8: Option<nat>, table16: Option<nat>)
  {
    /** The shared table_entries / alias_of_table_entries word. */
    function TableEntries(): (n: u32)
      ensures n == 0 <==> SkParametric?
    {
      if SkParametric? then 0 else entries
    }
  }

  /** All bytes zero: table_entries 0 and an all-zero parametric member. */
  const ZeroCurve := SkParametric(ZeroTF)

  type Curves3 = s: seq<SkCurve> | |s| == 3
    witness [SkParametric(TransferFunction(0.0, 0.0, 0.0, 0.0, 0.0, 0.0, 0.0)),
             SkParametric(TransferFunction(0.0, 0.0, 0.0, 0.0, 0.0, 0.0, 0.0)),
             SkParametric(TransferFunction(0.0, 0.0, 0.0, 0.0, 0.0, 0.0, 0.0))]
  type Curves4 = s: seq<SkCurve> | |s| == 4
    witness [SkParametric(TransferFunction(0.0, 0.0, 0.0, 0.0, 0.0, 0.0, 0.0)),
             SkParametric(TransferFunction(0.0, 0.0, 0.0, 0.0, 0.0, 0.0, 0.0)),
             SkParametric(TransferFunction(0.0, 0.0, 0.0, 0.0, 0.0, 0.0, 0.0)),
             SkParametric(TransferFunction(0.0, 0.0, 0.0, 0.0, 0.0, 0.0, 0.0))]
  type Bytes4 = s: seq<byte> | |s| == 4 witness [0, 0, 0, 0]
  type Bytes16 = s: seq<byte> | |s| == 16 witness [0, 0, 0, 0, 0, 0, 0, 0, 0, 0, 0, 0, 0, 0, 0, 0]

  const ZeroCurves3: Curves3 := [ZeroCurve, ZeroCurve, ZeroCurve]
  const ZeroCurves4: Curves4 := [ZeroCurve, ZeroCurve, ZeroCurve, ZeroCurve]
  const ZeroBytes16: Bytes16 := [0, 0, 0, 0, 0, 0, 0, 0, 0, 0, 0, 0, 0, 0, 0, 0]

  /** skcms_A2B (skcms.h:65-85), a plain record; grid pointers are offsets or NULL. */
  datatype A2B = A2B(
    inputChannels: u32, inputCurves: Curves4, gridPoints: Bytes4, grid8: Option<nat>, grid16: Option<nat>,
    matrixChannels: u32, matrixCurves: Curves3, matrix: Matrix3x4,
    outputChannels: u32, outputCurves: Curves3)

  const ZeroA2B := A2B(0, ZeroCurves4, [0, 0, 0, 0], None, None, 0, ZeroCurves3, ZeroMatrix3x4, 0, ZeroCurves3)

  /** skcms_ICCTag (skcms.h:140-145): buf is the offset of the tag body in the profile buffer. */
  datatype Tag = Tag(signature: u32, tagType: u32, size: u32, buf: nat)

  /** The header fields the parser decodes into the profile (src/ICCProfile.c:551-573). */
  datatype Header = Header(
    size: u32, cmmType: u32, version: u32, profileClass: u32, dataColorSpace: u32, pcs: u32,
    creationDateTime: DateTime, signature: u32, platform: u32, flags: u32,
    deviceManufacturer: u32, deviceModel: u32, deviceAttributes: u64, renderingIntent: u32,
    illuminantX: real, illuminantY: real, illuminantZ: real, creator: u32,
    profileId: Bytes16, tagCount: u32)

  const ZeroHeader := Header(0, 0, 0, 0, 0, 0, ZeroDateTime, 0, 0, 0, 0, 0, 0, 0, 0.0, 0.0, 0.0, 0, ZeroBytes16, 0)

  /**
   * skcms_ICCProfile: a caller-owned record that the parser and the builders fill in place.
   * The fields decoded from the ICC header are grouped into one Header value, so p->pcs is
   * p.header.pcs here.
   */
  class ICCProfile {
    /** The borrowed profile bytes; None is a NULL buffer. */
    var buffer: Option<seq<byte>>
    var header: Header

    var hasTf: bool
    var tf: TransferFunction
    var hasToXYZD50: bool
    var toXYZD50: Matrix3x3
    var hasTrc: bool
    var trc: Curves3
    var hasA2B: bool
    var a2b: A2B

    /** Every field is zero, false or NULL, except the two colour-space signatures. */
    ghost predicate IsBlank(colorSpace: u32, connectionSpace: u32)
      reads this
    {
      && buffer == None
      && header == ZeroHeader.(dataColorSpace := colorSpace, pcs := connectionSpace)
      && !hasTf && tf == ZeroTF
      && !hasToXYZD50 && toXYZD50 == ZeroMatrix3x3
      && !hasTrc && trc == ZeroCurves3
      && !hasA2B && a2b == ZeroA2B
    }

    /** memset(p, 0, sizeof(*p)). */
    method Clear()
      modifies this
      ensures IsBlank(0, 0)
    {
      buffer, header := None, ZeroHeader;
      hasTf, tf := false, ZeroTF;
      hasToXYZD50, toXYZD50 := false, ZeroMatrix3x3;
      hasTrc, trc := false, ZeroCurves3;
      hasA2B, a2b := false, ZeroA2B;
    }

    /** skcms_Init: a blank RGB profile with an XYZ connection space. */
    method Init()
      modifies this
      ensures IsBlank(SignatureRGB, SignatureXYZ)
    {
      Clear();
      header := header.(dataColorSpace := SignatureRGB);
      header := header.(pcs := SignatureXYZ);
    }

    /**
     * skcms_SetTransferFunction: all three TRCs become the parametric curve tf. The frame names
     * only has_trc and trc, so every other field keeps its value.
     */
    method SetTransferFunction(tf: TransferFunction)
      modifies this`hasTrc, this`trc
      ensures hasTrc
      ensures forall i | 0 <= i < 3 :: trc[i].TableEntries() == 0 && trc[i] == SkParametric(tf)
    {
      hasTrc := true;
      for i := 0 to 3
        invariant hasTrc
        invariant forall k | 0 <= k < i :: trc[k] == SkParametric(tf)
      {
        // table_entries := 0 selects the parametric member, which is then overwritten with *tf.
        trc := trc[i := SkParametric(tf)];
      }
    }

    /** skcms_SetXYZD50: records m as the profile's gamut matrix; nothing else changes. */
    method SetXYZD50(m: Matrix3x3)
      modifies this`hasToXYZD50, this`toXYZD50
      ensures hasToXYZD50 && toXYZD50 == m
    {
      hasToXYZD50 := true;
      toXYZD50 := m;
    }
  }
}
