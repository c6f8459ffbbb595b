/**
 * Byte layouts and four-character signatures used by src/ICCProfile.c, following
 * ICC.1:2010 section 7.2 (profile header), section 7.3 (tag table) and clause 10 (tag types).
 * The sizes are the literal struct sizes the C code obtains with SAFE_SIZEOF.
 */
module Layout {
  import opened Bytes

  /** header_Layout: the 128-byte header plus the 4-byte tag count. */
  const HeaderSize: nat := 132
  /** tag_Layout: signature, offset, size. */
  const TagEntrySize: nat := 12
  /** XYZ_Layout: type, reserved, X, Y, Z. */
  const XyzSize: nat := 20
  /** para_Layout without its parameters: type, reserved, function type, reserved. */
  const ParaHeaderSize: nat := 12
  /** curv_Layout without its entries: type, reserved, value count. */
  const CurvHeaderSize: nat := 12
  /** mft1_Layout: the shared mft header (type, reserved, three channel bytes, pad, 3x3 matrix). */
  const Mft1HeaderSize: nat := 48
  /** mft2_Layout: the shared header plus two u16 table sizes. */
  const Mft2HeaderSize: nat := 52

  /** A four-character code packed as make_signature does. */
  function FourCC(s: string): u32
    requires |s| == 4 && forall i | 0 <= i < 4 :: s[i] as int < 0x100
  {
    MakeSignature(s[0] as int, s[1] as int, s[2] as int, s[3] as int)
  }

  const SigAcsp: u32 := FourCC("acsp")
  const SigPara: u32 := FourCC("para")
  const SigCurv: u32 := FourCC("curv")
  const SigXYZType: u32 := FourCC("XYZ ")
  const SigRXYZ: u32 := FourCC("rXYZ")
  const SigGXYZ: u32 := FourCC("gXYZ")
  const SigBXYZ: u32 := FourCC("bXYZ")
  const SigRTRC: u32 := FourCC("rTRC")
  const SigGTRC: u32 := FourCC("gTRC")
  const SigBTRC: u32 := FourCC("bTRC")
  const SigA2B0: u32 := FourCC("A2B0")
  const SigMft1: u32 := FourCC("mft1")
  const SigMft2: u32 := FourCC("mft2")

  /** skcms_Signature_RGB and skcms_Signature_XYZ (skcms.h:151-160). */
  const SignatureRGB: u32 := 0x52474220
  const SignatureXYZ: u32 := 0x58595A20

  /** The enum values are the packed codes 'RGB ' and 'XYZ '; the XYZ tag type is the same code. */
  lemma SignatureConstants()
    ensures SignatureRGB == FourCC("RGB ")
    ensures SignatureXYZ == FourCC("XYZ ") == SigXYZType
    ensures SigPara != SigCurv && SigMft1 != SigMft2
  {
  }
}
