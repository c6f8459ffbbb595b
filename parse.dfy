/**
 * skcms_Parse (src/ICCProfile.c:537-608): decode the 132-byte ICC header of ICC.1:2010
 * section 7.2 (with the tag count that starts the tag table), validate it and the tag
 * directory, and pre-parse the transfer function and the gamut matrix.
 */
module Parse {
  import opened Wrappers
  import opened Bytes
  import opened Layout
  import opened Skcms
  import opened TagTable
  import opened Facets

  /** The header fields at their ICC offsets; profile_id is copied verbatim, the 28 reserved bytes are skipped. */
  function DecodeHeader(buf: seq<byte>): Header
    requires HeaderSize <= |buf|
  {
    Header(
      ReadBigU32(buf, 0), ReadBigU32(buf, 4), ReadBigU32(buf, 8), ReadBigU32(buf, 12),
      ReadBigU32(buf, 16), ReadBigU32(buf, 20), ReadBigDateTime(buf, 24), ReadBigU32(buf, 36),
      ReadBigU32(buf, 40), ReadBigU32(buf, 44), ReadBigU32(buf, 48), ReadBigU32(buf, 52),
      ReadBigU64(buf, 56), ReadBigU32(buf, 64),
      ReadBigFixed(buf, 68), ReadBigFixed(buf, 72), ReadBigFixed(buf, 76),
      ReadBigU32(buf, 80), buf[84..100], ReadBigU32(buf, 128))
  }

  /**
   * The header checks: the 'acsp' magic, a declared size within the len bytes given and large
   * enough for the header and the tag table, and major version at most 4.
   */
  predicate HeaderValid(h: Header, len: nat)
  {
    && h.signature == SigAcsp
    && h.size <= len
    && HeaderSize + TagEntrySize * h.tagCount <= h.size
    && h.version / 0x100_0000 <= 4
  }

  function Abs(x: real): real
  {
    if x < 0.0 then -x else x
  }

  /** The illuminant is D50 white, each coordinate within 0.01 of (0.9642, 1.0, 0.8249). */
  predicate IlluminantIsD50(h: Header)
  {
    && Abs(h.illuminantX - 0.9642) <= 0.01
    && Abs(h.illuminantY - 1.0) <= 0.01
    && Abs(h.illuminantZ - 0.8249) <= 0.01
  }

  /** Every directory entry names at least 4 bytes, ending by the declared profile size. */
  predicate DirectoryValid(buf: seq<byte>, h: Header)
    requires TableFits(buf, h.tagCount)
  {
    forall i | 0 <= i < h.tagCount :: 4 <= EntrySize(buf, i) && EntryOffset(buf, i) + EntrySize(buf, i) <= h.size
  }

  /** The buffers skcms_Parse accepts. */
  predicate ParseAccepts(buf: seq<byte>)
  {
    && HeaderSize <= |buf|
    && HeaderValid(DecodeHeader(buf), |buf|)
    && IlluminantIsD50(DecodeHeader(buf))
    && DirectoryValid(buf, DecodeHeader(buf))
  }

  /**
   * An accepted profile's tags are all readable: the directory fits, and every entry holds at
   * least its type and ends inside the buffer. The C sums (132 + 12 * tag_count and
   * offset + size, both in uint64) are exact.
   */
  lemma AcceptedTagsInBounds(buf: seq<byte>)
    requires ParseAccepts(buf)
    ensures TagsInBounds(buf, DecodeHeader(buf).tagCount)
    ensures HeaderSize + TagEntrySize * DecodeHeader(buf).tagCount < 0x1_0000_0000_0000_0000
    ensures forall i | 0 <= i < DecodeHeader(buf).tagCount ::
      EntryOffset(buf, i) + EntrySize(buf, i) <= DecodeHeader(buf).size <= |buf|
  {
  }

  /**
   * On every accepted profile the guard of skcms_GetTagByIndex as written differs from the
   * corrected one (idx < tag_count) at exactly one index, tag_count itself. The entry read there
   * starts where the directory ends, so it lies past the declared profile whenever the profile
   * ends with its directory, and past the buffer whenever the buffer does.
   */
  lemma IndexGuardPastDirectory(buf: seq<byte>)
    requires ParseAccepts(buf)
    ensures var n := DecodeHeader(buf).tagCount;
      forall idx: nat :: (IndexGuardAsWritten(n, idx) && !(idx < n)) <==> idx == n
    ensures var n := DecodeHeader(buf).tagCount;
      && EntryStart(n) == HeaderSize + TagEntrySize * n
      && (DecodeHeader(buf).size == HeaderSize + TagEntrySize * n ==> EntryStart(n) + TagEntrySize > DecodeHeader(buf).size)
      && (|buf| == HeaderSize + TagEntrySize * n ==> EntryStart(n) + TagEntrySize > |buf|)
  {
  }

  /**
   * Byte i of a 132-byte profile with an empty tag directory: declared size 132, 'acsp',
   * version 0, the D50 illuminant stored as the s15.16 words 0x0000F6D6, 0x00010000 and
   * 0x0000D32D, and zero elsewhere.
   */
  function MinimalProfileByte(i: nat): byte
  {
    if i == 3 then 132
    else if i == 36 then 0x61 else if i == 37 then 0x63 else if i == 38 then 0x73 else if i == 39 then 0x70
    else if i == 70 then 0xF6 else if i == 71 then 0xD6
    else if i == 73 then 0x01
    else if i == 78 then 0xD3 else if i == 79 then 0x2D
    else 0
  }

  function MinimalProfile(): (s: seq<byte>)
    ensures |s| == HeaderSize
  {
    seq(HeaderSize, i requires 0 <= i < HeaderSize => MinimalProfileByte(i))
  }

  /**
   * The smallest accepted profile: a bare header whose tag count is 0. The guard of
   * skcms_GetTagByIndex as written lets index 0 through on it, and entry 0 would lie past
   * the end of the buffer.
   */
  lemma MinimalProfileAccepted(s: seq<byte>)
    requires s == MinimalProfile()
    ensures ParseAccepts(s)
    ensures DecodeHeader(s).tagCount == 0
    ensures IndexGuardAsWritten(DecodeHeader(s).tagCount, 0)
    ensures |s| == DecodeHeader(s).size == HeaderSize + TagEntrySize * DecodeHeader(s).tagCount
    ensures |s| < EntryStart(0) + TagEntrySize
  {
    var h := DecodeHeader(s);
    assert s[0] == 0 && s[1] == 0 && s[2] == 0 && s[3] == 132;
    assert s[8] == 0 && s[9] == 0 && s[10] == 0 && s[11] == 0;
    assert s[36] == 0x61 && s[37] == 0x63 && s[38] == 0x73 && s[39] == 0x70;
    assert s[68] == 0 && s[69] == 0 && s[70] == 0xF6 && s[71] == 0xD6;
    assert s[72] == 0 && s[73] == 1 && s[74] == 0 && s[75] == 0;
    assert s[76] == 0 && s[77] == 0 && s[78] == 0xD3 && s[79] == 0x2D;
    assert s[128] == 0 && s[129] == 0 && s[130] == 0 && s[131] == 0;
    assert h.size == 132 && h.version == 0 && h.tagCount == 0;
    assert h.signature == SigAcsp;
    assert h.illuminantX == 63190.0 / 65536.0;
    assert h.illuminantY == 1.0;
    assert h.illuminantZ == 54061.0 / 65536.0;
  }

  /**
   * Word k of a header written as the 33 big-endian words of its 132 bytes: u16 pairs and the
   * u64 split into words, the illuminant as the raw s15.16 words ix, iy and iz, profile_id
   * packed four bytes to a word, and the 28 reserved bytes zero.
   */
  function HeaderWord(h: Header, ix: i32, iy: i32, iz: i32, k: nat): u32
  {
    var t, id := h.creationDateTime, h.profileId;
    match k
    case 0 => h.size
    case 1 => h.cmmType
    case 2 => h.version
    case 3 => h.profileClass
    case 4 => h.dataColorSpace
    case 5 => h.pcs
    case 6 => t.year * 0x1_0000 + t.month
    case 7 => t.day * 0x1_0000 + t.hour
    case 8 => t.minute * 0x1_0000 + t.second
    case 9 => h.signature
    case 10 => h.platform
    case 11 => h.flags
    case 12 => h.deviceManufacturer
    case 13 => h.deviceModel
    case 14 => h.deviceAttributes / 0x1_0000_0000
    case 15 => h.deviceAttributes % 0x1_0000_0000
    case 16 => h.renderingIntent
    case 17 => TwosComplement(ix)
    case 18 => TwosComplement(iy)
    case 19 => TwosComplement(iz)
    case 20 => h.creator
    case 21 => MakeSignature(id[0], id[1], id[2], id[3])
    case 22 => MakeSignature(id[4], id[5], id[6], id[7])
    case 23 => MakeSignature(id[8], id[9], id[10], id[11])
    case 24 => MakeSignature(id[12], id[13], id[14], id[15])
    case 32 => h.tagCount
    case _ => 0
  }

  /** The 132 bytes of a header: its 33 words, big-endian. */
  function EncodeHeader(h: Header, ix: i32, iy: i32, iz: i32): (s: seq<byte>)
    ensures |s| == HeaderSize
  {
    EncodeU32s(seq(HeaderSize / 4, k requires 0 <= k < HeaderSize / 4 => HeaderWord(h, ix, iy, iz, k)))
  }

  /** The u32 at 4k of an encoded header is its word k. */
  lemma ReadHeaderWord(h: Header, ix: i32, iy: i32, iz: i32, k: nat)
    requires k < HeaderSize / 4
    ensures ReadBigU32(EncodeHeader(h, ix, iy, iz), 4 * k) == HeaderWord(h, ix, iy, iz, k)
  {
    ReadEncodedU32s(seq(HeaderSize / 4, k requires 0 <= k < HeaderSize / 4 => HeaderWord(h, ix, iy, iz, k)), k);
  }

  /** Four packed bytes of profile_id read back from an encoded header. */
  lemma ProfileIdWord(s: seq<byte>, id: Bytes16, q: nat)
    requires q < 4 && 100 <= |s|
    requires ReadBigU32(s, 84 + 4 * q) == MakeSignature(id[4 * q], id[4 * q + 1], id[4 * q + 2], id[4 * q + 3])
    ensures s[84 + 4 * q] == id[4 * q] && s[85 + 4 * q] == id[4 * q + 1]
    ensures s[86 + 4 * q] == id[4 * q + 2] && s[87 + 4 * q] == id[4 * q + 3]
  {
    var o := 84 + 4 * q;
    ReadBigU32Layout(s, o);
    MakeSignatureBytes(s[o], s[o + 1], s[o + 2], s[o + 3]);
    MakeSignatureBytes(id[4 * q], id[4 * q + 1], id[4 * q + 2], id[4 * q + 3]);
  }

  /** The date-time and the u64 come back from their words. */
  lemma HeaderWideFields(h: Header, ix: i32, iy: i32, iz: i32)
    ensures ReadBigDateTime(EncodeHeader(h, ix, iy, iz), 24) == h.creationDateTime
    ensures ReadBigU64(EncodeHeader(h, ix, iy, iz), 56) == h.deviceAttributes
  {
    var s := EncodeHeader(h, ix, iy, iz);
    ReadHeaderWord(h, ix, iy, iz, 6);
    ReadHeaderWord(h, ix, iy, iz, 7);
    ReadHeaderWord(h, ix, iy, iz, 8);
    ReadBigU32Layout(s, 24);
    ReadBigU32Layout(s, 28);
    ReadBigU32Layout(s, 32);
    ReadHeaderWord(h, ix, iy, iz, 14);
    ReadHeaderWord(h, ix, iy, iz, 15);
  }

  /** The illuminant comes back as the exact values of its three s15.16 words. */
  lemma HeaderIlluminant(h: Header, ix: i32, iy: i32, iz: i32)
    requires h.illuminantX * 65536.0 == ix as real
    requires h.illuminantY * 65536.0 == iy as real
    requires h.illuminantZ * 65536.0 == iz as real
    ensures ReadBigFixed(EncodeHeader(h, ix, iy, iz), 68) == h.illuminantX
    ensures ReadBigFixed(EncodeHeader(h, ix, iy, iz), 72) == h.illuminantY
    ensures ReadBigFixed(EncodeHeader(h, ix, iy, iz), 76) == h.illuminantZ
  {
    ReadHeaderWord(h, ix, iy, iz, 17);
    ReadHeaderWord(h, ix, iy, iz, 18);
    ReadHeaderWord(h, ix, iy, iz, 19);
  }

  /** profile_id comes back from its four words. */
  lemma HeaderProfileId(h: Header, ix: i32, iy: i32, iz: i32)
    ensures EncodeHeader(h, ix, iy, iz)[84..100] == h.profileId
  {
    var s, id := EncodeHeader(h, ix, iy, iz), h.profileId;
    forall j | 0 <= j < 16
      ensures s[84 + j] == id[j]
    {
      ReadHeaderWord(h, ix, iy, iz, 21 + j / 4);
      ProfileIdWord(s, id, j / 4);
    }
  }

  /**
   * DecodeHeader inverts EncodeHeader: every field the parser reads comes back, the
   * illuminant as the exact value of its s15.16 word.
   */
  lemma HeaderRoundTrip(h: Header, ix: i32, iy: i32, iz: i32)
    requires h.illuminantX * 65536.0 == ix as real
    requires h.illuminantY * 65536.0 == iy as real
    requires h.illuminantZ * 65536.0 == iz as real
    ensures DecodeHeader(EncodeHeader(h, ix, iy, iz)) == h
  {
    HeaderWideFields(h, ix, iy, iz);
    HeaderIlluminant(h, ix, iy, iz);
    HeaderProfileId(h, ix, iy, iz);
    ReadHeaderWord(h, ix, iy, iz, 0);
    ReadHeaderWord(h, ix, iy, iz, 1);
    ReadHeaderWord(h, ix, iy, iz, 2);
    ReadHeaderWord(h, ix, iy, iz, 3);
    ReadHeaderWord(h, ix, iy, iz, 4);
    ReadHeaderWord(h, ix, iy, iz, 5);
    ReadHeaderWord(h, ix, iy, iz, 9);
    ReadHeaderWord(h, ix, iy, iz, 10);
    ReadHeaderWord(h, ix, iy, iz, 11);
    ReadHeaderWord(h, ix, iy, iz, 12);
    ReadHeaderWord(h, ix, iy, iz, 13);
    ReadHeaderWord(h, ix, iy, iz, 16);
    ReadHeaderWord(h, ix, iy, iz, 20);
    ReadHeaderWord(h, ix, iy, iz, 32);
  }

  /** The directory loop of skcms_Parse: entry by entry, stopping at the first one that is too small or ends too late. */
  method CheckTagDirectory(buf: seq<byte>, h: Header) returns (ok: bool)
    requires TableFits(buf, h.tagCount)
    ensures ok == DirectoryValid(buf, h)
  {
    for i := 0 to h.tagCount
      invariant forall j | 0 <= j < i :: 4 <= EntrySize(buf, j) && EntryOffset(buf, j) + EntrySize(buf, j) <= h.size
    {
      var tagOffset := EntryOffset(buf, i);
      var tagSize := EntrySize(buf, i);
      var tagEnd := tagOffset as nat + tagSize as nat;
      if tagSize < 4 || tagEnd > h.size as nat {
        return false;
      }
    }
    return true;
  }

  /**
   * The checks of skcms_Parse, in its order, on the header decoded from buf: magic, size and
   * version, then the D50 illuminant, then every directory entry.
   */
  method ValidateProfile(buf: seq<byte>, h: Header) returns (ok: bool)
    requires HeaderSize <= |buf| && h == DecodeHeader(buf)
    ensures ok == ParseAccepts(buf)
  {
    var tagTableSize := h.tagCount as nat * TagEntrySize;
    if h.signature != SigAcsp || h.size as nat > |buf| || (h.size as nat) < HeaderSize + tagTableSize || h.version / 0x100_0000 > 4 {
      return false;
    }
    if Abs(h.illuminantX - 0.9642) > 0.01 || Abs(h.illuminantY - 1.0) > 0.01 || Abs(h.illuminantZ - 0.8249) > 0.01 {
      return false;
    }
    ok := CheckTagDirectory(buf, h);
  }

  /**
   * The first part of skcms_Parse: the profile is zeroed, and a buffer long enough for a
   * header is recorded with its decoded header.
   */
  method ParseHeader(buf: seq<byte>, p: ICCProfile) returns (long: bool)
    modifies p
    ensures long == (HeaderSize <= |buf|)
    ensures !long ==> p.IsBlank(0, 0)
    ensures long ==> p.buffer == Some(buf) && p.header == DecodeHeader(buf)
    ensures !p.hasTf && p.tf == ZeroTF && !p.hasToXYZD50 && p.toXYZD50 == ZeroMatrix3x3
    ensures !p.hasTrc && p.trc == ZeroCurves3 && !p.hasA2B && p.a2b == ZeroA2B
  {
    p.Clear();
    if |buf| < HeaderSize {
      return false;
    }
    p.buffer, p.header := Some(buf), DecodeHeader(buf);
    return true;
  }

  /**
   * skcms_Parse on the len = |buf| bytes of buf. The profile is zeroed first; a buffer too short
   * for a header leaves it zeroed. Otherwise the buffer and the header are recorded whatever the
   * verdict, and the verdict is ParseAccepts. An accepted profile carries the pre-parsed
   * transfer function and gamut matrix (whose verdicts do not affect the result); a rejected
   * one has them zero. The TRC and A2B fields stay zero.
   */
  method Parse(buf: seq<byte>, p: ICCProfile) returns (ok: bool)
    modifies p
    ensures |buf| < HeaderSize ==> !ok && p.IsBlank(0, 0)
    ensures HeaderSize <= |buf| ==> p.buffer == Some(buf) && p.header == DecodeHeader(buf)
    ensures ok == ParseAccepts(buf)
    ensures ok ==> Readable(p)
    ensures ok ==>
      && p.hasTf == TransferFunctionOf(p.buffer, p.header.tagCount).Some?
      && p.tf == (if p.hasTf then TransferFunctionOf(p.buffer, p.header.tagCount).value else ZeroTF)
      && (p.hasToXYZD50, p.toXYZD50) == ToXYZD50Of(p.buffer, p.header.tagCount, ZeroMatrix3x3)
    ensures !ok ==> !p.hasTf && p.tf == ZeroTF && !p.hasToXYZD50 && p.toXYZD50 == ZeroMatrix3x3
    ensures !p.hasTrc && p.trc == ZeroCurves3 && !p.hasA2B && p.a2b == ZeroA2B
  {
    ok := ParseHeader(buf, p);
    if !ok {
      return;
    }
    ok := ValidateProfile(buf, p.header);
    if !ok {
      return;
    }
    AcceptedTagsInBounds(buf);
    p.hasTf, p.tf, p.hasToXYZD50, p.toXYZD50 := PreParse(p);
  }

  /**
   * The last step of skcms_Parse: the verdicts and values of get_transfer_function (over a zero
   * prior) and read_to_XYZD50 (over a zero matrix) on the profile as parsed so far.
   */
  method PreParse(p: ICCProfile) returns (hasTf: bool, tf: TransferFunction, hasToXYZD50: bool, toXYZD50: Matrix3x3)
    requires Readable(p)
    ensures hasTf == TransferFunctionOf(p.buffer, p.header.tagCount).Some?
    ensures tf == (if hasTf then TransferFunctionOf(p.buffer, p.header.tagCount).value else ZeroTF)
    ensures (hasToXYZD50, toXYZD50) == ToXYZD50Of(p.buffer, p.header.tagCount, ZeroMatrix3x3)
  {
    hasTf, tf := GetTransferFunction(p, ZeroTF);
    hasToXYZD50, toXYZD50 := ReadToXYZD50(p, ZeroMatrix3x3);
  }
}
