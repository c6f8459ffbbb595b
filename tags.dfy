/**
 * The tag directory (ICC.1:2010 section 7.3): tag_count 12-byte entries right after the
 * 132-byte header, each a signature, an offset and a size (src/ICCProfile.c:100-108, 512-535).
 */
module TagTable {
  import opened Wrappers
  import opened Bytes
  import opened Layout
  import opened Skcms

  /** get_tag_table()[i]: where directory entry i starts. */
  function EntryStart(i: nat): nat
  {
    HeaderSize + TagEntrySize * i
  }

  /** The whole directory of count entries lies inside buf. */
  predicate TableFits(buf: seq<byte>, count: nat)
  {
    HeaderSize + TagEntrySize * count <= |buf|
  }

  function EntrySignature(buf: seq<byte>, i: nat): u32
    requires EntryStart(i) + TagEntrySize <= |buf|
  {
    ReadBigU32(buf, EntryStart(i))
  }

  function EntryOffset(buf: seq<byte>, i: nat): u32
    requires EntryStart(i) + TagEntrySize <= |buf|
  {
    ReadBigU32(buf, EntryStart(i) + 4)
  }

  function EntrySize(buf: seq<byte>, i: nat): u32
    requires EntryStart(i) + TagEntrySize <= |buf|
  {
    ReadBigU32(buf, EntryStart(i) + 8)
  }

  /**
   * What the lookups rely on: the directory fits and every entry names at least 4 bytes
   * inside the buffer (so reading its type is safe). skcms_Parse establishes it.
   */
  predicate TagsInBounds(buf: seq<byte>, count: nat)
  {
    && TableFits(buf, count)
    && forall i | 0 <= i < count :: 4 <= EntrySize(buf, i) && EntryOffset(buf, i) + EntrySize(buf, i) <= |buf|
  }

  /** The profile as the lookups need it: either no buffer, or a directory in bounds. */
  ghost predicate Readable(p: ICCProfile)
    reads p
  {
    p.buffer.Some? ==> TagsInBounds(p.buffer.value, p.header.tagCount)
  }

  /** The skcms_ICCTag view of entry i: its body lies inside the buffer and holds at least the type. */
  function EntryTag(buf: seq<byte>, count: nat, i: nat): (t: Tag)
    requires TagsInBounds(buf, count) && i < count
    ensures t.buf == EntryOffset(buf, i) && t.size == EntrySize(buf, i) && t.signature == EntrySignature(buf, i)
    ensures 4 <= t.size && t.buf + t.size <= |buf|
    ensures t.tagType == ReadBigU32(buf, t.buf)
  {
    var off := EntryOffset(buf, i);
    Tag(EntrySignature(buf, i), ReadBigU32(buf, off), EntrySize(buf, i), off)
  }

  /** The lowest index at or after i whose signature is sig. */
  function FirstMatchFrom(buf: seq<byte>, count: nat, sig: u32, i: nat): (r: Option<nat>)
    requires TableFits(buf, count) && i <= count
    ensures r.Some? ==> i <= r.value < count && EntrySignature(buf, r.value) == sig
    ensures r.Some? ==> forall j | i <= j < r.value :: EntrySignature(buf, j) != sig
    ensures r.None? ==> forall j | i <= j < count :: EntrySignature(buf, j) != sig
    decreases count - i
  {
    if i == count then None
    else if EntrySignature(buf, i) == sig then Some(i)
    else FirstMatchFrom(buf, count, sig, i + 1)
  }

  /** The lowest-index directory entry with signature sig, if any. */
  function FindTag(buf: seq<byte>, count: nat, sig: u32): (r: Option<Tag>)
    requires TagsInBounds(buf, count)
    ensures r.Some? ==> r.value.signature == sig && 4 <= r.value.size && r.value.buf + r.value.size <= |buf|
    ensures r.Some? ==> r.value.tagType == ReadBigU32(buf, r.value.buf)
  {
    match FirstMatchFrom(buf, count, sig, 0)
    case None => None
    case Some(i) => Some(EntryTag(buf, count, i))
  }

  /** FindTag answers with the first matching entry, and answers None exactly when no entry matches. */
  lemma FindTagIsFirstMatch(buf: seq<byte>, count: nat, sig: u32)
    requires TagsInBounds(buf, count)
    ensures FindTag(buf, count, sig).None? <==> forall j | 0 <= j < count :: EntrySignature(buf, j) != sig
    ensures forall i | 0 <= i < count && EntrySignature(buf, i) == sig && (forall j | 0 <= j < i :: EntrySignature(buf, j) != sig)
              :: FindTag(buf, count, sig) == Some(EntryTag(buf, count, i))
  {
    var r := FirstMatchFrom(buf, count, sig, 0);
    forall i | 0 <= i < count && EntrySignature(buf, i) == sig && (forall j | 0 <= j < i :: EntrySignature(buf, j) != sig)
      ensures r == Some(i)
    {
    }
  }

  /**
   * skcms_GetTagBySignature: a linear scan of the directory for sig. On a match *tag receives
   * the entry; otherwise *tag keeps the caller's value (prior) and the result is false.
   */
  method GetTagBySignature(p: ICCProfile, sig: u32, prior: Tag) returns (found: bool, tag: Tag)
    requires Readable(p)
    ensures p.buffer.None? ==> !found && tag == prior
    ensures p.buffer.Some? ==> found == FindTag(p.buffer.value, p.header.tagCount, sig).Some?
    ensures p.buffer.Some? && found ==> tag == FindTag(p.buffer.value, p.header.tagCount, sig).value
    ensures !found ==> tag == prior
  {
    tag := prior;
    if p.buffer.None? {
      return false, tag;
    }
    var buf := p.buffer.value;
    var count: nat := p.header.tagCount;
    for i := 0 to count
      invariant forall j | 0 <= j < i :: EntrySignature(buf, j) != sig
    {
      if EntrySignature(buf, i) == sig {
        var off := EntryOffset(buf, i);
        tag := Tag(sig, ReadBigU32(buf, off), EntrySize(buf, i), off);
        FindTagIsFirstMatch(buf, count, sig);
        return true, tag;
      }
    }
    FindTagIsFirstMatch(buf, count, sig);
    found := false;
  }

  /** The lookup on a profile: a NULL buffer has no tags. */
  function ProfileTag(buf: Option<seq<byte>>, count: nat, sig: u32): (r: Option<Tag>)
    requires buf.Some? ==> TagsInBounds(buf.value, count)
    ensures buf.None? ==> r.None?
    ensures r.Some? ==> r.value.signature == sig && r.value.buf + r.value.size <= |buf.value|
  {
    if buf.None? then None else FindTag(buf.value, count, sig)
  }

  /** skcms_GetTagBySignature with its out-parameter and verdict folded into one optional tag. */
  method LookupTag(p: ICCProfile, sig: u32) returns (t: Option<Tag>)
    requires Readable(p)
    ensures t == ProfileTag(p.buffer, p.header.tagCount, sig)
  {
    var found, tag := GetTagBySignature(p, sig, Tag(0, 0, 0, 0));
    t := if found then Some(tag) else None;
  }

  /**
   * The guard of skcms_GetTagByIndex as written (src/ICCProfile.c:514): the function goes on to
   * read entry idx unless idx > tag_count, so idx == tag_count is read.
   */
  predicate IndexGuardAsWritten(count: nat, idx: nat)
  {
    !(idx > count)
  }

  /**
   * skcms_GetTagByIndex with the guard corrected to idx >= tag_count: entries 0 .. tag_count - 1
   * are returned verbatim; any other index, or a NULL buffer, leaves *tag (prior) untouched.
   */
  method GetTagByIndex(p: ICCProfile, idx: u32, prior: Tag) returns (tag: Tag)
    requires Readable(p)
    ensures p.buffer.Some? && idx < p.header.tagCount ==> tag == EntryTag(p.buffer.value, p.header.tagCount, idx)
    ensures p.buffer.None? || idx >= p.header.tagCount ==> tag == prior
  {
    tag := prior;
    if p.buffer.None? || idx >= p.header.tagCount {
      return;
    }
    var buf := p.buffer.value;
    var off := EntryOffset(buf, idx);
    tag := Tag(EntrySignature(buf, idx), ReadBigU32(buf, off), EntrySize(buf, idx), off);
  }
}
