# skcms ICC profile parser — a Dafny model

This project models the ICC profile front end of skcms. That is `skcms_Parse` and the readers it relies on in `src/ICCProfile.c`, plus the profile records and inline builders of `skcms.h`.

`skcms_Parse` works in four steps:

1. It **decodes** the 132-byte ICC header (ICC.1:2010 section 7.2), together with the tag count that opens the tag table.
2. It **checks the header**:
   - the `acsp` magic;
   - a declared size that is no larger than the buffer and large enough for the tag table;
   - a major version of at most 4;
   - a D50 illuminant.
3. It **checks every tag-directory entry**: each must hold at least 4 bytes and end within the declared size.
4. It **pre-parses two facets**:
   - a single parametric transfer function shared by the `rTRC`, `gTRC` and `bTRC` tags;
   - the `rXYZ`, `gXYZ` and `bXYZ` columns of the gamut matrix.

The module also provides lookups and decoders built on the accepted directory:

- tag lookup by index and by signature;
- the `para` and `curv` curve decoders;
- the `mft1`/`mft2` (lut8/lut16) A2B0 decoder, which computes where the input tables, the colour grid and the output tables lie;
- the merge step of `skcms_ApproximateTransferFunction`, which flattens three sampled TRC tables into one (x, t) sample list.

How the model represents the C code:

- **Buffer and pointers.** The profile buffer is a `seq<byte>`, and pointers into it are offsets. NULL is `None`.
- **Numbers.** The C floats written by `read_big_fixed` are exact reals: raw s15.16 divided by 65536. Every integer width of the source is a subset type (`u16`, `u32`, `i32`, `u64`).
- **Structs modelled as classes.** Three of the structs that C fills through pointers are classes: `skcms_ICCProfile`, the local `Curve` struct and `skcms_MultiFunctionTable`. Each field the source writes is a class field, and each class has a `State()` value.
- **Other out-parameters become returned values.** The remaining out-parameters are values that the function or method returns. Where C can return without writing an out-parameter, the caller's prior value is a parameter and comes back unchanged on that path:
  - `skcms_ICCTag*` in `TagTable.GetTagBySignature` and `TagTable.GetTagByIndex`;
  - the `float* x, y, z` of `read_tag_xyz`, which become the `Option<XYZ>` of `Facets.ReadTagXYZ`;
  - `skcms_Matrix3x3*` in `Facets.ReadToXYZD50` and `Facets.ToXYZD50Of`;
  - `skcms_TransferFunction*` in `Facets.GetTransferFunction`;
  - `skcms_TransferFunction*` and `float* max_error` in `Facets.ApproximateTransferFunction`.
- **Each filling method has a specification function.** The method that fills the fields is proved equal to a pure function on the buffer and the prior state: `DecodeCurve`, `ToXYZD50Of`, `TransferFunctionOf`, `ReadMft1Of`/`ReadMft2Of` and `MultiFunctionTableOf`. `Parse` is specified in several parts. Its verdict is `ParseAccepts`. The recorded header is `DecodeHeader`. The two pre-parsed facets are `TransferFunctionOf` and `ToXYZD50Of`.
- **Partners.** The properties of those functions are proved as lemmas. Encoders and round trips are proved for:
  - the integer readers (both directions);
  - the date-time and the header;
  - the XYZ, para and curv bodies;
  - the 48-byte mft head.

  The tag directory, the lut16 table-size words and the lut table region have no encoder. The directory is related to its lookups by `FindTagIsFirstMatch` and `AcceptedTagsInBounds`. The table region is related to the tag body by `InitTablesLayout` and `MultiFunctionTableInsideTag`.

Modules and files:

| module | file | contents |
|---|---|---|
| `Bytes` (with `Wrappers`) | `bytes.dfy` | big-endian readers |
| `Layout` | `layout.dfy` | struct sizes and signatures |
| `Skcms` | `skcms.dfy` | the public records and the builders |
| `TagTable` | `tags.dfy` | the tag directory |
| `Curves` | `curves.dfy` | `read_curve*` |
| `Facets` | `facets.dfy` | the matrix, the TRCs and the approximation input |
| `Mft` | `mft.dfy` | the lut decoders |
| `Parse` | `parse.dfy` | `skcms_Parse` |

## Model

| member | source | states |
|---|---|---|
| Bytes.MakeSignature | src/ICCProfile.c:18-23 | the four bytes packed most significant first; the bytes are recovered in MakeSignatureBytes |
| Bytes.ReadBigU16 | src/ICCProfile.c:25-33 | the big-endian u16 at off; inverted by EncodeU16 and EncodeReadU16 |
| Bytes.ReadBigU32 | src/ICCProfile.c:35-43 | the big-endian u32 at off; inverted by EncodeU32 and EncodeReadU32 |
| Bytes.ReadBigI32 | src/ICCProfile.c:45-47 | the u32 at off reinterpreted as two's complement; inverted by EncodeI32 and EncodeReadI32 |
| Bytes.ReadBigU64 | src/ICCProfile.c:49-57 | the big-endian u64 at off; inverted by EncodeU64 and EncodeReadU64 |
| Bytes.ReadBigDateTime | src/ICCProfile.c:63-72 | the six big-endian u16 fields of a dateTimeNumber; inverted by EncodeDateTime in DateTimeRoundTrip |
| Bytes.MakeSignatureBytes | src/ICCProfile.c:18-23 | the four bytes packed by make_signature are recovered in order, a most significant |
| Bytes.ReadBigU16Bytes | src/ICCProfile.c:25-33 | the high byte of the u16 is buf[off] and the low byte buf[off+1] |
| Bytes.ReadBigU32Layout | src/ICCProfile.c:35-43 | a big-endian u32 is the signature of its four bytes, and its halves are the two big-endian u16 at off and off+2 |
| Bytes.ReadBigI32TwosComplement | src/ICCProfile.c:45-47 | the i32 reading agrees with the u32 reading modulo 2^32 and is negative exactly when the top bit is set |
| Bytes.ReadBigU64Halves | src/ICCProfile.c:49-57 | the u64 is the u32 at off in the high half and the u32 at off+4 in the low half |
| Bytes.ReadBigFixed | src/ICCProfile.c:59-61 | the value times 65536 is the signed word, so it lies in [-32768, 32768) |
| Bytes.TwosComplement | src/ICCProfile.c:45-47 | the u32 congruent to v modulo 2^32, whose top bit is set exactly when v is negative |
| Bytes.EncodeU16 | src/ICCProfile.c:25-33 | two bytes that read_big_u16 reads back as v |
| Bytes.EncodeU32 | src/ICCProfile.c:35-43 | four bytes that read_big_u32 reads back as v |
| Bytes.EncodeI32 | src/ICCProfile.c:45-47 | four bytes that read_big_i32 reads back as v |
| Bytes.EncodeU64 | src/ICCProfile.c:49-57 | eight bytes that read_big_u64 reads back as v |
| Bytes.EncodeReadU16 | src/ICCProfile.c:25-33 | encoding what read_big_u16 read gives back the two source bytes |
| Bytes.EncodeReadU32 | src/ICCProfile.c:35-43 | encoding what read_big_u32 read gives back the four source bytes |
| Bytes.EncodeReadI32 | src/ICCProfile.c:45-47 | encoding what read_big_i32 read gives back the four source bytes |
| Bytes.EncodeReadU64 | src/ICCProfile.c:49-57 | encoding what read_big_u64 read gives back the eight source bytes |
| Bytes.ReadEncodedU16s | src/ICCProfile.c:25-33 | element k of an encoded u16 array is read back at offset 2k |
| Bytes.ReadEncodedI32s | src/ICCProfile.c:45-47 | element k of an encoded i32 array is read back at offset 4k |
| Bytes.ReadEncodedU32s | src/ICCProfile.c:35-43 | element k of an encoded u32 array is read back at offset 4k |
| Bytes.DateTimeRoundTrip | src/ICCProfile.c:63-72 | read_big_date_time reads back all six u16 fields of an encoded dateTimeNumber |
| Layout.SignatureConstants | skcms.h:151-160 | skcms_Signature_RGB and skcms_Signature_XYZ are the packed codes 'RGB ' and 'XYZ ', the latter equal to the XYZ tag type |
| Skcms.SetEntry | skcms.h:26-28 | the matrix with entry (r, c) replaced and all eight others kept |
| Skcms.SkCurve.TableEntries | skcms.h:46-57 | the shared table_entries word is zero exactly for the parametric member of the union |
| Skcms.ICCProfile.Clear | src/ICCProfile.c:543 | every profile field is zero, false or NULL |
| Skcms.ICCProfile.Init | skcms.h:243-247 | a blank profile whose data colour space is RGB and whose PCS is XYZ |
| Skcms.ICCProfile.SetTransferFunction | skcms.h:249-256 | has_trc is set and all three TRCs are the parametric curve tf (table_entries 0); only has_trc and trc change |
| Skcms.ICCProfile.SetXYZD50 | skcms.h:258-261 | has_toXYZD50 is set and toXYZD50 is m; only those two fields change |
| TagTable.EntryStart | src/ICCProfile.c:106-108 | directory entry i starts 12·i bytes after the 132-byte header |
| TagTable.TableFits | src/ICCProfile.c:100-108 | all tag_count entries of the directory lie inside the buffer |
| TagTable.EntrySignature | src/ICCProfile.c:100-104 | the signature word of entry i, at its byte 0 |
| TagTable.EntryOffset | src/ICCProfile.c:100-104 | the offset word of entry i, at its byte 4 |
| TagTable.EntrySize | src/ICCProfile.c:100-104 | the size word of entry i, at its byte 8 |
| TagTable.TagsInBounds | src/ICCProfile.c:592-601 | the directory fits and every entry names at least 4 bytes inside the buffer; AcceptedTagsInBounds proves skcms_Parse establishes it |
| TagTable.EntryTag | src/ICCProfile.c:100-108 | entry i of the directory read as a tag: its signature, offset and size, a body of at least 4 bytes inside the buffer, and its type read from the body |
| TagTable.FirstMatchFrom | src/ICCProfile.c:525-533 | the first entry from i on whose signature is sig, or none when no later entry has it |
| TagTable.FindTag | src/ICCProfile.c:522-535 | a found tag carries the requested signature, lies inside the buffer and has its type read from its first word |
| TagTable.FindTagIsFirstMatch | src/ICCProfile.c:525-533 | the lookup fails exactly when no entry has the signature, and otherwise returns the first entry that has it |
| TagTable.GetTagBySignature | src/ICCProfile.c:522-535 | found exactly when the directory holds sig, then the first such entry; a NULL buffer or a miss leaves the caller's tag unchanged |
| TagTable.ProfileTag | src/ICCProfile.c:522-535 | the signature lookup on a possibly NULL buffer: NULL finds nothing |
| TagTable.LookupTag | src/ICCProfile.c:522-535 | the loop's result is ProfileTag |
| TagTable.GetTagByIndex | src/ICCProfile.c:512-520 | with the guard idx >= tag_count, an in-range index yields entry idx and anything else leaves the tag unchanged |
| Curves.Curve.constructor | src/ICCProfile.c:305 | a fresh Curve holds the zero parametric curve |
| Curves.ParamCount | src/ICCProfile.c:180 | the parameter count of each function type fills exactly the curve_bytes entry, at 4 bytes each |
| Curves.ParaParams | src/ICCProfile.c:193-226 | parameter k of the function type, times 65536, is the signed word at byte 12 + 4k of the body, so each lies in [-32768, 32768) |
| Curves.ParaFunction | src/ICCProfile.c:185-228 | g is always read. Type 0 is a pure power. Types 1 and 2 fail exactly when a = 0; on success d is where a·d + b = 0 and f makes c·d + f = e. Types 3 and 4 copy their parameters |
| Curves.DecodePara | src/ICCProfile.c:167-230 | untouched exactly when the header, the function type or the parameter bytes fail the checks; otherwise a parametric curve given by ParaFunction |
| Curves.ReadCurvePara | src/ICCProfile.c:167-230 | the Curve is left alone or overwritten with DecodePara's state, and the result is its success |
| Curves.DecodeCurv | src/ICCProfile.c:239-274 | untouched exactly when 12 + 2·count exceeds the size. Count 0 is the identity, count 1 a u8.8 gamma, and from 2 on a table of count samples at byte 12 |
| Curves.ReadCurveCurv | src/ICCProfile.c:239-274 | the Curve is left alone or overwritten with DecodeCurv's state, and it always succeeds when written |
| Curves.DecodeCurve | src/ICCProfile.c:277-290 | dispatch on 'para' and 'curv'; anything else or fewer than 4 bytes fails untouched; a table has at least 2 samples and lies inside the tag |
| Curves.ReadCurve | src/ICCProfile.c:277-290 | the Curve is left alone or overwritten with DecodeCurve's state, and the result is its success |
| Curves.EncodePara | src/ICCProfile.c:152-158 | a para body whose length is the header plus curve_bytes of its type |
| Curves.EncodeCurv | src/ICCProfile.c:232-237 | a curv body whose length is 12 + 2·count |
| Curves.EncodedParaHead | src/ICCProfile.c:172-176 | an encoded para body reads back as type 'para' with its own function type |
| Curves.EncodedParaParams | src/ICCProfile.c:193-226 | every parameter of an encoded para body reads back as its word divided by 65536 |
| Curves.ParaRoundTrip | src/ICCProfile.c:167-230 | an encoded para body decodes to its own type and parameters, and fails only for type 1 or 2 with a = 0 |
| Curves.CurvRoundTrip | src/ICCProfile.c:239-274 | an encoded curv body decodes successfully with its own count, gamma and samples |
| Facets.ReadTagXYZ | src/ICCProfile.c:120-136 | defined exactly for an 'XYZ ' tag of at least 20 bytes; X, Y and Z are the s15.16 words at 8, 12 and 16 |
| Facets.EncodeXYZ | src/ICCProfile.c:112-118 | a 20-byte XYZ body |
| Facets.XYZRoundTrip | src/ICCProfile.c:120-136 | an encoded XYZ body reads back its three coordinates |
| Facets.WithColumn | src/ICCProfile.c:129-133 | column c becomes v and the other two columns are kept |
| Facets.ColumnXYZ | src/ICCProfile.c:138-150 | a decoded column comes from a tag that the profile holds |
| Facets.DecodedColumns | src/ICCProfile.c:138-150 | how many leading columns decode: all of those before it decode, the next one does not |
| Facets.ToXYZD50Of | src/ICCProfile.c:138-150 | success exactly when all three columns decode, and then those are the matrix columns. A missing tag leaves the matrix unchanged. Otherwise the leading decodable columns are written before the failure, and the rest keep their prior value |
| Facets.ReadToXYZD50 | src/ICCProfile.c:138-150 | the result and the matrix are ToXYZD50Of |
| Facets.TrcCurve | src/ICCProfile.c:297-308 | a channel's curve comes from its TRC tag, decoded successfully |
| Facets.ParametricTrc | src/ICCProfile.c:306-308 | defined exactly when the channel's curve decodes with no table, and then it is that curve's parameters |
| Facets.TransferFunctionOf | src/ICCProfile.c:292-319 | defined exactly when all three channels are parametric and equal, and then it is their common function |
| Facets.GetTransferFunction | src/ICCProfile.c:292-319 | success is TransferFunctionOf being defined; on success its value is written, otherwise the caller's function is kept |
| Facets.ReadTrcCurve | src/ICCProfile.c:305-308 | a read_curve into a fresh Curve: success is DecodeCurve's success and the curve its state |
| Facets.ChannelX | src/ICCProfile.c:358-359 | n sample positions from 0 to 1 with x[i]·(n−1) = i |
| Facets.GridPoint | src/ICCProfile.c:359 | i/m is an exact grid point in [0, 1] |
| Facets.ChannelT | src/ICCProfile.c:360 | sample values with t[i]·65535 equal to the table's u16 i, all in [0, 1] |
| Facets.MergedX | src/ICCProfile.c:357-362 | the concatenated positions of the first c channels, one per sample, all in [0, 1] |
| Facets.MergedT | src/ICCProfile.c:357-362 | the concatenated values of the first c channels, one per sample, all in [0, 1] |
| Facets.PrefixSizeGrows | src/ICCProfile.c:357-362 | sample counts of channel prefixes never shrink |
| Facets.TotalSizeOfThree | src/ICCProfile.c:339-341 | n is the sum of the three table sizes |
| Facets.MergedLayout | src/ICCProfile.c:353-362 | sample i of channel c lands at prefix size + i in both halves, with that channel's position and value |
| Facets.TrcTable | src/ICCProfile.c:333-335 | defined exactly when the channel's curve is a table, which has at least 2 samples inside the buffer |
| Facets.TrcTables | src/ICCProfile.c:326-337 | defined exactly when all three channels are tables, and then it is those three tables |
| Facets.ApproximationInput | src/ICCProfile.c:321-366 | defined exactly when all three TRCs are tables with n ≤ INT_MAX and 8n fitting size_t; the merged positions and values |
| Facets.ApproximateTransferFunction | src/ICCProfile.c:321-370 | when the input is undefined, false with the caller's function and error kept; otherwise the fit applied to the merged samples |
| Facets.MergeSamples | src/ICCProfile.c:353-365 | the two halves filled by the merge loops are exactly MergedX and MergedT |
| Facets.MergeChannel | src/ICCProfile.c:358-361 | one channel's positions and values are appended after cursor xi; what precedes xi and what follows the channel is kept |
| Mft.MftMatrix | src/ICCProfile.c:396-402 | entry (r, c) times 65536 is the signed word at byte 12 + 12r + 4c |
| Mft.ReadMftMatrix | src/ICCProfile.c:396-402 | the nine nested-loop reads fill the matrix with MftMatrix |
| Mft.CommonValid | src/ICCProfile.c:408-419 | exactly 3 output channels, 1 to 4 input channels and at least 2 grid points |
| Mft.CommonOf | src/ICCProfile.c:396-406 | the record with the head's matrix and its input, output and grid bytes copied; nothing else changes |
| Mft.ReadMftCommon | src/ICCProfile.c:395-422 | matrix and channel bytes are copied; success exactly when there are 3 outputs, 1 to 4 inputs and at least 2 grid points |
| Mft.InitTablesOf | src/ICCProfile.c:424-450 | succeeds exactly when inputs plus grid plus outputs fit max_tables_len. It then places input table i at base + i·per-input, the grid after all inputs, and output table i after the grid; otherwise nothing changes |
| Mft.InitTablesLayout | src/ICCProfile.c:441-447 | the placed tables are contiguous, disjoint, in order, and end within base + max_tables_len |
| Mft.PowMono | src/ICCProfile.c:433-435 | the repeated grid multiplication is monotone in the grid size |
| Mft.LayoutFitsU64 | src/ICCProfile.c:426-437 | for every valid head the uint64 sums cannot wrap |
| Mft.GridSize | src/ICCProfile.c:432-435 | the loop computes outputs · width · grid_points^inputs |
| Mft.InitMftTables | src/ICCProfile.c:424-450 | the result and the filled record are InitTablesOf |
| Mft.ReadMft1Of | src/ICCProfile.c:452-467 | lut8: succeeds exactly when 48 bytes, a valid head and the tables fit with size 256 and width 1; a short tag changes nothing; on a later failure the head stays written, the sizes are written once the head passed, and the table pointers stay the caller's |
| Mft.ReadMft2Of | src/ICCProfile.c:469-490 | lut16: like lut8 with the two u16 table sizes at 48 and 50, each required in [2, 4096], and width 2; on failure the head stays written, the sizes are written (even out of range) once the head passed, and the table pointers stay the caller's |
| Mft.DecoderArithmeticExact | src/ICCProfile.c:426-437 | for both lut kinds the layout sum stays below 2^64 |
| Mft.ReadTagMft1 | src/ICCProfile.c:452-467 | the result and the record are ReadMft1Of |
| Mft.ReadTagMft2 | src/ICCProfile.c:469-490 | the result and the record are ReadMft2Of |
| Mft.MultiFunctionTableOf | src/ICCProfile.c:492-510 | no A2B0 tag or another tag type fails and leaves the record as it was; 'mft1' and 'mft2' go to their decoders |
| Mft.GetMultiFunctionTable | src/ICCProfile.c:492-510 | the result and the record are MultiFunctionTableOf |
| Mft.MultiFunctionTableInsideTag | src/ICCProfile.c:492-510 | a decoded A2B0 has a valid head, and its tables lie in order inside the tag's body |
| Mft.EncodeMftHead | src/ICCProfile.c:372-381 | a 48-byte mft head |
| Mft.MftHeadRoundTrip | src/ICCProfile.c:395-406 | an encoded head reads back its type, channel bytes and nine matrix entries |
| Parse.DecodeHeader | src/ICCProfile.c:549-573 | every header field at its ICC offset, profile_id copied verbatim; inverted by EncodeHeader in HeaderRoundTrip |
| Parse.HeaderValid | src/ICCProfile.c:575-582 | the 'acsp' magic, a declared size within the buffer and covering the header and tag table, major version at most 4 |
| Parse.IlluminantIsD50 | src/ICCProfile.c:584-590 | each illuminant coordinate within 0.01 of D50 (0.9642, 1.0, 0.8249) |
| Parse.DirectoryValid | src/ICCProfile.c:592-601 | every entry has size at least 4 and ends within the declared size |
| Parse.ParseAccepts | src/ICCProfile.c:545-601 | at least 132 bytes, a valid header, a D50 illuminant and a valid directory: the verdict of skcms_Parse |
| Parse.AcceptedTagsInBounds | src/ICCProfile.c:575-601 | an accepted profile's directory fits, every tag lies within the declared size, and the uint64 sums are exact |
| Parse.MinimalProfileAccepted | src/ICCProfile.c:537-608 | a 132-byte D50 profile with no tags, whose declared size is its length and ends with its (empty) directory, is accepted, and the index guard as written admits its index 0 |
| Parse.IndexGuardPastDirectory | src/ICCProfile.c:512-516 | on every accepted profile the guard as written and the corrected guard differ only at idx == tag_count, whose entry starts where the directory ends and so lies past a profile or buffer that ends there |
| Parse.EncodeHeader | src/ICCProfile.c:74-98 | a 132-byte header image |
| Parse.ReadHeaderWord | src/ICCProfile.c:74-98 | word k of the header image is read back at 4k |
| Parse.HeaderWideFields | src/ICCProfile.c:555-561 | the date-time at 24 and the u64 attributes at 56 read back |
| Parse.HeaderIlluminant | src/ICCProfile.c:563-565 | the illuminant coordinates at 68, 72 and 76 read back |
| Parse.HeaderProfileId | src/ICCProfile.c:569-571 | the 16 profile-id bytes at 84 are copied verbatim |
| Parse.HeaderRoundTrip | src/ICCProfile.c:549-573 | decoding an encoded header gives back every field |
| Parse.CheckTagDirectory | src/ICCProfile.c:592-601 | the loop accepts exactly when every entry has size ≥ 4 and ends within the declared size |
| Parse.ValidateProfile | src/ICCProfile.c:575-601 | accepts exactly the buffers in ParseAccepts |
| Parse.ParseHeader | src/ICCProfile.c:543-573 | a short buffer leaves a blank profile; otherwise the buffer and the decoded header are recorded, and all facets stay zero |
| Parse.Parse | src/ICCProfile.c:537-608 | accepts exactly ParseAccepts; an accepted profile's tags are readable and its tf and toXYZD50 are TransferFunctionOf and ToXYZD50Of; the trc and A2B stay zero; on rejection the facets are zero |
| Parse.PreParse | src/ICCProfile.c:603-605 | has_tf / tf and has_toXYZD50 / toXYZD50 are the two facet functions on a zeroed profile |

## Left out

- Floating point: every float is an exact real. This covers `read_big_fixed` (only exact for values below 2^24 / 65536), the `fabsf` D50 tolerance, `d = -b / a`, the `1/256`, `1/65535` and `i / (n - 1)` scalings, and the memcmp of float bit patterns. So −0.0 and +0.0, and NaNs, are not distinguished.
- NULL arguments: every `!profile`, `!tag`, `!curve`, `!mft` and `!fn` check is left out, because a Dafny reference cannot be null. A NULL profile buffer is `None`.
- `malloc`/`free` in `skcms_ApproximateTransferFunction` are left out. In particular the unchecked NULL result of `malloc` is not modelled. The two halves of the one buffer are two arrays.
- `skcms_TransferFunction_approximate` lives in TransferFunction.h, which is not part of this model. It, and the maximum error it returns, is the function parameter `fit`. The `size_t` limit of the buffer size check is the parameter `sizeMax`.
- Macros.h is not part of this model. `SAFE_SIZEOF` is taken as a 64-bit size, so `tag_count * 12` and the other size sums are exact.
- The colour transform, `skcms_ApproximateCurve` and the other functions declared in skcms.h but defined elsewhere are not part of this model, nor is tests.c.
- The `Curve` a caller declares in C is uninitialised; the model starts it at the zero curve. Since every successful path writes the whole parametric member, only the failure paths depend on this.
- Skcms.ICCProfile: the header fields are grouped into one `Header` value (`p.header.pcs` for `p->pcs`). `has_tf`/`tf` are fields, as the parser uses them.
- Mft.MultiFunctionTable: skcms_MultiFunctionTable's declaration is not part of this model. Its field widths are taken as `u32`, and its table pointers as offsets.
- Mft.InitMftTables: requires in_ch ≤ 4, which read_mft_common establishes before every call; the C loop would write past `input_tables` otherwise.
- Parse.HeaderRoundTrip: takes the raw s15.16 illuminant words next to the header, since a real value does not determine a unique word outside the s15.16 grid.
- skcms_Parse differs from a natural reading in ways the model follows:
  - A rejection after the header is decoded leaves the header fields filled. Only a buffer shorter than 132 bytes leaves the profile blank.
  - Function type 2 sets f = e.
  - The curv size check is 12 + 2·count.
  - `read_curve_para` writes the curve before its `a == 0` failure.
  - `read_to_XYZD50` writes the leading columns before a later tag fails.
  - `read_tag_mft1`/`read_tag_mft2` leave the head fields, and the table sizes once the head passed, in the caller's record when a later check fails (stated by `Mft.ReadMft1Of` and `Mft.ReadMft2Of`).

## Findings

| source | as written | input that shows it | evidently intended | confidence | as-written member | corrected member |
|---|---|---|---|---|---|---|
| src/ICCProfile.c:514 | `skcms_GetTagByIndex` returns early only when `idx > tag_count`, so `idx == tag_count` reads a directory entry past the table | the 132-byte profile `Parse.MinimalProfile()` is accepted with tag_count 0 (`Parse.MinimalProfileAccepted`). `GetTagByIndex(p, 0)` passes the guard and reads entry 0 at bytes 132..143, past the end of the buffer | return early when `idx >= tag_count` | not executed | Parse.IndexGuardPastDirectory | TagTable.GetTagByIndex |
