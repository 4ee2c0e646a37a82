/**
 * The PSID/RSID file format: a fixed big-endian header (versions 1 to 4)
 * followed by the C64 program. Parsing is pure; the header's three text
 * fields are kept as raw bytes (their lossy UTF-8 decoding is not modelled).
 */
module SidFile {
  import opened Common

  const PSID: seq<Byte> := [0x50, 0x53, 0x49, 0x44]
  const RSID: seq<Byte> := [0x52, 0x53, 0x49, 0x44]

  /** Offsets of the header fields. */
  const HEADER_MIN := 0x76
  const HEADER_V2 := 0x7C
  const NAME_AT := 0x16
  const AUTHOR_AT := 0x36
  const RELEASED_AT := 0x56
  const TEXT_LEN := 32

  datatype SidHeader = SidHeader(
    magic: seq<Byte>,
    version: Word,
    dataOffset: Word,
    loadAddress: Word,
    initAddress: Word,
    playAddress: Word,
    songs: Word,
    startSong: Word,
    speed: Dword,
    name: seq<Byte>,
    author: seq<Byte>,
    released: seq<Byte>,
    isPal: bool,
    isRsid: bool,
    /** C64 addresses of SID2 and SID3 (`extra_sid_addrs`); 0 means unused. */
    sid2Addr: Word,
    sid3Addr: Word)

  datatype SidFile = SidFile(header: SidHeader, loadAddress: Word, payload: seq<Byte>, raw: seq<Byte>)

  datatype SidError = TooSmall | NotSid(magic: seq<Byte>) | DataOffsetPastEnd | NoEmbeddedLoadAddress

  /** Number of chips the tune asks for, from the header alone. */
  function NumSids(h: SidHeader): (n: nat)
    ensures 1 <= n <= 3
    ensures n == 1 <==> h.sid2Addr == 0 && h.sid3Addr == 0
    ensures n == 3 <==> h.sid2Addr != 0 && h.sid3Addr != 0
  {
    1 + (if h.sid2Addr != 0 then 1 else 0) + (if h.sid3Addr != 0 then 1 else 0)
  }

  /** Frame duration in microseconds: 50 Hz for PAL, 60 Hz for NTSC. */
  function FrameUs(h: SidHeader): (us: nat)
    ensures h.isPal ==> us * 50 == 1_000_000
    ensures !h.isPal ==> 1_000_000 - 60 < us * 60 < 1_000_000 + 60
  {
    if h.isPal then 20_000 else 16_667
  }

  function ReadBeU16(d: seq<Byte>, o: nat): Word
    requires o + 2 <= |d|
  {
    Join(d[o], d[o + 1])
  }

  function ReadBeU32(d: seq<Byte>, o: nat): Dword
    requires o + 4 <= |d|
  {
    Be32(d[o], d[o + 1], d[o + 2], d[o + 3])
  }

  function Be32(b3: Byte, b2: Byte, b1: Byte, b0: Byte): Dword
  {
    ((b3 as Dword) << 24) | ((b2 as Dword) << 16) | ((b1 as Dword) << 8) | (b0 as Dword)
  }

  /** The four bytes of a 32-bit word, most significant first. */
  function Byte3(x: Dword): Byte { ((x >> 24) & 0xFF) as Byte }
  function Byte2(x: Dword): Byte { ((x >> 16) & 0xFF) as Byte }
  function Byte1(x: Dword): Byte { ((x >> 8) & 0xFF) as Byte }
  function Byte0(x: Dword): Byte { (x & 0xFF) as Byte }

  /** The bytes of `s` before its first NUL, or all of `s` when it has none. */
  function CutAtNul(s: seq<Byte>): (r: seq<Byte>)
    ensures |r| <= |s| && r == s[..|r|]
    ensures forall i :: 0 <= i < |r| ==> r[i] != 0
    ensures |r| < |s| ==> s[|r|] == 0
  {
    if s == [] || s[0] == 0 then [] else [s[0]] + CutAtNul(s[1..])
  }

  /** A fixed-width text field, cut at the first NUL. */
  function ReadText(d: seq<Byte>, o: nat): (r: seq<Byte>)
    requires o + TEXT_LEN <= |d|
    ensures |r| <= TEXT_LEN
  {
    CutAtNul(d[o..o + TEXT_LEN])
  }

  /**
   * The address byte at $7A/$7B names a SID at $Dxx0: it must be even, at
   * least $42 and in $42-$7F or $E0-$FE; anything else means no chip.
   */
  function DecodeSidAddrByte(b: Byte): (a: Word)
  {
    if b >= 0x42 && (b <= 0x7F || b >= 0xE0) && b & 1 == 0 then 0xD000 | ((b as Word) << 4) else 0
  }

  /**
   * Exactly the even bytes $42-$7E and $E0-$FE name a chip; the chip then
   * sits on a 32-byte boundary in $D420-$DFE0 and the byte is recovered from
   * its address.
   */
  lemma DecodeSidAddrByteRange(b: Byte)
    ensures var a := DecodeSidAddrByte(b);
      && (a != 0 <==> b >= 0x42 && (b <= 0x7F || b >= 0xE0) && b & 1 == 0)
      && (a != 0 ==> 0xD420 <= a <= 0xDFE0 && a & 0x1F == 0 && EncodeSidAddr(a) == b)
  {
  }

  /** `flags` bits 2-3 equal to 2 mean NTSC only; every other value plays as PAL. */
  function IsPalFlags(flagsLo: Byte): bool
  {
    flagsLo & 0x0C != 0x08
  }

  function ParseHeader(data: seq<Byte>): (r: Result<SidHeader, SidError>)
    ensures |data| < HEADER_MIN ==> r == Err(TooSmall)
    ensures r.Ok? <==> |data| >= HEADER_MIN && (data[..4] == PSID || data[..4] == RSID)
    ensures r.Ok? ==> (r.value.isRsid <==> data[..4] == RSID)
    ensures r.Ok? ==> |r.value.name| <= TEXT_LEN && |r.value.author| <= TEXT_LEN && |r.value.released| <= TEXT_LEN
  {
    if |data| < HEADER_MIN then Err(TooSmall)
    else if data[..4] != PSID && data[..4] != RSID then Err(NotSid(data[..4]))
    else
      var version := ReadBeU16(data, 4);
      var v2 := version >= 2 && |data| >= HEADER_V2;
      var isPal := if v2 then IsPalFlags(data[0x77]) else true;
      var sid2 := if v2 && version >= 3 && |data| > 0x7A then DecodeSidAddrByte(data[0x7A]) else 0;
      var sid3 := if v2 && version >= 4 && |data| > 0x7B then DecodeSidAddrByte(data[0x7B]) else 0;
      Ok(SidHeader(
        data[..4], version,
        ReadBeU16(data, 6), ReadBeU16(data, 8), ReadBeU16(data, 0x0A), ReadBeU16(data, 0x0C),
        ReadBeU16(data, 0x0E), ReadBeU16(data, 0x10), ReadBeU32(data, 0x12),
        ReadText(data, NAME_AT), ReadText(data, AUTHOR_AT), ReadText(data, RELEASED_AT),
        isPal, data[..4] == RSID, sid2, sid3))
  }

  /**
   * `load_sid`: the header, then the payload from `data_offset`. A zero load
   * address in the header means the first two payload bytes hold it,
   * little-endian, and are not part of the program.
   */
  function LoadSid(data: seq<Byte>): (r: Result<SidFile, SidError>)
    ensures ParseHeader(data).Err? ==> r == Err(ParseHeader(data).error)
    ensures r.Ok? ==> ParseHeader(data) == Ok(r.value.header) && r.value.raw == data && Loaded(data, r.value)
    ensures r.Err? && ParseHeader(data).Ok? ==> Refused(data, ParseHeader(data).value, r.error)
  {
    match ParseHeader(data)
    case Err(e) => Err(e)
    case Ok(h) => LoadPayload(data, h)
  }

  function LoadPayload(data: seq<Byte>, h: SidHeader): (r: Result<SidFile, SidError>)
    ensures r.Ok? ==> r.value.header == h && r.value.raw == data && Loaded(data, r.value)
    ensures r.Err? ==> Refused(data, h, r.error)
  {
    var ds := h.dataOffset as int;
    if ds >= |data| then Err(DataOffsetPastEnd)
    else if h.loadAddress == 0 then
      if ds + 2 > |data| then Err(NoEmbeddedLoadAddress)
      else
        CutAt(data, ds + 2);
        Ok(SidFile(h, Join(data[ds + 1], data[ds]), data[ds + 2..], data))
    else
      CutAt(data, ds);
      Ok(SidFile(h, h.loadAddress, data[ds..], data))
  }

  /** The bytes before and after a cut make up the file. */
  lemma CutAt(data: seq<Byte>, k: nat)
    requires k <= |data|
    ensures data == data[..k] + data[k..]
  {
  }

  /**
   * The payload is everything after the data offset, less the two embedded
   * load-address bytes when the header's load address is 0.
   */
  predicate Loaded(data: seq<Byte>, f: SidFile)
  {
    var ds := f.header.dataOffset as int;
    if f.header.loadAddress != 0 then
      ds < |data| && f.loadAddress == f.header.loadAddress && data == data[..ds] + f.payload
    else
      ds + 2 <= |data| && f.loadAddress == Join(data[ds + 1], data[ds]) && data == data[..ds + 2] + f.payload
  }

  /** Why a file with a good header is still refused. */
  predicate Refused(data: seq<Byte>, h: SidHeader, e: SidError)
  {
    var ds := h.dataOffset as int;
    || (e == DataOffsetPastEnd && ds >= |data|)
    || (e == NoEmbeddedLoadAddress && ds < |data| && h.loadAddress == 0 && ds + 2 > |data|)
  }

  // ── The header as a writer would lay it out ──────────────────────────────

  /** A header a v2+ writer can produce and this parser can read back unchanged. */
  predicate Encodable(h: SidHeader)
  {
    && (h.magic == PSID || h.magic == RSID)
    && (h.isRsid <==> h.magic == RSID)
    && |h.name| <= TEXT_LEN && |h.author| <= TEXT_LEN && |h.released| <= TEXT_LEN
    && (forall i :: 0 <= i < |h.name| ==> h.name[i] != 0)
    && (forall i :: 0 <= i < |h.author| ==> h.author[i] != 0)
    && (forall i :: 0 <= i < |h.released| ==> h.released[i] != 0)
    && (h.version < 2 ==> h.isPal)
    && ExtraSidsEncodable(h)
  }

  /** SID2 needs version 3 and SID3 version 4, and each address must be one a byte can name. */
  predicate ExtraSidsEncodable(h: SidHeader)
  {
    && (h.version < 3 ==> h.sid2Addr == 0)
    && (h.version < 4 ==> h.sid3Addr == 0)
    && DecodeSidAddrByte(EncodeSidAddr(h.sid2Addr)) == h.sid2Addr
    && DecodeSidAddrByte(EncodeSidAddr(h.sid3Addr)) == h.sid3Addr
  }

  function EncodeSidAddr(a: Word): Byte { ((a >> 4) & 0xFF) as Byte }

  /** Byte j of a 32-byte text field holding `s`, NUL-padded. */
  function PadByte(s: seq<Byte>, j: nat): Byte { if j < |s| then s[j] else 0 }

  /** Bytes $04-$15: the big-endian numeric fields. */
  function NumberByte(h: SidHeader, i: nat): Byte
    requires 4 <= i < NAME_AT
  {
    match i
    case 4 => Hi(h.version)
    case 5 => Lo(h.version)
    case 6 => Hi(h.dataOffset)
    case 7 => Lo(h.dataOffset)
    case 8 => Hi(h.loadAddress)
    case 9 => Lo(h.loadAddress)
    case 10 => Hi(h.initAddress)
    case 11 => Lo(h.initAddress)
    case 12 => Hi(h.playAddress)
    case 13 => Lo(h.playAddress)
    case 14 => Hi(h.songs)
    case 15 => Lo(h.songs)
    case 16 => Hi(h.startSong)
    case 17 => Lo(h.startSong)
    case 18 => Byte3(h.speed)
    case 19 => Byte2(h.speed)
    case 20 => Byte1(h.speed)
    case _ => Byte0(h.speed)
  }

  function HeaderByte(h: SidHeader, i: nat): Byte
    requires i < HEADER_V2
  {
    if i < 4 then PadByte(h.magic, i)
    else if i < NAME_AT then NumberByte(h, i)
    else if i < AUTHOR_AT then PadByte(h.name, i - NAME_AT)
    else if i < RELEASED_AT then PadByte(h.author, i - AUTHOR_AT)
    else if i < HEADER_MIN then PadByte(h.released, i - RELEASED_AT)
    else if i == 0x77 then (if h.isPal then 0x04 else 0x08)
    else if i == 0x7A then EncodeSidAddr(h.sid2Addr)
    else if i == 0x7B then EncodeSidAddr(h.sid3Addr)
    else 0
  }

  /** A v2-sized ($7C-byte) header image. */
  function EncodeHeader(h: SidHeader): (d: seq<Byte>)
    ensures |d| == HEADER_V2
  {
    seq(HEADER_V2, i requires 0 <= i < HEADER_V2 => HeaderByte(h, i))
  }

  lemma {:induction false} CutPadded(s: seq<Byte>, field: seq<Byte>)
    requires |s| <= |field|
    requires forall i :: 0 <= i < |s| ==> s[i] != 0
    requires forall j :: 0 <= j < |field| ==> field[j] == PadByte(s, j)
    ensures CutAtNul(field) == s
    decreases |s|
  {
    if s == [] {
      if field != [] {
        assert field[0] == 0;
      }
    } else {
      assert field[0] == s[0];
      CutPadded(s[1..], field[1..]);
    }
  }

  lemma TextRoundTrip(h: SidHeader, o: nat, s: seq<Byte>)
    requires o + TEXT_LEN <= HEADER_MIN && |s| <= TEXT_LEN
    requires forall i :: 0 <= i < |s| ==> s[i] != 0
    requires forall j :: 0 <= j < TEXT_LEN ==> HeaderByte(h, o + j) == PadByte(s, j)
    ensures ReadText(EncodeHeader(h), o) == s
  {
    var d := EncodeHeader(h);
    CutPadded(s, d[o..o + TEXT_LEN]);
  }

  lemma NumbersRoundTrip(h: SidHeader)
    ensures var d := EncodeHeader(h);
      && ReadBeU16(d, 4) == h.version && ReadBeU16(d, 6) == h.dataOffset
      && ReadBeU16(d, 8) == h.loadAddress && ReadBeU16(d, 0x0A) == h.initAddress
      && ReadBeU16(d, 0x0C) == h.playAddress && ReadBeU16(d, 0x0E) == h.songs
      && ReadBeU16(d, 0x10) == h.startSong && ReadBeU32(d, 0x12) == h.speed
  {
    WordRoundTrip(h, 4, h.version);
    WordRoundTrip(h, 6, h.dataOffset);
    WordRoundTrip(h, 8, h.loadAddress);
    WordRoundTrip(h, 0x0A, h.initAddress);
    WordRoundTrip(h, 0x0C, h.playAddress);
    WordRoundTrip(h, 0x0E, h.songs);
    WordRoundTrip(h, 0x10, h.startSong);
    SpeedRoundTrip(h);
  }

  lemma SpeedRoundTrip(h: SidHeader)
    ensures ReadBeU32(EncodeHeader(h), 0x12) == h.speed
  {
    var d := EncodeHeader(h);
    assert d[0x12] == Byte3(h.speed) && d[0x13] == Byte2(h.speed);
    assert d[0x14] == Byte1(h.speed) && d[0x15] == Byte0(h.speed);
    SpeedSplit(h.speed);
  }

  lemma WordRoundTrip(h: SidHeader, o: nat, w: Word)
    requires 4 <= o && o + 1 < NAME_AT
    requires NumberByte(h, o) == Hi(w) && NumberByte(h, o + 1) == Lo(w)
    ensures ReadBeU16(EncodeHeader(h), o) == w
  {
    var d := EncodeHeader(h);
    assert d[o] == Hi(w) && d[o + 1] == Lo(w);
    JoinSplit(w);
  }

  lemma SpeedSplit(x: Dword)
    ensures Be32(Byte3(x), Byte2(x), Byte1(x), Byte0(x)) == x
  {
  }

  /**
   * Parsing what a writer lays out gives back the same header: every field
   * sits at its fixed offset, the flags word carries the video standard and
   * the SID2/SID3 bytes carry the extra chips.
   */
  lemma HeaderRoundTrip(h: SidHeader)
    requires Encodable(h)
    ensures ParseHeader(EncodeHeader(h)) == Ok(h)
  {
    MagicParsed(h);
    NumbersParsed(h);
    TextsParsed(h);
    FlagsParsed(h);
    SameHeader(ParseHeader(EncodeHeader(h)), h);
  }

  lemma MagicParsed(h: SidHeader)
    requires h.magic == PSID || h.magic == RSID
    ensures ParseHeader(EncodeHeader(h)).Ok?
    ensures ParseHeader(EncodeHeader(h)).value.magic == h.magic
    ensures ParseHeader(EncodeHeader(h)).value.isRsid == (h.magic == RSID)
  {
    MagicRoundTrip(h);
    ParseV2(EncodeHeader(h));
  }

  lemma NumbersParsed(h: SidHeader)
    requires h.magic == PSID || h.magic == RSID
    ensures var p := ParseHeader(EncodeHeader(h)).value;
      && p.version == h.version && p.dataOffset == h.dataOffset && p.loadAddress == h.loadAddress
      && p.initAddress == h.initAddress && p.playAddress == h.playAddress
      && p.songs == h.songs && p.startSong == h.startSong && p.speed == h.speed
  {
    MagicRoundTrip(h);
    NumbersRoundTrip(h);
    ParseV2(EncodeHeader(h));
  }

  lemma TextsParsed(h: SidHeader)
    requires Encodable(h)
    ensures var p := ParseHeader(EncodeHeader(h)).value;
      p.name == h.name && p.author == h.author && p.released == h.released
  {
    MagicRoundTrip(h);
    TextsRoundTrip(h);
    ParseV2Texts(EncodeHeader(h));
  }

  lemma FlagsParsed(h: SidHeader)
    requires Encodable(h)
    ensures var p := ParseHeader(EncodeHeader(h)).value;
      p.isPal == h.isPal && p.sid2Addr == h.sid2Addr && p.sid3Addr == h.sid3Addr
  {
    PalParsed(h);
    ExtraParsed(h);
  }

  lemma PalParsed(h: SidHeader)
    requires (h.magic == PSID || h.magic == RSID) && (h.version < 2 ==> h.isPal)
    ensures ParseHeader(EncodeHeader(h)).Ok?
    ensures ParseHeader(EncodeHeader(h)).value.isPal == h.isPal
  {
    var d := EncodeHeader(h);
    MagicRoundTrip(h);
    WordRoundTrip(h, 4, h.version);
    ParseV2Pal(d, h.version);
    FlagsRoundTrip(h);
  }

  lemma ExtraParsed(h: SidHeader)
    requires Encodable(h)
    ensures ParseHeader(EncodeHeader(h)).Ok?
    ensures ParseHeader(EncodeHeader(h)).value.sid2Addr == h.sid2Addr
    ensures ParseHeader(EncodeHeader(h)).value.sid3Addr == h.sid3Addr
  {
    MagicRoundTrip(h);
    WordRoundTrip(h, 4, h.version);
    ExtraBytes(h);
    ParseV2Extra(EncodeHeader(h), h.version, EncodeSidAddr(h.sid2Addr), EncodeSidAddr(h.sid3Addr), h.sid2Addr, h.sid3Addr);
  }

  lemma SameHeader(r: Result<SidHeader, SidError>, h: SidHeader)
    requires r.Ok? && r.value.magic == h.magic && r.value.isRsid == h.isRsid && r.value.version == h.version
    requires r.value.dataOffset == h.dataOffset && r.value.loadAddress == h.loadAddress
    requires r.value.initAddress == h.initAddress && r.value.playAddress == h.playAddress
    requires r.value.songs == h.songs && r.value.startSong == h.startSong && r.value.speed == h.speed
    requires r.value.name == h.name && r.value.author == h.author && r.value.released == h.released
    requires r.value.isPal == h.isPal && r.value.sid2Addr == h.sid2Addr && r.value.sid3Addr == h.sid3Addr
    ensures r == Ok(h)
  {
  }

  lemma TextsRoundTrip(h: SidHeader)
    requires Encodable(h)
    ensures var d := EncodeHeader(h);
      ReadText(d, NAME_AT) == h.name && ReadText(d, AUTHOR_AT) == h.author && ReadText(d, RELEASED_AT) == h.released
  {
    assert forall j :: 0 <= j < TEXT_LEN ==> HeaderByte(h, NAME_AT + j) == PadByte(h.name, j);
    TextRoundTrip(h, NAME_AT, h.name);
    assert forall j :: 0 <= j < TEXT_LEN ==> HeaderByte(h, AUTHOR_AT + j) == PadByte(h.author, j);
    TextRoundTrip(h, AUTHOR_AT, h.author);
    assert forall j :: 0 <= j < TEXT_LEN ==> HeaderByte(h, RELEASED_AT + j) == PadByte(h.released, j);
    TextRoundTrip(h, RELEASED_AT, h.released);
  }

  lemma MagicRoundTrip(h: SidHeader)
    requires h.magic == PSID || h.magic == RSID
    ensures EncodeHeader(h)[..4] == h.magic
  {
    var d := EncodeHeader(h);
    assert d[..4] == [d[0], d[1], d[2], d[3]];
  }

  /** How a header of at least $7C bytes with a valid magic is read, field by field. */
  lemma ParseV2(d: seq<Byte>)
    requires |d| >= HEADER_V2 && (d[..4] == PSID || d[..4] == RSID)
    ensures ParseHeader(d).Ok?
    ensures ParseHeader(d).value.magic == d[..4]
    ensures ParseHeader(d).value.isRsid == (d[..4] == RSID)
    ensures ParseHeader(d).value.version == ReadBeU16(d, 4)
    ensures ParseHeader(d).value.dataOffset == ReadBeU16(d, 6)
    ensures ParseHeader(d).value.loadAddress == ReadBeU16(d, 8)
    ensures ParseHeader(d).value.initAddress == ReadBeU16(d, 0x0A)
    ensures ParseHeader(d).value.playAddress == ReadBeU16(d, 0x0C)
    ensures ParseHeader(d).value.songs == ReadBeU16(d, 0x0E)
    ensures ParseHeader(d).value.startSong == ReadBeU16(d, 0x10)
    ensures ParseHeader(d).value.speed == ReadBeU32(d, 0x12)
  {
  }

  lemma ParseV2Texts(d: seq<Byte>)
    requires |d| >= HEADER_V2 && (d[..4] == PSID || d[..4] == RSID)
    ensures ParseHeader(d).Ok?
    ensures ParseHeader(d).value.name == ReadText(d, NAME_AT)
    ensures ParseHeader(d).value.author == ReadText(d, AUTHOR_AT)
    ensures ParseHeader(d).value.released == ReadText(d, RELEASED_AT)
  {
  }

  lemma ParseV2Pal(d: seq<Byte>, version: Word)
    requires |d| >= HEADER_V2 && (d[..4] == PSID || d[..4] == RSID)
    requires version == ReadBeU16(d, 4)
    ensures ParseHeader(d).Ok?
    ensures ParseHeader(d).value.isPal == (if version >= 2 then IsPalFlags(d[0x77]) else true)
  {
  }

  lemma ParseV2Extra(d: seq<Byte>, version: Word, b2: Byte, b3: Byte, sid2: Word, sid3: Word)
    requires |d| >= HEADER_V2 && (d[..4] == PSID || d[..4] == RSID)
    requires version == ReadBeU16(d, 4) && b2 == d[0x7A] && b3 == d[0x7B]
    requires (if version >= 3 then DecodeSidAddrByte(b2) else 0) == sid2
    requires (if version >= 4 then DecodeSidAddrByte(b3) else 0) == sid3
    ensures ParseHeader(d).Ok?
    ensures ParseHeader(d).value.sid2Addr == sid2 && ParseHeader(d).value.sid3Addr == sid3
  {
  }

  lemma FlagsRoundTrip(h: SidHeader)
    requires h.version < 2 ==> h.isPal
    ensures (if h.version >= 2 then IsPalFlags(EncodeHeader(h)[0x77]) else true) == h.isPal
  {
    assert EncodeHeader(h)[0x77] == if h.isPal then 0x04 else 0x08;
  }

  lemma ExtraBytes(h: SidHeader)
    ensures EncodeHeader(h)[0x7A] == EncodeSidAddr(h.sid2Addr)
    ensures EncodeHeader(h)[0x7B] == EncodeSidAddr(h.sid3Addr)
  {
  }

  /**
   * A header with load address 0 and data offset $7C, followed by the
   * little-endian load address and the program, loads as that program at
   * that address.
   */
  lemma EmbeddedLoadAddress(h: SidHeader, load: Word, program: seq<Byte>)
    requires Encodable(h) && h.loadAddress == 0 && h.dataOffset == 0x7C
    ensures var data := EncodeHeader(h) + [Lo(load), Hi(load)] + program;
      LoadSid(data) == Ok(SidFile(h, load, program, data))
  {
    var head := EncodeHeader(h);
    var data := head + [Lo(load), Hi(load)] + program;
    HeaderRoundTrip(h);
    assert data == head + ([Lo(load), Hi(load)] + program);
    ParsePrefix(head, [Lo(load), Hi(load)] + program);
    JoinSplit(load);
    LoadEmbedded(data, h, Lo(load), Hi(load), program);
  }

  lemma LoadEmbedded(data: seq<Byte>, h: SidHeader, lo: Byte, hi: Byte, program: seq<Byte>)
    requires |data| >= HEADER_V2 && ParseHeader(data) == Ok(h) && h.loadAddress == 0 && h.dataOffset == 0x7C
    requires data[..HEADER_V2] + [lo, hi] + program == data
    ensures LoadSid(data) == Ok(SidFile(h, Join(hi, lo), program, data))
  {
    assert data[HEADER_V2] == lo && data[HEADER_V2 + 1] == hi;
    assert data[HEADER_V2 + 2..] == program;
  }

  /** The parser reads only the first $7C bytes; what follows does not change the header. */
  lemma ParsePrefix(head: seq<Byte>, rest: seq<Byte>)
    requires |head| == HEADER_V2
    ensures ParseHeader(head + rest).Ok? == ParseHeader(head).Ok?
    ensures ParseHeader(head).Ok? ==> ParseHeader(head + rest).value == ParseHeader(head).value
  {
    var d := head + rest;
    assert d[..4] == head[..4];
    assert d[NAME_AT..NAME_AT + TEXT_LEN] == head[NAME_AT..NAME_AT + TEXT_LEN];
    assert d[AUTHOR_AT..AUTHOR_AT + TEXT_LEN] == head[AUTHOR_AT..AUTHOR_AT + TEXT_LEN];
    assert d[RELEASED_AT..RELEASED_AT + TEXT_LEN] == head[RELEASED_AT..RELEASED_AT + TEXT_LEN];
  }
}
