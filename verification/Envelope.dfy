/**
 The 21-octet frame header of the multiplexing protocol: what a writer checks,
 what a reader checks, and the octets in between.
 */
module Envelope {
  import opened Bytes
  import opened Wrappers

  const PROTOCOL_VERSION: nat := 2
  const HEADER_LEN: nat := 21
  const FROZEN_PREFIX_LEN: nat := 5
  const MAX_FRAME_BODY_LEN: nat := 64 * 1024 * 1024

  const PUSH := 2
  const STREAM_DATA := 3
  const CANCEL := 6
  const PING := 7
  const PONG := 8
  const GOODBYE := 11
  const FRAME_TYPE_MAX := GOODBYE
  const SHEDDABLE := 2

  /** Header fields as the caller holds them: numbers of any magnitude. */
  datatype Header = Header(
    len: int, ver: int, ty: int, flags: int, channel: int, epoch: int, corr: int)

  datatype Frame = Frame(header: Header, body: seq<byte>)

  datatype Code =
    | TooShortForPrefix
    | UnsupportedVersion
    | TooShortForHeader
    | UnknownFrameType
    | ReservedPriorityBits
    | ReservedAdmissionClass
    | SheddableIllegalFrameType
    | PureHeaderFrameWithBody
    | NonzeroEpochOnControlChannel
    | FrameBodyTooLarge
    | FrameLengthMismatch

  predicate IsPureHeader(ty: int) {
    ty == CANCEL || ty == PING || ty == PONG || ty == GOODBYE
  }

  /** Flag bits 1-2 of a flags octet. */
  function PriorityBits(flags: int): int { flags / 2 % 4 }

  /** Flag bits 4-5 of a flags octet. */
  function AdmissionBits(flags: int): int { flags / 16 % 4 }

  /** The header after every field is cut to its wire width, modulo as the source coerces. */
  function OnWire(h: Header): (w: Header)
    ensures FitsWire(w)
    ensures FitsWire(h) ==> w == h
  {
    Header(h.len % 0x1_0000_0000, h.ver % 256, h.ty % 256, h.flags % 256,
           h.channel % 0x1_0000, h.epoch % 0x1_0000_0000, h.corr % 0x1_0000_0000_0000_0000)
  }

  predicate FitsWire(h: Header) {
    && 0 <= h.len < 0x1_0000_0000
    && 0 <= h.ver < 256
    && 0 <= h.ty < 256
    && 0 <= h.flags < 256
    && 0 <= h.channel < 0x1_0000
    && 0 <= h.epoch < 0x1_0000_0000
    && 0 <= h.corr < 0x1_0000_0000_0000_0000
  }

  /** The rules of the format as one conjunction, with no order of checking. */
  predicate Legal(w: Header) {
    && w.ver == PROTOCOL_VERSION
    && w.ty <= FRAME_TYPE_MAX
    && PriorityBits(w.flags) != 3
    && AdmissionBits(w.flags) != 3
    && (AdmissionBits(w.flags) == SHEDDABLE ==> w.ty == PUSH || w.ty == STREAM_DATA)
    && (IsPureHeader(w.ty) ==> w.len == 0)
    && (w.channel == 0 ==> w.epoch == 0)
  }

  /** The rules in the order the writer applies them; `None` accepts. */
  function CheckWire(w: Header): Option<Code> {
    if w.ver != PROTOCOL_VERSION then Some(UnsupportedVersion)
    else if w.ty > FRAME_TYPE_MAX then Some(UnknownFrameType)
    else if PriorityBits(w.flags) == 3 then Some(ReservedPriorityBits)
    else if AdmissionBits(w.flags) == 3 then Some(ReservedAdmissionClass)
    else if AdmissionBits(w.flags) == SHEDDABLE && w.ty != PUSH && w.ty != STREAM_DATA then
      Some(SheddableIllegalFrameType)
    else if IsPureHeader(w.ty) && w.len != 0 then Some(PureHeaderFrameWithBody)
    else if w.channel == 0 && w.epoch != 0 then Some(NonzeroEpochOnControlChannel)
    else None
  }

  /** The writer's check coerces every field before it looks. */
  function ValidateHeaderFields(h: Header): Option<Code> {
    CheckWire(OnWire(h))
  }

  function EncodeWire(w: Header): seq<byte>
    requires FitsWire(w)
  {
    LittleEndian(w.len, 4) + [w.ver, w.ty, w.flags] +
    LittleEndian(w.channel, 2) + LittleEndian(w.epoch, 4) + LittleEndian(w.corr, 8)
  }

  function EncodeHeader(h: Header): seq<byte> {
    EncodeWire(OnWire(h))
  }

  /** The reader's checks, in its own order over the octets. */
  function DecodeHeader(b: seq<byte>): Result<Header, Code> {
    if |b| < FROZEN_PREFIX_LEN then Err(TooShortForPrefix)
    else if b[4] != PROTOCOL_VERSION then Err(UnsupportedVersion)
    else if |b| < HEADER_LEN then Err(TooShortForHeader)
    else
      var len := FromLittleEndian(b[0..4]);
      var ty, flags := b[5], b[6];
      if ty > FRAME_TYPE_MAX then Err(UnknownFrameType)
      else if PriorityBits(flags) == 3 then Err(ReservedPriorityBits)
      else
        var admission := AdmissionBits(flags);
        if admission == 3 then Err(ReservedAdmissionClass)
        else if admission == SHEDDABLE && ty != PUSH && ty != STREAM_DATA then
          Err(SheddableIllegalFrameType)
        else
          var channel, epoch := FromLittleEndian(b[7..9]), FromLittleEndian(b[9..13]);
          if IsPureHeader(ty) && len != 0 then Err(PureHeaderFrameWithBody)
          else if channel == 0 && epoch != 0 then Err(NonzeroEpochOnControlChannel)
          else Ok(Header(len, b[4], ty, flags, channel, epoch, FromLittleEndian(b[13..21])))
  }

  function BuildFrame(ty: int, flags: int, channel: int, epoch: int, corr: int, body: seq<byte>)
    : Result<Frame, Code>
  {
    if |body| > MAX_FRAME_BODY_LEN then Err(FrameBodyTooLarge)
    else
      var header := Header(|body|, PROTOCOL_VERSION, ty, flags, channel, epoch, corr);
      match ValidateHeaderFields(header)
      case Some(code) => Err(code)
      case None => Ok(Frame(header, body))
  }

  function EncodeFrame(f: Frame): Result<seq<byte>, Code> {
    if f.header.len != |f.body| then Err(FrameLengthMismatch)
    else if |f.body| > MAX_FRAME_BODY_LEN then Err(FrameBodyTooLarge)
    else
      match DecodeHeader(EncodeHeader(f.header))
      case Err(code) => Err(code)
      case Ok(_) => Ok(EncodeHeader(f.header) + f.body)
  }

  // ---------------------------------------------------------------- properties

  lemma PowersOf256()
    ensures Pow256(2) == 0x1_0000
    ensures Pow256(4) == 0x1_0000_0000
    ensures Pow256(8) == 0x1_0000_0000_0000_0000
  {
    assert Pow256(1) == 256;
    assert Pow256(2) == 256 * Pow256(1);
    assert Pow256(3) == 256 * Pow256(2);
    assert Pow256(4) == 256 * Pow256(3);
    assert Pow256(5) == 256 * Pow256(4);
    assert Pow256(6) == 256 * Pow256(5);
    assert Pow256(7) == 256 * Pow256(6);
    assert Pow256(8) == 256 * Pow256(7);
  }

  /** The five runs of octets a header is made of, found again by position. */
  lemma Pieces(len: seq<byte>, mid: seq<byte>, channel: seq<byte>, epoch: seq<byte>, corr: seq<byte>)
    requires |len| == 4 && |mid| == 3 && |channel| == 2 && |epoch| == 4 && |corr| == 8
    ensures var b := len + mid + channel + epoch + corr;
            && |b| == HEADER_LEN
            && b[0..4] == len && b[4..7] == mid && b[7..9] == channel
            && b[9..13] == epoch && b[13..21] == corr
            && b[4] == mid[0] && b[5] == mid[1] && b[6] == mid[2]
  {
  }

  /** `b` holds the fields of `w` at their offsets. */
  predicate LaysOut(b: seq<byte>, w: Header) {
    && |b| == HEADER_LEN
    && b[4] == w.ver && b[5] == w.ty && b[6] == w.flags
    && FromLittleEndian(b[0..4]) == w.len
    && FromLittleEndian(b[7..9]) == w.channel
    && FromLittleEndian(b[9..13]) == w.epoch
    && FromLittleEndian(b[13..21]) == w.corr
  }

  lemma WireLayout(w: Header)
    requires FitsWire(w)
    ensures LaysOut(EncodeWire(w), w)
  {
    PowersOf256();
    LittleEndianRoundTrip(w.len, 4);
    LittleEndianRoundTrip(w.channel, 2);
    LittleEndianRoundTrip(w.epoch, 4);
    LittleEndianRoundTrip(w.corr, 8);
    Pieces(LittleEndian(w.len, 4), [w.ver, w.ty, w.flags], LittleEndian(w.channel, 2),
           LittleEndian(w.epoch, 4), LittleEndian(w.corr, 8));
  }

  lemma LayoutIsInjective(b: seq<byte>, b': seq<byte>, w: Header)
    requires LaysOut(b, w) && LaysOut(b', w)
    ensures b == b'
  {
    SameValueSameOctets(b[0..4], b'[0..4]);
    SameValueSameOctets(b[7..9], b'[7..9]);
    SameValueSameOctets(b[9..13], b'[9..13]);
    SameValueSameOctets(b[13..21], b'[13..21]);
    Reassemble(b);
    Reassemble(b');
  }

  lemma SameValueSameOctets(s: seq<byte>, s': seq<byte>)
    requires |s| == |s'| && FromLittleEndian(s) == FromLittleEndian(s')
    ensures s == s'
  {
    FromLittleEndianRoundTrip(s);
    FromLittleEndianRoundTrip(s');
  }

  lemma Reassemble(b: seq<byte>)
    requires |b| == HEADER_LEN
    ensures b == b[0..4] + [b[4], b[5], b[6]] + b[7..9] + b[9..13] + b[13..21]
  {
  }

  lemma DecodeLaidOut(b: seq<byte>, w: Header)
    requires LaysOut(b, w)
    ensures DecodeHeader(b) ==
            match CheckWire(w)
            case Some(code) => Err(code)
            case None => Ok(w)
  {
  }

  lemma CheckedMeansLegal(w: Header)
    ensures CheckWire(w).None? <==> Legal(w)
  {
  }

  /**
   The writer's check and the reader of the writer's octets accept the same
   headers and name the same fault first; an accepted header reads back as
   itself cut to wire widths.
   */
  lemma WriterAgreesWithReader(h: Header)
    ensures DecodeHeader(EncodeHeader(h)) ==
            match ValidateHeaderFields(h)
            case Some(code) => Err(code)
            case None => Ok(OnWire(h))
    ensures ValidateHeaderFields(h).None? <==> Legal(OnWire(h))
  {
    WireLayout(OnWire(h));
    DecodeLaidOut(EncodeHeader(h), OnWire(h));
    CheckedMeansLegal(OnWire(h));
  }

  /** A header the reader accepts is legal and its octets are the only ones that mean it. */
  lemma ReaderIsCanonical(b: seq<byte>)
    requires DecodeHeader(b).Ok?
    ensures var h := DecodeHeader(b).value;
            && FitsWire(h) && Legal(h)
            && EncodeHeader(h) == b[..HEADER_LEN]
  {
    var h := DecodeHeader(b).value;
    DecodedFieldsFit(b);
    PrefixLaysOut(b);
    WireLayout(h);
    LayoutIsInjective(b[..HEADER_LEN], EncodeWire(h), h);
  }

  lemma DecodedFieldsFit(b: seq<byte>)
    requires DecodeHeader(b).Ok?
    ensures FitsWire(DecodeHeader(b).value) && Legal(DecodeHeader(b).value)
  {
    FromLittleEndianRoundTrip(b[0..4]);
    FromLittleEndianRoundTrip(b[7..9]);
    FromLittleEndianRoundTrip(b[9..13]);
    FromLittleEndianRoundTrip(b[13..21]);
    PowersOf256();
  }

  lemma PrefixLaysOut(b: seq<byte>)
    requires DecodeHeader(b).Ok?
    ensures LaysOut(b[..HEADER_LEN], DecodeHeader(b).value)
  {
    var front := b[..HEADER_LEN];
    assert front[0..4] == b[0..4] && front[7..9] == b[7..9];
    assert front[9..13] == b[9..13] && front[13..21] == b[13..21];
  }

  /** A frame that was built is never refused at encoding, and keeps its body. */
  lemma BuiltFramesEncode(ty: int, flags: int, channel: int, epoch: int, corr: int, body: seq<byte>)
    requires BuildFrame(ty, flags, channel, epoch, corr, body).Ok?
    ensures var f := BuildFrame(ty, flags, channel, epoch, corr, body).value;
            && EncodeFrame(f) == Ok(EncodeHeader(f.header) + body)
            && DecodeHeader(EncodeHeader(f.header)) == Ok(OnWire(f.header))
            && OnWire(f.header).len == |body| <= MAX_FRAME_BODY_LEN
  {
    WriterAgreesWithReader(BuildFrame(ty, flags, channel, epoch, corr, body).value.header);
  }

  /** A frame is built exactly when it can be encoded. */
  lemma BuildsExactlyEncodable(ty: int, flags: int, channel: int, epoch: int, corr: int, body: seq<byte>)
    ensures BuildFrame(ty, flags, channel, epoch, corr, body).Ok? <==>
            EncodeFrame(Frame(Header(|body|, PROTOCOL_VERSION, ty, flags, channel, epoch, corr), body)).Ok?
  {
    WriterAgreesWithReader(Header(|body|, PROTOCOL_VERSION, ty, flags, channel, epoch, corr));
  }

  /** A cut header is too short for its prefix, or else judged by its version and too short for the rest. */
  lemma CutHeaders(h: Header, n: nat)
    requires n < HEADER_LEN
    ensures |EncodeHeader(h)| == HEADER_LEN
    ensures DecodeHeader(EncodeHeader(h)[..n]) ==
            Err(if n < FROZEN_PREFIX_LEN then TooShortForPrefix
                else if OnWire(h).ver != PROTOCOL_VERSION then UnsupportedVersion else TooShortForHeader)
  {
    WireLayout(OnWire(h));
  }

  /** Encoding accepts exactly the frames a reader would take whole. */
  lemma EncodeAcceptsExactlyReadable(f: Frame)
    ensures EncodeFrame(f).Ok? <==>
            f.header.len == |f.body| <= MAX_FRAME_BODY_LEN && Legal(OnWire(f.header))
  {
    WriterAgreesWithReader(f.header);
  }

  // ---------------------------------------------------------------- buffer fill

  /** Stores the `width` low octets of `v` at `at`, as a little-endian view write does. */
  method SetLittleEndian(buffer: array<byte>, at: nat, v: nat, width: nat)
    requires at + width <= buffer.Length && v < Pow256(width)
    modifies buffer
    ensures buffer[..at + width] == old(buffer[..at]) + LittleEndian(v, width)
  {
    LittleEndianRoundTrip(v, width);
    ghost var front, goal := buffer[..at], LittleEndian(v, width);
    var rest, i := v, 0;
    while i < width
      invariant 0 <= i <= width && rest >= 0
      invariant goal[i..] == LittleEndian(rest, width - i)
      invariant buffer[..at + i] == front + goal[..i]
    {
      assert goal[i..][0] == goal[i] && goal[i..][1..] == goal[i + 1..];
      buffer[at + i] := rest % 256;
      assert buffer[..at + i + 1] == front + goal[..i] + [goal[i]];
      assert goal[..i + 1] == goal[..i] + [goal[i]];
      rest, i := rest / 256, i + 1;
    }
    assert goal[..width] == goal;
  }

  /** Fills a fresh header buffer field by field. */
  method FillHeader(h: Header) returns (buffer: array<byte>)
    ensures fresh(buffer) && buffer[..] == EncodeHeader(h)
  {
    buffer := FillWire(OnWire(h));
  }

  method FillWire(w: Header) returns (buffer: array<byte>)
    requires FitsWire(w)
    ensures fresh(buffer) && buffer[..] == EncodeWire(w)
  {
    PowersOf256();
    buffer := new byte[HEADER_LEN](_ => 0);
    SetLittleEndian(buffer, 0, w.len, 4);
    NilConcat(LittleEndian(w.len, 4));
    buffer[4], buffer[5], buffer[6] := w.ver, w.ty, w.flags;
    assert buffer[..7] == LittleEndian(w.len, 4) + [w.ver, w.ty, w.flags];
    SetLittleEndian(buffer, 7, w.channel, 2);
    SetLittleEndian(buffer, 9, w.epoch, 4);
    SetLittleEndian(buffer, 13, w.corr, 8);
    assert buffer[..] == buffer[..HEADER_LEN];
  }
}
