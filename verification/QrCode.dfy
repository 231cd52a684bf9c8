/**
 The pairing code a computer shows: a bounded binary payload, written as
 unpadded base64url (RFC 4648, section 5) behind a fixed prefix.
 */
module QrCode {
  import opened Bytes
  import opened Wrappers

  const MAX_DECODED_BYTES := 159
  const MAX_SCAN_CHARACTERS := 221
  const PREFIX := "ckpair:1/"

  type Reason = string

  // ------------------------------------------------ base64url without padding

  type sextet = v: int | 0 <= v < 64

  function CharOf(v: sextet): char {
    if v < 26 then 'A' + v as char
    else if v < 52 then 'a' + (v - 26) as char
    else if v < 62 then '0' + (v - 52) as char
    else if v == 62 then '-'
    else '_'
  }

  function ValueOf(c: char): Option<sextet> {
    if 'A' <= c <= 'Z' then Some(c as int - 'A' as int)
    else if 'a' <= c <= 'z' then Some(c as int - 'a' as int + 26)
    else if '0' <= c <= '9' then Some(c as int - '0' as int + 52)
    else if c == '-' then Some(62)
    else if c == '_' then Some(63)
    else None
  }

  predicate InAlphabet(s: string) { forall c <- s :: ValueOf(c).Some? }

  function Encode64(b: seq<byte>): string {
    if b == [] then ""
    else if |b| == 1 then [CharOf(b[0] / 4), CharOf(b[0] % 4 * 16)]
    else if |b| == 2 then
      [CharOf(b[0] / 4), CharOf(b[0] % 4 * 16 + b[1] / 16), CharOf(b[1] % 16 * 4)]
    else
      Quad(b[0], b[1], b[2]) + Encode64(b[3..])
  }

  function Quad(b0: byte, b1: byte, b2: byte): string {
    [CharOf(b0 / 4), CharOf(b0 % 4 * 16 + b1 / 16), CharOf(b1 % 16 * 4 + b2 / 64), CharOf(b2 % 64)]
  }

  /** The library's decoding of alphabet text: spare low bits of the last character are dropped. */
  function Decode64(s: string): seq<byte>
    requires InAlphabet(s) && |s| % 4 != 1
  {
    if s == "" then []
    else
      var v0, v1 := ValueOf(s[0]).value, ValueOf(s[1]).value;
      var b0: byte := v0 * 4 + v1 / 16;
      if |s| == 2 then [b0]
      else
        var v2 := ValueOf(s[2]).value;
        var b1: byte := v1 % 16 * 16 + v2 / 4;
        if |s| == 3 then [b0, b1]
        else
          var b2: byte := v2 % 4 * 64 + ValueOf(s[3]).value;
          assert InAlphabet(s[4..]);
          [b0, b1, b2] + Decode64(s[4..])
  }

  lemma CharsInvert(v: sextet)
    ensures ValueOf(CharOf(v)) == Some(v)
  {
  }

  lemma Sextets(b0: byte, b1: byte, b2: byte)
    ensures var v1, v2 := b0 % 4 * 16 + b1 / 16, b1 % 16 * 4 + b2 / 64;
            && b0 / 4 * 4 + v1 / 16 == b0 && v1 % 16 * 16 + v2 / 4 == b1
            && v2 % 4 * 64 + b2 % 64 == b2
  {
  }

  lemma QuadInverts(b0: byte, b1: byte, b2: byte, rest: string)
    requires InAlphabet(rest) && |rest| % 4 != 1
    ensures var s := Quad(b0, b1, b2) + rest;
            InAlphabet(s) && |s| % 4 != 1 && Decode64(s) == [b0, b1, b2] + Decode64(rest)
  {
    CharsInvert(b0 / 4);
    CharsInvert(b0 % 4 * 16 + b1 / 16);
    CharsInvert(b1 % 16 * 4 + b2 / 64);
    CharsInvert(b2 % 64);
    Sextets(b0, b1, b2);
    CutConcat(Quad(b0, b1, b2), rest);
  }

  lemma TailInverts(b: seq<byte>)
    requires |b| < 3
    ensures InAlphabet(Encode64(b)) && |Encode64(b)| % 4 != 1 && Decode64(Encode64(b)) == b
  {
    if |b| == 1 {
      CharsInvert(b[0] / 4);
      CharsInvert(b[0] % 4 * 16);
    } else if |b| == 2 {
      CharsInvert(b[0] / 4);
      CharsInvert(b[0] % 4 * 16 + b[1] / 16);
      CharsInvert(b[1] % 16 * 4);
    }
  }

  lemma {:induction false} Encode64Inverts(b: seq<byte>)
    ensures InAlphabet(Encode64(b)) && |Encode64(b)| % 4 != 1
    ensures |Encode64(b)| == (4 * |b| + 2) / 3
    ensures Decode64(Encode64(b)) == b
  {
    if |b| < 3 {
      TailInverts(b);
    } else {
      Encode64Inverts(b[3..]);
      QuadInverts(b[0], b[1], b[2], Encode64(b[3..]));
      assert b == [b[0], b[1], b[2]] + b[3..];
    }
  }

  // ------------------------------------------------ the payload

  datatype Hint = Hint(ip: seq<byte>, port: nat)

  datatype Fields = Fields(
    computer: seq<byte>, secret: seq<byte>, expiry: nat, name: seq<byte>, hints: seq<Hint>)

  /** `None` accepts the address of a hint. */
  function RefuseHint(ip: seq<byte>, port: nat): Option<Reason>
    requires |ip| == 4
  {
    if port == 0 then Some("port_zero")
    else if ip[0] == 127 then Some("loopback_address")
    else if ip == [255, 255, 255, 255] then Some("broadcast_address")
    else if 224 <= ip[0] < 240 then Some("multicast_address")
    else if ip == [0, 0, 0, 0] then Some("unspecified_address")
    else None
  }

  /**
   A hint is accepted exactly for a port and an address, as a number, outside of
   127.0.0.0/8 and 224.0.0.0/4 and other than the first and the last.
   */
  lemma HintIff(ip: seq<byte>, port: nat)
    requires |ip| == 4
    ensures var n := FromBigEndian(ip);
            RefuseHint(ip, port) == None <==>
            && port > 0 && 0 < n < 0xFFFF_FFFF
            && !(0x7F00_0000 <= n < 0x8000_0000) && !(0xE000_0000 <= n < 0xF000_0000)
  {
    AddressIs(ip, ip[0], ip[1], ip[2], ip[3]);
  }

  lemma AddressIs(ip: seq<byte>, a: int, b: int, c: int, d: int)
    requires |ip| == 4 && ip[0] == a && ip[1] == b && ip[2] == c && ip[3] == d
    ensures FromBigEndian(ip) == a * 0x100_0000 + b * 0x1_0000 + c * 0x100 + d
  {
    assert ip[..3][..2] == ip[..2] && ip[..2][..1] == ip[..1] && ip[..1][..0] == [];
    assert FromBigEndian(ip[..1]) == a;
    assert FromBigEndian(ip[..2]) == a * 0x100 + b;
    assert FromBigEndian(ip[..3]) == a * 0x1_0000 + b * 0x100 + c;
  }

  predicate GoodHint(h: Hint) {
    |h.ip| == 4 && h.port < 65536 && RefuseHint(h.ip, h.port) == None
  }

  /** Fields a computer may publish; `utf8` says which names decode. */
  predicate WellFormed(utf8: seq<byte> -> bool, f: Fields) {
    && |f.computer| == 32 && |f.secret| == 32 && f.expiry < 0x1_0000_0000
    && |f.name| <= 64 && utf8(f.name)
    && |f.hints| <= 4 && forall h <- f.hints :: GoodHint(h)
  }

  function HintBytes(hints: seq<Hint>): seq<byte> {
    if hints == [] then [] else hints[0].ip + BigEndian(hints[0].port, 2) + HintBytes(hints[1..])
  }

  function QrBytes(f: Fields): seq<byte>
    requires |f.name| < 256 && |f.hints| < 256
  {
    [1] + f.computer + f.secret + BigEndian(f.expiry, 4) +
    [|f.name|] + f.name + [|f.hints|] + HintBytes(f.hints)
  }

  function QrText(payload: seq<byte>): string { PREFIX + Encode64(payload) }

  /** Reads `count` hints; the rest of the payload is returned with them. */
  function ParseHints(b: seq<byte>, count: nat): Result<(seq<Hint>, seq<byte>), Reason>
    decreases count
  {
    if count == 0 then Ok(([], b))
    else if |b| < 6 then Err("truncated_hint")
    else
      var ip, port := b[..4], FromBigEndian(b[4..6]);
      match RefuseHint(ip, port)
      case Some(reason) => Err(reason)
      case None =>
        match ParseHints(b[6..], count - 1)
        case Err(reason) => Err(reason)
        case Ok(more) => Ok(([Hint(ip, port)] + more.0, more.1))
  }

  function ParsePayload(utf8: seq<byte> -> bool, b: seq<byte>, now: int): Result<Fields, Reason> {
    if |b| > MAX_DECODED_BYTES then Err("oversize")
    else if |b| < 1 then Err("truncated_version")
    else if b[0] != 1 then Err("bad_version")
    else if |b| < 33 then Err("truncated_key")
    else if |b| < 65 then Err("truncated_secret")
    else if |b| < 69 then Err("truncated_expiry")
    else
      var expiry := FromBigEndian(b[65..69]);
      if expiry <= now then Err("past_expiry")
      else if |b| < 70 then Err("truncated_name_length")
      else if b[69] > 64 then Err("name_too_long")
      else ParseName(utf8, b[1..33], b[33..65], expiry, b[69], b[70..])
  }

  /** The variable part: the name, then the hints, then nothing. */
  function ParseName(utf8: seq<byte> -> bool, computer: seq<byte>, secret: seq<byte>, expiry: nat,
                     size: nat, b: seq<byte>): Result<Fields, Reason>
  {
    if |b| < size then Err("truncated_name")
    else if !utf8(b[..size]) then Err("invalid_utf8")
    else if |b| < size + 1 then Err("truncated_hint_count")
    else if b[size] > 4 then Err("too_many_hints")
    else
      match ParseHints(b[size + 1..], b[size])
      case Err(reason) => Err(reason)
      case Ok(parsed) =>
        if parsed.1 != [] then Err("trailing_bytes")
        else Ok(Fields(computer, secret, expiry, b[..size], parsed.0))
  }

  function ParseQr(utf8: seq<byte> -> bool, text: string, now: int): Result<Fields, Reason> {
    if |text| > MAX_SCAN_CHARACTERS then Err("scan_too_long")
    else if !(PREFIX <= text) then Err("wrong_prefix")
    else
      var encoded := text[|PREFIX|..];
      if encoded == "" || !InAlphabet(encoded) || |encoded| % 4 == 1 then Err("bad_base64url")
      else
        var payload := Decode64(encoded);
        if QrText(payload) != text then Err("bad_base64url")
        else ParsePayload(utf8, payload, now)
  }

  // ------------------------------------------------ hints

  lemma PortOctets(port: nat)
    requires port < 65536
    ensures |BigEndian(port, 2)| == 2 && FromBigEndian(BigEndian(port, 2)) == port
  {
    assert Pow256(2) == 256 * Pow256(1) && Pow256(1) == 256;
    BigEndianRoundTrip(port, 2);
  }

  lemma ThreeParts(a: seq<byte>, b: seq<byte>, c: seq<byte>)
    ensures var s := a + b + c;
            s[..|a|] == a && s[|a|..|a| + |b|] == b && s[|a| + |b|..] == c
  {
  }

  /** One hint is read off the front of what follows it. */
  lemma HintParsesBack(h: Hint, rest: seq<byte>, count: nat)
    requires GoodHint(h)
    ensures |h.ip + BigEndian(h.port, 2)| == 6
    ensures ParseHints(h.ip + BigEndian(h.port, 2) + rest, count + 1) ==
            match ParseHints(rest, count)
            case Err(reason) => Err(reason)
            case Ok(more) => Ok(([h] + more.0, more.1))
  {
    PortOctets(h.port);
    ThreeParts(h.ip, BigEndian(h.port, 2), rest);
  }

  lemma {:induction false} HintsParseBack(hints: seq<Hint>, rest: seq<byte>)
    requires forall h <- hints :: GoodHint(h)
    ensures |HintBytes(hints)| == 6 * |hints|
    ensures ParseHints(HintBytes(hints) + rest, |hints|) == Ok((hints, rest))
  {
    if hints == [] {
      NilConcat(rest);
    } else {
      var h, more := hints[0], hints[1..];
      HintParsesBack(h, HintBytes(more) + rest, |more|);
      HintsParseBack(more, rest);
      ConcatAssociates(h.ip + BigEndian(h.port, 2), HintBytes(more), rest);
      assert hints == [h] + more;
    }
  }

  lemma {:induction false} ParsedHintsAreCanonical(b: seq<byte>, count: nat)
    requires ParseHints(b, count).Ok?
    ensures var (hints, rest) := ParseHints(b, count).value;
            && |hints| == count && (forall h <- hints :: GoodHint(h))
            && b == HintBytes(hints) + rest
    decreases count
  {
    if count == 0 {
      NilConcat(b);
    } else {
      var ip, port := b[..4], FromBigEndian(b[4..6]);
      ParsedHintsAreCanonical(b[6..], count - 1);
      var (more, rest) := ParseHints(b[6..], count - 1).value;
      FromBigEndianRoundTrip(b[4..6]);
      assert Pow256(2) == 256 * Pow256(1) && Pow256(1) == 256;
      var hints := [Hint(ip, port)] + more;
      assert hints[1..] == more && b == ip + b[4..6] + b[6..];
      ConcatAssociates(ip + b[4..6], HintBytes(more), rest);
    }
  }

  // ------------------------------------------------ the payload is exactly bounded and canonical

  /** The fixed head of a payload, found again by position. */
  lemma HeadPieces(computer: seq<byte>, secret: seq<byte>, expiry: seq<byte>, size: byte, tail: seq<byte>)
    requires |computer| == 32 && |secret| == 32 && |expiry| == 4
    ensures var b := [1] + computer + secret + expiry + [size] + tail;
            && |b| == 70 + |tail| && b[0] == 1 && b[1..33] == computer && b[33..65] == secret
            && b[65..69] == expiry && b[69] == size && b[70..] == tail
  {
  }

  lemma ExpiryOctets(expiry: nat)
    requires expiry < 0x1_0000_0000
    ensures |BigEndian(expiry, 4)| == 4 && FromBigEndian(BigEndian(expiry, 4)) == expiry
  {
    assert Pow256(4) == 256 * Pow256(3) && Pow256(3) == 256 * Pow256(2);
    assert Pow256(2) == 256 * Pow256(1) && Pow256(1) == 256;
    BigEndianRoundTrip(expiry, 4);
  }

  function Tail(f: Fields): seq<byte>
    requires |f.hints| < 256
  {
    f.name + [|f.hints|] + HintBytes(f.hints)
  }

  lemma QrBytesSplit(f: Fields)
    requires |f.name| < 256 && |f.hints| < 256
    ensures QrBytes(f) == [1] + f.computer + f.secret + BigEndian(f.expiry, 4) + [|f.name|] + Tail(f)
  {
    var head := [1] + f.computer + f.secret + BigEndian(f.expiry, 4) + [|f.name|];
    ConcatAssociates(head, f.name, [|f.hints|]);
    ConcatAssociates(head, f.name + [|f.hints|], HintBytes(f.hints));
  }

  lemma TailParsesBack(utf8: seq<byte> -> bool, f: Fields)
    requires WellFormed(utf8, f)
    ensures ParseName(utf8, f.computer, f.secret, f.expiry, |f.name|, Tail(f)) == Ok(f)
    ensures |Tail(f)| == |f.name| + 1 + 6 * |f.hints|
  {
    HintsParseBack(f.hints, []);
    NilConcat(HintBytes(f.hints));
    ThreeParts(f.name, [|f.hints|], HintBytes(f.hints));
  }

  /** Every publishable set of fields fits the payload bound and parses back. */
  lemma PayloadParsesBack(utf8: seq<byte> -> bool, f: Fields, now: int)
    requires WellFormed(utf8, f) && now < f.expiry
    ensures 71 <= |QrBytes(f)| <= MAX_DECODED_BYTES
    ensures ParsePayload(utf8, QrBytes(f), now) == Ok(f)
  {
    QrBytesSplit(f);
    ExpiryOctets(f.expiry);
    TailParsesBack(utf8, f);
    HeadPieces(f.computer, f.secret, BigEndian(f.expiry, 4), |f.name|, Tail(f));
  }

  lemma ParsedTailIsCanonical(utf8: seq<byte> -> bool, computer: seq<byte>, secret: seq<byte>,
                              expiry: nat, size: nat, b: seq<byte>)
    requires ParseName(utf8, computer, secret, expiry, size, b).Ok?
    ensures var f := ParseName(utf8, computer, secret, expiry, size, b).value;
            && f.computer == computer && f.secret == secret && f.expiry == expiry
            && |f.name| == size && utf8(f.name) && |f.hints| <= 4 && (forall h <- f.hints :: GoodHint(h))
            && b == Tail(f)
  {
    var tail := b[size + 1..];
    ParsedHintsAreCanonical(tail, b[size]);
    var hints := ParseHints(tail, b[size]).value.0;
    NilConcat(HintBytes(hints));
    CutThree(b, size);
  }

  lemma CutThree(b: seq<byte>, at: nat)
    requires at < |b|
    ensures b == b[..at] + [b[at]] + b[at + 1..]
  {
  }

  /** Whatever payload is accepted is the one encoding of its fields. */
  lemma ParsedPayloadIsCanonical(utf8: seq<byte> -> bool, b: seq<byte>, now: int)
    requires ParsePayload(utf8, b, now).Ok?
    ensures var f := ParsePayload(utf8, b, now).value;
            WellFormed(utf8, f) && now < f.expiry && QrBytes(f) == b
  {
    var f := ParsePayload(utf8, b, now).value;
    ParsedTailIsCanonical(utf8, b[1..33], b[33..65], FromBigEndian(b[65..69]), b[69], b[70..]);
    FromBigEndianRoundTrip(b[65..69]);
    FourOctets(b[65..69]);
    QrBytesSplit(f);
    HeadCut(b);
  }

  lemma FourOctets(b: seq<byte>)
    requires |b| == 4
    ensures FromBigEndian(b) < 0x1_0000_0000
  {
    FromBigEndianRoundTrip(b);
    assert Pow256(4) == 256 * Pow256(3) && Pow256(3) == 256 * Pow256(2);
    assert Pow256(2) == 256 * Pow256(1) && Pow256(1) == 256;
  }

  lemma HeadCut(b: seq<byte>)
    requires 70 <= |b|
    ensures b == [b[0]] + b[1..33] + b[33..65] + b[65..69] + [b[69]] + b[70..]
  {
  }

  // ------------------------------------------------ the scanned text

  /** The scan cap admits precisely the payloads within the decoded cap. */
  lemma ScanCapIsPayloadCap(payload: seq<byte>)
    ensures |QrText(payload)| <= MAX_SCAN_CHARACTERS <==> |payload| <= MAX_DECODED_BYTES
  {
    Encode64Inverts(payload);
  }

  /** A scan is never refused for its decoded size. */
  lemma OversizeUnreachable(utf8: seq<byte> -> bool, text: string, now: int)
    ensures ParseQr(utf8, text, now) != Err("oversize")
  {
    if |text| <= MAX_SCAN_CHARACTERS && PREFIX <= text {
      var encoded := text[|PREFIX|..];
      if encoded != "" && InAlphabet(encoded) && |encoded| % 4 != 1 && QrText(Decode64(encoded)) == text {
        ScanCapIsPayloadCap(Decode64(encoded));
        NotOversize(utf8, Decode64(encoded), now);
      }
    }
  }

  lemma NotOversize(utf8: seq<byte> -> bool, b: seq<byte>, now: int)
    requires |b| <= MAX_DECODED_BYTES
    ensures ParsePayload(utf8, b, now) != Err("oversize")
  {
    if 70 <= |b| {
      NameNotOversize(utf8, b[1..33], b[33..65], FromBigEndian(b[65..69]), b[69], b[70..]);
    }
  }

  lemma NameNotOversize(utf8: seq<byte> -> bool, computer: seq<byte>, secret: seq<byte>, expiry: nat,
                        size: nat, b: seq<byte>)
    ensures ParseName(utf8, computer, secret, expiry, size, b) != Err("oversize")
  {
    if |b| > size { HintsNotOversize(b[size + 1..], b[size]); }
  }

  lemma {:induction false} HintsNotOversize(b: seq<byte>, count: nat)
    ensures ParseHints(b, count) != Err("oversize")
    decreases count
  {
    if count > 0 && |b| >= 6 { HintsNotOversize(b[6..], count - 1); }
  }

  /** Texts accepted, and what they mean, are exactly the encodings of publishable unexpired fields. */
  lemma ScanIsCanonical(utf8: seq<byte> -> bool, text: string, now: int, f: Fields)
    ensures ParseQr(utf8, text, now) == Ok(f) <==>
            WellFormed(utf8, f) && now < f.expiry && text == QrText(QrBytes(f))
  {
    if WellFormed(utf8, f) && now < f.expiry && text == QrText(QrBytes(f)) {
      PayloadParsesBack(utf8, f, now);
      ScanCapIsPayloadCap(QrBytes(f));
      Encode64Inverts(QrBytes(f));
      CutConcat(PREFIX, Encode64(QrBytes(f)));
    }
    if ParseQr(utf8, text, now) == Ok(f) {
      ParsedPayloadIsCanonical(utf8, Decode64(text[|PREFIX|..]), now);
    }
  }

  // ------------------------------------------------ the cursor over the payload

  function Prepend(hints: seq<Hint>, r: Result<(seq<Hint>, seq<byte>), Reason>):
    Result<(seq<Hint>, seq<byte>), Reason>
  {
    match r
    case Err(reason) => Err(reason)
    case Ok(more) => Ok((hints + more.0, more.1))
  }

  lemma PrependMore(hints: seq<Hint>, b: seq<byte>, count: nat)
    requires count > 0 && 6 <= |b| && RefuseHint(b[..4], FromBigEndian(b[4..6])) == None
    ensures Prepend(hints, ParseHints(b, count)) ==
            Prepend(hints + [Hint(b[..4], FromBigEndian(b[4..6]))], ParseHints(b[6..], count - 1))
  {
    var h := Hint(b[..4], FromBigEndian(b[4..6]));
    match ParseHints(b[6..], count - 1)
    case Err(_) =>
    case Ok(more) => ConcatAssociates(hints, [h], more.0);
  }

  lemma PrependNil(hints: seq<Hint>, r: Result<(seq<Hint>, seq<byte>), Reason>)
    ensures Prepend([], r) == r
    ensures r.Ok? && r.value.0 == [] ==> Prepend(hints, r) == Ok((hints, r.value.1))
  {
    if r.Ok? { assert [] + r.value.0 == r.value.0 && hints + [] == hints; }
  }

  lemma TakeSlices(b: seq<byte>, at: nat, count: nat)
    requires at + count <= |b|
    ensures b[at..][..count] == b[at..at + count] && b[at..][count..] == b[at + count..]
  {
  }

  /** Consumes the payload through a cursor, stopping at the first refusal. */
  class Reader {
    const payload: seq<byte>
    var cursor: nat

    constructor (payload: seq<byte>)
      ensures this.payload == payload && cursor == 0
    {
      this.payload, cursor := payload, 0;
    }

    ghost predicate Valid() reads this { cursor <= |payload| }

    ghost function Rest(): seq<byte> requires Valid() reads this { payload[cursor..] }

    method Take(count: nat) returns (taken: Option<seq<byte>>)
      requires Valid()
      modifies this
      ensures Valid()
      ensures |old(Rest())| < count ==> taken == None && cursor == old(cursor)
      ensures count <= |old(Rest())| ==>
                taken == Some(old(Rest())[..count]) && Rest() == old(Rest())[count..] && cursor == old(cursor) + count
      ensures taken.Some? ==> cursor <= |payload| && taken.value == payload[cursor - count..cursor]
    {
      if cursor + count > |payload| { return None; }
      TakeSlices(payload, cursor, count);
      taken := Some(payload[cursor..cursor + count]);
      cursor := cursor + count;
    }

    method TakeHints(count: nat) returns (r: Result<seq<Hint>, Reason>)
      requires Valid()
      modifies this
      ensures Valid()
      ensures ParseHints(old(Rest()), count) == if r.Ok? then Ok((r.value, Rest())) else Err(r.error)
    {
      var hints, i := [], 0;
      PrependNil([], ParseHints(Rest(), count));
      while i < count
        invariant Valid() && i <= count
        invariant ParseHints(old(Rest()), count) == Prepend(hints, ParseHints(Rest(), count - i))
      {
        ghost var before := Rest();
        var ip := Take(4);
        if ip.None? { return Err("truncated_hint"); }
        var octets := Take(2);
        if octets.None? { return Err("truncated_hint"); }
        TakeSlices(before, 4, 2);
        var port := FromBigEndian(octets.value);
        var refused := RefuseHint(ip.value, port);
        if refused.Some? { return Err(refused.value); }
        PrependMore(hints, before, count - i);
        hints, i := hints + [Hint(ip.value, port)], i + 1;
      }
      PrependNil(hints, ParseHints(Rest(), 0));
      return Ok(hints);
    }

    method TakeName(utf8: seq<byte> -> bool, computer: seq<byte>, secret: seq<byte>, expiry: nat, size: nat)
      returns (r: Result<Fields, Reason>)
      requires Valid()
      modifies this
      ensures r == ParseName(utf8, computer, secret, expiry, size, old(Rest()))
    {
      ghost var b := Rest();
      var name := Take(size);
      if name.None? { return Err("truncated_name"); }
      if !utf8(name.value) { return Err("invalid_utf8"); }
      var count := Take(1);
      if count.None? { return Err("truncated_hint_count"); }
      if count.value[0] > 4 { return Err("too_many_hints"); }
      assert count.value[0] == b[size] && Rest() == b[size + 1..];
      var hints := TakeHints(count.value[0]);
      if hints.Err? { return Err(hints.error); }
      if cursor != |payload| { return Err("trailing_bytes"); }
      return Ok(Fields(computer, secret, expiry, name.value, hints.value));
    }
  }

  /** The whole reader computes exactly the payload grammar. */
  method ReadPayload(utf8: seq<byte> -> bool, payload: seq<byte>, now: int) returns (r: Result<Fields, Reason>)
    ensures r == ParsePayload(utf8, payload, now)
  {
    if |payload| > MAX_DECODED_BYTES { return Err("oversize"); }
    var reader := new Reader(payload);
    var version := reader.Take(1);
    if version.None? { return Err("truncated_version"); }
    if version.value != [1] { return Err("bad_version"); }
    var computer := reader.Take(32);
    if computer.None? { return Err("truncated_key"); }
    var secret := reader.Take(32);
    if secret.None? { return Err("truncated_secret"); }
    var expiry := reader.Take(4);
    if expiry.None? { return Err("truncated_expiry"); }
    if FromBigEndian(expiry.value) <= now { return Err("past_expiry"); }
    var size := reader.Take(1);
    if size.None? { return Err("truncated_name_length"); }
    if size.value[0] > 64 { return Err("name_too_long"); }
    r := reader.TakeName(utf8, computer.value, secret.value, FromBigEndian(expiry.value), size.value[0]);
  }
}
