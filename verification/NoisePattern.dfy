/**
 The handshake as a pattern: the token rules of the Noise Protocol Framework
 (sections 5.3, 7.5, 9.2 and 9.4 of revision 34) as an interpreter over any token
 sequence. The four hand-written messages are this interpreter run on IK, or on
 IKpsk1 when a pre-shared key is given.
 */
module NoisePattern {
  import opened Bytes
  import opened Noise
  import opened Wrappers

  datatype Token = E | S | EE | ES | SE | SS | Psk

  /** One end: its own private keys, and the peer's public keys as far as it knows them. */
  datatype Party = Party(initiator: bool, s: octets, e: octets, rs: octets, re: octets, psk: Option<octets>)

  function First(psk: Option<octets>): seq<Token> {
    [E, ES, S, SS] + if psk.Some? then [Psk] else []
  }

  function Second(): seq<Token> { [E, EE, SE] }

  function Name(t: Token): string {
    match t
    case E => "e" case S => "s" case EE => "ee" case ES => "es" case SE => "se" case SS => "ss" case Psk => "psk"
  }

  predicate IsExchange(t: Token) { t.EE? || t.ES? || t.SE? || t.SS? }

  /**
   The local private and the remote public key an exchange uses. The first letter
   names the initiator's key and the second the responder's.
   */
  function Exchanged(me: Party, t: Token): (octets, octets)
    requires IsExchange(t)
  {
    match t
    case EE => (me.e, me.re)
    case SS => (me.s, me.rs)
    case ES => if me.initiator then (me.e, me.rs) else (me.s, me.re)
    case SE => if me.initiator then (me.s, me.re) else (me.e, me.rs)
  }

  function Exchange(p: Primitives, me: Party, state: Sym, t: Token): Outcome<()>
    requires IsExchange(t)
  {
    var keys := Exchanged(me, t);
    MixDh(p, state, keys.0, keys.1, Name(t))
  }

  /** Until a key exists text travels in the clear, and is hashed all the same. */
  function Protect(p: Primitives, state: Sym, text: octets, token: string): Outcome<octets> {
    if state.key.Some? then EncryptAndHash(p, state, text, token) else Done(MixHash(p, state, text), text)
  }

  function Unprotect(p: Primitives, state: Sym, sent: octets, token: string): Outcome<octets> {
    if state.key.Some? then DecryptAndHash(p, state, sent, token) else Done(MixHash(p, state, sent), sent)
  }

  /** Plays one token as the sender: the new state, and the octets sent for it. */
  function Send(p: Primitives, me: Party, state: Sym, t: Token): Outcome<octets> {
    match t
    case E => Done(MixEphemeral(p, state, p.public(me.e), me.psk), p.public(me.e))
    case S => Protect(p, state, p.public(me.s), "s")
    case Psk => Done(MixPsk(p, state, me.psk), [])
    case _ =>
      match Exchange(p, me, state, t)
      case Failed(s, why) => Failed(s, why)
      case Done(s, _) => Done(s, [])
  }

  /** Plays one token as the receiver: the new state, what is now known, and the octets left. */
  function Receive(p: Primitives, me: Party, state: Sym, t: Token, rest: octets): Outcome<(Party, octets)> {
    match t
    case E =>
      if |rest| < 32 then Failed(state, BadLength)
      else Done(MixEphemeral(p, state, rest[..32], me.psk), (me.(re := rest[..32]), rest[32..]))
    case S =>
      var n := if state.key.Some? then 48 else 32;
      if |rest| < n then Failed(state, BadLength)
      else (
        match Unprotect(p, state, rest[..n], "s")
        case Failed(s, why) => Failed(s, why)
        case Done(s, rs) => Done(s, (me.(rs := rs), rest[n..])))
    case Psk => Done(MixPsk(p, state, me.psk), (me, rest))
    case _ =>
      match Exchange(p, me, state, t)
      case Failed(s, why) => Failed(s, why)
      case Done(s, _) => Done(s, (me, rest))
  }

  /** What a part sends, put before what the rest of the message sends. */
  function Before(sent: octets, later: Outcome<octets>): Outcome<octets> {
    match later
    case Failed(s, why) => Failed(s, why)
    case Done(s, more) => Done(s, sent + more)
  }

  /** Writes a message of any pattern. */
  function Write(p: Primitives, me: Party, state: Sym, tokens: seq<Token>, payload: string): Outcome<octets>
    decreases |tokens|
  {
    if tokens == [] then Protect(p, state, [], payload)
    else
      match Send(p, me, state, tokens[0])
      case Failed(s, why) => Failed(s, why)
      case Done(s, sent) => Before(sent, Write(p, me, s, tokens[1..], payload))
  }

  function Knowing(me: Party, got: Outcome<octets>): Outcome<(Party, octets)> {
    match got
    case Failed(s, why) => Failed(s, why)
    case Done(s, text) => Done(s, (me, text))
  }

  /** Reads a message of any pattern: what is now known, and the payload. */
  function Read(p: Primitives, me: Party, state: Sym, tokens: seq<Token>, rest: octets, payload: string)
    : Outcome<(Party, octets)>
    decreases |tokens|
  {
    if tokens == [] then
      Knowing(me, Unprotect(p, state, rest, payload))
    else
      match Receive(p, me, state, tokens[0], rest)
      case Failed(s, why) => Failed(s, why)
      case Done(s, got) => Read(p, got.0, s, tokens[1..], got.1, payload)
  }

  /** The rest of a message, behind a first token that was sent. */
  function WriteOn(p: Primitives, me: Party, first: Outcome<octets>, tokens: seq<Token>, payload: string)
    : Outcome<octets>
  {
    match first
    case Failed(s, why) => Failed(s, why)
    case Done(s, sent) => Before(sent, Write(p, me, s, tokens, payload))
  }

  function ReadOn(p: Primitives, first: Outcome<(Party, octets)>, tokens: seq<Token>, payload: string)
    : Outcome<(Party, octets)>
  {
    match first
    case Failed(s, why) => Failed(s, why)
    case Done(s, got) => Read(p, got.0, s, tokens, got.1, payload)
  }

  lemma {:induction false} WriteStep(p: Primitives, me: Party, state: Sym, t: Token, tokens: seq<Token>,
                                     payload: string)
    ensures Write(p, me, state, [t] + tokens, payload) == WriteOn(p, me, Send(p, me, state, t), tokens, payload)
  {
    assert ([t] + tokens)[1..] == tokens;
  }

  lemma {:induction false} ReadStep(p: Primitives, me: Party, state: Sym, t: Token, tokens: seq<Token>, rest: octets,
                                    payload: string)
    ensures Read(p, me, state, [t] + tokens, rest, payload)
            == ReadOn(p, Receive(p, me, state, t, rest), tokens, payload)
  {
    assert ([t] + tokens)[1..] == tokens;
  }

  // ------------------------------------------------ any pattern, both ends

  /** An exchange uses, at each end, the public half of the other end's key. */
  predicate Playable(p: Primitives, a: Party, b: Party, t: Token) {
    IsExchange(t) ==>
      && Exchanged(a, t).1 == p.public(Exchanged(b, t).0)
      && Exchanged(b, t).1 == p.public(Exchanged(a, t).0)
  }

  /**
   Every exchange in the message uses keys the two ends know of each other, given
   what the message has taught the receiver by then.
   */
  predicate Legal(p: Primitives, a: Party, b: Party, tokens: seq<Token>)
    decreases |tokens|
  {
    tokens == [] || (Playable(p, a, b, tokens[0]) && Legal(p, a, Taught(p, a, b, [tokens[0]]), tokens[1..]))
  }

  /** What the receiver knows once the message is read. */
  function Taught(p: Primitives, a: Party, b: Party, tokens: seq<Token>): Party {
    b.(re := if E in tokens then p.public(a.e) else b.re, rs := if S in tokens then p.public(a.s) else b.rs)
  }

  lemma ProtectAgrees(p: Primitives, x: Sym, y: Sym, text: octets, token: string)
    requires Laws(p) && Agree(x, y)
    ensures var sent := Protect(p, x, text, token);
            sent.Done? &&
            var got := Unprotect(p, y, sent.value, token);
            && got.Done? && got.value == text && Agree(sent.state, got.state)
            && |sent.value| == |text| + if x.key.Some? then 16 else 0
  {
    if x.key.Some? { SealThenOpenAgree(p, x, y, text, token); }
  }

  /** One token, sent and received, keeps the two ends together. */
  lemma TokenAgrees(p: Primitives, a: Party, b: Party, x: Sym, y: Sym, t: Token, tokens: seq<Token>, rest: octets)
    requires Laws(p) && Agree(x, y) && a.psk == b.psk && Legal(p, a, b, [t] + tokens)
    requires Send(p, a, x, t).Done?
    ensures var sent := Send(p, a, x, t);
            var got := Receive(p, b, y, t, sent.value + rest);
            && got.Done? && Agree(sent.state, got.state)
            && got.value == (Taught(p, a, b, [t]), rest) && Legal(p, a, got.value.0, tokens)
  {
    assert ([t] + tokens)[1..] == tokens;
    match t
    case E => CutConcat(p.public(a.e), rest);
    case S =>
      ProtectAgrees(p, x, y, p.public(a.s), "s");
      CutConcat(Protect(p, x, p.public(a.s), "s").value, rest);
    case Psk => NilConcat(rest);
    case _ =>
      ExchangesAgree(p, x, y, Exchanged(a, t).0, Exchanged(b, t).0, Name(t));
      NilConcat(rest);
  }

  /**
   For every token sequence whose exchanges both ends can make: what one end writes
   the other reads back, and they stand in one state knowing the same keys.
   */
  lemma {:induction false} PatternAgrees(p: Primitives, a: Party, b: Party, x: Sym, y: Sym, tokens: seq<Token>,
                                         payload: string)
    requires Laws(p) && Agree(x, y) && a.psk == b.psk && Legal(p, a, b, tokens)
    requires Write(p, a, x, tokens, payload).Done?
    ensures var sent := Write(p, a, x, tokens, payload);
            var got := Read(p, b, y, tokens, sent.value, payload);
            got.Done? && Agree(sent.state, got.state) && got.value == (Taught(p, a, b, tokens), [])
    decreases |tokens|
  {
    if tokens == [] {
      ProtectAgrees(p, x, y, [], payload);
    } else {
      var t, later := tokens[0], tokens[1..];
      assert tokens == [t] + later;
      var sent := Send(p, a, x, t);
      var more := Write(p, a, sent.state, later, payload);
      TokenAgrees(p, a, b, x, y, t, later, more.value);
      var got := Receive(p, b, y, t, sent.value + more.value);
      PatternAgrees(p, a, got.value.0, sent.state, got.state, later, payload);
    }
  }

  // ------------------------------------------------ the messages are the pattern

  /** The first message is IK's, or IKpsk1's, for every key and every failure. */
  lemma {:induction false} FirstIsWritten(p: Primitives, si: octets, ei: octets, srPublic: octets, psk: Option<octets>)
    ensures var me := Party(true, si, ei, srPublic, [], psk);
            WriteMessage1(p, si, ei, srPublic, psk) == Write(p, me, Start(p, srPublic, psk), First(psk), "payload1")
  {
    var me := Party(true, si, ei, srPublic, [], psk);
    var end := if psk.Some? then [Psk] else [];
    var s0 := Start(p, srPublic, psk);
    assert First(psk) == [E] + ([ES] + ([S] + ([SS] + end)));
    WriteStep(p, me, s0, E, [ES] + ([S] + ([SS] + end)), "payload1");
    var s1 := Send(p, me, s0, E).state;
    WriteStep(p, me, s1, ES, [S] + ([SS] + end), "payload1");
    var es := Send(p, me, s1, ES);
    if es.Done? {
      WriteStep(p, me, es.state, S, [SS] + end, "payload1");
      var s := Send(p, me, es.state, S);
      WriteStep(p, me, s.state, SS, end, "payload1");
      var ss := Send(p, me, s.state, SS);
      if ss.Done? {
        FirstEnds(p, me, ss.state);
        var tag := EncryptAndHash(p, MixPsk(p, ss.state, psk), [], "payload1").value;
        NilConcat(tag);
        NilConcat(s.value + tag);
        ConcatAssociates(p.public(ei), s.value, tag);
      }
    }
  }

  lemma {:induction false} FirstEnds(p: Primitives, me: Party, state: Sym)
    requires state.key.Some?
    ensures Write(p, me, state, if me.psk.Some? then [Psk] else [], "payload1")
            == EncryptAndHash(p, MixPsk(p, state, me.psk), [], "payload1")
  {
    if me.psk.Some? {
      assert [Psk] == [Psk] + [];
      WriteStep(p, me, state, Psk, [], "payload1");
      NilConcat(EncryptAndHash(p, MixPsk(p, state, me.psk), [], "payload1").value);
    }
  }

  /** The second message is the pattern's, answered from any state. */
  lemma {:induction false} SecondIsWritten(p: Primitives, state: Sym, sr: octets, er: octets, siPublic: octets,
                                           eiPublic: octets, psk: Option<octets>)
    ensures var me := Party(false, sr, er, siPublic, eiPublic, psk);
            WriteMessage2(p, state, er, siPublic, eiPublic, psk) == Write(p, me, state, Second(), "payload2")
  {
    var me := Party(false, sr, er, siPublic, eiPublic, psk);
    assert Second() == [E] + ([EE] + ([SE] + []));
    WriteStep(p, me, state, E, [EE] + ([SE] + []), "payload2");
    var s1 := Send(p, me, state, E).state;
    WriteStep(p, me, s1, EE, [SE] + [], "payload2");
    var ee := Send(p, me, s1, EE);
    if ee.Done? {
      WriteStep(p, me, ee.state, SE, [], "payload2");
      var se := Send(p, me, ee.state, SE);
      if se.Done? { NilConcat(EncryptAndHash(p, se.state, [], "payload2").value); }
    }
  }

  /** A payload is expected to be empty. */
  function Checked(got: Outcome<(Party, octets)>): Outcome<Party> {
    match got
    case Failed(s, why) => Failed(s, why)
    case Done(s, (who, payload)) => if payload == [] then Done(s, who) else Failed(s, UnexpectedPayload)
  }

  function Learned(got: Outcome<Party>): Outcome<(octets, octets)> {
    match got
    case Failed(s, why) => Failed(s, why)
    case Done(s, who) => Done(s, (who.rs, who.re))
  }

  /** The tokens of the first message, from the sealed static key on. */
  function StaticOn(psk: Option<octets>): seq<Token> {
    [S] + ([SS] + if psk.Some? then [Psk] else [])
  }

  /** The hand-written reader's half of the first message, from the same point on. */
  function ReadStatic(p: Primitives, me: Party, state: Sym, rest: octets): Outcome<(octets, octets)>
    requires state.key.Some? && |rest| == 64
  {
    match DecryptAndHash(p, state, rest[..48], "s")
    case Failed(s, why) => Failed(s, why)
    case Done(s, si) =>
      match MixDh(p, s, me.s, si, "ss")
      case Failed(s, why) => Failed(s, why)
      case Done(s, _) =>
        match DecryptAndHash(p, MixPsk(p, s, me.psk), rest[48..], "payload1")
        case Failed(s, why) => Failed(s, why)
        case Done(s, text) => if text == [] then Done(s, (si, me.re)) else Failed(s, UnexpectedPayload)
  }

  lemma {:induction false} StaticIsRead(p: Primitives, me: Party, state: Sym, rest: octets)
    requires state.key.Some? && |rest| == 64
    ensures Learned(Checked(Read(p, me, state, StaticOn(me.psk), rest, "payload1"))) == ReadStatic(p, me, state, rest)
  {
    var end := if me.psk.Some? then [Psk] else [];
    ReadStep(p, me, state, S, [SS] + end, rest, "payload1");
    var s := Receive(p, me, state, S, rest);
    if s.Done? {
      ReadStep(p, s.value.0, s.state, SS, end, s.value.1, "payload1");
      var ss := Receive(p, s.value.0, s.state, SS, s.value.1);
      if ss.Done? { FirstReadEnds(p, ss.value.0, ss.state, rest[48..]); }
    }
  }

  /** Reading a first message of the right length is reading the pattern, on any octets at all. */
  lemma {:induction false} FirstIsRead(p: Primitives, state: Sym, sr: octets, message: octets, psk: Option<octets>)
    requires |message| == 96
    ensures var me := Party(false, sr, [], [], [], psk);
            ReadMessage1(p, state, sr, message, psk)
            == Learned(Checked(Read(p, me, state, First(psk), message, "payload1")))
  {
    var me := Party(false, sr, [], [], [], psk);
    assert First(psk) == [E] + ([ES] + StaticOn(psk));
    ReadStep(p, me, state, E, [ES] + StaticOn(psk), message, "payload1");
    var e := Receive(p, me, state, E, message);
    ReadStep(p, e.value.0, e.state, ES, StaticOn(psk), e.value.1, "payload1");
    var es := Receive(p, e.value.0, e.state, ES, e.value.1);
    if es.Done? {
      assert e.value.1[..48] == message[32..80] && e.value.1[48..] == message[80..];
      StaticIsRead(p, es.value.0, es.state, es.value.1);
    }
  }

  lemma {:induction false} FirstReadEnds(p: Primitives, me: Party, state: Sym, rest: octets)
    requires state.key.Some?
    ensures Read(p, me, state, if me.psk.Some? then [Psk] else [], rest, "payload1")
            == Knowing(me, DecryptAndHash(p, MixPsk(p, state, me.psk), rest, "payload1"))
  {
    if me.psk.Some? {
      assert [Psk] == [Psk] + [];
      ReadStep(p, me, state, Psk, [], rest, "payload1");
    }
  }

  /** Reading a second message of the right length is reading the pattern. */
  lemma {:induction false} SecondIsRead(p: Primitives, state: Sym, si: octets, ei: octets, message: octets,
                                        psk: Option<octets>)
    requires |message| == 48
    ensures var got := Checked(Read(p, Party(true, si, ei, [], [], psk), state, Second(), message, "payload2"));
            ReadMessage2(p, state, si, ei, message, psk)
            == if got.Done? then Done(got.state, ()) else Failed(got.state, got.failure)
  {
    var me := Party(true, si, ei, [], [], psk);
    assert Second() == [E] + ([EE] + ([SE] + []));
    ReadStep(p, me, state, E, [EE] + ([SE] + []), message, "payload2");
    var e := Receive(p, me, state, E, message);
    ReadStep(p, e.value.0, e.state, EE, [SE] + [], e.value.1, "payload2");
    var ee := Receive(p, e.value.0, e.state, EE, e.value.1);
    if ee.Done? {
      ReadStep(p, ee.value.0, ee.state, SE, [], ee.value.1, "payload2");
    }
  }

  // ------------------------------------------------ so both peers end up in one state

  lemma {:induction false} LegalStep(p: Primitives, a: Party, b: Party, t: Token, tokens: seq<Token>)
    requires Playable(p, a, b, t) && Legal(p, a, Taught(p, a, b, [t]), tokens)
    ensures Legal(p, a, b, [t] + tokens)
  {
    assert ([t] + tokens)[1..] == tokens;
  }

  lemma FirstIsLegal(p: Primitives, a: Party, b: Party)
    requires a.initiator && !b.initiator && a.rs == p.public(b.s)
    ensures Legal(p, a, b, First(a.psk))
  {
    var end := if a.psk.Some? then [Psk] else [];
    assert First(a.psk) == [E] + ([ES] + ([S] + ([SS] + end)));
    var b1 := b.(re := p.public(a.e));
    var b2 := b1.(rs := p.public(a.s));
    assert Legal(p, a, b2, end) by { if a.psk.Some? { assert [Psk] == [Psk] + []; LegalStep(p, a, b2, Psk, []); } }
    LegalStep(p, a, b2, SS, end);
    LegalStep(p, a, b1, S, [SS] + end);
    LegalStep(p, a, b1, ES, [S] + ([SS] + end));
    LegalStep(p, a, b, E, [ES] + ([S] + ([SS] + end)));
  }

  lemma SecondIsLegal(p: Primitives, a: Party, b: Party)
    requires !a.initiator && b.initiator && a.rs == p.public(b.s) && a.re == p.public(b.e)
    ensures Legal(p, a, b, Second())
  {
    var b1 := b.(re := p.public(a.e));
    assert Second() == [E] + ([EE] + ([SE] + []));
    LegalStep(p, a, b1, SE, []);
    LegalStep(p, a, b1, EE, [SE] + []);
    LegalStep(p, a, b, E, [EE] + ([SE] + []));
  }

  lemma FirstLength(p: Primitives, si: octets, ei: octets, srPublic: octets, psk: Option<octets>)
    requires Laws(p) && WriteMessage1(p, si, ei, srPublic, psk).Done?
    ensures |WriteMessage1(p, si, ei, srPublic, psk).value| == 96
  {
    assert |p.public(ei)| == 32 && |p.public(si)| == 32;
  }

  lemma SecondLength(p: Primitives, state: Sym, er: octets, siPublic: octets, eiPublic: octets, psk: Option<octets>)
    requires Laws(p) && WriteMessage2(p, state, er, siPublic, eiPublic, psk).Done?
    ensures |WriteMessage2(p, state, er, siPublic, eiPublic, psk).value| == 48
  {
    assert |p.public(er)| == 32;
  }

  /** The responder reads what the initiator wrote and stands where the initiator stands. */
  lemma Message1Agrees(p: Primitives, si: octets, ei: octets, sr: octets, psk: Option<octets>)
    requires Laws(p)
    requires WriteMessage1(p, si, ei, p.public(sr), psk).Done?
    ensures var sent := WriteMessage1(p, si, ei, p.public(sr), psk);
            var got := ReadMessage1(p, Start(p, p.public(sr), psk), sr, sent.value, psk);
            got.Done? && got.value == (p.public(si), p.public(ei)) && Agree(sent.state, got.state)
  {
    var a, b := Party(true, si, ei, p.public(sr), [], psk), Party(false, sr, [], [], [], psk);
    var start, sent := Start(p, p.public(sr), psk), WriteMessage1(p, si, ei, p.public(sr), psk);
    FirstLength(p, si, ei, p.public(sr), psk);
    FirstIsWritten(p, si, ei, p.public(sr), psk);
    FirstIsRead(p, start, sr, sent.value, psk);
    FirstIsLegal(p, a, b);
    PatternAgrees(p, a, b, start, start, First(psk), "payload1");
  }

  /** The initiator reads the answer and stands where the responder stands. */
  lemma Message2Agrees(p: Primitives, i: Sym, r: Sym, si: octets, ei: octets, er: octets, psk: Option<octets>)
    requires Laws(p) && Agree(i, r)
    requires WriteMessage2(p, r, er, p.public(si), p.public(ei), psk).Done?
    ensures var sent := WriteMessage2(p, r, er, p.public(si), p.public(ei), psk);
            var got := ReadMessage2(p, i, si, ei, sent.value, psk);
            got.Done? && Agree(sent.state, got.state)
  {
    var a, b := Party(false, [], er, p.public(si), p.public(ei), psk), Party(true, si, ei, [], [], psk);
    var sent := WriteMessage2(p, r, er, p.public(si), p.public(ei), psk);
    SecondLength(p, r, er, p.public(si), p.public(ei), psk);
    SecondIsWritten(p, r, [], er, p.public(si), p.public(ei), psk);
    SecondIsRead(p, i, si, ei, sent.value, psk);
    SecondIsLegal(p, a, b);
    PatternAgrees(p, a, b, r, i, Second(), "payload2");
  }

  /**
   For all keys, with or without a pre-shared key: whenever the exchanges
   succeed, the two peers hold one hash, chaining key, cipher key and nonce after
   each message, learn each other's keys, and split to the same transport keys.
   */
  lemma HandshakeAgrees(p: Primitives, si: octets, sr: octets, ei: octets, er: octets, psk: Option<octets>)
    requires Laws(p)
    ensures var m1 := WriteMessage1(p, si, ei, p.public(sr), psk);
            m1.Done? ==>
            var got1 := ReadMessage1(p, Start(p, p.public(sr), psk), sr, m1.value, psk);
            && got1.Done? && got1.value == (p.public(si), p.public(ei)) && Agree(m1.state, got1.state)
            && var m2 := WriteMessage2(p, got1.state, er, got1.value.0, got1.value.1, psk);
               m2.Done? ==>
               var got2 := ReadMessage2(p, m1.state, si, ei, m2.value, psk);
               got2.Done? && Agree(m2.state, got2.state) && Split(p, m2.state) == Split(p, got2.state)
  {
    var m1 := WriteMessage1(p, si, ei, p.public(sr), psk);
    if m1.Done? {
      Message1Agrees(p, si, ei, sr, psk);
      var got1 := ReadMessage1(p, Start(p, p.public(sr), psk), sr, m1.value, psk);
      if WriteMessage2(p, got1.state, er, got1.value.0, got1.value.1, psk).Done? {
        Message2Agrees(p, m1.state, got1.state, si, ei, er, psk);
      }
    }
  }
}
