/**
 The pairing handshake: Noise IK, and IKpsk1 when a pre-shared key is given,
 over abstract primitives of which only algebraic laws are used.
 */
module Noise {
  import opened Bytes
  import opened Wrappers

  type octets = seq<byte>

  /** The primitives. A failed `dh` or `open` is the exception the library raises. */
  datatype Primitives = Primitives(
    hash: octets -> octets,
    hmac: (octets, octets) -> octets,
    public: octets -> octets,
    dh: (octets, octets) -> Option<octets>,
    seal: (octets, octets, octets, octets) -> octets,
    open: (octets, octets, octets, octets) -> Option<octets>)

  /** Both sides of an exchange reach one secret, and opening undoes sealing. */
  ghost predicate Laws(p: Primitives) {
    && (forall a, b :: p.dh(a, p.public(b)) == p.dh(b, p.public(a)))
    && (forall k, n, ad, text :: p.open(k, n, ad, p.seal(k, n, ad, text)) == Some(text))
    && (forall a :: |p.public(a)| == 32)
    && (forall k, n, ad, text :: |p.seal(k, n, ad, text)| == |text| + 16)
  }

  function Ascii(s: string): octets {
    seq(|s|, i requires 0 <= i < |s| => s[i] as int % 256)
  }

  const PROLOGUE: octets := Ascii("subc-fed/1")
  const IK: octets := Ascii("Noise_IK_25519_ChaChaPoly_BLAKE2s")
  const PAIR: octets := Ascii("Noise_IKpsk1_25519_ChaChaPoly_BLAKE2s")

  datatype Failure = InvalidTag | BadLength | NoSharedSecret | UnexpectedPayload

  // ------------------------------------------------ key derivation

  /** Output `i` of the expansion, each keyed on the one before it. */
  function HkdfOutput(p: Primitives, prk: octets, info: octets, i: nat): octets
    requires i < 256
  {
    if i == 0 then [] else p.hmac(prk, HkdfOutput(p, prk, info, i - 1) + info + [i])
  }

  method Hkdf(p: Primitives, salt: octets, ikm: octets, outputs: nat, info: octets)
    returns (prk: octets, result: seq<octets>)
    requires outputs < 256
    ensures prk == p.hmac(salt, ikm) && |result| == outputs
    ensures forall i :: 0 <= i < outputs ==> result[i] == HkdfOutput(p, prk, info, i + 1)
  {
    prk := p.hmac(salt, ikm);
    var previous: octets := [];
    result := [];
    for index := 1 to outputs + 1
      invariant |result| == index - 1 && previous == HkdfOutput(p, prk, info, index - 1)
      invariant forall i :: 0 <= i < |result| ==> result[i] == HkdfOutput(p, prk, info, i + 1)
    {
      previous := p.hmac(prk, previous + info + [index]);
      result := result + [previous];
    }
  }

  function Derived(p: Primitives, ck: octets, ikm: octets, i: nat): octets
    requires i < 256
  {
    HkdfOutput(p, p.hmac(ck, ikm), [], i)
  }

  // ------------------------------------------------ the symmetric state

  datatype Sym = Sym(h: octets, ck: octets, key: Option<octets>, nonce: nat, operations: seq<string>)

  function Initialize(p: Primitives, protocol: octets, responderPublic: octets): Sym {
    var h := if |protocol| <= 32 then protocol + seq(32 - |protocol|, _ => 0) else p.hash(protocol);
    MixHash(p, MixHash(p, Sym(h, h, None, 0, []), PROLOGUE), responderPublic)
  }

  function MixHash(p: Primitives, s: Sym, data: octets): Sym {
    s.(h := p.hash(s.h + data))
  }

  function MixKey(p: Primitives, s: Sym, ikm: octets, token: string): Sym {
    s.(ck := Derived(p, s.ck, ikm, 1), key := Some(Derived(p, s.ck, ikm, 2)), nonce := 0,
       operations := s.operations + ["HKDF2:" + token])
  }

  function MixKeyAndHash(p: Primitives, s: Sym, psk: octets): Sym {
    MixHash(p, s, Derived(p, s.ck, psk, 2))
      .(ck := Derived(p, s.ck, psk, 1), key := Some(Derived(p, s.ck, psk, 3)), nonce := 0,
        operations := s.operations + ["HKDF3:psk"])
  }

  function NonceOctets(n: nat): octets { [0, 0, 0, 0] + LittleEndian(n, 8) }

  function Noted(s: Sym, operation: string): Sym { s.(operations := s.operations + [operation]) }

  /** The state once a ciphertext is bound to the transcript. */
  function Bound(p: Primitives, s: Sym, ciphertext: octets): Sym {
    MixHash(p, s.(nonce := s.nonce + 1), ciphertext)
  }

  function Sealed(p: Primitives, s: Sym, text: octets): octets
    requires s.key.Some?
  {
    p.seal(s.key.value, NonceOctets(s.nonce), s.h, text)
  }

  function Split(p: Primitives, s: Sym): (octets, octets) {
    (Derived(p, s.ck, [], 1), Derived(p, s.ck, [], 2))
  }

  /** The part of the state both peers must share; the operation log is each peer's own. */
  predicate Agree(a: Sym, b: Sym) {
    a.h == b.h && a.ck == b.ck && a.key == b.key && a.nonce == b.nonce
  }

  // ------------------------------------------------ the messages

  datatype Outcome<+T> = Done(state: Sym, value: T) | Failed(state: Sym, failure: Failure)

  /** Mixes an exchanged secret; the exchange itself may fail. */
  function MixDh(p: Primitives, s: Sym, private: octets, remote: octets, token: string): Outcome<()> {
    var noted := Noted(s, "DH:" + token);
    match p.dh(private, remote)
    case None => Failed(noted, NoSharedSecret)
    case Some(secret) => Done(MixKey(p, noted, secret, token), ())
  }

  function DecryptAndHash(p: Primitives, s: Sym, ciphertext: octets, token: string): Outcome<octets>
    requires s.key.Some?
  {
    var noted := Noted(s, "AEAD_DECRYPT:" + token);
    match p.open(s.key.value, NonceOctets(s.nonce), s.h, ciphertext)
    case None => Failed(noted, InvalidTag)
    case Some(text) => Done(Bound(p, noted, ciphertext), text)
  }

  function EncryptAndHash(p: Primitives, s: Sym, text: octets, token: string): Outcome<octets>
    requires s.key.Some?
  {
    var noted := Noted(s, "AEAD_ENCRYPT:" + token);
    Done(Bound(p, noted, Sealed(p, s, text)), Sealed(p, s, text))
  }

  /** The ephemeral is hashed, and keyed too when a pre-shared key is in play. */
  function MixEphemeral(p: Primitives, s: Sym, e: octets, psk: Option<octets>): Sym {
    var hashed := MixHash(p, s, e);
    if psk.Some? then MixKey(p, hashed, e, "e") else hashed
  }

  function MixPsk(p: Primitives, s: Sym, psk: Option<octets>): Sym {
    if psk.Some? then MixKeyAndHash(p, s, psk.value) else s
  }

  function Start(p: Primitives, responderPublic: octets, psk: Option<octets>): Sym {
    Initialize(p, if psk.Some? then PAIR else IK, responderPublic)
  }

  function WriteMessage1(p: Primitives, si: octets, ei: octets, srPublic: octets, psk: Option<octets>)
    : Outcome<octets>
  {
    var e := p.public(ei);
    match MixDh(p, MixEphemeral(p, Start(p, srPublic, psk), e, psk), ei, srPublic, "es")
    case Failed(s, why) => Failed(s, why)
    case Done(s, _) =>
      var sealedStatic := EncryptAndHash(p, s, p.public(si), "s");
      match MixDh(p, sealedStatic.state, si, srPublic, "ss")
      case Failed(s, why) => Failed(s, why)
      case Done(s, _) =>
        var tag := EncryptAndHash(p, MixPsk(p, s, psk), [], "payload1");
        Done(tag.state, e + sealedStatic.value + tag.value)
  }

  /** Yields the initiator's static and ephemeral public keys. */
  function ReadMessage1(p: Primitives, state: Sym, sr: octets, message: octets, psk: Option<octets>)
    : Outcome<(octets, octets)>
  {
    if |message| != 96 then Failed(state, BadLength)
    else
      var ei := message[..32];
      match MixDh(p, MixEphemeral(p, state, ei, psk), sr, ei, "es")
      case Failed(s, why) => Failed(s, why)
      case Done(s, _) =>
        match DecryptAndHash(p, s, message[32..80], "s")
        case Failed(s, why) => Failed(s, why)
        case Done(s, si) =>
          match MixDh(p, s, sr, si, "ss")
          case Failed(s, why) => Failed(s, why)
          case Done(s, _) =>
            match DecryptAndHash(p, MixPsk(p, s, psk), message[80..], "payload1")
            case Failed(s, why) => Failed(s, why)
            case Done(s, payload) => if payload == [] then Done(s, (si, ei)) else Failed(s, UnexpectedPayload)
  }

  function WriteMessage2(p: Primitives, state: Sym, er: octets, siPublic: octets, eiPublic: octets, psk: Option<octets>)
    : Outcome<octets>
  {
    var e := p.public(er);
    match MixDh(p, MixEphemeral(p, state, e, psk), er, eiPublic, "ee")
    case Failed(s, why) => Failed(s, why)
    case Done(s, _) =>
      match MixDh(p, s, er, siPublic, "se")
      case Failed(s, why) => Failed(s, why)
      case Done(s, _) =>
        var tag := EncryptAndHash(p, s, [], "payload2");
        Done(tag.state, e + tag.value)
  }

  function ReadMessage2(p: Primitives, state: Sym, si: octets, ei: octets, message: octets, psk: Option<octets>)
    : Outcome<()>
  {
    if |message| != 48 then Failed(state, BadLength)
    else
      var er := message[..32];
      match MixDh(p, MixEphemeral(p, state, er, psk), ei, er, "ee")
      case Failed(s, why) => Failed(s, why)
      case Done(s, _) =>
        match MixDh(p, s, si, er, "se")
        case Failed(s, why) => Failed(s, why)
        case Done(s, _) =>
          match DecryptAndHash(p, s, message[32..], "payload2")
          case Failed(s, why) => Failed(s, why)
          case Done(s, payload) => if payload == [] then Done(s, ()) else Failed(s, UnexpectedPayload)
  }

  // ------------------------------------------------ the two ends of one step

  lemma ExchangesAgree(p: Primitives, a: Sym, b: Sym, x: octets, y: octets, token: string)
    requires Laws(p) && Agree(a, b)
    ensures var l, r := MixDh(p, a, x, p.public(y), token), MixDh(p, b, y, p.public(x), token);
            && (l.Done? <==> r.Done?)
            && (l.Done? ==> Agree(l.state, r.state) && l.state.key.Some?)
  {
    assert p.dh(x, p.public(y)) == p.dh(y, p.public(x));
  }

  lemma SealThenOpenAgree(p: Primitives, a: Sym, b: Sym, text: octets, token: string)
    requires Laws(p) && Agree(a, b) && a.key.Some?
    ensures var sent := EncryptAndHash(p, a, text, token);
            var got := DecryptAndHash(p, b, sent.value, token);
            got.Done? && got.value == text && Agree(sent.state, got.state) && |sent.value| == |text| + 16
  {
    var k, n, ad := a.key.value, NonceOctets(a.nonce), a.h;
    assert p.open(k, n, ad, p.seal(k, n, ad, text)) == Some(text);
  }

  // ------------------------------------------------ equal work under any secret

  /** What a responder does with a first message under one candidate secret. */
  function Trial(p: Primitives, sr: octets, message: octets, psk: Option<octets>): Outcome<(octets, octets)> {
    ReadMessage1(p, Start(p, p.public(sr), psk), sr, message, psk)
  }

  /** The part of a pairing trial that runs before the secret is mixed in. */
  function BeforeSecret(p: Primitives, sr: octets, message: octets): Outcome<(octets, octets)> {
    var state := Initialize(p, PAIR, p.public(sr));
    if |message| != 96 then Failed(state, BadLength)
    else
      var ei := message[..32];
      match MixDh(p, MixKey(p, MixHash(p, state, ei), ei, "e"), sr, ei, "es")
      case Failed(s, why) => Failed(s, why)
      case Done(s, _) =>
        match DecryptAndHash(p, s, message[32..80], "s")
        case Failed(s, why) => Failed(s, why)
        case Done(s, si) =>
          match MixDh(p, s, sr, si, "ss")
          case Failed(s, why) => Failed(s, why)
          case Done(s, _) => Done(s, (si, ei))
  }

  lemma SecretComesLast(p: Primitives, sr: octets, message: octets, psk: octets)
    ensures Trial(p, sr, message, Some(psk)) ==
            match BeforeSecret(p, sr, message)
            case Failed(s, why) => Failed(s, why)
            case Done(s, keys) =>
              match DecryptAndHash(p, MixKeyAndHash(p, s, psk), message[80..], "payload1")
              case Failed(s, why) => Failed(s, why)
              case Done(s, payload) => if payload == [] then Done(s, keys) else Failed(s, UnexpectedPayload)
  {
  }

  /**
   A pairing trial performs the same operations in the same order under any two
   secrets, whatever the message; only the verdict on the last tag can differ.
   */
  lemma TrialsDoEqualWork(p: Primitives, sr: octets, message: octets, psk: octets, psk': octets)
    ensures var a, b := Trial(p, sr, message, Some(psk)), Trial(p, sr, message, Some(psk'));
            && a.state.operations == b.state.operations
            && (BeforeSecret(p, sr, message).Failed? ==> a == b)
  {
    SecretComesLast(p, sr, message, psk);
    SecretComesLast(p, sr, message, psk');
  }

  // ------------------------------------------------ the mutable state object

  class SymmetricState {
    const p: Primitives
    var h: octets
    var ck: octets
    var key: Option<octets>
    var nonce: nat
    var operations: seq<string>

    function View(): Sym
      reads this
    {
      Sym(h, ck, key, nonce, operations)
    }

    constructor (p: Primitives, protocol: octets, responderPublic: octets)
      ensures this.p == p && View() == Initialize(p, protocol, responderPublic)
    {
      this.p := p;
      var seed := if |protocol| <= 32 then protocol + seq(32 - |protocol|, _ => 0) else p.hash(protocol);
      h, ck, key, nonce, operations := seed, seed, None, 0, [];
      new;
      Hash(PROLOGUE);
      Hash(responderPublic);
    }

    method Hash(data: octets)
      modifies this
      ensures View() == MixHash(p, old(View()), data)
    {
      h := p.hash(h + data);
    }

    method Key(ikm: octets, token: string)
      modifies this
      ensures View() == MixKey(p, old(View()), ikm, token)
    {
      operations := operations + ["HKDF2:" + token];
      var _, out := Hkdf(p, ck, ikm, 2, []);
      ck, key, nonce := out[0], Some(out[1]), 0;
    }

    method KeyAndHash(psk: octets)
      modifies this
      ensures View() == MixKeyAndHash(p, old(View()), psk)
    {
      operations := operations + ["HKDF3:psk"];
      var _, out := Hkdf(p, ck, psk, 3, []);
      ck := out[0];
      Hash(out[1]);
      key, nonce := Some(out[2]), 0;
    }

    method Exchange(private: octets, remote: octets, token: string) returns (ok: bool)
      modifies this
      ensures MixDh(p, old(View()), private, remote, token) ==
              if ok then Done(View(), ()) else Failed(View(), NoSharedSecret)
    {
      operations := operations + ["DH:" + token];
      var secret := p.dh(private, remote);
      ok := secret.Some?;
      if ok { Key(secret.value, token); }
    }

    method Encrypt(text: octets, token: string) returns (ciphertext: octets)
      requires key.Some?
      modifies this
      ensures EncryptAndHash(p, old(View()), text, token) == Done(View(), ciphertext)
    {
      operations := operations + ["AEAD_ENCRYPT:" + token];
      ciphertext := p.seal(key.value, NonceOctets(nonce), h, text);
      nonce := nonce + 1;
      Hash(ciphertext);
    }

    method Decrypt(ciphertext: octets, token: string) returns (r: Option<octets>)
      requires key.Some?
      modifies this
      ensures DecryptAndHash(p, old(View()), ciphertext, token) ==
              match r case Some(text) => Done(View(), text) case None => Failed(View(), InvalidTag)
    {
      operations := operations + ["AEAD_DECRYPT:" + token];
      r := p.open(key.value, NonceOctets(nonce), h, ciphertext);
      if r.Some? {
        nonce := nonce + 1;
        Hash(ciphertext);
      }
    }
  }

  // ------------------------------------------------ the messages, through the object

  /** How a message ended for the caller, and the state it left. */
  function Ended<T>(s: Sym, r: Result<T, Failure>): Outcome<T> {
    match r
    case Ok(value) => Done(s, value)
    case Err(why) => Failed(s, why)
  }

  method HashEphemeral(state: SymmetricState, e: octets, psk: Option<octets>)
    modifies state
    ensures state.View() == MixEphemeral(state.p, old(state.View()), e, psk)
  {
    state.Hash(e);
    if psk.Some? { state.Key(e, "e"); }
  }

  method KeyPsk(state: SymmetricState, psk: Option<octets>)
    modifies state
    ensures state.View() == MixPsk(state.p, old(state.View()), psk)
  {
    if psk.Some? { state.KeyAndHash(psk.value); }
  }

  method WriteFirst(p: Primitives, si: octets, ei: octets, srPublic: octets, psk: Option<octets>)
    returns (state: SymmetricState, sent: Result<octets, Failure>)
    ensures fresh(state) && state.p == p
    ensures Ended(state.View(), sent) == WriteMessage1(p, si, ei, srPublic, psk)
  {
    state := new SymmetricState(p, if psk.Some? then PAIR else IK, srPublic);
    var e := p.public(ei);
    HashEphemeral(state, e, psk);
    var es := state.Exchange(ei, srPublic, "es");
    if !es { return state, Err(NoSharedSecret); }
    var sealedStatic := state.Encrypt(p.public(si), "s");
    var ss := state.Exchange(si, srPublic, "ss");
    if !ss { return state, Err(NoSharedSecret); }
    KeyPsk(state, psk);
    var tag := state.Encrypt([], "payload1");
    return state, Ok(e + sealedStatic + tag);
  }

  method ReadFirst(state: SymmetricState, sr: octets, message: octets, psk: Option<octets>)
    returns (keys: Result<(octets, octets), Failure>)
    modifies state
    ensures Ended(state.View(), keys) == ReadMessage1(state.p, old(state.View()), sr, message, psk)
  {
    if |message| != 96 { return Err(BadLength); }
    var ei := message[..32];
    HashEphemeral(state, ei, psk);
    var es := state.Exchange(sr, ei, "es");
    if !es { return Err(NoSharedSecret); }
    var si := state.Decrypt(message[32..80], "s");
    if si.None? { return Err(InvalidTag); }
    var ss := state.Exchange(sr, si.value, "ss");
    if !ss { return Err(NoSharedSecret); }
    KeyPsk(state, psk);
    var payload := state.Decrypt(message[80..], "payload1");
    if payload.None? { return Err(InvalidTag); }
    if payload.value != [] { return Err(UnexpectedPayload); }
    return Ok((si.value, ei));
  }

  method WriteSecond(state: SymmetricState, er: octets, siPublic: octets, eiPublic: octets, psk: Option<octets>)
    returns (sent: Result<octets, Failure>)
    modifies state
    ensures Ended(state.View(), sent) == WriteMessage2(state.p, old(state.View()), er, siPublic, eiPublic, psk)
  {
    var e := state.p.public(er);
    HashEphemeral(state, e, psk);
    var ee := state.Exchange(er, eiPublic, "ee");
    if !ee { return Err(NoSharedSecret); }
    var se := state.Exchange(er, siPublic, "se");
    if !se { return Err(NoSharedSecret); }
    var tag := state.Encrypt([], "payload2");
    return Ok(e + tag);
  }

  method ReadSecond(state: SymmetricState, si: octets, ei: octets, message: octets, psk: Option<octets>)
    returns (r: Result<(), Failure>)
    modifies state
    ensures Ended(state.View(), r) == ReadMessage2(state.p, old(state.View()), si, ei, message, psk)
  {
    if |message| != 48 { return Err(BadLength); }
    var er := message[..32];
    HashEphemeral(state, er, psk);
    var ee := state.Exchange(ei, er, "ee");
    if !ee { return Err(NoSharedSecret); }
    var se := state.Exchange(si, er, "se");
    if !se { return Err(NoSharedSecret); }
    var payload := state.Decrypt(message[32..], "payload2");
    if payload.None? { return Err(InvalidTag); }
    if payload.value != [] { return Err(UnexpectedPayload); }
    return Ok(());
  }
}
