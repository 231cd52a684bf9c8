/**
 The messages of the handshake in closed form: which keys, nonces and transcript
 hashes stand behind each ciphertext, with no state passed from step to step.
 */
module NoiseTranscript {
  import opened Bytes
  import opened Noise
  import opened Wrappers

  /** The transcript hash behind a list of items. */
  function Chain(p: Primitives, h: octets, items: seq<octets>): octets
    decreases |items|
  {
    if items == [] then h else Chain(p, p.hash(h + items[0]), items[1..])
  }

  /** The chaining key behind a list of mixed secrets. */
  function Chained(p: Primitives, ck: octets, secrets: seq<octets>): octets
    decreases |secrets|
  {
    if secrets == [] then ck else Chained(p, Derived(p, ck, secrets[0], 1), secrets[1..])
  }

  lemma {:induction false} ChainSnoc(p: Primitives, h: octets, items: seq<octets>, item: octets)
    ensures Chain(p, h, items + [item]) == p.hash(Chain(p, h, items) + item)
    decreases |items|
  {
    if items == [] {
      assert items + [item] == [item] && [item][1..] == [];
    } else {
      assert (items + [item])[0] == items[0] && (items + [item])[1..] == items[1..] + [item];
      ChainSnoc(p, p.hash(h + items[0]), items[1..], item);
    }
  }

  lemma {:induction false} ChainedSnoc(p: Primitives, ck: octets, secrets: seq<octets>, secret: octets)
    ensures Chained(p, ck, secrets + [secret]) == Derived(p, Chained(p, ck, secrets), secret, 1)
    decreases |secrets|
  {
    if secrets == [] {
      assert secrets + [secret] == [secret] && [secret][1..] == [];
    } else {
      assert (secrets + [secret])[0] == secrets[0] && (secrets + [secret])[1..] == secrets[1..] + [secret];
      ChainedSnoc(p, Derived(p, ck, secrets[0], 1), secrets[1..], secret);
    }
  }

  /**
   What a state stands for: the hashed items and mixed secrets behind `h` and `ck`,
   the key of the last mixing, and the ciphertexts since then.
   */
  datatype Past = Past(h: octets, ck: octets, items: seq<octets>, secrets: seq<octets>, key: Option<octets>, seals: nat)

  predicate Stands(p: Primitives, s: Sym, t: Past) {
    s.h == Chain(p, t.h, t.items) && s.ck == Chained(p, t.ck, t.secrets) && s.key == t.key && s.nonce == t.seals
  }

  function Hashed(t: Past, data: octets): Past { t.(items := t.items + [data]) }

  function Keyed(p: Primitives, t: Past, secret: octets): Past {
    t.(secrets := t.secrets + [secret], key := Some(Derived(p, Chained(p, t.ck, t.secrets), secret, 2)), seals := 0)
  }

  lemma HashStands(p: Primitives, s: Sym, t: Past, data: octets)
    requires Stands(p, s, t)
    ensures Stands(p, MixHash(p, s, data), Hashed(t, data))
  {
    ChainSnoc(p, t.h, t.items, data);
  }

  lemma KeyStands(p: Primitives, s: Sym, t: Past, secret: octets, token: string)
    requires Stands(p, s, t)
    ensures Stands(p, MixKey(p, s, secret, token), Keyed(p, t, secret))
  {
    ChainedSnoc(p, t.ck, t.secrets, secret);
  }

  lemma ExchangeStands(p: Primitives, s: Sym, t: Past, private: octets, remote: octets, token: string)
    requires Stands(p, s, t)
    ensures MixDh(p, s, private, remote, token).Done? <==> p.dh(private, remote).Some?
    ensures p.dh(private, remote).Some? ==>
              Stands(p, MixDh(p, s, private, remote, token).state, Keyed(p, t, p.dh(private, remote).value))
  {
    if p.dh(private, remote).Some? {
      KeyStands(p, Noted(s, "DH:" + token), t, p.dh(private, remote).value, token);
    }
  }

  /** The ciphertext of a text behind such a past. */
  function Ciphertext(p: Primitives, t: Past, text: octets): octets
    requires t.key.Some?
  {
    p.seal(t.key.value, NonceOctets(t.seals), Chain(p, t.h, t.items), text)
  }

  function SealedPast(p: Primitives, t: Past, text: octets): Past
    requires t.key.Some?
  {
    t.(items := t.items + [Ciphertext(p, t, text)], seals := t.seals + 1)
  }

  lemma SealStands(p: Primitives, s: Sym, t: Past, text: octets, token: string)
    requires Stands(p, s, t) && t.key.Some?
    ensures var sent := EncryptAndHash(p, s, text, token);
            sent.Done? && sent.value == Ciphertext(p, t, text) && Stands(p, sent.state, SealedPast(p, t, text))
  {
    var noted := Noted(s, "AEAD_ENCRYPT:" + token).(nonce := s.nonce + 1);
    HashStands(p, noted, t.(seals := t.seals + 1), Sealed(p, s, text));
  }

  /** The pre-shared key is hashed as well, and gives the third output as the key. */
  function WithSecret(p: Primitives, t: Past, psk: Option<octets>): Past {
    if psk.None? then t
    else
      var ck := Chained(p, t.ck, t.secrets);
      t.(items := t.items + [Derived(p, ck, psk.value, 2)], secrets := t.secrets + [psk.value],
         key := Some(Derived(p, ck, psk.value, 3)), seals := 0)
  }

  lemma SecretStands(p: Primitives, s: Sym, t: Past, psk: Option<octets>)
    requires Stands(p, s, t)
    ensures Stands(p, MixPsk(p, s, psk), WithSecret(p, t, psk))
  {
    if psk.Some? {
      ChainSnoc(p, t.h, t.items, Derived(p, s.ck, psk.value, 2));
      ChainedSnoc(p, t.ck, t.secrets, psk.value);
    }
  }

  /** The ephemeral is hashed, and keyed too when there is a pre-shared key. */
  function WithEphemeral(p: Primitives, t: Past, e: octets, psk: Option<octets>): Past {
    if psk.Some? then Keyed(p, Hashed(t, e), e) else Hashed(t, e)
  }

  lemma EphemeralStands(p: Primitives, s: Sym, t: Past, e: octets, psk: Option<octets>)
    requires Stands(p, s, t)
    ensures Stands(p, MixEphemeral(p, s, e, psk), WithEphemeral(p, t, e, psk))
  {
    HashStands(p, s, t, e);
    if psk.Some? { KeyStands(p, MixHash(p, s, e), Hashed(t, e), e, "e"); }
  }

  // ------------------------------------------------ the first message

  lemma NamesAreLong()
    ensures |IK| == 33 && |PAIR| == 37
  {
  }

  lemma InitialHash(p: Primitives, protocol: octets, srPublic: octets)
    requires |protocol| > 32
    ensures Initialize(p, protocol, srPublic) ==
            MixHash(p, MixHash(p, Sym(p.hash(protocol), p.hash(protocol), None, 0, []), PROLOGUE), srPublic)
  {
  }

  /** Both start from the hashed protocol name, with the prologue and the responder's key hashed. */
  function Outset(p: Primitives, srPublic: octets, psk: Option<octets>): Past {
    var name := p.hash(if psk.Some? then PAIR else IK);
    Past(name, name, [PROLOGUE, srPublic], [], None, 0)
  }

  lemma StartStands(p: Primitives, srPublic: octets, psk: Option<octets>)
    ensures Stands(p, Start(p, srPublic, psk), Outset(p, srPublic, psk))
  {
    NamesAreLong();
    InitialHash(p, if psk.Some? then PAIR else IK, srPublic);
    var name := p.hash(if psk.Some? then PAIR else IK);
    var t, s := Past(name, name, [], [], None, 0), Sym(name, name, None, 0, []);
    HashStands(p, s, t, PROLOGUE);
    HashStands(p, MixHash(p, s, PROLOGUE), Hashed(t, PROLOGUE), srPublic);
    assert Hashed(Hashed(t, PROLOGUE), srPublic) == Outset(p, srPublic, psk);
  }

  /**
   The first message in closed form: the ephemeral, the static key sealed under the
   first exchange, and a tag under both exchanges and the pre-shared key, if any;
   each is sealed over the transcript of everything in front of it. It fails exactly
   when an exchange does.
   */
  lemma FirstMessageIs(p: Primitives, si: octets, ei: octets, srPublic: octets, psk: Option<octets>)
    ensures var message, es, ss := WriteMessage1(p, si, ei, srPublic, psk), p.dh(ei, srPublic), p.dh(si, srPublic);
            && (message.Done? <==> es.Some? && ss.Some?)
            && (message.Done? ==>
                  var e := p.public(ei);
                  var first := Keyed(p, WithEphemeral(p, Outset(p, srPublic, psk), e, psk), es.value);
                  var second := WithSecret(p, Keyed(p, SealedPast(p, first, p.public(si)), ss.value), psk);
                  && message.value == e + Ciphertext(p, first, p.public(si)) + Ciphertext(p, second, [])
                  && Stands(p, message.state, SealedPast(p, second, [])))
  {
    var es, ss, e := p.dh(ei, srPublic), p.dh(si, srPublic), p.public(ei);
    StartStands(p, srPublic, psk);
    EphemeralStands(p, Start(p, srPublic, psk), Outset(p, srPublic, psk), e, psk);
    var t0 := WithEphemeral(p, Outset(p, srPublic, psk), e, psk);
    var s0 := MixEphemeral(p, Start(p, srPublic, psk), e, psk);
    ExchangeStands(p, s0, t0, ei, srPublic, "es");
    if es.Some? {
      var s1, first := MixDh(p, s0, ei, srPublic, "es").state, Keyed(p, t0, es.value);
      SealStands(p, s1, first, p.public(si), "s");
      var s2 := EncryptAndHash(p, s1, p.public(si), "s").state;
      var t2 := SealedPast(p, first, p.public(si));
      ExchangeStands(p, s2, t2, si, srPublic, "ss");
      if ss.Some? {
        var s3, t3 := MixDh(p, s2, si, srPublic, "ss").state, Keyed(p, t2, ss.value);
        SecretStands(p, s3, t3, psk);
        SealStands(p, MixPsk(p, s3, psk), WithSecret(p, t3, psk), [], "payload1");
      }
    }
  }

  /** The answer in closed form, behind any past. */
  lemma SecondMessageIs(p: Primitives, state: Sym, t: Past, er: octets, siPublic: octets, eiPublic: octets,
                        psk: Option<octets>)
    requires Stands(p, state, t)
    ensures var message := WriteMessage2(p, state, er, siPublic, eiPublic, psk);
            var ee, se := p.dh(er, eiPublic), p.dh(er, siPublic);
            && (message.Done? <==> ee.Some? && se.Some?)
            && (message.Done? ==>
                  var e := p.public(er);
                  var last := Keyed(p, Keyed(p, WithEphemeral(p, t, e, psk), ee.value), se.value);
                  && message.value == e + Ciphertext(p, last, [])
                  && Stands(p, message.state, SealedPast(p, last, [])))
  {
    var ee, se, e := p.dh(er, eiPublic), p.dh(er, siPublic), p.public(er);
    EphemeralStands(p, state, t, e, psk);
    var s0, t0 := MixEphemeral(p, state, e, psk), WithEphemeral(p, t, e, psk);
    ExchangeStands(p, s0, t0, er, eiPublic, "ee");
    if ee.Some? {
      var s1, t1 := MixDh(p, s0, er, eiPublic, "ee").state, Keyed(p, t0, ee.value);
      ExchangeStands(p, s1, t1, er, siPublic, "se");
      if se.Some? {
        SealStands(p, MixDh(p, s1, er, siPublic, "se").state, Keyed(p, t1, se.value), [], "payload2");
      }
    }
  }

  lemma Pieces(e: octets, sealedStatic: octets, tag: octets)
    requires |e| == 32 && |sealedStatic| == 48
    ensures var m := e + sealedStatic + tag; m[..32] == e && m[32..80] == sealedStatic && m[80..] == tag
  {
  }

  /** Every octet of the first message is in the transcript behind it. */
  lemma TranscriptIsComplete(p: Primitives, si: octets, ei: octets, srPublic: octets, psk: Option<octets>)
    requires Laws(p) && WriteMessage1(p, si, ei, srPublic, psk).Done?
    ensures var message := WriteMessage1(p, si, ei, srPublic, psk);
            var m, name := message.value, p.hash(if psk.Some? then PAIR else IK);
            && |m| == 96 && message.state.nonce == 1
            && exists mixed: seq<octets> | |mixed| == (if psk.Some? then 1 else 0) ::
                 message.state.h ==
                 Chain(p, name, [PROLOGUE, srPublic, m[..32], m[32..80]] + mixed + [m[80..]])
  {
    FirstMessageIs(p, si, ei, srPublic, psk);
    var e, es, ss := p.public(ei), p.dh(ei, srPublic).value, p.dh(si, srPublic).value;
    var first := Keyed(p, WithEphemeral(p, Outset(p, srPublic, psk), e, psk), es);
    var third := Keyed(p, SealedPast(p, first, p.public(si)), ss);
    var second := WithSecret(p, third, psk);
    var sealedStatic, tag := Ciphertext(p, first, p.public(si)), Ciphertext(p, second, []);
    var m := e + sealedStatic + tag;
    Pieces(e, sealedStatic, tag);
    var mixed := if psk.Some? then [Derived(p, Chained(p, third.ck, third.secrets), psk.value, 2)] else [];
    assert third.items == [PROLOGUE, srPublic] + [e] + [sealedStatic];
    assert third.items == [PROLOGUE, srPublic, m[..32], m[32..80]];
    assert SealedPast(p, second, []).items == third.items + mixed + [tag];
  }
}
