/**
 Free text in front of fields. The scanner that keeps quoted values together also
 reads the message, so a message can leave a quote open, or end in a word that
 passes for a field. What the fields behind it then become is worked out here.
 */
module LogMessages {
  import opened Bytes
  import opened LogText
  import opened LogTokens
  import opened Wrappers

  // ------------------------------------------------ the scanner inside and outside quotes

  /** What the scanner keeps: it is inside a quote only within a token, and escapes only inside quotes. */
  predicate Sane(s: Scan) { (s.escaped ==> s.quoted) && (s.quoted ==> s.text != []) }

  lemma {:induction false} ScanIsSane(s: Scan, t: Text, base: nat)
    requires Sane(s)
    ensures Sane(ScanText(s, t, base))
    decreases |t|
  {
    if t != [] { ScanIsSane(ScanUnit(s, base, t[0]), t[1..], base + 1); }
  }

  /** Inside quotes, text without a quote is swallowed. */
  lemma {:induction false} ScanInside(s: Scan, t: Text, base: nat)
    requires s.quoted && s.text != [] && QUOTE !in t
    ensures var after := ScanText(s, t, base);
            after == s.(text := s.text + t, escaped := after.escaped)
    decreases |t|
  {
    if t == [] {
      NilConcat(s.text);
    } else {
      assert t[0] in t && forall u <- t[1..] :: u in t;
      ScanInside(ScanUnit(s, base, t[0]), t[1..], base + 1);
      assert s.text + [t[0]] + t[1..] == s.text + t;
    }
  }

  /** Every quote stands behind a backslash. */
  predicate QuotesEscaped(t: Text) { forall i | 0 <= i < |t| && t[i] == QUOTE :: 0 < i && t[i - 1] == BACKSLASH }

  lemma QuotesConcat(a: Text, b: Text)
    requires QuotesEscaped(a) && QuotesEscaped(b)
    ensures QuotesEscaped(a + b)
  {
    var t := a + b;
    forall i | 0 <= i < |t| && t[i] == QUOTE ensures 0 < i && t[i - 1] == BACKSLASH {
      if i >= |a| { assert b[i - |a|] == QUOTE; }
    }
  }

  lemma BlockEscapes(u: unit)
    ensures QuotesEscaped(Block(u, true))
  {
    if u != BACKSLASH && u != QUOTE && u != 0xD && u != 0xA && Control(u) {
      var b := Block(u, true);
      forall i | 0 <= i < |b| ensures b[i] != QUOTE { assert i >= 2 ==> b[i] == Hex4(u)[i - 2]; }
    }
  }

  lemma {:induction false} EscapedEscapes(s: Text)
    ensures QuotesEscaped(Escape(s, true))
    decreases |s|
  {
    if s != [] {
      EscapeCons(s, true);
      BlockEscapes(s[0]);
      EscapedEscapes(s[1..]);
      QuotesConcat(Block(s[0], true), Escape(s[1..], true));
    }
  }

  /** The word being read once `t` has been read behind `x`. */
  function Word(x: Text, t: Text): Text {
    if t == [] then x
    else if t[|t| - 1] == SPACE then []
    else Word(x, t[..|t| - 1]) + [t[|t| - 1]]
  }

  lemma WordEnd(x: Text, t: Text)
    requires t != [] && t[|t| - 1] != SPACE
    ensures Word(x, t) != [] && Word(x, t)[|Word(x, t)| - 1] == t[|t| - 1]
  {
  }

  /** Outside quotes, text whose quotes are all escaped opens none. */
  lemma {:induction false} ScanOutside(s: Scan, t: Text, base: nat)
    requires Idle(s) && QuotesEscaped(t)
    ensures var after := ScanText(s, t, base); Idle(after) && after.text == Word(s.text, t)
    decreases |t|
  {
    if t != [] {
      var before, c := t[..|t| - 1], t[|t| - 1];
      assert t == before + [c];
      ScanOutside(s, before, base);
      ScanSnoc(s, before, c, base);
      if c == QUOTE {
        assert t[|t| - 1] == QUOTE;
        WordEnd(s.text, before);
      }
    }
  }

  // ------------------------------------------------ no field comes out of the swap

  /** Where the decoder goes on behind the first unit or escape. */
  function FirstSize(t: Text): nat
    requires t != []
  {
    if t[0] != BACKSLASH then 1
    else if |t| >= 2 && t[1] == 0x75 && FourHex(t, 2) then 6
    else 2
  }

  lemma DecodesLonger(t: Text, n: nat)
    requires t != [] && FirstSize(t) <= |t|
    requires Decode(t[FirstSize(t)..]).Some? && |Decode(t[FirstSize(t)..]).value| >= n
    ensures Decode(t).Some? && |Decode(t).value| > n
  {
  }

  /** The first unit or escape of `a` does not reach into a `=` behind it, except that a last backslash takes it. */
  lemma FirstStays(a: Text, more: Text)
    requires a != [] && more != [] && more[0] == EQUALS
    ensures var n := FirstSize(a + more);
            n <= |a + more| && ((n <= |a| && (a + more)[n..] == a[n..] + more) || (n == 2 && |a| == 1))
  {
    var t := a + more;
    assert t[|a|] == EQUALS && t[0] == a[0];
    if FirstSize(t) == 6 { assert |a| != 1 && |a| != 2 && |a| != 3 && |a| != 4 && |a| != 5; }
  }

  /** Decoding text that ends in `="` and a decodable rest gives more than that rest. */
  lemma {:induction false} DecodeBehind(a: Text, e: Text)
    requires Decode(e).Some?
    ensures var d := Decode(a + ([EQUALS, QUOTE] + e)); d.Some? && |d.value| > |Decode(e).value|
    decreases |a|
  {
    var more := [EQUALS, QUOTE] + e;
    var t, n := a + more, |Decode(e).value|;
    assert more[1..] == [QUOTE] + e && ([QUOTE] + e)[1..] == e;
    DecodesLonger([QUOTE] + e, n);
    if a == [] {
      NilConcat(more);
      DecodesLonger(more, n);
    } else {
      FirstStays(a, more);
      if FirstSize(t) <= |a| {
        DecodeBehind(a[FirstSize(t)..], e);
      } else {
        assert t[2..] == [QUOTE] + e;
      }
      DecodesLonger(t, n);
    }
  }

  /** The token is no field, or one whose value is longer than `u`. */
  predicate Mismatch(token: Text, u: Text) {
    DecodeField(token).None? || |DecodeField(token).value.value| > |u|
  }

  lemma {:induction false} IndexIs(t: Text, u: unit)
    ensures IndexOf(t, u).Some? ==>
              IndexOf(t, u).value < |t| && t[IndexOf(t, u).value] == u && u !in t[..IndexOf(t, u).value]
  {
    if t != [] && t[0] != u {
      IndexIs(t[1..], u);
      if IndexOf(t[1..], u).Some? {
        var i := IndexOf(t[1..], u).value;
        assert t[..i + 1] == [t[0]] + t[1..][..i];
      }
    }
  }

  lemma KeyEqualsIs(w: Text, i: nat)
    requires 0 < i && i + 1 == |w| && w[i] == EQUALS && EQUALS !in w[..i]
    requires !(exists u <- w[..i] :: WhiteSpace(u) || u == EQUALS)
    ensures KeyEquals(w)
  {
    assert w[..|w| - 1] == w[..i];
    NameIs(w[..i]);
  }

  /** A word whose quotes are escaped, and a quote behind it that opened nothing, is no field. */
  lemma LooseQuoteIsNoField(w: Text)
    requires QuotesEscaped(w) && !KeyEquals(w)
    ensures DecodeField(w + [QUOTE]).None?
  {
    var token := w + [QUOTE];
    IndexIs(token, EQUALS);
    if IndexOf(token, EQUALS).Some? {
      var i := IndexOf(token, EQUALS).value;
      assert token[|w|] == QUOTE && i < |w| && token[..i] == w[..i];
      assert token[i + 1..][|w| - i - 1] == QUOTE;
      if 0 < i && i + 1 == |w| && !(exists u <- w[..i] :: WhiteSpace(u) || u == EQUALS) { KeyEqualsIs(w, i); }
    }
  }

  /** A token that swallowed a whole quoted field is no field, or has a longer value. */
  lemma SwallowedIsLonger(t: Text, key: Text, u: Text)
    ensures Mismatch(t + ([SPACE] + key) + ([EQUALS, QUOTE] + Escape(u, true)) + [QUOTE], u)
  {
    var e, head := Escape(u, true), t + ([SPACE] + key);
    var token := head + ([EQUALS, QUOTE] + e) + [QUOTE];
    IndexIs(token, EQUALS);
    assert token[|head|] == EQUALS && token[|t|] == SPACE;
    IndexNone(token, EQUALS);
    var i := IndexOf(token, EQUALS).value;
    if i == |head| {
      assert token[..i][|t|] == SPACE;
      assert SPACE in token[..i];
    } else if i < |head| {
      SwallowedRaw(head, e, i);
      DecodeEscape(u, true);
      DecodeBehind(head[if i + 2 <= |head| then i + 2 else |head|..], e);
    }
  }

  lemma SwallowedRaw(head: Text, e: Text, i: nat)
    requires i < |head|
    ensures var token := head + ([EQUALS, QUOTE] + e) + [QUOTE];
            var raw := token[i + 1..];
            && QUOTE in raw && raw[|raw| - 1] == QUOTE
            && (raw[0] == QUOTE ==> i + 2 <= |head| && raw[1..|raw| - 1] == head[i + 2..] + ([EQUALS, QUOTE] + e))
  {
    var token := head + ([EQUALS, QUOTE] + e) + [QUOTE];
    var raw := token[i + 1..];
    assert token[|token| - 1] == QUOTE && raw[|raw| - 1] == token[|token| - 1];
    assert token[|head|] == EQUALS && raw[0] == token[i + 1];
  }

  lemma {:induction false} WordSplit(x: Text, t: Text)
    requires QuotesEscaped(t)
    ensures SPACE !in t ==> Word(x, t) == x + t
    ensures SPACE in t ==> QuotesEscaped(Word(x, t))
    decreases |t|
  {
    if t == [] {
      NilConcat(x);
    } else if t[|t| - 1] != SPACE {
      var before, c := t[..|t| - 1], t[|t| - 1];
      assert t == before + [c];
      WordSplit(x, before);
      if SPACE !in t {
        ConcatAssociates(x, before, [c]);
      } else {
        if c == QUOTE {
          assert t[|t| - 1] == QUOTE;
          WordEnd(x, before);
        }
        WordGrows(Word(x, before), c);
      }
    }
  }

  lemma WordGrows(w: Text, c: unit)
    requires QuotesEscaped(w) && (c == QUOTE ==> w != [] && w[|w| - 1] == BACKSLASH)
    ensures QuotesEscaped(w + [c])
  {
  }

  // ------------------------------------------------ fields behind an open quote

  /** Inside quotes the head of a field is swallowed, and nothing stays escaped. */
  lemma SwallowHead(s: Scan, key: Text, base: nat)
    requires s.quoted && s.text != [] && QUOTE !in key
    ensures ScanText(s, [SPACE] + key + [EQUALS], base) ==
            s.(text := s.text + ([SPACE] + key) + [EQUALS], escaped := false)
  {
    var head := [SPACE] + key;
    ScanInside(s, head, base);
    ScanSnoc(s, head, EQUALS, base);
  }

  /** The quote that opens a value closes the open one, and the value is read as words. */
  lemma SwallowQuoted(s: Scan, u: Text, base: nat)
    requires s.quoted && !s.escaped && s.text != []
    ensures var after := ScanText(s, Quoted(u), base);
            var w := Word(s.text + [QUOTE], Escape(u, true));
            after.text == w + [QUOTE] && !after.escaped && (after.quoted <==> KeyEquals(w))
  {
    var e := Escape(u, true);
    var open := s.(text := s.text + [QUOTE], quoted := false);
    ScanConcat(s, [QUOTE] + e, [QUOTE], base);
    ScanConcat(s, [QUOTE], e, base);
    ScanOne(s, QUOTE, base);
    EscapedEscapes(u);
    ScanOutside(open, e, base + 1);
    ScanOne(ScanText(open, e, base + 1), QUOTE, base + |[QUOTE] + e|);
  }

  /** What a quoted field leaves in hand, when it leaves no quote open, is not that field. */
  lemma SwallowedMismatch(t: Text, key: Text, u: Text)
    requires var x := t + ([SPACE] + key) + [EQUALS] + [QUOTE]; !KeyEquals(Word(x, Escape(u, true)))
    ensures var x := t + ([SPACE] + key) + [EQUALS] + [QUOTE]; Mismatch(Word(x, Escape(u, true)) + [QUOTE], u)
  {
    var x, e := t + ([SPACE] + key) + [EQUALS] + [QUOTE], Escape(u, true);
    EscapedEscapes(u);
    WordSplit(x, e);
    if SPACE in e {
      LooseQuoteIsNoField(Word(x, e));
    } else {
      SwallowedWhole(t + ([SPACE] + key), e);
      SwallowedIsLonger(t, key, u);
    }
  }

  lemma SwallowedWhole(head: Text, e: Text)
    ensures head + [EQUALS] + [QUOTE] + e == head + ([EQUALS, QUOTE] + e)
  {
    assert [EQUALS, QUOTE] == [EQUALS] + [QUOTE];
    ConcatAssociates(head, [EQUALS], [QUOTE]);
    ConcatAssociates(head, [EQUALS, QUOTE], e);
  }

  /** One field behind an open quote: the quote stays open, or something else than the field is in hand. */
  lemma Swallow(s: Scan, p: Pair, base: nat)
    requires s.quoted && s.text != [] && GoodKey(p.key)
    ensures var after := ScanText(s, [SPACE] + FieldText(p), base);
            after.text != [] && (after.quoted || (Idle(after) && Mismatch(after.text, Strip(p.value))))
  {
    var head, u := [SPACE] + p.key + [EQUALS], Strip(p.value);
    assert [SPACE] + FieldText(p) == head + ValueText(u);
    ScanConcat(s, head, ValueText(u), base);
    SwallowHead(s, p.key, base);
    var mid := s.(text := s.text + ([SPACE] + p.key) + [EQUALS], escaped := false);
    if Bare(u) {
      ScanInside(mid, u, base + |head|);
    } else {
      SwallowQuoted(mid, u, base + |head|);
      var w := Word(mid.text + [QUOTE], Escape(u, true));
      if !KeyEquals(w) { SwallowedMismatch(s.text, p.key, u); }
    }
  }

  /** The first `n` fields went into words whose last is not the last of them; the others are read as fields. */
  predicate Shifted(tokens: seq<Token>, fields: seq<Pair>, n: nat, junk: seq<Token>, at: nat) {
    && 0 < n <= |fields| && junk != [] && Mismatch(junk[|junk| - 1].text, Strip(fields[n - 1].value))
    && tokens == junk + FieldTokens(fields[n..], at)
  }

  lemma ShiftedCons(tokens: seq<Token>, p: Pair, rest: seq<Pair>, n: nat, junk: seq<Token>, at: nat)
    requires Shifted(tokens, rest, n, junk, at)
    ensures Shifted(tokens, [p] + rest, n + 1, junk, at)
  {
    assert ([p] + rest)[n + 1..] == rest[n..] && ([p] + rest)[n] == rest[n - 1];
  }

  lemma ShiftedHere(first: Scan, p: Pair, rest: seq<Pair>, base: nat)
    requires Idle(first) && first.text != [] && Mismatch(first.text, Strip(p.value)) && GoodKeys(rest)
    ensures Shifted(Flush(AfterFields(first, rest, base)), [p] + rest, 1, Flush(first), base)
  {
    ScanFields(first, rest, base);
    assert ([p] + rest)[1..] == rest;
  }

  predicate ShiftedScan(after: Scan, fields: seq<Pair>, n: nat, junk: seq<Token>, at: nat) {
    Shifted(Flush(after), fields, n, junk, at)
  }

  predicate Inside(s: Scan) { s.quoted && s.text != [] }

  /** How the scan of fields goes on behind an open quote, in terms of the two scans alone. */
  ghost predicate Steps(
    field: (Scan, Pair, nat) -> Scan, fields: (Scan, seq<Pair>, nat) -> Scan, size: Pair -> nat,
    shifted: (Scan, seq<Pair>, nat, seq<Token>, nat) -> bool, s: Scan, p: Pair, rest: seq<Pair>, base: nat)
  {
    Inside(s) && GoodKey(p.key) && GoodKeys(rest) ==>
      var first, later := field(s, p, base), base + size(p);
      && fields(s, [p] + rest, base) == fields(first, rest, later)
      && (rest == [] ==> fields(first, rest, later) == first)
      && first.text != []
      && (!first.quoted ==> shifted(fields(first, rest, later), [p] + rest, 1, Flush(first), later))
      && (forall after, n: nat, junk, at: nat | shifted(after, rest, n, junk, at) ::
            shifted(after, [p] + rest, n + 1, junk, at))
  }

  lemma {:induction false} ShiftedBy(
      field: (Scan, Pair, nat) -> Scan, fields: (Scan, seq<Pair>, nat) -> Scan, size: Pair -> nat,
      shifted: (Scan, seq<Pair>, nat, seq<Token>, nat) -> bool, s: Scan, p: Pair, rest: seq<Pair>, base: nat)
    returns (n: nat, junk: seq<Token>, at: nat)
    requires forall s, p, rest, base: nat :: Steps(field, fields, size, shifted, s, p, rest, base)
    requires Inside(s) && GoodKey(p.key) && GoodKeys(rest)
    ensures var after := fields(s, [p] + rest, base); Idle(after) ==> shifted(after, [p] + rest, n, junk, at)
    decreases |rest|
  {
    var first, later := field(s, p, base), base + size(p);
    assert Steps(field, fields, size, shifted, s, p, rest, base);
    n, junk, at := 1, Flush(first), later;
    if first.quoted && rest != [] {
      assert rest == [rest[0]] + rest[1..] && rest[0] in rest && forall q <- rest[1..] :: q in rest;
      n, junk, at := ShiftedBy(field, fields, size, shifted, first, rest[0], rest[1..], later);
      n := n + 1;
    }
  }

  function FieldSize(p: Pair): nat { 1 + |FieldText(p)| }

  lemma FieldsStep(s: Scan, p: Pair, rest: seq<Pair>, base: nat)
    ensures Steps(AfterField, AfterFields, FieldSize, ShiftedScan, s, p, rest, base)
  {
    if Inside(s) && GoodKey(p.key) && GoodKeys(rest) {
      var first, later := AfterField(s, p, base), base + FieldSize(p);
      ScanFirstField(s, p, rest, base);
      Swallow(s, p, base);
      if !first.quoted { ShiftedHere(first, p, rest, later); }
      forall after, n: nat, junk, at: nat | ShiftedScan(after, rest, n, junk, at)
        ensures ShiftedScan(after, [p] + rest, n + 1, junk, at)
      {
        ShiftedCons(Flush(after), p, rest, n, junk, at);
      }
    }
  }

  /** Fields behind an open quote leave it open at their end, or are shifted. */
  lemma ScanShifted(s: Scan, fields: seq<Pair>, base: nat) returns (n: nat, junk: seq<Token>, at: nat)
    requires Inside(s) && GoodKeys(fields) && fields != []
    ensures var after := AfterFields(s, fields, base); Idle(after) ==> ShiftedScan(after, fields, n, junk, at)
  {
    forall s, p, rest, base: nat ensures Steps(AfterField, AfterFields, FieldSize, ShiftedScan, s, p, rest, base) {
      FieldsStep(s, p, rest, base);
    }
    assert fields == [fields[0]] + fields[1..];
    n, junk, at := ShiftedBy(AfterField, AfterFields, FieldSize, ShiftedScan, s, fields[0], fields[1..], base);
  }
}
