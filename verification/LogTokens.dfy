/**
 The scanners of the log parser: tokens with quoted values, `key=value` fields,
 and the search for the end of the bound bracket.
 */
module LogTokens {
  import opened Bytes
  import opened LogText
  import opened Wrappers

  // ------------------------------------------------ fields as written

  predicate GoodKey(k: Text) {
    k != [] && forall u <- k :: !WhiteSpace(u) && u != EQUALS && u != QUOTE && u != CLOSE
  }

  /** A value that may stand without quotes. */
  predicate Bare(text: Text) {
    text != [] &&
    forall u <- text :: u != SPACE && u != QUOTE && u != 0xD && u != 0xA && u != CLOSE && !Control(u)
  }

  function Quoted(text: Text): Text { [QUOTE] + Escape(text, true) + [QUOTE] }

  /** What a stripped value looks like in the line. */
  function ValueText(text: Text): Text { if Bare(text) then text else Quoted(text) }

  datatype Pair = Pair(key: Text, value: Text)

  function FieldText(p: Pair): Text { p.key + [EQUALS] + ValueText(Strip(p.value)) }

  function FieldTexts(pairs: seq<Pair>): seq<Text> {
    if pairs == [] then [] else [FieldText(pairs[0])] + FieldTexts(pairs[1..])
  }

  /** Every part behind a space of its own. */
  function Tail(parts: seq<Text>): Text {
    if parts == [] then [] else [SPACE] + parts[0] + Tail(parts[1..])
  }

  /** Parts joined by single spaces. */
  function Join(parts: seq<Text>): Text { if parts == [] then [] else parts[0] + Tail(parts[1..]) }

  // ------------------------------------------------ tokens

  datatype Token = Token(text: Text, start: nat)

  datatype Scan = Scan(tokens: seq<Token>, text: Text, start: nat, quoted: bool, escaped: bool)

  const BEGIN := Scan([], [], 0, false, false)

  predicate KeyEquals(text: Text) { |text| >= 2 && text[|text| - 1] == EQUALS && IsName(text[..|text| - 1]) }

  predicate IsName(t: Text) { t == [] || (!WhiteSpace(t[0]) && t[0] != EQUALS && IsName(t[1..])) }

  lemma {:induction false} NameIs(t: Text)
    ensures IsName(t) <==> forall u <- t :: !WhiteSpace(u) && u != EQUALS
  {
    if t != [] {
      NameIs(t[1..]);
      assert t == [t[0]] + t[1..];
      assert t[0] in t && forall u <- t[1..] :: u in t;
    }
  }

  function Flush(s: Scan): seq<Token> { if s.text == [] then s.tokens else s.tokens + [Token(s.text, s.start)] }

  function ScanUnit(s: Scan, index: nat, c: unit): Scan {
    if s.escaped then s.(text := s.text + [c], escaped := false)
    else if s.quoted && c == BACKSLASH then s.(text := s.text + [c], escaped := true)
    else if c == QUOTE && (s.quoted || KeyEquals(s.text)) then s.(text := s.text + [c], quoted := !s.quoted)
    else if c == SPACE && !s.quoted then Scan(Flush(s), [], index + 1, false, false)
    else s.(text := s.text + [c], start := if s.text == [] then index else s.start)
  }

  function ScanText(s: Scan, input: Text, base: nat): Scan
    decreases |input|
  {
    if input == [] then s else ScanText(ScanUnit(s, base, input[0]), input[1..], base + 1)
  }

  function Tokenize(input: Text): Option<seq<Token>> {
    var s := ScanText(BEGIN, input, 0);
    if s.quoted || s.escaped then None else Some(Flush(s))
  }

  /** The tokenizer's loop over characters. */
  method TokenizeLoop(input: Text) returns (r: Option<seq<Token>>)
    ensures r == Tokenize(input)
  {
    var tokens: seq<Token>, text: Text, start: nat := [], [], 0;
    var quoted, escaped := false, false;
    for index := 0 to |input|
      invariant Scan(tokens, text, start, quoted, escaped) == ScanText(BEGIN, input[..index], 0)
    {
      var c := input[index];
      ScanSnoc(BEGIN, input[..index], c, 0);
      assert input[..index + 1] == input[..index] + [c];
      if escaped {
        text, escaped := text + [c], false;
      } else if quoted && c == BACKSLASH {
        text, escaped := text + [c], true;
      } else if c == QUOTE && (quoted || KeyEquals(text)) {
        quoted, text := !quoted, text + [c];
      } else if c == SPACE && !quoted {
        if text != [] { tokens, text := tokens + [Token(text, start)], []; }
        start := index + 1;
      } else {
        if text == [] { start := index; }
        text := text + [c];
      }
    }
    assert input[..|input|] == input;
    if quoted || escaped { return None; }
    if text != [] { tokens := tokens + [Token(text, start)]; }
    return Some(tokens);
  }

  lemma {:induction false} ScanConcat(s: Scan, a: Text, b: Text, base: nat)
    ensures ScanText(s, a + b, base) == ScanText(ScanText(s, a, base), b, base + |a|)
    decreases |a|
  {
    if a == [] {
      NilConcat(b);
    } else {
      assert (a + b)[0] == a[0] && (a + b)[1..] == a[1..] + b;
      ScanConcat(ScanUnit(s, base, a[0]), a[1..], b, base + 1);
    }
  }

  lemma ScanSnoc(s: Scan, a: Text, c: unit, base: nat)
    ensures ScanText(s, a + [c], base) == ScanUnit(ScanText(s, a, base), base + |a|, c)
  {
    ScanConcat(s, a, [c], base);
    assert [c][1..] == [];
  }

  /** Outside quotes, text without spaces and quotes just accumulates. */
  lemma {:induction false} ScanPlain(s: Scan, t: Text, base: nat)
    requires !s.quoted && !s.escaped && forall u <- t :: u != SPACE && u != QUOTE
    ensures ScanText(s, t, base) ==
            s.(text := s.text + t, start := if s.text == [] && t != [] then base else s.start)
    decreases |t|
  {
    if t == [] {
      NilConcat(s.text);
    } else {
      assert t[0] in t && forall u <- t[1..] :: u in t;
      ScanPlain(ScanUnit(s, base, t[0]), t[1..], base + 1);
      assert s.text + [t[0]] + t[1..] == s.text + t;
    }
  }

  lemma ScanBlock(s: Scan, u: unit, base: nat)
    requires s.quoted && !s.escaped && s.text != []
    ensures ScanText(s, Block(u, true), base) == s.(text := s.text + Block(u, true))
  {
    var b := Block(u, true);
    if b == [u] {
      assert [u][1..] == [];
    } else if |b| == 2 {
      assert b == [BACKSLASH, b[1]];
      ScanPair(s, b[1], base);
    } else {
      ScanHex(s, u, base);
    }
  }

  lemma ScanPair(s: Scan, u: unit, base: nat)
    requires s.quoted && !s.escaped && s.text != []
    ensures ScanText(s, [BACKSLASH, u], base) == s.(text := s.text + [BACKSLASH, u])
  {
    ScanConcat(s, [BACKSLASH], [u], base);
    ScanOne(s, BACKSLASH, base);
    ScanOne(s.(text := s.text + [BACKSLASH], escaped := true), u, base + 1);
    assert [BACKSLASH] + [u] == [BACKSLASH, u] && s.text + [BACKSLASH] + [u] == s.text + [BACKSLASH, u];
  }

  lemma ScanOne(s: Scan, u: unit, base: nat)
    ensures ScanText(s, [u], base) == ScanUnit(s, base, u)
  {
    assert [u][1..] == [];
  }

  lemma ScanHex(s: Scan, u: unit, base: nat)
    requires s.quoted && !s.escaped && s.text != []
    ensures ScanText(s, [BACKSLASH, 0x75] + Hex4(u), base) == s.(text := s.text + ([BACKSLASH, 0x75] + Hex4(u)))
  {
    ScanConcat(s, [BACKSLASH, 0x75], Hex4(u), base);
    ScanPair(s, 0x75, base);
    ScanPlainQuoted(s.(text := s.text + [BACKSLASH, 0x75]), Hex4(u), base + 2);
    ConcatAssociates(s.text, [BACKSLASH, 0x75], Hex4(u));
  }

  lemma {:induction false} ScanPlainQuoted(s: Scan, t: Text, base: nat)
    requires s.quoted && !s.escaped && s.text != [] && forall u <- t :: u != BACKSLASH && u != QUOTE
    ensures ScanText(s, t, base) == s.(text := s.text + t)
    decreases |t|
  {
    if t == [] {
      NilConcat(s.text);
    } else {
      assert t[0] in t && forall u <- t[1..] :: u in t;
      ScanPlainQuoted(ScanUnit(s, base, t[0]), t[1..], base + 1);
      assert s.text + [t[0]] + t[1..] == s.text + t;
    }
  }

  /** Inside quotes, escaped text accumulates and the quote stays open. */
  lemma {:induction false} ScanEscaped(s: Scan, text: Text, base: nat)
    requires s.quoted && !s.escaped && s.text != []
    ensures ScanText(s, Escape(text, true), base) == s.(text := s.text + Escape(text, true))
    decreases |text|
  {
    if text == [] {
      NilConcat(s.text);
    } else {
      EscapeCons(text, true);
      var b, rest := Block(text[0], true), Escape(text[1..], true);
      ScanConcat(s, b, rest, base);
      ScanBlock(s, text[0], base);
      ScanEscaped(s.(text := s.text + b), text[1..], base + |b|);
      ConcatAssociates(s.text, b, rest);
    }
  }

  lemma KeyThenEquals(k: Text)
    requires GoodKey(k)
    ensures KeyEquals(k + [EQUALS])
  {
    assert (k + [EQUALS])[..|k|] == k;
    NameIs(k);
  }

  lemma ScanQuotedValue(s: Scan, text: Text, base: nat)
    requires !s.quoted && !s.escaped && KeyEquals(s.text)
    ensures ScanText(s, Quoted(text), base) == s.(text := s.text + Quoted(text))
  {
    var open := s.(text := s.text + [QUOTE], quoted := true);
    ScanConcat(s, [QUOTE] + Escape(text, true), [QUOTE], base);
    ScanConcat(s, [QUOTE], Escape(text, true), base);
    assert [QUOTE][1..] == [];
    assert ScanText(s, [QUOTE], base) == open;
    ScanEscaped(open, text, base + 1);
    ConcatAssociates(s.text, [QUOTE], Escape(text, true));
    ConcatAssociates(s.text, [QUOTE] + Escape(text, true), [QUOTE]);
  }

  /** A field is one token, whatever its value contains. */
  lemma ScanField(s: Scan, p: Pair, base: nat)
    requires !s.quoted && !s.escaped && s.text == [] && GoodKey(p.key)
    ensures ScanText(s, FieldText(p), base) == Scan(s.tokens, FieldText(p), base, false, false)
  {
    var head, value := p.key + [EQUALS], Strip(p.value);
    ScanConcat(s, head, ValueText(value), base);
    ScanPlain(s, head, base);
    NilConcat(head);
    KeyThenEquals(p.key);
    var mid := s.(text := head, start := base);
    if Bare(value) { ScanPlain(mid, value, base + |head|); } else { ScanQuotedValue(mid, value, base + |head|); }
  }

  function FieldTokens(pairs: seq<Pair>, base: nat): seq<Token> {
    if pairs == [] then []
    else [Token(FieldText(pairs[0]), base + 1)] + FieldTokens(pairs[1..], base + 1 + |FieldText(pairs[0])|)
  }

  predicate GoodKeys(pairs: seq<Pair>) { forall p <- pairs :: GoodKey(p.key) }

  predicate Idle(s: Scan) { !s.quoted && !s.escaped }

  lemma ScanSpaceField(s: Scan, p: Pair, base: nat)
    requires Idle(s) && GoodKey(p.key)
    ensures ScanText(s, [SPACE] + FieldText(p), base) == Scan(Flush(s), FieldText(p), base + 1, false, false)
  {
    ScanConcat(s, [SPACE], FieldText(p), base);
    ScanOne(s, SPACE, base);
    ScanField(Scan(Flush(s), [], base + 1, false, false), p, base + 1);
  }

  lemma FieldTail(pairs: seq<Pair>)
    requires pairs != []
    ensures Tail(FieldTexts(pairs)) == [SPACE] + FieldText(pairs[0]) + Tail(FieldTexts(pairs[1..]))
  {
    assert FieldTexts(pairs)[1..] == FieldTexts(pairs[1..]);
  }

  lemma FieldNotEmpty(p: Pair)
    ensures FieldText(p) != []
  {
  }

  function AfterField(s: Scan, p: Pair, base: nat): Scan { ScanText(s, [SPACE] + FieldText(p), base) }

  function AfterFields(s: Scan, pairs: seq<Pair>, base: nat): Scan { ScanText(s, Tail(FieldTexts(pairs)), base) }

  lemma ScanFirstField(s: Scan, p: Pair, rest: seq<Pair>, base: nat)
    ensures AfterFields(s, [p] + rest, base) == AfterFields(AfterField(s, p, base), rest, base + 1 + |FieldText(p)|)
  {
    FieldTail([p] + rest);
    assert ([p] + rest)[1..] == rest;
    ScanConcat(s, [SPACE] + FieldText(p), Tail(FieldTexts(rest)), base);
  }

  /** How tokens of fields are laid out one behind the other. */
  ghost predicate Lays(tokens: (seq<Pair>, nat) -> seq<Token>, text: Pair -> Text, pairs: seq<Pair>, base: nat) {
    tokens(pairs, base) ==
    if pairs == [] then []
    else [Token(text(pairs[0]), base + 1)] + tokens(pairs[1..], base + 1 + |text(pairs[0])|)
  }

  /** How the scan of fields goes on outside quotes, in terms of the two scans alone. */
  ghost predicate Reads(
    field: (Scan, Pair, nat) -> Scan, fields: (Scan, seq<Pair>, nat) -> Scan, text: Pair -> Text,
    s: Scan, pairs: seq<Pair>, base: nat)
  {
    Idle(s) && GoodKeys(pairs) ==>
      if pairs == [] then fields(s, pairs, base) == s
      else
        var first := field(s, pairs[0], base);
        && fields(s, pairs, base) == fields(first, pairs[1..], base + 1 + |text(pairs[0])|)
        && Idle(first) && Flush(first) == Flush(s) + [Token(text(pairs[0]), base + 1)]
  }

  lemma {:induction false} ReadsBy(
      field: (Scan, Pair, nat) -> Scan, fields: (Scan, seq<Pair>, nat) -> Scan, text: Pair -> Text,
      tokens: (seq<Pair>, nat) -> seq<Token>, s: Scan, pairs: seq<Pair>, base: nat)
    requires forall s, q, at: nat :: Reads(field, fields, text, s, q, at)
    requires forall q, at: nat :: Lays(tokens, text, q, at)
    requires Idle(s) && GoodKeys(pairs)
    ensures var after := fields(s, pairs, base); Idle(after) && Flush(after) == Flush(s) + tokens(pairs, base)
    decreases |pairs|
  {
    assert Reads(field, fields, text, s, pairs, base) && Lays(tokens, text, pairs, base);
    if pairs == [] {
      NilConcat(Flush(s));
    } else {
      var next := base + 1 + |text(pairs[0])|;
      ReadsBy(field, fields, text, tokens, field(s, pairs[0], base), pairs[1..], next);
      ConcatAssociates(Flush(s), [Token(text(pairs[0]), base + 1)], tokens(pairs[1..], next));
    }
  }

  lemma FieldTokensLay(pairs: seq<Pair>, base: nat)
    ensures Lays(FieldTokens, FieldText, pairs, base)
  {
  }

  lemma FieldsRead(s: Scan, pairs: seq<Pair>, base: nat)
    ensures Reads(AfterField, AfterFields, FieldText, s, pairs, base)
  {
    if Idle(s) && GoodKeys(pairs) && pairs != [] {
      assert pairs == [pairs[0]] + pairs[1..];
      ScanFirstField(s, pairs[0], pairs[1..], base);
      ScanSpaceField(s, pairs[0], base);
      FieldNotEmpty(pairs[0]);
    }
  }

  /** Fields behind spaces become the tokens of those fields. */
  lemma ScanFields(s: Scan, pairs: seq<Pair>, base: nat)
    requires Idle(s) && GoodKeys(pairs)
    ensures var after := ScanText(s, Tail(FieldTexts(pairs)), base);
            Idle(after) && Flush(after) == Flush(s) + FieldTokens(pairs, base)
  {
    forall s, q, at: nat ensures Reads(AfterField, AfterFields, FieldText, s, q, at) { FieldsRead(s, q, at); }
    forall q, at: nat ensures Lays(FieldTokens, FieldText, q, at) { FieldTokensLay(q, at); }
    ReadsBy(AfterField, AfterFields, FieldText, FieldTokens, s, pairs, base);
  }

  // ------------------------------------------------ messages

  predicate NoEquals(t: Text) { EQUALS !in t }

  /** Text without `=` never opens a quote; none of its tokens can be a field. */
  lemma {:induction false} ScanMessage(s: Scan, m: Text, base: nat)
    requires Idle(s) && NoEquals(s.text) && NoEquals(m) && forall t <- s.tokens :: NoEquals(t.text)
    ensures var after := ScanText(s, m, base);
            Idle(after) && NoEquals(after.text) && forall t <- after.tokens :: NoEquals(t.text)
    decreases |m|
  {
    if m != [] {
      assert m[0] in m && forall u <- m[1..] :: u in m;
      ScanMessage(ScanUnit(s, base, m[0]), m[1..], base + 1);
    }
  }

  // ------------------------------------------------ decoding a field

  function IndexOf(t: Text, u: unit): Option<nat>
    ensures IndexOf(t, u).Some? ==> IndexOf(t, u).value < |t|
  {
    if t == [] then None
    else if t[0] == u then Some(0)
    else match IndexOf(t[1..], u) case None => None case Some(i) => Some(i + 1)
  }

  lemma {:induction false} IndexAfter(a: Text, u: unit, b: Text)
    requires u !in a
    ensures IndexOf(a + [u] + b, u) == Some(|a|)
  {
    if a == [] {
      assert a + [u] + b == [u] + b;
    } else {
      assert a[0] in a && forall x <- a[1..] :: x in a;
      assert (a + [u] + b)[1..] == a[1..] + [u] + b;
      IndexAfter(a[1..], u, b);
    }
  }

  lemma {:induction false} IndexNone(a: Text, u: unit)
    ensures u !in a <==> IndexOf(a, u).None?
  {
    if a != [] { IndexNone(a[1..], u); }
  }

  function DecodeRaw(key: Text, raw: Text): Option<Pair> {
    if raw == [] || raw[0] != QUOTE then (if QUOTE in raw then None else Some(Pair(key, raw)))
    else if |raw| < 2 || raw[|raw| - 1] != QUOTE then None
    else
      match Decode(raw[1..|raw| - 1])
      case None => None
      case Some(value) => Some(Pair(key, value))
  }

  function DecodeField(token: Text): Option<Pair> {
    match IndexOf(token, EQUALS)
    case None => None
    case Some(i) =>
      if i == 0 || (exists u <- token[..i] :: WhiteSpace(u) || u == EQUALS) then None
      else DecodeRaw(token[..i], token[i + 1..])
  }

  lemma NoEqualsIsNoField(token: Text)
    requires NoEquals(token)
    ensures DecodeField(token).None?
  {
    IndexNone(token, EQUALS);
  }

  lemma ValueDecodes(key: Text, text: Text)
    ensures DecodeRaw(key, ValueText(text)) == Some(Pair(key, text))
  {
    if Bare(text) {
      assert text[0] in text;
    } else {
      var q := Quoted(text);
      assert q[0] == QUOTE && q[|q| - 1] == QUOTE && q[1..|q| - 1] == Escape(text, true);
      DecodeEscape(text, true);
    }
  }

  /** A field reads back as its key and its stripped value. */
  lemma FieldDecodes(p: Pair)
    requires GoodKey(p.key)
    ensures DecodeField(FieldText(p)) == Some(Pair(p.key, Strip(p.value)))
  {
    var token, value := FieldText(p), ValueText(Strip(p.value));
    IndexAfter(p.key, EQUALS, value);
    assert token[..|p.key|] == p.key && token[|p.key| + 1..] == value;
    ValueDecodes(p.key, Strip(p.value));
  }

  // ------------------------------------------------ the end of the bound bracket

  function Shift(n: nat, r: Option<nat>): Option<nat> { if r.None? then None else Some(n + r.value) }

  /** The first `]` outside a quoted value. */
  function CloseAt(t: Text, quoted: bool, escaped: bool): (r: Option<nat>)
    ensures r.Some? ==> r.value < |t| && t[r.value] == CLOSE
  {
    if t == [] then None
    else if escaped then Shift(1, CloseAt(t[1..], quoted, false))
    else if quoted && t[0] == BACKSLASH then Shift(1, CloseAt(t[1..], quoted, true))
    else if t[0] == QUOTE then Shift(1, CloseAt(t[1..], !quoted, false))
    else if t[0] == CLOSE && !quoted then Some(0)
    else Shift(1, CloseAt(t[1..], quoted, false))
  }

  method FindBracketClose(input: Text) returns (r: Option<nat>)
    ensures r == CloseAt(input, false, false)
  {
    var quoted, escaped, index := false, false, 0;
    assert input[0..] == input;
    while index < |input|
      invariant index <= |input|
      invariant Shift(index, CloseAt(input[index..], quoted, escaped)) == CloseAt(input, false, false)
    {
      var c := input[index];
      assert input[index..][1..] == input[index + 1..];
      if escaped {
        escaped := false;
      } else if quoted && c == BACKSLASH {
        escaped := true;
      } else if c == QUOTE {
        quoted := !quoted;
      } else if c == CLOSE && !quoted {
        return Some(index);
      }
      index := index + 1;
    }
    return None;
  }

  lemma {:induction false} ClosePlain(a: Text, b: Text)
    requires forall u <- a :: u != QUOTE && u != CLOSE
    ensures CloseAt(a + b, false, false) == Shift(|a|, CloseAt(b, false, false))
    decreases |a|
  {
    if a == [] {
      NilConcat(b);
    } else {
      assert a[0] in a && forall u <- a[1..] :: u in a;
      assert (a + b)[0] == a[0] && (a + b)[1..] == a[1..] + b;
      ClosePlain(a[1..], b);
    }
  }

  lemma {:induction false} CloseInside(a: Text, b: Text)
    requires forall u <- a :: u != QUOTE && u != BACKSLASH
    ensures CloseAt(a + b, true, false) == Shift(|a|, CloseAt(b, true, false))
    decreases |a|
  {
    if a == [] {
      NilConcat(b);
    } else {
      assert a[0] in a && forall u <- a[1..] :: u in a;
      assert (a + b)[0] == a[0] && (a + b)[1..] == a[1..] + b;
      CloseInside(a[1..], b);
    }
  }

  lemma ClosePair(u: unit, b: Text)
    ensures CloseAt([BACKSLASH, u] + b, true, false) == Shift(2, CloseAt(b, true, false))
  {
    var t := [BACKSLASH, u] + b;
    assert t[1..] == [u] + b && ([u] + b)[1..] == b;
  }

  function CloseIn(t: Text): Option<nat> { CloseAt(t, true, false) }

  function CloseOut(t: Text): Option<nat> { CloseAt(t, false, false) }

  /** A search passes over `a` and goes on behind it as if it had started there. */
  ghost predicate Passes(search: Text -> Option<nat>, a: Text) {
    forall b :: search(a + b) == Shift(|a|, search(b))
  }

  lemma PassesNothing(search: Text -> Option<nat>)
    ensures Passes(search, [])
  {
    forall b ensures search([] + b) == Shift(0, search(b)) { NilConcat<unit>(b); }
  }

  lemma PassesConcat(search: Text -> Option<nat>, a: Text, c: Text)
    requires Passes(search, a) && Passes(search, c)
    ensures Passes(search, a + c)
  {
    forall b ensures search(a + c + b) == Shift(|a + c|, search(b)) {
      ConcatAssociates(a, c, b);
      assert search(a + (c + b)) == Shift(|a|, search(c + b));
    }
  }

  lemma InsidePasses(a: Text)
    requires forall u <- a :: u != QUOTE && u != BACKSLASH
    ensures Passes(CloseIn, a)
  {
    forall b ensures CloseIn(a + b) == Shift(|a|, CloseIn(b)) { CloseInside(a, b); }
  }

  lemma PairPasses(u: unit)
    ensures Passes(CloseIn, [BACKSLASH, u])
  {
    forall b ensures CloseIn([BACKSLASH, u] + b) == Shift(2, CloseIn(b)) { ClosePair(u, b); }
  }

  lemma HexPasses(u: unit)
    ensures Passes(CloseIn, [BACKSLASH, 0x75] + Hex4(u))
  {
    PairPasses(0x75);
    InsidePasses(Hex4(u));
    PassesConcat(CloseIn, [BACKSLASH, 0x75], Hex4(u));
  }

  lemma BlockCases(u: unit)
    ensures var b := Block(u, true);
            || (b == [u] && u != QUOTE && u != BACKSLASH)
            || (|b| == 2 && b == [BACKSLASH, b[1]])
            || b == [BACKSLASH, 0x75] + Hex4(u)
  {
  }

  lemma SamePasses(search: Text -> Option<nat>, a: Text, b: Text)
    requires Passes(search, a) && a == b
    ensures Passes(search, b)
  {
  }

  lemma BlockPasses(u: unit)
    ensures Passes(CloseIn, Block(u, true))
  {
    var b := Block(u, true);
    BlockCases(u);
    if b == [u] && u != QUOTE && u != BACKSLASH {
      InsidePasses([u]);
      SamePasses(CloseIn, [u], b);
    } else if |b| == 2 {
      PairPasses(b[1]);
      SamePasses(CloseIn, [BACKSLASH, b[1]], b);
    } else {
      HexPasses(u);
      SamePasses(CloseIn, [BACKSLASH, 0x75] + Hex4(u), b);
    }
  }

  lemma {:induction false} EscapedPasses(text: Text)
    ensures Passes(CloseIn, Escape(text, true))
    decreases |text|
  {
    if text == [] {
      PassesNothing(CloseIn);
    } else {
      EscapeCons(text, true);
      BlockPasses(text[0]);
      EscapedPasses(text[1..]);
      PassesConcat(CloseIn, Block(text[0], true), Escape(text[1..], true));
    }
  }

  lemma EnterQuote(t: Text)
    ensures CloseOut([QUOTE] + t) == Shift(1, CloseIn(t)) && CloseIn([QUOTE] + t) == Shift(1, CloseOut(t))
  {
    assert ([QUOTE] + t)[1..] == t;
  }

  /** Between two quotes the other search takes over. */
  lemma ThroughQuotes(out: Text -> Option<nat>, into: Text -> Option<nat>, inner: Text, b: Text)
    requires out([QUOTE] + (inner + ([QUOTE] + b))) == Shift(1, into(inner + ([QUOTE] + b)))
    requires into(inner + ([QUOTE] + b)) == Shift(|inner|, into([QUOTE] + b))
    requires into([QUOTE] + b) == Shift(1, out(b))
    ensures out([QUOTE] + inner + [QUOTE] + b) == Shift(|[QUOTE] + inner + [QUOTE]|, out(b))
  {
    ConcatAssociates([QUOTE] + inner, [QUOTE], b);
    ConcatAssociates([QUOTE], inner, [QUOTE] + b);
  }

  lemma PassesAt(search: Text -> Option<nat>, a: Text, b: Text)
    requires Passes(search, a)
    ensures search(a + b) == Shift(|a|, search(b))
  {
  }

  lemma QuotedPassesAt(text: Text, b: Text)
    ensures CloseOut(Quoted(text) + b) == Shift(|Quoted(text)|, CloseOut(b))
  {
    var inner := Escape(text, true);
    EscapedPasses(text);
    PassesAt(CloseIn, inner, [QUOTE] + b);
    EnterQuote(inner + ([QUOTE] + b));
    EnterQuote(b);
    ThroughQuotes(CloseOut, CloseIn, inner, b);
  }

  lemma QuotedPasses(text: Text)
    ensures Passes(CloseOut, Quoted(text))
  {
    forall b ensures CloseOut(Quoted(text) + b) == Shift(|Quoted(text)|, CloseOut(b)) { QuotedPassesAt(text, b); }
  }

  lemma PlainPasses(a: Text)
    requires forall u <- a :: u != QUOTE && u != CLOSE
    ensures Passes(CloseOut, a)
  {
    forall b ensures CloseOut(a + b) == Shift(|a|, CloseOut(b)) { ClosePlain(a, b); }
  }

  /** A field has no closing bracket of its own. */
  lemma FieldPasses(p: Pair)
    requires GoodKey(p.key)
    ensures Passes(CloseOut, FieldText(p))
  {
    var text := Strip(p.value);
    PlainPasses(p.key + [EQUALS]);
    if Bare(text) { PlainPasses(text); } else { QuotedPasses(text); }
    PassesConcat(CloseOut, p.key + [EQUALS], ValueText(text));
  }

  lemma {:induction false} TailPasses(pairs: seq<Pair>)
    requires GoodKeys(pairs)
    ensures Passes(CloseOut, Tail(FieldTexts(pairs)))
    decreases |pairs|
  {
    if pairs == [] {
      PassesNothing(CloseOut);
    } else {
      FieldTail(pairs);
      PlainPasses([SPACE]);
      FieldPasses(pairs[0]);
      TailPasses(pairs[1..]);
      PassesConcat(CloseOut, [SPACE], FieldText(pairs[0]));
      PassesConcat(CloseOut, [SPACE] + FieldText(pairs[0]), Tail(FieldTexts(pairs[1..])));
    }
  }

  lemma JoinTail(pairs: seq<Pair>)
    requires pairs != []
    ensures Join(FieldTexts(pairs)) == FieldText(pairs[0]) + Tail(FieldTexts(pairs[1..]))
  {
    assert FieldTexts(pairs)[1..] == FieldTexts(pairs[1..]);
  }

  /** The bracket around joined fields closes where it was closed. */
  lemma CloseJoin(pairs: seq<Pair>, b: Text)
    requires GoodKeys(pairs) && pairs != []
    ensures CloseOut(Join(FieldTexts(pairs)) + ([CLOSE] + b)) == Some(|Join(FieldTexts(pairs))|)
  {
    JoinTail(pairs);
    FieldPasses(pairs[0]);
    TailPasses(pairs[1..]);
    PassesConcat(CloseOut, FieldText(pairs[0]), Tail(FieldTexts(pairs[1..])));
    CloseHere(b);
    PassesTo(CloseOut, Join(FieldTexts(pairs)), [CLOSE] + b);
  }

  lemma PassesTo(search: Text -> Option<nat>, a: Text, b: Text)
    requires Passes(search, a) && search(b) == Some(0)
    ensures search(a + b) == Some(|a|)
  {
  }

  lemma CloseHere(b: Text)
    ensures CloseOut([CLOSE] + b) == Some(0)
  {
  }

  // ------------------------------------------------ joined fields read back

  function Decoded(tokens: seq<Token>): Option<seq<Pair>> {
    if tokens == [] then Some([])
    else
      match (DecodeField(tokens[0].text), Decoded(tokens[1..]))
      case (Some(p), Some(more)) => Some([p] + more)
      case _ => None
  }

  function Stripped(pairs: seq<Pair>): seq<Pair> {
    if pairs == [] then [] else [Pair(pairs[0].key, Strip(pairs[0].value))] + Stripped(pairs[1..])
  }

  lemma {:induction false} StrippedCount(pairs: seq<Pair>)
    ensures |Stripped(pairs)| == |pairs|
  {
    if pairs != [] { StrippedCount(pairs[1..]); }
  }

  lemma {:induction false} StrippedAt(pairs: seq<Pair>, i: nat)
    requires i < |pairs| == |Stripped(pairs)|
    ensures Stripped(pairs)[i] == Pair(pairs[i].key, Strip(pairs[i].value))
    decreases i
  {
    if i > 0 { StrippedAt(pairs[1..], i - 1); }
  }

  lemma {:induction false} LaidAt(tokens: (seq<Pair>, nat) -> seq<Token>, text: Pair -> Text, pairs: seq<Pair>,
                                  base: nat)
    requires forall q, at: nat :: Lays(tokens, text, q, at)
    ensures |tokens(pairs, base)| == |pairs|
    ensures forall i | 0 <= i < |pairs| :: tokens(pairs, base)[i].text == text(pairs[i])
    decreases |pairs|
  {
    assert Lays(tokens, text, pairs, base);
    if pairs != [] { LaidAt(tokens, text, pairs[1..], base + 1 + |text(pairs[0])|); }
  }

  lemma FieldTokensAt(pairs: seq<Pair>, base: nat)
    ensures |FieldTokens(pairs, base)| == |pairs|
    ensures forall i | 0 <= i < |pairs| :: FieldTokens(pairs, base)[i].text == FieldText(pairs[i])
  {
    forall q, at: nat ensures Lays(FieldTokens, FieldText, q, at) { FieldTokensLay(q, at); }
    LaidAt(FieldTokens, FieldText, pairs, base);
  }

  /** Tokens that decode one by one decode together. */
  lemma {:induction false} DecodesTo(tokens: seq<Token>, pairs: seq<Pair>)
    requires |tokens| == |pairs| && forall i | 0 <= i < |tokens| :: DecodeField(tokens[i].text) == Some(pairs[i])
    ensures Decoded(tokens) == Some(pairs)
  {
    if tokens != [] {
      DecodesTo(tokens[1..], pairs[1..]);
      assert pairs == [pairs[0]] + pairs[1..];
    }
  }

  lemma FieldTokensDecode(pairs: seq<Pair>, base: nat)
    requires GoodKeys(pairs)
    ensures Decoded(FieldTokens(pairs, base)) == Some(Stripped(pairs))
  {
    StrippedCount(pairs);
    FieldTokensAt(pairs, base);
    forall i | 0 <= i < |pairs|
      ensures DecodeField(FieldTokens(pairs, base)[i].text) == Some(Stripped(pairs)[i])
    {
      FieldDecodes(pairs[i]);
      StrippedAt(pairs, i);
    }
    DecodesTo(FieldTokens(pairs, base), Stripped(pairs));
  }

  /** The tokens of fields joined by spaces; the first one starts at zero. */
  lemma JoinTokens(pairs: seq<Pair>)
    requires GoodKeys(pairs) && pairs != []
    ensures Tokenize(Join(FieldTexts(pairs))) ==
            Some([Token(FieldText(pairs[0]), 0)] + FieldTokens(pairs[1..], |FieldText(pairs[0])|))
  {
    var f, rest := FieldText(pairs[0]), Tail(FieldTexts(pairs[1..]));
    JoinTail(pairs);
    FieldNotEmpty(pairs[0]);
    ScanField(BEGIN, pairs[0], 0);
    ScanFields(Scan([], f, 0, false, false), pairs[1..], |f|);
    TokensOf(f, rest, Scan([], f, 0, false, false));
    NilConcat([Token(f, 0)]);
  }

  /** The tokens of two texts, from the state between them. */
  lemma TokenizeFrom(a: Text, b: Text)
    ensures var after := ScanText(ScanText(BEGIN, a, 0), b, |a|);
            Tokenize(a + b) == if Idle(after) then Some(Flush(after)) else None
  {
    ScanConcat(BEGIN, a, b, 0);
    ScanEnds(a + b, ScanText(ScanText(BEGIN, a, 0), b, |a|));
  }

  lemma ScanEnds(input: Text, after: Scan)
    requires ScanText(BEGIN, input, 0) == after
    ensures Tokenize(input) == if Idle(after) then Some(Flush(after)) else None
  {
  }

  lemma TokensOf(a: Text, b: Text, mid: Scan)
    requires ScanText(BEGIN, a, 0) == mid && Idle(ScanText(mid, b, |a|))
    ensures Tokenize(a + b) == Some(Flush(ScanText(mid, b, |a|)))
  {
    TokenizeFrom(a, b);
  }

  lemma JoinDecodes(pairs: seq<Pair>)
    requires GoodKeys(pairs) && pairs != []
    ensures Tokenize(Join(FieldTexts(pairs))).Some?
    ensures Decoded(Tokenize(Join(FieldTexts(pairs))).value) == Some(Stripped(pairs))
  {
    JoinTokens(pairs);
    FieldDecodes(pairs[0]);
    FieldTokensDecode(pairs[1..], |FieldText(pairs[0])|);
    var more := FieldTokens(pairs[1..], |FieldText(pairs[0])|);
    assert ([Token(FieldText(pairs[0]), 0)] + more)[1..] == more;
  }
}
