/** Printing a record and parsing the line gives the record back, and exactly when. */
module LogRoundTrip {
  import opened Bytes
  import opened LogLine
  import opened LogMessages
  import opened LogText
  import opened LogTokens
  import opened Wrappers

  // ------------------------------------------------ trailing whitespace of a message

  /** Whitespace that escaping leaves alone. */
  predicate Survivor(u: unit) { WhiteSpace(u) && !(0x9 <= u <= 0xD) }

  function TrimTail(s: Text): Text {
    if s != [] && Survivor(s[|s| - 1]) then TrimTail(s[..|s| - 1]) else s
  }

  lemma BlockEnd(u: unit)
    ensures Survivor(u) ==> Block(u, false) == [u]
    ensures !Survivor(u) ==> !WhiteSpace(Block(u, false)[|Block(u, false)| - 1])
  {
  }

  lemma TrimOne(t: Text, u: unit)
    requires WhiteSpace(u)
    ensures TrimEnd(t + [u]) == TrimEnd(t)
  {
    assert (t + [u])[..|t|] == t;
  }

  lemma TrimStops(t: Text, block: Text)
    requires block != [] && !WhiteSpace(block[|block| - 1])
    ensures TrimEnd(t + block) == t + block
  {
  }

  lemma {:induction false} TrimEscape(s: Text)
    ensures TrimEnd(Escape(s, false)) == Escape(TrimTail(s), false)
  {
    if s != [] {
      var before, u := s[..|s| - 1], s[|s| - 1];
      assert s == before + [u];
      EscapeSnoc(before, u, false);
      BlockEnd(u);
      if Survivor(u) {
        TrimEscape(before);
        TrimOne(Escape(before, false), u);
      } else {
        TrimStops(Escape(before, false), Block(u, false));
      }
    }
  }

  lemma {:induction false} TrimTailKeeps(s: Text)
    ensures TrimTail(s) == s <==> s == [] || !Survivor(s[|s| - 1])
    ensures |TrimTail(s)| <= |s|
  {
    if s != [] && Survivor(s[|s| - 1]) { TrimTailKeeps(s[..|s| - 1]); }
  }

  // ------------------------------------------------ what a line never contains

  predicate Clean(t: Text) { forall u <- t :: u != ESC && u != 0x9B && u != 0xD && u != 0xA }

  lemma CleanConcat(a: Text, b: Text)
    requires Clean(a) && Clean(b)
    ensures Clean(a + b)
  {
  }

  lemma HexIsPlain(u: unit)
    ensures forall h <- Hex4(u) :: 0x30 <= h <= 0x39 || 0x61 <= h <= 0x66
  {
  }

  lemma BlockIsPlain(u: unit, quoted: bool)
    ensures Clean(Block(u, quoted)) && (EQUALS in Block(u, quoted) <==> u == EQUALS)
  {
    HexIsPlain(u);
  }

  lemma {:induction false} EscapeIsPlain(s: Text, quoted: bool)
    ensures Clean(Escape(s, quoted)) && (EQUALS in Escape(s, quoted) <==> EQUALS in s)
  {
    if s != [] {
      EscapeCons(s, quoted);
      BlockIsPlain(s[0], quoted);
      EscapeIsPlain(s[1..], quoted);
    }
  }

  predicate QuietKey(k: Text) { ESC !in k && 0x9B !in k }

  predicate QuietKeys(pairs: seq<Pair>) { forall p <- pairs :: QuietKey(p.key) }

  lemma ValueIsClean(text: Text)
    ensures Clean(ValueText(text))
  {
    EscapeIsPlain(text, true);
  }

  lemma FieldIsClean(p: Pair)
    requires GoodKey(p.key) && QuietKey(p.key)
    ensures Clean(FieldText(p))
  {
    ValueIsClean(Strip(p.value));
  }

  lemma {:induction false} FieldsAreClean(pairs: seq<Pair>)
    requires GoodKeys(pairs) && QuietKeys(pairs)
    ensures Clean(Tail(FieldTexts(pairs)))
    decreases |pairs|
  {
    if pairs != [] {
      FieldTail(pairs);
      FieldIsClean(pairs[0]);
      FieldsAreClean(pairs[1..]);
    }
  }

  lemma JoinIsClean(pairs: seq<Pair>)
    requires GoodKeys(pairs) && QuietKeys(pairs) && pairs != []
    ensures Clean(Join(FieldTexts(pairs)))
  {
    JoinTail(pairs);
    FieldIsClean(pairs[0]);
    FieldsAreClean(pairs[1..]);
  }

  /** The parts of a record, with or without a message. */
  lemma PartsTail(e: Record)
    ensures Tail(Parts(e)) ==
            (if e.message != [] then [SPACE] + MessageText(e.message) else []) + Tail(FieldTexts(e.fields))
    ensures Join(Parts(e)) ==
            if e.message != [] then MessageText(e.message) + Tail(FieldTexts(e.fields)) else Join(FieldTexts(e.fields))
  {
    var fields := FieldTexts(e.fields);
    if e.message == [] {
      assert [] + fields == fields;
      NilConcat(Tail(fields));
    } else {
      assert ([MessageText(e.message)] + fields)[1..] == fields;
    }
  }

  lemma BracketIsClean(bound: seq<Pair>)
    requires GoodKeys(bound) && QuietKeys(bound)
    ensures Clean(Bracket(bound))
  {
    if bound != [] {
      JoinIsClean(bound);
      CleanConcat([SPACE, OPEN], Join(FieldTexts(bound)));
      CleanConcat([SPACE, OPEN] + Join(FieldTexts(bound)), [CLOSE]);
    }
  }

  lemma TailIsClean(e: Record)
    requires GoodKeys(e.fields) && QuietKeys(e.fields)
    ensures Clean(Tail(Parts(e)))
  {
    PartsTail(e);
    EscapeIsPlain(Strip(e.message), false);
    FieldsAreClean(e.fields);
    CleanConcat([SPACE], MessageText(e.message));
    CleanConcat([SPACE] + MessageText(e.message), Tail(FieldTexts(e.fields)));
    NilConcat(Tail(FieldTexts(e.fields)));
  }

  lemma {:induction false} LoggerUnits(logger: Text)
    requires LoggerOk(logger)
    ensures forall u <- logger :: u == DOT || Letter(u) || Digit(u) || u == 0x2D
    ensures logger != []
  {
    SplitUnits(logger);
    assert logger == [] ==> [] in SplitDots(logger);
  }

  /** A unit of the whole is a dot or a unit of some piece. */
  lemma {:induction false} SplitUnits(t: Text)
    ensures SplitDots(t) != []
    ensures forall u <- t :: u == DOT || exists s <- SplitDots(t) :: u in s
  {
    if t != [] {
      var before, last := SplitDots(t[..|t| - 1]), t[|t| - 1];
      SplitUnits(t[..|t| - 1]);
      var all := SplitDots(t);
      forall u | u in t ensures u == DOT || exists s <- all :: u in s {
        if u == last {
          if last != DOT { assert u in all[|all| - 1]; }
        } else {
          assert u in t[..|t| - 1];
          if u != DOT {
            var s :| s in before && u in s;
            if last == DOT {
              assert s in all;
            } else if s == before[|before| - 1] {
              assert u in all[|all| - 1];
            } else {
              assert s in before[..|before| - 1];
              assert s in all;
            }
          }
        }
      }
    }
  }

  lemma LoggerIsClean(logger: Text)
    requires LoggerOk(logger)
    ensures Clean(logger + [COLON]) && SPACE !in logger + [COLON] && logger != []
  {
    LoggerUnits(logger);
  }

  lemma ColumnIsClean(l: Level)
    ensures Clean(Column(l)) && |Column(l)| == 6
  {
  }

  lemma HeadIsClean(e: Record)
    requires LoggerOk(e.logger) && IsoShape(e.timestamp)
    ensures Clean(Head(e))
  {
    IsoUnits(e.timestamp);
    LoggerIsClean(e.logger);
    ColumnIsClean(e.level);
    CleanConcat(e.timestamp, [SPACE]);
    CleanConcat(e.timestamp + [SPACE], Column(e.level));
    CleanConcat(e.timestamp + [SPACE] + Column(e.level), e.logger + [COLON]);
  }

  lemma IsoUnits(t: Text)
    requires IsoShape(t)
    ensures Clean(t) && SPACE !in t && t[|t| - 1] == 0x5A
  {
    forall i | 0 <= i < 24 ensures t[i] > 0x20 && t[i] < 0x7F {
      if i != 4 && i != 7 && i != 10 && i != 13 && i != 16 && i != 19 && i != 23 {
        assert i in {0, 1, 2, 3, 5, 6, 8, 9, 11, 12, 14, 15, 17, 18, 20, 21, 22};
      }
    }
  }

  // ------------------------------------------------ message and fields

  /** The last of the words, if there is one, is no field. */
  predicate EndsPlain(words: seq<Token>) { words == [] || DecodeField(words[|words| - 1].text).None? }

  /** Text whose quotes are all closed and whose last word is no field. */
  predicate Settled(m: Text) { Tokenize(m).Some? && EndsPlain(Tokenize(m).value) }

  lemma {:induction false} StartAfter(a: seq<Token>, b: seq<Token>)
    requires EndsPlain(a) && AllFields(b)
    ensures FieldsStart(a + b) == |a| && (a + b)[|a|..] == b
  {
    if a == [] {
      NilConcat(b);
    } else {
      assert a[|a| - 1] in a + b;
      assert (a + b)[1..] == a[1..] + b;
      StartAfter(a[1..], b);
    }
  }

  /** The fields begin at the earliest point from which all tokens are fields. */
  lemma {:induction false} StartIs(tokens: seq<Token>, n: nat)
    requires n <= |tokens| && AllFields(tokens[n..])
    ensures FieldsStart(tokens) <= n && AllFields(tokens[FieldsStart(tokens)..])
  {
    if AllFields(tokens) {
      assert tokens[0..] == tokens;
    } else {
      assert n > 0 by { assert tokens[0..] == tokens; }
      assert tokens[1..][n - 1..] == tokens[n..];
      StartIs(tokens[1..], n - 1);
      assert tokens[1..][FieldsStart(tokens[1..])..] == tokens[FieldsStart(tokens)..];
    }
  }

  lemma {:induction false} DecodedCount(tokens: seq<Token>)
    requires AllFields(tokens)
    ensures Decoded(tokens).Some? && |Decoded(tokens).value| == |tokens|
  {
    if tokens != [] {
      assert tokens[0] in tokens && forall t <- tokens[1..] :: t in tokens;
      DecodedCount(tokens[1..]);
    }
  }

  lemma {:induction false} DecodedAt(tokens: seq<Token>, i: nat)
    requires i < |tokens| && Decoded(tokens).Some? && |Decoded(tokens).value| == |tokens|
    ensures DecodeField(tokens[i].text) == Some(Decoded(tokens).value[i])
  {
    if i > 0 { DecodedAt(tokens[1..], i - 1); }
  }

  lemma {:induction false} DecodedAreFields(tokens: seq<Token>)
    requires Decoded(tokens).Some?
    ensures AllFields(tokens)
  {
    if tokens != [] {
      DecodedAreFields(tokens[1..]);
      assert forall t <- tokens :: t == tokens[0] || t in tokens[1..];
    }
  }

  lemma FieldTokensAreFields(pairs: seq<Pair>, base: nat)
    requires GoodKeys(pairs)
    ensures AllFields(FieldTokens(pairs, base))
  {
    FieldTokensDecode(pairs, base);
    DecodedAreFields(FieldTokens(pairs, base));
  }

  lemma FirstFieldToken(pairs: seq<Pair>, base: nat)
    ensures pairs == [] ==> FieldTokens(pairs, base) == []
    ensures pairs != [] ==> FieldTokens(pairs, base) != [] && FieldTokens(pairs, base)[0].start == base + 1
  {
  }

  lemma MessageTokens(m: Text, fields: seq<Pair>)
    requires Tokenize(m).Some? && GoodKeys(fields)
    ensures Tokenize(m + Tail(FieldTexts(fields))) == Some(Tokenize(m).value + FieldTokens(fields, |m|))
  {
    var mid := ScanText(BEGIN, m, 0);
    ScanFields(mid, fields, |m|);
    TokensOf(m, Tail(FieldTexts(fields)), mid);
  }

  lemma CutBehindMessage(m: Text, fields: seq<Pair>)
    ensures var body := m + Tail(FieldTexts(fields));
            TrimEnd(Take(body, if fields == [] then |body| else |m| + 1)) == TrimEnd(m)
  {
    var body := m + Tail(FieldTexts(fields));
    if fields == [] {
      NilConcat(m);
      assert Take(body, |body|) == body;
    } else {
      FieldTail(fields);
      ConcatAssociates([SPACE], FieldText(fields[0]), Tail(FieldTexts(fields[1..])));
      ConcatAssociates(m, [SPACE], FieldText(fields[0]) + Tail(FieldTexts(fields[1..])));
      CutConcat(m + [SPACE], FieldText(fields[0]) + Tail(FieldTexts(fields[1..])));
      TrimOne(m, SPACE);
    }
  }

  lemma EndOfMessage(words: seq<Token>, found: seq<Token>, size: nat, bodySize: nat, none: bool)
    requires none ==> found == []
    requires !none ==> found != [] && found[0].start == size
    ensures var tokens := words + found;
            (if |words| < |tokens| then tokens[|words|].start else bodySize) == if none then bodySize else size
  {
  }

  lemma MessageCut(m: Text, fields: seq<Pair>, words: seq<Token>)
    requires EndsPlain(words) && GoodKeys(fields)
    ensures var tokens := words + FieldTokens(fields, |m|);
            var body := m + Tail(FieldTexts(fields));
            var start := FieldsStart(tokens);
            && start == |words| && tokens[start..] == FieldTokens(fields, |m|)
            && TrimEnd(Take(body, if start < |tokens| then tokens[start].start else |body|)) == TrimEnd(m)
  {
    var found, body := FieldTokens(fields, |m|), m + Tail(FieldTexts(fields));
    FieldTokensAreFields(fields, |m|);
    StartAfter(words, found);
    FirstFieldToken(fields, |m|);
    EndOfMessage(words, found, |m| + 1, |body|, fields == []);
    CutBehindMessage(m, fields);
  }

  /** A settled message, and fields behind it, are told apart and read back. */
  lemma MessageReadsBack(bound: seq<Pair>, s: Text, fields: seq<Pair>)
    requires Settled(Escape(s, false)) && GoodKeys(fields)
    ensures var body := Escape(s, false) + Tail(FieldTexts(fields));
            && Tokenize(body).Some?
            && FromTokens(bound, body, Tokenize(body).value) == Ok(Body(bound, TrimTail(s), Stripped(fields)))
  {
    var m := Escape(s, false);
    MessageTokens(m, fields);
    MessageCut(m, fields, Tokenize(m).value);
    TrimEscape(s);
    DecodeEscape(TrimTail(s), false);
    FieldTokensDecode(fields, |m|);
  }

  /** The fields read from the tokens are other than these. */
  predicate OtherFields(tokens: seq<Token>, fields: seq<Pair>) {
    FieldsStart(tokens) <= |tokens| ==> Decoded(tokens[FieldsStart(tokens)..]) != Some(Stripped(fields))
  }

  /** A last word that is a field is read as one field more. */
  lemma OneFieldMore(words: seq<Token>, found: seq<Token>, fields: seq<Pair>)
    requires words != [] && DecodeField(words[|words| - 1].text).Some? && AllFields(found) && |found| == |fields|
    ensures OtherFields(words + found, fields)
  {
    var tokens, n := words + found, |words| - 1;
    assert tokens[n..] == [words[n]] + found;
    StartIs(tokens, n);
    DecodedCount(tokens[FieldsStart(tokens)..]);
    StrippedCount(fields);
  }

  /** Pairs that come out of the last word, but are not the fields it swallowed. */
  lemma ValuesDiffer(got: seq<Pair>, stripped: seq<Pair>, n: nat, words: nat, value: Text)
    requires 0 < n <= |stripped| && stripped[n - 1].value == value && |got| == words + |stripped| - n
    requires words > 0 ==> |got[words - 1].value| > |value|
    ensures got != stripped
  {
  }

  /** Words that swallowed the first fields, and end in none of them, do not give those fields back. */
  lemma SwallowedFields(junk: seq<Token>, found: seq<Token>, fields: seq<Pair>, n: nat)
    requires 0 < n <= |fields| && junk != [] && Mismatch(junk[|junk| - 1].text, Strip(fields[n - 1].value))
    requires AllFields(found) && |found| == |fields| - n
    ensures OtherFields(junk + found, fields)
  {
    var tokens := junk + found;
    assert tokens[|junk|..] == found;
    StartIs(tokens, |junk|);
    var start := FieldsStart(tokens);
    StrippedCount(fields);
    StrippedAt(fields, n - 1);
    DecodedCount(tokens[start..]);
    if start < |junk| {
      DecodedAt(tokens[start..], |junk| - 1 - start);
      assert tokens[start..][|junk| - 1 - start] == junk[|junk| - 1];
    }
    ValuesDiffer(Decoded(tokens[start..]).value, Stripped(fields), n, |junk| - start, Strip(fields[n - 1].value));
  }

  lemma FoundTokens(fields: seq<Pair>, base: nat)
    requires GoodKeys(fields)
    ensures AllFields(FieldTokens(fields, base)) && |FieldTokens(fields, base)| == |fields|
  {
    FieldTokensAreFields(fields, base);
    FieldTokensAt(fields, base);
  }

  /** Tokens read behind an open quote. */
  lemma OpenQuoteIsLost(mid: Scan, fields: seq<Pair>, base: nat)
    requires mid.quoted && mid.text != [] && GoodKeys(fields) && fields != []
    ensures var after := ScanText(mid, Tail(FieldTexts(fields)), base);
            Idle(after) ==> OtherFields(Flush(after), fields)
  {
    var n, junk, at := ScanShifted(mid, fields, base);
    if Idle(ScanText(mid, Tail(FieldTexts(fields)), base)) {
      FoundTokens(fields[n..], at);
      SwallowedFields(junk, FieldTokens(fields[n..], at), fields, n);
    }
  }

  lemma LastWordIsField(words: seq<Token>, fields: seq<Pair>, base: nat)
    requires !EndsPlain(words) && GoodKeys(fields)
    ensures OtherFields(words + FieldTokens(fields, base), fields)
  {
    FoundTokens(fields, base);
    OneFieldMore(words, FieldTokens(fields, base), fields);
  }

  /** Behind a message that is not settled the fields are never read as they were written. */
  lemma UnsettledIsLost(m: Text, fields: seq<Pair>)
    requires !Settled(m) && GoodKeys(fields)
    ensures var tokens := Tokenize(m + Tail(FieldTexts(fields)));
            tokens.Some? ==> OtherFields(tokens.value, fields)
  {
    if Tokenize(m).Some? {
      MessageTokens(m, fields);
      LastWordIsField(Tokenize(m).value, fields, |m|);
    } else if fields == [] {
      NilConcat(m);
    } else {
      UnclosedIsLost(m, fields);
    }
  }

  lemma UnclosedIsLost(m: Text, fields: seq<Pair>)
    requires Tokenize(m).None? && GoodKeys(fields) && fields != []
    ensures var tokens := Tokenize(m + Tail(FieldTexts(fields)));
            tokens.Some? ==> OtherFields(tokens.value, fields)
  {
    ScanIsSane(BEGIN, m, 0);
    OpenQuoteIsLost(ScanText(BEGIN, m, 0), fields, |m|);
    TokenizeFrom(m, Tail(FieldTexts(fields)));
  }

  lemma OtherBody(bound: seq<Pair>, body: Text, tokens: seq<Token>, fields: seq<Pair>)
    requires OtherFields(tokens, fields)
    ensures FromTokens(bound, body, tokens).Ok? ==> FromTokens(bound, body, tokens).value.fields != Stripped(fields)
  {
    StartWithin(tokens);
    DecodedCount(tokens[FieldsStart(tokens)..]);
  }

  lemma StartWithin(tokens: seq<Token>)
    ensures FieldsStart(tokens) <= |tokens| && AllFields(tokens[FieldsStart(tokens)..])
  {
    assert tokens[|tokens|..] == [];
    StartIs(tokens, |tokens|);
  }

  /** A message and the fields behind it: read back when the message is settled, and otherwise with other fields. */
  lemma MessageParses(bound: seq<Pair>, s: Text, fields: seq<Pair>)
    requires GoodKeys(fields)
    ensures var r := ParseMessage(bound, true, Escape(s, false) + Tail(FieldTexts(fields)));
            if Settled(Escape(s, false)) then r == Ok(Body(bound, TrimTail(s), Stripped(fields)))
            else r.Ok? ==> r.value.fields != Stripped(fields)
  {
    var body := Escape(s, false) + Tail(FieldTexts(fields));
    if Settled(Escape(s, false)) {
      MessageReadsBack(bound, s, fields);
    } else {
      UnsettledIsLost(Escape(s, false), fields);
      if Tokenize(body).Some? { OtherBody(bound, body, Tokenize(body).value, fields); }
    }
  }

  /** Fields alone are read back with an empty message. */
  lemma FieldsReadBack(bound: seq<Pair>, fields: seq<Pair>)
    requires GoodKeys(fields)
    ensures var body := Join(FieldTexts(fields));
            && Tokenize(body).Some?
            && FromTokens(bound, body, Tokenize(body).value) == Ok(Body(bound, [], Stripped(fields)))
  {
    if fields == [] {
      assert Tokenize([]) == Some([]);
    } else {
      JoinTokens(fields);
      JoinDecodes(fields);
      FieldDecodes(fields[0]);
      FieldTokensAreFields(fields[1..], |FieldText(fields[0])|);
      FieldsFirst(bound, Join(FieldTexts(fields)), Tokenize(Join(FieldTexts(fields))).value);
    }
  }

  lemma FieldsFirst(bound: seq<Pair>, body: Text, tokens: seq<Token>)
    requires tokens != [] && tokens[0].start == 0 && AllFields(tokens) && Decoded(tokens).Some?
    ensures FromTokens(bound, body, tokens) == Ok(Body(bound, [], Decoded(tokens).value))
  {
    assert tokens[0..] == tokens && body[..0] == [];
    assert TrimEnd([]) == [] && Decode([]) == Some([]);
  }

  // ------------------------------------------------ no misplaced context

  lemma FieldEnd(p: Pair)
    ensures FieldText(p) != [] && FieldText(p)[|FieldText(p)| - 1] != CLOSE
  {
    var value := ValueText(Strip(p.value));
    assert value != [] && value[|value| - 1] != CLOSE by {
      if Bare(Strip(p.value)) { assert value[|value| - 1] in value; }
    }
  }

  lemma {:induction false} TailEnd(pairs: seq<Pair>)
    requires pairs != []
    ensures Tail(FieldTexts(pairs)) != [] && Tail(FieldTexts(pairs))[|Tail(FieldTexts(pairs))| - 1] != CLOSE
    decreases |pairs|
  {
    FieldTail(pairs);
    FieldEnd(pairs[0]);
    if |pairs| > 1 { TailEnd(pairs[1..]); }
  }

  lemma JoinEnd(pairs: seq<Pair>)
    requires pairs != []
    ensures Join(FieldTexts(pairs)) != [] && Join(FieldTexts(pairs))[|Join(FieldTexts(pairs))| - 1] != CLOSE
  {
    JoinTail(pairs);
    FieldEnd(pairs[0]);
    if |pairs| > 1 { TailEnd(pairs[1..]); }
  }

  lemma OpenEnd(body: Text)
    requires body == [] || body[|body| - 1] != CLOSE
    ensures !BoundAfterMessage(body)
  {
  }

  /** Only a message at the very end of a line can pass for misplaced context. */
  lemma ContextIs(e: Record)
    requires GoodKeys(e.fields)
    ensures BoundAfterMessage(Join(Parts(e))) <==> e.fields == [] && BoundAfterMessage(MessageText(e.message))
  {
    PartsTail(e);
    if e.fields != [] {
      if e.message == [] { JoinEnd(e.fields); } else { TailEnd(e.fields); }
      OpenEnd(Join(Parts(e)));
    } else if e.message == [] {
      NothingIsEmpty();
      OpenEnd([]);
    } else {
      NilConcat(MessageText(e.message));
    }
  }

  lemma NothingIsEmpty()
    ensures MessageText([]) == [] && Tokenize([]) == Some([]) && TrimTail([]) == []
  {
    assert Strip([]) == [];
  }

  /** The message leaves no quote open and does not end in a word that is a field. */
  predicate Settles(e: Record) { Settled(MessageText(e.message)) }

  /** Nothing is bound, nothing follows the message, and it ends like a bracket of fields. */
  predicate Misplaced(e: Record) { e.bound == [] && e.fields == [] && BoundAfterMessage(MessageText(e.message)) }

  /** What reading the record's parts must come to. */
  predicate PartsRead(e: Record, bound: seq<Pair>, r: Result<Body, string>) {
    if Settles(e) then r == Ok(Body(bound, TrimTail(Strip(e.message)), Stripped(e.fields)))
    else r.Ok? ==> r.value.fields != Stripped(e.fields)
  }

  /** Message and fields behind a bracket. */
  lemma PartsBehind(e: Record, bound: seq<Pair>)
    requires GoodKeys(e.fields)
    ensures PartsRead(e, bound, ParseMessage(bound, true, Join(Parts(e))))
  {
    PartsTail(e);
    if e.message == [] {
      NothingIsEmpty();
      FieldsReadBack(bound, e.fields);
    } else {
      MessageParses(bound, Strip(e.message), e.fields);
    }
  }

  /** Message and fields with nothing bound. */
  lemma PartsUnbound(e: Record)
    requires GoodKeys(e.fields) && e.bound == []
    ensures if Misplaced(e) then ParseMessage([], false, Join(Parts(e))) == Err("bound_after_message")
            else PartsRead(e, [], ParseMessage([], false, Join(Parts(e))))
  {
    ContextIs(e);
    PartsBehind(e, []);
  }

  // ------------------------------------------------ bracket and body

  /** What stands behind the logger and its space. */
  function BodyText(e: Record): Text {
    if e.bound == [] then Join(Parts(e))
    else [OPEN] + (Join(FieldTexts(e.bound)) + ([CLOSE] + Tail(Parts(e))))
  }

  lemma {:induction false} TailIsSpaceJoin(parts: seq<Text>)
    ensures Tail(parts) == if parts == [] then [] else [SPACE] + Join(parts)
  {
    if parts != [] { ConcatAssociates([SPACE], parts[0], Tail(parts[1..])); }
  }

  lemma RestShape(e: Record)
    ensures Bracket(e.bound) + Tail(Parts(e)) ==
            if e.bound == [] && Parts(e) == [] then [] else [SPACE] + BodyText(e)
  {
    TailIsSpaceJoin(Parts(e));
    if e.bound == [] {
      NilConcat(Tail(Parts(e)));
    } else {
      var inner, tail := Join(FieldTexts(e.bound)), Tail(Parts(e));
      assert [SPACE, OPEN] == [SPACE] + [OPEN];
      ConcatAssociates([SPACE, OPEN] + inner, [CLOSE], tail);
      ConcatAssociates([SPACE, OPEN], inner, [CLOSE] + tail);
      ConcatAssociates([SPACE], [OPEN], inner + ([CLOSE] + tail));
    }
  }

  /** Nothing bound, and the first thing written is a bracket. */
  predicate LooksBound(e: Record) {
    e.bound == [] &&
    if e.message != [] then Strip(e.message) != [] && Strip(e.message)[0] == OPEN
    else e.fields != [] && e.fields[0].key != [] && e.fields[0].key[0] == OPEN
  }

  lemma FirstUnit(e: Record)
    requires GoodKeys(e.fields)
    ensures Join(Parts(e)) != [] && Join(Parts(e))[0] == OPEN <==>
            if e.message != [] then Strip(e.message) != [] && Strip(e.message)[0] == OPEN
            else e.fields != [] && e.fields[0].key[0] == OPEN
  {
    PartsTail(e);
    if e.message != [] {
      var s := Strip(e.message);
      if s != [] {
        EscapeCons(s, false);
        FirstOfBlock(s[0]);
      } else {
        TailIsSpaceJoin(FieldTexts(e.fields));
      }
    } else if e.fields != [] {
      JoinTail(e.fields);
      assert e.fields[0] in e.fields;
    }
  }

  lemma FirstOfBlock(u: unit)
    ensures Block(u, false) != [] && (Block(u, false)[0] == OPEN <==> u == OPEN)
  {
  }

  /** A printed bracket gives back its stripped pairs, whatever the values contain. */
  lemma BracketReadsBack(e: Record)
    requires e.bound != [] && GoodKeys(e.bound) && GoodKeys(e.fields)
    ensures var r := ParseBracket(Join(FieldTexts(e.bound)) + ([CLOSE] + Tail(Parts(e))));
            if SessionOk(Stripped(e.bound)) then PartsRead(e, Stripped(e.bound), r)
            else r == Err("session_missing_issuer")
  {
    var inner, tail := Join(FieldTexts(e.bound)), Tail(Parts(e));
    var rest := inner + ([CLOSE] + tail);
    CloseJoin(e.bound, tail);
    JoinEnd(e.bound);
    CutAround(inner, CLOSE, tail);
    JoinDecodes(e.bound);
    DropTailSpace(Parts(e));
    PartsBehind(e, Stripped(e.bound));
    BracketResult(rest, |inner|, inner, tail);
  }

  lemma CutAround(a: Text, u: unit, b: Text)
    ensures var t := a + ([u] + b);
            |a| < |t| && t[..|a|] == a && t[|a|] == u && t[|a| + 1..] == b
  {
  }

  lemma DropTailSpace(parts: seq<Text>)
    ensures DropSpace(Tail(parts)) == Join(parts)
  {
    TailIsSpaceJoin(parts);
    if parts != [] { CutConcat([SPACE], Join(parts)); }
  }

  lemma BracketResult(rest: Text, close: nat, inner: Text, tail: Text)
    requires 0 < close < |rest| && CloseOut(rest) == Some(close) && rest[..close] == inner && rest[close + 1..] == tail
    requires Tokenize(inner).Some? && Decoded(Tokenize(inner).value).Some?
    ensures ParseBracket(rest) ==
            var bound := Decoded(Tokenize(inner).value).value;
            if SessionOk(bound) then ParseMessage(bound, true, DropSpace(tail)) else Err("session_missing_issuer")
  {
  }

  /** What reading the body must come to, where nothing unbound passes for a bracket. */
  predicate BodyRead(e: Record, r: Result<Body, string>) {
    if !SessionOk(Stripped(e.bound)) then r == Err("session_missing_issuer")
    else if Misplaced(e) then r == Err("bound_after_message")
    else PartsRead(e, Stripped(e.bound), r)
  }

  lemma BodyReadsBack(e: Record)
    requires GoodKeys(e.bound) && GoodKeys(e.fields) && !LooksBound(e)
    ensures BodyRead(e, ParseBody(BodyText(e)))
  {
    if e.bound == [] {
      FirstUnit(e);
      PartsUnbound(e);
    } else {
      BracketReadsBack(e);
      CutConcat([OPEN], Join(FieldTexts(e.bound)) + ([CLOSE] + Tail(Parts(e))));
    }
  }

  // ------------------------------------------------ timestamp, level and logger

  lemma LevelReadsBack(l: Level, rest: Text)
    ensures FindLevel(Column(l) + rest) == Some(l) && (Column(l) + rest)[6..] == rest
  {
    var t := Column(l) + rest;
    assert t[0] == Column(l)[0] && t[1] == Column(l)[1];
    assert (Column(l) + rest)[..6] == Column(l);
  }

  lemma LoggerReadsBack(timestamp: Text, level: Level, logger: Text, rest: Text, body: Text)
    requires LoggerOk(logger) && (rest == [SPACE] + body || (rest == [] && body == []))
    ensures ParseLogger(timestamp, level, logger + [COLON] + rest) ==
            match ParseBody(body)
            case Err(e) => Err(e)
            case Ok(b) => Ok(Record(timestamp, level, logger, b.bound, b.message, b.fields))
  {
    LoggerIsClean(logger);
    var token, line := logger + [COLON], logger + [COLON] + rest;
    if rest == [] {
      NilConcat(token);
      IndexNone(token, SPACE);
    } else {
      ConcatAssociates(token, [SPACE], body);
      IndexAfter(token, SPACE, body);
      CutConcat(token, [SPACE] + body);
      assert line[|token| + 1..] == body;
    }
    assert token[..|token| - 1] == logger && token[|token| - 1] == COLON;
  }

  lemma HeadReadsBack(clock: Text -> bool, e: Record, rest: Text)
    requires LoggerOk(e.logger) && IsoShape(e.timestamp) && clock(e.timestamp) && Clean(Head(e) + rest)
    ensures ParseLine(clock, Head(e) + rest) == ParseLogger(e.timestamp, e.level, e.logger + [COLON] + rest)
  {
    var after := Column(e.level) + (e.logger + [COLON] + rest);
    var line := Head(e) + rest;
    IsoUnits(e.timestamp);
    ConcatAssociates(e.timestamp + [SPACE] + Column(e.level), e.logger + [COLON], rest);
    ConcatAssociates(e.timestamp + [SPACE], Column(e.level), e.logger + [COLON] + rest);
    assert line == e.timestamp + [SPACE] + after;
    IndexAfter(e.timestamp, SPACE, after);
    ConcatAssociates(e.timestamp, [SPACE], after);
    CutConcat(e.timestamp, [SPACE] + after);
    assert line[|e.timestamp| + 1..] == after;
    ColumnIsClean(e.level);
    LevelReadsBack(e.level, e.logger + [COLON] + rest);
  }

  // ------------------------------------------------ the theorem

  /** The printer accepts the record and its timestamp is one the parser accepts. */
  predicate Printable(clock: Text -> bool, e: Record) {
    FormatLine(e).Ok? && IsoShape(e.timestamp) && clock(e.timestamp)
  }

  predicate Quiet(e: Record) { QuietKeys(e.bound) && QuietKeys(e.fields) }

  /** The record as the line carries it: values and message stripped. */
  function Carried(e: Record): Record {
    e.(bound := Stripped(e.bound), message := Strip(e.message), fields := Stripped(e.fields))
  }

  /** A quiet line is read piece by piece, up to its body. */
  lemma LineParses(clock: Text -> bool, e: Record)
    requires Printable(clock, e) && Quiet(e)
    ensures ParseLine(clock, FormatLine(e).value) ==
            match ParseBody(BodyText(e))
            case Err(bad) => Err(bad)
            case Ok(b) => Ok(Record(e.timestamp, e.level, e.logger, b.bound, b.message, b.fields))
  {
    var rest := Bracket(e.bound) + Tail(Parts(e));
    HeadIsClean(e);
    BracketIsClean(e.bound);
    TailIsClean(e);
    CleanConcat(Bracket(e.bound), Tail(Parts(e)));
    CleanConcat(Head(e), rest);
    HeadReadsBack(clock, e, rest);
    RestShape(e);
    LoggerReadsBack(e.timestamp, e.level, e.logger, rest, BodyText(e));
  }

  /**
   A printed line is refused for its session, refused for its trailing bracket, or
   parses to the carried record less trailing whitespace; and where the message is
   not settled it parses to other fields, if at all.
   */
  lemma LineReadsBack(clock: Text -> bool, e: Record)
    requires Printable(clock, e) && !LooksBound(e) && Quiet(e)
    ensures var r := ParseLine(clock, FormatLine(e).value);
            if !SessionOk(Stripped(e.bound)) then r == Err("session_missing_issuer")
            else if Misplaced(e) then r == Err("bound_after_message")
            else if Settles(e) then r == Ok(Carried(e).(message := TrimTail(Strip(e.message))))
            else r.Ok? ==> r.value.fields != Stripped(e.fields)
  {
    LineParses(clock, e);
    BodyReadsBack(e);
  }

  lemma {:induction false} TailHasKeys(pairs: seq<Pair>, p: Pair)
    requires p in pairs
    ensures forall u <- p.key :: u in Tail(FieldTexts(pairs))
    decreases |pairs|
  {
    FieldTail(pairs);
    if p != pairs[0] { TailHasKeys(pairs[1..], p); }
  }

  /** A terminal introducer inside a key makes the whole line unreadable. */
  lemma LoudKeysAreForbidden(e: Record)
    requires !Quiet(e)
    ensures Forbidden(LineText(e))
  {
    PartsTail(e);
    var rest := Bracket(e.bound) + Tail(Parts(e));
    if !QuietKeys(e.bound) {
      var p :| p in e.bound && !QuietKey(p.key);
      var u :| u in p.key && (u == ESC || u == 0x9B);
      JoinTail(e.bound);
      if p != e.bound[0] { TailHasKeys(e.bound[1..], p); }
      assert u in Join(FieldTexts(e.bound));
      assert u in Bracket(e.bound);
      assert u in LineText(e);
    } else {
      var p :| p in e.fields && !QuietKey(p.key);
      var u :| u in p.key && (u == ESC || u == 0x9B);
      TailHasKeys(e.fields, p);
      assert u in Tail(Parts(e));
      assert u in LineText(e);
    }
  }

  // ------------------------------------------------ a leading bracket is never read back

  lemma {:induction false} ScanStays(s: Scan, t: Text, base: nat)
    requires Flush(s) != []
    ensures Flush(ScanText(s, t, base)) != []
    decreases |t|
  {
    if t != [] { ScanStays(ScanUnit(s, base, t[0]), t[1..], base + 1); }
  }

  /** Only spaces leave no token. */
  lemma {:induction false} NoTokens(s: Scan, t: Text, base: nat)
    requires Idle(s) && Flush(s) == [] && Flush(ScanText(s, t, base)) == []
    ensures forall u <- t :: u == SPACE
    decreases |t|
  {
    if t != [] {
      var next := ScanUnit(s, base, t[0]);
      if Flush(next) != [] { ScanStays(next, t[1..], base + 1); } else { NoTokens(next, t[1..], base + 1); }
      assert t == [t[0]] + t[1..];
    }
  }

  predicate SpacesThenClose(t: Text, n: nat) {
    n < |t| && t[n] == CLOSE && forall i | 0 <= i < n :: t[i] == SPACE
  }

  lemma TailOpens(fields: seq<Pair>, n: nat)
    requires GoodKeys(fields)
    ensures !SpacesThenClose(Tail(FieldTexts(fields)), n)
  {
    if fields != [] {
      FieldTail(fields);
      var key, tail := fields[0].key, Tail(FieldTexts(fields));
      assert fields[0] in fields && key[0] in key;
      assert tail[0] == SPACE && tail[1] == key[0];
    }
  }

  lemma MessageOpens(s: Text, tail: Text, n: nat)
    requires s != [] && SpacesThenClose(Escape(s, false) + tail, n)
    ensures s[0] == (if n == 0 then CLOSE else SPACE)
    ensures Escape(s, false) + tail == [s[0]] + (Escape(s[1..], false) + tail)
  {
    EscapeCons(s, false);
    FirstSpaceOrClose(s[0]);
    ConcatAssociates(Block(s[0], false), Escape(s[1..], false), tail);
    assert (Escape(s, false) + tail)[0] == Block(s[0], false)[0];
  }

  lemma ShiftClose(u: unit, more: Text, n: nat)
    requires n > 0 && SpacesThenClose([u] + more, n)
    ensures SpacesThenClose(more, n - 1) && ([u] + more)[n + 1..] == more[n..]
  {
    forall i | 0 <= i < n - 1 ensures more[i] == SPACE { assert ([u] + more)[i + 1] == more[i]; }
  }

  /** A run of spaces and a closing bracket in front can only come from the message. */
  lemma {:induction false} LeadingClose(s: Text, fields: seq<Pair>, n: nat)
    requires GoodKeys(fields) && SpacesThenClose(Escape(s, false) + Tail(FieldTexts(fields)), n)
    ensures n < |s|
    ensures (Escape(s, false) + Tail(FieldTexts(fields)))[n + 1..] ==
            Escape(s[n + 1..], false) + Tail(FieldTexts(fields))
    decreases n
  {
    var tail := Tail(FieldTexts(fields));
    if s == [] {
      NilConcat(tail);
      TailOpens(fields, n);
      assert false;
    } else {
      MessageOpens(s, tail, n);
      var more := Escape(s[1..], false) + tail;
      if n == 0 {
        CutConcat([s[0]], more);
      } else {
        ShiftClose(s[0], more, n);
        LeadingClose(s[1..], fields, n - 1);
        assert s[1..][n..] == s[n + 1..];
      }
    }
  }

  lemma FirstSpaceOrClose(u: unit)
    ensures Block(u, false) != []
    ensures Block(u, false)[0] == SPACE || Block(u, false)[0] == CLOSE ==> Block(u, false) == [u]
  {
  }

  lemma DropFirst(s: Text, fields: seq<Pair>)
    ensures DropSpace(Escape(s, false) + Tail(FieldTexts(fields))) ==
            if s == [] then Join(FieldTexts(fields))
            else if s[0] == SPACE then Escape(s[1..], false) + Tail(FieldTexts(fields))
            else Escape(s, false) + Tail(FieldTexts(fields))
  {
    var tail := Tail(FieldTexts(fields));
    if s == [] {
      NilConcat(tail);
      DropTailSpace(FieldTexts(fields));
    } else {
      EscapeCons(s, false);
      FirstSpaceOrClose(s[0]);
      FirstIsSpace(s[0]);
      ConcatAssociates(Block(s[0], false), Escape(s[1..], false), tail);
      if s[0] == SPACE { CutConcat([SPACE], Escape(s[1..], false) + tail); }
    }
  }

  lemma FirstIsSpace(u: unit)
    ensures Block(u, false)[0] == SPACE <==> u == SPACE
  {
  }

  lemma FieldsBehind(fields: seq<Pair>)
    requires GoodKeys(fields)
    ensures ParseMessage([], true, Join(FieldTexts(fields))) == Ok(Body([], [], Stripped(fields)))
  {
    FieldsReadBack([], fields);
  }

  /** What is read behind an empty bracket is shorter than the message that held the bracket, or has other fields. */
  lemma ShorterMessage(s: Text, fields: seq<Pair>, n: nat)
    requires GoodKeys(fields) && n < |s|
    ensures var r := ParseMessage([], true, DropSpace(Escape(s[n + 1..], false) + Tail(FieldTexts(fields))));
            r.Ok? ==> |r.value.message| < |s| || r.value.fields != Stripped(fields)
  {
    var t := s[n + 1..];
    DropFirst(t, fields);
    if t == [] {
      FieldsBehind(fields);
    } else if t[0] == SPACE {
      MessageParses([], t[1..], fields);
      TrimTailKeeps(t[1..]);
    } else {
      MessageParses([], t, fields);
      TrimTailKeeps(t);
    }
  }

  lemma SpacesInside(rest: Text, n: nat)
    requires n < |rest| && rest[n] == CLOSE && Tokenize(rest[..n]) == Some([])
    ensures SpacesThenClose(rest, n)
  {
    NoTokens(BEGIN, rest[..n], 0);
    forall i | 0 <= i < n ensures rest[i] == SPACE { assert rest[..n][i] in rest[..n]; }
  }

  /** A bracket that binds nothing holds nothing but spaces. */
  lemma EmptyBracket(rest: Text)
    requires ParseBracket(rest).Ok? && ParseBracket(rest).value.bound == []
    ensures var close := CloseOut(rest);
            && close.Some? && SpacesThenClose(rest, close.value)
            && ParseBracket(rest) == ParseMessage([], true, DropSpace(rest[close.value + 1..]))
  {
    var n := CloseOut(rest).value;
    var inside := rest[..n];
    MessageKeepsBound(Decoded(Tokenize(inside).value).value, DropSpace(rest[n + 1..]));
    assert Tokenize(inside).value == [];
    SpacesInside(rest, n);
  }

  lemma MessageKeepsBound(bound: seq<Pair>, body: Text)
    ensures ParseMessage(bound, true, body).Ok? ==> ParseMessage(bound, true, body).value.bound == bound
  {
  }

  /** A message that opens like a bracket is never returned as such a message with nothing bound. */
  lemma OpenMessageIsLost(s: Text, fields: seq<Pair>)
    requires GoodKeys(fields)
    ensures var r := ParseBracket(Escape(s, false) + Tail(FieldTexts(fields)));
            r.Ok? ==> r.value.bound != [] || |r.value.message| < |s| || r.value.fields != Stripped(fields)
  {
    var rest := Escape(s, false) + Tail(FieldTexts(fields));
    if ParseBracket(rest).Ok? && ParseBracket(rest).value.bound == [] {
      EmptyBracket(rest);
      var n := CloseOut(rest).value;
      LeadingClose(s, fields, n);
      ShorterMessage(s, fields, n);
    }
  }

  lemma RestPasses(p: Pair)
    requires GoodKey(p.key)
    ensures Passes(CloseOut, p.key[1..] + [EQUALS] + ValueText(Strip(p.value)))
  {
    var head, text := p.key[1..] + [EQUALS], Strip(p.value);
    assert forall u <- p.key[1..] :: u in p.key;
    PlainPasses(head);
    if Bare(text) { PlainPasses(text); } else { QuotedPasses(text); }
    PassesConcat(CloseOut, head, ValueText(text));
  }

  lemma DropKeyUnit(p: Pair, tail: Text)
    requires p.key != []
    ensures (FieldText(p) + tail)[1..] == p.key[1..] + [EQUALS] + ValueText(Strip(p.value)) + tail
  {
    var value := ValueText(Strip(p.value));
    assert p.key == [p.key[0]] + p.key[1..];
    assert FieldText(p) == [p.key[0]] + (p.key[1..] + [EQUALS] + value);
    ConcatAssociates([p.key[0]], p.key[1..] + [EQUALS] + value, tail);
    CutConcat([p.key[0]], p.key[1..] + [EQUALS] + value + tail);
  }

  /** A first key that opens like a bracket leaves that bracket open. */
  lemma OpenKeyIsUnterminated(fields: seq<Pair>)
    requires GoodKeys(fields) && fields != []
    ensures ParseBracket(Join(FieldTexts(fields))[1..]) == Err("bound_unterminated")
  {
    var p, tail := fields[0], Tail(FieldTexts(fields[1..]));
    assert p in fields;
    JoinTail(fields);
    DropKeyUnit(p, tail);
    RestPasses(p);
    TailPasses(fields[1..]);
    PassesConcat(CloseOut, p.key[1..] + [EQUALS] + ValueText(Strip(p.value)), tail);
    NothingClosed(CloseOut, p.key[1..] + [EQUALS] + ValueText(Strip(p.value)) + tail);
    Unterminated(Join(FieldTexts(fields))[1..]);
  }

  lemma Unterminated(rest: Text)
    requires CloseOut(rest) == None
    ensures ParseBracket(rest) == Err("bound_unterminated")
  {
  }

  lemma NothingClosed(search: Text -> Option<nat>, a: Text)
    requires Passes(search, a) && search([]) == None
    ensures search(a) == None
  {
    NilConcat(a);
    assert search(a + []) == Shift(|a|, search([]));
  }

  lemma BracketIsNotReadBack(clock: Text -> bool, e: Record)
    requires Printable(clock, e) && LooksBound(e) && Quiet(e)
    ensures ParseLine(clock, FormatLine(e).value) != Ok(Carried(e))
  {
    LineParses(clock, e);
    FirstUnit(e);
    PartsTail(e);
    if e.message == [] {
      OpenKeyIsUnterminated(e.fields);
    } else {
      var s := Strip(e.message);
      EscapeCons(s, false);
      var more := Escape(s[1..], false) + Tail(FieldTexts(e.fields));
      ConcatAssociates([OPEN], Escape(s[1..], false), Tail(FieldTexts(e.fields)));
      CutConcat([OPEN], more);
      OpenMessageIsLost(s[1..], e.fields);
    }
  }

  predicate EndsInSpace(s: Text) { s != [] && Survivor(s[|s| - 1]) }

  /**
   For every printable record the parser returns exactly what the line carries if and
   only if no key holds a terminal introducer, nothing unbound passes for a bracket, a
   bound session names its issuer, the message does not end in whitespace that escaping
   leaves alone, it leaves no quote open and does not end in a word that is a field, and
   it does not close the line like a bracket of fields where nothing is bound.
   */
  lemma RoundTripIff(clock: Text -> bool, e: Record)
    requires Printable(clock, e)
    ensures ParseLine(clock, FormatLine(e).value) == Ok(Carried(e)) <==>
            && Quiet(e) && !LooksBound(e) && SessionOk(Stripped(e.bound)) && !EndsInSpace(Strip(e.message))
            && Settles(e) && !Misplaced(e)
  {
    if !Quiet(e) {
      LoudKeysAreForbidden(e);
    } else if LooksBound(e) {
      BracketIsNotReadBack(clock, e);
    } else {
      LineReadsBack(clock, e);
      TrimTailKeeps(Strip(e.message));
    }
  }

  // ------------------------------------------------ messages with and without `=`

  lemma WordsAreNoFields(t: Text)
    requires NoEquals(t)
    ensures Tokenize(t).Some? && forall x <- Tokenize(t).value :: DecodeField(x.text).None?
  {
    ScanMessage(BEGIN, t, 0);
    var s := ScanText(BEGIN, t, 0);
    forall x | x in Flush(s) ensures DecodeField(x.text).None? { NoEqualsIsNoField(x.text); }
  }

  lemma WordsAreNoContext(m: Text)
    requires NoEquals(m)
    ensures !BoundAfterMessage(m)
  {
    var i := LastSpaceOpen(m);
    if i.Some? && i.value + 2 <= |m| - 1 {
      var t := m[i.value + 2..|m| - 1];
      assert forall u <- t :: u in m;
      WordsAreNoFields(t);
      if Tokenize(t).value != [] { assert Tokenize(t).value[0] in Tokenize(t).value; }
    }
  }

  /** A message without `=` meets both conditions on messages. */
  lemma NoEqualsSettles(e: Record)
    requires NoEquals(Strip(e.message))
    ensures Settles(e) && !Misplaced(e)
  {
    var m := MessageText(e.message);
    EscapeIsPlain(Strip(e.message), false);
    WordsAreNoFields(m);
    WordsAreNoContext(m);
    var words := Tokenize(m).value;
    if words != [] { assert words[|words| - 1] in words; }
  }

  /** Whatever stands before it, a last word without `=` and quotes settles text whose quotes are closed. */
  lemma PlainWordSettles(t: Text, w: Text)
    requires Tokenize(t).Some? && w != [] && forall u <- w :: u != SPACE && u != QUOTE && u != EQUALS
    ensures Settled(t + ([SPACE] + w))
  {
    var mid := ScanText(BEGIN, t, 0);
    TokenizeFrom(t, [SPACE] + w);
    ScanConcat(mid, [SPACE], w, |t|);
    ScanOne(mid, SPACE, |t|);
    ScanPlain(Scan(Flush(mid), [], |t| + 1, false, false), w, |t| + 1);
    NilConcat(w);
    NoEqualsIsNoField(w);
  }

  /** Units that escaping leaves alone and that begin no terminal sequence. */
  predicate Literal(t: Text) { forall u <- t :: Block(u, false) == [u] && !Introducer(u) }

  /**
   Why a last word that is a field cannot be told apart: every field with a bare,
   literal text prints the same line as a message of that text, whatever follows.
   */
  lemma EqualsIsAmbiguous(e: Record, p: Pair)
    requires GoodKey(p.key) && Bare(p.value) && Literal(p.key + [EQUALS] + p.value)
    ensures LineText(e.(message := [], fields := [p] + e.fields)) == LineText(e.(message := p.key + [EQUALS] + p.value))
  {
    var text := p.key + [EQUALS] + p.value;
    var field, message := e.(message := [], fields := [p] + e.fields), e.(message := text);
    assert text[|p.key| + 1..] == p.value && forall u <- p.value :: u in text;
    NothingToStrip(text, 0);
    NothingToStrip(p.value, 0);
    PlainEscape(text);
    PartsTail(field);
    PartsTail(message);
    FieldTail(field.fields);
    assert field.fields[1..] == e.fields;
    NilConcat(Tail(FieldTexts(field.fields)));
  }

  lemma {:induction false} PlainEscape(s: Text)
    requires forall u <- s :: Block(u, false) == [u]
    ensures Escape(s, false) == s
  {
    if s != [] {
      assert s[0] in s && forall u <- s[1..] :: u in s;
      EscapeCons(s, false);
      PlainEscape(s[1..]);
      assert s == [s[0]] + s[1..];
    }
  }
}
