/**
 What the parser accepts: every line it takes is a header of the printer's form
 with a body behind it, and such a line is taken exactly when its body is.
 */
module LogHeader {
  import opened Bytes
  import opened LogLine
  import opened LogRoundTrip
  import opened LogText
  import opened LogTokens
  import opened Wrappers

  /** A header that a printer could have written, for an instant that exists. */
  predicate HeaderOk(clock: Text -> bool, e: Record) {
    IsoShape(e.timestamp) && clock(e.timestamp) && LoggerOk(e.logger)
  }

  /** Nothing, or a space and the body. */
  predicate Behind(rest: Text) { rest == [] || rest[0] == SPACE }

  lemma {:induction false} IndexIs(t: Text, u: unit)
    ensures match IndexOf(t, u)
            case None => u !in t
            case Some(i) => t[i] == u && u !in t[..i]
  {
    if t != [] {
      IndexIs(t[1..], u);
      assert t == [t[0]] + t[1..];
      if t[0] != u && IndexOf(t[1..], u).Some? {
        var i := IndexOf(t[1..], u).value;
        assert t[..i + 1] == [t[0]] + t[1..][..i];
      }
    }
  }

  lemma LevelIsColumn(after: Text)
    requires FindLevel(after).Some?
    ensures |after| >= 6 && after == Column(FindLevel(after).value) + after[6..]
  {
    var column := Column(FindLevel(after).value);
    assert column <= after && |column| == 6;
  }

  /** The logger token of an accepted line. */
  function TokenOf(after: Text): Text {
    var end := IndexOf(after, SPACE);
    if end.Some? then after[..end.value] else after
  }

  lemma LoggerEndsToken(timestamp: Text, level: Level, after: Text)
    requires ParseLogger(timestamp, level, after).Ok?
    ensures var r, token := ParseLogger(timestamp, level, after).value, TokenOf(after);
            && token != [] && token[|token| - 1] == COLON && LoggerOk(token[..|token| - 1])
            && r.timestamp == timestamp && r.level == level && r.logger == token[..|token| - 1]
  {
  }

  lemma TokenIsCut(after: Text)
    ensures |TokenOf(after)| <= |after| && after == TokenOf(after) + after[|TokenOf(after)|..]
    ensures Behind(after[|TokenOf(after)|..])
  {
    IndexIs(after, SPACE);
  }

  lemma LoggerIsToken(timestamp: Text, level: Level, after: Text) returns (rest: Text)
    requires ParseLogger(timestamp, level, after).Ok?
    ensures var r := ParseLogger(timestamp, level, after).value;
            && r.timestamp == timestamp && r.level == level && LoggerOk(r.logger)
            && Behind(rest) && after == r.logger + [COLON] + rest
  {
    LoggerEndsToken(timestamp, level, after);
    TokenIsCut(after);
    var token := TokenOf(after);
    rest := after[|token|..];
    assert token == token[..|token| - 1] + [COLON];
  }

  lemma HeadIsRead(clock: Text -> bool, line: Text) returns (rest: Text)
    requires ParseLine(clock, line).Ok?
    ensures var r := ParseLine(clock, line).value;
            HeaderOk(clock, r) && Clean(line) && Behind(rest) && line == Head(r) + rest
  {
    var r := ParseLine(clock, line).value;
    IndexIs(line, SPACE);
    var end := IndexOf(line, SPACE).value;
    var timestamp, after := line[..end], line[end + 1..];
    LevelIsColumn(after);
    var level := FindLevel(after).value;
    rest := LoggerIsToken(timestamp, level, after[6..]);
    HeadJoins(r, timestamp, level, after, rest);
    assert line == timestamp + [SPACE] + after;
  }

  lemma HeadJoins(r: Record, timestamp: Text, level: Level, after: Text, rest: Text)
    requires r.timestamp == timestamp && r.level == level && after == Column(level) + (r.logger + [COLON] + rest)
    ensures Head(r) + rest == timestamp + [SPACE] + after
  {
    ConcatAssociates(timestamp + [SPACE] + Column(level), r.logger + [COLON], rest);
    ConcatAssociates(timestamp + [SPACE], Column(level), r.logger + [COLON] + rest);
  }

  /**
   A line is accepted exactly when it is a clean header with a body behind it that
   is accepted, and then it gives that header and what the body gives.
   */
  lemma AcceptedIff(clock: Text -> bool, line: Text, r: Record)
    ensures ParseLine(clock, line) == Ok(r) <==>
            && HeaderOk(clock, r) && Clean(line) && Head(r) <= line && Behind(line[|Head(r)|..])
            && ParseBody(DropSpace(line[|Head(r)|..])) == Ok(Body(r.bound, r.message, r.fields))
  {
    if ParseLine(clock, line) == Ok(r) {
      var rest := HeadIsRead(clock, line);
      CutConcat(Head(r), rest);
      BodyIsRead(clock, line, r, rest);
    } else if HeaderOk(clock, r) && Clean(line) && Head(r) <= line && Behind(line[|Head(r)|..]) {
      assert line == Head(r) + line[|Head(r)|..];
      BodyIsRead(clock, line, r, line[|Head(r)|..]);
    }
  }

  lemma BodyIsRead(clock: Text -> bool, line: Text, r: Record, rest: Text)
    requires HeaderOk(clock, r) && Clean(line) && Behind(rest) && line == Head(r) + rest
    ensures ParseLine(clock, line) ==
            match ParseBody(DropSpace(rest))
            case Err(e) => Err(e)
            case Ok(b) => Ok(Record(r.timestamp, r.level, r.logger, b.bound, b.message, b.fields))
  {
    HeadReadsBack(clock, r, rest);
    if rest != [] { assert rest == [SPACE] + rest[1..]; }
    LoggerReadsBack(r.timestamp, r.level, r.logger, rest, DropSpace(rest));
  }

  // ------------------------------------------------ levels, sessions and trailing brackets

  lemma NamesAreTrimmed(l: Level)
    ensures LevelName(l) == TrimEnd(Column(l))
  {
    var c := Column(l);
    assert c[..5][..4] == c[..4];
    assert WhiteSpace(c[5]) && TrimEnd(c) == TrimEnd(c[..5]);
    if l.Info? || l.Warn? {
      assert c[..5][4] == SPACE && TrimEnd(c[..5]) == TrimEnd(c[..4]);
    }
  }

  /** A level must fill its column: one that only begins the line is told apart from none at all. */
  lemma LevelOrReason(timestamp: Text, after: Text)
    ensures ParseLevel(timestamp, after) ==
            if exists l :: Column(l) <= after then ParseLogger(timestamp, FindLevel(after).value, after[6..])
            else if exists l :: TrimEnd(Column(l)) <= after then Err("level_column_width")
            else Err("level_invalid")
  {
    forall l ensures LevelName(l) == TrimEnd(Column(l)) { NamesAreTrimmed(l); }
    if FindLevel(after).Some? {
      LevelIsColumn(after);
      assert Column(FindLevel(after).value) <= after;
    } else {
      forall l ensures !(Column(l) <= after) { NoLevel(after, l); }
      if NamesLevel(after) {
        NamedLevel(after);
      } else {
        forall l ensures !(LevelName(l) <= after) { NoName(after, l); }
      }
    }
  }

  lemma NoLevel(after: Text, l: Level)
    requires FindLevel(after).None?
    ensures !(Column(l) <= after)
  {
  }

  lemma NoName(after: Text, l: Level)
    requires !NamesLevel(after)
    ensures !(LevelName(l) <= after)
  {
  }

  lemma NamedLevel(after: Text)
    requires NamesLevel(after)
    ensures exists l :: LevelName(l) <= after
  {
  }

  lemma ClassesAre(u: unit)
    ensures Letter(u) <==> 'a' as int <= u <= 'z' as int
    ensures Digit(u) <==> '0' as int <= u <= '9' as int
  {
  }

  /** `issuer:id` with both halves present, cut at the last colon. */
  predicate Issued(value: Text) {
    exists i | 0 < i < |value| - 1 :: value[i] == COLON && forall j | i < j < |value| :: value[j] != COLON
  }

  lemma {:induction false} LastIndexIs(t: Text, u: unit)
    ensures match LastIndexOf(t, u)
            case None => u !in t
            case Some(i) => i < |t| && t[i] == u && forall j | i < j < |t| :: t[j] != u
  {
    if t != [] {
      var n := |t| - 1;
      LastIndexIs(t[..n], u);
      assert t == t[..n] + [t[n]];
    }
  }

  lemma IssuerIff(value: Text)
    ensures HasIssuer(value) <==> Issued(value)
  {
    LastIndexIs(value, COLON);
    if HasIssuer(value) {
      var i := LastIndexOf(value, COLON).value;
      assert value[i] == COLON;
    }
  }

  predicate FirstWith(bound: seq<Pair>, key: Text, k: nat)
    requires k < |bound|
  {
    bound[k].key == key && forall j | 0 <= j < k :: bound[j].key != key
  }

  lemma {:induction false} FindPairIs(bound: seq<Pair>, key: Text)
    ensures FindPair(bound, key).None? <==> forall k | 0 <= k < |bound| :: bound[k].key != key
    ensures forall k | 0 <= k < |bound| && FirstWith(bound, key, k) :: FindPair(bound, key) == Some(bound[k].value)
  {
    if bound != [] {
      var rest := bound[1..];
      FindPairIs(rest, key);
      assert forall k | 0 <= k < |rest| :: rest[k] == bound[k + 1];
      forall k | 0 <= k < |bound| && FirstWith(bound, key, k) ensures FindPair(bound, key) == Some(bound[k].value) {
        if k > 0 { assert FirstWith(rest, key, k - 1); }
      }
      if forall k | 0 <= k < |rest| :: rest[k].key != key {
        forall k | 0 < k < |bound| ensures bound[k].key != key { assert rest[k - 1] == bound[k]; }
      }
    }
  }

  /** Bound context is refused exactly for a session without an issuer in front of it. */
  lemma SessionIff(bound: seq<Pair>)
    ensures SessionOk(bound) <==>
            forall k | 0 <= k < |bound| && FirstWith(bound, SESSION, k) :: Issued(bound[k].value)
  {
    FindPairIs(bound, SESSION);
    var found := FindPair(bound, SESSION);
    if found.Some? {
      FirstExists(bound, SESSION);
      IssuerIff(found.value);
    }
  }

  lemma {:induction false} FirstExists(bound: seq<Pair>, key: Text)
    requires FindPair(bound, key).Some?
    ensures exists k | 0 <= k < |bound| :: FirstWith(bound, key, k)
  {
    if bound[0].key == key {
      assert FirstWith(bound, key, 0);
    } else {
      FirstExists(bound[1..], key);
      var k :| 0 <= k < |bound[1..]| && FirstWith(bound[1..], key, k);
      assert forall j | 0 <= j < |bound[1..]| :: bound[1..][j] == bound[j + 1];
      assert FirstWith(bound, key, k + 1);
    }
  }

  predicate OpensAt(t: Text, i: nat)
    requires i + 1 < |t|
  {
    t[i] == SPACE && t[i + 1] == OPEN
  }

  /** The trailing bracket starts at the last space with an opening bracket behind it. */
  lemma {:induction false} LastOpenIs(t: Text)
    ensures match LastSpaceOpen(t)
            case None => forall i | 0 <= i < |t| - 1 :: !OpensAt(t, i)
            case Some(i) => OpensAt(t, i) && forall j | i < j < |t| - 1 :: !OpensAt(t, j)
  {
    if |t| >= 2 {
      var front := t[..|t| - 1];
      LastOpenIs(front);
      forall i | 0 <= i < |front| - 1 ensures OpensAt(front, i) <==> OpensAt(t, i) { }
    }
  }
}
