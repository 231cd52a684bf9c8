/**
 The fleet log line: its printer, its parser, and when the parser gives back
 exactly what the printer was given.
 */
module LogLine {
  import opened Bytes
  import opened LogText
  import opened LogTokens
  import opened Wrappers

  const COLON: unit := 0x3A
  const DOT: unit := 0x2E
  const SESSION: Text := [0x73, 0x65, 0x73, 0x73, 0x69, 0x6F, 0x6E]

  datatype Level = Trace | Debug | Info | Warn | Error

  /** The level in its fixed-width column, with the space behind it. */
  function Column(l: Level): Text {
    match l
    case Trace => [0x54, 0x52, 0x41, 0x43, 0x45, SPACE]
    case Debug => [0x44, 0x45, 0x42, 0x55, 0x47, SPACE]
    case Info => [0x49, 0x4E, 0x46, 0x4F, SPACE, SPACE]
    case Warn => [0x57, 0x41, 0x52, 0x4E, SPACE, SPACE]
    case Error => [0x45, 0x52, 0x52, 0x4F, 0x52, SPACE]
  }

  function LevelName(l: Level): Text {
    if l.Info? || l.Warn? then Column(l)[..4] else Column(l)[..5]
  }

  /** An event, or what a line says of one. */
  datatype Record = Record(
    timestamp: Text, level: Level, logger: Text, bound: seq<Pair>, message: Text, fields: seq<Pair>)

  predicate Letter(u: unit) { 0x61 <= u <= 0x7A }

  predicate Digit(u: unit) { 0x30 <= u <= 0x39 }

  predicate IsSegment(t: Text) {
    t != [] && Letter(t[0]) && forall u <- t :: Letter(u) || Digit(u) || u == 0x2D
  }

  function SplitDots(t: Text): seq<Text> {
    if t == [] then [[]]
    else
      var before := SplitDots(t[..|t| - 1]);
      var last := t[|t| - 1];
      if before == [] then [[last]]
      else if last == DOT then before + [[]]
      else before[..|before| - 1] + [before[|before| - 1] + [last]]
  }

  predicate LoggerOk(logger: Text) { forall s <- SplitDots(logger) :: IsSegment(s) }

  predicate IsoShape(t: Text) {
    && |t| == 24 && t[4] == 0x2D && t[7] == 0x2D && t[10] == 0x54 && t[13] == COLON && t[16] == COLON
    && t[19] == DOT && t[23] == 0x5A
    && forall i | i in {0, 1, 2, 3, 5, 6, 8, 9, 11, 12, 14, 15, 17, 18, 20, 21, 22} :: Digit(t[i])
  }

  // ------------------------------------------------ printing

  function MessageText(message: Text): Text { Escape(Strip(message), false) }

  function Parts(e: Record): seq<Text> {
    (if e.message != [] then [MessageText(e.message)] else []) + FieldTexts(e.fields)
  }

  function Bracket(bound: seq<Pair>): Text {
    if bound == [] then [] else [SPACE, OPEN] + Join(FieldTexts(bound)) + [CLOSE]
  }

  function Head(e: Record): Text { e.timestamp + [SPACE] + Column(e.level) + (e.logger + [COLON]) }

  function LineText(e: Record): Text { Head(e) + (Bracket(e.bound) + Tail(Parts(e))) }

  /** Printing throws on a bad logger or key. */
  function FormatLine(e: Record): Result<Text, string> {
    if !LoggerOk(e.logger) then Err("logger segment")
    else if !GoodKeys(e.bound) then Err("bound field key")
    else if !GoodKeys(e.fields) then Err("event field key")
    else Ok(LineText(e))
  }

  // ------------------------------------------------ parsing

  function TrimEnd(t: Text): Text {
    if t != [] && WhiteSpace(t[|t| - 1]) then TrimEnd(t[..|t| - 1]) else t
  }

  function FindPair(bound: seq<Pair>, key: Text): Option<Text> {
    if bound == [] then None else if bound[0].key == key then Some(bound[0].value) else FindPair(bound[1..], key)
  }

  function LastIndexOf(t: Text, u: unit): Option<nat> {
    if t == [] then None
    else if t[|t| - 1] == u then Some(|t| - 1)
    else LastIndexOf(t[..|t| - 1], u)
  }

  /** `issuer:id`, split at the last colon, with both halves present. */
  predicate HasIssuer(value: Text) {
    var i := LastIndexOf(value, COLON);
    i.Some? && i.value > 0 && i.value + 1 != |value|
  }

  predicate SessionOk(bound: seq<Pair>) {
    var session := FindPair(bound, SESSION);
    session.None? || HasIssuer(session.value)
  }

  predicate AllFields(tokens: seq<Token>) { forall t <- tokens :: DecodeField(t.text).Some? }

  /** The earliest point from which every remaining token is a field. */
  function FieldsStart(tokens: seq<Token>): nat {
    if AllFields(tokens) then 0 else 1 + FieldsStart(tokens[1..])
  }

  function LastSpaceOpen(t: Text): (r: Option<nat>)
    ensures r.Some? ==> r.value + 2 <= |t| && t[r.value + 1] == OPEN
  {
    if |t| < 2 then None
    else if t[|t| - 2] == SPACE && t[|t| - 1] == OPEN then Some(|t| - 2)
    else LastSpaceOpen(t[..|t| - 1])
  }

  /** A trailing bracket that holds real fields is misplaced context. */
  predicate BoundAfterMessage(body: Text) {
    var i := LastSpaceOpen(body);
    i.Some? && body[|body| - 1] == CLOSE && i.value + 2 <= |body| - 1 &&
    var context := Tokenize(body[i.value + 2..|body| - 1]);
    context.Some? && context.value != [] && AllFields(context.value)
  }

  datatype Body = Body(bound: seq<Pair>, message: Text, fields: seq<Pair>)

  function Take(t: Text, n: nat): Text { if n <= |t| then t[..n] else t }

  function FromTokens(bound: seq<Pair>, body: Text, tokens: seq<Token>): Result<Body, string> {
    var start := FieldsStart(tokens);
    var end := if start < |tokens| then tokens[start].start else |body|;
    var message := Decode(TrimEnd(Take(body, end)));
    var fields := if start <= |tokens| then Decoded(tokens[start..]) else None;
    if message.None? then Err("message_escape_invalid")
    else Ok(Body(bound, message.value, if fields.Some? then fields.value else []))
  }

  function ParseMessage(bound: seq<Pair>, hadBracket: bool, body: Text): Result<Body, string> {
    if !hadBracket && BoundAfterMessage(body) then Err("bound_after_message")
    else
      match Tokenize(body)
      case None => Err("field_quoting_invalid")
      case Some(tokens) => FromTokens(bound, body, tokens)
  }

  function DropSpace(t: Text): Text { if t != [] && t[0] == SPACE then t[1..] else t }

  function ParseBracket(rest: Text): Result<Body, string> {
    match CloseOut(rest)
    case None => Err("bound_unterminated")
    case Some(close) =>
      if close == 0 then Err("empty_bound_bracket")
      else if close >= |rest| then Err("bound_unterminated")
      else
        match Tokenize(rest[..close])
        case None => Err("bound_field_grammar")
        case Some(tokens) =>
          match Decoded(tokens)
          case None => Err("bound_field_grammar")
          case Some(bound) =>
            if !SessionOk(bound) then Err("session_missing_issuer")
            else ParseMessage(bound, true, DropSpace(rest[close + 1..]))
  }

  function ParseBody(body: Text): Result<Body, string> {
    if body != [] && body[0] == OPEN then ParseBracket(body[1..]) else ParseMessage([], false, body)
  }

  function FindLevel(after: Text): Option<Level> {
    if Column(Trace) <= after then Some(Trace)
    else if Column(Debug) <= after then Some(Debug)
    else if Column(Info) <= after then Some(Info)
    else if Column(Warn) <= after then Some(Warn)
    else if Column(Error) <= after then Some(Error)
    else None
  }

  predicate NamesLevel(after: Text) {
    || LevelName(Trace) <= after || LevelName(Debug) <= after || LevelName(Info) <= after
    || LevelName(Warn) <= after || LevelName(Error) <= after
  }

  function ParseLogger(timestamp: Text, level: Level, afterLevel: Text): Result<Record, string> {
    var end := IndexOf(afterLevel, SPACE);
    var token := if end.Some? then afterLevel[..end.value] else afterLevel;
    var body := if end.Some? then afterLevel[end.value + 1..] else [];
    if token == [] || token[|token| - 1] != COLON then Err("logger_not_terminated")
    else
      var logger := token[..|token| - 1];
      if logger == [] then Err("logger_missing")
      else if !LoggerOk(logger) then Err("logger_segment_grammar")
      else
        match ParseBody(body)
        case Err(e) => Err(e)
        case Ok(b) => Ok(Record(timestamp, level, logger, b.bound, b.message, b.fields))
  }

  function ParseLevel(timestamp: Text, after: Text): Result<Record, string> {
    match FindLevel(after)
    case None => Err(if NamesLevel(after) then "level_column_width" else "level_invalid")
    case Some(level) => if |after| < 6 then Err("level_invalid") else ParseLogger(timestamp, level, after[6..])
  }

  predicate Forbidden(line: Text) { exists u <- line :: u == ESC || u == 0x9B }

  /** `clock` tells the instants that exist from mere shapes of one. */
  function ParseLine(clock: Text -> bool, line: Text): Result<Record, string> {
    if Forbidden(line) then Err("ansi_forbidden")
    else if 0xD in line || 0xA in line then Err("line_break")
    else
      match IndexOf(line, SPACE)
      case None => Err("timestamp_missing")
      case Some(end) =>
        var timestamp := line[..end];
        if timestamp == [] || timestamp[|timestamp| - 1] != 0x5A then Err("timestamp_not_utc_z")
        else if !IsoShape(timestamp) then Err("timestamp_precision")
        else if !clock(timestamp) then Err("timestamp_invalid")
        else ParseLevel(timestamp, line[end + 1..])
  }
}
