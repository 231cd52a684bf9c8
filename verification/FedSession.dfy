/**
 The subscription session of the federation protocol: which frames a session
 accepts for each subscription id, and what it reports lost when it closes.
 */
module FedSession {
  import opened Bytes
  import opened Wrappers

  const MAX_ID := 9007199254740991
  const MAX_BODY := 16777216

  type Reason = string

  /** A header value, as far as the schema distinguishes one. */
  datatype Value = Text(s: string) | Integer(i: int) | Boolean(b: bool) | Other

  type Header = map<string, Value>

  datatype Direction = OriginToServer | ServerToOrigin

  datatype Frame = Frame(header: Header, body: seq<byte>, direction: Direction)

  /** Checks this model takes as given: the two other header kinds, and a module error body. */
  datatype Schema = Schema(
    hello: (Header, seq<byte>) -> Option<Reason>,
    callFrame: Header -> Option<Reason>,
    moduleError: seq<byte> -> Option<Reason>)

  const KNOWN_ENDS: set<string> := {
    "completed", "module_error", "unsubscribed", "lagged", "module_restarted",
    "not_exposed", "revoked", "rotating", "draining" }

  function KeysOf(kind: string): set<string> {
    if kind == "subscribe" then {"type", "id", "module", "op"}
    else if kind == "subscription_refused" then {"type", "id", "code"}
    else if kind == "end" then {"type", "id", "reason"}
    else {"type", "id"}
  }

  predicate InSchema(kind: string) {
    kind in {"subscribe", "open", "subscription_refused", "notice", "end", "unsubscribe"}
  }

  function DirectionOf(kind: string): Direction {
    if kind == "subscribe" || kind == "unsubscribe" then OriginToServer else ServerToOrigin
  }

  predicate ValidName(v: Value, allowDot: bool) {
    && v.Text? && 1 <= |v.s| <= 128
    && forall c <- v.s :: '!' <= c <= '~' && c != ':' && (allowDot || c != '.')
  }

  predicate NonEmptyText(v: Value) { v.Text? && v.s != "" }

  /** The schema check; `None` accepts. */
  function Validate(schema: Schema, f: Frame): Option<Reason> {
    var h := f.header;
    if |f.body| > MAX_BODY then Some("body_too_large")
    else if "type" !in h || !h["type"].Text? then Some("type_string_required")
    else
      var kind := h["type"].s;
      if kind == "hello" then schema.hello(h, f.body)
      else if kind == "call_frame" then schema.callFrame(h)
      else if !InSchema(kind) then Some("unknown_type")
      else if h.Keys != KeysOf(kind) then Some("header_keys")
      else if f.direction != DirectionOf(kind) then Some("wrong_direction")
      else if !(h["id"].Integer? && 0 <= h["id"].i <= MAX_ID) then Some("invalid_id")
      else if kind == "subscribe" && !ValidName(h["module"], false) then Some("invalid_module")
      else if kind == "subscribe" && !ValidName(h["op"], true) then Some("invalid_op")
      else if kind in {"open", "subscription_refused", "unsubscribe"} && f.body != [] then Some("forbidden_body")
      else if kind == "subscription_refused" && !NonEmptyText(h["code"]) then Some("invalid_code")
      else if kind != "end" then None
      else if !NonEmptyText(h["reason"]) then Some("invalid_reason")
      else if h["reason"].s == "module_error" then schema.moduleError(f.body)
      else if h["reason"].s in KNOWN_ENDS && f.body != [] then Some("known_end_body")
      else None
  }

  // ------------------------------------------------ the session object's behaviour

  datatype Phase = Opening | Open | CancelBeforeOpen | Closing | Terminal | Refused

  datatype State = State(states: map<int, Phase>, closed: bool, negotiated: bool)

  datatype Event =
    | UnaryReply
    | ModuleSubscribe(id: int, body: seq<byte>)
    | IgnoredUnsubscribe(id: int)
    | CancelRequested(id: int)
    | Opened(id: int)
    | WasRefused(id: int, code: string)
    | Notice(id: int, body: seq<byte>)
    | Ended(id: int, reason: string, body: seq<byte>)

  predicate Finished(phase: Phase) { phase == Terminal || phase == Refused }

  /** One frame offered to the session: the event it becomes, or why it is refused. */
  function Accept(schema: Schema, s: State, f: Frame): (State, Result<Event, Reason>) {
    if s.closed then (s, Err("session_closed"))
    else
      match Validate(schema, f)
      case Some(reason) => (s, Err(reason))
      case None =>
        if f.header["type"].s == "call_frame" then (s, Ok(UnaryReply))
        else if !s.negotiated then (s, Err("subscribe_not_negotiated"))
        else if "id" !in f.header then (s, Err("KeyError"))
        else if !f.header["id"].Integer? then (s, Err("unknown_id"))
        else AcceptOn(s, f, f.header["id"].i)
  }

  /** The same, once the frame is known to name subscription `id`. */
  function AcceptOn(s: State, f: Frame, id: int): (State, Result<Event, Reason>)
    requires "type" in f.header && f.header["type"].Text?
    requires f.header["type"].s == "subscription_refused" ==> "code" in f.header && f.header["code"].Text?
    requires f.header["type"].s == "end" ==> "reason" in f.header && f.header["reason"].Text?
  {
    var kind := f.header["type"].s;
    var known := id in s.states;
    if kind == "subscribe" then
      if known then (s, Err("reused_id"))
      else (Move(s, id, Opening), Ok(ModuleSubscribe(id, f.body)))
    else if kind == "unsubscribe" then
      if !known || Finished(s.states[id]) then (s, Ok(IgnoredUnsubscribe(id)))
      else if s.states[id] == Opening then (Move(s, id, CancelBeforeOpen), Ok(CancelRequested(id)))
      else if s.states[id] == Open then (Move(s, id, Closing), Ok(CancelRequested(id)))
      else (s, Ok(CancelRequested(id)))
    else if !known then (s, Err("unknown_id"))
    else
      var phase := s.states[id];
      if kind == "open" then
        if phase != Opening then (s, Err("open_out_of_order"))
        else (Move(s, id, Open), Ok(Opened(id)))
      else if kind == "subscription_refused" then
        if phase != Opening && phase != CancelBeforeOpen then (s, Err("refusal_out_of_order"))
        else if phase == CancelBeforeOpen && f.header["code"].s != "fed_cancelled" then
          (s, Err("cancel_requires_refusal"))
        else (Move(s, id, Refused), Ok(WasRefused(id, f.header["code"].s)))
      else if kind == "notice" then
        if phase != Open && phase != Closing then (s, Err("notice_out_of_order"))
        else (s, Ok(Notice(id, f.body)))
      else if kind == "end" then
        if phase != Open && phase != Closing then (s, Err("end_out_of_order"))
        else (Move(s, id, Terminal), Ok(Ended(id, f.header["reason"].s, f.body)))
      else (s, Err("unexpected_session_frame"))
  }

  function Move(s: State, id: int, phase: Phase): State {
    s.(states := s.states[id := phase])
  }

  function Unfinished(s: State): set<int> {
    set id | id in s.states && !Finished(s.states[id])
  }

  lemma RejectionChangesNothing(schema: Schema, s: State, f: Frame)
    ensures Accept(schema, s, f).1.Err? ==> Accept(schema, s, f).0 == s
  {
  }

  // ------------------------------------------------ the language of one subscription

  /** What an accepted frame means for the id it names. */
  datatype Letter = Sub | Unsub | OpenL | RefusedL(code: string) | NoticeL | EndL

  /** The letter a schema-valid subscription frame stands for. */
  function LetterOf(f: Frame): Letter
    requires "type" in f.header && f.header["type"].Text?
    requires f.header["type"].s == "subscription_refused" ==> "code" in f.header && f.header["code"].Text?
  {
    var kind := f.header["type"].s;
    if kind == "subscribe" then Sub
    else if kind == "unsubscribe" then Unsub
    else if kind == "open" then OpenL
    else if kind == "subscription_refused" then RefusedL(f.header["code"].s)
    else if kind == "notice" then NoticeL
    else EndL
  }

  function Core(word: seq<Letter>): seq<Letter> {
    if word == [] then []
    else
      var front, last := word[..|word| - 1], word[|word| - 1];
      if last == Unsub then Core(front) else Core(front) + [last]
  }

  /** Subscribe once, then one refusal, or an opening, notices and one end. */
  predicate WellFormed(core: seq<Letter>) {
    core == [] ||
    (core[0] == Sub &&
     (|core| == 1 ||
      (|core| == 2 && core[1].RefusedL?) ||
      (core[1] == OpenL && forall i :: 2 <= i < |core| ==> core[i] == NoticeL || (core[i] == EndL && i == |core| - 1))))
  }

  /** A cancel that comes before the answer admits only the cancelled refusal. */
  predicate CancelHonoured(word: seq<Letter>) {
    forall i, j | 0 <= i < j < |word| && EarlyAt(word, i) && word[j] != Unsub :: word[j] == RefusedL("fed_cancelled")
  }

  predicate EarlyAt(word: seq<Letter>, i: nat)
    requires i < |word|
  {
    word[i] == Unsub && Core(word[..i]) == [Sub]
  }

  predicate Legal(word: seq<Letter>) {
    WellFormed(Core(word)) && CancelHonoured(word)
  }

  // ------------------------------------------------ the automaton speaks that language

  /** Some cancel in `word` came while the subscription was still unanswered. */
  predicate EarlyCancel(word: seq<Letter>) {
    word != [] &&
      var front, last := word[..|word| - 1], word[|word| - 1];
      EarlyCancel(front) || (last == Unsub && Core(front) == [Sub])
  }

  /** Some cancel in `word` came while the subscription was open. */
  predicate LateCancel(word: seq<Letter>) {
    word != [] &&
      var front, last := word[..|word| - 1], word[|word| - 1];
      LateCancel(front) || (last == Unsub && |Core(front)| > 1 && Core(front)[1] == OpenL && EndL !in Core(front))
  }

  /** Where a legal word leaves its subscription. */
  function PhaseAfter(word: seq<Letter>): Option<Phase> {
    PhaseFrom(Core(word), EarlyCancel(word), LateCancel(word))
  }

  function PhaseFrom(core: seq<Letter>, early: bool, late: bool): Option<Phase> {
    if core == [] then None
    else if |core| == 1 then if early then Some(CancelBeforeOpen) else Some(Opening)
    else if core[1].RefusedL? then Some(Refused)
    else if core[|core| - 1] == EndL then Some(Terminal)
    else if late then Some(Closing)
    else Some(Open)
  }

  /** The code's transition on one letter; `None` refuses. */
  function Next(phase: Option<Phase>, l: Letter): Option<Option<Phase>> {
    match l
    case Sub => if phase == None then Some(Some(Opening)) else None
    case Unsub =>
      if phase == Some(Opening) then Some(Some(CancelBeforeOpen))
      else if phase == Some(Open) then Some(Some(Closing))
      else Some(phase)
    case OpenL => if phase == Some(Opening) then Some(Some(Open)) else None
    case RefusedL(code) =>
      if phase == Some(Opening) || (phase == Some(CancelBeforeOpen) && code == "fed_cancelled")
      then Some(Some(Refused)) else None
    case NoticeL => if phase == Some(Open) || phase == Some(Closing) then Some(phase) else None
    case EndL => if phase == Some(Open) || phase == Some(Closing) then Some(Some(Terminal)) else None
  }

  lemma Snoc(word: seq<Letter>, l: Letter)
    ensures Core(word + [l]) == if l == Unsub then Core(word) else Core(word) + [l]
    ensures EarlyCancel(word + [l]) == (EarlyCancel(word) || (l == Unsub && Core(word) == [Sub]))
    ensures LateCancel(word + [l]) ==
      (LateCancel(word) || (l == Unsub && |Core(word)| > 1 && Core(word)[1] == OpenL && EndL !in Core(word)))
  {
    var longer := word + [l];
    assert longer[..|longer| - 1] == word;
  }

  lemma {:induction false} EarlyCancelMeans(word: seq<Letter>)
    ensures EarlyCancel(word) <==> exists i :: 0 <= i < |word| && EarlyAt(word, i)
  {
    if word != [] {
      var n := |word| - 1;
      var front := word[..n];
      EarlyCancelMeans(front);
      forall i | 0 <= i < n ensures EarlyAt(word, i) <==> EarlyAt(front, i) { EarlyInFront(word, n, i); }
      assert EarlyAt(word, n) <==> word[n] == Unsub && Core(front) == [Sub];
    }
  }

  lemma EarlyInFront(word: seq<Letter>, n: nat, i: nat)
    requires i < n <= |word|
    ensures EarlyAt(word, i) <==> EarlyAt(word[..n], i)
  {
    assert word[..n][..i] == word[..i];
  }

  lemma CancelHonouredSnoc(word: seq<Letter>, l: Letter)
    ensures CancelHonoured(word + [l]) <==>
            CancelHonoured(word) && (EarlyCancel(word) && l != Unsub ==> l == RefusedL("fed_cancelled"))
  {
    EarlyCancelMeans(word);
    var n, longer := |word|, word + [l];
    assert longer[..n] == word;
    forall i | 0 <= i < n ensures EarlyAt(longer, i) <==> EarlyAt(word, i) { EarlyInFront(longer, n, i); }
    assert forall j | 0 <= j < n :: longer[j] == word[j];
    if CancelHonoured(longer) {
      if EarlyCancel(word) && l != Unsub {
        var i :| 0 <= i < n && EarlyAt(word, i);
        assert EarlyAt(longer, i) && longer[n] == l;
      }
    }
  }

  /** What the letters seen so far pin down once the word is legal. */
  lemma {:induction false} LegalShape(word: seq<Letter>)
    requires Legal(word)
    ensures EarlyCancel(word) ==> Core(word) == [Sub] || Core(word) == [Sub, RefusedL("fed_cancelled")]
    ensures LateCancel(word) ==> |Core(word)| > 1 && Core(word)[1] == OpenL
  {
    if word != [] {
      var front, l := word[..|word| - 1], word[|word| - 1];
      assert word == front + [l];
      PrefixLegal(front, l);
      LegalShape(front);
      Snoc(front, l);
      CancelHonouredSnoc(front, l);
    }
  }

  lemma PrefixLegal(word: seq<Letter>, l: Letter)
    requires Legal(word + [l])
    ensures Legal(word)
  {
    Snoc(word, l);
    CancelHonouredSnoc(word, l);
    var core := Core(word);
    if l != Unsub && core != [] {
      assert (core + [l])[..|core|] == core;
      assert forall i :: 0 <= i < |core| ==> (core + [l])[i] == core[i];
    }
  }

  /** From a legal word, the code takes a letter exactly when the longer word is legal. */
  lemma TransitionIsLanguage(word: seq<Letter>, l: Letter)
    requires Legal(word)
    ensures Next(PhaseAfter(word), l).Some? <==> Legal(word + [l])
    ensures Legal(word + [l]) ==> Next(PhaseAfter(word), l) == Some(PhaseAfter(word + [l]))
  {
    LegalShape(word);
    Snoc(word, l);
    CancelHonouredSnoc(word, l);
    if l == Unsub {
      CancelMoves(Core(word), EarlyCancel(word), LateCancel(word));
    } else {
      LetterMoves(Core(word), EarlyCancel(word), LateCancel(word), l);
    }
  }

  predicate Shaped(core: seq<Letter>, early: bool, late: bool) {
    && WellFormed(core)
    && (early ==> core == [Sub] || core == [Sub, RefusedL("fed_cancelled")])
    && (late ==> |core| > 1 && core[1] == OpenL)
  }

  /** A cancel is always taken, and remembered by what it found. */
  lemma CancelMoves(core: seq<Letter>, early: bool, late: bool)
    requires Shaped(core, early, late)
    ensures Next(PhaseFrom(core, early, late), Unsub) ==
            Some(PhaseFrom(core, early || core == [Sub],
                           late || (|core| > 1 && core[1] == OpenL && EndL !in core)))
  {
    if |core| > 2 { assert core[|core| - 1] in core; }
  }

  lemma LetterMoves(core: seq<Letter>, early: bool, late: bool, l: Letter)
    requires Shaped(core, early, late) && l != Unsub
    ensures Next(PhaseFrom(core, early, late), l).Some? <==>
            WellFormed(core + [l]) && (early ==> l == RefusedL("fed_cancelled"))
    ensures Next(PhaseFrom(core, early, late), l).Some? ==>
              Next(PhaseFrom(core, early, late), l) == Some(PhaseFrom(core + [l], early, late))
  {
    ExtendCore(core, l);
  }

  /** Which letters a well-formed core can take next. */
  lemma ExtendCore(core: seq<Letter>, l: Letter)
    requires WellFormed(core) && l != Unsub
    ensures WellFormed(core + [l]) <==>
            if core == [] then l == Sub
            else if |core| == 1 then l.RefusedL? || l == OpenL
            else core[1] == OpenL && core[|core| - 1] != EndL && (l == NoticeL || l == EndL)
  {
    var longer := core + [l];
    assert forall i :: 0 <= i < |core| ==> longer[i] == core[i];
    if |core| >= 2 && WellFormed(longer) {
      assert longer[|core|] == l;
      assert |core| > 2 ==> longer[|core| - 1] != EndL;
    }
  }

  // ------------------------------------------------ whole runs

  function PhaseOf(s: State, id: int): Option<Phase> {
    if id in s.states then Some(s.states[id]) else None
  }

  /** What a run of offered frames leaves: the state and, per id, the letters it accepted. */
  datatype Run = Run(state: State, words: map<int, seq<Letter>>)

  function WordOf(r: Run, id: int): seq<Letter> {
    if id in r.words then r.words[id] else []
  }

  function Offered(schema: Schema, r: Run, f: Frame): Run {
    var next := Accept(schema, r.state, f);
    if next.1.Err? || next.1.value.UnaryReply? then Run(next.0, r.words)
    else Run(next.0, r.words[f.header["id"].i := WordOf(r, f.header["id"].i) + [LetterOf(f)]])
  }

  /** A session is offered frames and may be closed, in any order. */
  datatype Input = Deliver(frame: Frame) | CloseSession

  function After(schema: Schema, negotiated: bool, inputs: seq<Input>): Run {
    if inputs == [] then Run(State(map[], false, negotiated), map[])
    else
      var r := After(schema, negotiated, inputs[..|inputs| - 1]);
      match inputs[|inputs| - 1]
      case Deliver(f) => Offered(schema, r, f)
      case CloseSession => r.(state := r.state.(closed := true))
  }

  ghost predicate Faithful(r: Run) {
    forall id :: Legal(WordOf(r, id)) && PhaseOf(r.state, id) == PhaseAfter(WordOf(r, id))
  }

  /** One subscription frame acts on its own id as the automaton does, and on no other. */
  lemma AcceptOnIsNext(s: State, f: Frame, id: int)
    requires "type" in f.header && f.header["type"].Text? && InSchema(f.header["type"].s)
    requires f.header["type"].s == "subscription_refused" ==> "code" in f.header && f.header["code"].Text?
    requires f.header["type"].s == "end" ==> "reason" in f.header && f.header["reason"].Text?
    ensures var out, next := AcceptOn(s, f, id), Next(PhaseOf(s, id), LetterOf(f));
            && (out.1.Ok? <==> next.Some?)
            && (out.1.Err? ==> out.0 == s)
            && (out.1.Ok? ==> PhaseOf(out.0, id) == next.value)
            && (forall other :: other != id ==> PhaseOf(out.0, other) == PhaseOf(s, other))
  {
  }

  /** An accepted frame other than a unary reply passed the schema and names an id. */
  lemma AcceptedIsSchemaFrame(schema: Schema, s: State, f: Frame)
    requires Accept(schema, s, f).1.Ok? && !Accept(schema, s, f).1.value.UnaryReply?
    ensures "type" in f.header && f.header["type"].Text? && InSchema(f.header["type"].s)
    ensures "id" in f.header && f.header["id"].Integer?
    ensures Accept(schema, s, f) == AcceptOn(s, f, f.header["id"].i)
    ensures f.header["type"].s == "subscription_refused" ==> "code" in f.header && f.header["code"].Text?
    ensures f.header["type"].s == "end" ==> "reason" in f.header && f.header["reason"].Text?
  {
  }

  lemma LetterKeepsFaith(r: Run, state: State, id: int, l: Letter)
    requires Faithful(r) && Next(PhaseOf(r.state, id), l) == Some(PhaseOf(state, id))
    requires forall other :: other != id ==> PhaseOf(state, other) == PhaseOf(r.state, other)
    ensures Faithful(Run(state, r.words[id := WordOf(r, id) + [l]]))
  {
    var r' := Run(state, r.words[id := WordOf(r, id) + [l]]);
    TransitionIsLanguage(WordOf(r, id), l);
    forall other ensures Legal(WordOf(r', other)) && PhaseOf(state, other) == PhaseAfter(WordOf(r', other)) {
      assert other != id ==> WordOf(r', other) == WordOf(r, other);
    }
  }

  lemma OfferedKeepsFaith(schema: Schema, r: Run, f: Frame)
    requires Faithful(r)
    ensures Faithful(Offered(schema, r, f))
  {
    var next := Accept(schema, r.state, f);
    if next.1.Err? {
      RejectionChangesNothing(schema, r.state, f);
    } else if !next.1.value.UnaryReply? {
      AcceptedIsSchemaFrame(schema, r.state, f);
      var id := f.header["id"].i;
      AcceptOnIsNext(r.state, f, id);
      LetterKeepsFaith(r, next.0, id, LetterOf(f));
    }
  }

  lemma ClosingKeepsFaith(r: Run)
    requires Faithful(r)
    ensures Faithful(r.(state := r.state.(closed := true)))
  {
    var r' := r.(state := r.state.(closed := true));
    forall id ensures Legal(WordOf(r', id)) && PhaseOf(r'.state, id) == PhaseAfter(WordOf(r', id)) {
      assert WordOf(r', id) == WordOf(r, id) && PhaseOf(r'.state, id) == PhaseOf(r.state, id);
    }
  }

  /**
   In every run, whatever was offered and refused, each id's accepted letters
   are a word of the language and its phase is where that word leaves it.
   */
  lemma {:induction false} EveryRunSpeaksTheLanguage(schema: Schema, negotiated: bool, inputs: seq<Input>)
    ensures Faithful(After(schema, negotiated, inputs))
  {
    if inputs != [] {
      var r := After(schema, negotiated, inputs[..|inputs| - 1]);
      EveryRunSpeaksTheLanguage(schema, negotiated, inputs[..|inputs| - 1]);
      match inputs[|inputs| - 1]
      case Deliver(f) => OfferedKeepsFaith(schema, r, f);
      case CloseSession => ClosingKeepsFaith(r);
    }
  }

  /** A closed session accepts nothing more, whatever follows. */
  lemma {:induction false} ClosedForGood(schema: Schema, negotiated: bool, inputs: seq<Input>, more: seq<Input>)
    requires After(schema, negotiated, inputs).state.closed
    ensures After(schema, negotiated, inputs + more) == After(schema, negotiated, inputs)
  {
    if more == [] {
      NilConcat(inputs);
    } else {
      var n := |more| - 1;
      ClosedForGood(schema, negotiated, inputs, more[..n]);
      assert (inputs + more)[..|inputs + more| - 1] == inputs + more[..n];
    }
  }

  /** Nothing the language allows is turned away: acceptance is exactly legality of the longer word. */
  lemma AcceptanceIsLegality(schema: Schema, negotiated: bool, inputs: seq<Input>, f: Frame)
    requires var s := After(schema, negotiated, inputs).state; !s.closed && s.negotiated
    requires Validate(schema, f) == None && InSchema(f.header["type"].s)
    ensures var r := After(schema, negotiated, inputs);
            Accept(schema, r.state, f).1.Ok? <==> Legal(WordOf(r, f.header["id"].i) + [LetterOf(f)])
  {
    EveryRunSpeaksTheLanguage(schema, negotiated, inputs);
    FaithIsLegality(schema, After(schema, negotiated, inputs), f);
  }

  lemma FaithIsLegality(schema: Schema, r: Run, f: Frame)
    requires Faithful(r) && !r.state.closed && r.state.negotiated
    requires Validate(schema, f) == None && InSchema(f.header["type"].s)
    ensures Accept(schema, r.state, f).1.Ok? <==> Legal(WordOf(r, f.header["id"].i) + [LetterOf(f)])
  {
    AcceptOnIsNext(r.state, f, f.header["id"].i);
    TransitionIsLanguage(WordOf(r, f.header["id"].i), LetterOf(f));
  }

  // ------------------------------------------------ what the schema admits, and what is delivered

  /** The fields and the body each kind of frame must have, beside its id. */
  predicate Proper(schema: Schema, f: Frame)
    requires "type" in f.header && f.header["type"].Text? && InSchema(f.header["type"].s)
    requires f.header.Keys == KeysOf(f.header["type"].s)
  {
    var h, kind := f.header, f.header["type"].s;
    && (kind == "subscribe" ==> ValidName(h["module"], false) && ValidName(h["op"], true))
    && (kind == "open" || kind == "unsubscribe" ==> f.body == [])
    && (kind == "subscription_refused" ==> f.body == [] && NonEmptyText(h["code"]))
    && (kind == "end" ==>
          && NonEmptyText(h["reason"])
          && (h["reason"].s == "module_error" ==> schema.moduleError(f.body) == None)
          && (h["reason"].s in KNOWN_ENDS && h["reason"].s != "module_error" ==> f.body == []))
  }

  /** The schema admits a subscription frame exactly when its size, keys, direction, id and content are right. */
  lemma ValidIff(schema: Schema, f: Frame)
    requires "type" in f.header && f.header["type"].Text? && InSchema(f.header["type"].s)
    ensures Validate(schema, f) == None <==>
            var kind := f.header["type"].s;
            && |f.body| <= MAX_BODY && f.header.Keys == KeysOf(kind)
            && (f.direction == OriginToServer <==> kind == "subscribe" || kind == "unsubscribe")
            && f.header["id"].Integer? && 0 <= f.header["id"].i <= MAX_ID && Proper(schema, f)
  {
  }

  /** The event that a frame is delivered as: its own kind, id, text and body. */
  predicate Tells(e: Event, f: Frame)
    requires "type" in f.header && f.header["type"].Text? && InSchema(f.header["type"].s)
    requires "id" in f.header && f.header["id"].Integer?
    requires f.header["type"].s == "subscription_refused" ==> "code" in f.header && f.header["code"].Text?
    requires f.header["type"].s == "end" ==> "reason" in f.header && f.header["reason"].Text?
  {
    var id := f.header["id"].i;
    match LetterOf(f)
    case Sub => e == ModuleSubscribe(id, f.body)
    case Unsub => e == CancelRequested(id) || e == IgnoredUnsubscribe(id)
    case OpenL => e == Opened(id)
    case RefusedL(code) => e == WasRefused(id, code)
    case NoticeL => e == Notice(id, f.body)
    case EndL => e == Ended(id, f.header["reason"].s, f.body)
  }

  /** An accepted frame is delivered whole, and a cancel reaches the module exactly while it has something to end. */
  lemma AcceptedIsDelivered(schema: Schema, negotiated: bool, inputs: seq<Input>, f: Frame)
    requires var r := After(schema, negotiated, inputs); Accept(schema, r.state, f).1.Ok?
    requires Validate(schema, f) == None && InSchema(f.header["type"].s)
    ensures var r := After(schema, negotiated, inputs);
            var e, word := Accept(schema, r.state, f).1.value, WordOf(r, f.header["id"].i);
            Tells(e, f) && (LetterOf(f) == Unsub ==> (e.CancelRequested? <==> Pending(word)))
  {
    EveryRunSpeaksTheLanguage(schema, negotiated, inputs);
    PendingIsUnfinished(WordOf(After(schema, negotiated, inputs), f.header["id"].i));
  }

  /** A legal word is unfinished when it subscribed and saw neither a refusal nor an end. */
  predicate Pending(word: seq<Letter>) {
    var core := Core(word);
    Sub in core && EndL !in core && forall l <- core :: !l.RefusedL?
  }

  lemma PendingIsUnfinished(word: seq<Letter>)
    requires Legal(word)
    ensures Pending(word) <==> PhaseAfter(word).Some? && !Finished(PhaseAfter(word).value)
  {
    var core := Core(word);
    if core != [] {
      assert core[0] in core && core[|core| - 1] in core;
      if |core| > 1 { assert core[1] in core; }
    }
  }

  /** Closing reports exactly the ids whose words are unfinished. */
  lemma CloseReportsTheUnfinished(schema: Schema, negotiated: bool, inputs: seq<Input>, id: int)
    ensures var r := After(schema, negotiated, inputs);
            id in Unfinished(r.state) <==> Pending(WordOf(r, id))
  {
    var r := After(schema, negotiated, inputs);
    EveryRunSpeaksTheLanguage(schema, negotiated, inputs);
    PendingIsUnfinished(WordOf(r, id));
  }

  // ------------------------------------------------ the session object

  predicate Ascending(q: seq<int>) { forall i, j | 0 <= i < j < |q| :: q[i] < q[j] }

  function Inserted(q: seq<int>, x: int): seq<int> {
    if q == [] || x < q[0] then [x] + q else [q[0]] + Inserted(q[1..], x)
  }

  lemma {:induction false} InsertedIsSorted(q: seq<int>, x: int)
    requires Ascending(q) && x !in q
    ensures Ascending(Inserted(q, x)) && forall y :: y in Inserted(q, x) <==> y == x || y in q
  {
    if q != [] && !(x < q[0]) {
      InsertedIsSorted(q[1..], x);
      assert forall y :: y in q <==> y == q[0] || y in q[1..];
      assert forall y <- Inserted(q[1..], x) :: q[0] < y;
      assert forall i | 0 <= i < |Inserted(q[1..], x)| :: Inserted(q[1..], x)[i] in Inserted(q[1..], x);
    }
  }

  /** The ids that have not finished, in rising order. */
  method SortedUnfinished(states: map<int, Phase>) returns (lost: seq<int>)
    ensures Ascending(lost) && forall id :: id in lost <==> id in states && !Finished(states[id])
  {
    lost := [];
    var rest := states.Keys;
    while rest != {}
      invariant rest <= states.Keys && Ascending(lost)
      invariant forall id :: id in lost <==> id in states && id !in rest && !Finished(states[id])
    {
      ghost var some: int := ElementOf(rest);
      assert some in rest;
      var id: int :| id in rest;
      rest := rest - {id};
      if !Finished(states[id]) {
        InsertedIsSorted(lost, id);
        lost := Inserted(lost, id);
      }
    }
  }

  /**
   A refused frame changes nothing, and an accepted one adds its letter to its
   id's word. An open session that negotiated subscriptions accepts a valid
   subscription frame exactly when the longer word is legal.
   */
  ghost predicate Judged(schema: Schema, before: Run, f: Frame, after: Run, r: Result<Event, Reason>) {
    && (r.Err? || r.value.UnaryReply? ==> after == before)
    && (r.Ok? && !r.value.UnaryReply? ==>
          && Validate(schema, f) == None && "id" in f.header && f.header["id"].Integer?
          && after.words == before.words[f.header["id"].i := WordOf(before, f.header["id"].i) + [LetterOf(f)]])
    && (!before.state.closed && before.state.negotiated && Validate(schema, f) == None &&
        InSchema(f.header["type"].s) ==>
          (r.Ok? <==> Legal(WordOf(before, f.header["id"].i) + [LetterOf(f)])))
  }

  lemma OfferIsJudged(schema: Schema, before: Run, f: Frame)
    requires Faithful(before)
    ensures Judged(schema, before, f, Offered(schema, before, f), Accept(schema, before.state, f).1)
  {
    var out := Accept(schema, before.state, f);
    RejectionChangesNothing(schema, before.state, f);
    if out.1.Ok? && !out.1.value.UnaryReply? { AcceptedIsSchemaFrame(schema, before.state, f); }
    if !before.state.closed && before.state.negotiated && Validate(schema, f) == None && InSchema(f.header["type"].s) {
      FaithIsLegality(schema, before, f);
    }
  }

  class Session {
    const schema: Schema
    const negotiated: bool
    var states: map<int, Phase>
    var closed: bool
    ghost var words: map<int, seq<Letter>>

    ghost function Past(): Run
      reads this
    {
      Run(State(states, closed, negotiated), words)
    }

    /** Each id's accepted letters are a word of the language, and its phase is where that word leaves it. */
    ghost predicate Valid()
      reads this
    {
      Faithful(Past())
    }

    constructor (schema: Schema, negotiated: bool)
      ensures Valid() && this.schema == schema && this.negotiated == negotiated
      ensures states == map[] && words == map[] && !closed
    {
      this.schema, this.negotiated := schema, negotiated;
      states, closed, words := map[], false, map[];
    }

    /** The transition of a valid subscription frame. */
    method Take(f: Frame, id: int) returns (r: Result<Event, Reason>)
      requires "type" in f.header && f.header["type"].Text?
      requires f.header["type"].s == "subscription_refused" ==> "code" in f.header && f.header["code"].Text?
      requires f.header["type"].s == "end" ==> "reason" in f.header && f.header["reason"].Text?
      modifies this`states
      ensures (State(states, closed, negotiated), r) == AcceptOn(old(State(states, closed, negotiated)), f, id)
    {
      var kind := f.header["type"].s;
      var phase := if id in states then Some(states[id]) else None;
      if kind == "subscribe" {
        if phase.Some? { return Err("reused_id"); }
        states := states[id := Opening];
        return Ok(ModuleSubscribe(id, f.body));
      }
      if kind == "unsubscribe" {
        if phase.None? || Finished(phase.value) { return Ok(IgnoredUnsubscribe(id)); }
        if phase.value == Opening {
          states := states[id := CancelBeforeOpen];
        } else if phase.value == Open {
          states := states[id := Closing];
        }
        return Ok(CancelRequested(id));
      }
      if phase.None? { return Err("unknown_id"); }
      if kind == "open" {
        if phase.value != Opening { return Err("open_out_of_order"); }
        states := states[id := Open];
        return Ok(Opened(id));
      }
      if kind == "subscription_refused" {
        if phase.value != Opening && phase.value != CancelBeforeOpen { return Err("refusal_out_of_order"); }
        if phase.value == CancelBeforeOpen && f.header["code"].s != "fed_cancelled" {
          return Err("cancel_requires_refusal");
        }
        states := states[id := Refused];
        return Ok(WasRefused(id, f.header["code"].s));
      }
      if kind == "notice" {
        if phase.value != Open && phase.value != Closing { return Err("notice_out_of_order"); }
        return Ok(Notice(id, f.body));
      }
      if kind == "end" {
        if phase.value != Open && phase.value != Closing { return Err("end_out_of_order"); }
        states := states[id := Terminal];
        return Ok(Ended(id, f.header["reason"].s, f.body));
      }
      return Err("unexpected_session_frame");
    }

    /** The checks ahead of the transition, in order. */
    method Admit(f: Frame) returns (r: Result<Event, Reason>)
      modifies this`states
      ensures (State(states, closed, negotiated), r) == Accept(schema, old(State(states, closed, negotiated)), f)
    {
      if closed { return Err("session_closed"); }
      var refused := Validate(schema, f);
      if refused.Some? { return Err(refused.value); }
      if f.header["type"].s == "call_frame" { return Ok(UnaryReply); }
      if !negotiated { return Err("subscribe_not_negotiated"); }
      if "id" !in f.header { return Err("KeyError"); }
      if !f.header["id"].Integer? { return Err("unknown_id"); }
      r := Take(f, f.header["id"].i);
    }

    method Offer(f: Frame) returns (r: Result<Event, Reason>)
      requires Valid()
      modifies this`states, this`words
      ensures Valid() && Past() == Offered(schema, old(Past()), f)
      ensures Judged(schema, old(Past()), f, Past(), r)
    {
      OfferedKeepsFaith(schema, Past(), f);
      OfferIsJudged(schema, Past(), f);
      ghost var after := Offered(schema, Past(), f);
      r := Admit(f);
      words := after.words;
    }

    /** Ends the session and names, in rising order, exactly the ids whose words saw neither a refusal nor an end. */
    method Close() returns (lost: seq<int>)
      requires Valid()
      modifies this`closed
      ensures Valid() && closed
      ensures Ascending(lost) && forall id :: id in lost <==> Pending(WordOf(Past(), id))
    {
      ClosingKeepsFaith(Past());
      closed := true;
      lost := SortedUnfinished(states);
      forall id ensures id in lost <==> Pending(WordOf(Past(), id)) {
        PendingIsUnfinished(WordOf(Past(), id));
        assert PhaseOf(Past().state, id) == PhaseAfter(WordOf(Past(), id));
      }
    }
  }
}
