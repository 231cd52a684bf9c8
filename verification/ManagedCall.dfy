/**
 A managed call: one logical request, resent only after an answer that is taken
 as proof that no module received it.
 */
module ManagedCall {
  datatype Code = RouteBusy | UnknownChannel | StaleRouteEpoch | ModuleReloading | RouteClosed | OtherCode

  /** How one attempt ends, as the caller observes it. */
  datatype Answer =
    | NotQueued(code: Code)
    | Replied
    | ErrorFrame(code: Code, daemonOrigin: bool)
    | DeadlinePassed
    | Dropped(routeClosed: bool)

  /**
   One attempt: its answer, whether a module ran it, and what the client finds
   when it decides how to go on.
   */
  datatype Attempt = Attempt(
    answer: Answer, executed: bool,
    gated: bool, busyTime: bool, closing: bool, aborted: bool, timeLeft: bool, connectionLost: bool, reconnected: bool)

  datatype Kind = NotSent | Terminal | OutcomeUnknown

  datatype Decision = Return | Throw(kind: Kind) | Again(retried: bool)

  predicate RouteDead(c: Code) { c.UnknownChannel? || c.StaleRouteEpoch? }

  /** Both route negotiation and the daemon's origin bit are required to retry a busy route. */
  predicate BusyRefusal(a: Attempt) {
    a.gated && a.answer.ErrorFrame? && a.answer.code.RouteBusy? && a.answer.daemonOrigin
  }

  function Failure(a: Attempt, kind: Kind, code: Code, retried: bool): Decision {
    if RouteDead(code) && !retried && !a.closing then Again(true)
    else if code.ModuleReloading? && !retried && !a.closing && !a.aborted && a.timeLeft then Again(true)
    else if code.RouteClosed? then Throw(kind)
    else if kind.NotSent? then (if a.connectionLost && a.reconnected then Again(retried) else Throw(NotSent))
    else Throw(kind)
  }

  /** What the call does after an attempt; `retried` remembers the one resend it may spend. */
  function Decide(a: Attempt, retried: bool): Decision {
    match a.answer
    case Replied => Return
    case NotQueued(code) => Failure(a, NotSent, code, retried)
    case DeadlinePassed => Throw(OutcomeUnknown)
    case Dropped(closed) => Failure(a, OutcomeUnknown, if closed then RouteClosed else OtherCode, retried)
    case ErrorFrame(code, _) =>
      if BusyRefusal(a) then (if a.busyTime then Again(retried) else Failure(a, NotSent, RouteBusy, retried))
      else Failure(a, Terminal, code, retried)
  }

  /** The attempts actually made out of everything the outside would have answered. */
  function Made(script: seq<Attempt>, retried: bool): seq<Attempt> {
    if script == [] then []
    else
      match Decide(script[0], retried)
      case Again(spent) => [script[0]] + Made(script[1..], spent)
      case _ => [script[0]]
  }

  lemma Unroll(made: seq<Attempt>, script: seq<Attempt>, i: nat, retried: bool)
    requires i < |script|
    ensures made + Made(script[i..], retried) ==
            made + [script[i]] + (match Decide(script[i], retried)
                                  case Again(spent) => Made(script[i + 1..], spent)
                                  case _ => [])
  {
    assert script[i..][1..] == script[i + 1..];
  }

  // ------------------------------------------------ when a call goes on

  /** An attempt that is repeated without spending the resend: it was not sent, and the way is free again. */
  predicate Free(a: Attempt) {
    || (BusyRefusal(a) && a.busyTime)
    || ((BusyRefusal(a) || (a.answer.NotQueued? && !a.answer.code.RouteClosed?)) && a.connectionLost && a.reconnected)
  }

  /** An attempt on which the call spends its one resend: a dead route, or a module that drains. */
  predicate Spendable(a: Attempt) {
    && (a.answer.NotQueued? || a.answer.ErrorFrame?) && !a.closing
    && (a.answer.code.UnknownChannel? || a.answer.code.StaleRouteEpoch? ||
        (a.answer.code.ModuleReloading? && !a.aborted && a.timeLeft))
  }

  /** The call goes on behind attempt `i` of its surroundings. */
  predicate Carries(script: seq<Attempt>, i: nat, retried: bool)
    requires i < |script|
  {
    Free(script[i]) || (Spendable(script[i]) && !retried && forall j | 0 <= j < i :: !Spendable(script[j]))
  }

  /** Which failure the caller is told of: not sent, answered with an error, or of unknown outcome. */
  predicate Blames(a: Attempt, kind: Kind) {
    && (kind.NotSent? <==> a.answer.NotQueued? || BusyRefusal(a))
    && (kind.Terminal? <==> a.answer.ErrorFrame? && !BusyRefusal(a))
    && (kind.OutcomeUnknown? <==> a.answer.Dropped? || a.answer.DeadlinePassed?)
  }

  lemma DecisionIsExact(a: Attempt, retried: bool)
    ensures Decide(a, retried).Again? <==> Free(a) || (!retried && Spendable(a))
    ensures Decide(a, retried).Again? ==> Decide(a, retried).retried == (retried || Spendable(a))
    ensures Decide(a, retried).Return? <==> a.answer.Replied?
    ensures Decide(a, retried).Throw? ==> Blames(a, Decide(a, retried).kind)
  {
  }

  lemma CarriesShifts(script: seq<Attempt>, i: nat, retried: bool)
    requires i + 1 < |script|
    ensures Carries(script, i + 1, retried) <==> Carries(script[1..], i, retried || Spendable(script[0]))
  {
    var rest := script[1..];
    assert forall j | 0 <= j < i :: rest[j] == script[j + 1];
    if forall j | 0 <= j < i + 1 :: !Spendable(script[j]) {
      assert forall j | 0 <= j < i :: !Spendable(rest[j]);
    } else if !Spendable(script[0]) {
      var j :| 0 <= j < i + 1 && Spendable(script[j]);
      assert rest[j - 1] == script[j];
    }
  }

  /** A call makes the attempts up to and including the first that does not carry it on. */
  predicate StopsFirst(script: seq<Attempt>, made: nat, retried: bool)
    requires made <= |script|
  {
    && (script != [] ==> made > 0)
    && (forall i | 0 <= i < made - 1 :: Carries(script, i, retried))
    && (0 < made < |script| ==> !Carries(script, made - 1, retried))
  }

  lemma StopsLater(script: seq<Attempt>, made: nat, retried: bool)
    requires script != [] && made <= |script| - 1 && Carries(script, 0, retried)
    requires StopsFirst(script[1..], made, retried || Spendable(script[0]))
    ensures StopsFirst(script, made + 1, retried)
  {
    forall i | 0 <= i < made ensures Carries(script, i, retried) {
      if i > 0 { CarriesShifts(script, i - 1, retried); }
    }
    if 0 < made < |script| - 1 { CarriesShifts(script, made - 1, retried); }
  }

  lemma MadeOn(script: seq<Attempt>, retried: bool)
    requires script != []
    ensures Made(script, retried) ==
            [script[0]] + match Decide(script[0], retried)
                          case Again(spent) => Made(script[1..], spent)
                          case _ => []
  {
  }

  lemma ConsTakes(script: seq<Attempt>, more: seq<Attempt>)
    requires script != [] && |more| <= |script| - 1 && more == script[1..][..|more|]
    ensures [script[0]] + more == script[..|more| + 1]
  {
  }

  /** Exactly when a call goes on, for every behaviour of its surroundings. */
  lemma {:induction false} GoesOnExactly(script: seq<Attempt>, retried: bool)
    ensures var made := Made(script, retried);
            |made| <= |script| && made == script[..|made|] && StopsFirst(script, |made|, retried)
  {
    if script != [] {
      DecisionIsExact(script[0], retried);
      MadeOn(script, retried);
      if Decide(script[0], retried).Again? {
        var spent := Decide(script[0], retried).retried;
        var more := Made(script[1..], spent);
        GoesOnExactly(script[1..], spent);
        ConsTakes(script, more);
        StopsLater(script, |more|, retried);
      }
    }
  }

  /** As long as the refusals are free or the first spendable one, every attempt is made. */
  lemma RefusalsAreRetried(script: seq<Attempt>, retried: bool)
    requires forall i | 0 <= i < |script| - 1 :: Carries(script, i, retried)
    ensures Made(script, retried) == script
  {
    GoesOnExactly(script, retried);
  }

  datatype Outcome = Answered | Failed(kind: Kind) | Unfinished

  /**
   The loop of a managed call, over its scripted surroundings: it ends with a
   reply exactly when its last attempt was replied to, is unfinished exactly when
   every attempt so far carries it on, and otherwise blames its last attempt.
   */
  method Call(script: seq<Attempt>) returns (made: seq<Attempt>, outcome: Outcome)
    ensures made == Made(script, false)
    ensures outcome.Answered? <==> made != [] && made[|made| - 1].answer.Replied?
    ensures outcome.Failed? ==> made != [] && Blames(made[|made| - 1], outcome.kind)
    ensures outcome.Unfinished? <==> forall i | 0 <= i < |script| :: Carries(script, i, false)
  {
    var retried, i := false, 0;
    made := [];
    while i < |script|
      invariant i <= |script| && made == script[..i]
      invariant made + Made(script[i..], retried) == Made(script, false)
      invariant retried <==> exists j | 0 <= j < i :: Spendable(script[j])
      invariant forall j | 0 <= j < i :: Carries(script, j, false)
      invariant made != [] ==> !made[|made| - 1].answer.Replied?
    {
      var decision := Decide(script[i], retried);
      DecisionIsExact(script[i], retried);
      Unroll(made, script, i, retried);
      made := made + [script[i]];
      assert decision.Again? <==> Carries(script, i, false);
      if decision.Return? { return made, Answered; }
      if decision.Throw? { return made, Failed(decision.kind); }
      retried, i := decision.retried, i + 1;
    }
    assert made + [] == made;
    return made, Unfinished;
  }

  // ------------------------------------------------ what the attempts of a call look like

  /** The codes a daemon uses to refuse before it forwards. */
  predicate Reserved(a: Attempt) {
    a.answer.ErrorFrame? && (RouteDead(a.answer.code) || a.answer.code.ModuleReloading?)
  }

  predicate Refused(a: Attempt) { a.answer.NotQueued? || BusyRefusal(a) || Reserved(a) }

  function Init(made: seq<Attempt>): seq<Attempt> { if made == [] then [] else made[..|made| - 1] }

  function Count(made: seq<Attempt>, p: Attempt -> bool): nat {
    if made == [] then 0 else (if p(made[0]) then 1 else 0) + Count(made[1..], p)
  }

  lemma InitCons(a: Attempt, more: seq<Attempt>)
    requires more != []
    ensures Init([a] + more) == [a] + Init(more) && ([a] + Init(more))[1..] == Init(more)
  {
  }

  lemma DecisionIsRefusal(a: Attempt, retried: bool)
    requires Decide(a, retried).Again?
    ensures Refused(a)
    ensures Decide(a, retried).retried == (retried || (Decide(a, false) == Again(true)))
    ensures retried ==> Decide(a, retried).retried
    ensures Reserved(a) && !BusyRefusal(a) ==> !retried && Decide(a, retried).retried
  {
  }

  /**
   Every attempt but the last was never queued or was refused before forwarding,
   and at most one of them was a dead-route or drain refusal.
   */
  lemma {:induction false} OnlyRefusalsAreResent(script: seq<Attempt>, retried: bool)
    ensures forall a <- Init(Made(script, retried)) :: Refused(a)
    ensures Count(Init(Made(script, retried)), Reserved) <= if retried then 0 else 1
  {
    if script != [] && Decide(script[0], retried).Again? {
      DecisionIsRefusal(script[0], retried);
      var spent := Decide(script[0], retried).retried;
      OnlyRefusalsAreResent(script[1..], spent);
      var more := Made(script[1..], spent);
      if more != [] { InitCons(script[0], more); }
    }
  }

  // ------------------------------------------------ how often a module runs the request

  /** An attempt that was not queued, or that the daemon refused as busy, was never run. */
  predicate Lawful(a: Attempt) { a.answer.NotQueued? || BusyRefusal(a) ==> !a.executed }

  predicate Ran(a: Attempt) { a.executed }

  /** A module ran the request and then answered with a code reserved for the daemon. */
  predicate Forged(a: Attempt) { a.executed && Reserved(a) }

  function LastRan(made: seq<Attempt>): nat { if made != [] && made[|made| - 1].executed then 1 else 0 }

  lemma ConsCounts(a: Attempt, more: seq<Attempt>)
    ensures Count([a] + more, Ran) == (if Ran(a) then 1 else 0) + Count(more, Ran)
    ensures more == [] ==> Init([a] + more) == [] && LastRan([a] + more) == if Ran(a) then 1 else 0
    ensures more != [] ==> LastRan([a] + more) == LastRan(more)
    ensures more != [] ==> Count(Init([a] + more), Forged) == (if Forged(a) then 1 else 0) + Count(Init(more), Forged)
  {
    assert ([a] + more)[1..] == more;
    if more != [] {
      InitCons(a, more);
      assert ([a] + more)[|more|] == more[|more| - 1];
    }
  }

  /** The request runs once for its last attempt and once more for each forged refusal before it. */
  lemma {:induction false} RunsExactly(script: seq<Attempt>, retried: bool)
    requires forall a <- script :: Lawful(a)
    ensures var made := Made(script, retried);
            && Count(made, Ran) == Count(Init(made), Forged) + LastRan(made)
            && Count(Init(made), Forged) <= if retried then 0 else 1
  {
    if script != [] {
      var a := script[0];
      assert a in script && forall x <- script[1..] :: x in script;
      if Decide(a, retried).Again? {
        DecisionIsRefusal(a, retried);
        var spent := Decide(a, retried).retried;
        RunsExactly(script[1..], spent);
        ConsCounts(a, Made(script[1..], spent));
      }
    }
  }

  /** A forged refusal on which the call spends its resend: the guards of the two resending branches. */
  predicate Resent(a: Attempt) {
    && Forged(a) && !a.closing
    && (RouteDead(a.answer.code) || (!a.aborted && a.timeLeft))
  }

  lemma {:induction false} NoneResent(script: seq<Attempt>, retried: bool)
    requires forall a <- script :: Lawful(a) && !Resent(a)
    ensures Count(Init(Made(script, retried)), Forged) == 0
  {
    if script != [] && Decide(script[0], retried).Again? {
      assert script[0] in script && forall x <- script[1..] :: x in script;
      var spent := Decide(script[0], retried).retried;
      NoneResent(script[1..], spent);
      var more := Made(script[1..], spent);
      if more != [] { InitCons(script[0], more); }
    }
  }

  /** When only the daemon uses the reserved codes, a module runs the request at most once. */
  lemma AtMostOnce(script: seq<Attempt>)
    requires forall a <- script :: Lawful(a) && !Forged(a)
    ensures Count(Made(script, false), Ran) <= 1
  {
    RunsExactly(script, false);
    NoneResent(script, false);
  }

  /** A call that reports its request as not sent had it run only by forged refusals. */
  lemma NotSentMeansNotRun(script: seq<Attempt>)
    requires forall a <- script :: Lawful(a)
    requires var made := Made(script, false); made != [] && Blames(made[|made| - 1], NotSent)
    ensures var made := Made(script, false);
            && Count(made, Ran) == Count(Init(made), Forged)
            && ((forall a <- script :: !Forged(a)) ==> Count(made, Ran) == 0)
  {
    var made := Made(script, false);
    RunsExactly(script, false);
    GoesOnExactly(script, false);
    assert made[|made| - 1] in script;
    if forall a <- script :: !Forged(a) { NoneResent(script, false); }
  }

  /**
   The reserved codes of dead routes and drains are not origin-checked, so one
   forged refusal that is resent runs the request twice.
   */
  lemma ForgedRefusalRunsTwice(a: Attempt, b: Attempt)
    requires Resent(a) && b.executed
    ensures Made([a, b], false) == [a, b] && Count(Made([a, b], false), Ran) == 2
  {
    assert [a, b][1..] == [b] && [b][1..] == [];
    assert Made([b], true) == [b] && Count([b], Ran) == 1;
  }

  /** Surroundings as the attempts they can produce, in any order and number. */
  ghost predicate Within(env: Attempt -> bool, script: seq<Attempt>) { forall a <- script :: env(a) }

  /**
   In given surroundings a request runs at most once, whatever happens, exactly
   when they hold no forged refusal that is resent.
   */
  lemma SafeIff(env: Attempt -> bool)
    requires forall a | env(a) :: Lawful(a)
    ensures (forall script | Within(env, script) :: Count(Made(script, false), Ran) <= 1)
            <==> (forall a | env(a) :: !Resent(a))
  {
    if forall a | env(a) :: !Resent(a) {
      forall script | Within(env, script) ensures Count(Made(script, false), Ran) <= 1 {
        RunsExactly(script, false);
        NoneResent(script, false);
      }
    } else {
      var a :| env(a) && Resent(a);
      ForgedRefusalRunsTwice(a, a);
      assert Within(env, [a, a]);
    }
  }
}
