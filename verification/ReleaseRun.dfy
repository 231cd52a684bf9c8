/**
 The step machine, left alone, is the sequential release: phase by phase, behind
 the approval gate, effect by effect. Every step succeeds here and the provider,
 the executor and the local phases give fixed answers; what they answer is free.
 */
module ReleaseRun {
  import opened Admission
  import opened ReleaseMachine
  import opened ReleasePlan
  import opened ReleaseProgress
  import opened ReleaseSafety
  import opened Wrappers

  /** What the provider shows of an effect, what its executor returns, and what a local phase produces. */
  datatype Outside = Outside(
    answer: PublicEffect -> Answer, gives: PublicEffect -> Evidence, local: PlannedPhase -> seq<Evidence>)

  datatype Case = Case(hash: Hash, run: nat, plan: Plan, out: Outside)

  // ------------------------------------------------ the sequential release

  function Home(c: Case): Stream { StreamOf(JournalOf(c.plan)) }

  function Entry(c: Case, what: What): Event { Event(c.run, Home(c), what) }

  datatype Did = Did(log: Log, outcome: Option<Outcome>)

  predicate Approved(c: Case, log: Log) {
    BuildSubject(c.plan).Ok? && Approval(log, Home(c)) == Some(BuildSubject(c.plan).value)
  }

  /** Written ahead, called, and completed if the executor shows the expected identity. */
  function Perform(c: Case, log: Log, e: PublicEffect): Did
    requires BuildSubject(c.plan).Ok?
  {
    var key := KeyOf(RequestFor(c.plan, e));
    var intent := Intent(|Intents(log, Home(c))| + 1, key, c.plan.declarationDigest, BuildSubject(c.plan).value);
    var called := log + [Entry(c, Intended(intent))] + [Entry(c, Called(key, |log|, |log|))];
    if Matches(c.plan, e, c.out.gives(e))
    then Did(called + [Entry(c, Completed(intent, c.out.gives(e)))], Some(Executed(c.out.gives(e))))
    else Did(called, None)
  }

  /** One effect; without an outcome it was refused. */
  function DoEffect(c: Case, log: Log, e: PublicEffect): Did {
    var key := KeyOf(RequestFor(c.plan, e));
    if !Approved(c, log) || !DigestHolds(log, Home(c), c.plan.declarationDigest) || ExpectedIdentity(c.plan, e).None?
    then Did(log, None)
    else
      match c.out.answer(e)
      case Undecidable => Did(log, Some(AwaitingProbe))
      case Present(found) =>
        if Matches(c.plan, e, found)
        then Did(log + Completions(c.run, Home(c), Pending(log, log, Home(c), key), found), Some(Reconciled(found)))
        else Did(log, None)
      case Absent(found) =>
        if Attempted(log, Home(c), key) || CompletionExists(log, Home(c), key) || !Matches(c.plan, e, found) ||
           !IsAdmitted(c.hash, c.plan, e)
        then Did(log, None)
        else Perform(c, log, e)
  }

  /** The effects of phase `i` behind the outcomes so far; without outcomes one was refused. */
  datatype DidAll = DidAll(log: Log, outs: Option<seq<Outcome>>)

  function DoEffects(c: Case, log: Log, i: nat, outs: seq<Outcome>): DidAll
    requires i < |c.plan.phases|
    decreases |PhaseEffectList(c.plan, i)| - |outs|
  {
    var effects := PhaseEffectList(c.plan, i);
    if |outs| >= |effects| then DidAll(log, Some(outs))
    else
      var did := DoEffect(c, log, effects[|outs|]);
      if did.outcome.None? then DidAll(did.log, None) else DoEffects(c, did.log, i, outs + [did.outcome.value])
  }

  /** Another approval is removed before the operator confirms this one; the same one is kept. */
  function Gate(c: Case, log: Log): Log
    requires BuildSubject(c.plan).Ok?
  {
    var subject := BuildSubject(c.plan).value;
    if Approval(log, Home(c)) == Some(subject) then log
    else
      (if Approval(log, Home(c)).Some? then log + [Entry(c, Withdrawn)] else log) + [Entry(c, Confirmed(subject))]
  }

  datatype Ended = Went(log: Log) | Refuses(log: Log) | Quits(log: Log)

  /** One phase: entered, carried out, and recorded as done unless an effect still awaits its probe. */
  function DoPhase(c: Case, log: Log, i: nat): Ended
    requires i < |c.plan.phases|
  {
    var phase := c.plan.phases[i];
    var entered := log + [Entry(c, Entered(phase.instance))];
    if Classify(phase.kind) != Some(Public) then
      Went(entered + [Entry(c, Done(phase.instance, c.out.local(phase)))])
    else if BuildSubject(c.plan).Err? then Quits(entered)
    else
      var did := DoEffects(c, Gate(c, entered), i, []);
      if did.outs.None? then Refuses(did.log)
      else if !NoWaiting(did.outs.value) then Went(did.log)
      else Went(did.log + [Entry(c, Done(phase.instance, FoundIn(did.outs.value)))])
  }

  function DoPhases(c: Case, log: Log, i: nat): Log
    decreases |c.plan.phases| - i
  {
    if i >= |c.plan.phases| then log
    else
      match DoPhase(c, log, i)
      case Went(after) => DoPhases(c, after, i + 1)
      case Refuses(after) => after + [Entry(c, Refused(c.plan.phases[i].instance))]
      case Quits(after) => after
  }

  /** A whole release: nothing without a matching binding, and only for ordered plans. */
  function DoRelease(c: Case, log: Log): Log {
    if !DigestHolds(log, Home(c), c.plan.declarationDigest) then log
    else if !Ordered(c.plan.phases) then log + [Entry(c, Refused(Offender(c.plan.phases, false)))]
    else DoPhases(c, log, 0)
  }

  // ------------------------------------------------ the machine left alone

  datatype Stand = Stand(log: Log, leases: map<Scope, nat>, pc: Pc)

  function InputAt(c: Case, pc: Pc): Input {
    var nothing := Evidence("", "");
    if AtEffect(c.plan, pc) then Input(true, c.out.gives(Effect(c.plan, pc)), [], c.out.answer(Effect(c.plan, pc)))
    else
      Input(true, nothing,
            if pc.Running? && pc.i < |c.plan.phases| then c.out.local(c.plan.phases[pc.i]) else [], Undecidable)
  }

  function Turn(c: Case, s: Stand): Stand {
    var m := AdvanceRun(c.hash, s.log, s.leases, c.plan, s.pc, InputAt(c, s.pc));
    Stand(Extend(s.log, c.run, Home(c), m.emit), MoveLease(s.leases, c.run, c.plan, m.lease), m.pc)
  }

  function Again(turn: Stand -> Stand, s: Stand, n: nat): Stand
    decreases n
  {
    if n == 0 then s else Again(turn, turn(s), n - 1)
  }

  ghost predicate Moves(turn: Stand -> Stand, c: Case, s: Stand) { turn(s) == Turn(c, s) }

  ghost predicate Follows(turn: Stand -> Stand, c: Case) { forall s :: Moves(turn, c, s) }

  ghost predicate Reaches(turn: Stand -> Stand, a: Stand, b: Stand) { exists n: nat :: Again(turn, a, n) == b }

  lemma {:induction false} AgainMore(turn: Stand -> Stand, a: Stand, n: nat, m: nat)
    ensures Again(turn, a, n + m) == Again(turn, Again(turn, a, n), m)
    decreases n
  {
    if n > 0 { AgainMore(turn, turn(a), n - 1, m); }
  }

  lemma Stays(turn: Stand -> Stand, a: Stand)
    ensures Reaches(turn, a, a)
  {
    assert Again(turn, a, 0) == a;
  }

  lemma Takes(turn: Stand -> Stand, c: Case, a: Stand, b: Stand)
    requires Follows(turn, c) && Turn(c, a) == b
    ensures Reaches(turn, a, b)
  {
    assert Moves(turn, c, a);
    assert Again(turn, a, 1) == Again(turn, b, 0) == b;
  }

  lemma Onward(turn: Stand -> Stand, a: Stand, b: Stand, d: Stand)
    requires Reaches(turn, a, b) && Reaches(turn, b, d)
    ensures Reaches(turn, a, d)
  {
    var n: nat :| Again(turn, a, n) == b;
    var m: nat :| Again(turn, b, m) == d;
    AgainMore(turn, a, n, m);
  }

  lemma ThenTakes(turn: Stand -> Stand, c: Case, a: Stand, b: Stand, d: Stand)
    requires Follows(turn, c) && Reaches(turn, a, b) && Turn(c, b) == d
    ensures Reaches(turn, a, d)
  {
    Takes(turn, c, b, d);
    Onward(turn, a, b, d);
  }

  // ------------------------------------------------ one effect

  function Refusal(c: Case, log: Log, leases: map<Scope, nat>, i: nat): Stand
    requires i < |c.plan.phases|
  {
    Stand(log, MoveLease(leases, c.run, c.plan, DropRepository), Refusing(c.plan.phases[i].instance))
  }

  lemma Chooses(c: Case, log: Log, leases: map<Scope, nat>, i: nat, outs: seq<Outcome>)
    requires i < |c.plan.phases| && |outs| < |PhaseEffectList(c.plan, i)|
    ensures Turn(c, Stand(log, leases, Choosing(i, outs))) ==
            if Approved(c, log) then Stand(log, leases, At(i, outs, |log|, Checking)) else Refusal(c, log, leases, i)
  {
  }

  lemma Checks(c: Case, log: Log, leases: map<Scope, nat>, pc: Pc)
    requires AtEffect(c.plan, pc) && pc.step == Checking
    ensures Turn(c, Stand(log, leases, pc)) ==
            if DigestHolds(log, Home(c), c.plan.declarationDigest) && ExpectedIdentity(c.plan, Effect(c.plan, pc)).Some?
            then Stand(log, leases, pc.(step := ReadingIntents)) else Refusal(c, log, leases, pc.i)
  {
  }

  lemma Reads(c: Case, log: Log, leases: map<Scope, nat>, pc: Pc)
    requires AtEffect(c.plan, pc) && (pc.step.ReadingIntents? || pc.step.ReadingJournal?)
    ensures var key := EffectKey(c.plan, pc);
            Turn(c, Stand(log, leases, pc)) ==
            Stand(log, leases, pc.(step := if pc.step.ReadingIntents? then ReadingJournal(Attempted(log, Home(c), key))
                                           else Probing(pc.step.attempted, CompletionExists(log, Home(c), key))))
  {
  }

  lemma Probes(c: Case, log: Log, leases: map<Scope, nat>, pc: Pc)
    requires AtEffect(c.plan, pc) && pc.step.Probing?
    ensures var e := Effect(c.plan, pc);
            Turn(c, Stand(log, leases, pc)) ==
            match c.out.answer(e)
            case Undecidable => Stand(log, leases, Choosing(pc.i, pc.outs + [AwaitingProbe]))
            case Present(found) =>
              if Matches(c.plan, e, found) then Stand(log, leases, pc.(step := Listing(found)))
              else Refusal(c, log, leases, pc.i)
            case Absent(found) =>
              if pc.step.attempted || pc.step.completed || !Matches(c.plan, e, found)
              then Refusal(c, log, leases, pc.i) else Stand(log, leases, pc.(step := Admitting))
  {
  }

  lemma Lists(c: Case, log: Log, leases: map<Scope, nat>, pc: Pc)
    requires AtEffect(c.plan, pc) && pc.step.Listing?
    ensures Turn(c, Stand(log, leases, pc)) ==
            Stand(log, leases,
                  pc.(step := Completing(pc.step.found, Pending(log, log, Home(c), EffectKey(c.plan, pc)))))
  {
  }

  lemma Completes(c: Case, log: Log, leases: map<Scope, nat>, pc: Pc)
    requires AtEffect(c.plan, pc) && pc.step.Completing? && !Terminal(log, Home(c))
    ensures Turn(c, Stand(log, leases, pc)) ==
            if pc.step.pending == [] then Stand(log, leases, Choosing(pc.i, pc.outs + [Reconciled(pc.step.found)]))
            else Stand(log, leases, pc.(step := Closing(pc.step.found, pc.step.pending)))
  {
  }

  lemma Closes(c: Case, log: Log, leases: map<Scope, nat>, pc: Pc)
    requires AtEffect(c.plan, pc) && pc.step.Closing? && pc.step.pending != []
    ensures Turn(c, Stand(log, leases, pc)) ==
            Stand(log + [Entry(c, Completed(pc.step.pending[0], pc.step.found))], leases,
                  pc.(step := Completing(pc.step.found, pc.step.pending[1..])))
  {
  }

  lemma {:induction false} CompletesAll(turn: Stand -> Stand, c: Case, log: Log, leases: map<Scope, nat>, pc: Pc,
                                        found: Evidence, pending: seq<Intent>)
    requires Follows(turn, c) && AtEffect(c.plan, pc) && pc.step == Completing(found, pending)
    requires !Terminal(log, Home(c))
    ensures Reaches(turn, Stand(log, leases, pc),
                    Stand(log + Completions(c.run, Home(c), pending, found), leases,
                          Choosing(pc.i, pc.outs + [Reconciled(found)])))
    decreases |pending|
  {
    Completes(c, log, leases, pc);
    var here := Stand(log, leases, pc);
    if pending == [] {
      assert log + Completions(c.run, Home(c), pending, found) == log;
      Takes(turn, c, here, Stand(log, leases, Choosing(pc.i, pc.outs + [Reconciled(found)])));
    } else {
      var e := Entry(c, Completed(pending[0], found));
      var closing, rest := pc.(step := Closing(found, pending)), pc.(step := Completing(found, pending[1..]));
      Closes(c, log, leases, closing);
      Takes(turn, c, here, Stand(log, leases, closing));
      ThenTakes(turn, c, here, Stand(log, leases, closing), Stand(log + [e], leases, rest));
      NotTerminal(log, e, Home(c));
      CompletesAll(turn, c, log + [e], leases, rest, found, pending[1..]);
      assert log + [e] + Completions(c.run, Home(c), pending[1..], found) ==
             log + Completions(c.run, Home(c), pending, found);
      Onward(turn, here, Stand(log + [e], leases, rest),
             Stand(log + Completions(c.run, Home(c), pending, found), leases,
                   Choosing(pc.i, pc.outs + [Reconciled(found)])));
    }
  }

  lemma Admits(c: Case, log: Log, leases: map<Scope, nat>, pc: Pc)
    requires AtEffect(c.plan, pc) && pc.step.Admitting?
    ensures Turn(c, Stand(log, leases, pc)) ==
            if IsAdmitted(c.hash, c.plan, Effect(c.plan, pc)) then Stand(log, leases, pc.(step := Verifying))
            else Refusal(c, log, leases, pc.i)
  {
  }

  lemma Rechecks(c: Case, log: Log, leases: map<Scope, nat>, pc: Pc)
    requires AtEffect(c.plan, pc) && pc.step.Verifying? && DigestHolds(log, Home(c), c.plan.declarationDigest)
    ensures Turn(c, Stand(log, leases, pc)) == Stand(log, leases, pc.(step := Counting(|log|)))
  {
  }

  lemma Counts(c: Case, log: Log, leases: map<Scope, nat>, pc: Pc)
    requires AtEffect(c.plan, pc) && pc.step.Counting?
    ensures Turn(c, Stand(log, leases, pc)) ==
            Stand(log, leases, pc.(step := Writing(pc.step.boundAt, |Intents(log, Home(c))| + 1)))
  {
  }

  lemma WritesAhead(c: Case, log: Log, leases: map<Scope, nat>, pc: Pc, intent: Intent)
    requires AtEffect(c.plan, pc) && pc.step.Writing? && BuildSubject(c.plan).Ok?
    requires intent ==
             Intent(pc.step.sequence, EffectKey(c.plan, pc), c.plan.declarationDigest, BuildSubject(c.plan).value)
    ensures Turn(c, Stand(log, leases, pc)) ==
            Stand(log + [Entry(c, Intended(intent))], leases, pc.(step := Calling(pc.step.boundAt, intent)))
  {
  }

  lemma Calls(c: Case, log: Log, leases: map<Scope, nat>, pc: Pc)
    requires AtEffect(c.plan, pc) && pc.step.Calling?
    ensures Turn(c, Stand(log, leases, pc)) ==
            Stand(log + [Entry(c, Called(EffectKey(c.plan, pc), pc.approvedAt, pc.step.boundAt))], leases,
                  pc.(step := Finishing(pc.step.intent, Some(c.out.gives(Effect(c.plan, pc))))))
  {
  }

  lemma Finishes(c: Case, log: Log, leases: map<Scope, nat>, pc: Pc, found: Evidence)
    requires AtEffect(c.plan, pc) && pc.step.Finishing? && pc.step.returned == Some(found) && !Terminal(log, Home(c))
    ensures Turn(c, Stand(log, leases, pc)) ==
            if Matches(c.plan, Effect(c.plan, pc), found)
            then Stand(log, leases, pc.(step := Sealing(pc.step.intent, found)))
            else Refusal(c, log, leases, pc.i)
  {
  }

  lemma Seals(c: Case, log: Log, leases: map<Scope, nat>, pc: Pc)
    requires AtEffect(c.plan, pc) && pc.step.Sealing?
    ensures Turn(c, Stand(log, leases, pc)) ==
            Stand(log + [Entry(c, Completed(pc.step.intent, pc.step.found))], leases,
                  Choosing(pc.i, pc.outs + [Executed(pc.step.found)]))
  {
  }

  /** Where the machine goes on, or is refused, behind an effect of phase `i`. */
  function Behind(c: Case, did: Did, leases: map<Scope, nat>, i: nat, outs: seq<Outcome>): Stand
    requires i < |c.plan.phases|
  {
    if did.outcome.Some? then Stand(did.log, leases, Choosing(i, outs + [did.outcome.value]))
    else Refusal(c, did.log, leases, i)
  }

  /** From the admitted effect to its end. */
  lemma Performs(turn: Stand -> Stand, c: Case, log: Log, leases: map<Scope, nat>, pc: Pc)
    requires Follows(turn, c) && AtEffect(c.plan, pc) && pc.step == Counting(|log|) && pc.approvedAt == |log|
    requires BuildSubject(c.plan).Ok? && !Terminal(log, Home(c))
    ensures Reaches(turn, Stand(log, leases, pc),
                    Behind(c, Perform(c, log, Effect(c.plan, pc)), leases, pc.i, pc.outs))
  {
    var e, key, here := Effect(c.plan, pc), EffectKey(c.plan, pc), Stand(log, leases, pc);
    var intent := Intent(|Intents(log, Home(c))| + 1, key, c.plan.declarationDigest, BuildSubject(c.plan).value);
    var found := c.out.gives(e);
    var log1 := log + [Entry(c, Intended(intent))];
    var log2 := log1 + [Entry(c, Called(key, |log|, |log|))];
    NotTerminal(log, Entry(c, Intended(intent)), Home(c));
    NotTerminal(log1, Entry(c, Called(key, |log|, |log|)), Home(c));
    var p1, p2 := pc.(step := Writing(|log|, |Intents(log, Home(c))| + 1)), pc.(step := Calling(|log|, intent));
    var p3, p4 := pc.(step := Finishing(intent, Some(found))), pc.(step := Sealing(intent, found));
    Counts(c, log, leases, pc);
    WritesAhead(c, log, leases, p1, intent);
    Calls(c, log1, leases, p2);
    Finishes(c, log2, leases, p3, found);
    Seals(c, log2, leases, p4);
    var end := Behind(c, Perform(c, log, e), leases, pc.i, pc.outs);
    Takes(turn, c, here, Stand(log, leases, p1));
    ThenTakes(turn, c, here, Stand(log, leases, p1), Stand(log1, leases, p2));
    ThenTakes(turn, c, here, Stand(log1, leases, p2), Stand(log2, leases, p3));
    if Matches(c.plan, e, found) {
      ThenTakes(turn, c, here, Stand(log2, leases, p3), Stand(log2, leases, p4));
      ThenTakes(turn, c, here, Stand(log2, leases, p4), end);
    } else {
      ThenTakes(turn, c, here, Stand(log2, leases, p3), end);
    }
  }

  /** From the probe to the end of the effect. */
  lemma ProbeRuns(turn: Stand -> Stand, c: Case, log: Log, leases: map<Scope, nat>, pc: Pc)
    requires Follows(turn, c) && AtEffect(c.plan, pc) && pc.approvedAt == |log| && Approved(c, log)
    requires DigestHolds(log, Home(c), c.plan.declarationDigest)
    requires ExpectedIdentity(c.plan, Effect(c.plan, pc)).Some?
    requires pc.step == Probing(Attempted(log, Home(c), EffectKey(c.plan, pc)),
                                CompletionExists(log, Home(c), EffectKey(c.plan, pc)))
    ensures Reaches(turn, Stand(log, leases, pc),
                    Behind(c, DoEffect(c, log, Effect(c.plan, pc)), leases, pc.i, pc.outs))
  {
    var e, here := Effect(c.plan, pc), Stand(log, leases, pc);
    var end := Behind(c, DoEffect(c, log, e), leases, pc.i, pc.outs);
    Probes(c, log, leases, pc);
    match c.out.answer(e)
    case Undecidable => Takes(turn, c, here, end);
    case Present(found) =>
      if Matches(c.plan, e, found) { PresentRuns(turn, c, log, leases, pc, found); } else { Takes(turn, c, here, end); }
    case Absent(found) =>
      if Turn(c, here) == Stand(log, leases, pc.(step := Admitting)) {
        Takes(turn, c, here, Stand(log, leases, pc.(step := Admitting)));
        AdmitRuns(turn, c, log, leases, pc.(step := Admitting));
        Onward(turn, here, Stand(log, leases, pc.(step := Admitting)), end);
      } else {
        Takes(turn, c, here, end);
      }
  }

  lemma PresentRuns(turn: Stand -> Stand, c: Case, log: Log, leases: map<Scope, nat>, pc: Pc, found: Evidence)
    requires Follows(turn, c) && AtEffect(c.plan, pc) && pc.step.Probing? && !Terminal(log, Home(c))
    requires c.out.answer(Effect(c.plan, pc)) == Present(found) && Matches(c.plan, Effect(c.plan, pc), found)
    ensures var pending := Pending(log, log, Home(c), EffectKey(c.plan, pc));
            Reaches(turn, Stand(log, leases, pc),
                    Stand(log + Completions(c.run, Home(c), pending, found), leases,
                          Choosing(pc.i, pc.outs + [Reconciled(found)])))
  {
    var pending, here := Pending(log, log, Home(c), EffectKey(c.plan, pc)), Stand(log, leases, pc);
    var listing, completing := pc.(step := Listing(found)), pc.(step := Completing(found, pending));
    Probes(c, log, leases, pc);
    Lists(c, log, leases, listing);
    CompletesAll(turn, c, log, leases, completing, found, pending);
    Takes(turn, c, here, Stand(log, leases, listing));
    ThenTakes(turn, c, here, Stand(log, leases, listing), Stand(log, leases, completing));
    Onward(turn, here, Stand(log, leases, completing),
           Stand(log + Completions(c.run, Home(c), pending, found), leases,
                 Choosing(pc.i, pc.outs + [Reconciled(found)])));
  }

  lemma AdmitRuns(turn: Stand -> Stand, c: Case, log: Log, leases: map<Scope, nat>, pc: Pc)
    requires Follows(turn, c) && AtEffect(c.plan, pc) && pc.approvedAt == |log| && pc.step == Admitting
    requires DigestHolds(log, Home(c), c.plan.declarationDigest)
    ensures Reaches(turn, Stand(log, leases, pc),
                    if IsAdmitted(c.hash, c.plan, Effect(c.plan, pc))
                    then Behind(c, Perform(c, log, Effect(c.plan, pc)), leases, pc.i, pc.outs)
                    else Refusal(c, log, leases, pc.i))
  {
    var here := Stand(log, leases, pc);
    Admits(c, log, leases, pc);
    if IsAdmitted(c.hash, c.plan, Effect(c.plan, pc)) {
      var p1, p2 := pc.(step := Verifying), pc.(step := Counting(|log|));
      Rechecks(c, log, leases, p1);
      Performs(turn, c, log, leases, p2);
      Takes(turn, c, here, Stand(log, leases, p1));
      ThenTakes(turn, c, here, Stand(log, leases, p1), Stand(log, leases, p2));
      Onward(turn, here, Stand(log, leases, p2),
             Behind(c, Perform(c, log, Effect(c.plan, pc)), leases, pc.i, pc.outs));
    } else {
      Takes(turn, c, here, Refusal(c, log, leases, pc.i));
    }
  }

  /** One effect of the machine is one effect of the sequential release. */
  lemma EffectRuns(turn: Stand -> Stand, c: Case, log: Log, leases: map<Scope, nat>, i: nat, outs: seq<Outcome>)
    requires Follows(turn, c) && i < |c.plan.phases| && |outs| < |PhaseEffectList(c.plan, i)|
    ensures Reaches(turn, Stand(log, leases, Choosing(i, outs)),
                    Behind(c, DoEffect(c, log, PhaseEffectList(c.plan, i)[|outs|]), leases, i, outs))
  {
    var e, here := PhaseEffectList(c.plan, i)[|outs|], Stand(log, leases, Choosing(i, outs));
    var end := Behind(c, DoEffect(c, log, e), leases, i, outs);
    Chooses(c, log, leases, i, outs);
    if !Approved(c, log) {
      Takes(turn, c, here, end);
    } else {
      var key, pc := KeyOf(RequestFor(c.plan, e)), At(i, outs, |log|, Checking);
      Takes(turn, c, here, Stand(log, leases, pc));
      Checks(c, log, leases, pc);
      if DigestHolds(log, Home(c), c.plan.declarationDigest) && ExpectedIdentity(c.plan, e).Some? {
        var attempted := Attempted(log, Home(c), key);
        var p1, p2 := pc.(step := ReadingIntents), pc.(step := ReadingJournal(attempted));
        var p3 := pc.(step := Probing(attempted, CompletionExists(log, Home(c), key)));
        Reads(c, log, leases, p1);
        Reads(c, log, leases, p2);
        ThenTakes(turn, c, here, Stand(log, leases, pc), Stand(log, leases, p1));
        ThenTakes(turn, c, here, Stand(log, leases, p1), Stand(log, leases, p2));
        ThenTakes(turn, c, here, Stand(log, leases, p2), Stand(log, leases, p3));
        ProbeRuns(turn, c, log, leases, p3);
        Onward(turn, here, Stand(log, leases, p3), end);
      } else {
        ThenTakes(turn, c, here, Stand(log, leases, pc), end);
      }
    }
  }

  lemma {:induction false} EffectsRun(turn: Stand -> Stand, c: Case, log: Log, leases: map<Scope, nat>, i: nat,
                                      outs: seq<Outcome>)
    requires Follows(turn, c) && i < |c.plan.phases|
    ensures var did := DoEffects(c, log, i, outs);
            Reaches(turn, Stand(log, leases, Choosing(i, outs)),
                    if did.outs.Some? then Stand(did.log, leases, Leaving(i, did.outs.value, []))
                    else Refusal(c, did.log, leases, i))
    decreases |PhaseEffectList(c.plan, i)| - |outs|
  {
    var here := Stand(log, leases, Choosing(i, outs));
    if |outs| >= |PhaseEffectList(c.plan, i)| {
      Takes(turn, c, here, Stand(log, leases, Leaving(i, outs, [])));
    } else {
      EffectRuns(turn, c, log, leases, i, outs);
      var did := DoEffect(c, log, PhaseEffectList(c.plan, i)[|outs|]);
      if did.outcome.Some? {
        EffectsRun(turn, c, did.log, leases, i, outs + [did.outcome.value]);
        var all := DoEffects(c, did.log, i, outs + [did.outcome.value]);
        Onward(turn, here, Stand(did.log, leases, Choosing(i, outs + [did.outcome.value])),
               if all.outs.Some? then Stand(all.log, leases, Leaving(i, all.outs.value, []))
               else Refusal(c, all.log, leases, i));
      }
    }
  }

  // ------------------------------------------------ the gate

  lemma GateRuns(turn: Stand -> Stand, c: Case, log: Log, leases: map<Scope, nat>, i: nat)
    requires Follows(turn, c) && i < |c.plan.phases| && BuildSubject(c.plan).Ok?
    ensures Reaches(turn, Stand(log, leases, Approving(i)), Stand(Gate(c, log), leases, Choosing(i, [])))
  {
    var subject, here := BuildSubject(c.plan).value, Stand(log, leases, Approving(i));
    if Approval(log, Home(c)) == Some(subject) {
      Takes(turn, c, here, Stand(log, leases, Choosing(i, [])));
    } else {
      var cleared := if Approval(log, Home(c)).Some? then log + [Entry(c, Withdrawn)] else log;
      Takes(turn, c, here, Stand(log, leases, Clearing(i)));
      Clears(c, log, leases, i);
      ThenTakes(turn, c, here, Stand(log, leases, Clearing(i)), Stand(cleared, leases, Confirming(i)));
      Confirms(c, cleared, leases, i);
      ThenTakes(turn, c, here, Stand(cleared, leases, Confirming(i)), Stand(cleared, leases, Persisting(i)));
      ThenTakes(turn, c, here, Stand(cleared, leases, Persisting(i)), Stand(Gate(c, log), leases, Choosing(i, [])));
    }
  }

  lemma Clears(c: Case, log: Log, leases: map<Scope, nat>, i: nat)
    requires i < |c.plan.phases| && BuildSubject(c.plan).Ok?
    requires Approval(log, Home(c)) != Some(BuildSubject(c.plan).value)
    ensures Turn(c, Stand(log, leases, Clearing(i))) ==
            Stand(if Approval(log, Home(c)).Some? then log + [Entry(c, Withdrawn)] else log, leases, Confirming(i))
  {
  }

  lemma Confirms(c: Case, log: Log, leases: map<Scope, nat>, i: nat)
    requires i < |c.plan.phases| && BuildSubject(c.plan).Ok?
    ensures Turn(c, Stand(log, leases, Confirming(i))) == Stand(log, leases, Persisting(i))
    ensures Turn(c, Stand(log, leases, Persisting(i))) ==
            Stand(log + [Entry(c, Confirmed(BuildSubject(c.plan).value))], leases, Choosing(i, []))
  {
  }

  // ------------------------------------------------ one phase

  function Train(c: Case): Scope { TrainScope(c.plan.repository, c.plan.train) }

  function Tree(c: Case): Scope { RepositoryScope(c.plan.repository) }

  /** The process holds its train's lease, and nobody holds the repository's. */
  predicate Held(c: Case, leases: map<Scope, nat>) { Train(c) in leases && Tree(c) !in leases }

  /** The leases inside phase `i`. */
  function Inside(c: Case, leases: map<Scope, nat>, i: nat): map<Scope, nat>
    requires i < |c.plan.phases|
  {
    if Mutating(c.plan, i) then leases[Tree(c) := c.run] else leases
  }

  lemma Leaves(c: Case, leases: map<Scope, nat>, i: nat)
    requires Held(c, leases) && i < |c.plan.phases|
    ensures MoveLease(Inside(c, leases, i), c.run, c.plan, DropRepository) == leases
  {
  }

  lemma Opens(c: Case, log: Log, leases: map<Scope, nat>, i: nat)
    requires Held(c, leases) && i < |c.plan.phases|
    ensures Turn(c, Stand(log, leases, Opening(i))) == Stand(log, Inside(c, leases, i), Entering(i))
  {
  }

  lemma Enters(c: Case, log: Log, leases: map<Scope, nat>, i: nat)
    requires i < |c.plan.phases|
    ensures Turn(c, Stand(log, leases, Entering(i))) ==
            Stand(log + [Entry(c, Entered(c.plan.phases[i].instance))], leases,
                  if Classify(c.plan.phases[i].kind) == Some(Public) then Approving(i) else Running(i))
  {
  }

  lemma RunsLocally(c: Case, log: Log, leases: map<Scope, nat>, i: nat)
    requires i < |c.plan.phases|
    ensures Turn(c, Stand(log, leases, Running(i))) ==
            Stand(log, leases, Leaving(i, [], c.out.local(c.plan.phases[i])))
  {
  }

  lemma GivesUpTree(c: Case, log: Log, leases: map<Scope, nat>, i: nat, outs: seq<Outcome>, evidence: seq<Evidence>)
    requires Held(c, leases) && i < |c.plan.phases|
    ensures Turn(c, Stand(log, Inside(c, leases, i), Leaving(i, outs, evidence))) ==
            Stand(log, leases, Recording(i, outs, evidence))
  {
    Leaves(c, leases, i);
  }

  lemma Records(c: Case, log: Log, leases: map<Scope, nat>, i: nat, outs: seq<Outcome>, evidence: seq<Evidence>)
    requires i < |c.plan.phases|
    ensures Turn(c, Stand(log, leases, Recording(i, outs, evidence))) ==
            Stand(if NoWaiting(outs)
                  then log + [Entry(c, Done(c.plan.phases[i].instance, evidence + FoundIn(outs)))] else log,
                  leases, Opening(i + 1))
  {
  }

  /** Where the machine stands behind phase `i`. */
  function Past(c: Case, ended: Ended, leases: map<Scope, nat>, i: nat): Stand
    requires i < |c.plan.phases|
  {
    match ended
    case Went(log) => Stand(log, leases, Opening(i + 1))
    case Refuses(log) => Stand(log, leases, Refusing(c.plan.phases[i].instance))
    case Quits(log) => Stand(log, Without(leases, c.run), Halted)
  }

  lemma LocalRuns(turn: Stand -> Stand, c: Case, log: Log, leases: map<Scope, nat>, i: nat)
    requires Follows(turn, c) && Held(c, leases) && i < |c.plan.phases|
    ensures Reaches(turn, Stand(log, Inside(c, leases, i), Running(i)),
                    Stand(log + [Entry(c, Done(c.plan.phases[i].instance, c.out.local(c.plan.phases[i])))], leases,
                          Opening(i + 1)))
  {
    var inside, local := Inside(c, leases, i), c.out.local(c.plan.phases[i]);
    var here := Stand(log, inside, Running(i));
    RunsLocally(c, log, inside, i);
    GivesUpTree(c, log, leases, i, [], local);
    Records(c, log, leases, i, [], local);
    assert local + FoundIn([]) == local;
    Takes(turn, c, here, Stand(log, inside, Leaving(i, [], local)));
    ThenTakes(turn, c, here, Stand(log, inside, Leaving(i, [], local)), Stand(log, leases, Recording(i, [], local)));
    ThenTakes(turn, c, here, Stand(log, leases, Recording(i, [], local)),
              Stand(log + [Entry(c, Done(c.plan.phases[i].instance, local))], leases, Opening(i + 1)));
  }

  lemma PublicRuns(turn: Stand -> Stand, c: Case, log: Log, leases: map<Scope, nat>, i: nat)
    requires Follows(turn, c) && Held(c, leases) && i < |c.plan.phases| && BuildSubject(c.plan).Ok?
    ensures var did := DoEffects(c, Gate(c, log), i, []);
            Reaches(turn, Stand(log, Inside(c, leases, i), Approving(i)),
                    if did.outs.None? then Stand(did.log, leases, Refusing(c.plan.phases[i].instance))
                    else Stand(if NoWaiting(did.outs.value)
                               then did.log + [Entry(c, Done(c.plan.phases[i].instance, FoundIn(did.outs.value)))]
                               else did.log, leases, Opening(i + 1)))
  {
    var inside, here := Inside(c, leases, i), Stand(log, Inside(c, leases, i), Approving(i));
    var did := DoEffects(c, Gate(c, log), i, []);
    GateRuns(turn, c, log, inside, i);
    EffectsRun(turn, c, Gate(c, log), inside, i, []);
    Leaves(c, leases, i);
    if did.outs.None? {
      Onward(turn, here, Stand(Gate(c, log), inside, Choosing(i, [])), Refusal(c, did.log, inside, i));
    } else {
      var outs := did.outs.value;
      GivesUpTree(c, did.log, leases, i, outs, []);
      Records(c, did.log, leases, i, outs, []);
      assert [] + FoundIn(outs) == FoundIn(outs);
      Onward(turn, here, Stand(Gate(c, log), inside, Choosing(i, [])), Stand(did.log, inside, Leaving(i, outs, [])));
      ThenTakes(turn, c, here, Stand(did.log, inside, Leaving(i, outs, [])),
                Stand(did.log, leases, Recording(i, outs, [])));
      ThenTakes(turn, c, here, Stand(did.log, leases, Recording(i, outs, [])),
                Turn(c, Stand(did.log, leases, Recording(i, outs, []))));
    }
  }

  /** One phase of the machine is one phase of the sequential release. */
  lemma PhaseRuns(turn: Stand -> Stand, c: Case, log: Log, leases: map<Scope, nat>, i: nat)
    requires Follows(turn, c) && Held(c, leases) && i < |c.plan.phases|
    ensures Reaches(turn, Stand(log, leases, Opening(i)), Past(c, DoPhase(c, log, i), leases, i))
  {
    var phase, inside, here := c.plan.phases[i], Inside(c, leases, i), Stand(log, leases, Opening(i));
    var entered := log + [Entry(c, Entered(phase.instance))];
    var end := Past(c, DoPhase(c, log, i), leases, i);
    Opens(c, log, leases, i);
    Enters(c, log, inside, i);
    Takes(turn, c, here, Stand(log, inside, Entering(i)));
    ThenTakes(turn, c, here, Stand(log, inside, Entering(i)), Turn(c, Stand(log, inside, Entering(i))));
    if Classify(phase.kind) != Some(Public) {
      LocalRuns(turn, c, entered, leases, i);
      Onward(turn, here, Stand(entered, inside, Running(i)), end);
    } else if BuildSubject(c.plan).Err? {
      QuitsAtGate(c, entered, leases, i);
      ThenTakes(turn, c, here, Stand(entered, inside, Approving(i)), end);
    } else {
      PublicRuns(turn, c, entered, leases, i);
      Onward(turn, here, Stand(entered, inside, Approving(i)), end);
    }
  }

  lemma QuitsAtGate(c: Case, log: Log, leases: map<Scope, nat>, i: nat)
    requires Held(c, leases) && i < |c.plan.phases| && BuildSubject(c.plan).Err?
    ensures Turn(c, Stand(log, Inside(c, leases, i), Approving(i))) == Stand(log, Without(leases, c.run), Halted)
  {
    assert Without(Inside(c, leases, i), c.run) == Without(leases, c.run);
  }

  // ------------------------------------------------ the whole release

  lemma RecordsRefusal(c: Case, log: Log, leases: map<Scope, nat>, phase: string)
    ensures Turn(c, Stand(log, leases, Refusing(phase))) ==
            Stand(log + [Entry(c, Refused(phase))], Without(leases, c.run), Halted)
  {
  }

  lemma EndsPhases(c: Case, log: Log, leases: map<Scope, nat>, i: nat)
    requires i >= |c.plan.phases|
    ensures Turn(c, Stand(log, leases, Opening(i))) == Stand(log, Without(leases, c.run), Halted)
  {
  }

  lemma {:induction false} PhasesRun(turn: Stand -> Stand, c: Case, log: Log, leases: map<Scope, nat>, i: nat)
    requires Follows(turn, c) && Held(c, leases)
    ensures Reaches(turn, Stand(log, leases, Opening(i)), Stand(DoPhases(c, log, i), Without(leases, c.run), Halted))
    decreases |c.plan.phases| - i
  {
    var here := Stand(log, leases, Opening(i));
    var end := Stand(DoPhases(c, log, i), Without(leases, c.run), Halted);
    if i >= |c.plan.phases| {
      EndsPhases(c, log, leases, i);
      Takes(turn, c, here, end);
    } else {
      PhaseRuns(turn, c, log, leases, i);
      match DoPhase(c, log, i)
      case Went(after) =>
        PhasesRun(turn, c, after, leases, i + 1);
        Onward(turn, here, Stand(after, leases, Opening(i + 1)), end);
      case Refuses(after) =>
        RecordsRefusal(c, after, leases, c.plan.phases[i].instance);
        ThenTakes(turn, c, here, Stand(after, leases, Refusing(c.plan.phases[i].instance)), end);
      case Quits(after) =>
    }
  }

  /**
   Left alone, with both leases free, the machine ends with exactly the history of
   the sequential release and gives every lease back.
   */
  lemma MachineRunsTheRelease(turn: Stand -> Stand, c: Case, log: Log, leases: map<Scope, nat>)
    requires Follows(turn, c) && Train(c) !in leases && Tree(c) !in leases
    requires forall k | k in leases :: leases[k] != c.run
    ensures Reaches(turn, Stand(log, leases, Starting), Stand(DoRelease(c, log), leases, Halted))
  {
    var here, end := Stand(log, leases, Starting), Stand(DoRelease(c, log), leases, Halted);
    var held := leases[Train(c) := c.run];
    assert Without(leases, c.run) == leases && Without(held, c.run) == leases;
    Starts(c, log, leases);
    if DigestHolds(log, Home(c), c.plan.declarationDigest) {
      Takes(turn, c, here, Stand(log, leases, Leasing));
      ThenTakes(turn, c, here, Stand(log, leases, Leasing), Stand(log, held, Registering));
      Registers(c, log, held);
      if Ordered(c.plan.phases) {
        ThenTakes(turn, c, here, Stand(log, held, Registering), Stand(log, held, Opening(0)));
        PhasesRun(turn, c, log, held, 0);
        Onward(turn, here, Stand(log, held, Opening(0)), end);
      } else {
        var refusing := Stand(log, held, Refusing(Offender(c.plan.phases, false)));
        ThenTakes(turn, c, here, Stand(log, held, Registering), refusing);
        RecordsRefusal(c, log, held, Offender(c.plan.phases, false));
        ThenTakes(turn, c, here, refusing, end);
      }
    } else {
      Takes(turn, c, here, end);
    }
  }

  lemma Starts(c: Case, log: Log, leases: map<Scope, nat>)
    requires Train(c) !in leases
    ensures Turn(c, Stand(log, leases, Starting)) ==
            if DigestHolds(log, Home(c), c.plan.declarationDigest) then Stand(log, leases, Leasing)
            else Stand(log, Without(leases, c.run), Halted)
    ensures Turn(c, Stand(log, leases, Leasing)) == Stand(log, leases[Train(c) := c.run], Registering)
  {
  }

  lemma Registers(c: Case, log: Log, leases: map<Scope, nat>)
    ensures Turn(c, Stand(log, leases, Registering)) ==
            Stand(log, leases, if Ordered(c.plan.phases) then Opening(0)
                               else Refusing(Offender(c.plan.phases, false)))
  {
  }
}
