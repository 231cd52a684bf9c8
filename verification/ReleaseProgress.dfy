/**
 The machine does act: an approved, admitted effect that nobody attempted is
 written ahead, called once and completed.
 */
module ReleaseProgress {
  import opened Admission
  import opened ReleaseMachine
  import opened ReleasePlan
  import opened ReleaseSafety
  import opened Wrappers

  datatype Spot = Spot(log: Log, pc: Pc)

  /** One move of a process that nobody interrupts. */
  function Turn(hash: Hash, leases: map<Scope, nat>, run: nat, plan: Plan, input: Input, s: Spot): Spot {
    var m := AdvanceRun(hash, s.log, leases, plan, s.pc, input);
    Spot(Extend(s.log, run, StreamOf(JournalOf(plan)), m.emit), m.pc)
  }

  function Iterate(turn: Spot -> Spot, s: Spot, n: nat): Spot
    decreases n
  {
    if n == 0 then s else Iterate(turn, turn(s), n - 1)
  }

  /** At this spot `turn` is the machine's move. */
  ghost predicate Moves(turn: Spot -> Spot, hash: Hash, leases: map<Scope, nat>, run: nat, plan: Plan, input: Input,
                        s: Spot)
  {
    turn(s) == Turn(hash, leases, run, plan, input, s)
  }

  ghost predicate Follows(turn: Spot -> Spot, hash: Hash, leases: map<Scope, nat>, run: nat, plan: Plan, input: Input) {
    forall s :: Moves(turn, hash, leases, run, plan, input, s)
  }

  function Ready(found: Evidence): Input { Input(true, found, [], Absent(found)) }

  /** Nothing stands in the way of attempting the effect at `pc`. */
  predicate Untouched(hash: Hash, log: Log, plan: Plan, pc: Pc, found: Evidence)
    requires AtEffect(plan, pc)
  {
    var s, key := StreamOf(JournalOf(plan)), EffectKey(plan, pc);
    && DigestHolds(log, s, plan.declarationDigest) && Matches(plan, Effect(plan, pc), found)
    && !Attempted(log, s, key) && !CompletionExists(log, s, key) && IsAdmitted(hash, plan, Effect(plan, pc))
  }

  /** How an untouched effect proceeds before anything is written. */
  predicate LeadsTo(step: Step, next: Step, size: nat, intents: nat) {
    match step
    case Checking => next == ReadingIntents
    case ReadingIntents => next == ReadingJournal(false)
    case ReadingJournal(attempted) => !attempted && next == Probing(false, false)
    case Probing(attempted, completed) => !attempted && !completed && next == Admitting
    case Admitting => next == Verifying
    case Verifying => next == Counting(size)
    case Counting(t) => next == Writing(t, intents + 1)
    case _ => false
  }

  lemma Decides(turn: Spot -> Spot, hash: Hash, leases: map<Scope, nat>, run: nat, plan: Plan, found: Evidence,
                log: Log, pc: Pc, next: Step)
    requires Follows(turn, hash, leases, run, plan, Ready(found))
    requires AtEffect(plan, pc) && Untouched(hash, log, plan, pc, found)
    requires LeadsTo(pc.step, next, |log|, |Intents(log, StreamOf(JournalOf(plan)))|)
    ensures turn(Spot(log, pc)) == Spot(log, pc.(step := next))
  {
    assert Moves(turn, hash, leases, run, plan, Ready(found), Spot(log, pc));
  }

  lemma WritesIntent(turn: Spot -> Spot, hash: Hash, leases: map<Scope, nat>, run: nat, plan: Plan, found: Evidence,
                     log: Log, pc: Pc, intent: Intent)
    requires Follows(turn, hash, leases, run, plan, Ready(found))
    requires AtEffect(plan, pc) && pc.step.Writing? && BuildSubject(plan).Ok?
    requires intent == Intent(pc.step.sequence, EffectKey(plan, pc), plan.declarationDigest, BuildSubject(plan).value)
    ensures turn(Spot(log, pc)) ==
            Spot(log + [Event(run, StreamOf(JournalOf(plan)), Intended(intent))],
                 pc.(step := Calling(pc.step.boundAt, intent)))
  {
    assert Moves(turn, hash, leases, run, plan, Ready(found), Spot(log, pc));
  }

  lemma CallsExecutor(turn: Spot -> Spot, hash: Hash, leases: map<Scope, nat>, run: nat, plan: Plan, found: Evidence,
                      log: Log, pc: Pc)
    requires Follows(turn, hash, leases, run, plan, Ready(found))
    requires AtEffect(plan, pc) && pc.step.Calling?
    ensures turn(Spot(log, pc)) ==
            Spot(log + [Event(run, StreamOf(JournalOf(plan)),
                              Called(EffectKey(plan, pc), pc.approvedAt, pc.step.boundAt))],
                 pc.(step := Finishing(pc.step.intent, Some(found))))
  {
    assert Moves(turn, hash, leases, run, plan, Ready(found), Spot(log, pc));
  }

  lemma ChecksEvidence(turn: Spot -> Spot, hash: Hash, leases: map<Scope, nat>, run: nat, plan: Plan, found: Evidence,
                       log: Log, pc: Pc)
    requires Follows(turn, hash, leases, run, plan, Ready(found))
    requires AtEffect(plan, pc) && pc.step.Finishing? && pc.step.returned == Some(found)
    requires Matches(plan, Effect(plan, pc), found) && !Terminal(log, StreamOf(JournalOf(plan)))
    ensures turn(Spot(log, pc)) == Spot(log, pc.(step := Sealing(pc.step.intent, found)))
  {
    assert Moves(turn, hash, leases, run, plan, Ready(found), Spot(log, pc));
  }

  lemma WritesCompletion(turn: Spot -> Spot, hash: Hash, leases: map<Scope, nat>, run: nat, plan: Plan,
                         found: Evidence, log: Log, pc: Pc)
    requires Follows(turn, hash, leases, run, plan, Ready(found))
    requires AtEffect(plan, pc) && pc.step.Sealing?
    ensures turn(Spot(log, pc)) ==
            Spot(log + [Event(run, StreamOf(JournalOf(plan)), Completed(pc.step.intent, pc.step.found))],
                 Choosing(pc.i, pc.outs + [Executed(pc.step.found)]))
  {
    assert Moves(turn, hash, leases, run, plan, Ready(found), Spot(log, pc));
  }

  lemma IterateOn(turn: Spot -> Spot, s: Spot, s': Spot, n: nat)
    requires turn(s) == s'
    ensures Iterate(turn, s, n + 1) == Iterate(turn, s', n)
  {
  }

  /** Seven moves lead from the first check to the point of writing, and leave no record. */
  lemma DecidesToWrite(turn: Spot -> Spot, hash: Hash, leases: map<Scope, nat>, run: nat, plan: Plan, found: Evidence,
                       log: Log, pc: Pc, n: nat)
    requires Follows(turn, hash, leases, run, plan, Ready(found))
    requires AtEffect(plan, pc) && pc.step == Checking && Untouched(hash, log, plan, pc, found)
    ensures Iterate(turn, Spot(log, pc), n + 7) ==
            Iterate(turn, Spot(log, pc.(step := Writing(|log|, |Intents(log, StreamOf(JournalOf(plan)))| + 1))), n)
  {
    var count := |Intents(log, StreamOf(JournalOf(plan)))|;
    var path := [Checking, ReadingIntents, ReadingJournal(false), Probing(false, false), Admitting, Verifying,
                 Counting(|log|), Writing(|log|, count + 1)];
    forall k | 0 <= k < 7
      ensures turn(Spot(log, pc.(step := path[k]))) == Spot(log, pc.(step := path[k + 1]))
    {
      assert LeadsTo(path[k], path[k + 1], |log|, count);
      Decides(turn, hash, leases, run, plan, found, log, pc.(step := path[k]), path[k + 1]);
    }
    FollowPath(turn, log, pc, path, 7, n);
  }

  lemma {:induction false} FollowPath(turn: Spot -> Spot, log: Log, pc: Pc, path: seq<Step>, k: nat, n: nat)
    requires pc.At? && k < |path| && path[0] == pc.step
    requires forall j | 0 <= j < k :: turn(Spot(log, pc.(step := path[j]))) == Spot(log, pc.(step := path[j + 1]))
    ensures Iterate(turn, Spot(log, pc), n + k) == Iterate(turn, Spot(log, pc.(step := path[k])), n)
    decreases k
  {
    if k > 0 {
      FollowPath(turn, log, pc, path, k - 1, n + 1);
      IterateOn(turn, Spot(log, pc.(step := path[k - 1])), Spot(log, pc.(step := path[k])), n);
    } else {
      assert pc.(step := path[0]) == pc;
    }
  }

  lemma NotTerminal(log: Log, e: Event, s: Stream)
    requires !Terminal(log, s) && !e.what.Terminalized?
    ensures !Terminal(log + [e], s)
  {
  }

  /** An untouched effect is written ahead, called once and completed, in that order. */
  lemma UntouchedEffectRuns(turn: Spot -> Spot, hash: Hash, leases: map<Scope, nat>, run: nat, plan: Plan,
                            found: Evidence, log: Log, pc: Pc)
    requires Follows(turn, hash, leases, run, plan, Ready(found))
    requires AtEffect(plan, pc) && pc.step == Checking && Untouched(hash, log, plan, pc, found)
    ensures var s, key := StreamOf(JournalOf(plan)), EffectKey(plan, pc);
            var intent := Intent(|Intents(log, s)| + 1, key, plan.declarationDigest, BuildSubject(plan).value);
            Iterate(turn, Spot(log, pc), 11) ==
            Spot(log + [Event(run, s, Intended(intent))] + [Event(run, s, Called(key, pc.approvedAt, |log|))] +
                 [Event(run, s, Completed(intent, found))],
                 Choosing(pc.i, pc.outs + [Executed(found)]))
  {
    var s, key := StreamOf(JournalOf(plan)), EffectKey(plan, pc);
    var intent := Intent(|Intents(log, s)| + 1, key, plan.declarationDigest, BuildSubject(plan).value);
    var log1 := log + [Event(run, s, Intended(intent))];
    var log2 := log1 + [Event(run, s, Called(key, pc.approvedAt, |log|))];
    DecidesToWrite(turn, hash, leases, run, plan, found, log, pc, 4);
    NotTerminal(log, Event(run, s, Intended(intent)), s);
    NotTerminal(log1, Event(run, s, Called(key, pc.approvedAt, |log|)), s);
    var p7, p8 := pc.(step := Writing(|log|, |Intents(log, s)| + 1)), pc.(step := Calling(|log|, intent));
    var p9, p10 := pc.(step := Finishing(intent, Some(found))), pc.(step := Sealing(intent, found));
    WritesIntent(turn, hash, leases, run, plan, found, log, p7, intent);
    CallsExecutor(turn, hash, leases, run, plan, found, log1, p8);
    ChecksEvidence(turn, hash, leases, run, plan, found, log2, p9);
    WritesCompletion(turn, hash, leases, run, plan, found, log2, p10);
    IterateOn(turn, Spot(log, p7), Spot(log1, p8), 3);
    IterateOn(turn, Spot(log1, p8), Spot(log2, p9), 2);
    IterateOn(turn, Spot(log2, p9), Spot(log2, p10), 1);
    IterateOn(turn, Spot(log2, p10), turn(Spot(log2, p10)), 0);
  }

  // ------------------------------------------------ an effect that is already there

  /** The provider shows the effect at every turn. */
  function Shown(found: Evidence): Input { Input(true, found, [], Present(found)) }

  function Completions(run: nat, s: Stream, pending: seq<Intent>, found: Evidence): Log {
    if pending == [] then []
    else [Event(run, s, Completed(pending[0], found))] + Completions(run, s, pending[1..], found)
  }

  lemma FindsPresent(turn: Spot -> Spot, hash: Hash, leases: map<Scope, nat>, run: nat, plan: Plan, found: Evidence,
                     log: Log, pc: Pc)
    requires Follows(turn, hash, leases, run, plan, Shown(found))
    requires AtEffect(plan, pc) && pc.step.Probing? && Matches(plan, Effect(plan, pc), found)
    ensures turn(Spot(log, pc)) == Spot(log, pc.(step := Listing(found)))
  {
    assert Moves(turn, hash, leases, run, plan, Shown(found), Spot(log, pc));
  }

  lemma ListsPending(turn: Spot -> Spot, hash: Hash, leases: map<Scope, nat>, run: nat, plan: Plan, found: Evidence,
                     log: Log, pc: Pc)
    requires Follows(turn, hash, leases, run, plan, Shown(found))
    requires AtEffect(plan, pc) && pc.step == Listing(found)
    ensures turn(Spot(log, pc)) ==
            Spot(log, pc.(step := Completing(found, Pending(log, log, StreamOf(JournalOf(plan)), EffectKey(plan, pc)))))
  {
    assert Moves(turn, hash, leases, run, plan, Shown(found), Spot(log, pc));
  }

  lemma EndsReconciled(turn: Spot -> Spot, hash: Hash, leases: map<Scope, nat>, run: nat, plan: Plan, found: Evidence,
                       log: Log, pc: Pc)
    requires Follows(turn, hash, leases, run, plan, Shown(found))
    requires AtEffect(plan, pc) && pc.step == Completing(found, [])
    ensures turn(Spot(log, pc)) == Spot(log, Choosing(pc.i, pc.outs + [Reconciled(found)]))
  {
    assert Moves(turn, hash, leases, run, plan, Shown(found), Spot(log, pc));
  }

  lemma ChecksTerminal(turn: Spot -> Spot, hash: Hash, leases: map<Scope, nat>, run: nat, plan: Plan, found: Evidence,
                       log: Log, pc: Pc)
    requires Follows(turn, hash, leases, run, plan, Shown(found))
    requires AtEffect(plan, pc) && pc.step.Completing? && pc.step.found == found && pc.step.pending != []
    requires !Terminal(log, StreamOf(JournalOf(plan)))
    ensures turn(Spot(log, pc)) == Spot(log, pc.(step := Closing(found, pc.step.pending)))
  {
    assert Moves(turn, hash, leases, run, plan, Shown(found), Spot(log, pc));
  }

  lemma ClosesIntent(turn: Spot -> Spot, hash: Hash, leases: map<Scope, nat>, run: nat, plan: Plan, found: Evidence,
                     log: Log, pc: Pc)
    requires Follows(turn, hash, leases, run, plan, Shown(found))
    requires AtEffect(plan, pc) && pc.step.Closing? && pc.step.found == found && pc.step.pending != []
    ensures turn(Spot(log, pc)) ==
            Spot(log + [Event(run, StreamOf(JournalOf(plan)), Completed(pc.step.pending[0], found))],
                 pc.(step := Completing(found, pc.step.pending[1..])))
  {
    assert Moves(turn, hash, leases, run, plan, Shown(found), Spot(log, pc));
  }

  /** Two moves a pending intent, oldest first, and one to leave. */
  lemma {:induction false} CompletesEach(turn: Spot -> Spot, hash: Hash, leases: map<Scope, nat>, run: nat, plan: Plan,
                                         found: Evidence, log: Log, pc: Pc, pending: seq<Intent>)
    requires Follows(turn, hash, leases, run, plan, Shown(found))
    requires AtEffect(plan, pc) && pc.step == Completing(found, pending) && !Terminal(log, StreamOf(JournalOf(plan)))
    ensures Iterate(turn, Spot(log, pc), 2 * |pending| + 1) ==
            Spot(log + Completions(run, StreamOf(JournalOf(plan)), pending, found),
                 Choosing(pc.i, pc.outs + [Reconciled(found)]))
    decreases |pending|
  {
    var s := StreamOf(JournalOf(plan));
    if pending == [] {
      EndsReconciled(turn, hash, leases, run, plan, found, log, pc);
      IterateOn(turn, Spot(log, pc), turn(Spot(log, pc)), 0);
      assert log + Completions(run, s, pending, found) == log;
    } else {
      var e := Event(run, s, Completed(pending[0], found));
      var closing, rest := pc.(step := Closing(found, pending)), pc.(step := Completing(found, pending[1..]));
      ChecksTerminal(turn, hash, leases, run, plan, found, log, pc);
      ClosesIntent(turn, hash, leases, run, plan, found, log, closing);
      NotTerminal(log, e, s);
      CompletesEach(turn, hash, leases, run, plan, found, log + [e], rest, pending[1..]);
      IterateOn(turn, Spot(log, closing), Spot(log + [e], rest), 2 * |pending| - 1);
      IterateOn(turn, Spot(log, pc), Spot(log, closing), 2 * |pending|);
      assert log + [e] + Completions(run, s, pending[1..], found) == log + Completions(run, s, pending, found);
    }
  }

  lemma ReachesPending(turn: Spot -> Spot, hash: Hash, leases: map<Scope, nat>, run: nat, plan: Plan, found: Evidence,
                       log: Log, pc: Pc, pending: seq<Intent>, n: nat)
    requires Follows(turn, hash, leases, run, plan, Shown(found))
    requires AtEffect(plan, pc) && pc.step.Probing? && Matches(plan, Effect(plan, pc), found)
    requires pending == Pending(log, log, StreamOf(JournalOf(plan)), EffectKey(plan, pc))
    ensures Iterate(turn, Spot(log, pc), n + 2) ==
            Iterate(turn, Spot(log, pc.(step := Completing(found, pending))), n)
  {
    var listing, completing := pc.(step := Listing(found)), pc.(step := Completing(found, pending));
    FindsPresent(turn, hash, leases, run, plan, found, log, pc);
    ListsPending(turn, hash, leases, run, plan, found, log, listing);
    IterateOn(turn, Spot(log, listing), Spot(log, completing), n);
    IterateOn(turn, Spot(log, pc), Spot(log, listing), n + 1);
  }

  /** A present effect is never attempted: every intent still pending for it is completed with what was found. */
  lemma PresentEffectReconciles(turn: Spot -> Spot, hash: Hash, leases: map<Scope, nat>, run: nat, plan: Plan,
                                found: Evidence, log: Log, pc: Pc, pending: seq<Intent>)
    requires Follows(turn, hash, leases, run, plan, Shown(found))
    requires AtEffect(plan, pc) && pc.step.Probing? && Matches(plan, Effect(plan, pc), found)
    requires !Terminal(log, StreamOf(JournalOf(plan)))
    requires pending == Pending(log, log, StreamOf(JournalOf(plan)), EffectKey(plan, pc))
    ensures Iterate(turn, Spot(log, pc), 2 * |pending| + 3) ==
            Spot(log + Completions(run, StreamOf(JournalOf(plan)), pending, found),
                 Choosing(pc.i, pc.outs + [Reconciled(found)]))
  {
    ReachesPending(turn, hash, leases, run, plan, found, log, pc, pending, 2 * |pending| + 1);
    CompletesEach(turn, hash, leases, run, plan, found, log, pc.(step := Completing(found, pending)), pending);
  }
}
