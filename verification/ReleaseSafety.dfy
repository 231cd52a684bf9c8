/** Safety of the release machine over every run. */
module ReleaseSafety {
  import opened Admission
  import opened Bytes
  import opened Declaration
  import opened ReleaseMachine
  import opened ReleasePlan
  import opened Wrappers

  // ------------------------------------------------ leases exclude

  predicate HoldsTrain(pc: Pc) { !pc.Starting? && !pc.Leasing? && !pc.Halted? }

  /** The phase a process is inside of, between its lease and its release. */
  function Inside(pc: Pc): Option<nat> {
    match pc
    case Entering(i) => Some(i)
    case Running(i) => Some(i)
    case Approving(i) => Some(i)
    case Clearing(i) => Some(i)
    case Confirming(i) => Some(i)
    case Persisting(i) => Some(i)
    case Choosing(i, _) => Some(i)
    case At(i, _, _, _) => Some(i)
    case Leaving(i, _, _) => Some(i)
    case _ => None
  }

  predicate MutatesTree(plan: Plan, pc: Pc) {
    Inside(pc).Some? && Inside(pc).value < |plan.phases| && Mutating(plan, Inside(pc).value)
  }

  predicate Leased(leases: map<Scope, nat>, run: nat, t: Task) {
    t.Execute? ==>
      && (HoldsTrain(t.pc) ==>
            TrainScope(t.plan.repository, t.plan.train) in leases &&
            leases[TrainScope(t.plan.repository, t.plan.train)] == run)
      && (MutatesTree(t.plan, t.pc) ==>
            RepositoryScope(t.plan.repository) in leases && leases[RepositoryScope(t.plan.repository)] == run)
  }

  predicate LeaseInv(leases: map<Scope, nat>, tasks: seq<Task>) {
    forall r | 0 <= r < |tasks| :: Leased(leases, r, tasks[r])
  }

  /** A move takes no lease that another process holds. */
  predicate Respects(before: map<Scope, nat>, after: map<Scope, nat>, run: nat) {
    forall k | k in before && before[k] != run :: k in after && after[k] == before[k]
  }

  /** How a move may change the leases, and where it may go while it does. */
  predicate LeaseMoveOk(leases: map<Scope, nat>, plan: Plan, pc: Pc, m: Move) {
    match m.lease
    case TakeTrain => TrainScope(plan.repository, plan.train) !in leases && m.pc.Registering?
    case TakeRepository =>
      HoldsTrain(pc) && RepositoryScope(plan.repository) !in leases && Inside(m.pc).Some?
    case DropAll => m.pc.Halted?
    case DropRepository => HoldsTrain(pc) && Inside(m.pc).None?
    case Keep => (HoldsTrain(m.pc) ==> HoldsTrain(pc)) && (MutatesTree(plan, m.pc) ==> MutatesTree(plan, pc))
  }

  lemma EffectLeaseMove(hash: Hash, log: Log, leases: map<Scope, nat>, plan: Plan, pc: Pc, input: Input)
    requires AtEffect(plan, pc)
    ensures LeaseMoveOk(leases, plan, pc,
                        AdvanceEffect(hash, log, plan, pc, input))
  {
  }

  lemma GateLeaseMove(log: Log, leases: map<Scope, nat>, plan: Plan, pc: Pc, input: Input)
    requires AtGate(pc) && pc.i < |plan.phases|
    ensures LeaseMoveOk(leases, plan, pc, AdvanceApproval(log, plan, pc, input))
  {
  }

  lemma PhaseLeaseMove(log: Log, leases: map<Scope, nat>, plan: Plan, pc: Pc, input: Input)
    requires !AtEffect(plan, pc)
    ensures LeaseMoveOk(leases, plan, pc, AdvancePhases(log, leases, plan, pc, input))
  {
  }

  lemma RunLeaseMove(hash: Hash, log: Log, leases: map<Scope, nat>, plan: Plan, pc: Pc, input: Input)
    ensures LeaseMoveOk(leases, plan, pc, AdvanceRun(hash, log, leases, plan, pc, input))
  {
    if AtEffect(plan, pc) {
      EffectLeaseMove(hash, log, leases, plan, pc, input);
    } else if AtGate(pc) && pc.i < |plan.phases| {
      GateLeaseMove(log, leases, plan, pc, input);
    } else {
      PhaseLeaseMove(log, leases, plan, pc, input);
    }
  }

  lemma MoveKeepsLeases(leases: map<Scope, nat>, run: nat, plan: Plan, pc: Pc, m: Move)
    requires LeaseMoveOk(leases, plan, pc, m) && Leased(leases, run, Execute(plan, pc))
    ensures Respects(leases, MoveLease(leases, run, plan, m.lease), run)
    ensures Leased(MoveLease(leases, run, plan, m.lease), run, Execute(plan, m.pc))
  {
  }

  lemma OthersStayLeased(before: map<Scope, nat>, after: map<Scope, nat>, tasks: seq<Task>, run: nat, task: Task)
    requires LeaseInv(before, tasks) && run < |tasks| && Respects(before, after, run) && Leased(after, run, task)
    ensures LeaseInv(after, tasks[run := task])
  {
    var next := tasks[run := task];
    forall r | 0 <= r < |next| ensures Leased(after, r, next[r]) {
      assert Leased(before, r, tasks[r]);
    }
  }

  lemma LeasesKept(hash: Hash, w: World, a: Action)
    requires LeaseInv(w.leases, w.tasks)
    ensures LeaseInv(Act(hash, w, a).leases, Act(hash, w, a).tasks)
  {
    match a
    case Launch(task) =>
    case Advance(run, input) =>
      if run < |w.tasks| {
        var t := w.tasks[run];
        assert Leased(w.leases, run, t);
        if t.Execute? {
          var m := AdvanceRun(hash, w.log, w.leases, t.plan, t.pc, input);
          RunLeaseMove(hash, w.log, w.leases, t.plan, t.pc, input);
          MoveKeepsLeases(w.leases, run, t.plan, t.pc, m);
          OthersStayLeased(w.leases, MoveLease(w.leases, run, t.plan, m.lease), w.tasks, run, t.(pc := m.pc));
        } else {
          OthersStayLeased(w.leases, w.leases, w.tasks, run, AdvanceCeremony(w.log, t, input.ok).task);
        }
      }
    case Crash(run) =>
      if run < |w.tasks| {
        OthersStayLeased(w.leases, Without(w.leases, run), w.tasks, run, Stopped(w.tasks[run]));
      }
  }

  /** No two processes are ever inside tree-mutating phases of one repository. */
  lemma TreeMutationsExclude(w: World, a: nat, b: nat)
    requires LeaseInv(w.leases, w.tasks) && a < |w.tasks| && b < |w.tasks|
    requires w.tasks[a].Execute? && w.tasks[b].Execute? && w.tasks[a].plan.repository == w.tasks[b].plan.repository
    requires MutatesTree(w.tasks[a].plan, w.tasks[a].pc) && MutatesTree(w.tasks[b].plan, w.tasks[b].pc)
    ensures a == b
  {
    assert Leased(w.leases, a, w.tasks[a]) && Leased(w.leases, b, w.tasks[b]);
  }

  // ------------------------------------------------ each effect is called at most once

  predicate Calls(e: Event, s: Stream, key: Key) { e.stream == s && e.what.Called? && e.what.key == key }

  /** Past the reading of the intents, and the effect was found never attempted. */
  predicate FoundUnattempted(step: Step) {
    || (step.ReadingJournal? && !step.attempted) || (step.Probing? && !step.attempted)
    || step.Admitting? || step.Verifying? || step.Counting? || step.Writing?
  }

  predicate Attempt(log: Log, run: nat, plan: Plan, pc: Pc) {
    AtEffect(plan, pc) ==>
      var s, key := StreamOf(JournalOf(plan)), EffectKey(plan, pc);
      && (FoundUnattempted(pc.step) ==> !Attempted(log, s, key))
      && (pc.step.Calling? ==>
            && pc.step.intent.key == key && Event(run, s, Intended(pc.step.intent)) in log
            && forall e <- log :: !Calls(e, s, key))
  }

  predicate UniqueIntents(log: Log) {
    forall i, j | 0 <= i < j < |log| && log[i].what.Intended? && log[i].stream == log[j].stream ::
      !Intends(log[j], log[j].stream, log[i].what.intent.key)
  }

  predicate UniqueCalls(log: Log) {
    forall i, j | 0 <= i < j < |log| && log[i].what.Called? && log[i].stream == log[j].stream ::
      !Calls(log[j], log[j].stream, log[i].what.key)
  }

  /** The intent behind a call, written earlier by the same process. */
  predicate Behind(log: Log, c: nat)
    requires c < |log|
  {
    log[c].what.Called? ==>
      exists i | 0 <= i < c :: log[i].run == log[c].run && Intends(log[i], log[c].stream, log[c].what.key)
  }

  predicate Homed(e: Event) {
    && (e.what.Intended? ==>
          e.stream == StreamOf(Journal(e.stream.repository, e.what.intent.key.train, e.what.intent.key.commit)))
    && (e.what.Called? ==> e.stream == StreamOf(Journal(e.stream.repository, e.what.key.train, e.what.key.commit)))
  }

  predicate CallLog(log: Log) {
    && UniqueIntents(log) && UniqueCalls(log)
    && (forall c | 0 <= c < |log| :: Behind(log, c))
    && (forall e <- log :: Homed(e))
  }

  predicate AllAttempts(log: Log, tasks: seq<Task>) {
    forall r | 0 <= r < |tasks| && tasks[r].Execute? :: Attempt(log, r, tasks[r].plan, tasks[r].pc)
  }

  /** Two processes at the same effect are one process. */
  lemma SameEffectSameRun(leases: map<Scope, nat>, tasks: seq<Task>, a: nat, b: nat)
    requires LeaseInv(leases, tasks) && a < |tasks| && b < |tasks| && tasks[a].Execute? && tasks[b].Execute?
    requires AtEffect(tasks[a].plan, tasks[a].pc) && AtEffect(tasks[b].plan, tasks[b].pc)
    requires StreamOf(JournalOf(tasks[a].plan)) == StreamOf(JournalOf(tasks[b].plan))
    requires EffectKey(tasks[a].plan, tasks[a].pc) == EffectKey(tasks[b].plan, tasks[b].pc)
    ensures a == b
  {
    assert Leased(leases, a, tasks[a]) && Leased(leases, b, tasks[b]);
  }

  /** What a move writes about attempts and calls, and what it knows afterwards. */
  predicate AttemptMove(log: Log, run: nat, plan: Plan, pc: Pc, m: Move) {
    if m.emit.Some? && m.emit.value.Intended? then
      && AtEffect(plan, pc) && FoundUnattempted(pc.step) && m.emit.value.intent.key == EffectKey(plan, pc)
      && m.pc.At? && m.pc.i == pc.i && m.pc.outs == pc.outs
      && m.pc.step.Calling? && m.pc.step.intent == m.emit.value.intent
    else if m.emit.Some? && m.emit.value.Called? then
      && AtEffect(plan, pc) && pc.step.Calling? && m.emit.value.key == EffectKey(plan, pc)
      && m.pc.At? && m.pc.step.Finishing?
    else Attempt(log, run, plan, m.pc) && !(AtEffect(plan, m.pc) && m.pc.step.Calling?)
  }

  lemma DecideAttempt(hash: Hash, log: Log, run: nat, plan: Plan, pc: Pc, input: Input)
    requires AtEffect(plan, pc) && Attempt(log, run, plan, pc) && !Reconciling(pc.step) && !Invoking(pc.step)
    ensures AttemptMove(log, run, plan, pc, Decide(hash, log, plan, pc, input))
  {
  }

  lemma ReconcileAttempt(log: Log, run: nat, plan: Plan, pc: Pc, input: Input)
    requires AtEffect(plan, pc) && Reconciling(pc.step)
    ensures AttemptMove(log, run, plan, pc, Reconcile(log, plan, pc, input))
  {
  }

  lemma InvokeAttempt(log: Log, run: nat, plan: Plan, pc: Pc, input: Input)
    requires AtEffect(plan, pc) && Attempt(log, run, plan, pc) && Invoking(pc.step)
    ensures AttemptMove(log, run, plan, pc, Invoke(log, plan, pc, input))
  {
  }

  /** Outside of effects nothing is attempted, called or completed, and an effect starts by its checks. */
  predicate Plain(m: Move) {
    && (m.emit.Some? ==> !m.emit.value.Intended? && !m.emit.value.Called? && !m.emit.value.Completed?)
    && (m.pc.At? ==> m.pc.step.Checking?)
  }

  lemma OutsideIsPlain(hash: Hash, log: Log, leases: map<Scope, nat>, plan: Plan, pc: Pc, input: Input)
    requires !AtEffect(plan, pc)
    ensures Plain(AdvanceRun(hash, log, leases, plan, pc, input))
  {
    if AtGate(pc) && pc.i < |plan.phases| {
      assert Plain(AdvanceApproval(log, plan, pc, input));
    } else {
      assert Plain(AdvancePhases(log, leases, plan, pc, input));
    }
  }

  lemma EffectAttempt(hash: Hash, log: Log, run: nat, plan: Plan, pc: Pc, input: Input)
    requires AtEffect(plan, pc) && Attempt(log, run, plan, pc)
    ensures AttemptMove(log, run, plan, pc, AdvanceEffect(hash, log, plan, pc, input))
  {
    if Reconciling(pc.step) {
      ReconcileAttempt(log, run, plan, pc, input);
    } else if Invoking(pc.step) {
      InvokeAttempt(log, run, plan, pc, input);
    } else {
      DecideAttempt(hash, log, run, plan, pc, input);
    }
  }

  lemma RunAttemptMove(hash: Hash, log: Log, leases: map<Scope, nat>, run: nat, plan: Plan, pc: Pc, input: Input)
    requires Attempt(log, run, plan, pc)
    ensures AttemptMove(log, run, plan, pc, AdvanceRun(hash, log, leases, plan, pc, input))
  {
    if AtEffect(plan, pc) {
      EffectAttempt(hash, log, run, plan, pc, input);
    } else {
      OutsideIsPlain(hash, log, leases, plan, pc, input);
    }
  }

  lemma {:induction false} CallLogGrows(log: Log, e: Event)
    requires CallLog(log) && Homed(e)
    requires e.what.Intended? ==> !Attempted(log, e.stream, e.what.intent.key)
    requires e.what.Called? ==>
               && (forall c <- log :: !Calls(c, e.stream, e.what.key))
               && exists i | 0 <= i < |log| :: log[i].run == e.run && Intends(log[i], e.stream, e.what.key)
    ensures CallLog(log + [e])
  {
    var next := log + [e];
    forall c | 0 <= c < |next| ensures Behind(next, c) {
      if c < |log| {
        assert Behind(log, c);
        if log[c].what.Called? {
          var i :| 0 <= i < c && log[i].run == log[c].run && Intends(log[i], log[c].stream, log[c].what.key);
          assert next[i] == log[i];
        }
      } else if e.what.Called? {
        var i :| 0 <= i < |log| && log[i].run == e.run && Intends(log[i], e.stream, e.what.key);
        assert next[i] == log[i];
      }
    }
    forall i, j | 0 <= i < j < |next| && next[i].what.Intended? && next[i].stream == next[j].stream
      ensures !Intends(next[j], next[j].stream, next[i].what.intent.key)
    {
      assert next[i] in log;
    }
    forall i, j | 0 <= i < j < |next| && next[i].what.Called? && next[i].stream == next[j].stream
      ensures !Calls(next[j], next[j].stream, next[i].what.key)
    {
      assert next[i] in log;
    }
  }

  lemma UnattemptedIsUncalled(log: Log, s: Stream, key: Key)
    requires CallLog(log) && !Attempted(log, s, key)
    ensures forall e <- log :: !Calls(e, s, key)
  {
    forall i | 0 <= i < |log| ensures !Intends(log[i], s, key) { assert log[i] in log; }
    forall c | 0 <= c < |log| ensures !Calls(log[c], s, key) { assert Behind(log, c); }
  }

  lemma AttemptSurvives(log: Log, e: Event, run: nat, plan: Plan, pc: Pc)
    requires Attempt(log, run, plan, pc)
    requires AtEffect(plan, pc) ==>
               !Intends(e, StreamOf(JournalOf(plan)), EffectKey(plan, pc)) &&
               !Calls(e, StreamOf(JournalOf(plan)), EffectKey(plan, pc))
    ensures Attempt(log + [e], run, plan, pc)
  {
  }

  /** A move of one process, told by its log entry and its next position. */
  lemma CallsKeptByMove(w: World, run: nat, m: Move)
    requires LeaseInv(w.leases, w.tasks) && CallLog(w.log) && AllAttempts(w.log, w.tasks)
    requires run < |w.tasks| && w.tasks[run].Execute?
    requires AttemptMove(w.log, run, w.tasks[run].plan, w.tasks[run].pc, m)
    ensures CallLog(ApplyMove(w, run, m).log)
    ensures AllAttempts(ApplyMove(w, run, m).log, ApplyMove(w, run, m).tasks)
  {
    var t := w.tasks[run];
    var s := StreamOf(JournalOf(t.plan));
    assert Attempt(w.log, run, t.plan, t.pc);
    if m.emit.Some? {
      var e := Event(run, s, m.emit.value);
      if e.what.Intended? { UnattemptedIsUncalled(w.log, s, e.what.intent.key); }
      if e.what.Called? { IntentIndex(w.log, Event(run, s, Intended(t.pc.step.intent))); }
      CallLogGrows(w.log, e);
      MoverKeepsAttempt(w.log, run, t.plan, t.pc, m);
      forall r | 0 <= r < |w.tasks| && r != run && w.tasks[r].Execute?
        ensures Attempt(w.log + [e], r, w.tasks[r].plan, w.tasks[r].pc)
      {
        OtherKeepsAttempt(w, run, m, r);
      }
    }
  }

  lemma IntentIndex(log: Log, e: Event)
    requires e in log && e.what.Intended?
    ensures exists i | 0 <= i < |log| :: log[i].run == e.run && Intends(log[i], e.stream, e.what.intent.key)
  {
    var i :| 0 <= i < |log| && log[i] == e;
  }

  lemma MoverKeepsAttempt(log: Log, run: nat, plan: Plan, pc: Pc, m: Move)
    requires AttemptMove(log, run, plan, pc, m) && m.emit.Some? && CallLog(log) && Attempt(log, run, plan, pc)
    ensures Attempt(log + [Event(run, StreamOf(JournalOf(plan)), m.emit.value)], run, plan, m.pc)
  {
    if m.emit.value.Intended? { UnattemptedIsUncalled(log, StreamOf(JournalOf(plan)), EffectKey(plan, pc)); }
  }

  lemma OtherKeepsAttempt(w: World, run: nat, m: Move, r: nat)
    requires LeaseInv(w.leases, w.tasks) && AllAttempts(w.log, w.tasks)
    requires run < |w.tasks| && w.tasks[run].Execute? && r < |w.tasks| && r != run && w.tasks[r].Execute?
    requires AttemptMove(w.log, run, w.tasks[run].plan, w.tasks[run].pc, m) && m.emit.Some?
    ensures Attempt(w.log + [Event(run, StreamOf(JournalOf(w.tasks[run].plan)), m.emit.value)], r,
                    w.tasks[r].plan, w.tasks[r].pc)
  {
    var t, u := w.tasks[run], w.tasks[r];
    var e := Event(run, StreamOf(JournalOf(t.plan)), m.emit.value);
    assert Attempt(w.log, r, u.plan, u.pc);
    if AtEffect(u.plan, u.pc) && (e.what.Intended? || e.what.Called?) && e.stream == StreamOf(JournalOf(u.plan)) {
      if EffectKey(t.plan, t.pc) == EffectKey(u.plan, u.pc) {
        SameEffectSameRun(w.leases, w.tasks, run, r);
      }
    }
    AttemptSurvives(w.log, e, r, u.plan, u.pc);
  }

  // ------------------------------------------------ the journal never overstates

  /** No intent for the key is left without its completion. */
  predicate Settled(log: Log, s: Stream, key: Key) {
    forall e <- log :: Intends(e, s, key) ==> HasCompletion(log, s, e.what.intent)
  }

  predicate OnlyIntent(log: Log, s: Stream, key: Key, intent: Intent) {
    forall e <- log :: Intends(e, s, key) ==> e.what.intent == intent
  }

  /** Everything still pending for the key is on the list. */
  predicate Listed(log: Log, s: Stream, key: Key, pending: seq<Intent>) {
    && (forall e <- log :: Intends(e, s, key) && !HasCompletion(log, s, e.what.intent) ==> e.what.intent in pending)
    && (forall x <- pending :: x.key == key)
  }

  function KeyNumber(plan: Plan, i: nat, m: nat): Key
    requires i < |plan.phases| && m < |PhaseEffectList(plan, i)|
  {
    KeyOf(RequestFor(plan, PhaseEffectList(plan, i)[m]))
  }

  predicate Matches(plan: Plan, e: PublicEffect, found: Evidence) {
    ExpectedIdentity(plan, e) == Some(found.identity)
  }

  predicate InCall(step: Step) { step.Calling? || step.Finishing? || step.Sealing? }

  /** An outcome that claims completion shows the expected identity and leaves nothing pending. */
  predicate OutcomeHolds(log: Log, plan: Plan, i: nat, outs: seq<Outcome>, m: nat, except: Option<Key>)
    requires i < |plan.phases| && m < |outs| <= |PhaseEffectList(plan, i)|
  {
    !outs[m].AwaitingProbe? ==>
      && Matches(plan, PhaseEffectList(plan, i)[m], outs[m].found)
      && (Some(KeyNumber(plan, i, m)) != except ==> Settled(log, StreamOf(JournalOf(plan)), KeyNumber(plan, i, m)))
  }

  predicate OutcomesHold(log: Log, plan: Plan, i: nat, outs: seq<Outcome>, except: Option<Key>) {
    && i < |plan.phases| && Classify(plan.phases[i].kind) == Some(Public) && |outs| <= |PhaseEffectList(plan, i)|
    && forall m | 0 <= m < |outs| :: OutcomeHolds(log, plan, i, outs, m, except)
  }

  function Except(plan: Plan, pc: Pc): Option<Key> {
    if AtEffect(plan, pc) && InCall(pc.step) then Some(EffectKey(plan, pc)) else None
  }

  predicate StepHolds(log: Log, plan: Plan, pc: Pc)
    requires AtEffect(plan, pc)
  {
    var s, key, e := StreamOf(JournalOf(plan)), EffectKey(plan, pc), Effect(plan, pc);
    match pc.step
    case Listing(found) => Matches(plan, e, found)
    case Completing(found, pending) => Matches(plan, e, found) && Listed(log, s, key, pending)
    case Closing(found, pending) => Matches(plan, e, found) && Listed(log, s, key, pending)
    case Calling(_, intent) => OnlyIntent(log, s, key, intent) && intent.key == key
    case Finishing(intent, _) => OnlyIntent(log, s, key, intent) && intent.key == key
    case Sealing(intent, found) =>
      OnlyIntent(log, s, key, intent) && intent.key == key && Matches(plan, e, found)
    case _ => true
  }

  predicate Progress(log: Log, plan: Plan, pc: Pc) {
    match pc
    case Approving(i) => i < |plan.phases| && Classify(plan.phases[i].kind) == Some(Public)
    case Clearing(i) => i < |plan.phases| && Classify(plan.phases[i].kind) == Some(Public)
    case Confirming(i) => i < |plan.phases| && Classify(plan.phases[i].kind) == Some(Public)
    case Persisting(i) => i < |plan.phases| && Classify(plan.phases[i].kind) == Some(Public)
    case Choosing(i, outs) => OutcomesHold(log, plan, i, outs, None)
    case At(i, outs, _, _) =>
      AtEffect(plan, pc) && OutcomesHold(log, plan, i, outs, Except(plan, pc)) && StepHolds(log, plan, pc)
    case Running(i) => i < |plan.phases| && Classify(plan.phases[i].kind) != Some(Public)
    case Leaving(i, outs, evidence) => Finished(log, plan, i, outs, evidence)
    case Recording(i, outs, evidence) => Finished(log, plan, i, outs, evidence)
    case _ => true
  }

  predicate Finished(log: Log, plan: Plan, i: nat, outs: seq<Outcome>, evidence: seq<Evidence>) {
    i < |plan.phases| &&
    if Classify(plan.phases[i].kind) == Some(Public)
    then OutcomesHold(log, plan, i, outs, None) && |outs| == |PhaseEffectList(plan, i)| && evidence == []
    else outs == []
  }

  function PlanOf(tasks: seq<Task>, run: nat): Option<Plan> {
    if run < |tasks| && tasks[run].Execute? then Some(tasks[run].plan) else None
  }

  /** A completion answers an effect of its own plan with the identity that plan expects. */
  predicate CompletionHolds(plan: Option<Plan>, e: Event) {
    e.what.Completed? ==>
      && plan.Some? && e.stream == StreamOf(JournalOf(plan.value))
      && exists p <- plan.value.publicEffects ::
           KeyOf(RequestFor(plan.value, p)) == e.what.intent.key && Matches(plan.value, p, e.what.found)
  }

  /** `PhaseDone` of an irreversible phase: evidence for every effect, and nothing pending for any. */
  predicate DoneFor(before: Log, plan: Plan, i: nat, what: What) {
    && what.Done? && i < |plan.phases| && plan.phases[i].instance == what.phase
    && (Classify(plan.phases[i].kind) == Some(Public) ==>
          var effects := PhaseEffectList(plan, i);
          && |what.evidence| == |effects|
          && forall m | 0 <= m < |effects| ::
               Matches(plan, effects[m], what.evidence[m]) &&
               Settled(before, StreamOf(JournalOf(plan)), KeyNumber(plan, i, m)))
  }

  ghost predicate DoneHolds(before: Log, plan: Option<Plan>, what: What) {
    what.Done? ==> plan.Some? && exists i :: DoneFor(before, plan.value, i, what)
  }

  // ---- how one effect step keeps this

  /** The log and position after one step of an effect. */
  predicate ProgressMove(log: Log, run: nat, plan: Plan, m: Move) {
    && Progress(Extend(log, run, StreamOf(JournalOf(plan)), m.emit), plan, m.pc)
    && (m.emit.Some? ==> CompletionHolds(Some(plan), Event(run, StreamOf(JournalOf(plan)), m.emit.value)))
  }

  lemma {:induction false} EffectIsPlanned(effects: seq<PublicEffect>, phase: string)
    ensures forall e <- EffectsOf(effects, phase) :: e in effects && e.phase == phase
  {
    if effects != [] { EffectIsPlanned(effects[1..], phase); }
  }

  lemma {:induction false} PendingIsListed(all: Log, log: Log, s: Stream, key: Key)
    ensures forall e <- log :: Intends(e, s, key) && !HasCompletion(all, s, e.what.intent) ==>
              e.what.intent in Pending(all, log, s, key)
    ensures forall x <- Pending(all, log, s, key) :: x.key == key
  {
    if log != [] {
      PendingIsListed(all, log[..|log| - 1], s, key);
      assert forall e <- log :: e == log[|log| - 1] || e in log[..|log| - 1];
    }
  }

  lemma SettledGrows(log: Log, e: Event, s: Stream, key: Key)
    requires Settled(log, s, key) && !Intends(e, s, key)
    ensures Settled(log + [e], s, key)
  {
    forall x | x in log && Intends(x, s, key) ensures HasCompletion(log + [e], s, x.what.intent) {
      assert HasCompletion(log, s, x.what.intent);
    }
  }

  lemma OutcomesGrow(log: Log, e: Event, plan: Plan, i: nat, outs: seq<Outcome>, except: Option<Key>)
    requires OutcomesHold(log, plan, i, outs, except)
    requires forall m | 0 <= m < |outs| :: !Intends(e, StreamOf(JournalOf(plan)), KeyNumber(plan, i, m))
    ensures OutcomesHold(log + [e], plan, i, outs, except)
  {
    forall m | 0 <= m < |outs| ensures OutcomeHolds(log + [e], plan, i, outs, m, except) {
      assert OutcomeHolds(log, plan, i, outs, m, except);
      var s, key := StreamOf(JournalOf(plan)), KeyNumber(plan, i, m);
      if Settled(log, s, key) { SettledGrows(log, e, s, key); }
    }
  }

  lemma ListedGrows(log: Log, e: Event, s: Stream, key: Key, pending: seq<Intent>)
    requires Listed(log, s, key, pending) && !Intends(e, s, key)
    ensures Listed(log + [e], s, key, pending)
  {
    forall x | HasCompletion(log, s, x) ensures HasCompletion(log + [e], s, x) {
      var c :| c in log && Completes(c, s, x);
      assert c in log + [e];
    }
  }

  lemma ProgressSurvives(log: Log, e: Event, plan: Plan, pc: Pc)
    requires Progress(log, plan, pc)
    requires e.what.Intended? ==> e.stream != StreamOf(JournalOf(plan)) || e.what.intent.key.train != plan.train
    ensures Progress(log + [e], plan, pc)
  {
    match pc
    case Choosing(i, outs) => OutcomesGrow(log, e, plan, i, outs, None);
    case At(i, outs, _, step) =>
      OutcomesGrow(log, e, plan, i, outs, Except(plan, pc));
      if step.Completing? || step.Closing? {
        ListedGrows(log, e, StreamOf(JournalOf(plan)), EffectKey(plan, pc), step.pending);
      }
    case Leaving(i, outs, _) =>
      if Classify(plan.phases[i].kind) == Some(Public) { OutcomesGrow(log, e, plan, i, outs, None); }
    case Recording(i, outs, _) =>
      if Classify(plan.phases[i].kind) == Some(Public) { OutcomesGrow(log, e, plan, i, outs, None); }
    case _ =>
  }

  lemma OutcomesAppend(log: Log, plan: Plan, i: nat, outs: seq<Outcome>, o: Outcome)
    requires OutcomesHold(log, plan, i, outs, None) && |outs| < |PhaseEffectList(plan, i)|
    requires !o.AwaitingProbe? ==>
               && Matches(plan, PhaseEffectList(plan, i)[|outs|], o.found)
               && Settled(log, StreamOf(JournalOf(plan)), KeyNumber(plan, i, |outs|))
    ensures OutcomesHold(log, plan, i, outs + [o], None)
  {
    var more := outs + [o];
    forall m | 0 <= m < |more| ensures OutcomeHolds(log, plan, i, more, m, None) {
      if m < |outs| { assert OutcomeHolds(log, plan, i, outs, m, None); }
    }
  }

  /** Writing an intent: only outcomes for the very same key are suspended. */
  lemma OutcomesBeginCall(log: Log, e: Event, plan: Plan, i: nat, outs: seq<Outcome>, key: Key)
    requires OutcomesHold(log, plan, i, outs, None)
    requires e.what.Intended? && e.what.intent.key == key
    ensures OutcomesHold(log + [e], plan, i, outs, Some(key))
  {
    forall m | 0 <= m < |outs| ensures OutcomeHolds(log + [e], plan, i, outs, m, Some(key)) {
      assert OutcomeHolds(log, plan, i, outs, m, None);
      var s, other := StreamOf(JournalOf(plan)), KeyNumber(plan, i, m);
      if other != key && Settled(log, s, other) { SettledGrows(log, e, s, other); }
    }
  }

  /** Sealing the one intent of a key settles the key again. */
  lemma SealSettles(log: Log, e: Event, s: Stream, key: Key, intent: Intent)
    requires OnlyIntent(log, s, key, intent) && Completes(e, s, intent)
    ensures Settled(log + [e], s, key)
  {
    assert e in log + [e];
    assert HasCompletion(log + [e], s, intent);
  }

  lemma OutcomesEndCall(log: Log, e: Event, plan: Plan, i: nat, outs: seq<Outcome>, key: Key, intent: Intent)
    requires OutcomesHold(log, plan, i, outs, Some(key))
    requires OnlyIntent(log, StreamOf(JournalOf(plan)), key, intent) && Completes(e, StreamOf(JournalOf(plan)), intent)
    ensures OutcomesHold(log + [e], plan, i, outs, None)
  {
    SealSettles(log, e, StreamOf(JournalOf(plan)), key, intent);
    forall m | 0 <= m < |outs| ensures OutcomeHolds(log + [e], plan, i, outs, m, None) {
      assert OutcomeHolds(log, plan, i, outs, m, Some(key));
      var s, other := StreamOf(JournalOf(plan)), KeyNumber(plan, i, m);
      if other != key && Settled(log, s, other) { SettledGrows(log, e, s, other); }
    }
  }

  lemma ListedShrinks(log: Log, e: Event, s: Stream, key: Key, pending: seq<Intent>)
    requires Listed(log, s, key, pending) && pending != [] && Completes(e, s, pending[0])
    ensures Listed(log + [e], s, key, pending[1..])
  {
    ListedGrows(log, e, s, key, pending);
    assert e in log + [e];
    assert HasCompletion(log + [e], s, pending[0]);
  }

  lemma CompletionOfEffect(run: nat, plan: Plan, pc: Pc, intent: Intent, found: Evidence)
    requires AtEffect(plan, pc) && intent.key == EffectKey(plan, pc) && Matches(plan, Effect(plan, pc), found)
    ensures CompletionHolds(Some(plan), Event(run, StreamOf(JournalOf(plan)), Completed(intent, found)))
  {
    EffectIsPlanned(plan.publicEffects, plan.phases[pc.i].instance);
    assert Effect(plan, pc) in plan.publicEffects;
  }

  // The moves of an effect, one group of steps at a time.

  lemma ReconcileProgress(log: Log, run: nat, plan: Plan, pc: Pc, input: Input)
    requires AtEffect(plan, pc) && Progress(log, plan, pc) && Reconciling(pc.step)
    ensures ProgressMove(log, run, plan, Reconcile(log, plan, pc, input))
  {
    var s, key := StreamOf(JournalOf(plan)), EffectKey(plan, pc);
    if input.ok {
      match pc.step
      case Listing(found) => PendingIsListed(log, log, s, key);
      case Completing(found, pending) =>
        if pending == [] { OutcomesAppend(log, plan, pc.i, pc.outs, Reconciled(found)); }
      case Closing(found, pending) =>
        if pending != [] {
          var e := Event(run, s, Completed(pending[0], found));
          assert pending[0] in pending;
          OutcomesGrow(log, e, plan, pc.i, pc.outs, None);
          ListedShrinks(log, e, s, key, pending);
          CompletionOfEffect(run, plan, pc, pending[0], found);
        }
    }
  }

  lemma InvokeProgress(log: Log, run: nat, plan: Plan, pc: Pc, input: Input)
    requires AtEffect(plan, pc) && Progress(log, plan, pc) && Attempt(log, run, plan, pc) && Invoking(pc.step)
    ensures ProgressMove(log, run, plan, Invoke(log, plan, pc, input))
  {
    var s, key := StreamOf(JournalOf(plan)), EffectKey(plan, pc);
    match pc.step
    case Writing(_, sequence) =>
      if input.ok && BuildSubject(plan).Ok? {
        var intent := Intent(sequence, key, plan.declarationDigest, BuildSubject(plan).value);
        OutcomesBeginCall(log, Event(run, s, Intended(intent)), plan, pc.i, pc.outs, key);
      }
    case Calling(boundAt, intent) =>
      OutcomesGrow(log, Event(run, s, Called(key, pc.approvedAt, boundAt)), plan, pc.i, pc.outs, Some(key));
    case Sealing(intent, found) =>
      if input.ok {
        var e := Event(run, s, Completed(intent, found));
        OutcomesEndCall(log, e, plan, pc.i, pc.outs, key, intent);
        SealSettles(log, e, s, key, intent);
        OutcomesAppend(log + [e], plan, pc.i, pc.outs, Executed(found));
        CompletionOfEffect(run, plan, pc, intent, found);
      }
    case _ =>
  }

  lemma ProbeProgress(hash: Hash, log: Log, run: nat, plan: Plan, pc: Pc, input: Input)
    requires AtEffect(plan, pc) && Progress(log, plan, pc) && pc.step.Probing?
    ensures ProgressMove(log, run, plan, Decide(hash, log, plan, pc, input))
  {
    OutcomesAppend(log, plan, pc.i, pc.outs, AwaitingProbe);
  }

  lemma DecideProgress(hash: Hash, log: Log, run: nat, plan: Plan, pc: Pc, input: Input)
    requires AtEffect(plan, pc) && Progress(log, plan, pc) && !Reconciling(pc.step) && !Invoking(pc.step)
    ensures ProgressMove(log, run, plan, Decide(hash, log, plan, pc, input))
  {
    if pc.step.Probing? { ProbeProgress(hash, log, run, plan, pc, input); }
  }

  lemma PhaseProgress(log: Log, run: nat, leases: map<Scope, nat>, plan: Plan, pc: Pc, input: Input)
    requires !AtEffect(plan, pc) && !AtGate(pc) && Progress(log, plan, pc)
    ensures ProgressMove(log, run, plan, AdvancePhases(log, leases, plan, pc, input))
  {
  }

  lemma GateProgress(log: Log, run: nat, plan: Plan, pc: Pc, input: Input)
    requires AtGate(pc) && pc.i < |plan.phases| && Progress(log, plan, pc)
    ensures ProgressMove(log, run, plan, AdvanceApproval(log, plan, pc, input))
  {
  }

  lemma RunProgress(hash: Hash, log: Log, run: nat, leases: map<Scope, nat>, plan: Plan, pc: Pc, input: Input)
    requires Progress(log, plan, pc) && Attempt(log, run, plan, pc)
    ensures ProgressMove(log, run, plan, AdvanceRun(hash, log, leases, plan, pc, input))
  {
    if AtEffect(plan, pc) {
      if Reconciling(pc.step) {
        ReconcileProgress(log, run, plan, pc, input);
      } else if Invoking(pc.step) {
        InvokeProgress(log, run, plan, pc, input);
      } else {
        DecideProgress(hash, log, run, plan, pc, input);
      }
    } else if AtGate(pc) {
      GateProgress(log, run, plan, pc, input);
    } else {
      PhaseProgress(log, run, leases, plan, pc, input);
    }
  }

  // ------------------------------------------------ what stands behind every call

  function PhaseIndex(pc: Pc): Option<nat> {
    match pc
    case Opening(i) => Some(i)
    case Recording(i, _, _) => Some(i)
    case _ => Inside(pc)
  }

  /** Every phase before `n` that may refuse was recorded as done by this very process. */
  predicate RefusersDone(log: Log, run: nat, plan: Plan, n: nat) {
    forall j | 0 <= j < n && j < |plan.phases| && Classify(plan.phases[j].kind) == Some(MayRefuse) ::
      exists e <- log :: e.run == run && e.what.Done? && e.what.phase == plan.phases[j].instance
  }

  /** The approval file held exactly this plan's subject when the log had `t` entries. */
  predicate ApprovedAt(log: Log, plan: Plan, t: nat) {
    && t <= |log| && BuildSubject(plan).Ok?
    && Approval(log[..t], StreamOf(JournalOf(plan))) == Some(BuildSubject(plan).value)
  }

  /** The train was active and bound to this plan's declaration when the log had `t` entries. */
  predicate BoundAt(log: Log, plan: Plan, t: nat) {
    t <= |log| && DigestHolds(log[..t], StreamOf(JournalOf(plan)), plan.declarationDigest)
  }

  predicate IsAdmitted(hash: Hash, plan: Plan, e: PublicEffect) {
    BuildSubject(plan).Ok? &&
    Admit(hash, RequestFor(plan, e), e, MaterialFor(plan, e), BuildSubject(plan).value).Ok?
  }

  predicate PastAdmission(step: Step) { step.Verifying? || step.Counting? || step.Writing? || step.Calling? }

  predicate PastBinding(step: Step) { step.Counting? || step.Writing? || step.Calling? }

  predicate Vetted(hash: Hash, log: Log, plan: Plan, pc: Pc)
    requires AtEffect(plan, pc)
  {
    && ApprovedAt(log, plan, pc.approvedAt)
    && (PastAdmission(pc.step) ==> IsAdmitted(hash, plan, Effect(plan, pc)))
    && (PastBinding(pc.step) ==> pc.approvedAt <= pc.step.boundAt && BoundAt(log, plan, pc.step.boundAt))
  }

  predicate Track(hash: Hash, log: Log, run: nat, plan: Plan, pc: Pc) {
    && (PhaseIndex(pc).Some? ==> Ordered(plan.phases) && RefusersDone(log, run, plan, PhaseIndex(pc).value))
    && (AtEffect(plan, pc) ==> Vetted(hash, log, plan, pc))
  }

  /** A call made after `before`: approved, bound, admitted, and behind every refusal. */
  predicate CallIsVetted(hash: Hash, before: Log, run: nat, plan: Plan, what: What) {
    what.Called? ==>
      && ApprovedAt(before, plan, what.approvedAt) && what.approvedAt <= what.boundAt
      && BoundAt(before, plan, what.boundAt)
      && RefusersDone(before, run, plan, |plan.phases|)
      && exists e <- plan.publicEffects :: KeyOf(RequestFor(plan, e)) == what.key && IsAdmitted(hash, plan, e)
  }

  lemma PrefixStays(log: Log, e: Event, t: nat)
    requires t <= |log|
    ensures (log + [e])[..t] == log[..t]
  {
  }

  lemma TrackSurvives(hash: Hash, log: Log, e: Event, run: nat, plan: Plan, pc: Pc)
    requires Track(hash, log, run, plan, pc)
    ensures Track(hash, log + [e], run, plan, pc)
  {
    if PhaseIndex(pc).Some? { RefusersGrow(log, e, run, plan, PhaseIndex(pc).value); }
    if AtEffect(plan, pc) {
      PrefixStays(log, e, pc.approvedAt);
      if PastBinding(pc.step) { PrefixStays(log, e, pc.step.boundAt); }
    }
  }

  lemma RefusersGrow(log: Log, e: Event, run: nat, plan: Plan, n: nat)
    requires RefusersDone(log, run, plan, n)
    ensures RefusersDone(log + [e], run, plan, n)
  {
    forall j | 0 <= j < n && j < |plan.phases| && Classify(plan.phases[j].kind) == Some(MayRefuse)
      ensures exists d <- log + [e] :: d.run == run && d.what.Done? && d.what.phase == plan.phases[j].instance
    {
      var d :| d in log && d.run == run && d.what.Done? && d.what.phase == plan.phases[j].instance;
      assert d in log + [e];
    }
  }

  /** In an ordered plan everything that may refuse lies before an irreversible phase. */
  lemma RefusersAllBefore(log: Log, run: nat, plan: Plan, i: nat)
    requires Ordered(plan.phases) && i < |plan.phases| && Classify(plan.phases[i].kind) == Some(Public)
    requires RefusersDone(log, run, plan, i)
    ensures RefusersDone(log, run, plan, |plan.phases|)
  {
  }

  predicate TrackMove(hash: Hash, log: Log, run: nat, plan: Plan, m: Move) {
    && Track(hash, Extend(log, run, StreamOf(JournalOf(plan)), m.emit), run, plan, m.pc)
    && (m.emit.Some? ==> CallIsVetted(hash, log, run, plan, m.emit.value))
  }

  /** Before its log entry is counted, a move to another step keeps the facts it already had. */
  lemma TrackThenWrite(hash: Hash, log: Log, run: nat, plan: Plan, m: Move)
    requires Track(hash, log, run, plan, m.pc)
    requires m.emit.Some? ==> CallIsVetted(hash, log, run, plan, m.emit.value)
    ensures TrackMove(hash, log, run, plan, m)
  {
    if m.emit.Some? {
      TrackSurvives(hash, log, Event(run, StreamOf(JournalOf(plan)), m.emit.value), run, plan, m.pc);
    }
  }

  lemma DecideTrack(hash: Hash, log: Log, run: nat, plan: Plan, pc: Pc, input: Input)
    requires AtEffect(plan, pc) && Track(hash, log, run, plan, pc) && !Reconciling(pc.step) && !Invoking(pc.step)
    ensures TrackMove(hash, log, run, plan, Decide(hash, log, plan, pc, input))
  {
    assert log[..|log|] == log;
    TrackThenWrite(hash, log, run, plan, Decide(hash, log, plan, pc, input));
  }

  lemma ReconcileTrack(hash: Hash, log: Log, run: nat, plan: Plan, pc: Pc, input: Input)
    requires AtEffect(plan, pc) && Track(hash, log, run, plan, pc) && Reconciling(pc.step)
    ensures TrackMove(hash, log, run, plan, Reconcile(log, plan, pc, input))
  {
    TrackThenWrite(hash, log, run, plan, Reconcile(log, plan, pc, input));
  }

  lemma CallTrack(hash: Hash, log: Log, run: nat, plan: Plan, pc: Pc)
    requires AtEffect(plan, pc) && Track(hash, log, run, plan, pc) && Progress(log, plan, pc) && pc.step.Calling?
    ensures CallIsVetted(hash, log, run, plan, Called(EffectKey(plan, pc), pc.approvedAt, pc.step.boundAt))
  {
    RefusersAllBefore(log, run, plan, pc.i);
    EffectIsPlanned(plan.publicEffects, plan.phases[pc.i].instance);
    assert Effect(plan, pc) in plan.publicEffects;
  }

  lemma InvokeKeepsTrack(hash: Hash, log: Log, run: nat, plan: Plan, pc: Pc, input: Input)
    requires AtEffect(plan, pc) && Track(hash, log, run, plan, pc) && Invoking(pc.step)
    ensures Track(hash, log, run, plan, Invoke(log, plan, pc, input).pc)
  {
  }

  lemma InvokeCalls(log: Log, plan: Plan, pc: Pc, input: Input)
    requires AtEffect(plan, pc) && Invoking(pc.step)
    ensures var m := Invoke(log, plan, pc, input);
            m.emit.Some? && m.emit.value.Called? ==>
              pc.step.Calling? && m.emit.value == Called(EffectKey(plan, pc), pc.approvedAt, pc.step.boundAt)
  {
  }

  lemma InvokeTrack(hash: Hash, log: Log, run: nat, plan: Plan, pc: Pc, input: Input)
    requires AtEffect(plan, pc) && Track(hash, log, run, plan, pc) && Progress(log, plan, pc) && Invoking(pc.step)
    ensures TrackMove(hash, log, run, plan, Invoke(log, plan, pc, input))
  {
    var m := Invoke(log, plan, pc, input);
    InvokeKeepsTrack(hash, log, run, plan, pc, input);
    InvokeCalls(log, plan, pc, input);
    if m.emit.Some? && m.emit.value.Called? { CallTrack(hash, log, run, plan, pc); }
    TrackThenWrite(hash, log, run, plan, m);
  }

  lemma GateTrack(hash: Hash, log: Log, run: nat, plan: Plan, pc: Pc, input: Input)
    requires AtGate(pc) && pc.i < |plan.phases| && Track(hash, log, run, plan, pc)
    ensures TrackMove(hash, log, run, plan, AdvanceApproval(log, plan, pc, input))
  {
    TrackThenWrite(hash, log, run, plan, AdvanceApproval(log, plan, pc, input));
  }

  lemma PhaseTrack(hash: Hash, log: Log, run: nat, leases: map<Scope, nat>, plan: Plan, pc: Pc, input: Input)
    requires !AtEffect(plan, pc) && Track(hash, log, run, plan, pc) && Progress(log, plan, pc)
    ensures TrackMove(hash, log, run, plan, AdvancePhases(log, leases, plan, pc, input))
  {
    var m := AdvancePhases(log, leases, plan, pc, input);
    if pc.Recording? {
      RecordTrack(hash, log, run, leases, plan, pc, input);
    } else if pc.Choosing? {
      ChooseTrack(hash, log, run, leases, plan, pc, input);
    } else {
      TrackThenWrite(hash, log, run, plan, m);
    }
  }

  /** The approval is seen at the very moment an effect is chosen. */
  lemma ChooseTrack(hash: Hash, log: Log, run: nat, leases: map<Scope, nat>, plan: Plan, pc: Pc, input: Input)
    requires pc.Choosing? && Track(hash, log, run, plan, pc)
    ensures TrackMove(hash, log, run, plan, AdvancePhases(log, leases, plan, pc, input))
  {
    assert log[..|log|] == log;
    TrackThenWrite(hash, log, run, plan, AdvancePhases(log, leases, plan, pc, input));
  }

  lemma RecordTrack(hash: Hash, log: Log, run: nat, leases: map<Scope, nat>, plan: Plan, pc: Pc, input: Input)
    requires pc.Recording? && Track(hash, log, run, plan, pc) && Progress(log, plan, pc)
    ensures TrackMove(hash, log, run, plan, AdvancePhases(log, leases, plan, pc, input))
  {
    var m := AdvancePhases(log, leases, plan, pc, input);
    if m.emit.Some? {
      var e := Event(run, StreamOf(JournalOf(plan)), m.emit.value);
      RefusersGrow(log, e, run, plan, pc.i);
      assert e in log + [e];
    }
  }

  lemma RunTrack(hash: Hash, log: Log, run: nat, leases: map<Scope, nat>, plan: Plan, pc: Pc, input: Input)
    requires Track(hash, log, run, plan, pc) && Progress(log, plan, pc)
    ensures TrackMove(hash, log, run, plan, AdvanceRun(hash, log, leases, plan, pc, input))
  {
    if AtEffect(plan, pc) {
      if Reconciling(pc.step) {
        ReconcileTrack(hash, log, run, plan, pc, input);
      } else if Invoking(pc.step) {
        InvokeTrack(hash, log, run, plan, pc, input);
      } else {
        DecideTrack(hash, log, run, plan, pc, input);
      }
    } else if AtGate(pc) && pc.i < |plan.phases| {
      GateTrack(hash, log, run, plan, pc, input);
    } else {
      PhaseTrack(hash, log, run, leases, plan, pc, input);
    }
  }

  // ------------------------------------------------ the invariant of the whole system

  predicate RunHolds(hash: Hash, log: Log, run: nat, t: Task) {
    match t
    case Execute(plan, pc) => Attempt(log, run, plan, pc) && Progress(log, plan, pc) && Track(hash, log, run, plan, pc)
    case Rebind(j, _, _, at) => at.Replacing? || at.Appending? ==> Event(run, StreamOf(j), Withdrawn) in log
    case _ => true
  }

  /** What each entry of the history means, given the entries before it. */
  ghost predicate EntryHolds(hash: Hash, before: Log, plan: Option<Plan>, e: Event) {
    && CompletionHolds(plan, e)
    && DoneHolds(before, plan, e.what)
    && (e.what.Called? ==>
          && plan.Some? && e.stream == StreamOf(JournalOf(plan.value))
          && CallIsVetted(hash, before, e.run, plan.value, e.what))
    && (e.what.Rebound? ==> Event(e.run, e.stream, Withdrawn) in before)
  }

  ghost predicate History(hash: Hash, log: Log, tasks: seq<Task>) {
    forall d | 0 <= d < |log| :: EntryHolds(hash, log[..d], PlanOf(tasks, log[d].run), log[d])
  }

  predicate AllHold(hash: Hash, log: Log, tasks: seq<Task>) {
    forall r | 0 <= r < |tasks| :: RunHolds(hash, log, r, tasks[r])
  }

  ghost predicate Inv(hash: Hash, w: World) {
    && LeaseInv(w.leases, w.tasks) && CallLog(w.log)
    && AllHold(hash, w.log, w.tasks) && History(hash, w.log, w.tasks)
  }

  /** Tasks change position, never their plan. */
  ghost predicate SamePlans(tasks: seq<Task>, after: seq<Task>) {
    forall r: nat :: PlanOf(tasks, r).Some? ==> PlanOf(after, r) == PlanOf(tasks, r)
  }

  lemma HistoryKept(hash: Hash, log: Log, tasks: seq<Task>, after: seq<Task>)
    requires History(hash, log, tasks) && SamePlans(tasks, after)
    ensures History(hash, log, after)
  {
    forall d | 0 <= d < |log| ensures EntryHolds(hash, log[..d], PlanOf(after, log[d].run), log[d]) {
      assert EntryHolds(hash, log[..d], PlanOf(tasks, log[d].run), log[d]);
    }
  }

  lemma HistoryGrows(hash: Hash, log: Log, tasks: seq<Task>, after: seq<Task>, e: Event)
    requires History(hash, log, tasks) && SamePlans(tasks, after)
    requires EntryHolds(hash, log, PlanOf(after, e.run), e)
    ensures History(hash, log + [e], after)
  {
    HistoryKept(hash, log, tasks, after);
    var next := log + [e];
    forall d | 0 <= d < |next| ensures EntryHolds(hash, next[..d], PlanOf(after, next[d].run), next[d]) {
      if d < |log| {
        PrefixStays(log, e, d);
        assert EntryHolds(hash, log[..d], PlanOf(after, log[d].run), log[d]);
      } else {
        assert next[..d] == log;
      }
    }
  }

  lemma {:induction false} FoundInAll(outs: seq<Outcome>)
    requires NoWaiting(outs)
    ensures |FoundIn(outs)| == |outs| && forall m | 0 <= m < |outs| :: FoundIn(outs)[m] == outs[m].found
  {
    if outs != [] {
      assert outs[0] in outs && forall o <- outs[1..] :: o in outs;
      FoundInAll(outs[1..]);
    }
  }

  /** Outcomes without a wait make one piece of evidence per effect. */
  lemma EvidenceForAll(log: Log, plan: Plan, i: nat, outs: seq<Outcome>)
    requires OutcomesHold(log, plan, i, outs, None) && NoWaiting(outs) && |outs| == |PhaseEffectList(plan, i)|
    ensures |FoundIn(outs)| == |outs|
    ensures forall m | 0 <= m < |outs| ::
              Matches(plan, PhaseEffectList(plan, i)[m], FoundIn(outs)[m]) &&
              Settled(log, StreamOf(JournalOf(plan)), KeyNumber(plan, i, m))
  {
    FoundInAll(outs);
    forall m | 0 <= m < |outs|
      ensures Matches(plan, PhaseEffectList(plan, i)[m], FoundIn(outs)[m]) &&
              Settled(log, StreamOf(JournalOf(plan)), KeyNumber(plan, i, m))
    {
      assert OutcomeHolds(log, plan, i, outs, m, None) && outs[m] in outs;
    }
  }

  lemma DoneIsEarned(log: Log, leases: map<Scope, nat>, plan: Plan, pc: Pc, input: Input)
    requires pc.Recording? && Progress(log, plan, pc)
    ensures var m := AdvancePhases(log, leases, plan, pc, input);
            m.emit.Some? ==> DoneHolds(log, Some(plan), m.emit.value)
  {
    var m := AdvancePhases(log, leases, plan, pc, input);
    if m.emit.Some? {
      if Classify(plan.phases[pc.i].kind) == Some(Public) {
        EvidenceForAll(log, plan, pc.i, pc.outs);
        NilConcat(FoundIn(pc.outs));
      }
      assert DoneFor(log, plan, pc.i, m.emit.value);
    }
  }

  /** Only the recording of a phase writes `PhaseDone`; only a rebind writes a rebinding. */
  lemma RunDone(hash: Hash, log: Log, leases: map<Scope, nat>, plan: Plan, pc: Pc, input: Input)
    requires Progress(log, plan, pc)
    ensures var m := AdvanceRun(hash, log, leases, plan, pc, input);
            m.emit.Some? ==> DoneHolds(log, Some(plan), m.emit.value) && !m.emit.value.Rebound?
  {
    if AtEffect(plan, pc) {
    } else if AtGate(pc) {
    } else if pc.Recording? {
      DoneIsEarned(log, leases, plan, pc, input);
    } else {
    }
  }

  // ---- others stay as they were

  lemma SameTrainSameRun(leases: map<Scope, nat>, tasks: seq<Task>, a: nat, b: nat)
    requires LeaseInv(leases, tasks) && a < |tasks| && b < |tasks| && tasks[a].Execute? && tasks[b].Execute?
    requires HoldsTrain(tasks[a].pc) && HoldsTrain(tasks[b].pc)
    requires tasks[a].plan.repository == tasks[b].plan.repository && tasks[a].plan.train == tasks[b].plan.train
    ensures a == b
  {
    assert Leased(leases, a, tasks[a]) && Leased(leases, b, tasks[b]);
  }

  lemma OtherHolds(hash: Hash, w: World, run: nat, m: Move, r: nat)
    requires Inv(hash, w) && run < |w.tasks| && w.tasks[run].Execute? && r < |w.tasks| && r != run
    requires AttemptMove(w.log, run, w.tasks[run].plan, w.tasks[run].pc, m) && m.emit.Some?
    ensures RunHolds(hash, w.log + [Event(run, StreamOf(JournalOf(w.tasks[run].plan)), m.emit.value)], r, w.tasks[r])
  {
    var t, u := w.tasks[run], w.tasks[r];
    var e := Event(run, StreamOf(JournalOf(t.plan)), m.emit.value);
    assert RunHolds(hash, w.log, r, u) && RunHolds(hash, w.log, run, t);
    if u.Execute? {
      AttemptsHold(hash, w.log, w.tasks);
      OtherKeepsAttempt(w, run, m, r);
      TrackSurvives(hash, w.log, e, r, u.plan, u.pc);
      if HoldsTrain(u.pc) {
        if e.what.Intended? && e.stream == StreamOf(JournalOf(u.plan)) && t.plan.train == u.plan.train {
          SameTrainSameRun(w.leases, w.tasks, run, r);
        }
        ProgressSurvives(w.log, e, u.plan, u.pc);
      }
    }
  }

  lemma AttemptsHold(hash: Hash, log: Log, tasks: seq<Task>)
    requires AllHold(hash, log, tasks)
    ensures AllAttempts(log, tasks)
  {
    forall r | 0 <= r < |tasks| && tasks[r].Execute? ensures Attempt(log, r, tasks[r].plan, tasks[r].pc) {
      assert RunHolds(hash, log, r, tasks[r]);
    }
  }

  lemma NoEffectEvent(hash: Hash, log: Log, e: Event, run: nat, t: Task)
    requires RunHolds(hash, log, run, t) && !e.what.Intended? && !e.what.Called?
    ensures RunHolds(hash, log + [e], run, t)
  {
    if t.Execute? {
      AttemptSurvives(log, e, run, t.plan, t.pc);
      ProgressSurvives(log, e, t.plan, t.pc);
      TrackSurvives(hash, log, e, run, t.plan, t.pc);
    }
  }

  // ---- the three kinds of action

  lemma RunKeepsInv(hash: Hash, w: World, run: nat, input: Input)
    requires Inv(hash, w) && run < |w.tasks| && w.tasks[run].Execute?
    ensures Inv(hash, Act(hash, w, Advance(run, input)))
  {
    var t := w.tasks[run];
    var m := AdvanceRun(hash, w.log, w.leases, t.plan, t.pc, input);
    assert RunHolds(hash, w.log, run, t);
    LeasesKept(hash, w, Advance(run, input));
    RunAttemptMove(hash, w.log, w.leases, run, t.plan, t.pc, input);
    RunProgress(hash, w.log, run, w.leases, t.plan, t.pc, input);
    RunTrack(hash, w.log, run, w.leases, t.plan, t.pc, input);
    RunDone(hash, w.log, w.leases, t.plan, t.pc, input);
    MoveKeepsRuns(hash, w, run, m);
    MoveKeepsHistory(hash, w, run, m);
  }

  /** What the lemmas on single steps say of a move. */
  ghost predicate MoveHolds(hash: Hash, log: Log, run: nat, t: Task, m: Move)
    requires t.Execute?
  {
    && AttemptMove(log, run, t.plan, t.pc, m) && ProgressMove(log, run, t.plan, m)
    && TrackMove(hash, log, run, t.plan, m)
    && (m.emit.Some? ==> DoneHolds(log, Some(t.plan), m.emit.value) && !m.emit.value.Rebound?)
  }

  lemma MoveKeepsRuns(hash: Hash, w: World, run: nat, m: Move)
    requires Inv(hash, w) && run < |w.tasks| && w.tasks[run].Execute? && MoveHolds(hash, w.log, run, w.tasks[run], m)
    ensures var next := ApplyMove(w, run, m); AllHold(hash, next.log, next.tasks)
  {
    var next := ApplyMove(w, run, m);
    AttemptsHold(hash, w.log, w.tasks);
    CallsKeptByMove(w, run, m);
    assert Attempt(next.log, run, next.tasks[run].plan, next.tasks[run].pc);
    forall r | 0 <= r < |next.tasks| ensures RunHolds(hash, next.log, r, next.tasks[r]) {
      if r != run {
        assert RunHolds(hash, w.log, r, w.tasks[r]);
        if m.emit.Some? { OtherHolds(hash, w, run, m, r); }
      }
    }
  }

  lemma MoveKeepsHistory(hash: Hash, w: World, run: nat, m: Move)
    requires Inv(hash, w) && run < |w.tasks| && w.tasks[run].Execute? && MoveHolds(hash, w.log, run, w.tasks[run], m)
    ensures var next := ApplyMove(w, run, m); CallLog(next.log) && History(hash, next.log, next.tasks)
  {
    var t, next := w.tasks[run], ApplyMove(w, run, m);
    AttemptsHold(hash, w.log, w.tasks);
    CallsKeptByMove(w, run, m);
    if m.emit.Some? {
      HistoryGrows(hash, w.log, w.tasks, next.tasks, Event(run, StreamOf(JournalOf(t.plan)), m.emit.value));
    } else {
      HistoryKept(hash, w.log, w.tasks, next.tasks);
    }
  }

  lemma CeremonyKeepsInv(hash: Hash, w: World, run: nat, d: Deed)
    requires Inv(hash, w) && run < |w.tasks| && !w.tasks[run].Execute? && !d.task.Execute?
    requires d.emit.Some? ==>
               && (d.emit.value.Withdrawn? || d.emit.value.Rebound? || d.emit.value.Terminalized? ||
                   d.emit.value.Pinned?)
               && (d.emit.value.Rebound? ==> Event(run, StreamOf(TaskJournal(w.tasks[run])), Withdrawn) in w.log)
    requires RunHolds(hash, Extend(w.log, run, StreamOf(TaskJournal(w.tasks[run])), d.emit), run, d.task)
    ensures var next := ApplyDeed(w, run, d);
            CallLog(next.log) && AllHold(hash, next.log, next.tasks) && History(hash, next.log, next.tasks)
  {
    var next := ApplyDeed(w, run, d);
    if d.emit.Some? {
      var e := Event(run, StreamOf(TaskJournal(w.tasks[run])), d.emit.value);
      CallLogGrows(w.log, e);
      HistoryGrows(hash, w.log, w.tasks, next.tasks, e);
      forall r | 0 <= r < |next.tasks| ensures RunHolds(hash, next.log, r, next.tasks[r]) {
        if r != run {
          assert RunHolds(hash, w.log, r, w.tasks[r]);
          NoEffectEvent(hash, w.log, e, r, w.tasks[r]);
        }
      }
    } else {
      HistoryKept(hash, w.log, w.tasks, next.tasks);
      forall r | 0 <= r < |next.tasks| ensures RunHolds(hash, next.log, r, next.tasks[r]) {
        if r != run { assert RunHolds(hash, w.log, r, w.tasks[r]); }
      }
    }
  }

  lemma CeremonyMoves(hash: Hash, w: World, run: nat, ok: bool)
    requires Inv(hash, w) && run < |w.tasks| && !w.tasks[run].Execute?
    ensures var d := AdvanceCeremony(w.log, w.tasks[run], ok); var next := ApplyDeed(w, run, d);
            CallLog(next.log) && AllHold(hash, next.log, next.tasks) && History(hash, next.log, next.tasks)
  {
    assert RunHolds(hash, w.log, run, w.tasks[run]);
    CeremonyKeepsInv(hash, w, run, AdvanceCeremony(w.log, w.tasks[run], ok));
  }

  lemma OtherActionsKeepInv(hash: Hash, w: World, tasks: seq<Task>, leases: map<Scope, nat>)
    requires Inv(hash, w) && LeaseInv(leases, tasks) && SamePlans(w.tasks, tasks)
    requires forall r | 0 <= r < |tasks| ::
               (r < |w.tasks| && tasks[r] == w.tasks[r]) || Fresh(tasks[r]) || tasks[r] == Stopped(tasks[r])
    ensures Inv(hash, World(w.log, leases, tasks))
  {
    HistoryKept(hash, w.log, w.tasks, tasks);
    forall r | 0 <= r < |tasks| ensures RunHolds(hash, w.log, r, tasks[r]) {
      if r < |w.tasks| { assert RunHolds(hash, w.log, r, w.tasks[r]); }
    }
  }

  lemma InvKept(hash: Hash, w: World, a: Action)
    requires Inv(hash, w)
    ensures Inv(hash, Act(hash, w, a))
  {
    LeasesKept(hash, w, a);
    var next := Act(hash, w, a);
    match a
    case Launch(task) => OtherActionsKeepInv(hash, w, next.tasks, next.leases);
    case Advance(run, input) =>
      if run < |w.tasks| {
        if w.tasks[run].Execute? { RunKeepsInv(hash, w, run, input); } else { CeremonyMoves(hash, w, run, input.ok); }
      }
    case Crash(run) => OtherActionsKeepInv(hash, w, next.tasks, next.leases);
  }

  lemma {:induction false} AlwaysInv(hash: Hash, actions: seq<Action>)
    ensures Inv(hash, After(hash, actions))
  {
    if actions != [] {
      AlwaysInv(hash, actions[..|actions| - 1]);
      InvKept(hash, After(hash, actions[..|actions| - 1]), actions[|actions| - 1]);
    }
  }

  // ------------------------------------------------ theorems over every run

  /**
   Over every interleaving of processes, reruns, rebinds, abandonments and crashes
   the executor is called at most once for an effect of a repository.
   */
  lemma CalledAtMostOnce(hash: Hash, actions: seq<Action>, i: nat, j: nat)
    requires var log := After(hash, actions).log;
             && i < |log| && j < |log| && log[i].what.Called? && log[j].what.Called?
             && log[i].stream.repository == log[j].stream.repository && log[i].what.key == log[j].what.key
    ensures i == j
  {
    AlwaysInv(hash, actions);
    var log := After(hash, actions).log;
    assert log[i] in log && log[j] in log;
    assert Homed(log[i]) && Homed(log[j]);
    assert Calls(log[j], log[i].stream, log[i].what.key) && Calls(log[i], log[j].stream, log[j].what.key);
  }

  /** A call follows an intent of the same process; it was approved, bound, admitted, and nothing could still refuse. */
  lemma EveryCallIsVetted(hash: Hash, actions: seq<Action>, c: nat)
    requires c < |After(hash, actions).log| && After(hash, actions).log[c].what.Called?
    ensures var w := After(hash, actions);
            && PlanOf(w.tasks, w.log[c].run).Some?
            && w.log[c].stream == StreamOf(JournalOf(PlanOf(w.tasks, w.log[c].run).value))
            && CallIsVetted(hash, w.log[..c], w.log[c].run, PlanOf(w.tasks, w.log[c].run).value, w.log[c].what)
            && Behind(w.log, c)
  {
    AlwaysInv(hash, actions);
    var w := After(hash, actions);
    assert EntryHolds(hash, w.log[..c], PlanOf(w.tasks, w.log[c].run), w.log[c]);
  }

  /** Every completion carries the identity its plan expects for that effect. */
  lemma CompletionsAreTruthful(hash: Hash, actions: seq<Action>, d: nat)
    requires d < |After(hash, actions).log| && After(hash, actions).log[d].what.Completed?
    ensures var w := After(hash, actions); CompletionHolds(PlanOf(w.tasks, w.log[d].run), w.log[d])
  {
    AlwaysInv(hash, actions);
    var w := After(hash, actions);
    assert EntryHolds(hash, w.log[..d], PlanOf(w.tasks, w.log[d].run), w.log[d]);
  }

  /** `PhaseDone` is never written early. */
  lemma DoneIsTruthful(hash: Hash, actions: seq<Action>, d: nat)
    requires d < |After(hash, actions).log| && After(hash, actions).log[d].what.Done?
    ensures var w := After(hash, actions); DoneHolds(w.log[..d], PlanOf(w.tasks, w.log[d].run), w.log[d].what)
  {
    AlwaysInv(hash, actions);
    var w := After(hash, actions);
    assert EntryHolds(hash, w.log[..d], PlanOf(w.tasks, w.log[d].run), w.log[d]);
  }

  /** The working tree of a repository has one writer. */
  lemma OneTreeMutation(hash: Hash, actions: seq<Action>, a: nat, b: nat)
    requires var w := After(hash, actions);
             && a < |w.tasks| && b < |w.tasks| && w.tasks[a].Execute? && w.tasks[b].Execute?
             && w.tasks[a].plan.repository == w.tasks[b].plan.repository
             && MutatesTree(w.tasks[a].plan, w.tasks[a].pc) && MutatesTree(w.tasks[b].plan, w.tasks[b].pc)
    ensures a == b
  {
    AlwaysInv(hash, actions);
    TreeMutationsExclude(After(hash, actions), a, b);
  }

  predicate BindsTo(e: Event, s: Stream, b: Binding) {
    e.stream == s && ((e.what.Pinned? && e.what.binding == b) || (e.what.Rebound? && e.what.replacement == b))
  }

  predicate Unbinding(e: Event, s: Stream) { e.stream != s || (!e.what.Pinned? && !e.what.Rebound?) }

  /** What a train is bound to is what its latest pin or rebinding says. */
  lemma {:induction false} BoundIsLatest(log: Log, s: Stream, t: nat)
    requires t <= |log|
    ensures Bound(log[..t], s).None? <==> forall j | 0 <= j < t :: Unbinding(log[j], s)
    ensures Bound(log[..t], s).Some? ==>
              exists k | 0 <= k < t ::
                BindsTo(log[k], s, Bound(log[..t], s).value) && forall j | k < j < t :: Unbinding(log[j], s)
    decreases t
  {
    if t > 0 {
      assert log[..t][|log[..t]| - 1] == log[t - 1] && log[..t][..t - 1] == log[..t - 1];
      BoundIsLatest(log, s, t - 1);
      if Unbinding(log[t - 1], s) && Bound(log[..t - 1], s).Some? {
        var k :| 0 <= k < t - 1 && BindsTo(log[k], s, Bound(log[..t - 1], s).value) &&
                 forall j | k < j < t - 1 :: Unbinding(log[j], s);
        assert forall j | k < j < t :: Unbinding(log[j], s);
      }
    }
  }

  /**
   Behind every call the train's latest pin or rebinding at the recheck carries the
   digest of the caller's plan, and nothing had ended the train.
   */
  lemma CallsFollowTheBinding(hash: Hash, actions: seq<Action>, c: nat)
    requires c < |After(hash, actions).log| && After(hash, actions).log[c].what.Called?
    ensures var w := After(hash, actions);
            var s, t := w.log[c].stream, w.log[c].what.boundAt;
            && PlanOf(w.tasks, w.log[c].run).Some? && t <= c
            && (forall j | 0 <= j < t && w.log[j].stream == s :: !w.log[j].what.Terminalized?)
            && exists k, b: Binding | 0 <= k < t ::
                 && BindsTo(w.log[k], s, b) && b.digest == PlanOf(w.tasks, w.log[c].run).value.declarationDigest
                 && forall j | k < j < t :: Unbinding(w.log[j], s)
  {
    EveryCallIsVetted(hash, actions, c);
    var w := After(hash, actions);
    var s, t := w.log[c].stream, w.log[c].what.boundAt;
    assert w.log[..c][..t] == w.log[..t];
    BoundIsLatest(w.log, s, t);
    var b := Bound(w.log[..t], s).value;
    var k :| 0 <= k < t && BindsTo(w.log[k], s, b) && forall j | k < j < t :: Unbinding(w.log[j], s);
    forall j | 0 <= j < t && w.log[j].stream == s ensures !w.log[j].what.Terminalized? {
      assert w.log[..t][j] in w.log[..t];
    }
  }

  /** A removed approval stays removed: whatever is current later was confirmed later. */
  lemma {:induction false} WithdrawalIsFinal(log: Log, s: Stream, w: nat, t: nat)
    requires w < t <= |log| && log[w].stream == s && log[w].what.Withdrawn?
    requires Approval(log[..t], s).Some?
    ensures exists p | w < p < t :: log[p].stream == s && log[p].what == Confirmed(Approval(log[..t], s).value)
    decreases t
  {
    var last := log[t - 1];
    assert log[..t][|log[..t]| - 1] == last && log[..t][..t - 1] == log[..t - 1];
    if !(last.stream == s && last.what.Confirmed?) {
      WithdrawalIsFinal(log, s, w, t - 1);
    }
  }

  /**
   A rebinding is preceded by its own withdrawal, and no call checked after that
   withdrawal, even if the rebind crashed before it was recorded, uses an approval
   confirmed before it.
   */
  lemma RebindLeavesNoApproval(hash: Hash, actions: seq<Action>, w: nat, c: nat)
    requires var log := After(hash, actions).log;
             && w < |log| && c < |log| && log[w].what.Withdrawn? && log[c].what.Called?
             && log[w].stream == log[c].stream && w < log[c].what.approvedAt
    ensures var log := After(hash, actions).log;
            var plan := PlanOf(After(hash, actions).tasks, log[c].run);
            && plan.Some? && BuildSubject(plan.value).Ok? && log[c].what.approvedAt <= c
            && exists p | w < p < log[c].what.approvedAt ::
                 log[p].stream == log[w].stream && log[p].what == Confirmed(BuildSubject(plan.value).value)
  {
    EveryCallIsVetted(hash, actions, c);
    var log := After(hash, actions).log;
    var t := log[c].what.approvedAt;
    assert log[..c][..t] == log[..t];
    WithdrawalIsFinal(log, log[w].stream, w, t);
  }

  lemma RebindWithdrawsFirst(hash: Hash, actions: seq<Action>, d: nat)
    requires d < |After(hash, actions).log| && After(hash, actions).log[d].what.Rebound?
    ensures var log := After(hash, actions).log;
            exists w | 0 <= w < d :: log[w] == Event(log[d].run, log[d].stream, Withdrawn)
  {
    AlwaysInv(hash, actions);
    var w := After(hash, actions);
    assert EntryHolds(hash, w.log[..d], PlanOf(w.tasks, w.log[d].run), w.log[d]);
    var k :| 0 <= k < d && w.log[..d][k] == Event(w.log[d].run, w.log[d].stream, Withdrawn);
    assert w.log[k] == w.log[..d][k];
  }
}
