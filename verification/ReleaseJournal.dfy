/**
 The shape of the shared history: how intents are numbered, what the approval file
 holds, what the operator's ceremonies record, and that failed steps and crashed
 processes record nothing.
 */
module ReleaseJournal {
  import opened Admission
  import opened ReleaseMachine
  import opened ReleasePlan
  import opened ReleaseSafety
  import opened Wrappers

  // ------------------------------------------------ the approval file

  predicate Approves(e: Event, s: Stream) { e.stream == s && (e.what.Confirmed? || e.what.Withdrawn?) }

  /** The approval file holds what the latest confirmation or removal left. */
  lemma {:induction false} ApprovalIsLatest(log: Log, s: Stream)
    ensures (forall j | 0 <= j < |log| :: !Approves(log[j], s)) ==> Approval(log, s) == None
    ensures forall k | 0 <= k < |log| && Approves(log[k], s) && (forall j | k < j < |log| :: !Approves(log[j], s)) ::
              Approval(log, s) == if log[k].what.Confirmed? then Some(log[k].what.subject) else None
  {
    if log != [] {
      var n := |log| - 1;
      ApprovalIsLatest(log[..n], s);
      assert forall j | 0 <= j < n :: log[..n][j] == log[j];
      forall k | 0 <= k < |log| && Approves(log[k], s) && (forall j | k < j < |log| :: !Approves(log[j], s))
        ensures Approval(log, s) == if log[k].what.Confirmed? then Some(log[k].what.subject) else None
      {
        if k < n { assert log[..n][k] == log[k] && !Approves(log[n], s); }
      }
    }
  }

  // ------------------------------------------------ the registry's refusal

  /** Phase `k` is of an unknown kind, or may refuse although a public phase stands in front of it. */
  predicate Breaks(phases: seq<PlannedPhase>, k: nat, afterPublic: bool)
    requires k < |phases|
  {
    || Classify(phases[k].kind).None?
    || (Classify(phases[k].kind) == Some(MayRefuse) &&
        (afterPublic || exists j | 0 <= j < k :: Classify(phases[j].kind) == Some(Public)))
  }

  lemma BreaksLater(phases: seq<PlannedPhase>, k: nat, afterPublic: bool)
    requires k + 1 < |phases|
    ensures Breaks(phases, k + 1, afterPublic) <==>
            Breaks(phases[1..], k, afterPublic || Classify(phases[0].kind) == Some(Public))
  {
    var rest := phases[1..];
    assert forall j | 0 <= j < |rest| :: rest[j] == phases[j + 1];
    if exists j | 0 <= j < k + 1 :: Classify(phases[j].kind) == Some(Public) {
      var j :| 0 <= j < k + 1 && Classify(phases[j].kind) == Some(Public);
      if j > 0 { assert Classify(rest[j - 1].kind) == Some(Public); }
    } else {
      assert forall j | 0 <= j < k :: Classify(rest[j].kind) != Some(Public);
    }
  }

  /** The refusal of an unordered plan names its first offending phase. */
  lemma {:induction false} OffenderIsFirst(phases: seq<PlannedPhase>, k: nat, afterPublic: bool)
    requires k < |phases| && Breaks(phases, k, afterPublic)
    requires forall j | 0 <= j < k :: !Breaks(phases, j, afterPublic)
    ensures Offender(phases, afterPublic) == phases[k].instance
    decreases k
  {
    if k > 0 {
      assert !Breaks(phases, 0, afterPublic);
      var rest, public := phases[1..], afterPublic || Classify(phases[0].kind) == Some(Public);
      BreaksLater(phases, k - 1, afterPublic);
      forall j | 0 <= j < k - 1 ensures !Breaks(rest, j, public) {
        BreaksLater(phases, j, afterPublic);
        assert !Breaks(phases, j + 1, afterPublic);
      }
      OffenderIsFirst(rest, k - 1, public);
    }
  }

  // ------------------------------------------------ failures and crashes

  /** A failed step records nothing but the executor call itself, takes no lease, and ends the phase or the process. */
  lemma FailedStepStops(hash: Hash, log: Log, leases: map<Scope, nat>, plan: Plan, pc: Pc, input: Input)
    requires !input.ok
    ensures var m := AdvanceRun(hash, log, leases, plan, pc, input);
            && (m.emit.None? || (m.emit.value.Called? && m.pc.At? && m.pc.step.Finishing? && m.pc.step.returned.None?))
            && !m.lease.TakeTrain? && !m.lease.TakeRepository?
            && (AtEffect(plan, pc) && !pc.step.Calling? ==> m == Fail(plan.phases[pc.i]))
            && (AtGate(pc) ==> m.pc.Refusing? || m.pc.Halted?)
            && (pc.Running? || pc.Choosing? ==> m.pc.Refusing? || m.pc.Halted? || m.pc.Leaving?)
            && (pc.Leaving? && pc.i < |plan.phases| ==> (m.pc.Refusing? <==> Mutating(plan, pc.i)))
            && (pc.Starting? || pc.Leasing? || pc.Entering? || pc.Recording? || pc.Refusing? ==> m.pc.Halted?)
  {
  }

  /** A crash records nothing, and neither does the next move of the crashed process, whatever it is told. */
  lemma CrashWritesNothing(hash: Hash, w: World, run: nat, input: Input)
    ensures Act(hash, Act(hash, w, Crash(run)), Advance(run, input)).log == w.log
  {
  }

  /** A process that was just launched records nothing with its first move. */
  lemma FirstMoveIsSilent(hash: Hash, w: World, task: Task, input: Input)
    requires Act(hash, w, Launch(task)).tasks != w.tasks
    ensures Act(hash, Act(hash, w, Launch(task)), Advance(|w.tasks|, input)).log == w.log
  {
  }

  // ------------------------------------------------ the operator's ceremonies

  datatype Standing = Standing(log: Log, task: Task)

  /** `n` successful moves of a ceremony that nobody interrupts. */
  function Deeds(run: nat, s: Standing, n: nat): Standing
    requires !s.task.Execute?
    decreases n
  {
    if n == 0 then s
    else
      var d := AdvanceCeremony(s.log, s.task, true);
      Deeds(run, Standing(Extend(s.log, run, StreamOf(TaskJournal(s.task)), d.emit), d.task), n - 1)
  }

  lemma DeedOn(run: nat, s: Standing, n: nat)
    requires !s.task.Execute? && n > 0
    ensures var d := AdvanceCeremony(s.log, s.task, true);
            Deeds(run, s, n) ==
            Deeds(run, Standing(Extend(s.log, run, StreamOf(TaskJournal(s.task)), d.emit), d.task), n - 1)
  {
  }

  /** A pin binds a train that is neither bound nor ended, and otherwise records nothing. */
  lemma PinRuns(log: Log, run: nat, j: Journal, binding: Binding)
    ensures var s := StreamOf(j);
            Deeds(run, Standing(log, Pin(j, binding, false)), 2) ==
            Standing(if !Terminal(log, s) && Bound(log, s).None? then log + [Event(run, s, Pinned(binding))] else log,
                     Pin(j, binding, false))
  {
    var free := !Terminal(log, StreamOf(j)) && Bound(log, StreamOf(j)).None?;
    DeedOn(run, Standing(log, Pin(j, binding, false)), 2);
    DeedOn(run, Standing(log, Pin(j, binding, free)), 1);
  }

  /** An abandonment ends a train that is bound and not ended yet, and otherwise records nothing. */
  lemma AbandonRuns(log: Log, run: nat, j: Journal)
    ensures var s := StreamOf(j);
            Deeds(run, Standing(log, Abandon(j, false)), 2) ==
            Standing(if !Terminal(log, s) && Bound(log, s).Some? then log + [Event(run, s, Terminalized)] else log,
                     Abandon(j, false))
  {
    var open := !Terminal(log, StreamOf(j)) && Bound(log, StreamOf(j)).Some?;
    DeedOn(run, Standing(log, Abandon(j, false)), 2);
    DeedOn(run, Standing(log, Abandon(j, open)), 1);
  }

  lemma RemovalKeepsBinding(log: Log, run: nat, s: Stream)
    ensures Bound(log + [Event(run, s, Withdrawn)], s) == Bound(log, s)
    ensures Terminal(log + [Event(run, s, Withdrawn)], s) == Terminal(log, s)
  {
    var after := log + [Event(run, s, Withdrawn)];
    assert after[..|log|] == log;
    assert forall e :: e in after <==> e in log || e == Event(run, s, Withdrawn);
  }

  /**
   A rebinding removes the approval and then records the replacement, exactly when
   the train is active and bound to what was reviewed; a replacement with the same
   digest is not recorded.
   */
  lemma RebindRuns(log: Log, run: nat, j: Journal, pinned: Binding, replacement: Binding)
    ensures var s := StreamOf(j);
            var removed := log + [Event(run, s, Withdrawn)];
            Deeds(run, Standing(log, Rebind(j, pinned, replacement, Reviewed)), 4) ==
            Standing(if Terminal(log, s) || Bound(log, s) != Some(pinned) then log
                     else if pinned.digest == replacement.digest then removed
                     else removed + [Event(run, s, Rebound(pinned.digest, replacement))],
                     Rebind(j, pinned, replacement, Finished))
  {
    var s, task := StreamOf(j), Rebind(j, pinned, replacement, Reviewed);
    var removed := log + [Event(run, s, Withdrawn)];
    DeedOn(run, Standing(log, task), 4);
    if Terminal(log, s) || Bound(log, s) != Some(pinned) {
      FinishedStays(run, Standing(log, task.(at := Finished)), 3);
    } else {
      DeedOn(run, Standing(log, task.(at := Invalidating)), 3);
      RemovalKeepsBinding(log, run, s);
      DeedOn(run, Standing(removed, task.(at := Replacing)), 2);
      if pinned.digest == replacement.digest {
        FinishedStays(run, Standing(removed, task.(at := Finished)), 1);
      } else {
        DeedOn(run, Standing(removed, task.(at := Appending)), 1);
      }
    }
  }

  lemma {:induction false} FinishedStays(run: nat, s: Standing, n: nat)
    requires s.task.Rebind? && s.task.at.Finished?
    ensures Deeds(run, s, n) == s
    decreases n
  {
    if n > 0 { FinishedStays(run, s, n - 1); }
  }

  // ------------------------------------------------ the numbers of intents

  predicate IntendsFor(e: Event, s: Stream, train: string) {
    e.stream == s && e.what.Intended? && e.what.intent.key.train == train
  }

  /** A number is at most one more than the intents in front of it, and within a train later ones are higher. */
  predicate Numbered(log: Log) {
    && (forall c | 0 <= c < |log| && log[c].what.Intended? ::
          log[c].what.intent.sequence <= |Intents(log[..c], log[c].stream)| + 1)
    && (forall c, d | 0 <= c < d < |log| && log[c].what.Intended? &&
          IntendsFor(log[d], log[c].stream, log[c].what.intent.key.train) ::
          log[c].what.intent.sequence < log[d].what.intent.sequence)
  }

  predicate AboutToWrite(t: Task) {
    t.Execute? && AtEffect(t.plan, t.pc) && t.pc.step.Writing?
  }

  /** The number counts the first `k` entries, behind which the train wrote no intent. */
  predicate CountedAt(log: Log, s: Stream, train: string, sequence: nat, k: nat) {
    && k <= |log| && sequence == |Intents(log[..k], s)| + 1
    && forall j | k <= j < |log| :: !IntendsFor(log[j], s, train)
  }

  /** A process about to write holds a number above all of its train's. */
  ghost predicate InHand(log: Log, t: Task) {
    AboutToWrite(t) ==>
      exists k: nat :: CountedAt(log, StreamOf(JournalOf(t.plan)), t.plan.train, t.pc.step.sequence, k)
  }

  ghost predicate AllInHand(log: Log, tasks: seq<Task>) { forall r | 0 <= r < |tasks| :: InHand(log, tasks[r]) }

  lemma IntentsGrow(log: Log, e: Event, s: Stream)
    ensures Intents(log + [e], s) ==
            Intents(log, s) + if e.stream == s && e.what.Intended? then [e.what.intent] else []
  {
    assert (log + [e])[..|log|] == log;
  }

  lemma {:induction false} IntentsOnlyGrow(log: Log, s: Stream, c: nat, d: nat)
    requires c <= d <= |log|
    ensures |Intents(log[..c], s)| <= |Intents(log[..d], s)|
    decreases d
  {
    if c < d {
      IntentsOnlyGrow(log, s, c, d - 1);
      assert log[..d] == log[..d - 1] + [log[d - 1]];
      IntentsGrow(log[..d - 1], log[d - 1], s);
    }
  }

  /** A number in hand is above every number its train has written. */
  lemma InHandIsHigher(log: Log, s: Stream, train: string, sequence: nat, k: nat, c: nat)
    requires Numbered(log) && CountedAt(log, s, train, sequence, k) && c < |log| && IntendsFor(log[c], s, train)
    ensures log[c].what.intent.sequence < sequence <= |Intents(log, s)| + 1
  {
    assert c < k;
    assert log[..c + 1] == log[..c] + [log[c]];
    IntentsGrow(log[..c], log[c], s);
    IntentsOnlyGrow(log, s, c + 1, k);
    IntentsOnlyGrow(log, s, k, |log|);
    assert log[..|log|] == log;
  }

  lemma QuietStaysNumbered(log: Log, e: Event)
    requires Numbered(log) && !e.what.Intended?
    ensures Numbered(log + [e])
  {
    assert forall c | 0 <= c < |log| :: (log + [e])[..c] == log[..c];
  }

  lemma IntentStaysNumbered(log: Log, e: Event, k: nat)
    requires Numbered(log) && e.what.Intended?
    requires CountedAt(log, e.stream, e.what.intent.key.train, e.what.intent.sequence, k)
    ensures Numbered(log + [e])
  {
    var after := log + [e];
    IntentsOnlyGrow(log, e.stream, k, |log|);
    assert log[..|log|] == log;
    forall c | 0 <= c < |after| && after[c].what.Intended?
      ensures after[c].what.intent.sequence <= |Intents(after[..c], after[c].stream)| + 1
    {
      assert after[..c] == log[..c];
    }
    forall c | 0 <= c < |log| && IntendsFor(log[c], e.stream, e.what.intent.key.train)
      ensures log[c].what.intent.sequence < e.what.intent.sequence
    {
      InHandIsHigher(log, e.stream, e.what.intent.key.train, e.what.intent.sequence, k, c);
    }
  }

  /** Two processes about to write for one train hold its lease, so they are one process. */
  lemma WritersExclude(w: World, a: nat, b: nat)
    requires LeaseInv(w.leases, w.tasks) && a < |w.tasks| && b < |w.tasks|
    requires AboutToWrite(w.tasks[a]) && AboutToWrite(w.tasks[b])
    requires StreamOf(JournalOf(w.tasks[a].plan)) == StreamOf(JournalOf(w.tasks[b].plan))
    requires w.tasks[a].plan.train == w.tasks[b].plan.train
    ensures a == b
  {
    assert Leased(w.leases, a, w.tasks[a]) && Leased(w.leases, b, w.tasks[b]);
  }

  lemma WritesItsNumber(hash: Hash, log: Log, leases: map<Scope, nat>, plan: Plan, pc: Pc, input: Input)
    ensures var m := AdvanceRun(hash, log, leases, plan, pc, input);
            m.emit.Some? && m.emit.value.Intended? ==>
              && AboutToWrite(Execute(plan, pc)) && m.emit.value.intent.sequence == pc.step.sequence
              && m.emit.value.intent.key.train == plan.train && !AboutToWrite(Execute(plan, m.pc))
  {
  }

  lemma DecidingTakes(hash: Hash, log: Log, plan: Plan, pc: Pc, input: Input)
    requires AtEffect(plan, pc) && !Reconciling(pc.step) && !Invoking(pc.step)
    ensures var m := Decide(hash, log, plan, pc, input);
            m.pc.At? && m.pc.step.Writing? ==>
              m.emit.None? && m.pc.step.sequence == |Intents(log, StreamOf(JournalOf(plan)))| + 1
  {
  }

  lemma OthersTakeNone(log: Log, leases: map<Scope, nat>, plan: Plan, pc: Pc, input: Input)
    ensures AtEffect(plan, pc) && Reconciling(pc.step) ==>
              var m := Reconcile(log, plan, pc, input); !m.pc.At? || !m.pc.step.Writing?
    ensures AtEffect(plan, pc) && Invoking(pc.step) ==>
              var m := Invoke(log, plan, pc, input); !m.pc.At? || !m.pc.step.Writing?
    ensures AtGate(pc) && pc.i < |plan.phases| ==> !AdvanceApproval(log, plan, pc, input).pc.At?
    ensures var m := AdvancePhases(log, leases, plan, pc, input); !m.pc.At? || !m.pc.step.Writing?
  {
  }

  lemma TakesItsNumber(hash: Hash, log: Log, leases: map<Scope, nat>, plan: Plan, pc: Pc, input: Input)
    ensures var m := AdvanceRun(hash, log, leases, plan, pc, input);
            AboutToWrite(Execute(plan, m.pc)) ==>
              m.emit.None? && m.pc.step.sequence == |Intents(log, StreamOf(JournalOf(plan)))| + 1
  {
    OthersTakeNone(log, leases, plan, pc, input);
    if AtEffect(plan, pc) && !Reconciling(pc.step) && !Invoking(pc.step) {
      DecidingTakes(hash, log, plan, pc, input);
    }
  }

  lemma CeremonyNumbers(log: Log, task: Task, ok: bool)
    requires !task.Execute?
    ensures var d := AdvanceCeremony(log, task, ok);
            (d.emit.Some? ==> !d.emit.value.Intended?) && !AboutToWrite(d.task)
  {
  }

  /** What the others hold in hand stays above their own train's numbers. */
  lemma OthersStayInHand(w: World, run: nat, e: Event, r: nat)
    requires LeaseInv(w.leases, w.tasks) && AllInHand(w.log, w.tasks)
    requires run < |w.tasks| && r < |w.tasks| && r != run && e.stream == StreamOf(TaskJournal(w.tasks[run]))
    requires e.what.Intended? ==>
               AboutToWrite(w.tasks[run]) && e.what.intent.key.train == w.tasks[run].plan.train
    ensures InHand(w.log + [e], w.tasks[r])
  {
    assert InHand(w.log, w.tasks[r]);
    if AboutToWrite(w.tasks[r]) {
      var t := w.tasks[r];
      var s := StreamOf(JournalOf(t.plan));
      var k: nat :| CountedAt(w.log, s, t.plan.train, t.pc.step.sequence, k);
      assert (w.log + [e])[..k] == w.log[..k];
      if IntendsFor(e, s, t.plan.train) { WritersExclude(w, run, r); }
      assert CountedAt(w.log + [e], s, t.plan.train, t.pc.step.sequence, k);
    }
  }

  lemma AdvanceNumbers(hash: Hash, w: World, run: nat, input: Input)
    requires LeaseInv(w.leases, w.tasks) && Numbered(w.log) && AllInHand(w.log, w.tasks)
    requires run < |w.tasks| && w.tasks[run].Execute?
    ensures var after := Act(hash, w, Advance(run, input)); Numbered(after.log) && AllInHand(after.log, after.tasks)
  {
    var t := w.tasks[run];
    var s := StreamOf(JournalOf(t.plan));
    var m := AdvanceRun(hash, w.log, w.leases, t.plan, t.pc, input);
    WritesItsNumber(hash, w.log, w.leases, t.plan, t.pc, input);
    TakesItsNumber(hash, w.log, w.leases, t.plan, t.pc, input);
    assert InHand(w.log, t);
    var after := Act(hash, w, Advance(run, input));
    if m.emit.Some? {
      var e := Event(run, s, m.emit.value);
      if e.what.Intended? {
        var k: nat :| CountedAt(w.log, s, t.plan.train, t.pc.step.sequence, k);
        IntentStaysNumbered(w.log, e, k);
      } else {
        QuietStaysNumbered(w.log, e);
      }
      forall r | 0 <= r < |after.tasks| ensures InHand(after.log, after.tasks[r]) {
        if r != run { OthersStayInHand(w, run, e, r); }
      }
    } else if AboutToWrite(after.tasks[run]) {
      assert w.log[..|w.log|] == w.log;
      assert CountedAt(w.log, s, t.plan.train, m.pc.step.sequence, |w.log|);
    }
  }

  lemma CeremonyStaysNumbered(hash: Hash, w: World, run: nat, input: Input)
    requires LeaseInv(w.leases, w.tasks) && Numbered(w.log) && AllInHand(w.log, w.tasks)
    requires run < |w.tasks| && !w.tasks[run].Execute?
    ensures var after := Act(hash, w, Advance(run, input)); Numbered(after.log) && AllInHand(after.log, after.tasks)
  {
    var t := w.tasks[run];
    var d := AdvanceCeremony(w.log, t, input.ok);
    CeremonyNumbers(w.log, t, input.ok);
    var after := Act(hash, w, Advance(run, input));
    if d.emit.Some? {
      var e := Event(run, StreamOf(TaskJournal(t)), d.emit.value);
      QuietStaysNumbered(w.log, e);
      forall r | 0 <= r < |after.tasks| ensures InHand(after.log, after.tasks[r]) {
        if r != run { OthersStayInHand(w, run, e, r); }
      }
    }
  }

  lemma ActNumbers(hash: Hash, w: World, a: Action)
    requires LeaseInv(w.leases, w.tasks) && Numbered(w.log) && AllInHand(w.log, w.tasks)
    ensures var after := Act(hash, w, a); Numbered(after.log) && AllInHand(after.log, after.tasks)
  {
    match a
    case Advance(run, input) =>
      if run < |w.tasks| {
        if w.tasks[run].Execute? {
          AdvanceNumbers(hash, w, run, input);
        } else {
          CeremonyStaysNumbered(hash, w, run, input);
        }
      }
    case Launch(task) =>
    case Crash(run) =>
  }

  /** Over every run the numbers of a train's intents in its journal rise with their order. */
  lemma {:induction false} IntentsAreNumbered(hash: Hash, actions: seq<Action>)
    ensures var w := After(hash, actions); Numbered(w.log) && AllInHand(w.log, w.tasks)
  {
    if actions != [] {
      var before := actions[..|actions| - 1];
      IntentsAreNumbered(hash, before);
      AlwaysInv(hash, before);
      ActNumbers(hash, After(hash, before), actions[|actions| - 1]);
    }
  }

  /** No two intents of a journal are equal, so a completion resolves one of them and not another. */
  lemma IntentsAreDistinct(hash: Hash, actions: seq<Action>, c: nat, d: nat)
    requires c < d < |After(hash, actions).log|
    requires var log := After(hash, actions).log;
             log[c].what.Intended? && log[d].what.Intended? && log[c].stream == log[d].stream
    ensures var log := After(hash, actions).log; log[c].what.intent != log[d].what.intent
  {
    IntentsAreNumbered(hash, actions);
  }

  // ------------------------------------------------ completions answer intents

  predicate Backed(log: Log, s: Stream, x: Intent) { exists e <- log :: e.stream == s && e.what == Intended(x) }

  predicate AllBacked(log: Log, s: Stream, some: seq<Intent>) { forall x <- some :: Backed(log, s, x) }

  /** What a process means to complete was written ahead. */
  predicate HandsBacked(log: Log, plan: Plan, pc: Pc) {
    pc.At? ==>
      var s := StreamOf(JournalOf(plan));
      match pc.step
      case Calling(_, intent) => Backed(log, s, intent)
      case Finishing(intent, _) => Backed(log, s, intent)
      case Sealing(intent, _) => Backed(log, s, intent)
      case Completing(_, pending) => AllBacked(log, s, pending)
      case Closing(_, pending) => AllBacked(log, s, pending)
      case _ => true
  }

  predicate CompletionsBacked(log: Log) {
    forall d | 0 <= d < |log| && log[d].what.Completed? :: Backed(log[..d], log[d].stream, log[d].what.intent)
  }

  lemma BackedStays(log: Log, e: Event, s: Stream, x: Intent)
    requires Backed(log, s, x)
    ensures Backed(log + [e], s, x)
  {
  }

  lemma HandsStayBacked(log: Log, e: Event, plan: Plan, pc: Pc)
    requires HandsBacked(log, plan, pc)
    ensures HandsBacked(log + [e], plan, pc)
  {
    forall s, x | Backed(log, s, x) ensures Backed(log + [e], s, x) { BackedStays(log, e, s, x); }
  }

  lemma {:induction false} PendingIsBacked(all: Log, log: Log, s: Stream, key: Key)
    ensures AllBacked(log, s, Pending(all, log, s, key))
  {
    if log != [] {
      var front, e := log[..|log| - 1], log[|log| - 1];
      PendingIsBacked(all, front, s, key);
      assert log == front + [e];
      forall x | x in Pending(all, front, s, key) ensures Backed(log, s, x) { BackedStays(front, e, s, x); }
    }
  }

  lemma DecidingBacks(hash: Hash, log: Log, plan: Plan, pc: Pc, input: Input)
    requires AtEffect(plan, pc) && !Reconciling(pc.step) && !Invoking(pc.step)
    ensures var m := Decide(hash, log, plan, pc, input); m.emit.None? && HandsBacked(log, plan, m.pc)
  {
  }

  lemma ReconcilingBacks(log: Log, run: nat, plan: Plan, pc: Pc, input: Input)
    requires AtEffect(plan, pc) && Reconciling(pc.step) && HandsBacked(log, plan, pc)
    ensures var s, m := StreamOf(JournalOf(plan)), Reconcile(log, plan, pc, input);
            && HandsBacked(Extend(log, run, s, m.emit), plan, m.pc)
            && (m.emit.Some? && m.emit.value.Completed? ==> Backed(log, s, m.emit.value.intent))
  {
    var s, m := StreamOf(JournalOf(plan)), Reconcile(log, plan, pc, input);
    if pc.step.Listing? { PendingIsBacked(log, log, s, EffectKey(plan, pc)); }
    if m.emit.Some? {
      assert HandsBacked(log, plan, m.pc);
      HandsStayBacked(log, Event(run, s, m.emit.value), plan, m.pc);
    }
  }

  lemma InvokingBacks(log: Log, run: nat, plan: Plan, pc: Pc, input: Input)
    requires AtEffect(plan, pc) && Invoking(pc.step) && HandsBacked(log, plan, pc)
    ensures var s, m := StreamOf(JournalOf(plan)), Invoke(log, plan, pc, input);
            && HandsBacked(Extend(log, run, s, m.emit), plan, m.pc)
            && (m.emit.Some? && m.emit.value.Completed? ==> Backed(log, s, m.emit.value.intent))
  {
    var s, m := StreamOf(JournalOf(plan)), Invoke(log, plan, pc, input);
    if m.emit.Some? {
      var e := Event(run, s, m.emit.value);
      HandsStayBacked(log, e, plan, pc);
      if e.what.Intended? { assert e in log + [e]; }
    }
  }

  lemma PhasesBack(log: Log, leases: map<Scope, nat>, plan: Plan, pc: Pc, input: Input)
    requires !AtEffect(plan, pc)
    ensures var m := if AtGate(pc) && pc.i < |plan.phases| then AdvanceApproval(log, plan, pc, input)
                     else AdvancePhases(log, leases, plan, pc, input);
            (m.pc.At? ==> m.pc.step.Checking?) && (m.emit.Some? ==> !m.emit.value.Completed?)
  {
  }

  lemma MoveBacks(hash: Hash, log: Log, leases: map<Scope, nat>, run: nat, plan: Plan, pc: Pc, input: Input)
    requires HandsBacked(log, plan, pc)
    ensures var s, m := StreamOf(JournalOf(plan)), AdvanceRun(hash, log, leases, plan, pc, input);
            && HandsBacked(Extend(log, run, s, m.emit), plan, m.pc)
            && (m.emit.Some? && m.emit.value.Completed? ==> Backed(log, s, m.emit.value.intent))
  {
    if !AtEffect(plan, pc) {
      PhasesBack(log, leases, plan, pc, input);
    } else if Reconciling(pc.step) {
      ReconcilingBacks(log, run, plan, pc, input);
    } else if Invoking(pc.step) {
      InvokingBacks(log, run, plan, pc, input);
    } else {
      DecidingBacks(hash, log, plan, pc, input);
    }
  }

  predicate TaskBacked(log: Log, t: Task) { t.Execute? ==> HandsBacked(log, t.plan, t.pc) }

  predicate TasksBacked(log: Log, tasks: seq<Task>) { forall r | 0 <= r < |tasks| :: TaskBacked(log, tasks[r]) }

  lemma CompletionsGrow(log: Log, e: Event)
    requires CompletionsBacked(log) && (e.what.Completed? ==> Backed(log, e.stream, e.what.intent))
    ensures CompletionsBacked(log + [e])
  {
    var after := log + [e];
    forall d | 0 <= d < |after| && after[d].what.Completed?
      ensures Backed(after[..d], after[d].stream, after[d].what.intent)
    {
      assert after[..d] == log[..d];
      if d == |log| { assert log[..d] == log; }
    }
  }

  lemma AdvanceBacks(hash: Hash, w: World, run: nat, input: Input)
    requires CompletionsBacked(w.log) && TasksBacked(w.log, w.tasks) && run < |w.tasks|
    ensures var after := Act(hash, w, Advance(run, input));
            CompletionsBacked(after.log) && TasksBacked(after.log, after.tasks)
  {
    var t, after := w.tasks[run], Act(hash, w, Advance(run, input));
    assert TaskBacked(w.log, t);
    if t.Execute? { MoveBacks(hash, w.log, w.leases, run, t.plan, t.pc, input); }
    if |after.log| > |w.log| {
      var e := after.log[|w.log|];
      assert after.log == w.log + [e];
      CompletionsGrow(w.log, e);
      forall r | 0 <= r < |w.tasks| && r != run ensures TaskBacked(after.log, after.tasks[r]) {
        assert TaskBacked(w.log, w.tasks[r]);
        if w.tasks[r].Execute? { HandsStayBacked(w.log, e, w.tasks[r].plan, w.tasks[r].pc); }
      }
    }
  }

  /** Every completion in any history answers an intent written into the same journal before it. */
  lemma {:induction false} CompletionsAnswerIntents(hash: Hash, actions: seq<Action>)
    ensures var w := After(hash, actions); CompletionsBacked(w.log) && TasksBacked(w.log, w.tasks)
  {
    if actions != [] {
      var before, a := actions[..|actions| - 1], actions[|actions| - 1];
      CompletionsAnswerIntents(hash, before);
      if a.Advance? && a.run < |After(hash, before).tasks| { AdvanceBacks(hash, After(hash, before), a.run, a.input); }
    }
  }

  /** So a completed effect was attempted, as its process will find. */
  lemma CompletedWasAttempted(hash: Hash, actions: seq<Action>, s: Stream, key: Key)
    requires CompletionExists(After(hash, actions).log, s, key)
    ensures Attempted(After(hash, actions).log, s, key)
  {
    CompletionsAnswerIntents(hash, actions);
    var log := After(hash, actions).log;
    var e :| e in log && e.stream == s && e.what.Completed? && e.what.intent.key == key;
    var d :| 0 <= d < |log| && log[d] == e;
    var x :| x in log[..d] && x.stream == s && x.what == Intended(e.what.intent);
    assert Intends(x, s, key);
  }
}
