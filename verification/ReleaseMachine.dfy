/**
 The journaled release machine: any number of release processes, declaration
 rebinds and abandonments share one append-only history. Every process moves one
 durable or observable action at a time, so that any other process, or a crash,
 can fall between any two of them.
 */
module ReleaseMachine {
  import opened Admission
  import opened Declaration
  import opened ReleasePlan
  import opened Wrappers

  // ------------------------------------------------ history

  /** Names the journal, intent and approval files of one train. */
  datatype Journal = Journal(repository: string, train: string, id: string)

  datatype Stream = Stream(repository: string, stem: string)

  function StreamOf(j: Journal): Stream { Stream(j.repository, j.train + "-" + j.id) }

  /** The operator commands keep one journal per train and intended commit. */
  function JournalOf(plan: Plan): Journal { Journal(plan.repository, plan.train, plan.intendedCommit) }

  /** What makes two attempts the same effect; the declaration digest is not part of it. */
  datatype Key = Key(train: string, phase: string, artifact: string, operation: string, commit: string)

  function KeyOf(r: Request): Key { Key(r.train, r.phase, r.artifact, r.operation, r.intendedCommit) }

  datatype Intent = Intent(sequence: nat, key: Key, declarationDigest: string, approval: Subject)

  datatype Evidence = Evidence(reference: string, identity: string)

  datatype Binding = Binding(digest: string, normalized: string)

  datatype What =
    | Pinned(binding: Binding)
    | Rebound(previous: string, replacement: Binding)
    | Terminalized
    | Entered(phase: string)
    | Done(phase: string, evidence: seq<Evidence>)
    | Refused(phase: string)
    | Intended(intent: Intent)
    | Completed(intent: Intent, found: Evidence)
    | Confirmed(subject: Subject)
    | Withdrawn
    | Called(key: Key, approvedAt: nat, boundAt: nat)

  /** `Called` is the executor invocation itself; all others are durable writes. */
  datatype Event = Event(run: nat, stream: Stream, what: What)

  type Log = seq<Event>

  // ------------------------------------------------ what a process reads from it

  predicate Terminal(log: Log, s: Stream) { exists e <- log :: e.stream == s && e.what.Terminalized? }

  /** The latest pinned or rebound declaration. */
  function Bound(log: Log, s: Stream): Option<Binding> {
    if log == [] then None
    else
      var e := log[|log| - 1];
      if e.stream == s && e.what.Pinned? then Some(e.what.binding)
      else if e.stream == s && e.what.Rebound? then Some(e.what.replacement)
      else Bound(log[..|log| - 1], s)
  }

  predicate DigestHolds(log: Log, s: Stream, digest: string) {
    !Terminal(log, s) && Bound(log, s).Some? && Bound(log, s).value.digest == digest
  }

  /** The approval file: replaced by a confirmation, removed by a withdrawal. */
  function Approval(log: Log, s: Stream): Option<Subject> {
    if log == [] then None
    else
      var e := log[|log| - 1];
      if e.stream == s && e.what.Confirmed? then Some(e.what.subject)
      else if e.stream == s && e.what.Withdrawn? then None
      else Approval(log[..|log| - 1], s)
  }

  predicate Intends(e: Event, s: Stream, key: Key) {
    e.stream == s && e.what.Intended? && e.what.intent.key == key
  }

  predicate Attempted(log: Log, s: Stream, key: Key) { exists e <- log :: Intends(e, s, key) }

  predicate Completes(e: Event, s: Stream, intent: Intent) {
    e.stream == s && e.what.Completed? && e.what.intent == intent
  }

  predicate HasCompletion(log: Log, s: Stream, intent: Intent) { exists e <- log :: Completes(e, s, intent) }

  predicate CompletionExists(log: Log, s: Stream, key: Key) {
    exists e <- log :: e.stream == s && e.what.Completed? && e.what.intent.key == key
  }

  function Intents(log: Log, s: Stream): seq<Intent> {
    if log == [] then []
    else
      var e := log[|log| - 1];
      Intents(log[..|log| - 1], s) + if e.stream == s && e.what.Intended? then [e.what.intent] else []
  }

  /** Intents for a key that no completion answers, oldest first. */
  function Pending(all: Log, log: Log, s: Stream, key: Key): seq<Intent> {
    if log == [] then []
    else
      var e := log[|log| - 1];
      Pending(all, log[..|log| - 1], s, key) +
      if Intends(e, s, key) && !HasCompletion(all, s, e.what.intent) then [e.what.intent] else []
  }

  // ------------------------------------------------ leases and processes

  datatype Scope = TrainScope(repository: string, train: string) | RepositoryScope(owner: string)

  datatype Outcome = Executed(found: Evidence) | Reconciled(found: Evidence) | AwaitingProbe

  /** Where an irreversible effect stands. */
  datatype Step =
    | Checking
    | ReadingIntents
    | ReadingJournal(attempted: bool)
    | Probing(attempted: bool, completed: bool)
    | Listing(found: Evidence)
    | Completing(found: Evidence, pending: seq<Intent>)
    | Closing(found: Evidence, pending: seq<Intent>)
    | Admitting
    | Verifying
    | Counting(boundAt: nat)
    | Writing(boundAt: nat, sequence: nat)
    | Calling(boundAt: nat, intent: Intent)
    | Finishing(intent: Intent, returned: Option<Evidence>)
    | Sealing(intent: Intent, found: Evidence)

  /** Where a release process stands; `i` is the phase, and the effect at work is number `|outs|`. */
  datatype Pc =
    | Starting
    | Leasing
    | Registering
    | Opening(i: nat)
    | Entering(i: nat)
    | Running(i: nat)
    | Approving(i: nat)
    | Clearing(i: nat)
    | Confirming(i: nat)
    | Persisting(i: nat)
    | Choosing(i: nat, outs: seq<Outcome>)
    | At(i: nat, outs: seq<Outcome>, approvedAt: nat, step: Step)
    | Leaving(i: nat, outs: seq<Outcome>, evidence: seq<Evidence>)
    | Recording(i: nat, outs: seq<Outcome>, evidence: seq<Evidence>)
    | Refusing(phase: string)
    | Halted

  datatype RebindPc = Reviewed | Invalidating | Replacing | Appending | Finished

  datatype Task =
    | Execute(plan: Plan, pc: Pc)
    | Rebind(journal: Journal, pinned: Binding, replacement: Binding, at: RebindPc)
    | Abandon(journal: Journal, checked: bool)
    | Pin(journal: Journal, binding: Binding, checked: bool)

  datatype World = World(log: Log, leases: map<Scope, nat>, tasks: seq<Task>)

  function TaskJournal(t: Task): Journal {
    match t
    case Execute(plan, _) => JournalOf(plan)
    case Rebind(j, _, _, _) => j
    case Abandon(j, _) => j
    case Pin(j, _, _) => j
  }

  // ------------------------------------------------ one move of a release process

  datatype Answer = Present(found: Evidence) | Absent(found: Evidence) | Undecidable

  /** What the world outside decides: whether a call or write succeeds, and what it returns. */
  datatype Input = Input(ok: bool, found: Evidence, evidence: seq<Evidence>, answer: Answer)

  datatype LeaseMove = Keep | TakeTrain | TakeRepository | DropRepository | DropAll

  datatype Move = Move(pc: Pc, emit: Option<What>, lease: LeaseMove)

  function Goto(pc: Pc): Move { Move(pc, None, Keep) }

  function Write(what: What, pc: Pc): Move { Move(pc, Some(what), Keep) }

  /** A failed phase gives up its repository lease before the refusal is recorded. */
  function Fail(phase: PlannedPhase): Move { Move(Refusing(phase.instance), None, DropRepository) }

  function Quit(): Move { Move(Halted, None, DropAll) }

  function EffectsOf(effects: seq<PublicEffect>, phase: string): seq<PublicEffect> {
    if effects == [] then []
    else (if effects[0].phase == phase then [effects[0]] else []) + EffectsOf(effects[1..], phase)
  }

  function PhaseEffectList(plan: Plan, i: nat): seq<PublicEffect>
    requires i < |plan.phases|
  {
    EffectsOf(plan.publicEffects, plan.phases[i].instance)
  }

  predicate NoWaiting(outs: seq<Outcome>) { forall o <- outs :: !o.AwaitingProbe? }

  function FoundIn(outs: seq<Outcome>): seq<Evidence> {
    if outs == [] then []
    else (if outs[0].AwaitingProbe? then [] else [outs[0].found]) + FoundIn(outs[1..])
  }

  predicate AtEffect(plan: Plan, pc: Pc) {
    pc.At? && pc.i < |plan.phases| && |pc.outs| < |PhaseEffectList(plan, pc.i)|
  }

  function Effect(plan: Plan, pc: Pc): PublicEffect
    requires AtEffect(plan, pc)
  {
    PhaseEffectList(plan, pc.i)[|pc.outs|]
  }

  function EffectKey(plan: Plan, pc: Pc): Key
    requires AtEffect(plan, pc)
  {
    KeyOf(RequestFor(plan, Effect(plan, pc)))
  }

  function GotoStep(pc: Pc, step: Step): Move
    requires pc.At?
  {
    Goto(pc.(step := step))
  }

  predicate Reconciling(step: Step) { step.Listing? || step.Completing? || step.Closing? }

  predicate Invoking(step: Step) { step.Writing? || step.Calling? || step.Finishing? || step.Sealing? }

  /** Reads the journal, asks the provider, and decides whether the effect may be attempted. */
  function Decide(hash: Hash, log: Log, plan: Plan, pc: Pc, input: Input): Move
    requires AtEffect(plan, pc) && !Reconciling(pc.step) && !Invoking(pc.step)
  {
    var s, e, key := StreamOf(JournalOf(plan)), Effect(plan, pc), EffectKey(plan, pc);
    var fail := Fail(plan.phases[pc.i]);
    if !input.ok then fail
    else
      match pc.step
      case Checking =>
        if DigestHolds(log, s, plan.declarationDigest) && ExpectedIdentity(plan, e).Some?
        then GotoStep(pc, ReadingIntents) else fail
      case ReadingIntents => GotoStep(pc, ReadingJournal(Attempted(log, s, key)))
      case ReadingJournal(attempted) => GotoStep(pc, Probing(attempted, CompletionExists(log, s, key)))
      case Probing(attempted, completed) =>
        (match input.answer
         case Present(found) =>
           if ExpectedIdentity(plan, e) == Some(found.identity) then GotoStep(pc, Listing(found)) else fail
         case Undecidable => Goto(Choosing(pc.i, pc.outs + [AwaitingProbe]))
         case Absent(found) =>
           if completed || attempted || ExpectedIdentity(plan, e) != Some(found.identity) then fail
           else GotoStep(pc, Admitting))
      case Admitting =>
        var subject := BuildSubject(plan);
        if subject.Ok? && Admit(hash, RequestFor(plan, e), e, MaterialFor(plan, e), subject.value).Ok?
        then GotoStep(pc, Verifying) else fail
      case Verifying =>
        if DigestHolds(log, s, plan.declarationDigest) then GotoStep(pc, Counting(|log|)) else fail
      case Counting(boundAt) => GotoStep(pc, Writing(boundAt, |Intents(log, s)| + 1))
  }

  /** The effect is present: completes every intent still pending for it. */
  function Reconcile(log: Log, plan: Plan, pc: Pc, input: Input): Move
    requires AtEffect(plan, pc) && Reconciling(pc.step)
  {
    var s, fail := StreamOf(JournalOf(plan)), Fail(plan.phases[pc.i]);
    if !input.ok then fail
    else
      match pc.step
      case Listing(found) => GotoStep(pc, Completing(found, Pending(log, log, s, EffectKey(plan, pc))))
      case Completing(found, pending) =>
        if pending == [] then Goto(Choosing(pc.i, pc.outs + [Reconciled(found)]))
        else if Terminal(log, s) then fail
        else GotoStep(pc, Closing(found, pending))
      case Closing(found, pending) =>
        if pending == [] then fail
        else Write(Completed(pending[0], found), pc.(step := Completing(found, pending[1..])))
  }

  /** Writes the intent, then and only then calls the executor, then records the completion. */
  function Invoke(log: Log, plan: Plan, pc: Pc, input: Input): Move
    requires AtEffect(plan, pc) && Invoking(pc.step)
  {
    var s, key, fail := StreamOf(JournalOf(plan)), EffectKey(plan, pc), Fail(plan.phases[pc.i]);
    match pc.step
    case Writing(boundAt, sequence) =>
      var subject := BuildSubject(plan);
      if !input.ok || subject.Err? then fail
      else
        var intent := Intent(sequence, key, plan.declarationDigest, subject.value);
        Write(Intended(intent), pc.(step := Calling(boundAt, intent)))
    case Calling(boundAt, intent) =>
      Write(Called(key, pc.approvedAt, boundAt),
            pc.(step := Finishing(intent, if input.ok then Some(input.found) else None)))
    case Finishing(intent, returned) =>
      if input.ok && returned.Some? && ExpectedIdentity(plan, Effect(plan, pc)) == Some(returned.value.identity) &&
         !Terminal(log, s)
      then GotoStep(pc, Sealing(intent, returned.value)) else fail
    case Sealing(intent, found) =>
      if input.ok then Write(Completed(intent, found), Choosing(pc.i, pc.outs + [Executed(found)])) else fail
  }

  function AdvanceEffect(hash: Hash, log: Log, plan: Plan, pc: Pc, input: Input): Move
    requires AtEffect(plan, pc)
  {
    if Reconciling(pc.step) then Reconcile(log, plan, pc, input)
    else if Invoking(pc.step) then Invoke(log, plan, pc, input)
    else Decide(hash, log, plan, pc, input)
  }

  /** The approval gate in front of an irreversible phase. */
  function AdvanceApproval(log: Log, plan: Plan, pc: Pc, input: Input): Move
    requires pc.Approving? || pc.Clearing? || pc.Confirming? || pc.Persisting?
    requires pc.i < |plan.phases|
  {
    var s, fail := StreamOf(JournalOf(plan)), Fail(plan.phases[pc.i]);
    if BuildSubject(plan).Err? then Quit()
    else if !input.ok then fail
    else
      var subject := BuildSubject(plan).value;
      match pc
      case Approving(i) =>
        if Approval(log, s) == Some(subject) then Goto(Choosing(i, [])) else Goto(Clearing(i))
      case Clearing(i) =>
        if Approval(log, s).Some? && Approval(log, s).value != subject then Write(Withdrawn, Confirming(i))
        else Goto(Confirming(i))
      case Confirming(i) => Goto(Persisting(i))
      case Persisting(i) =>
        if subject.repository == plan.repository && subject.train == plan.train
        then Write(Confirmed(subject), Choosing(i, [])) else fail
  }

  predicate Mutating(plan: Plan, i: nat)
    requires i < |plan.phases|
  {
    plan.phases[i].treeMutating
  }

  /** The phase the registry refuses first. */
  function Offender(phases: seq<PlannedPhase>, afterPublic: bool): string {
    if phases == [] then ""
    else
      var kind := Classify(phases[0].kind);
      if kind.None? || (afterPublic && kind == Some(MayRefuse)) then phases[0].instance
      else Offender(phases[1..], afterPublic || kind == Some(Public))
  }

  predicate AtGate(pc: Pc) { pc.Approving? || pc.Clearing? || pc.Confirming? || pc.Persisting? }

  function AdvanceRun(hash: Hash, log: Log, leases: map<Scope, nat>, plan: Plan, pc: Pc, input: Input): Move {
    if AtEffect(plan, pc) then AdvanceEffect(hash, log, plan, pc, input)
    else if AtGate(pc) && pc.i < |plan.phases| then AdvanceApproval(log, plan, pc, input)
    else AdvancePhases(log, leases, plan, pc, input)
  }

  /** The loop over the phases, outside of effects and their gate. */
  function AdvancePhases(log: Log, leases: map<Scope, nat>, plan: Plan, pc: Pc, input: Input): Move {
    var s := StreamOf(JournalOf(plan));
    match pc
    case Starting =>
      if input.ok && DigestHolds(log, s, plan.declarationDigest) then Goto(Leasing) else Quit()
    case Leasing =>
      if input.ok && TrainScope(plan.repository, plan.train) !in leases
      then Move(Registering, None, TakeTrain) else Quit()
    case Registering =>
      if Ordered(plan.phases) then Goto(Opening(0)) else Goto(Refusing(Offender(plan.phases, false)))
    case Opening(i) =>
      if i >= |plan.phases| then Quit()
      else if !Mutating(plan, i) then Goto(Entering(i))
      else if input.ok && RepositoryScope(plan.repository) !in leases then Move(Entering(i), None, TakeRepository)
      else Goto(Refusing(plan.phases[i].instance))
    case Entering(i) =>
      if i >= |plan.phases| || !input.ok then Quit()
      else Write(Entered(plan.phases[i].instance),
                 if Classify(plan.phases[i].kind) == Some(Public) then Approving(i) else Running(i))
    case Running(i) =>
      if i >= |plan.phases| then Quit()
      else if input.ok then Goto(Leaving(i, [], input.evidence))
      else Fail(plan.phases[i])
    case Choosing(i, outs) =>
      if i >= |plan.phases| then Quit()
      else if |outs| >= |PhaseEffectList(plan, i)| then Goto(Leaving(i, outs, []))
      else if input.ok && BuildSubject(plan).Ok? && Approval(log, s) == Some(BuildSubject(plan).value)
      then Goto(At(i, outs, |log|, Checking))
      else Fail(plan.phases[i])
    case Leaving(i, outs, evidence) =>
      if i >= |plan.phases| then Quit()
      else if input.ok || !Mutating(plan, i) then Move(Recording(i, outs, evidence), None, DropRepository)
      else Fail(plan.phases[i])
    case Recording(i, outs, evidence) =>
      if i >= |plan.phases| || !input.ok then Quit()
      else if NoWaiting(outs) then Write(Done(plan.phases[i].instance, evidence + FoundIn(outs)), Opening(i + 1))
      else Goto(Opening(i + 1))
    case Refusing(phase) =>
      if input.ok then Move(Halted, Some(Refused(phase)), DropAll) else Quit()
    case _ => Quit()
  }

  // ------------------------------------------------ the operator's ceremonies

  datatype Deed = Deed(task: Task, emit: Option<What>)

  /** Rebinding removes the approval before the replacement is recorded; it holds no lease. */
  function AdvanceCeremony(log: Log, task: Task, ok: bool): Deed
    requires !task.Execute?
  {
    var s := StreamOf(TaskJournal(task));
    var idle := Deed(task, None);
    match task
    case Rebind(j, pinned, replacement, at) =>
      if !ok || at.Finished? then Deed(task.(at := Finished), None)
      else if at.Reviewed? then
        if !Terminal(log, s) && Bound(log, s) == Some(pinned) then Deed(task.(at := Invalidating), None)
        else Deed(task.(at := Finished), None)
      else if at.Invalidating? then Deed(task.(at := Replacing), Some(Withdrawn))
      else if at.Replacing? then
        if DigestHolds(log, s, pinned.digest) && pinned.digest != replacement.digest
        then Deed(task.(at := Appending), None)
        else Deed(task.(at := Finished), None)
      else Deed(task.(at := Finished), Some(Rebound(pinned.digest, replacement)))
    case Abandon(j, checked) =>
      if !ok then idle
      else if checked then Deed(Abandon(j, false), Some(Terminalized))
      else Deed(Abandon(j, !Terminal(log, s) && Bound(log, s).Some?), None)
    case Pin(j, binding, checked) =>
      if !ok then idle
      else if checked then Deed(Pin(j, binding, false), Some(Pinned(binding)))
      else Deed(Pin(j, binding, !Terminal(log, s) && Bound(log, s).None?), None)
  }

  // ------------------------------------------------ the whole system

  datatype Action =
    | Launch(task: Task)
    | Advance(run: nat, input: Input)
    | Crash(run: nat)

  predicate Fresh(t: Task) {
    match t
    case Execute(_, pc) => pc.Starting?
    case Rebind(_, _, _, at) => at.Reviewed?
    case Abandon(_, checked) => !checked
    case Pin(_, _, checked) => !checked
  }

  function Without(leases: map<Scope, nat>, run: nat): map<Scope, nat> {
    map k | k in leases && leases[k] != run :: leases[k]
  }

  function MoveLease(leases: map<Scope, nat>, run: nat, plan: Plan, m: LeaseMove): map<Scope, nat> {
    match m
    case Keep => leases
    case TakeTrain => leases[TrainScope(plan.repository, plan.train) := run]
    case TakeRepository => leases[RepositoryScope(plan.repository) := run]
    case DropRepository =>
      if RepositoryScope(plan.repository) in leases && leases[RepositoryScope(plan.repository)] == run
      then leases - {RepositoryScope(plan.repository)} else leases
    case DropAll => Without(leases, run)
  }

  function Extend(log: Log, run: nat, s: Stream, emit: Option<What>): Log {
    if emit.Some? then log + [Event(run, s, emit.value)] else log
  }

  function ApplyMove(w: World, run: nat, m: Move): World
    requires run < |w.tasks| && w.tasks[run].Execute?
  {
    var task := w.tasks[run];
    World(Extend(w.log, run, StreamOf(JournalOf(task.plan)), m.emit),
          MoveLease(w.leases, run, task.plan, m.lease), w.tasks[run := task.(pc := m.pc)])
  }

  function ApplyDeed(w: World, run: nat, d: Deed): World
    requires run < |w.tasks|
  {
    World(Extend(w.log, run, StreamOf(TaskJournal(w.tasks[run])), d.emit), w.leases, w.tasks[run := d.task])
  }

  /** A crash ends the process; its operating-system locks go with it. */
  function Stopped(t: Task): Task {
    match t
    case Execute(plan, _) => Execute(plan, Halted)
    case Rebind(j, p, r, _) => Rebind(j, p, r, Finished)
    case Abandon(j, _) => Abandon(j, false)
    case Pin(j, b, _) => Pin(j, b, false)
  }

  function Act(hash: Hash, w: World, a: Action): World {
    match a
    case Launch(task) => if Fresh(task) then w.(tasks := w.tasks + [task]) else w
    case Advance(run, input) =>
      if run >= |w.tasks| then w
      else if w.tasks[run].Execute? then
        ApplyMove(w, run, AdvanceRun(hash, w.log, w.leases, w.tasks[run].plan, w.tasks[run].pc, input))
      else ApplyDeed(w, run, AdvanceCeremony(w.log, w.tasks[run], input.ok))
    case Crash(run) =>
      if run >= |w.tasks| then w
      else World(w.log, Without(w.leases, run), w.tasks[run := Stopped(w.tasks[run])])
  }

  function After(hash: Hash, actions: seq<Action>): World {
    if actions == [] then World([], map[], [])
    else Act(hash, After(hash, actions[..|actions| - 1]), actions[|actions| - 1])
  }
}
