/**
 Approval subjects and the admission of public effects: the checks that tie each
 irreversible call to exactly what an operator confirmed.
 */
module Admission {
  import opened Bytes
  import opened Declaration
  import opened ReleasePlan
  import opened Wrappers

  datatype ApprovedArtifact = ApprovedArtifact(artifact: string, identity: string, digest: string)

  datatype Subject = Subject(
    repository: string, train: string, intendedCommit: string, declarationDigest: string,
    artifacts: seq<ApprovedArtifact>, versionOrRunId: ReleaseIdentity, publicEffects: seq<PublicEffect>)

  datatype ApprovalError = NoPublicTrigger | InconsistentPublicTrigger

  function Approved(artifacts: seq<PlannedArtifact>): seq<ApprovedArtifact> {
    seq(|artifacts|, i requires 0 <= i < |artifacts| =>
      ApprovedArtifact(artifacts[i].artifact, artifacts[i].identity, artifacts[i].digest))
  }

  function BuildSubject(plan: Plan): Result<Subject, ApprovalError> {
    if plan.publicEffects == [] then Err(NoPublicTrigger)
    else if plan.firstPublicTrigger != Some(plan.publicEffects[0]) then Err(InconsistentPublicTrigger)
    else Ok(Subject(plan.repository, plan.train, plan.intendedCommit, plan.declarationDigest,
                    Approved(plan.artifacts), plan.releaseIdentity, plan.publicEffects))
  }

  // ------------------------------------------------ requests

  datatype Request = Request(
    repository: string, train: string, phase: string, artifact: string, operation: string,
    intendedCommit: string, declarationDigest: string)

  function RequestFor(plan: Plan, e: PublicEffect): Request {
    Request(plan.repository, plan.train, e.phase, if e.artifact.Some? then e.artifact.value else "tag", e.operation,
            plan.intendedCommit, plan.declarationDigest)
  }

  function FindPlanned(artifacts: seq<PlannedArtifact>, id: string): Option<PlannedArtifact> {
    if artifacts == [] then None
    else if artifacts[0].artifact == id then Some(artifacts[0])
    else FindPlanned(artifacts[1..], id)
  }

  /** The identity evidence must show: an artifact's own, or the commit a tag must point at. */
  function ExpectedIdentity(plan: Plan, e: PublicEffect): Option<string> {
    match e.artifact
    case None => Some(plan.intendedCommit)
    case Some(id) =>
      match FindPlanned(plan.artifacts, id)
      case None => None
      case Some(planned) => Some(planned.identity)
  }

  // ------------------------------------------------ admission

  datatype Release = Tagged(tag: string) | NoTag

  /** Bytes offered for publication, from the anchored pipeline or from the plan itself. */
  datatype Material =
    | Anchored(id: string, commit: string, release: Release, content: seq<byte>, recorded: string)
    | FromPlan(finalized: Finalized)
  {
    function Artifact(): string { if Anchored? then id else finalized.artifact }

    function Content(): seq<byte> { if Anchored? then content else finalized.bytes }

    function ApprovalIdentity(): string {
      if FromPlan? then finalized.identity else if release.Tagged? then release.tag else commit
    }

    function Digest(hash: Hash): string { if Anchored? then recorded else hash(finalized.bytes) }
  }

  datatype ExecutorError =
    | DigestMismatch | ApprovalBinding | MissingFinalizedArtifact | UnexpectedFinalizedArtifact

  datatype PublicationRequest = PublicationRequest(effect: Request, material: Material, approval: Subject)

  datatype Admitted = Admitted(effect: Request, approval: Subject, publication: Option<PublicationRequest>)

  predicate SameIdentity(r: Request, s: Subject) {
    && s.repository == r.repository && s.train == r.train
    && s.intendedCommit == r.intendedCommit && s.declarationDigest == r.declarationDigest
  }

  predicate Covers(effects: seq<PublicEffect>, r: Request, artifact: Option<string>) {
    exists e <- effects :: e.phase == r.phase && e.operation == r.operation && e.artifact == artifact
  }

  predicate ReleaseBinding(approved: ReleaseIdentity, release: Release) {
    match release
    case Tagged(tag) => approved == Version(tag)
    case NoTag => approved.RunId?
  }

  function Bindings(artifacts: seq<ApprovedArtifact>, id: string): seq<ApprovedArtifact> {
    if artifacts == [] then []
    else (if artifacts[0].artifact == id then [artifacts[0]] else []) + Bindings(artifacts[1..], id)
  }

  function ValidateMaterial(hash: Hash, m: Material, s: Subject): Option<ExecutorError> {
    if m.FromPlan? then None
    else if hash(m.content) != m.recorded then Some(DigestMismatch)
    else if !ReleaseBinding(s.versionOrRunId, m.release) then Some(ApprovalBinding)
    else None
  }

  function ValidatePublication(hash: Hash, p: PublicationRequest): Option<ExecutorError> {
    var bad := ValidateMaterial(hash, p.material, p.approval);
    if bad.Some? then bad
    else if p.effect.artifact != p.material.Artifact() then Some(ApprovalBinding)
    else if !SameIdentity(p.effect, p.approval) then Some(ApprovalBinding)
    else
      var bound := Bindings(p.approval.artifacts, p.material.Artifact());
      if |bound| != 1 then Some(ApprovalBinding)
      else if bound[0].identity != p.material.ApprovalIdentity() then Some(ApprovalBinding)
      else if bound[0].digest != p.material.Digest(hash) then Some(ApprovalBinding)
      else if !Covers(p.approval.publicEffects, p.effect, Some(p.material.Artifact())) then Some(ApprovalBinding)
      else None
  }

  function NewPublication(hash: Hash, r: Request, m: Material, s: Subject):
    Result<PublicationRequest, ExecutorError>
  {
    var p := PublicationRequest(r, m, s);
    var bad := ValidatePublication(hash, p);
    if bad.Some? then Err(bad.value) else Ok(p)
  }

  function Admit(hash: Hash, r: Request, e: PublicEffect, finalized: Option<Finalized>, s: Subject):
    Result<Admitted, ExecutorError>
  {
    if !SameIdentity(r, s) || !Covers(s.publicEffects, r, e.artifact) then Err(ApprovalBinding)
    else
      match (e.artifact, finalized)
      case (Some(_), Some(material)) =>
        (match NewPublication(hash, r, FromPlan(material), s)
         case Err(bad) => Err(bad)
         case Ok(p) => Ok(Admitted(r, s, Some(p))))
      case (Some(_), None) => Err(MissingFinalizedArtifact)
      case (None, None) => Ok(Admitted(r, s, None))
      case (None, Some(_)) => Err(UnexpectedFinalizedArtifact)
  }

  /** The recheck made right before an intent is written. */
  function Recheck(hash: Hash, a: Admitted): Option<ExecutorError> {
    if !SameIdentity(a.effect, a.approval) then Some(ApprovalBinding)
    else
      match a.publication
      case Some(p) => ValidatePublication(hash, p)
      case None => if Covers(a.approval.publicEffects, a.effect, None) then None else Some(ApprovalBinding)
  }

  function MaterialFor(plan: Plan, e: PublicEffect): Option<Finalized> {
    match e.artifact
    case None => None
    case Some(id) => Find(plan.finalized, id)
  }

  // ------------------------------------------------ soundness of admission

  /** The one binding of an artifact in a subject. */
  ghost predicate OnlyBinding(artifacts: seq<ApprovedArtifact>, b: ApprovedArtifact) {
    exists k :: OnlyBindingAt(artifacts, b, k)
  }

  predicate OnlyBindingAt(artifacts: seq<ApprovedArtifact>, b: ApprovedArtifact, k: int) {
    && 0 <= k < |artifacts| && artifacts[k] == b
    && forall j | 0 <= j < |artifacts| && j != k :: artifacts[j].artifact != b.artifact
  }

  lemma {:induction false} NoBinding(artifacts: seq<ApprovedArtifact>, id: string)
    ensures Bindings(artifacts, id) == [] <==> forall j | 0 <= j < |artifacts| :: artifacts[j].artifact != id
  {
    if artifacts != [] {
      NoBinding(artifacts[1..], id);
      if Bindings(artifacts, id) == [] {
        forall j | 0 <= j < |artifacts| ensures artifacts[j].artifact != id {
          assert j > 0 ==> artifacts[j] == artifacts[1..][j - 1];
        }
      }
      if forall j | 0 <= j < |artifacts| :: artifacts[j].artifact != id {
        assert forall j | 0 <= j < |artifacts[1..]| :: artifacts[1..][j] == artifacts[j + 1];
      }
    }
  }

  lemma {:induction false} SingleBinding(artifacts: seq<ApprovedArtifact>, id: string) returns (k: int)
    requires |Bindings(artifacts, id)| == 1
    ensures OnlyBindingAt(artifacts, Bindings(artifacts, id)[0], k) && Bindings(artifacts, id)[0].artifact == id
  {
    if artifacts[0].artifact == id {
      k := 0;
      NoBinding(artifacts[1..], id);
      assert forall j | 0 < j < |artifacts| :: artifacts[j] == artifacts[1..][j - 1];
    } else {
      var m := SingleBinding(artifacts[1..], id);
      k := m + 1;
      assert forall j | 0 < j < |artifacts| :: artifacts[j] == artifacts[1..][j - 1];
    }
  }

  /**
   Whatever publication passes validation carries bytes whose digest and identity
   are the single binding of that artifact in the approved subject, for a phase
   and operation the subject lists for that artifact.
   */
  lemma PublicationIsBound(hash: Hash, p: PublicationRequest)
    requires ValidatePublication(hash, p).None?
    ensures OnlyBinding(p.approval.artifacts,
                        ApprovedArtifact(p.effect.artifact, p.material.ApprovalIdentity(), hash(p.material.Content())))
    ensures PublicEffect(p.effect.phase, p.effect.operation, Some(p.effect.artifact)) in p.approval.publicEffects
    ensures SameIdentity(p.effect, p.approval)
    ensures p.material.Anchored? ==> ReleaseBinding(p.approval.versionOrRunId, p.material.release)
  {
    var k := SingleBinding(p.approval.artifacts, p.material.Artifact());
    var e :| e in p.approval.publicEffects && e.phase == p.effect.phase && e.operation == p.effect.operation &&
             e.artifact == Some(p.material.Artifact());
    assert e == PublicEffect(p.effect.phase, p.effect.operation, Some(p.effect.artifact));
  }

  /** An admitted effect is listed in its subject, and publishes only bound bytes of its own artifact. */
  lemma AdmittedIsApproved(hash: Hash, r: Request, e: PublicEffect, finalized: Option<Finalized>, s: Subject)
    requires Admit(hash, r, e, finalized, s).Ok?
    ensures var a := Admit(hash, r, e, finalized, s).value;
            && a.effect == r && a.approval == s && SameIdentity(r, s)
            && PublicEffect(r.phase, r.operation, e.artifact) in s.publicEffects
            && (a.publication.Some? <==> e.artifact.Some?)
            && Recheck(hash, a).None?
            && (finalized.Some? ==>
                  OnlyBinding(s.artifacts,
                              ApprovedArtifact(r.artifact, finalized.value.identity, hash(finalized.value.bytes))))
  {
    var c :| c in s.publicEffects && c.phase == r.phase && c.operation == r.operation && c.artifact == e.artifact;
    assert c == PublicEffect(r.phase, r.operation, e.artifact);
    if e.artifact.Some? {
      PublicationIsBound(hash, PublicationRequest(r, FromPlan(finalized.value), s));
    }
  }

  // ------------------------------------------------ completeness for plans

  lemma {:induction false} BindingIsUnique(artifacts: seq<ApprovedArtifact>, k: nat)
    requires k < |artifacts|
    requires forall i, j | 0 <= i < j < |artifacts| :: artifacts[i].artifact != artifacts[j].artifact
    ensures Bindings(artifacts, artifacts[k].artifact) == [artifacts[k]]
    decreases |artifacts|
  {
    if k == 0 {
      NoBinding(artifacts[1..], artifacts[0].artifact);
    } else {
      BindingIsUnique(artifacts[1..], k - 1);
    }
  }

  lemma {:induction false} PlannedIsFound(artifacts: seq<PlannedArtifact>, k: nat)
    requires k < |artifacts| && DistinctArtifacts(artifacts)
    ensures FindPlanned(artifacts, artifacts[k].artifact) == Some(artifacts[k])
    decreases |artifacts|
  {
    if k > 0 { PlannedIsFound(artifacts[1..], k - 1); }
  }

  /** Facts of a plan built from a sound train. */
  lemma BuiltPlan(hash: Hash, rules: LocalRules, repository: string, digest: string, train: Train,
                  finalized: seq<Finalized>)
    requires Sound(rules, train) && BuildPlan(hash, repository, digest, train, finalized).Ok?
    ensures var plan := BuildPlan(hash, repository, digest, train, finalized).value;
            && DistinctArtifacts(plan.artifacts)
            && (forall k | 0 <= k < |plan.artifacts| ::
                  |plan.artifacts| == |train.artifacts| &&
                  Resolves(hash, finalized, train.artifacts[k], plan.artifacts[k]))
            && Disjoint(train.phases, plan.artifacts)
            && |plan.artifacts| == |train.artifacts|
  {
    ResolvedInOrder(hash, train.artifacts, finalized);
    var plan := BuildPlan(hash, repository, digest, train, finalized).value;
    forall i, j, a | 0 <= i < j < |train.phases| && a in plan.artifacts
      ensures Publication(train.phases[i].kind) && Publication(train.phases[j].kind) ==>
                !(Targets(train.phases[i], a.artifact) && Targets(train.phases[j], a.artifact))
    {
      var k :| 0 <= k < |plan.artifacts| && plan.artifacts[k] == a;
      assert train.artifacts[k] in train.artifacts && Resolves(hash, finalized, train.artifacts[k], a);
      assert SoundPhase(rules, train, j);
    }
  }

  /**
   A plan of a sound train is accepted by the registry, publishes each artifact at
   most once, and has an approval subject whenever it has an irreversible phase.
   */
  lemma PlansAreExecutable(hash: Hash, rules: LocalRules, repository: string, digest: string, train: Train,
                           finalized: seq<Finalized>)
    requires Sound(rules, train) && BuildPlan(hash, repository, digest, train, finalized).Ok?
    ensures var plan := BuildPlan(hash, repository, digest, train, finalized).value;
            && Ordered(plan.phases)
            && DistinctTargets(plan.publicEffects)
            && ((exists p <- plan.phases :: Irreversible(p.kind)) ==> BuildSubject(plan).Ok?)
  {
    var plan := BuildPlan(hash, repository, digest, train, finalized).value;
    BuiltPlan(hash, rules, repository, digest, train, finalized);
    SoundTrainIsOrdered(rules, train);
    EffectsTargetOnce(train.phases, Identity(train), plan.artifacts);
    if p :| p in plan.phases && Irreversible(p.kind) {
      var n :| 0 <= n < |plan.phases| && plan.phases[n] == p;
      assert train.phases[n].kind == p.kind;
      var k := Trigger(train.phases, |train.phases|).value;
      assert SoundPhase(rules, train, k);
      TriggerHasEffect(hash, train, finalized, plan.artifacts, k);
      SomeEffect(train.phases, Identity(train), plan.artifacts, k);
    }
  }

  lemma TriggerHasEffect(hash: Hash, train: Train, finalized: seq<Finalized>, artifacts: seq<PlannedArtifact>, k: nat)
    requires k < |train.phases| && Irreversible(train.phases[k].kind) && Identifiable(train, train.phases[k])
    requires Publication(train.phases[k].kind) ==> PublicationTargets(train, train.phases[k])
    requires |artifacts| == |train.artifacts|
    requires forall i | 0 <= i < |artifacts| :: Resolves(hash, finalized, train.artifacts[i], artifacts[i])
    ensures PhaseEffects(train.phases[k], Identity(train), artifacts) != []
  {
    var phase := train.phases[k];
    if Publication(phase.kind) {
      var listed := Param(phase, "artifacts");
      if listed.None? {
        SomeArtifactEffect(phase, artifacts, 0);
      } else {
        var items := listed.value.items;
        assert items[0] in items && Declared(train, items[0].text);
        var a :| a in train.artifacts && a.id == items[0].text;
        var i :| 0 <= i < |train.artifacts| && train.artifacts[i] == a;
        assert Resolves(hash, finalized, train.artifacts[i], artifacts[i]);
        SomeArtifactEffect(phase, artifacts, i);
      }
    }
  }

  /** Every effect of such a plan is admitted under the plan's own subject, with a known expected identity. */
  lemma PlansAreAdmitted(hash: Hash, rules: LocalRules, repository: string, digest: string, train: Train,
                         finalized: seq<Finalized>, e: PublicEffect)
    requires Sound(rules, train) && BuildPlan(hash, repository, digest, train, finalized).Ok?
    requires e in BuildPlan(hash, repository, digest, train, finalized).value.publicEffects
    ensures var plan := BuildPlan(hash, repository, digest, train, finalized).value;
            && BuildSubject(plan).Ok?
            && ExpectedIdentity(plan, e).Some?
            && Admit(hash, RequestFor(plan, e), e, MaterialFor(plan, e), BuildSubject(plan).value).Ok?
  {
    var plan := BuildPlan(hash, repository, digest, train, finalized).value;
    var s := BuildSubject(plan).value;
    assert Covers(s.publicEffects, RequestFor(plan, e), e.artifact);
    if e.artifact.Some? {
      BuiltPlan(hash, rules, repository, digest, train, finalized);
      EffectsBelong(train.phases, Identity(train), plan.artifacts);
      assert Owner(train.phases, plan.artifacts, e);
      var j: nat :| Belongs(train.phases, plan.artifacts, j, e);
      var a :| a in plan.artifacts && a.artifact == e.artifact.value;
      var k :| 0 <= k < |plan.artifacts| && plan.artifacts[k] == a;
      AdmitsArtifact(hash, plan, e, train.artifacts[k], k);
    }
  }

  lemma AdmitsArtifact(hash: Hash, plan: Plan, e: PublicEffect, declared: Artifact, k: nat)
    requires k < |plan.artifacts| && e.artifact == Some(plan.artifacts[k].artifact)
    requires Resolves(hash, plan.finalized, declared, plan.artifacts[k]) && DistinctArtifacts(plan.artifacts)
    requires e in plan.publicEffects && BuildSubject(plan).Ok?
    ensures ExpectedIdentity(plan, e) == Some(plan.artifacts[k].identity)
    ensures Admit(hash, RequestFor(plan, e), e, MaterialFor(plan, e), BuildSubject(plan).value).Ok?
  {
    PlannedIsFound(plan.artifacts, k);
    SuppliedIffFound(plan.finalized, declared.id);
    var s, r := BuildSubject(plan).value, RequestFor(plan, e);
    BindingIsUnique(s.artifacts, k);
    assert Covers(s.publicEffects, r, e.artifact);
    assert ValidatePublication(hash, PublicationRequest(r, FromPlan(MaterialFor(plan, e).value), s)).None?;
  }
}
