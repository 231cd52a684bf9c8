/**
 Planning: a validated train and its finalized artifact bytes become an ordered
 list of phases and of public effects; and the phase registry that admits a plan
 to execution.
 */
module ReleasePlan {
  import opened Bytes
  import opened Declaration
  import opened JsonValues
  import opened Wrappers

  datatype Finalized = Finalized(artifact: string, identity: string, bytes: seq<byte>)

  datatype ReleaseIdentity = Version(text: string) | RunId(text: string)

  datatype PlannedArtifact = PlannedArtifact(
    artifact: string, identityChannel: string, identity: string, digest: string)

  datatype PlannedPhase = PlannedPhase(instance: string, kind: PhaseType, params: Value, treeMutating: bool)

  datatype PublicEffect = PublicEffect(phase: string, operation: string, artifact: Option<string>)

  datatype Plan = Plan(
    repository: string, train: string, intendedCommit: string, declarationDigest: string,
    releaseIdentity: ReleaseIdentity, phases: seq<PlannedPhase>, artifacts: seq<PlannedArtifact>,
    firstPublicTrigger: Option<PublicEffect>, publicEffects: seq<PublicEffect>, finalized: seq<Finalized>)

  datatype PlanError =
    | UnknownTrain | MissingArtifact | UnexpectedArtifact | DuplicateArtifact | EmptyArtifactIdentity

  /** The hash of artifact bytes, in the text form approvals carry. */
  type Hash = seq<byte> -> string

  // ------------------------------------------------ resolving artifacts

  function Find(finalized: seq<Finalized>, artifact: string): Option<Finalized> {
    if finalized == [] then None
    else if finalized[0].artifact == artifact then Some(finalized[0])
    else Find(finalized[1..], artifact)
  }

  predicate Supplied(finalized: seq<Finalized>, artifact: string) {
    exists i | 0 <= i < |finalized| :: finalized[i].artifact == artifact
  }

  function IndexRefusal(train: Train, finalized: seq<Finalized>, i: nat): Option<PlanError>
    decreases |finalized| - i
  {
    if i >= |finalized| then None
    else if !Declared(train, finalized[i].artifact) then Some(UnexpectedArtifact)
    else if Supplied(finalized[..i], finalized[i].artifact) then Some(DuplicateArtifact)
    else if Blank(finalized[i].identity) then Some(EmptyArtifactIdentity)
    else IndexRefusal(train, finalized, i + 1)
  }

  /** A map of the supplied material, as the loop fills it. */
  method IndexArtifacts(train: Train, finalized: seq<Finalized>)
    returns (r: Result<map<string, Finalized>, PlanError>)
    ensures r.Err? <==> IndexRefusal(train, finalized, 0).Some?
    ensures r.Err? ==> IndexRefusal(train, finalized, 0) == Some(r.error)
    ensures r.Ok? ==> forall id ::
              Find(finalized, id) == if id in r.value then Some(r.value[id]) else None
  {
    var materials: map<string, Finalized> := map[];
    for i := 0 to |finalized|
      invariant IndexRefusal(train, finalized, 0) == IndexRefusal(train, finalized, i)
      invariant forall id ::
                  Find(finalized[..i], id) == if id in materials then Some(materials[id]) else None
    {
      var material := finalized[i];
      assert Find(finalized[..i], material.artifact) ==
             if material.artifact in materials then Some(materials[material.artifact]) else None;
      SuppliedIffFound(finalized[..i], material.artifact);
      if !Declared(train, material.artifact) { return Err(UnexpectedArtifact); }
      if material.artifact in materials { return Err(DuplicateArtifact); }
      materials := materials[material.artifact := material];
      if Blank(material.identity) { return Err(EmptyArtifactIdentity); }
      forall id: string
        ensures Find(finalized[..i + 1], id) == if id in materials then Some(materials[id]) else None
      {
        assert finalized[..i + 1] == finalized[..i] + [material];
        FindConcat(finalized[..i], [material], id);
      }
    }
    assert finalized[..|finalized|] == finalized;
    return Ok(materials);
  }

  lemma {:induction false} FindConcat(a: seq<Finalized>, b: seq<Finalized>, id: string)
    ensures Find(a + b, id) == if Find(a, id).Some? then Find(a, id) else Find(b, id)
  {
    if a == [] {
      NilConcat(b);
    } else {
      assert (a + b)[1..] == a[1..] + b;
      FindConcat(a[1..], b, id);
    }
  }

  lemma {:induction false} SuppliedIffFound(finalized: seq<Finalized>, id: string)
    ensures Supplied(finalized, id) <==> Find(finalized, id).Some?
    ensures Find(finalized, id).Some? ==>
              Find(finalized, id).value.artifact == id && Find(finalized, id).value in finalized
  {
    if finalized != [] {
      SuppliedIffFound(finalized[1..], id);
      if finalized[0].artifact != id && Supplied(finalized, id) {
        var i :| 0 <= i < |finalized| && finalized[i].artifact == id;
        assert finalized[1..][i - 1].artifact == id;
      }
      if Supplied(finalized[1..], id) {
        var i :| 0 <= i < |finalized[1..]| && finalized[1..][i].artifact == id;
        assert finalized[i + 1].artifact == id;
      }
    }
  }

  function ResolveArtifacts(hash: Hash, artifacts: seq<Artifact>, finalized: seq<Finalized>):
    Result<seq<PlannedArtifact>, PlanError>
    requires forall a <- artifacts :: a.identityChannel.Some?
  {
    if artifacts == [] then Ok([])
    else
      match Find(finalized, artifacts[0].id)
      case None => Err(MissingArtifact)
      case Some(material) =>
        match ResolveArtifacts(hash, artifacts[1..], finalized)
        case Err(e) => Err(e)
        case Ok(more) =>
          Ok([PlannedArtifact(material.artifact, artifacts[0].identityChannel.value, material.identity,
                              hash(material.bytes))] + more)
  }

  // ------------------------------------------------ phases and effects

  predicate TreeMutating(t: PhaseType) { t.Stamp? || t.Tag? || t.ResidueSweep? }

  function Planned(phase: Phase): PlannedPhase {
    PlannedPhase(phase.id, phase.kind, phase.params, TreeMutating(phase.kind))
  }

  function AllPlanned(phases: seq<Phase>): seq<PlannedPhase> {
    seq(|phases|, i requires 0 <= i < |phases| => Planned(phases[i]))
  }

  function Identity(train: Train): ReleaseIdentity {
    if train.tag.Some? then Version(train.tag.value) else RunId(train.id + "-" + train.intendedCommit)
  }

  function PublicationName(t: PhaseType): string { if t.Publish? then "publish" else "assets" }

  function ArtifactEffect(phase: Phase, artifact: string): PublicEffect {
    PublicEffect(phase.id, PublicationName(phase.kind) + ":" + artifact, Some(artifact))
  }

  function ArtifactEffects(phase: Phase, artifacts: seq<PlannedArtifact>): seq<PublicEffect> {
    if artifacts == [] then []
    else
      (if Targets(phase, artifacts[0].artifact) then [ArtifactEffect(phase, artifacts[0].artifact)] else []) +
      ArtifactEffects(phase, artifacts[1..])
  }

  function PhaseEffects(phase: Phase, identity: ReleaseIdentity, artifacts: seq<PlannedArtifact>): seq<PublicEffect> {
    if phase.kind.Tag? then [PublicEffect(phase.id, "tag:" + identity.text, None)]
    else if Publication(phase.kind) then ArtifactEffects(phase, artifacts)
    else []
  }

  function AllEffects(phases: seq<Phase>, identity: ReleaseIdentity, artifacts: seq<PlannedArtifact>):
    seq<PublicEffect>
  {
    if phases == [] then []
    else PhaseEffects(phases[0], identity, artifacts) + AllEffects(phases[1..], identity, artifacts)
  }

  function First(effects: seq<PublicEffect>): Option<PublicEffect> {
    if effects == [] then None else Some(effects[0])
  }

  function BuildPlan(hash: Hash, repository: string, declarationDigest: string, train: Train,
                     finalized: seq<Finalized>): Result<Plan, PlanError>
    requires SoundArtifacts(train.artifacts)
  {
    if IndexRefusal(train, finalized, 0).Some? then Err(IndexRefusal(train, finalized, 0).value)
    else
      match ResolveArtifacts(hash, train.artifacts, finalized)
      case Err(e) => Err(e)
      case Ok(artifacts) =>
        var effects := AllEffects(train.phases, Identity(train), artifacts);
        Ok(Plan(repository, train.id, train.intendedCommit, declarationDigest, Identity(train),
                AllPlanned(train.phases), artifacts, First(effects), effects, finalized))
  }

  // ------------------------------------------------ the phase registry

  datatype PhaseClass = MayRefuse | Public | AfterBoundary

  datatype RegistryRefusal = UnknownPhase | UnsafeOrdering

  function Classify(t: PhaseType): Option<PhaseClass> {
    match t
    case Preflight => Some(MayRefuse)
    case GatesLocal => Some(MayRefuse)
    case CiWatch => Some(MayRefuse)
    case Build => Some(MayRefuse)
    case Stamp => Some(MayRefuse)
    case FormatDirty => Some(MayRefuse)
    case StaleResidue => Some(MayRefuse)
    case SiblingDrift => Some(MayRefuse)
    case ContextFitness => Some(MayRefuse)
    case ToolPinning => Some(MayRefuse)
    case ResidueSweep => Some(MayRefuse)
    case Tag => Some(Public)
    case Publish => Some(Public)
    case Assets => Some(Public)
    case VerifyReadback => Some(AfterBoundary)
    case Stage => Some(AfterBoundary)
    case Notify => Some(AfterBoundary)
    case Unregistered(_) => None
  }

  /** Every phase is registered and nothing that may refuse comes after a public phase. */
  predicate Ordered(phases: seq<PlannedPhase>) {
    && (forall k | 0 <= k < |phases| :: Classify(phases[k].kind).Some?)
    && (forall j, k | 0 <= j < k < |phases| ::
          Classify(phases[j].kind) == Some(Public) ==> Classify(phases[k].kind) != Some(MayRefuse))
  }

  /** The registry reads the phases in order and accepts exactly the ordered plans. */
  method ValidatePlan(phases: seq<PlannedPhase>) returns (r: Option<RegistryRefusal>, at: nat)
    ensures r.None? <==> Ordered(phases)
    ensures r.Some? ==> at < |phases| && Ordered(phases[..at]) && !Ordered(phases[..at + 1])
    ensures r == Some(UnknownPhase) ==> Classify(phases[at].kind).None?
    ensures r == Some(UnsafeOrdering) ==> Classify(phases[at].kind) == Some(MayRefuse)
  {
    var irreversible: Option<nat> := None;
    for i := 0 to |phases|
      invariant Ordered(phases[..i])
      invariant irreversible.Some? ==>
                  irreversible.value < i && Classify(phases[irreversible.value].kind) == Some(Public)
      invariant irreversible.None? ==> forall k | 0 <= k < i :: Classify(phases[k].kind) != Some(Public)
    {
      var kind := Classify(phases[i].kind);
      if kind.None? {
        assert phases[..i + 1][i] == phases[i];
        return Some(UnknownPhase), i;
      }
      if irreversible.Some? && kind == Some(MayRefuse) {
        assert !Ordered(phases[..i + 1]) by {
          assert phases[..i + 1][irreversible.value] == phases[irreversible.value] && phases[..i + 1][i] == phases[i];
        }
        return Some(UnsafeOrdering), i;
      }
      if irreversible.None? && kind == Some(Public) { irreversible := Some(i); }
      OrderedMore(phases, i);
    }
    assert phases[..|phases|] == phases;
    return None, |phases|;
  }

  lemma OrderedMore(phases: seq<PlannedPhase>, i: nat)
    requires i < |phases| && Ordered(phases[..i]) && Classify(phases[i].kind).Some?
    requires Classify(phases[i].kind) == Some(MayRefuse) ==>
               forall k | 0 <= k < i :: Classify(phases[k].kind) != Some(Public)
    ensures Ordered(phases[..i + 1])
  {
    var before, after := phases[..i], phases[..i + 1];
    assert forall k | 0 <= k < i :: after[k] == before[k];
  }

  // ------------------------------------------------ what planning guarantees

  /** The declaration's own ordering rule and the registry's agree. */
  lemma ClassesAgree(t: PhaseType)
    ensures Classify(t) == Some(Public) <==> Irreversible(t)
    ensures !t.Unregistered? ==> (Classify(t) == Some(MayRefuse) <==> RefusalCapable(t))
    ensures Classify(t).None? <==> t.Unregistered?
  {
  }

  /** No plan of a sound train is refused by the registry. */
  lemma SoundTrainIsOrdered(rules: LocalRules, train: Train)
    requires SoundPhases(rules, train)
    ensures Ordered(AllPlanned(train.phases))
  {
    var planned := AllPlanned(train.phases);
    forall k | 0 <= k < |planned| ensures Classify(planned[k].kind).Some? {
      assert SoundPhase(rules, train, k);
      ClassesAgree(planned[k].kind);
    }
    forall j, k | 0 <= j < k < |planned|
      ensures Classify(planned[j].kind) == Some(Public) ==> Classify(planned[k].kind) != Some(MayRefuse)
    {
      assert SoundPhase(rules, train, k);
      ClassesAgree(planned[j].kind);
      ClassesAgree(planned[k].kind);
    }
  }

  /** What is known of each resolved artifact. */
  predicate Resolves(hash: Hash, finalized: seq<Finalized>, declared: Artifact, planned: PlannedArtifact) {
    && planned.artifact == declared.id && Some(planned.identityChannel) == declared.identityChannel
    && var material := Find(finalized, declared.id);
       material.Some? && planned.identity == material.value.identity && planned.digest == hash(material.value.bytes)
  }

  lemma {:induction false} ResolvedInOrder(hash: Hash, artifacts: seq<Artifact>, finalized: seq<Finalized>)
    requires forall a <- artifacts :: a.identityChannel.Some?
    requires ResolveArtifacts(hash, artifacts, finalized).Ok?
    ensures var planned := ResolveArtifacts(hash, artifacts, finalized).value;
            && |planned| == |artifacts|
            && forall i | 0 <= i < |artifacts| :: Resolves(hash, finalized, artifacts[i], planned[i])
  {
    if artifacts != [] {
      SuppliedIffFound(finalized, artifacts[0].id);
      ResolvedInOrder(hash, artifacts[1..], finalized);
    }
  }

  predicate DistinctArtifacts(artifacts: seq<PlannedArtifact>) {
    forall i, j | 0 <= i < j < |artifacts| :: artifacts[i].artifact != artifacts[j].artifact
  }

  predicate Known(artifacts: seq<PlannedArtifact>, id: string) { exists a <- artifacts :: a.artifact == id }

  /** An effect that phase `j` stands behind. */
  predicate Belongs(phases: seq<Phase>, artifacts: seq<PlannedArtifact>, j: nat, e: PublicEffect) {
    && j < |phases| && e.phase == phases[j].id
    && (if phases[j].kind.Tag? then e.artifact.None?
        else
          && Publication(phases[j].kind) && e.artifact.Some?
          && Targets(phases[j], e.artifact.value) && Known(artifacts, e.artifact.value))
  }

  lemma {:induction false} ArtifactEffectsBelong(phases: seq<Phase>, phase: Phase, artifacts: seq<PlannedArtifact>,
                                                 all: seq<PlannedArtifact>)
    requires phases != [] && phases[0] == phase && Publication(phase.kind)
    requires forall a <- artifacts :: a in all
    requires DistinctArtifacts(artifacts)
    ensures forall e <- ArtifactEffects(phase, artifacts) ::
              Belongs(phases, all, 0, e) && Known(artifacts, e.artifact.value)
    ensures DistinctTargets(ArtifactEffects(phase, artifacts))
  {
    if artifacts != [] {
      assert artifacts[0] in artifacts && forall a <- artifacts[1..] :: a in artifacts;
      ArtifactEffectsBelong(phases, phase, artifacts[1..], all);
    }
  }

  predicate DistinctTargets(effects: seq<PublicEffect>) {
    forall i, j | 0 <= i < j < |effects| ::
      effects[i].artifact.Some? && effects[j].artifact.Some? ==> effects[i].artifact != effects[j].artifact
  }

  lemma PhaseEffectsBelong(phases: seq<Phase>, identity: ReleaseIdentity, artifacts: seq<PlannedArtifact>)
    requires phases != [] && DistinctArtifacts(artifacts)
    ensures forall e <- PhaseEffects(phases[0], identity, artifacts) :: Belongs(phases, artifacts, 0, e)
    ensures DistinctTargets(PhaseEffects(phases[0], identity, artifacts))
  {
    if Publication(phases[0].kind) { ArtifactEffectsBelong(phases, phases[0], artifacts, artifacts); }
  }

  // ---- the effects, place by place

  /** Where an effect comes from: a phase, and the artifact it is for; a tag has place zero of its phase. */
  datatype Slot = Slot(phase: nat, artifact: nat)

  predicate SlotBefore(a: Slot, b: Slot) { a.phase < b.phase || (a.phase == b.phase && a.artifact < b.artifact) }

  predicate SlotsRise(slots: seq<Slot>) { forall i, j | 0 <= i < j < |slots| :: SlotBefore(slots[i], slots[j]) }

  /** The places that earn an effect. */
  predicate Earns(phases: seq<Phase>, artifacts: seq<PlannedArtifact>, s: Slot) {
    && s.phase < |phases|
    && if phases[s.phase].kind.Tag? then s.artifact == 0
       else
         && Publication(phases[s.phase].kind) && s.artifact < |artifacts|
         && Targets(phases[s.phase], artifacts[s.artifact].artifact)
  }

  /** The effect a place earns. */
  function EffectAt(phases: seq<Phase>, identity: ReleaseIdentity, artifacts: seq<PlannedArtifact>, s: Slot)
    : PublicEffect
    requires Earns(phases, artifacts, s)
  {
    var phase := phases[s.phase];
    if phase.kind.Tag? then PublicEffect(phase.id, "tag:" + identity.text, None)
    else ArtifactEffect(phase, artifacts[s.artifact].artifact)
  }

  /** `effects` are exactly those of `slots`, one for one. */
  predicate Fits(phases: seq<Phase>, identity: ReleaseIdentity, artifacts: seq<PlannedArtifact>, slots: seq<Slot>,
                 effects: seq<PublicEffect>)
  {
    && |slots| == |effects| && SlotsRise(slots)
    && forall k | 0 <= k < |slots| ::
         Earns(phases, artifacts, slots[k]) && effects[k] == EffectAt(phases, identity, artifacts, slots[k])
  }

  /** The places of one phase, from artifact `i` on. */
  function ArtifactSlots(phase: Phase, artifacts: seq<PlannedArtifact>, j: nat, i: nat): seq<Slot>
    decreases |artifacts| - i
  {
    if i >= |artifacts| then []
    else
      (if Targets(phase, artifacts[i].artifact) then [Slot(j, i)] else []) + ArtifactSlots(phase, artifacts, j, i + 1)
  }

  lemma {:induction false} ArtifactSlotsFit(phase: Phase, artifacts: seq<PlannedArtifact>, j: nat, i: nat)
    requires i <= |artifacts|
    ensures var slots, effects := ArtifactSlots(phase, artifacts, j, i), ArtifactEffects(phase, artifacts[i..]);
            && |slots| == |effects| && SlotsRise(slots)
            && (forall k | 0 <= k < |slots| ::
                  && slots[k].phase == j && i <= slots[k].artifact < |artifacts|
                  && effects[k] == ArtifactEffect(phase, artifacts[slots[k].artifact].artifact))
            && (forall s :: s in slots <==>
                  s.phase == j && i <= s.artifact < |artifacts| && Targets(phase, artifacts[s.artifact].artifact))
    decreases |artifacts| - i
  {
    if i < |artifacts| {
      ArtifactSlotsFit(phase, artifacts, j, i + 1);
      assert artifacts[i..][1..] == artifacts[i + 1..];
    }
  }

  function PhaseSlots(phase: Phase, artifacts: seq<PlannedArtifact>, j: nat): seq<Slot> {
    if phase.kind.Tag? then [Slot(j, 0)]
    else if Publication(phase.kind) then ArtifactSlots(phase, artifacts, j, 0)
    else []
  }

  lemma PhaseSlotsFit(phases: seq<Phase>, identity: ReleaseIdentity, artifacts: seq<PlannedArtifact>, j: nat)
    requires j < |phases|
    ensures var slots := PhaseSlots(phases[j], artifacts, j);
            && Fits(phases, identity, artifacts, slots, PhaseEffects(phases[j], identity, artifacts))
            && forall s :: s in slots <==> s.phase == j && Earns(phases, artifacts, s)
  {
    ArtifactSlotsFit(phases[j], artifacts, j, 0);
    assert artifacts[0..] == artifacts;
    var slots := PhaseSlots(phases[j], artifacts, j);
    forall k | 0 <= k < |slots| ensures Earns(phases, artifacts, slots[k]) { assert slots[k] in slots; }
  }

  function AllSlots(phases: seq<Phase>, artifacts: seq<PlannedArtifact>, j: nat): seq<Slot>
    decreases |phases| - j
  {
    if j >= |phases| then [] else PhaseSlots(phases[j], artifacts, j) + AllSlots(phases, artifacts, j + 1)
  }

  lemma FitsConcat(phases: seq<Phase>, identity: ReleaseIdentity, artifacts: seq<PlannedArtifact>, a: seq<Slot>,
                   x: seq<PublicEffect>, b: seq<Slot>, y: seq<PublicEffect>, j: nat)
    requires Fits(phases, identity, artifacts, a, x) && Fits(phases, identity, artifacts, b, y)
    requires (forall s <- a :: s.phase == j) && (forall s <- b :: s.phase > j)
    ensures Fits(phases, identity, artifacts, a + b, x + y)
  {
    forall i, k | 0 <= i < k < |a + b| ensures SlotBefore((a + b)[i], (a + b)[k]) {
      if i < |a| { assert a[i] in a; }
      if k >= |a| { assert b[k - |a|] in b; }
    }
  }

  lemma {:induction false} AllSlotsFit(phases: seq<Phase>, identity: ReleaseIdentity, artifacts: seq<PlannedArtifact>,
                                       j: nat)
    requires j <= |phases|
    ensures var slots := AllSlots(phases, artifacts, j);
            && Fits(phases, identity, artifacts, slots, AllEffects(phases[j..], identity, artifacts))
            && forall s :: s in slots <==> s.phase >= j && Earns(phases, artifacts, s)
    decreases |phases| - j
  {
    if j < |phases| {
      PhaseSlotsFit(phases, identity, artifacts, j);
      AllSlotsFit(phases, identity, artifacts, j + 1);
      assert phases[j..][0] == phases[j] && phases[j..][1..] == phases[j + 1..];
      FitsConcat(phases, identity, artifacts, PhaseSlots(phases[j], artifacts, j),
                 PhaseEffects(phases[j], identity, artifacts), AllSlots(phases, artifacts, j + 1),
                 AllEffects(phases[j + 1..], identity, artifacts), j);
    }
  }

  /**
   The effects are exactly those of the places that earn one, each once, phase by
   phase and within a phase in the order of the artifacts.
   */
  lemma EffectsAre(phases: seq<Phase>, identity: ReleaseIdentity, artifacts: seq<PlannedArtifact>)
    returns (slots: seq<Slot>)
    ensures Fits(phases, identity, artifacts, slots, AllEffects(phases, identity, artifacts))
    ensures forall s :: s in slots <==> Earns(phases, artifacts, s)
  {
    AllSlotsFit(phases, identity, artifacts, 0);
    assert phases[0..] == phases;
    slots := AllSlots(phases, artifacts, 0);
  }

  ghost predicate Owner(phases: seq<Phase>, artifacts: seq<PlannedArtifact>, e: PublicEffect) {
    exists j: nat :: Belongs(phases, artifacts, j, e)
  }

  lemma {:induction false} EffectsBelong(phases: seq<Phase>, identity: ReleaseIdentity, artifacts: seq<PlannedArtifact>)
    requires DistinctArtifacts(artifacts)
    ensures forall e <- AllEffects(phases, identity, artifacts) :: Owner(phases, artifacts, e)
  {
    if phases != [] {
      PhaseEffectsBelong(phases, identity, artifacts);
      EffectsBelong(phases[1..], identity, artifacts);
      forall e | e in AllEffects(phases[1..], identity, artifacts) ensures Owner(phases, artifacts, e) {
        assert Owner(phases[1..], artifacts, e);
        var j: nat :| Belongs(phases[1..], artifacts, j, e);
        assert Belongs(phases, artifacts, j + 1, e);
      }
      forall e | e in PhaseEffects(phases[0], identity, artifacts) ensures Owner(phases, artifacts, e) {
        assert Belongs(phases, artifacts, 0, e);
      }
    }
  }

  /** No artifact is published by two different phases. */
  predicate Disjoint(phases: seq<Phase>, artifacts: seq<PlannedArtifact>) {
    forall i, j, a | 0 <= i < j < |phases| && a in artifacts ::
      Publication(phases[i].kind) && Publication(phases[j].kind) ==>
        !(Targets(phases[i], a.artifact) && Targets(phases[j], a.artifact))
  }

  lemma {:induction false} EffectsTargetOnce(phases: seq<Phase>, identity: ReleaseIdentity,
                                             artifacts: seq<PlannedArtifact>)
    requires DistinctArtifacts(artifacts) && Disjoint(phases, artifacts)
    ensures DistinctTargets(AllEffects(phases, identity, artifacts))
  {
    if phases != [] {
      var here, later := PhaseEffects(phases[0], identity, artifacts), AllEffects(phases[1..], identity, artifacts);
      PhaseEffectsBelong(phases, identity, artifacts);
      EffectsBelong(phases[1..], identity, artifacts);
      assert Disjoint(phases[1..], artifacts);
      EffectsTargetOnce(phases[1..], identity, artifacts);
      forall a, b | a in here && b in later && a.artifact.Some? ensures a.artifact != b.artifact {
        assert Owner(phases[1..], artifacts, b);
        assert Belongs(phases, artifacts, 0, a);
        var j: nat :| Belongs(phases[1..], artifacts, j, b);
        assert phases[1..][j] == phases[j + 1];
      }
      DistinctConcat(here, later);
    }
  }

  lemma DistinctConcat(a: seq<PublicEffect>, b: seq<PublicEffect>)
    requires DistinctTargets(a) && DistinctTargets(b)
    requires forall x, y | x in a && y in b && x.artifact.Some? :: x.artifact != y.artifact
    ensures DistinctTargets(a + b)
  {
  }

  /** A trigger that can be identified yields at least one effect. */
  lemma {:induction false} SomeEffect(phases: seq<Phase>, identity: ReleaseIdentity, artifacts: seq<PlannedArtifact>,
                                      k: nat)
    requires k < |phases| && PhaseEffects(phases[k], identity, artifacts) != []
    ensures AllEffects(phases, identity, artifacts) != []
    decreases k
  {
    if k > 0 { SomeEffect(phases[1..], identity, artifacts, k - 1); }
  }

  lemma {:induction false} SomeArtifactEffect(phase: Phase, artifacts: seq<PlannedArtifact>, k: nat)
    requires k < |artifacts| && Targets(phase, artifacts[k].artifact)
    ensures ArtifactEffects(phase, artifacts) != []
    decreases k
  {
    if k > 0 { SomeArtifactEffect(phase, artifacts[1..], k - 1); }
  }
}
