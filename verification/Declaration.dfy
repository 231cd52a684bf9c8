/**
 A release declaration: trains of typed phases over declared artifacts, and the
 validation that admits a train to planning.
 */
module Declaration {
  import opened JsonValues
  import opened Wrappers

  datatype PhaseType =
    | Preflight | GatesLocal | CiWatch | Build | Stamp
    | FormatDirty | StaleResidue | SiblingDrift | ContextFitness | ToolPinning | ResidueSweep
    | Tag | Publish | Assets
    | VerifyReadback | Stage | Notify
    | Unregistered(name: string)

  datatype Phase = Phase(id: string, kind: PhaseType, params: Value)

  datatype Artifact = Artifact(id: string, kind: string, identityChannel: Option<string>)

  datatype Train = Train(
    id: string, intendedCommit: string, tag: Option<string>, phases: seq<Phase>,
    artifacts: seq<Artifact>, signingProfile: string, operatorGates: seq<string>)

  datatype Code =
    | DuplicatePhaseId | DuplicateArtifactId | UnknownPhaseType | InvalidPhaseParameters
    | MissingArtifactIdentityChannel | InvalidArtifactIdentityChannel | InvalidSigningProfile
    | UnsafeOperatorGate | MissingFirstPublicTrigger | UnsafePhaseOrdering | InvalidNoTagTrain

  const IDENTITY_CHANNELS := {
    "tag_at_commit", "registry_version", "asset_sha256", "gh_release", "embedded_build_sha"}
  const SIGNING_PROFILES := {"none", "minisign", "cosign", "apple_codesign"}
  const PUBLIC_TRIGGER := "first_public_trigger"

  predicate Irreversible(t: PhaseType) { t.Tag? || t.Publish? || t.Assets? }

  predicate RefusalCapable(t: PhaseType) {
    !Irreversible(t) && !t.VerifyReadback? && !t.Stage? && !t.Notify?
  }

  predicate Publication(t: PhaseType) { t.Publish? || t.Assets? }

  /** Unicode White_Space, which trimming removes. */
  predicate WhiteSpace(c: char) {
    var u := c as int;
    || 0x9 <= u <= 0xD || u == 0x20 || u == 0x85 || u == 0xA0 || u == 0x1680
    || 0x2000 <= u <= 0x200A || u == 0x2028 || u == 0x2029 || u == 0x202F || u == 0x205F || u == 0x3000
  }

  predicate Blank(s: string) { forall c <- s :: WhiteSpace(c) }

  function Param(phase: Phase, key: string): Option<Value> {
    if phase.params.Obj? then Get(phase.params.members, key) else None
  }

  /** Publication defaults to every artifact. */
  predicate Targets(phase: Phase, artifact: string) {
    var listed := Param(phase, "artifacts");
    listed.None? || (listed.value.Arr? && Str(artifact) in listed.value.items)
  }

  predicate Declared(train: Train, artifact: string) { exists a <- train.artifacts :: a.id == artifact }

  // ------------------------------------------------ validation, rule by rule

  /** The rules for local phases that are kept elsewhere: parameters of prechecks and commands. */
  type LocalRules = Phase -> bool

  predicate NonBlankText(v: Option<Value>) { v.Some? && v.value.Str? && !Blank(v.value.text) }

  predicate NonEmptyText(v: Option<Value>) { v.Some? && v.value.Str? && v.value.text != "" }

  predicate CiWatchParams(phase: Phase) {
    var budget := Param(phase, "rerun_budget");
    && NonBlankText(Param(phase, "workflow")) && NonBlankText(Param(phase, "selector"))
    && budget.Some? && budget.value.Int? && 0 <= budget.value.value < 0x1_0000_0000_0000_0000
  }

  predicate GoodTargets(train: Train, items: seq<Value>) {
    && items != []
    && (forall i | 0 <= i < |items| :: items[i].Str? && Declared(train, items[i].text))
    && (forall i, j | 0 <= i < j < |items| :: items[i] != items[j])
  }

  predicate PublicationTargets(train: Train, phase: Phase) {
    var listed := Param(phase, "artifacts");
    listed.None? || (listed.value.Arr? && GoodTargets(train, listed.value.items))
  }

  predicate HasTag(train: Train, phase: Phase) {
    (train.tag.Some? && train.tag.value != "") || NonEmptyText(Param(phase, "tag"))
  }

  function ParameterRefusal(rules: LocalRules, train: Train, phase: Phase): Option<Code> {
    if !phase.params.Obj? || !rules(phase) then Some(InvalidPhaseParameters)
    else if phase.kind.CiWatch? && !CiWatchParams(phase) then Some(InvalidPhaseParameters)
    else if Publication(phase.kind) && !PublicationTargets(train, phase) then Some(InvalidPhaseParameters)
    else if phase.kind.Tag? && !HasTag(train, phase) then Some(MissingFirstPublicTrigger)
    else None
  }

  predicate Identifiable(train: Train, trigger: Phase) {
    if trigger.kind.Tag? then HasTag(train, trigger) else train.artifacts != []
  }

  /** The first irreversible phase among the first `n`. */
  function Trigger(phases: seq<Phase>, n: nat): Option<nat>
    requires n <= |phases|
    ensures var t := Trigger(phases, n);
            && (t.None? ==> forall i | 0 <= i < n :: !Irreversible(phases[i].kind))
            && (t.Some? ==> t.value < n && Irreversible(phases[t.value].kind))
            && (t.Some? ==> forall i | 0 <= i < t.value :: !Irreversible(phases[i].kind))
  {
    if n == 0 then None
    else
      var earlier := Trigger(phases, n - 1);
      if earlier.Some? then earlier
      else if Irreversible(phases[n - 1].kind) then Some(n - 1)
      else None
  }

  /** Some artifact is published both by phase `i` and by an earlier phase. */
  predicate Overlaps(train: Train, i: nat)
    requires i < |train.phases|
  {
    && Publication(train.phases[i].kind)
    && exists a <- train.artifacts, j | 0 <= j < i ::
         Publication(train.phases[j].kind) && Targets(train.phases[j], a.id) && Targets(train.phases[i], a.id)
  }

  function GateRefusal(gates: seq<string>, i: nat): Option<Code>
    decreases |gates| - i
  {
    if i >= |gates| then None
    else if gates[i] != PUBLIC_TRIGGER || gates[i] in gates[..i] then Some(UnsafeOperatorGate)
    else GateRefusal(gates, i + 1)
  }

  function Ids(artifacts: seq<Artifact>): set<string> { set a <- artifacts :: a.id }

  function PhaseIds(phases: seq<Phase>): set<string> { set p <- phases :: p.id }

  function OneArtifactRefusal(a: Artifact, earlier: set<string>): Option<Code> {
    if Blank(a.id) || a.id in earlier then Some(DuplicateArtifactId)
    else if a.identityChannel.None? then Some(MissingArtifactIdentityChannel)
    else if a.identityChannel.value !in IDENTITY_CHANNELS then Some(InvalidArtifactIdentityChannel)
    else if Blank(a.kind) then Some(InvalidPhaseParameters)
    else None
  }

  function ArtifactRefusal(artifacts: seq<Artifact>, i: nat): Option<Code>
    decreases |artifacts| - i
  {
    if i >= |artifacts| then None
    else
      var here := OneArtifactRefusal(artifacts[i], Ids(artifacts[..i]));
      if here.Some? then here else ArtifactRefusal(artifacts, i + 1)
  }

  function OnePhaseRefusal(rules: LocalRules, train: Train, i: nat): Option<Code>
    requires i < |train.phases|
  {
    var phase := train.phases[i];
    if Blank(phase.id) || phase.id in PhaseIds(train.phases[..i]) then Some(DuplicatePhaseId)
    else if phase.kind.Unregistered? then Some(UnknownPhaseType)
    else if ParameterRefusal(rules, train, phase).Some? then ParameterRefusal(rules, train, phase)
    else if Overlaps(train, i) then Some(InvalidPhaseParameters)
    else if Trigger(train.phases, i).Some? && RefusalCapable(phase.kind) then Some(UnsafePhaseOrdering)
    else None
  }

  function PhaseRefusal(rules: LocalRules, train: Train, i: nat): Option<Code>
    decreases |train.phases| - i
  {
    if i >= |train.phases| then None
    else
      var here := OnePhaseRefusal(rules, train, i);
      if here.Some? then here else PhaseRefusal(rules, train, i + 1)
  }

  function TriggerRefusal(train: Train): Option<Code> {
    var trigger := Trigger(train.phases, |train.phases|);
    if trigger.Some? then
      if PUBLIC_TRIGGER !in train.operatorGates then Some(UnsafeOperatorGate)
      else if !Identifiable(train, train.phases[trigger.value]) then Some(MissingFirstPublicTrigger)
      else None
    else if train.operatorGates != [] then Some(UnsafeOperatorGate)
    else None
  }

  predicate NeedsTag(phase: Phase) { phase.kind.Tag? || phase.kind.Publish? }

  /** The first rule a train breaks, in the order the rules are checked. */
  function Refusal(rules: LocalRules, train: Train): Option<Code> {
    if Blank(train.intendedCommit) then Some(InvalidPhaseParameters)
    else if train.signingProfile !in SIGNING_PROFILES then Some(InvalidSigningProfile)
    else if GateRefusal(train.operatorGates, 0).Some? then GateRefusal(train.operatorGates, 0)
    else if ArtifactRefusal(train.artifacts, 0).Some? then ArtifactRefusal(train.artifacts, 0)
    else if PhaseRefusal(rules, train, 0).Some? then PhaseRefusal(rules, train, 0)
    else if TriggerRefusal(train).Some? then TriggerRefusal(train)
    else if train.tag.None? && exists p <- train.phases :: NeedsTag(p) then Some(InvalidNoTagTrain)
    else None
  }

  // ------------------------------------------------ what an accepted train is

  predicate SoundArtifacts(artifacts: seq<Artifact>) {
    && (forall a <- artifacts ::
          && !Blank(a.id) && !Blank(a.kind)
          && a.identityChannel.Some? && a.identityChannel.value in IDENTITY_CHANNELS)
    && (forall i, j | 0 <= i < j < |artifacts| :: artifacts[i].id != artifacts[j].id)
  }

  /** Parameters obey the phase's own rules; publications name declared targets, and a tag phase has a tag. */
  predicate SoundParameters(rules: LocalRules, train: Train, phase: Phase) {
    && phase.params.Obj? && rules(phase)
    && (phase.kind.CiWatch? ==> CiWatchParams(phase))
    && (Publication(phase.kind) ==> PublicationTargets(train, phase))
    && (phase.kind.Tag? ==> HasTag(train, phase))
  }

  /** A phase is well formed by itself and against every phase before it. */
  predicate SoundPhase(rules: LocalRules, train: Train, k: nat)
    requires k < |train.phases|
  {
    var phase := train.phases[k];
    && !Blank(phase.id) && !phase.kind.Unregistered? && SoundParameters(rules, train, phase)
    && (forall j | 0 <= j < k :: train.phases[j].id != phase.id)
    && (forall j, a | 0 <= j < k && a in train.artifacts ::
          Publication(train.phases[j].kind) && Publication(phase.kind) ==>
            !(Targets(train.phases[j], a.id) && Targets(phase, a.id)))
    && (forall j | 0 <= j < k :: Irreversible(train.phases[j].kind) ==> !RefusalCapable(phase.kind))
  }

  predicate SoundPhases(rules: LocalRules, train: Train) {
    forall k | 0 <= k < |train.phases| :: SoundPhase(rules, train, k)
  }

  /** The public boundary is gated, identifiable and tagged where it must be. */
  predicate SoundBoundary(train: Train) {
    && (train.operatorGates != [] <==> exists p <- train.phases :: Irreversible(p.kind))
    && (train.operatorGates == [] || train.operatorGates == [PUBLIC_TRIGGER])
    && (forall i | 0 <= i < |train.phases| && Irreversible(train.phases[i].kind) ::
          (forall j | 0 <= j < i :: !Irreversible(train.phases[j].kind)) ==> Identifiable(train, train.phases[i]))
    && (train.tag.None? ==> forall p <- train.phases :: !NeedsTag(p))
  }

  predicate Sound(rules: LocalRules, train: Train) {
    && !Blank(train.intendedCommit) && train.signingProfile in SIGNING_PROFILES
    && SoundArtifacts(train.artifacts) && SoundPhases(rules, train) && SoundBoundary(train)
  }

  lemma {:induction false} GatesSound(gates: seq<string>, i: nat)
    requires i <= |gates|
    ensures GateRefusal(gates, i).None? <==>
            forall k | i <= k < |gates| :: gates[k] == PUBLIC_TRIGGER && gates[k] !in gates[..k]
    decreases |gates| - i
  {
    if i < |gates| { GatesSound(gates, i + 1); }
  }

  lemma GatesAreAtMostTheTrigger(gates: seq<string>)
    ensures GateRefusal(gates, 0).None? <==> gates == [] || gates == [PUBLIC_TRIGGER]
  {
    GatesSound(gates, 0);
    if |gates| > 1 { assert gates[0] == gates[1] ==> gates[1] in gates[..1]; }
    assert gates != [] && |gates| == 1 ==> gates == [gates[0]];
  }

  lemma {:induction false} ArtifactsSoundFrom(artifacts: seq<Artifact>, i: nat)
    requires i <= |artifacts|
    ensures ArtifactRefusal(artifacts, i).None? <==>
            forall k | i <= k < |artifacts| :: OneArtifactRefusal(artifacts[k], Ids(artifacts[..k])).None?
    decreases |artifacts| - i
  {
    if i < |artifacts| { ArtifactsSoundFrom(artifacts, i + 1); }
  }

  lemma ArtifactsSound(artifacts: seq<Artifact>)
    ensures ArtifactRefusal(artifacts, 0).None? <==> SoundArtifacts(artifacts)
  {
    ArtifactsSoundFrom(artifacts, 0);
    forall k | 0 <= k < |artifacts|
      ensures artifacts[k].id in Ids(artifacts[..k]) <==> exists j | 0 <= j < k :: artifacts[j].id == artifacts[k].id
    {
      forall j | 0 <= j < k ensures artifacts[j].id in Ids(artifacts[..k]) {
        assert artifacts[..k][j] in artifacts[..k];
      }
    }
    if SoundArtifacts(artifacts) {
      forall k | 0 <= k < |artifacts| ensures OneArtifactRefusal(artifacts[k], Ids(artifacts[..k])).None? {
        assert artifacts[k] in artifacts;
      }
    }
  }

  lemma {:induction false} PhasesSoundFrom(rules: LocalRules, train: Train, i: nat)
    requires i <= |train.phases|
    ensures PhaseRefusal(rules, train, i).None? <==>
            forall k | i <= k < |train.phases| :: OnePhaseRefusal(rules, train, k).None?
    decreases |train.phases| - i
  {
    if i < |train.phases| { PhasesSoundFrom(rules, train, i + 1); }
  }

  lemma EarlierId(phases: seq<Phase>, k: nat)
    requires k < |phases|
    ensures phases[k].id in PhaseIds(phases[..k]) <==> exists j | 0 <= j < k :: phases[j].id == phases[k].id
  {
    forall j | 0 <= j < k ensures phases[j].id in PhaseIds(phases[..k]) { assert phases[..k][j] in phases[..k]; }
  }

  lemma OnePhaseSound(rules: LocalRules, train: Train, k: nat)
    requires k < |train.phases|
    ensures OnePhaseRefusal(rules, train, k).None? <==> SoundPhase(rules, train, k)
  {
    EarlierId(train.phases, k);
  }

  lemma PhasesSound(rules: LocalRules, train: Train)
    ensures PhaseRefusal(rules, train, 0).None? <==> SoundPhases(rules, train)
  {
    PhasesSoundFrom(rules, train, 0);
    forall k | 0 <= k < |train.phases|
      ensures OnePhaseRefusal(rules, train, k).None? <==> SoundPhase(rules, train, k)
    {
      OnePhaseSound(rules, train, k);
    }
  }

  /** Validation accepts exactly the sound trains. */
  lemma AcceptedIffSound(rules: LocalRules, train: Train)
    ensures Refusal(rules, train).None? <==> Sound(rules, train)
  {
    GatesAreAtMostTheTrigger(train.operatorGates);
    ArtifactsSound(train.artifacts);
    PhasesSound(rules, train);
    if GateRefusal(train.operatorGates, 0).None? { BoundarySound(train); }
  }

  lemma BoundarySound(train: Train)
    requires train.operatorGates == [] || train.operatorGates == [PUBLIC_TRIGGER]
    ensures TriggerRefusal(train).None? && !(train.tag.None? && exists p <- train.phases :: NeedsTag(p)) <==>
            SoundBoundary(train)
  {
    var trigger := Trigger(train.phases, |train.phases|);
    if trigger.Some? {
      assert train.phases[trigger.value] in train.phases;
    }
  }

  // ------------------------------------------------ the validator, as it runs

  predicate Published(train: Train, n: nat, artifact: string)
    requires n <= |train.phases|
  {
    exists j | 0 <= j < n :: Publication(train.phases[j].kind) && Targets(train.phases[j], artifact)
  }

  /** `owners` knows exactly the artifacts published by the first `n` phases. */
  ghost predicate Owned(train: Train, n: nat, owners: map<string, string>)
    requires n <= |train.phases|
  {
    forall a <- train.artifacts :: a.id in owners <==> Published(train, n, a.id)
  }

  method ValidateGates(gates: seq<string>) returns (r: Option<Code>)
    ensures r == GateRefusal(gates, 0)
  {
    var seen: set<string> := {};
    for i := 0 to |gates|
      invariant seen == set g <- gates[..i]
      invariant GateRefusal(gates, 0) == GateRefusal(gates, i)
    {
      if gates[i] != PUBLIC_TRIGGER || gates[i] in seen { return Some(UnsafeOperatorGate); }
      seen := seen + {gates[i]};
      assert gates[..i + 1] == gates[..i] + [gates[i]];
    }
    return None;
  }

  method ValidateArtifacts(artifacts: seq<Artifact>) returns (r: Option<Code>)
    ensures r == ArtifactRefusal(artifacts, 0)
  {
    var seen: set<string> := {};
    for i := 0 to |artifacts|
      invariant seen == Ids(artifacts[..i])
      invariant ArtifactRefusal(artifacts, 0) == ArtifactRefusal(artifacts, i)
    {
      var a := artifacts[i];
      if Blank(a.id) || a.id in seen { return Some(DuplicateArtifactId); }
      seen := seen + {a.id};
      assert artifacts[..i + 1] == artifacts[..i] + [a];
      if a.identityChannel.None? { return Some(MissingArtifactIdentityChannel); }
      if a.identityChannel.value !in IDENTITY_CHANNELS { return Some(InvalidArtifactIdentityChannel); }
      if Blank(a.kind) { return Some(InvalidPhaseParameters); }
    }
    return None;
  }

  method ValidatePublicationTargets(train: Train, phase: Phase) returns (ok: bool)
    ensures ok <==> PublicationTargets(train, phase)
  {
    var listed := Param(phase, "artifacts");
    if listed.None? { return true; }
    if !listed.value.Arr? || listed.value.items == [] { return false; }
    var items, seen: set<Value> := listed.value.items, {};
    for i := 0 to |items|
      invariant seen == set v <- items[..i]
      invariant forall k | 0 <= k < i :: items[k].Str? && Declared(train, items[k].text)
      invariant forall k, m | 0 <= k < m < i :: items[k] != items[m]
    {
      if !items[i].Str? || !Declared(train, items[i].text) { return false; }
      if items[i] in seen {
        assert exists k | 0 <= k < i :: items[..i][k] == items[i];
        return false;
      }
      forall k | 0 <= k < i ensures items[k] != items[i] { assert items[..i][k] in seen; }
      seen := seen + {items[i]};
      assert items[..i + 1] == items[..i] + [items[i]];
    }
    return true;
  }

  /** Records the artifacts phase `i` publishes, unless one is already taken. */
  method Claim(train: Train, i: nat, owners: map<string, string>) returns (ok: bool, after: map<string, string>)
    requires i < |train.phases| && Publication(train.phases[i].kind)
    requires SoundArtifacts(train.artifacts) && Owned(train, i, owners)
    ensures ok <==> !Overlaps(train, i)
    ensures ok ==> Owned(train, i + 1, after)
  {
    var phase := train.phases[i];
    after := owners;
    for m := 0 to |train.artifacts|
      invariant forall k | 0 <= k < |train.artifacts| ::
                  var id := train.artifacts[k].id;
                  id in after <==> Published(train, i, id) || (k < m && Targets(phase, id))
      invariant forall k | 0 <= k < m ::
                  !(Published(train, i, train.artifacts[k].id) && Targets(phase, train.artifacts[k].id))
    {
      var a := train.artifacts[m];
      if Targets(phase, a.id) {
        if a.id in after {
          assert a in train.artifacts && Published(train, i, a.id);
          return false, after;
        }
        after := after[a.id := phase.id];
      }
    }
    assert !Overlaps(train, i);
    forall a | a in train.artifacts
      ensures a.id in after <==> Published(train, i + 1, a.id)
    {
      PublishedMore(train, i, a.id);
    }
    return true, after;
  }

  lemma PublishedMore(train: Train, i: nat, artifact: string)
    requires i < |train.phases|
    ensures Published(train, i + 1, artifact) <==>
            Published(train, i, artifact) || (Publication(train.phases[i].kind) && Targets(train.phases[i], artifact))
  {
  }

  lemma NothingClaimed(train: Train, i: nat, owners: map<string, string>)
    requires i < |train.phases| && !Publication(train.phases[i].kind) && Owned(train, i, owners)
    ensures Owned(train, i + 1, owners) && !Overlaps(train, i)
  {
  }

  lemma PhaseIdsMore(phases: seq<Phase>, i: nat)
    requires i < |phases|
    ensures PhaseIds(phases[..i + 1]) == PhaseIds(phases[..i]) + {phases[i].id}
  {
    assert phases[..i + 1] == phases[..i] + [phases[i]];
  }

  method ValidatePhases(rules: LocalRules, train: Train) returns (r: Option<Code>, first: Option<nat>)
    requires SoundArtifacts(train.artifacts)
    ensures r == PhaseRefusal(rules, train, 0)
    ensures r.None? ==> first == Trigger(train.phases, |train.phases|)
  {
    var seen: set<string>, owners: map<string, string> := {}, map[];
    first := None;
    for i := 0 to |train.phases|
      invariant seen == PhaseIds(train.phases[..i])
      invariant Owned(train, i, owners)
      invariant first == Trigger(train.phases, i)
      invariant PhaseRefusal(rules, train, 0) == PhaseRefusal(rules, train, i)
    {
      var phase := train.phases[i];
      if Blank(phase.id) || phase.id in seen { return Some(DuplicatePhaseId), first; }
      seen := seen + {phase.id};
      PhaseIdsMore(train.phases, i);
      if phase.kind.Unregistered? { return Some(UnknownPhaseType), first; }
      if ParameterRefusal(rules, train, phase).Some? { return ParameterRefusal(rules, train, phase), first; }
      if Publication(phase.kind) {
        var ok;
        ok, owners := Claim(train, i, owners);
        if !ok { return Some(InvalidPhaseParameters), first; }
      } else {
        NothingClaimed(train, i, owners);
      }
      if first.Some? {
        if RefusalCapable(phase.kind) { return Some(UnsafePhaseOrdering), first; }
      } else if Irreversible(phase.kind) {
        first := Some(i);
      }
    }
    return None, first;
  }

  /** The whole validator reports the first broken rule, and so accepts exactly the sound trains. */
  method ValidateTrain(rules: LocalRules, train: Train) returns (r: Option<Code>)
    ensures r == Refusal(rules, train)
    ensures r.None? <==> Sound(rules, train)
  {
    AcceptedIffSound(rules, train);
    if Blank(train.intendedCommit) { return Some(InvalidPhaseParameters); }
    if train.signingProfile !in SIGNING_PROFILES { return Some(InvalidSigningProfile); }
    r := ValidateGates(train.operatorGates);
    if r.Some? { return; }
    r := ValidateArtifacts(train.artifacts);
    if r.Some? { return; }
    ArtifactsSound(train.artifacts);
    var first;
    r, first := ValidatePhases(rules, train);
    if r.Some? { return; }
    if first.Some? {
      if PUBLIC_TRIGGER !in train.operatorGates { return Some(UnsafeOperatorGate); }
      if !Identifiable(train, train.phases[first.value]) { return Some(MissingFirstPublicTrigger); }
    } else if train.operatorGates != [] {
      return Some(UnsafeOperatorGate);
    }
    if train.tag.None? && exists p <- train.phases :: NeedsTag(p) { return Some(InvalidNoTagTrain); }
    return None;
  }
}
