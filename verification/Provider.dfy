/**
 The provider end of a connection: drops start reconnect cycles, a cycle may
 replace the connection, and every connection's reader works through route binds
 one at a time. Awaited calls are separate events, so drops, replacements and
 closes can fall between any two of them.
 */
module Provider {
  import opened Wrappers

  /** `sock` names one connection's socket; a reader serves one socket at one generation. */
  datatype Reader = Reader(sock: nat, generation: nat)

  datatype Cycle = Cycle(generation: nat, superseded: bool)

  datatype Handle = Handle(channel: nat, epoch: nat, bind: nat)

  /** A bind request: cleared of a stale install, asked about, answered, and then decided. */
  datatype BindState = Clearing | Asking | Answering | Installed | Gone | Refused

  datatype Bind = Bind(reader: Reader, channel: nat, epoch: nat, state: BindState)

  datatype Note = Bound(bind: nat) | Lost(bind: nat)

  /**
   `leaving`: the route whose goodbye a reader has in hand. `displaced` and
   `farewells` are the past: installs torn down for a higher epoch, and installs
   torn down by a goodbye, once per goodbye.
   */
  datatype Provider = Provider(
    sock: nat, sockets: nat, generation: nat, closing: bool, connectionEpoch: nat,
    reconnecting: Option<nat>, cycles: seq<Cycle>, replacements: seq<nat>,
    live: map<nat, Handle>, leaving: map<Reader, Handle>, binds: seq<Bind>,
    notes: seq<Note>, displaced: set<nat>, farewells: seq<nat>)

  const START := Provider(0, 1, 0, false, 1, None, [], [], map[], map[], [], [], {}, [])

  datatype Event =
    | Drop(reader: Reader)
    | Opened(cycle: nat)
    | Failed(cycle: nat, permanent: bool)
    | BindArrives(reader: Reader, channel: nat, epoch: nat)
    | Continue(bind: nat, ok: bool)
    | GoodbyeArrives(reader: Reader, channel: nat, epoch: nat)
    | GoodbyeEnds(reader: Reader)
    | RouteCloses(channel: nat)
    | CloseStarts

  predicate Current(p: Provider, r: Reader) { p.sock == r.sock && p.generation == r.generation }

  predicate CurrentCycle(p: Provider, c: nat) {
    && c < |p.cycles| && !p.cycles[c].superseded
    && p.reconnecting == Some(c) && p.generation == p.cycles[c].generation
  }

  /** A drop is heard once: it retires the generation and starts a cycle for the next one. */
  function OnDrop(p: Provider, r: Reader): Provider {
    if p.closing || !Current(p, r) then p
    else
      var cycles := if p.reconnecting.Some? && p.reconnecting.value < |p.cycles|
                    then p.cycles[p.reconnecting.value := p.cycles[p.reconnecting.value].(superseded := true)]
                    else p.cycles;
      p.(generation := p.generation + 1, live := map[],
         cycles := cycles + [Cycle(p.generation + 1, false)], reconnecting := Some(|p.cycles|))
  }

  function OnOpened(p: Provider, c: nat): Provider {
    if !CurrentCycle(p, c) || p.closing then p.(sockets := p.sockets + 1)
    else
      p.(sock := p.sockets, sockets := p.sockets + 1, connectionEpoch := p.connectionEpoch + 1, live := map[],
         reconnecting := None, replacements := p.replacements + [c])
  }

  function OnClose(p: Provider): Provider { p.(closing := true, live := map[]) }

  predicate Active(b: Bind) { b.state.Clearing? || b.state.Asking? || b.state.Answering? }

  predicate Busy(p: Provider, r: Reader) { r in p.leaving || exists b <- p.binds :: b.reader == r && Active(b) }

  /** Readers exist for the sockets opened so far, and work on one frame at a time. */
  predicate Hears(p: Provider, r: Reader) {
    r.sock < p.sockets && r.generation <= p.generation && !Busy(p, r)
  }

  function SetBind(p: Provider, i: nat, state: BindState): seq<Bind>
    requires i < |p.binds|
  {
    p.binds[i := p.binds[i].(state := state)]
  }

  /** A bind for an installed channel needs a strictly higher epoch, and then displaces the install. */
  function OnBindArrives(p: Provider, r: Reader, channel: nat, epoch: nat): Provider {
    if !Hears(p, r) then p
    else if channel in p.live then
      if epoch <= p.live[channel].epoch then p.(binds := p.binds + [Bind(r, channel, epoch, Refused)])
      else
        p.(live := p.live - {channel}, binds := p.binds + [Bind(r, channel, epoch, Clearing)],
           notes := p.notes + [Lost(p.live[channel].bind)], displaced := p.displaced + {p.live[channel].bind})
    else p.(binds := p.binds + [Bind(r, channel, epoch, Asking)])
  }

  function Lose(p: Provider, i: nat): Provider
    requires i < |p.binds|
  {
    p.(binds := SetBind(p, i, Gone), notes := p.notes + [Lost(i)])
  }

  /** `ok`: the callback agreed, or the answer was written. */
  function OnContinue(p: Provider, i: nat, ok: bool): Provider
    requires i < |p.binds|
  {
    var b := p.binds[i];
    match b.state
    case Clearing => p.(binds := SetBind(p, i, Asking))
    case Asking => if ok then p.(binds := SetBind(p, i, Answering)) else Lose(p, i)
    case Answering =>
      if !ok || !Current(p, b.reader) || p.closing then Lose(p, i)
      else
        p.(live := p.live[b.channel := Handle(b.channel, b.epoch, i)], binds := SetBind(p, i, Installed),
           notes := p.notes + [Bound(i)])
    case _ => p
  }

  /** A goodbye takes the handle installed under its channel and epoch, if any. */
  function OnGoodbye(p: Provider, r: Reader, channel: nat, epoch: nat): Provider {
    if !Hears(p, r) || channel !in p.live || p.live[channel].epoch != epoch then p
    else p.(leaving := p.leaving[r := p.live[channel]])
  }

  /** Once the draining hooks have begun, whatever the channel then holds is removed and the handle is reported gone. */
  function OnGoodbyeEnds(p: Provider, r: Reader): Provider {
    if r !in p.leaving then p
    else
      var h := p.leaving[r];
      p.(live := p.live - {h.channel}, leaving := p.leaving - {r},
         notes := p.notes + [Lost(h.bind)], farewells := p.farewells + [h.bind])
  }

  /** The provider itself closes a live route, without a report; any other handle is refused as stale. */
  function OnRouteCloses(p: Provider, channel: nat): Provider { p.(live := p.live - {channel}) }

  function Step(p: Provider, e: Event): Provider {
    match e
    case Drop(r) => OnDrop(p, r)
    case Opened(c) => OnOpened(p, c)
    case Failed(c, permanent) => if CurrentCycle(p, c) && !p.closing && permanent then OnClose(p) else p
    case BindArrives(r, channel, epoch) => OnBindArrives(p, r, channel, epoch)
    case Continue(i, ok) => if i < |p.binds| then OnContinue(p, i, ok) else p
    case GoodbyeArrives(r, channel, epoch) => OnGoodbye(p, r, channel, epoch)
    case GoodbyeEnds(r) => OnGoodbyeEnds(p, r)
    case RouteCloses(channel) => OnRouteCloses(p, channel)
    case CloseStarts => OnClose(p)
  }

  function After(events: seq<Event>): Provider {
    if events == [] then START else Step(After(events[..|events| - 1]), events[|events| - 1])
  }

  // ------------------------------------------------ reconnecting

  predicate CyclesOk(p: Provider) {
    && (forall c | 0 <= c < |p.cycles| :: p.cycles[c].generation <= p.generation)
    && (forall c, d | 0 <= c < d < |p.cycles| :: p.cycles[c].generation < p.cycles[d].generation)
    && (p.reconnecting.Some? ==>
          p.reconnecting.value == |p.cycles| - 1 && p.cycles[p.reconnecting.value].generation == p.generation)
    && (forall c | 0 <= c < |p.cycles| && Some(c) != p.reconnecting && c !in p.replacements :: p.cycles[c].superseded)
  }

  /** The connection epoch counts the replacements, and each replacement is a later cycle. */
  predicate EpochsOk(p: Provider) {
    && p.connectionEpoch == 1 + |p.replacements|
    && (forall i | 0 <= i < |p.replacements| :: p.replacements[i] < |p.cycles|)
    && (forall i, j | 0 <= i < j < |p.replacements| :: p.replacements[i] < p.replacements[j])
    && (p.reconnecting.Some? ==> forall x <- p.replacements :: x < p.reconnecting.value)
  }

  predicate Reconnects(p: Provider) { CyclesOk(p) && EpochsOk(p) }

  lemma DropKeeps(p: Provider, r: Reader)
    requires Reconnects(p)
    ensures Reconnects(OnDrop(p, r))
  {
    assert forall x <- p.replacements :: x < |p.cycles|;
  }

  lemma OpenedKeeps(p: Provider, c: nat)
    requires Reconnects(p)
    ensures Reconnects(OnOpened(p, c))
  {
    if CurrentCycle(p, c) && !p.closing {
      var after := OnOpened(p, c);
      assert after.replacements[|p.replacements|] == c;
      forall i | 0 <= i < |p.replacements| ensures after.replacements[i] == p.replacements[i] < c {
        assert p.replacements[i] in p.replacements;
      }
      assert c in after.replacements && forall x <- p.replacements :: x in after.replacements;
    }
  }

  /** Socket, generation, cycles and replacements are as they were. */
  predicate SameWire(p: Provider, after: Provider) {
    && after.sock == p.sock && after.sockets == p.sockets && after.generation == p.generation
    && after.connectionEpoch == p.connectionEpoch && after.reconnecting == p.reconnecting
    && after.cycles == p.cycles && after.replacements == p.replacements
    && (p.closing ==> after.closing)
  }

  lemma ArrivalKeepsWire(p: Provider, r: Reader, channel: nat, epoch: nat)
    ensures SameWire(p, OnBindArrives(p, r, channel, epoch))
  {
  }

  lemma ContinueKeepsWire(p: Provider, i: nat, ok: bool)
    requires i < |p.binds|
    ensures SameWire(p, OnContinue(p, i, ok))
  {
  }

  lemma OthersKeepWire(p: Provider, e: Event)
    requires !e.Drop? && !e.Opened?
    ensures SameWire(p, Step(p, e))
  {
    if e.BindArrives? {
      ArrivalKeepsWire(p, e.reader, e.channel, e.epoch);
    } else if e.Continue? && e.bind < |p.binds| {
      ContinueKeepsWire(p, e.bind, e.ok);
    }
  }

  lemma ReconnectsKept(p: Provider, e: Event)
    requires Reconnects(p)
    ensures Reconnects(Step(p, e))
  {
    match e
    case Drop(r) => DropKeeps(p, r);
    case Opened(c) => OpenedKeeps(p, c);
    case _ => OthersKeepWire(p, e);
  }

  /** Only the current cycle replaces the connection, and nothing does once closing has begun. */
  lemma OnlyCurrentReplaces(p: Provider, e: Event)
    ensures Step(p, e).connectionEpoch != p.connectionEpoch || Step(p, e).sock != p.sock ==>
              e.Opened? && CurrentCycle(p, e.cycle) && !p.closing
    ensures p.closing ==> Step(p, e).closing
  {
    if !e.Drop? && !e.Opened? { OthersKeepWire(p, e); }
  }

  // ------------------------------------------------ binds

  predicate LiveOk(p: Provider) {
    forall ch | ch in p.live ::
      var h := p.live[ch];
      && h.channel == ch && h.bind < |p.binds|
      && p.binds[h.bind].state.Installed? && p.binds[h.bind].channel == ch && p.binds[h.bind].epoch == h.epoch
      && p.binds[h.bind].reader == Reader(p.sock, p.generation)
      && h.bind !in p.displaced && h.bind !in p.farewells
  }

  /** The reader of a connection has at most one bind in hand. */
  predicate OneAtATime(p: Provider) {
    forall i, j | 0 <= i < j < |p.binds| && p.binds[i].reader == p.binds[j].reader ::
      !(Active(p.binds[i]) && Active(p.binds[j]))
  }

  /** While the current reader works on a bind, nothing is installed on its channel. */
  predicate ChannelFree(p: Provider) {
    forall i | 0 <= i < |p.binds| && Active(p.binds[i]) && Current(p, p.binds[i].reader) ::
      p.binds[i].channel !in p.live
  }

  /** A goodbye in hand is for a route that was installed. */
  predicate LeavingOk(p: Provider) {
    forall r | r in p.leaving ::
      && p.leaving[r].bind < |p.binds| && p.binds[p.leaving[r].bind].state.Installed?
      && p.binds[p.leaving[r].bind].channel == p.leaving[r].channel
  }

  /** The notes on one bind, in order. */
  function Of(notes: seq<Note>, i: nat): seq<Note> {
    if notes == [] then []
    else
      var last := notes[|notes| - 1];
      Of(notes[..|notes| - 1], i) + (if last.bind == i then [last] else [])
  }

  function Times(farewells: seq<nat>, i: nat): nat {
    if farewells == [] then 0
    else
      var last := farewells[|farewells| - 1];
      Times(farewells[..|farewells| - 1], i) + (if last == i then 1 else 0)
  }

  /** How often an install was torn down: for a higher epoch, and by goodbyes. */
  function Ends(p: Provider, i: nat): nat {
    (if i in p.displaced then 1 else 0) + Times(p.farewells, i)
  }

  function Repeat(n: Note, k: nat): seq<Note> { seq(k, _ => n) }

  /** What the callbacks have been told of a bind, in order. */
  function Expected(p: Provider, i: nat): seq<Note>
    requires i < |p.binds|
  {
    match p.binds[i].state
    case Gone => [Lost(i)]
    case Installed => [Bound(i)] + Repeat(Lost(i), Ends(p, i))
    case _ => []
  }

  predicate Told(p: Provider) {
    && (forall i | 0 <= i < |p.binds| :: Of(p.notes, i) == Expected(p, i))
    && (forall n <- p.notes :: n.bind < |p.binds|)
    && (forall x <- p.displaced :: x < |p.binds| && p.binds[x].state.Installed?)
    && (forall x <- p.farewells :: x < |p.binds| && p.binds[x].state.Installed?)
  }

  predicate Readers(p: Provider) {
    && p.sock < p.sockets
    && forall i | 0 <= i < |p.binds| ::
         p.binds[i].reader.sock < p.sockets && p.binds[i].reader.generation <= p.generation
  }

  predicate Binds(p: Provider) {
    LiveOk(p) && LeavingOk(p) && OneAtATime(p) && ChannelFree(p) && Told(p) && Readers(p)
  }

  // ---- what is told

  lemma OfSnoc(notes: seq<Note>, n: Note, i: nat)
    ensures Of(notes + [n], i) == Of(notes, i) + (if n.bind == i then [n] else [])
  {
    assert (notes + [n])[..|notes|] == notes;
  }

  lemma {:induction false} OfNone(notes: seq<Note>, i: nat)
    requires forall n <- notes :: n.bind != i
    ensures Of(notes, i) == []
  {
    if notes != [] {
      assert notes[|notes| - 1] in notes;
      OfNone(notes[..|notes| - 1], i);
    }
  }

  lemma TimesSnoc(farewells: seq<nat>, x: nat, i: nat)
    ensures Times(farewells + [x], i) == Times(farewells, i) + (if x == i then 1 else 0)
  {
    assert (farewells + [x])[..|farewells|] == farewells;
  }

  lemma {:induction false} TimesNone(farewells: seq<nat>, i: nat)
    ensures Times(farewells, i) == 0 <==> i !in farewells
  {
    if farewells != [] {
      TimesNone(farewells[..|farewells| - 1], i);
      assert farewells == farewells[..|farewells| - 1] + [farewells[|farewells| - 1]];
    }
  }

  lemma RepeatMore(n: Note, k: nat)
    ensures Repeat(n, k + 1) == Repeat(n, k) + [n]
  {
  }

  /** One install more is torn down, and that is told. */
  predicate Ended(p: Provider, after: Provider, x: nat) {
    && x < |p.binds| && p.binds[x].state.Installed?
    && after.binds == p.binds && after.notes == p.notes + [Lost(x)]
    && ((x !in p.displaced && after.displaced == p.displaced + {x} && after.farewells == p.farewells) ||
        (after.displaced == p.displaced && after.farewells == p.farewells + [x]))
  }

  lemma EndedAt(p: Provider, after: Provider, x: nat, i: nat)
    requires Ended(p, after, x) && i < |p.binds| && Of(p.notes, i) == Expected(p, i)
    ensures Of(after.notes, i) == Expected(after, i)
  {
    OfSnoc(p.notes, Lost(x), i);
    EndsGrow(p, after, x, i);
    if i == x { RepeatMore(Lost(i), Ends(p, i)); }
  }

  lemma EndsGrow(p: Provider, after: Provider, x: nat, i: nat)
    requires Ended(p, after, x)
    ensures Ends(after, i) == Ends(p, i) + if i == x then 1 else 0
  {
    TimesSnoc(p.farewells, x, i);
  }

  lemma EndedIsTold(p: Provider, after: Provider, x: nat)
    requires Told(p) && Ended(p, after, x)
    ensures Told(after)
  {
    forall i | 0 <= i < |p.binds| ensures Of(after.notes, i) == Expected(after, i) { EndedAt(p, after, x, i); }
  }

  /** Nothing was told, and nothing happened to tell. */
  predicate Quiet(p: Provider, after: Provider) {
    && after.binds == p.binds && after.notes == p.notes
    && after.displaced == p.displaced && after.farewells == p.farewells
  }

  lemma QuietIsTold(p: Provider, after: Provider)
    requires Told(p) && Quiet(p, after)
    ensures Told(after)
  {
    forall i | 0 <= i < |p.binds| ensures Of(after.notes, i) == Expected(after, i) {
      assert Expected(after, i) == Expected(p, i);
    }
  }

  // ---- a new bind is added at the end

  predicate Added(p: Provider, after: Provider, b: Bind) {
    && after.binds == p.binds + [b] && (Active(b) || b.state.Refused?) && Hears(p, b.reader)
    && after == p.(binds := after.binds)
  }

  lemma AddedIsSerial(p: Provider, after: Provider, b: Bind)
    requires OneAtATime(p) && Added(p, after, b)
    ensures OneAtATime(after)
  {
    forall i | 0 <= i < |p.binds| ensures p.binds[i].reader == b.reader ==> !Active(p.binds[i]) {
      assert p.binds[i] in p.binds;
    }
  }

  lemma AddedIsFree(p: Provider, after: Provider, b: Bind)
    requires ChannelFree(p) && Added(p, after, b) && (Active(b) ==> b.channel !in p.live)
    ensures ChannelFree(after)
  {
    assert forall i | 0 <= i < |p.binds| :: after.binds[i] == p.binds[i];
  }

  lemma AddedIsLive(p: Provider, after: Provider, b: Bind)
    requires LiveOk(p) && LeavingOk(p) && Readers(p) && Added(p, after, b)
    ensures LiveOk(after) && LeavingOk(after) && Readers(after)
  {
    assert forall i | 0 <= i < |p.binds| :: after.binds[i] == p.binds[i];
  }

  lemma AddedIsTold(p: Provider, after: Provider, b: Bind)
    requires Told(p) && Added(p, after, b)
    ensures Told(after)
  {
    assert forall i | 0 <= i < |p.binds| :: after.binds[i] == p.binds[i];
    OfNone(p.notes, |p.binds|);
    forall i | 0 <= i < |after.binds| ensures Of(after.notes, i) == Expected(after, i) {
      if i < |p.binds| { assert Expected(after, i) == Expected(p, i); }
    }
  }

  lemma AddKeeps(p: Provider, after: Provider, b: Bind)
    requires Binds(p) && Added(p, after, b) && (Active(b) ==> b.channel !in p.live)
    ensures Binds(after)
  {
    AddedIsSerial(p, after, b);
    AddedIsFree(p, after, b);
    AddedIsLive(p, after, b);
    AddedIsTold(p, after, b);
  }

  /** A live route is taken down for a higher epoch. */
  function Displace(p: Provider, channel: nat): Provider
    requires channel in p.live
  {
    var x := p.live[channel].bind;
    p.(live := p.live - {channel}, notes := p.notes + [Lost(x)], displaced := p.displaced + {x})
  }

  lemma DisplaceKeeps(p: Provider, channel: nat)
    requires Binds(p) && channel in p.live
    ensures Binds(Displace(p, channel))
  {
    EndedIsTold(p, Displace(p, channel), p.live[channel].bind);
  }

  lemma DisplacingKeeps(p: Provider, r: Reader, channel: nat, epoch: nat)
    requires Binds(p) && Hears(p, r) && channel in p.live && epoch > p.live[channel].epoch
    ensures Binds(OnBindArrives(p, r, channel, epoch))
  {
    var b := Bind(r, channel, epoch, Clearing);
    var mid := Displace(p, channel);
    DisplaceKeeps(p, channel);
    assert Hears(mid, r) by { assert mid.leaving == p.leaving && mid.binds == p.binds; }
    AddKeeps(mid, mid.(binds := p.binds + [b]), b);
  }

  lemma ArrivesKeeps(p: Provider, r: Reader, channel: nat, epoch: nat)
    requires Binds(p)
    ensures Binds(OnBindArrives(p, r, channel, epoch))
  {
    if Hears(p, r) {
      if channel in p.live && epoch > p.live[channel].epoch {
        DisplacingKeeps(p, r, channel, epoch);
      } else {
        var b := Bind(r, channel, epoch, if channel in p.live then Refused else Asking);
        AddKeeps(p, p.(binds := p.binds + [b]), b);
      }
    }
  }

  // ---- a bind moves on

  predicate Moved(p: Provider, after: Provider, i: nat, state: BindState) {
    && i < |p.binds| && Active(p.binds[i]) && after.binds == SetBind(p, i, state)
    && after == p.(live := after.live, binds := after.binds, notes := after.notes)
  }

  lemma MovedIsSerial(p: Provider, after: Provider, i: nat, state: BindState)
    requires OneAtATime(p) && Moved(p, after, i, state)
    ensures OneAtATime(after)
  {
  }

  lemma MovedIsFree(p: Provider, after: Provider, i: nat, state: BindState)
    requires ChannelFree(p) && OneAtATime(p) && Moved(p, after, i, state)
    requires if state.Installed?
             then Current(p, p.binds[i].reader) && after.live.Keys <= p.live.Keys + {p.binds[i].channel}
             else after.live == p.live
    ensures ChannelFree(after)
  {
  }

  predicate MoveTold(p: Provider, after: Provider, i: nat, state: BindState) {
    match state
    case Installed => after.notes == p.notes + [Bound(i)]
    case Gone => after.notes == p.notes + [Lost(i)]
    case Refused => false
    case _ => after.notes == p.notes
  }

  lemma MovedTellsAt(p: Provider, after: Provider, i: nat, state: BindState, j: nat)
    requires Told(p) && Moved(p, after, i, state) && MoveTold(p, after, i, state) && j < |p.binds|
    ensures Of(after.notes, j) == Expected(after, j)
  {
    if |after.notes| > |p.notes| { OfSnoc(p.notes, after.notes[|p.notes|], j); }
    assert Of(p.notes, j) == Expected(p, j);
    if i == j {
      assert i !in p.farewells && i !in p.displaced;
      TimesNone(p.farewells, i);
    } else {
      assert Expected(after, j) == Expected(p, j);
    }
  }

  lemma MovedIsTold(p: Provider, after: Provider, i: nat, state: BindState)
    requires Told(p) && Moved(p, after, i, state) && MoveTold(p, after, i, state)
    ensures Told(after)
  {
    forall j | 0 <= j < |p.binds| ensures Of(after.notes, j) == Expected(after, j) {
      MovedTellsAt(p, after, i, state, j);
    }
  }

  lemma MovedIsLive(p: Provider, after: Provider, i: nat, state: BindState)
    requires LiveOk(p) && LeavingOk(p) && Told(p) && Readers(p) && Moved(p, after, i, state)
    requires if state.Installed?
             then Current(p, p.binds[i].reader) &&
                  after.live == p.live[p.binds[i].channel := Handle(p.binds[i].channel, p.binds[i].epoch, i)]
             else after.live == p.live
    ensures LiveOk(after) && LeavingOk(after) && Readers(after)
  {
    assert i !in p.displaced && i !in p.farewells;
  }

  lemma ContinueKeeps(p: Provider, i: nat, ok: bool)
    requires Binds(p) && i < |p.binds|
    ensures Binds(OnContinue(p, i, ok))
  {
    var after := OnContinue(p, i, ok);
    if Active(p.binds[i]) {
      var state := after.binds[i].state;
      MovedIsSerial(p, after, i, state);
      MovedIsFree(p, after, i, state);
      MovedIsTold(p, after, i, state);
      MovedIsLive(p, after, i, state);
    }
  }

  /** A drop or a replacement retires every bind in hand. */
  lemma RetireKeeps(p: Provider, after: Provider)
    requires Binds(p) && Quiet(p, after) && after.live == map[] && after.leaving == p.leaving
    requires after.sockets >= p.sockets && after.generation >= p.generation && after.sock < after.sockets
    ensures Binds(after)
  {
    QuietIsTold(p, after);
  }

  lemma BindsKept(p: Provider, e: Event)
    requires Binds(p)
    ensures Binds(Step(p, e))
  {
    match e
    case BindArrives(r, channel, epoch) => ArrivesKeeps(p, r, channel, epoch);
    case Continue(i, ok) => if i < |p.binds| { ContinueKeeps(p, i, ok); }
    case GoodbyeArrives(r, channel, epoch) => GoodbyeKeeps(p, r, channel, epoch);
    case GoodbyeEnds(r) => if r in p.leaving { GoodbyeEndsKeeps(p, r); }
    case RouteCloses(_) => QuietIsTold(p, Step(p, e));
    case Drop(r) => if Step(p, e) != p { RetireKeeps(p, Step(p, e)); }
    case Opened(c) => OpenedBinds(p, c);
    case Failed(c, permanent) => if Step(p, e) != p { RetireKeeps(p, Step(p, e)); }
    case CloseStarts => RetireKeeps(p, Step(p, e));
  }

  lemma GoodbyeKeeps(p: Provider, r: Reader, channel: nat, epoch: nat)
    requires Binds(p)
    ensures Binds(OnGoodbye(p, r, channel, epoch))
  {
    QuietIsTold(p, OnGoodbye(p, r, channel, epoch));
  }

  lemma GoodbyeEndsKeeps(p: Provider, r: Reader)
    requires Binds(p) && r in p.leaving
    ensures Binds(OnGoodbyeEnds(p, r))
  {
    EndedIsTold(p, OnGoodbyeEnds(p, r), p.leaving[r].bind);
  }

  lemma OpenedBinds(p: Provider, c: nat)
    requires Binds(p)
    ensures Binds(OnOpened(p, c))
  {
    if CurrentCycle(p, c) && !p.closing {
      RetireKeeps(p, OnOpened(p, c));
    } else {
      QuietIsTold(p, OnOpened(p, c));
    }
  }

  lemma {:induction false} AlwaysOk(events: seq<Event>)
    ensures Reconnects(After(events)) && Binds(After(events))
  {
    if events != [] {
      AlwaysOk(events[..|events| - 1]);
      ReconnectsKept(After(events[..|events| - 1]), events[|events| - 1]);
      BindsKept(After(events[..|events| - 1]), events[|events| - 1]);
    }
  }

  // ------------------------------------------------ theorems over every run

  /**
   The connection epoch is one more than the number of replacements; they come from
   distinct cycles in rising order, each the cycle of its day.
   */
  lemma EpochCountsReplacements(events: seq<Event>, e: Event)
    ensures var p := After(events);
            && p.connectionEpoch == 1 + |p.replacements|
            && (forall i, j | 0 <= i < j < |p.replacements| :: p.replacements[i] < p.replacements[j])
            && (Step(p, e).replacements == p.replacements ||
                (e.Opened? && CurrentCycle(p, e.cycle) && !p.closing && e.cycle !in p.replacements &&
                 Step(p, e).replacements == p.replacements + [e.cycle]))
  {
    AlwaysOk(events);
    if !e.Drop? && !e.Opened? { OthersKeepWire(After(events), e); }
  }

  /** The events that take down the route live on a channel. */
  predicate TakesDown(p: Provider, e: Event, channel: nat)
    requires channel in p.live
  {
    match e
    case BindArrives(r, ch, epoch) => Hears(p, r) && ch == channel && epoch > p.live[channel].epoch
    case GoodbyeEnds(r) => r in p.leaving && p.leaving[r].channel == channel
    case Drop(r) => !p.closing && Current(p, r)
    case Opened(c) => !p.closing && CurrentCycle(p, c)
    case Failed(c, permanent) => !p.closing && CurrentCycle(p, c) && permanent
    case RouteCloses(ch) => ch == channel
    case CloseStarts => true
    case _ => false
  }

  lemma ContinueIsSafe(p: Provider, i: nat, ok: bool, channel: nat)
    requires ChannelFree(p) && i < |p.binds| && channel in p.live
    ensures var after := OnContinue(p, i, ok); channel in after.live && after.live[channel] == p.live[channel]
  {
  }

  /**
   An install never overwrites a live route. A live route goes away by exactly seven
   kinds of event; a bind takes it down only with a strictly higher epoch.
   */
  lemma InstallsAreSafe(events: seq<Event>, e: Event, channel: nat)
    requires channel in After(events).live
    ensures var p, after := After(events), Step(After(events), e);
            && (channel in after.live ==> after.live[channel] == p.live[channel])
            && (channel !in after.live <==> TakesDown(p, e, channel))
  {
    AlwaysOk(events);
    var p := After(events);
    match e
    case Continue(i, ok) => if i < |p.binds| { ContinueIsSafe(p, i, ok, channel); }
    case _ =>
  }

  /**
   Exactly what the callbacks are told of a bind, in order and with multiplicity:
   nothing while it is in hand or once refused, that it is gone when it was never
   installed, and otherwise that it is bound and then, once for each time it was
   torn down for a higher epoch or by a goodbye, that it is gone. While it is live
   it has not been reported gone.
   */
  lemma EveryBindIsDecided(events: seq<Event>, i: nat)
    requires i < |After(events).binds|
    ensures var p, told := After(events), Of(After(events).notes, i);
            && (Active(p.binds[i]) || p.binds[i].state.Refused? <==> told == [])
            && (p.binds[i].state.Gone? <==> told == [Lost(i)])
            && (p.binds[i].state.Installed? <==> told != [] && told[0] == Bound(i))
            && (p.binds[i].state.Installed? ==> told == [Bound(i)] + Repeat(Lost(i), Ends(p, i)))
            && (forall ch | ch in p.live && p.live[ch].bind == i :: Ends(p, i) == 0)
  {
    AlwaysOk(events);
    var p := After(events);
    ToldMeans(p, i);
    LiveIsNotEnded(p, i);
  }

  lemma ToldMeans(p: Provider, i: nat)
    requires Told(p) && i < |p.binds|
    ensures var told := Of(p.notes, i);
            && (Active(p.binds[i]) || p.binds[i].state.Refused? <==> told == [])
            && (p.binds[i].state.Gone? <==> told == [Lost(i)])
            && (p.binds[i].state.Installed? <==> told != [] && told[0] == Bound(i))
            && (p.binds[i].state.Installed? ==> told == [Bound(i)] + Repeat(Lost(i), Ends(p, i)))
  {
    var told := Of(p.notes, i);
    assert told == Expected(p, i);
    if p.binds[i].state.Installed? {
      assert told[0] == Bound(i);
    } else if p.binds[i].state.Gone? {
      assert told[0] == Lost(i);
    }
  }

  lemma LiveIsNotEnded(p: Provider, i: nat)
    requires LiveOk(p)
    ensures forall ch | ch in p.live && p.live[ch].bind == i :: Ends(p, i) == 0
  {
    TimesNone(p.farewells, i);
  }

  /** Decisions are final. */
  lemma DecisionsStay(p: Provider, e: Event, i: nat)
    requires i < |p.binds| && !Active(p.binds[i])
    ensures i < |Step(p, e).binds| && Step(p, e).binds[i] == p.binds[i]
  {
    match e
    case Continue(j, ok) => if j < |p.binds| { ContinueMovesOne(p, j, ok); }
    case _ =>
  }

  lemma ContinueMovesOne(p: Provider, i: nat, ok: bool)
    requires i < |p.binds|
    ensures |OnContinue(p, i, ok).binds| == |p.binds|
    ensures forall j | 0 <= j < |p.binds| && (j != i || !Active(p.binds[j])) ::
              OnContinue(p, i, ok).binds[j] == p.binds[j]
  {
  }

  // ------------------------------------------------ goodbyes that outlive their connection

  /**
   A reader with a goodbye in hand has no bind in hand, and while it is the current
   reader its channel holds the route it is to remove, or nothing.
   */
  predicate LeavingAlone(p: Provider, r: Reader)
    requires r in p.leaving
  {
    && r.sock < p.sockets && r.generation <= p.generation
    && (forall i | 0 <= i < |p.binds| && p.binds[i].reader == r :: !Active(p.binds[i]))
    && (Current(p, r) && p.leaving[r].channel in p.live ==> p.live[p.leaving[r].channel] == p.leaving[r])
  }

  predicate Leavings(p: Provider) { forall r | r in p.leaving :: LeavingAlone(p, r) }

  lemma ArrivalKeepsLeavings(p: Provider, r: Reader, channel: nat, epoch: nat)
    requires Leavings(p)
    ensures Leavings(OnBindArrives(p, r, channel, epoch))
  {
    var after := OnBindArrives(p, r, channel, epoch);
    forall s | s in after.leaving ensures LeavingAlone(after, s) { assert LeavingAlone(p, s); }
  }

  lemma ContinueKeepsLeavings(p: Provider, i: nat, ok: bool)
    requires Leavings(p) && i < |p.binds|
    ensures Leavings(OnContinue(p, i, ok))
  {
    var after := OnContinue(p, i, ok);
    if Active(p.binds[i]) {
      forall s | s in after.leaving ensures LeavingAlone(after, s) { assert LeavingAlone(p, s); }
    }
  }

  lemma GoodbyeKeepsLeavings(p: Provider, r: Reader, channel: nat, epoch: nat)
    requires Leavings(p) && LiveOk(p)
    ensures Leavings(OnGoodbye(p, r, channel, epoch)) && Leavings(OnGoodbyeEnds(p, r))
  {
    var after, ended := OnGoodbye(p, r, channel, epoch), OnGoodbyeEnds(p, r);
    forall s | s in after.leaving ensures LeavingAlone(after, s) {
      if s in p.leaving {
        assert LeavingAlone(p, s);
      } else {
        forall i | 0 <= i < |p.binds| && p.binds[i].reader == r ensures !Active(p.binds[i]) {
          assert p.binds[i] in p.binds;
        }
      }
    }
    forall s | s in ended.leaving ensures LeavingAlone(ended, s) { assert LeavingAlone(p, s); }
  }

  lemma WireKeepsLeavings(p: Provider, e: Event)
    requires Leavings(p) && Readers(p) && (e.Drop? || e.Opened? || e.Failed? || e.RouteCloses? || e.CloseStarts?)
    ensures Leavings(Step(p, e))
  {
    var after := Step(p, e);
    forall s | s in after.leaving ensures LeavingAlone(after, s) { assert LeavingAlone(p, s); }
  }

  lemma LeavingsKept(p: Provider, e: Event)
    requires Binds(p) && Leavings(p)
    ensures Leavings(Step(p, e))
  {
    match e
    case BindArrives(r, channel, epoch) => ArrivalKeepsLeavings(p, r, channel, epoch);
    case Continue(i, ok) => if i < |p.binds| { ContinueKeepsLeavings(p, i, ok); }
    case GoodbyeArrives(r, channel, epoch) => GoodbyeKeepsLeavings(p, r, channel, epoch);
    case GoodbyeEnds(r) => GoodbyeKeepsLeavings(p, r, 0, 0);
    case _ => WireKeepsLeavings(p, e);
  }

  predicate Arrival(e: Event) { e.BindArrives? || e.GoodbyeArrives? }

  /** Runs in which readers of retired connections take up no new frame. */
  predicate Orderly(events: seq<Event>) {
    events == [] ||
    var before, e := events[..|events| - 1], events[|events| - 1];
    Orderly(before) && (Arrival(e) ==> Current(After(before), e.reader))
  }

  predicate LeavesOnce(p: Provider, r: Reader)
    requires r in p.leaving
  {
    var h := p.leaving[r];
    && h.bind !in p.displaced && h.bind !in p.farewells
    && (h.channel in p.live && p.live[h.channel].bind == h.bind ==> Current(p, r))
    && (forall s | s in p.leaving && p.leaving[s].bind == h.bind :: s == r)
  }

  predicate EndsOnce(p: Provider) {
    && (forall x <- p.farewells :: x !in p.displaced)
    && (forall i, j | 0 <= i < j < |p.farewells| :: p.farewells[i] != p.farewells[j])
  }

  predicate Once(p: Provider) { EndsOnce(p) && forall r | r in p.leaving :: LeavesOnce(p, r) }

  /** Of a live route no goodbye is in hand while the current reader is free. */
  lemma NobodyLeaves(p: Provider, r: Reader, channel: nat)
    requires LiveOk(p) && LeavingOk(p) && Once(p) && Current(p, r) && r !in p.leaving && channel in p.live
    ensures forall s | s in p.leaving :: p.leaving[s].bind != p.live[channel].bind
  {
    forall s | s in p.leaving ensures p.leaving[s].bind != p.live[channel].bind {
      assert LeavesOnce(p, s);
    }
  }

  lemma ArrivalKeepsOnce(p: Provider, r: Reader, channel: nat, epoch: nat)
    requires LiveOk(p) && LeavingOk(p) && Once(p) && Current(p, r)
    ensures Once(OnBindArrives(p, r, channel, epoch))
  {
    var after := OnBindArrives(p, r, channel, epoch);
    if Hears(p, r) && channel in p.live { NobodyLeaves(p, r, channel); }
    forall s | s in after.leaving ensures LeavesOnce(after, s) { assert LeavesOnce(p, s); }
  }

  lemma GoodbyeKeepsOnce(p: Provider, r: Reader, channel: nat, epoch: nat)
    requires LiveOk(p) && LeavingOk(p) && Once(p) && Current(p, r)
    ensures Once(OnGoodbye(p, r, channel, epoch))
  {
    var after := OnGoodbye(p, r, channel, epoch);
    if after != p {
      NobodyLeaves(p, r, channel);
      forall s | s in after.leaving ensures LeavesOnce(after, s) {
        if s in p.leaving { assert LeavesOnce(p, s); }
      }
    }
  }

  lemma GoodbyeEndsOnce(p: Provider, r: Reader)
    requires Once(p)
    ensures Once(OnGoodbyeEnds(p, r))
  {
    if r in p.leaving {
      assert LeavesOnce(p, r);
      var after := OnGoodbyeEnds(p, r);
      forall s | s in after.leaving ensures LeavesOnce(after, s) { assert LeavesOnce(p, s); }
    }
  }

  lemma ContinueKeepsOnce(p: Provider, i: nat, ok: bool)
    requires Binds(p) && Once(p) && i < |p.binds|
    ensures Once(OnContinue(p, i, ok))
  {
    var after := OnContinue(p, i, ok);
    ContinueChanges(p, i, ok);
    forall s | s in after.leaving ensures LeavesOnce(after, s) { assert LeavesOnce(p, s); }
  }

  /** A bind that moves on changes nothing of the routes, unless it is installed now. */
  lemma ContinueChanges(p: Provider, i: nat, ok: bool)
    requires LeavingOk(p) && i < |p.binds|
    ensures var after := OnContinue(p, i, ok);
            && after.leaving == p.leaving && after.displaced == p.displaced && after.farewells == p.farewells
            && after.sock == p.sock && after.generation == p.generation
            && (after.live == p.live ||
                (&& after.live == p.live[p.binds[i].channel := Handle(p.binds[i].channel, p.binds[i].epoch, i)]
                 && forall s | s in p.leaving :: p.leaving[s].bind != i))
  {
  }

  lemma WireKeepsOnce(p: Provider, e: Event)
    requires Once(p) && (e.Drop? || e.Opened? || e.Failed? || e.RouteCloses? || e.CloseStarts?)
    ensures Once(Step(p, e))
  {
    var after := Step(p, e);
    forall s | s in after.leaving ensures LeavesOnce(after, s) { assert LeavesOnce(p, s); }
  }

  lemma OnceKept(p: Provider, e: Event)
    requires Binds(p) && Once(p) && (Arrival(e) ==> Current(p, e.reader))
    ensures Once(Step(p, e))
  {
    match e
    case BindArrives(r, channel, epoch) => ArrivalKeepsOnce(p, r, channel, epoch);
    case Continue(i, ok) => if i < |p.binds| { ContinueKeepsOnce(p, i, ok); }
    case GoodbyeArrives(r, channel, epoch) => GoodbyeKeepsOnce(p, r, channel, epoch);
    case GoodbyeEnds(r) => GoodbyeEndsOnce(p, r);
    case _ => WireKeepsOnce(p, e);
  }

  lemma {:induction false} AlwaysLeaving(events: seq<Event>)
    ensures Leavings(After(events)) && (Orderly(events) ==> Once(After(events)))
  {
    if events != [] {
      var before, e := events[..|events| - 1], events[|events| - 1];
      AlwaysLeaving(before);
      AlwaysOk(before);
      LeavingsKept(After(before), e);
      if Orderly(events) { OnceKept(After(before), e); }
    }
  }

  /**
   Once an install was displaced by a higher epoch or removed by a goodbye, an event
   has it reported gone again exactly when it ends another goodbye in hand for it.
   */
  lemma ReportedAgainIff(events: seq<Event>, e: Event, i: nat)
    requires i < |After(events).binds| && Ends(After(events), i) > 0
    ensures var p, after := After(events), Step(After(events), e);
            Ends(after, i) > Ends(p, i) <==>
            e.GoodbyeEnds? && e.reader in p.leaving && p.leaving[e.reader].bind == i
  {
    AlwaysOk(events);
    var p := After(events);
    TimesNone(p.farewells, i);
    if e.BindArrives? && e.channel in p.live { LiveIsNotEnded(p, p.live[e.channel].bind); }
    if e.GoodbyeEnds? && e.reader in p.leaving { TimesSnoc(p.farewells, p.leaving[e.reader].bind, i); }
    if !e.BindArrives? && !e.GoodbyeEnds? { OthersEndNothing(p, e); }
  }

  lemma OthersEndNothing(p: Provider, e: Event)
    requires LeavingOk(p) && !e.BindArrives? && !e.GoodbyeEnds?
    ensures Step(p, e).displaced == p.displaced && Step(p, e).farewells == p.farewells
  {
    if e.Continue? && e.bind < |p.binds| { ContinueChanges(p, e.bind, e.ok); }
  }

  /** Where retired readers take up nothing new, no install is reported gone twice. */
  lemma GoneAtMostOnce(events: seq<Event>, i: nat)
    requires Orderly(events)
    ensures Ends(After(events), i) <= 1
  {
    AlwaysLeaving(events);
    TimesOnce(After(events).farewells, i);
    TimesNone(After(events).farewells, i);
  }

  lemma {:induction false} TimesOnce(farewells: seq<nat>, i: nat)
    requires forall j, k | 0 <= j < k < |farewells| :: farewells[j] != farewells[k]
    ensures Times(farewells, i) <= 1
  {
    if farewells != [] {
      var n := |farewells| - 1;
      TimesOnce(farewells[..n], i);
      TimesNone(farewells[..n], i);
    }
  }

  /**
   The end of a goodbye removes by channel alone. It removes a route other than its
   own only when its reader is retired; and where retired readers take up nothing
   new, exactly then.
   */
  lemma GoodbyeHits(events: seq<Event>, r: Reader)
    requires r in After(events).leaving && After(events).leaving[r].channel in After(events).live
    ensures var p := After(events);
            var h := p.leaving[r];
            && h.channel !in Step(p, GoodbyeEnds(r)).live
            && (p.live[h.channel] != h ==> !Current(p, r))
            && (Orderly(events) ==> (p.live[h.channel] != h <==> !Current(p, r)))
  {
    AlwaysLeaving(events);
    var p := After(events);
    assert LeavingAlone(p, r);
    if Orderly(events) { assert LeavesOnce(p, r); }
  }

  function Fold(p: Provider, events: seq<Event>): Provider
    decreases |events|
  {
    if events == [] then p else Fold(Step(p, events[0]), events[1..])
  }

  lemma {:induction false} AfterFolds(events: seq<Event>, more: seq<Event>)
    ensures After(events + more) == Fold(After(events), more)
    decreases |more|
  {
    if more == [] {
      assert events + more == events;
    } else {
      assert events + more == (events + [more[0]]) + more[1..];
      assert (events + [more[0]])[..|events|] == events;
      AfterFolds(events + [more[0]], more[1..]);
    }
  }

  lemma AfterRun(run: seq<Event>, e: Event)
    ensures After(run + [e]) == Step(Fold(START, run), e)
  {
    AfterFolds([], run);
    assert [] + run == run && (run + [e])[..|run|] == run;
  }

  lemma FoldStep(p: Provider, e: Event, more: seq<Event>)
    ensures Fold(p, [e] + more) == Fold(Step(p, e), more)
  {
    assert ([e] + more)[1..] == more;
  }

  function Install(r: Reader, channel: nat, epoch: nat, i: nat): seq<Event> {
    [BindArrives(r, channel, epoch)] + ([Continue(i, true)] + [Continue(i, true)])
  }

  /** A bind by an idle current reader on a free channel, agreed to and answered, is installed. */
  lemma InstallRuns(p: Provider, channel: nat, epoch: nat, more: seq<Event>)
    requires Hears(p, Reader(p.sock, p.generation)) && channel !in p.live && !p.closing
    ensures var r := Reader(p.sock, p.generation);
            Fold(p, Install(r, channel, epoch, |p.binds|) + more) ==
            Fold(p.(live := p.live[channel := Handle(channel, epoch, |p.binds|)],
                    binds := p.binds + [Bind(r, channel, epoch, Installed)], notes := p.notes + [Bound(|p.binds|)]),
                 more)
  {
    var r, i := Reader(p.sock, p.generation), |p.binds|;
    var next := [Continue(i, true)];
    assert Install(r, channel, epoch, i) + more == [BindArrives(r, channel, epoch)] + (next + (next + more));
    FoldStep(p, BindArrives(r, channel, epoch), next + (next + more));
    var p1 := Step(p, BindArrives(r, channel, epoch));
    FoldStep(p1, Continue(i, true), next + more);
    var p2 := Step(p1, Continue(i, true));
    assert p2 == p.(binds := p.binds + [Bind(r, channel, epoch, Answering)]);
    FoldStep(p2, Continue(i, true), more);
    var installed := Bind(r, channel, epoch, Installed);
    assert SetBind(p2, i, Installed) == p.binds + [installed];
  }

  /** The state behind a first drop and the replacement of its connection. */
  function Reconnected(p: Provider): Provider {
    p.(sock := 1, sockets := 2, generation := 1, connectionEpoch := 2, reconnecting := None,
       cycles := [Cycle(1, false)], replacements := [0], live := map[])
  }

  lemma ReconnectRuns(p: Provider, more: seq<Event>)
    requires p.sock == 0 && p.sockets == 1 && p.generation == 0 && p.connectionEpoch == 1 && !p.closing
    requires p.reconnecting == None && p.cycles == [] && p.replacements == []
    ensures Fold(p, [Drop(Reader(0, 0))] + ([Opened(0)] + more)) == Fold(Reconnected(p), more)
  {
    FoldStep(p, Drop(Reader(0, 0)), [Opened(0)] + more);
    var p1 := Step(p, Drop(Reader(0, 0)));
    assert p1 == p.(generation := 1, live := map[], cycles := [Cycle(1, false)], reconnecting := Some(0));
    FoldStep(p1, Opened(0), more);
    assert Step(p1, Opened(0)) == Reconnected(p);
  }

  /** A goodbye taken up ahead of a drop, and a route installed on its channel behind it. */
  function StaleRun(channel: nat, epoch: nat, later: nat): seq<Event> {
    Install(Reader(0, 0), channel, epoch, 0) +
    ([GoodbyeArrives(Reader(0, 0), channel, epoch)] +
     ([Drop(Reader(0, 0))] + ([Opened(0)] + (Install(Reader(1, 1), channel, later, 1) + []))))
  }

  lemma StaleRuns(channel: nat, epoch: nat, later: nat)
    ensures var p := Fold(START, StaleRun(channel, epoch, later));
            && p.live == map[channel := Handle(channel, later, 1)]
            && p.leaving == map[Reader(0, 0) := Handle(channel, epoch, 0)] && p.notes == [Bound(0), Bound(1)]
  {
    var third := Install(Reader(1, 1), channel, later, 1) + [];
    var second := [Drop(Reader(0, 0))] + ([Opened(0)] + third);
    InstallRuns(START, channel, epoch, [GoodbyeArrives(Reader(0, 0), channel, epoch)] + second);
    var h := Handle(channel, epoch, 0);
    var p1 := START.(live := map[channel := h], binds := [] + [Bind(Reader(0, 0), channel, epoch, Installed)],
                     notes := [] + [Bound(0)]);
    FoldStep(p1, GoodbyeArrives(Reader(0, 0), channel, epoch), second);
    var p2 := p1.(leaving := map[Reader(0, 0) := h]);
    assert Step(p1, GoodbyeArrives(Reader(0, 0), channel, epoch)) == p2;
    ReconnectRuns(p2, third);
    InstallRuns(Reconnected(p2), channel, later, []);
  }

  /**
   A goodbye that outlives its connection takes down the next connection's route
   on that channel, and nobody is told that this route is gone.
   */
  lemma StaleGoodbyeHitsAnother(channel: nat, epoch: nat, later: nat)
    ensures var p := After(StaleRun(channel, epoch, later) + [GoodbyeEnds(Reader(0, 0))]);
            p.live == map[] && p.notes == [Bound(0), Bound(1), Lost(0)]
  {
    StaleRuns(channel, epoch, later);
    AfterRun(StaleRun(channel, epoch, later), GoodbyeEnds(Reader(0, 0)));
  }

  /** A goodbye that a retired reader takes up for a route which is then displaced. */
  function DoubleRun(channel: nat, epoch: nat): seq<Event> {
    [Drop(Reader(0, 0))] +
    ([Opened(0)] +
     (Install(Reader(1, 1), channel, epoch, 0) +
      ([GoodbyeArrives(Reader(0, 0), channel, epoch)] + ([BindArrives(Reader(1, 1), channel, epoch + 1)] + []))))
  }

  lemma DoubleRuns(channel: nat, epoch: nat)
    ensures var p := Fold(START, DoubleRun(channel, epoch));
            && p.leaving == map[Reader(0, 0) := Handle(channel, epoch, 0)] && p.notes == [Bound(0), Lost(0)]
            && p.displaced == {0} && p.farewells == []
  {
    var third := [BindArrives(Reader(1, 1), channel, epoch + 1)] + [];
    var second := [GoodbyeArrives(Reader(0, 0), channel, epoch)] + third;
    ReconnectRuns(START, Install(Reader(1, 1), channel, epoch, 0) + second);
    InstallRuns(Reconnected(START), channel, epoch, second);
    var h := Handle(channel, epoch, 0);
    var p1 := Reconnected(START).(live := map[channel := h], notes := [] + [Bound(0)],
                                  binds := [] + [Bind(Reader(1, 1), channel, epoch, Installed)]);
    FoldStep(p1, GoodbyeArrives(Reader(0, 0), channel, epoch), third);
    var p2 := p1.(leaving := map[Reader(0, 0) := h]);
    assert Step(p1, GoodbyeArrives(Reader(0, 0), channel, epoch)) == p2;
    FoldStep(p2, BindArrives(Reader(1, 1), channel, epoch + 1), []);
  }

  /** Such a route is reported gone twice. */
  lemma GoneTwice(channel: nat, epoch: nat)
    ensures var p := After(DoubleRun(channel, epoch) + [GoodbyeEnds(Reader(0, 0))]);
            p.notes == [Bound(0), Lost(0), Lost(0)] && Ends(p, 0) == 2
  {
    DoubleRuns(channel, epoch);
    AfterRun(DoubleRun(channel, epoch), GoodbyeEnds(Reader(0, 0)));
    TimesSnoc([], 0, 0);
    assert [] + [0] == [0];
  }

  // ------------------------------------------------ closing is final

  /** The events that end serving: the close itself, and a permanent failure of the current cycle. */
  predicate Closes(p: Provider, e: Event) {
    e.CloseStarts? || (e.Failed? && e.permanent && CurrentCycle(p, e.cycle))
  }

  predicate ClosesAt(events: seq<Event>, k: nat)
    requires k < |events|
  {
    Closes(After(events[..k]), events[k])
  }

  lemma ClosesExactly(p: Provider, e: Event)
    ensures Step(p, e).closing <==> p.closing || Closes(p, e)
  {
    if e.Continue? && e.bind < |p.binds| { ContinueKeepsClosing(p, e.bind, e.ok); }
  }

  lemma ContinueKeepsClosing(p: Provider, i: nat, ok: bool)
    requires i < |p.binds|
    ensures OnContinue(p, i, ok).closing == p.closing && (p.closing ==> OnContinue(p, i, ok).live == p.live)
  {
  }

  /** A provider is closing exactly when one of those events has happened. */
  lemma {:induction false} ClosingIff(events: seq<Event>)
    ensures After(events).closing <==> exists k | 0 <= k < |events| :: ClosesAt(events, k)
  {
    if events != [] {
      var before, e := events[..|events| - 1], events[|events| - 1];
      ClosingIff(before);
      ClosesExactly(After(before), e);
      assert Closes(After(before), e) <==> ClosesAt(events, |before|);
      forall k | 0 <= k < |before| ensures ClosesAt(before, k) <==> ClosesAt(events, k) {
        assert before[..k] == events[..k];
      }
    }
  }

  lemma {:induction false} ClosedStays(p: Provider, more: seq<Event>)
    requires p.closing
    ensures var after := Fold(p, more);
            && after.closing && after.replacements == p.replacements && after.sock == p.sock
            && after.connectionEpoch == p.connectionEpoch && (p.live == map[] ==> after.live == map[])
    decreases |more|
  {
    if more != [] {
      ClosesExactly(p, more[0]);
      if !more[0].Drop? && !more[0].Opened? { OthersKeepWire(p, more[0]); }
      if p.live == map[] { ClosedInstallsNothing(p, more[0]); }
      ClosedStays(Step(p, more[0]), more[1..]);
    }
  }

  lemma ClosedInstallsNothing(p: Provider, e: Event)
    requires p.closing && p.live == map[]
    ensures Step(p, e).live == map[]
  {
    if e.Continue? && e.bind < |p.binds| { ContinueKeepsClosing(p, e.bind, e.ok); }
  }

  lemma {:induction false} ClosedIsEmpty(events: seq<Event>)
    ensures After(events).closing ==> After(events).live == map[]
  {
    if events != [] {
      var before, e := events[..|events| - 1], events[|events| - 1];
      ClosedIsEmpty(before);
      ClosesExactly(After(before), e);
      if After(before).closing { ClosedInstallsNothing(After(before), e); }
    }
  }

  /**
   Once the close has started, or the current cycle has failed for good, the
   connection is never replaced again and no route is live, whatever follows.
   */
  lemma CloseIsFinal(events: seq<Event>, k: nat, more: seq<Event>)
    requires k < |events| && ClosesAt(events, k)
    ensures var p, after := After(events), After(events + more);
            && p.closing && after.closing && p.live == map[] && after.live == map[]
            && after.replacements == p.replacements && after.sock == p.sock
            && after.connectionEpoch == p.connectionEpoch
  {
    ClosingIff(events);
    ClosedIsEmpty(events);
    AfterFolds(events, more);
    ClosedStays(After(events), more);
  }

  // ------------------------------------------------ drops and binds do lead somewhere

  /**
   The drop of the current connection retires its reader and every earlier cycle;
   when the one cycle it starts opens a connection, that one replaces it.
   */
  lemma DropIsReplaced(events: seq<Event>, r: Reader)
    requires Current(After(events), r) && !After(events).closing
    ensures var p, c := After(events), |After(events).cycles|;
            var dropped := Step(p, Drop(r));
            var replaced := Step(dropped, Opened(c));
            && !Current(dropped, r) && dropped.live == map[]
            && (forall d :: CurrentCycle(dropped, d) <==> d == c)
            && replaced.replacements == p.replacements + [c] && replaced.connectionEpoch == p.connectionEpoch + 1
            && Current(replaced, Reader(p.sockets, p.generation + 1)) && (forall d :: !CurrentCycle(replaced, d))
  {
    AlwaysOk(events);
  }

  function Openings(events: seq<Event>): nat {
    if events == [] then 0
    else Openings(events[..|events| - 1]) + if events[|events| - 1].Opened? then 1 else 0
  }

  lemma {:induction false} SocketsAreOpenings(events: seq<Event>)
    ensures After(events).sockets == 1 + Openings(events)
  {
    if events != [] {
      var before, e := events[..|events| - 1], events[|events| - 1];
      SocketsAreOpenings(before);
      if !e.Drop? && !e.Opened? { OthersKeepWire(After(before), e); }
    }
  }

  /** Works a bind through to its decision: the callback's consent, and the answer's write. */
  function Served(p: Provider, i: nat, asked: bool, written: bool): Provider
    requires i < |p.binds|
  {
    var cleared := if p.binds[i].state.Clearing? then Step(p, Continue(i, true)) else p;
    Step(Step(cleared, Continue(i, asked)), Continue(i, written))
  }

  lemma ServedFrom(p: Provider, i: nat, asked: bool, written: bool)
    requires i < |p.binds| && (p.binds[i].state.Clearing? || p.binds[i].state.Asking?)
    ensures var after := Served(p, i, asked, written);
            var installs := asked && written && Current(p, p.binds[i].reader) && !p.closing;
            && |after.binds| == |p.binds| && after.binds[i].state == (if installs then Installed else Gone)
            && after.live == if installs
                             then p.live[p.binds[i].channel := Handle(p.binds[i].channel, p.binds[i].epoch, i)]
                             else p.live
  {
  }

  /**
   A bind is refused exactly for an installed channel whose epoch it does not exceed;
   otherwise it is installed exactly when the callback agrees, the answer is written
   and its connection is still the current one of a provider that is not closing.
   */
  lemma BindIsDecided(p: Provider, r: Reader, channel: nat, epoch: nat, asked: bool, written: bool)
    requires Hears(p, r)
    ensures var i, arrived := |p.binds|, Step(p, BindArrives(r, channel, epoch));
            var refused := channel in p.live && epoch <= p.live[channel].epoch;
            var installs := !refused && asked && written && Current(p, r) && !p.closing;
            var served := Served(arrived, i, asked, written);
            && |served.binds| == i + 1
            && served.binds[i].state == (if refused then Refused else if installs then Installed else Gone)
            && (installs ==> served.live == p.live[channel := Handle(channel, epoch, i)])
            && (refused ==> served.live == p.live)
            && (!refused && !installs ==> served.live == p.live - {channel})
  {
    var i, arrived := |p.binds|, Step(p, BindArrives(r, channel, epoch));
    if !arrived.binds[i].state.Refused? { ServedFrom(arrived, i, asked, written); }
  }

  /**
   A goodbye heard for a live route takes that route down and reports it gone; one
   whose channel or epoch is not the live one changes nothing.
   */
  lemma GoodbyeRemoves(p: Provider, r: Reader, channel: nat, epoch: nat)
    requires Hears(p, r) && forall ch | ch in p.live :: p.live[ch].channel == ch
    ensures var after := Step(Step(p, GoodbyeArrives(r, channel, epoch)), GoodbyeEnds(r));
            if channel in p.live && p.live[channel].epoch == epoch
            then after.live == p.live - {channel} && after.notes == p.notes + [Lost(p.live[channel].bind)] &&
                 after.leaving == p.leaving
            else after == p
  {
    assert r !in p.leaving;
  }
}
