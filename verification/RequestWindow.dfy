/**
 The windows of one route generation: every request takes a place in the total
 lane (a watch first in the watch lane), keeps it while its write is unanswered,
 and gives it back exactly when the wire says so or the route closes. Promises
 are events: a place can be granted long before its caller resumes.
 */
module RequestWindow {
  import opened RequestLane
  import opened Wrappers

  /** Where a caller stands. The two gaps lie between a grant and the caller's next turn. */
  datatype Stage =
    | WatchWait | WatchGap
    | TotalWait | TotalFail | TotalGap
    | Ready
    | Flying
    | Out

  /** `watch`: it goes through the watch lane. `over`: its own promise is settled. */
  datatype Caller = Caller(watch: bool, stage: Stage, over: bool)

  /** `unanswered`: callers with a request on the wire that has no terminal yet. */
  datatype Route = Route(total: Lane, watches: Option<Lane>, callers: seq<Caller>, closed: bool, unanswered: set<nat>)

  function OpenRoute(requestWindow: nat, watchWindow: Option<nat>): Route {
    Route(Open(requestWindow), if watchWindow.Some? then Some(Open(watchWindow.value)) else None, [], false, {})
  }

  datatype Event =
    | Enter(watch: bool, expired: bool)
    | Resume(caller: nat, expired: bool)
    | Expire(caller: nat)
    | Write(caller: nat, queued: bool)
    | Throw(caller: nat)
    | Answer(caller: nat, busy: bool)
    | GiveUp(caller: nat)
    | CloseRoute

  // ------------------------------------------------ moves

  function SetStage(callers: seq<Caller>, t: nat, stage: Stage): seq<Caller>
    requires t < |callers|
  {
    callers[t := callers[t].(stage := stage)]
  }

  function Promote(callers: seq<Caller>, granted: Option<nat>, stage: Stage): seq<Caller> {
    if granted.Some? && granted.value < |callers| then SetStage(callers, granted.value, stage) else callers
  }

  function GiveWatch(r: Route, t: nat): (Option<Lane>, Option<nat>)
    requires t < |r.callers|
  {
    if r.callers[t].watch && r.watches.Some? then
      var (lane, granted) := Release(r.watches.value, t);
      (Some(lane), granted)
    else (r.watches, None)
  }

  /** Releasing a slot gives back the total place, then the watch place. */
  function FreeSlot(r: Route, t: nat): Route
    requires t < |r.callers|
  {
    var (total, next) := Release(r.total, t);
    var (watches, nextWatch) := GiveWatch(r, t);
    var callers := r.callers[t := r.callers[t].(stage := Out)];
    r.(total := total, watches := watches,
       callers := Promote(Promote(callers, next, TotalGap), nextWatch, WatchGap))
  }

  function FreeWatch(r: Route, t: nat): Route
    requires t < |r.callers|
  {
    var (watches, nextWatch) := GiveWatch(r, t);
    r.(watches := watches, callers := Promote(SetStage(r.callers, t, Out), nextWatch, WatchGap))
  }

  function AskTotal(r: Route, t: nat, expired: bool, refused: Stage): Route
    requires t < |r.callers|
  {
    var (total, reply) := Acquire(r.total, t, expired);
    var stage := match reply case Granted => TotalGap case Waiting => TotalWait case Rejected => refused;
    r.(total := total, callers := SetStage(r.callers, t, stage))
  }

  function AskWatch(r: Route, t: nat, expired: bool): Route
    requires t < |r.callers| && r.watches.Some?
  {
    var (lane, reply) := Acquire(r.watches.value, t, expired);
    var stage := match reply case Granted => WatchGap case Waiting => WatchWait case Rejected => Out;
    r.(watches := Some(lane), callers := SetStage(r.callers, t, stage))
  }

  /** Waiters of a closing lane fail; one that holds a watch place gives it back on its next turn. */
  function Failed(c: Caller): Caller {
    if c.stage.WatchWait? then c.(stage := Out)
    else if c.stage.TotalWait? then c.(stage := if c.watch then TotalFail else Out)
    else c
  }

  function AllFailed(callers: seq<Caller>): seq<Caller> {
    seq(|callers|, i requires 0 <= i < |callers| => Failed(callers[i]))
  }

  function FreeOne(r: Route, t: nat): Route {
    if t < |r.callers| && (r.callers[t].stage.Ready? || r.callers[t].stage.Flying?) then FreeSlot(r, t) else r
  }

  /** Closing releases every slot that exists. */
  function FreeAll(r: Route, n: nat): Route { if n == 0 then r else FreeOne(FreeAll(r, n - 1), n - 1) }

  function Shut(r: Route): Route {
    r.(total := Close(r.total), watches := if r.watches.Some? then Some(Close(r.watches.value)) else None,
       callers := AllFailed(r.callers), closed := true)
  }

  function Step(r: Route, e: Event): Route {
    match e
    case Enter(watch, expired) =>
      var uses := watch && r.watches.Some?;
      var entered := r.(callers := r.callers + [Caller(uses, Out, false)]);
      if uses then AskWatch(entered, |r.callers|, expired) else AskTotal(entered, |r.callers|, expired, Out)
    case CloseRoute => if r.closed then r else FreeAll(Shut(r), |r.callers|)
    case _ =>
      if e.caller >= |r.callers| then r else CallerStep(r, e.caller, r.callers[e.caller], e)
  }

  function CallerStep(r: Route, t: nat, c: Caller, e: Event): Route
    requires t < |r.callers| && c == r.callers[t] && !e.Enter? && !e.CloseRoute?
  {
    match e
    case Resume(_, expired) =>
      if c.stage.WatchGap? then AskTotal(r, t, expired, TotalFail)
      else if c.stage.TotalFail? then FreeWatch(r, t)
      else if c.stage.TotalGap? then r.(callers := SetStage(r.callers, t, Ready))
      else r
    case Expire(_) =>
      if c.stage.WatchWait? && r.watches.Some? then
        r.(watches := Some(Withdraw(r.watches.value, t)), callers := SetStage(r.callers, t, Out))
      else if c.stage.TotalWait? then
        r.(total := Withdraw(r.total, t), callers := SetStage(r.callers, t, if c.watch then TotalFail else Out))
      else r
    case Write(_, queued) =>
      if !c.stage.Ready? || r.closed then r
      else if queued then r.(callers := SetStage(r.callers, t, Flying), unanswered := r.unanswered + {t})
      else FreeSlot(r, t)
    case Throw(_) => if c.stage.Ready? then FreeSlot(r, t) else r
    case Answer(_, busy) =>
      if t !in r.unanswered then r
      else
        var answered := r.(unanswered := r.unanswered - {t});
        if !c.stage.Flying? then answered
        else if busy && !c.over then answered.(callers := SetStage(r.callers, t, Ready))
        else FreeSlot(answered, t)
    case GiveUp(_) =>
      if c.stage.Flying? then r.(callers := r.callers[t := c.(over := true)]) else r
  }

  function After(requestWindow: nat, watchWindow: Option<nat>, events: seq<Event>): Route {
    if events == [] then OpenRoute(requestWindow, watchWindow)
    else Step(After(requestWindow, watchWindow, events[..|events| - 1]), events[|events| - 1])
  }

  // ------------------------------------------------ invariant

  predicate HoldsTotal(c: Caller) { c.stage.TotalGap? || c.stage.Ready? || c.stage.Flying? }

  predicate HoldsWatch(c: Caller) {
    c.watch && (c.stage.WatchGap? || c.stage.TotalWait? || c.stage.TotalFail? || HoldsTotal(c))
  }

  function Elems(q: seq<nat>): set<nat> { set x <- q }

  ghost predicate TotalSets(live: set<nat>, waiting: set<nat>, callers: seq<Caller>) {
    && (forall t :: t in live <==> 0 <= t < |callers| && HoldsTotal(callers[t]))
    && (forall t :: t in waiting <==> 0 <= t < |callers| && callers[t].stage.TotalWait?)
  }

  ghost predicate WatchSets(live: set<nat>, waiting: set<nat>, callers: seq<Caller>) {
    && (forall t :: t in live <==> 0 <= t < |callers| && HoldsWatch(callers[t]))
    && (forall t :: t in waiting <==> 0 <= t < |callers| && callers[t].stage.WatchWait?)
  }

  predicate WatchStages(callers: seq<Caller>) {
    forall t | 0 <= t < |callers| ::
      callers[t].stage.WatchWait? || callers[t].stage.WatchGap? || callers[t].stage.TotalFail? ==> callers[t].watch
  }

  predicate NoWatches(callers: seq<Caller>) { forall t | 0 <= t < |callers| :: !callers[t].watch }

  ghost predicate TotalTracks(total: Lane, callers: seq<Caller>) {
    Valid(total) && TotalSets(total.live, Elems(total.waiters), callers)
  }

  ghost predicate WatchTracks(watches: Option<Lane>, callers: seq<Caller>) {
    && WatchStages(callers)
    && (watches.None? ==> NoWatches(callers))
    && (watches.Some? ==>
          Valid(watches.value) && WatchSets(watches.value.live, Elems(watches.value.waiters), callers))
  }

  ghost predicate WireTracks(r: Route) {
    && (forall t <- r.unanswered :: t < |r.callers|)
    && (!r.closed ==> forall t :: t in r.unanswered <==> 0 <= t < |r.callers| && r.callers[t].stage.Flying?)
    && (r.closed ==> forall t | 0 <= t < |r.callers| :: !r.callers[t].stage.Flying?)
    && r.total.failed == r.closed && (r.watches.Some? ==> r.watches.value.failed == r.closed)
  }

  function WatchesUnanswered(r: Route): set<nat> {
    set t | t in r.unanswered && t < |r.callers| && r.callers[t].watch
  }

  predicate WithinWindows(r: Route) {
    && |r.unanswered| <= r.total.limit
    && (r.watches.Some? ==> |WatchesUnanswered(r)| <= r.watches.value.limit)
  }

  ghost predicate Inv(r: Route) {
    && TotalTracks(r.total, r.callers) && WatchTracks(r.watches, r.callers) && WireTracks(r) && WithinWindows(r)
  }

  lemma SubsetSize(a: set<nat>, b: set<nat>)
    requires a <= b
    ensures |a| <= |b|
  {
    assert a + (b - a) == b && a * (b - a) == {};
  }

  /** While the route is open, what is unanswered holds places. */
  lemma OpenIsWithin(r: Route)
    requires TotalTracks(r.total, r.callers) && WatchTracks(r.watches, r.callers) && WireTracks(r) && !r.closed
    ensures WithinWindows(r)
  {
    SubsetSize(r.unanswered, r.total.live);
    if r.watches.Some? { SubsetSize(WatchesUnanswered(r), r.watches.value.live); }
  }

  // ------------------------------------------------ each lane under each move

  /** The stage of a caller once `t` moved to `stage` and the two given waiters were promoted. */
  function Moved(c: Caller, x: int, t: nat, stage: Stage, next: Option<nat>, nextWatch: Option<nat>): Stage {
    if x == t then stage
    else if next.Some? && next.value == x then TotalGap
    else if nextWatch.Some? && nextWatch.value == x then WatchGap
    else c.stage
  }

  predicate MovedTo(before: seq<Caller>, after: seq<Caller>, t: nat, stage: Stage, next: Option<nat>,
                    nextWatch: Option<nat>)
  {
    && |after| == |before|
    && forall x | 0 <= x < |before| ::
         after[x] == before[x].(stage := Moved(before[x], x, t, stage, next, nextWatch))
  }

  /** The head of a queue is a caller in that queue's waiting stage. */
  predicate Queued(callers: seq<Caller>, granted: Option<nat>, waiting: Stage) {
    granted.Some? ==> granted.value < |callers| && callers[granted.value].stage == waiting
  }

  /** What a release does to a lane, as sets. */
  lemma LaneGives(l: Lane, id: nat)
    requires Valid(l)
    ensures var (after, granted) := Release(l, id);
            && Valid(after) && after.limit == l.limit && after.failed == l.failed
            && (granted.Some? ==> granted.value in Elems(l.waiters))
            && Given(l.live, Elems(l.waiters), after.live, Elems(after.waiters), id, granted)
  {
    ReleaseKeeps(l, id);
    if id in l.live && l.waiters != [] { HeadOnce(l.waiters); }
  }

  ghost predicate Given(live: set<nat>, waiting: set<nat>, live': set<nat>, waiting': set<nat>, id: nat,
                        granted: Option<nat>)
  {
    && (forall x :: x in live' <==> (x in live && x != id) || Some(x) == granted)
    && (forall x :: x in waiting' <==> x in waiting && Some(x) != granted)
  }

  lemma HeadOnce(q: seq<nat>)
    requires Distinct(q) && q != []
    ensures Elems(q[1..]) == Elems(q) - {q[0]}
  {
  }

  lemma TotalAfter(live: set<nat>, waiting: set<nat>, live': set<nat>, waiting': set<nat>, before: seq<Caller>,
                   after: seq<Caller>, t: nat, next: Option<nat>, nextWatch: Option<nat>)
    requires TotalSets(live, waiting, before) && t < |before| && HoldsTotal(before[t])
    requires MovedTo(before, after, t, Out, next, nextWatch) && Queued(before, nextWatch, WatchWait)
    requires Queued(before, next, TotalWait) && Given(live, waiting, live', waiting', t, next)
    ensures TotalSets(live', waiting', after)
  {
  }

  lemma WatchAfter(live: set<nat>, waiting: set<nat>, live': set<nat>, waiting': set<nat>, before: seq<Caller>,
                   after: seq<Caller>, t: nat, next: Option<nat>, nextWatch: Option<nat>)
    requires WatchSets(live, waiting, before) && t < |before| && HoldsWatch(before[t])
    requires MovedTo(before, after, t, Out, next, nextWatch) && Queued(before, nextWatch, WatchWait)
    requires Queued(before, next, TotalWait) && Given(live, waiting, live', waiting', t, nextWatch)
    requires WatchStages(before)
    ensures WatchSets(live', waiting', after)
  {
  }

  lemma WatchUntouched(live: set<nat>, waiting: set<nat>, before: seq<Caller>, after: seq<Caller>, t: nat,
                       next: Option<nat>)
    requires WatchSets(live, waiting, before) && t < |before| && !before[t].watch && HoldsTotal(before[t])
    requires MovedTo(before, after, t, Out, next, None) && Queued(before, next, TotalWait)
    ensures WatchSets(live, waiting, after)
  {
  }

  lemma StagesAfter(before: seq<Caller>, after: seq<Caller>, t: nat, next: Option<nat>, nextWatch: Option<nat>)
    requires WatchStages(before) && MovedTo(before, after, t, Out, next, nextWatch)
    requires Queued(before, nextWatch, WatchWait) && Queued(before, next, TotalWait)
    ensures WatchStages(after) && (NoWatches(before) ==> NoWatches(after))
  {
  }

  lemma FreeSlotMoves(r: Route, t: nat)
    requires t < |r.callers| && HoldsTotal(r.callers[t])
    requires Queued(r.callers, Release(r.total, t).1, TotalWait) && Queued(r.callers, GiveWatch(r, t).1, WatchWait)
    ensures MovedTo(r.callers, FreeSlot(r, t).callers, t, Out, Release(r.total, t).1, GiveWatch(r, t).1)
  {
  }

  lemma FreeSlotTracks(r: Route, t: nat)
    requires t < |r.callers| && HoldsTotal(r.callers[t])
    requires TotalTracks(r.total, r.callers) && WatchTracks(r.watches, r.callers)
    ensures var after := FreeSlot(r, t);
            TotalTracks(after.total, after.callers) && WatchTracks(after.watches, after.callers)
    ensures MovedTo(r.callers, FreeSlot(r, t).callers, t, Out, Release(r.total, t).1, GiveWatch(r, t).1)
    ensures Queued(r.callers, Release(r.total, t).1, TotalWait) && Queued(r.callers, GiveWatch(r, t).1, WatchWait)
  {
    var (total, next) := Release(r.total, t);
    var (watches, nextWatch) := GiveWatch(r, t);
    LaneGives(r.total, t);
    if r.callers[t].watch && r.watches.Some? { LaneGives(r.watches.value, t); }
    FreeSlotMoves(r, t);
    var after := FreeSlot(r, t).callers;
    TotalAfter(r.total.live, Elems(r.total.waiters), total.live, Elems(total.waiters), r.callers, after, t, next,
               nextWatch);
    StagesAfter(r.callers, after, t, next, nextWatch);
    if r.watches.Some? {
      var l := r.watches.value;
      if r.callers[t].watch {
        WatchAfter(l.live, Elems(l.waiters), watches.value.live, Elems(watches.value.waiters), r.callers, after, t,
                   next, nextWatch);
      } else {
        WatchUntouched(l.live, Elems(l.waiters), r.callers, after, t, next);
      }
    }
  }

  // ---- a caller that moves alone

  lemma TotalChange(live: set<nat>, waiting: set<nat>, live': set<nat>, waiting': set<nat>, before: seq<Caller>,
                    after: seq<Caller>, t: nat, stage: Stage)
    requires TotalSets(live, waiting, before) && t < |before| && MovedTo(before, after, t, stage, None, None)
    requires forall x | x != t :: (x in live' <==> x in live) && (x in waiting' <==> x in waiting)
    requires (t in live' <==> HoldsTotal(after[t])) && (t in waiting' <==> stage.TotalWait?)
    ensures TotalSets(live', waiting', after)
  {
  }

  lemma WatchChange(live: set<nat>, waiting: set<nat>, live': set<nat>, waiting': set<nat>, before: seq<Caller>,
                    after: seq<Caller>, t: nat, stage: Stage)
    requires WatchSets(live, waiting, before) && t < |before| && MovedTo(before, after, t, stage, None, None)
    requires forall x | x != t :: (x in live' <==> x in live) && (x in waiting' <==> x in waiting)
    requires (t in live' <==> HoldsWatch(after[t])) && (t in waiting' <==> stage.WatchWait?)
    ensures WatchSets(live', waiting', after)
  {
  }

  ghost predicate Tracks(r: Route) {
    TotalTracks(r.total, r.callers) && WatchTracks(r.watches, r.callers)
  }

  /** Only the stage of `t` changes, and no lane notices. */
  lemma StageOnly(r: Route, t: nat, stage: Stage)
    requires Tracks(r) && t < |r.callers|
    requires HoldsTotal(r.callers[t]) && HoldsTotal(r.callers[t].(stage := stage))
    ensures Tracks(r.(callers := SetStage(r.callers, t, stage)))
  {
    var after := SetStage(r.callers, t, stage);
    var l := r.total;
    TotalChange(l.live, Elems(l.waiters), l.live, Elems(l.waiters), r.callers, after, t, stage);
    if r.watches.Some? {
      var w := r.watches.value;
      WatchChange(w.live, Elems(w.waiters), w.live, Elems(w.waiters), r.callers, after, t, stage);
    }
  }

  /** What asking for a place does to a lane, as sets. */
  lemma LaneTakes(l: Lane, id: nat, expired: bool)
    requires Valid(l) && id !in l.live && id !in Elems(l.waiters)
    ensures var (after, reply) := Acquire(l, id, expired);
            && Valid(after)
            && (forall x | x != id ::
                  (x in after.live <==> x in l.live) && (x in Elems(after.waiters) <==> x in Elems(l.waiters)))
            && (id in after.live <==> reply.Granted?) && (id in Elems(after.waiters) <==> reply.Waiting?)
  {
    AcquireKeeps(l, id, expired);
  }

  lemma AskTotalTracks(r: Route, t: nat, expired: bool, refused: Stage)
    requires Tracks(r) && t < |r.callers|
    requires if r.callers[t].watch then r.callers[t].stage.WatchGap? && refused.TotalFail?
             else r.callers[t].stage.Out? && refused.Out?
    ensures Tracks(AskTotal(r, t, expired, refused))
  {
    var after := AskTotal(r, t, expired, refused);
    LaneTakes(r.total, t, expired);
    TotalChange(r.total.live, Elems(r.total.waiters), after.total.live, Elems(after.total.waiters), r.callers,
                after.callers, t, after.callers[t].stage);
    if r.watches.Some? {
      var w := r.watches.value;
      WatchChange(w.live, Elems(w.waiters), w.live, Elems(w.waiters), r.callers, after.callers, t,
                  after.callers[t].stage);
    }
  }

  lemma AskWatchTracks(r: Route, t: nat, expired: bool)
    requires Tracks(r) && t < |r.callers| && r.watches.Some? && r.callers[t] == Caller(true, Out, false)
    ensures Tracks(AskWatch(r, t, expired))
  {
    var after := AskWatch(r, t, expired);
    var w, w' := r.watches.value, after.watches.value;
    LaneTakes(w, t, expired);
    TotalChange(r.total.live, Elems(r.total.waiters), r.total.live, Elems(r.total.waiters), r.callers, after.callers,
                t, after.callers[t].stage);
    WatchChange(w.live, Elems(w.waiters), w'.live, Elems(w'.waiters), r.callers, after.callers, t,
                after.callers[t].stage);
  }

  lemma EnterTracks(r: Route, uses: bool)
    requires Tracks(r) && (uses ==> r.watches.Some?)
    ensures Tracks(r.(callers := r.callers + [Caller(uses, Out, false)]))
  {
  }

  lemma ExpireTracks(r: Route, t: nat)
    requires Tracks(r) && t < |r.callers|
    ensures Tracks(CallerStep(r, t, r.callers[t], Expire(t)))
  {
    var c, after := r.callers[t], CallerStep(r, t, r.callers[t], Expire(t));
    if c.stage.WatchWait? && r.watches.Some? {
      var w, w' := r.watches.value, after.watches.value;
      WithdrawKeeps(w, t);
      TotalChange(r.total.live, Elems(r.total.waiters), r.total.live, Elems(r.total.waiters), r.callers,
                  after.callers, t, Out);
      WatchChange(w.live, Elems(w.waiters), w'.live, Elems(w'.waiters), r.callers, after.callers, t, Out);
    } else if c.stage.TotalWait? {
      WithdrawKeeps(r.total, t);
      TotalChange(r.total.live, Elems(r.total.waiters), after.total.live, Elems(after.total.waiters), r.callers,
                  after.callers, t, after.callers[t].stage);
      if r.watches.Some? {
        var w := r.watches.value;
        WatchChange(w.live, Elems(w.waiters), w.live, Elems(w.waiters), r.callers, after.callers, t,
                    after.callers[t].stage);
      }
    }
  }

  lemma FreeWatchTracks(r: Route, t: nat)
    requires Tracks(r) && t < |r.callers| && r.callers[t].stage.TotalFail?
    ensures Tracks(FreeWatch(r, t))
    ensures MovedTo(r.callers, FreeWatch(r, t).callers, t, Out, None, GiveWatch(r, t).1)
    ensures Queued(r.callers, GiveWatch(r, t).1, WatchWait)
  {
    var after := FreeWatch(r, t);
    assert r.callers[t].watch && r.watches.Some?;
    var w, w' := r.watches.value, after.watches.value;
    LaneGives(w, t);
    var next := GiveWatch(r, t).1;
    TotalUntouched(r.total.live, Elems(r.total.waiters), r.callers, after.callers, t, next);
    WatchAfter(w.live, Elems(w.waiters), w'.live, Elems(w'.waiters), r.callers, after.callers, t, None, next);
    StagesAfter(r.callers, after.callers, t, None, next);
  }

  lemma TotalUntouched(live: set<nat>, waiting: set<nat>, before: seq<Caller>, after: seq<Caller>, t: nat,
                       nextWatch: Option<nat>)
    requires TotalSets(live, waiting, before) && t < |before| && before[t].stage.TotalFail?
    requires MovedTo(before, after, t, Out, None, nextWatch) && Queued(before, nextWatch, WatchWait)
    ensures TotalSets(live, waiting, after)
  {
  }

  // ---- closing

  lemma ShutTracks(r: Route)
    requires Tracks(r)
    ensures Tracks(Shut(r)) && ShutLanes(Shut(r))
  {
    CloseKeeps(r.total);
    if r.watches.Some? { CloseKeeps(r.watches.value); }
  }

  ghost predicate ShutLanes(r: Route) {
    && Shuttered(r.total) && (r.watches.Some? ==> Shuttered(r.watches.value))
  }

  /** Everything but the lanes and the stages of freed callers stays. */
  predicate SameWire(r: Route, after: Route) {
    && |after.callers| == |r.callers| && after.closed == r.closed && after.unanswered == r.unanswered
    && after.total.limit == r.total.limit && after.watches.Some? == r.watches.Some?
    && (r.watches.Some? ==> after.watches.value.limit == r.watches.value.limit)
    && forall x | 0 <= x < |r.callers| :: after.callers[x].watch == r.callers[x].watch
  }

  /** The first `n` slots are free and the callers behind them untouched. */
  predicate FreedUpTo(r: Route, after: Route, n: nat)
    requires n <= |r.callers|
  {
    && SameWire(r, after)
    && (forall x | 0 <= x < n :: !after.callers[x].stage.Ready? && !after.callers[x].stage.Flying?)
    && (forall x | n <= x < |r.callers| :: after.callers[x] == r.callers[x])
  }

  lemma FreedOneMore(r: Route, rest: Route, n: nat)
    requires n < |r.callers| && FreedUpTo(r, rest, n) && ShutLanes(rest)
    ensures ShutLanes(FreeOne(rest, n)) && FreedUpTo(r, FreeOne(rest, n), n + 1)
  {
    if rest.callers[n].stage.Ready? || rest.callers[n].stage.Flying? { FreeShut(rest, n); }
  }

  lemma FreeOneTracks(r: Route, t: nat)
    requires Tracks(r)
    ensures Tracks(FreeOne(r, t))
  {
    if t < |r.callers| && (r.callers[t].stage.Ready? || r.callers[t].stage.Flying?) { FreeSlotTracks(r, t); }
  }

  ghost predicate Shutting(r: Route, now: Route, n: nat) {
    n <= |r.callers| && Tracks(now) && ShutLanes(now) && FreedUpTo(r, now, n)
  }

  lemma ShuttingOn(r: Route, now: Route, n: nat)
    requires Shutting(r, now, n) && n < |r.callers|
    ensures Shutting(r, FreeOne(now, n), n + 1)
  {
    FreeOneTracks(now, n);
    FreedOneMore(r, now, n);
  }

  /** What holds at first and survives each release holds at the end. */
  lemma {:induction false} FreeAllKeeps(keeps: (Route, nat) -> bool, r: Route, n: nat)
    requires keeps(r, 0) && forall now, k: nat :: k < n && keeps(now, k) ==> keeps(FreeOne(now, k), k + 1)
    ensures keeps(FreeAll(r, n), n)
  {
    if n > 0 { FreeAllKeeps(keeps, r, n - 1); }
  }

  lemma FreeAllTracks(r: Route)
    requires Tracks(r) && ShutLanes(r)
    ensures Shutting(r, FreeAll(r, |r.callers|), |r.callers|)
  {
    var keeps := (now: Route, k: nat) => Shutting(r, now, k);
    forall now, k: nat | k < |r.callers| && keeps(now, k) ensures keeps(FreeOne(now, k), k + 1) {
      ShuttingOn(r, now, k);
    }
    FreeAllKeeps(keeps, r, |r.callers|);
  }

  lemma FreeShut(r: Route, t: nat)
    requires t < |r.callers| && ShutLanes(r)
    ensures var after := FreeSlot(r, t);
            ShutLanes(after) && SameWire(r, after) && after.callers == SetStage(r.callers, t, Out)
  {
  }

  // ------------------------------------------------ the invariant over every run

  /** A step of a caller leaves the lanes tracked and the wire tracked. */
  ghost predicate Kept(r: Route, after: Route) {
    && Tracks(after) && WireTracks(after) && after.closed == r.closed
    && |after.callers| == |r.callers| && after.total.limit == r.total.limit
    && after.watches.Some? == r.watches.Some?
    && (r.watches.Some? ==> after.watches.value.limit == r.watches.value.limit)
    && (forall x | 0 <= x < |r.callers| :: after.callers[x].watch == r.callers[x].watch)
    && (r.closed ==> after.unanswered <= r.unanswered)
  }

  /** The wire is tracked as long as the flights are exactly the ones left unanswered. */
  lemma WireStays(r: Route, after: Route, t: nat)
    requires WireTracks(r) && t < |r.callers| == |after.callers| && after.closed == r.closed
    requires forall x | 0 <= x < |r.callers| && x != t ::
               after.callers[x].stage.Flying? <==> r.callers[x].stage.Flying?
    requires forall x | x != t :: x in after.unanswered <==> x in r.unanswered
    requires r.closed ==> !after.callers[t].stage.Flying? && after.unanswered <= r.unanswered
    requires !r.closed ==> (t in after.unanswered <==> after.callers[t].stage.Flying?)
    requires after.total.failed == r.total.failed && after.watches.Some? == r.watches.Some?
    requires r.watches.Some? ==> after.watches.value.failed == r.watches.value.failed
    ensures WireTracks(after)
  {
  }

  lemma EnterWire(r: Route, uses: bool)
    requires WireTracks(r)
    ensures WireTracks(r.(callers := r.callers + [Caller(uses, Out, false)]))
  {
  }

  lemma EnterKeeps(r: Route, watch: bool, expired: bool)
    requires Inv(r)
    ensures Tracks(Step(r, Enter(watch, expired))) && WireTracks(Step(r, Enter(watch, expired)))
    ensures forall x <- r.unanswered :: x < |r.callers|
    ensures |Step(r, Enter(watch, expired)).callers| == |r.callers| + 1
    ensures forall x | 0 <= x < |r.callers| :: Step(r, Enter(watch, expired)).callers[x] == r.callers[x]
  {
    var uses, t := watch && r.watches.Some?, |r.callers|;
    var entered := r.(callers := r.callers + [Caller(uses, Out, false)]);
    EnterTracks(r, uses);
    EnterWire(r, uses);
    if uses {
      AskWatchTracks(entered, t, expired);
    } else {
      AskTotalTracks(entered, t, expired, Out);
    }
    WireStays(entered, Step(r, Enter(watch, expired)), t);
  }

  lemma FreeSlotLanes(r: Route, t: nat)
    requires Tracks(r) && t < |r.callers|
    ensures var after := FreeSlot(r, t);
            && after.total.limit == r.total.limit && after.total.failed == r.total.failed
            && after.watches.Some? == r.watches.Some?
            && (r.watches.Some? ==>
                  && after.watches.value.limit == r.watches.value.limit
                  && after.watches.value.failed == r.watches.value.failed)
  {
  }

  lemma MovedFlights(before: seq<Caller>, after: seq<Caller>, t: nat, next: Option<nat>, nextWatch: Option<nat>)
    requires t < |before| && MovedTo(before, after, t, Out, next, nextWatch)
    requires Queued(before, next, TotalWait) && Queued(before, nextWatch, WatchWait)
    ensures forall x | 0 <= x < |before| :: after[x].watch == before[x].watch
    ensures forall x | 0 <= x < |before| && x != t :: after[x].stage.Flying? <==> before[x].stage.Flying?
    ensures after[t].stage.Out?
  {
  }

  lemma FreeSlotKeeps(r: Route, unanswered: set<nat>, t: nat)
    requires Inv(r) && t < |r.callers| && HoldsTotal(r.callers[t]) && unanswered <= r.unanswered
    requires (forall x | x != t :: x in unanswered <==> x in r.unanswered) && (!r.closed ==> t !in unanswered)
    ensures Kept(r, FreeSlot(r.(unanswered := unanswered), t))
  {
    var cut := r.(unanswered := unanswered);
    var after := FreeSlot(cut, t);
    FreeSlotTracks(cut, t);
    FreeSlotLanes(cut, t);
    MovedFlights(r.callers, after.callers, t, Release(r.total, t).1, GiveWatch(cut, t).1);
    WireStays(r, after, t);
  }

  lemma ResumeKeeps(r: Route, t: nat, expired: bool)
    requires Inv(r) && t < |r.callers|
    ensures Kept(r, CallerStep(r, t, r.callers[t], Resume(t, expired)))
  {
    var c, after := r.callers[t], CallerStep(r, t, r.callers[t], Resume(t, expired));
    if c.stage.WatchGap? {
      AskTotalTracks(r, t, expired, TotalFail);
      WireStays(r, after, t);
    } else if c.stage.TotalFail? {
      FreeWatchTracks(r, t);
      MovedFlights(r.callers, after.callers, t, None, GiveWatch(r, t).1);
      WireStays(r, after, t);
    } else if c.stage.TotalGap? {
      StageOnly(r, t, Ready);
      WireStays(r, after, t);
    }
  }

  lemma WriteKeeps(r: Route, t: nat, queued: bool)
    requires Inv(r) && t < |r.callers|
    ensures Kept(r, CallerStep(r, t, r.callers[t], Write(t, queued)))
  {
    if r.callers[t].stage.Ready? && !r.closed {
      if queued { StageOnly(r, t, Flying); } else { FreeSlotKeeps(r, r.unanswered, t); }
    }
  }

  lemma AnswerKeeps(r: Route, t: nat, busy: bool)
    requires Inv(r) && t < |r.callers|
    ensures Kept(r, CallerStep(r, t, r.callers[t], Answer(t, busy)))
  {
    var c := r.callers[t];
    if t in r.unanswered && c.stage.Flying? {
      if busy && !c.over { StageOnly(r, t, Ready); } else { FreeSlotKeeps(r, r.unanswered - {t}, t); }
    }
  }

  lemma GiveUpKeeps(r: Route, t: nat)
    requires Inv(r) && t < |r.callers|
    ensures Kept(r, CallerStep(r, t, r.callers[t], GiveUp(t)))
  {
    var after := CallerStep(r, t, r.callers[t], GiveUp(t));
    assert forall x | 0 <= x < |r.callers| ::
        after.callers[x].stage == r.callers[x].stage && after.callers[x].watch == r.callers[x].watch;
  }

  lemma ExpireKeeps(r: Route, t: nat)
    requires Inv(r) && t < |r.callers|
    ensures Kept(r, CallerStep(r, t, r.callers[t], Expire(t)))
  {
    ExpireTracks(r, t);
  }

  lemma CallerKeeps(r: Route, t: nat, e: Event)
    requires Inv(r) && t < |r.callers| && !e.Enter? && !e.CloseRoute? && e.caller == t
    ensures Kept(r, CallerStep(r, t, r.callers[t], e))
  {
    match e
    case Resume(_, expired) => ResumeKeeps(r, t, expired);
    case Expire(_) => ExpireKeeps(r, t);
    case Write(_, queued) => WriteKeeps(r, t, queued);
    case Throw(_) =>
      if r.callers[t].stage.Ready? { FreeSlotKeeps(r, r.unanswered, t); }
    case Answer(_, busy) => AnswerKeeps(r, t, busy);
    case GiveUp(_) => GiveUpKeeps(r, t);
  }

  lemma KeptIsWithin(r: Route, after: Route)
    requires Inv(r) && Kept(r, after)
    ensures Inv(after)
  {
    if after.closed {
      SubsetSize(after.unanswered, r.unanswered);
      SubsetSize(WatchesUnanswered(after), WatchesUnanswered(r));
    } else {
      OpenIsWithin(after);
    }
  }

  lemma CloseKeepsInv(r: Route)
    requires Inv(r) && !r.closed
    ensures Inv(Step(r, CloseRoute)) && SameWire(Shut(r), Step(r, CloseRoute))
  {
    ShutTracks(r);
    FreeAllTracks(Shut(r));
    var after := Step(r, CloseRoute);
    SubsetSize(WatchesUnanswered(after), WatchesUnanswered(r));
  }

  lemma InvKept(r: Route, e: Event)
    requires Inv(r)
    ensures Inv(Step(r, e)) && Step(r, e).total.limit == r.total.limit
    ensures Step(r, e).watches.Some? == r.watches.Some?
    ensures r.watches.Some? ==> Step(r, e).watches.value.limit == r.watches.value.limit
  {
    match e
    case Enter(watch, expired) =>
      EnterKeeps(r, watch, expired);
      if r.closed {
        SubsetSize(WatchesUnanswered(Step(r, e)), WatchesUnanswered(r));
      } else {
        OpenIsWithin(Step(r, e));
      }
    case CloseRoute =>
      if !r.closed { CloseKeepsInv(r); }
    case _ =>
      if e.caller < |r.callers| {
        CallerKeeps(r, e.caller, e);
        KeptIsWithin(r, Step(r, e));
      }
  }

  /**
   Through timeouts, late terminals, busy retries, cancellations and closes, the
   requests written and unanswered on a route never exceed its windows.
   */
  lemma {:induction false} WindowsHold(requestWindow: nat, watchWindow: Option<nat>, events: seq<Event>)
    ensures var r := After(requestWindow, watchWindow, events);
            && Inv(r) && |r.unanswered| <= requestWindow
            && (watchWindow.Some? ==> |WatchesUnanswered(r)| <= watchWindow.value)
            && r.total.limit == requestWindow && (r.watches.Some? <==> watchWindow.Some?)
            && (watchWindow.Some? ==> r.watches.value.limit == watchWindow.value)
  {
    if events != [] {
      WindowsHold(requestWindow, watchWindow, events[..|events| - 1]);
      InvKept(After(requestWindow, watchWindow, events[..|events| - 1]), events[|events| - 1]);
    }
  }

  /** Nothing leaks: once every caller is out, both counters are back at zero. */
  lemma NothingLeaks(requestWindow: nat, watchWindow: Option<nat>, events: seq<Event>)
    requires forall c <- After(requestWindow, watchWindow, events).callers :: c.stage.Out?
    ensures var r := After(requestWindow, watchWindow, events);
            && r.total.used == 0 && r.total.waiters == []
            && (r.watches.Some? ==> r.watches.value.used == 0 && r.watches.value.waiters == [])
  {
    WindowsHold(requestWindow, watchWindow, events);
    var r := After(requestWindow, watchWindow, events);
    NobodyIn(r);
  }

  lemma NobodyIn(r: Route)
    requires Tracks(r) && forall c <- r.callers :: c.stage.Out?
    ensures r.total.used == 0 && r.total.waiters == []
    ensures r.watches.Some? ==> r.watches.value.used == 0 && r.watches.value.waiters == []
  {
    assert r.total.live == {} && Elems(r.total.waiters) == {};
    NoElems(r.total.waiters);
    if r.watches.Some? {
      assert r.watches.value.live == {} && Elems(r.watches.value.waiters) == {};
      NoElems(r.watches.value.waiters);
    }
  }

  lemma NoElems(q: seq<nat>)
    ensures q != [] ==> Elems(q) != {}
  {
    if q != [] { assert q[0] in Elems(q); }
  }

  /**
   A final answer, however late, frees the caller's places at once; a daemon's busy
   refusal keeps them for the retry exactly while the caller still waits for it.
   */
  lemma AnswersFree(requestWindow: nat, watchWindow: Option<nat>, events: seq<Event>, t: nat, busy: bool)
    requires var r := After(requestWindow, watchWindow, events); t < |r.callers| && r.callers[t].stage.Flying?
    ensures var r := After(requestWindow, watchWindow, events);
            var after := Step(r, Answer(t, busy));
            && t !in after.unanswered
            && (t in after.total.live <==> busy && !r.callers[t].over)
            && (after.watches.Some? ==>
                  (t in after.watches.value.live <==> busy && !r.callers[t].over && r.callers[t].watch))
  {
    WindowsHold(requestWindow, watchWindow, events);
    var r := After(requestWindow, watchWindow, events);
    InvKept(r, Answer(t, busy));
    if !busy || r.callers[t].over { FreeSlotTracks(r.(unanswered := r.unanswered - {t}), t); }
  }

  lemma NobodyWaits(r: Route)
    requires Inv(r) && r.closed
    ensures r.total.waiters == [] && (r.watches.Some? ==> r.watches.value.waiters == [])
    ensures forall t | 0 <= t < |r.callers| :: !r.callers[t].stage.TotalWait? && !r.callers[t].stage.Flying?
  {
    assert Elems(r.total.waiters) == {};
  }

  /**
   A closed route holds places of either window only for callers that have not
   resumed yet, keeps nobody waiting, and never writes again.
   */
  lemma ClosedHoldsNothing(requestWindow: nat, watchWindow: Option<nat>, events: seq<Event>, e: Event)
    requires After(requestWindow, watchWindow, events).closed
    ensures var r := After(requestWindow, watchWindow, events);
            && (forall t <- r.total.live ::
                  t < |r.callers| && (r.callers[t].stage.TotalGap? || r.callers[t].stage.Ready?))
            && r.total.waiters == [] && Step(r, e).unanswered <= r.unanswered
            && (r.watches.Some? ==> r.watches.value.waiters == [] && forall t <- r.watches.value.live ::
                  t < |r.callers| && (r.callers[t].stage.WatchGap? || r.callers[t].stage.TotalFail? ||
                                      r.callers[t].stage.TotalGap? || r.callers[t].stage.Ready?))
  {
    WindowsHold(requestWindow, watchWindow, events);
    var r := After(requestWindow, watchWindow, events);
    NobodyWaits(r);
    if !e.Enter? && !e.CloseRoute? && e.caller < |r.callers| { CallerKeeps(r, e.caller, e); }
  }

  // ------------------------------------------------ who is a watch

  /** The flag each caller entered with, in order. */
  function Watchers(events: seq<Event>): seq<bool> {
    if events == [] then []
    else
      var e := events[|events| - 1];
      Watchers(events[..|events| - 1]) + if e.Enter? then [e.watch] else []
  }

  lemma EntersWith(r: Route, watch: bool, expired: bool)
    requires Inv(r)
    ensures var after := Step(r, Enter(watch, expired));
            && |after.callers| == |r.callers| + 1
            && after.callers[|r.callers|].watch == (watch && r.watches.Some?) && !after.callers[|r.callers|].over
            && forall x | 0 <= x < |r.callers| :: after.callers[x] == r.callers[x]
  {
    EnterKeeps(r, watch, expired);
  }

  lemma FlagsStay(r: Route, e: Event)
    requires Inv(r) && !e.Enter?
    ensures |Step(r, e).callers| == |r.callers|
    ensures forall x | 0 <= x < |r.callers| :: Step(r, e).callers[x].watch == r.callers[x].watch
  {
    if e.CloseRoute? {
      if !r.closed { CloseKeepsInv(r); }
    } else if e.caller < |r.callers| {
      CallerKeeps(r, e.caller, e);
    }
  }

  /** With a watch window, exactly those that entered as watches go through the watch lane. */
  lemma {:induction false} WatchesAreThoseEntered(requestWindow: nat, watchWindow: Option<nat>, events: seq<Event>)
    ensures var callers, watchers := After(requestWindow, watchWindow, events).callers, Watchers(events);
            && |callers| == |watchers|
            && forall t | 0 <= t < |callers| :: callers[t].watch <==> watchers[t] && watchWindow.Some?
  {
    if events != [] {
      var before, e := events[..|events| - 1], events[|events| - 1];
      WatchesAreThoseEntered(requestWindow, watchWindow, before);
      WindowsHold(requestWindow, watchWindow, before);
      var r := After(requestWindow, watchWindow, before);
      if e.Enter? { EntersWith(r, e.watch, e.expired); } else { FlagsStay(r, e); }
    }
  }

  /** The callers that entered as watches and have no answer number at most the watch window. */
  lemma WatchWindowHolds(requestWindow: nat, watchWindow: nat, events: seq<Event>)
    ensures var r := After(requestWindow, Some(watchWindow), events);
            |set t | t in r.unanswered && t < |Watchers(events)| && Watchers(events)[t]| <= watchWindow
  {
    WatchesAreThoseEntered(requestWindow, Some(watchWindow), events);
    WindowsHold(requestWindow, Some(watchWindow), events);
    var r := After(requestWindow, Some(watchWindow), events);
    assert (set t | t in r.unanswered && t < |Watchers(events)| && Watchers(events)[t]) == WatchesUnanswered(r);
  }

  // ------------------------------------------------ places are used, handed over and given back

  predicate HasRoom(l: Lane) { |l.live| < l.limit }

  /** A granted caller that resumes and writes is on the wire. */
  lemma GrantedIsWritten(r: Route, t: nat, expired: bool)
    requires Inv(r) && !r.closed && t < |r.callers| && r.callers[t].stage.TotalGap?
    ensures var after := Step(Step(r, Resume(t, expired)), Write(t, true));
            after.unanswered == r.unanswered + {t} && after.callers[t].stage.Flying?
  {
  }

  lemma RoomForRequest(r: Route, watch: bool)
    requires Inv(r) && !r.closed && HasRoom(r.total) && !(watch && r.watches.Some?)
    ensures var after := Step(r, Enter(watch, false));
            && |after.callers| == |r.callers| + 1 && after.callers[|r.callers|].stage.TotalGap?
            && after.unanswered == r.unanswered && !after.closed
  {
  }

  lemma RoomForWatch(r: Route)
    requires Inv(r) && !r.closed && r.watches.Some? && HasRoom(r.watches.value)
    ensures var after := Step(r, Enter(true, false));
            && |after.callers| == |r.callers| + 1 && after.callers[|r.callers|].stage.WatchGap?
            && after.unanswered == r.unanswered && !after.closed && after.total == r.total
  {
  }

  lemma WatchGoesOn(r: Route, t: nat)
    requires Inv(r) && !r.closed && t < |r.callers| && r.callers[t].stage.WatchGap? && HasRoom(r.total)
    ensures var after := Step(r, Resume(t, false));
            && |after.callers| == |r.callers| && after.callers[t].stage.TotalGap?
            && after.unanswered == r.unanswered && !after.closed
  {
  }

  /** A caller that finds room in its windows is granted a place, and can write. */
  lemma RoomIsUsed(r: Route, watch: bool)
    requires Inv(r) && !r.closed && HasRoom(r.total)
    requires watch && r.watches.Some? ==> HasRoom(r.watches.value)
    ensures var t, entered := |r.callers|, Step(r, Enter(watch, false));
            var granted := if watch && r.watches.Some? then Step(entered, Resume(t, false)) else entered;
            Step(Step(granted, Resume(t, false)), Write(t, true)).unanswered == r.unanswered + {t}
  {
    var t, entered := |r.callers|, Step(r, Enter(watch, false));
    InvKept(r, Enter(watch, false));
    if watch && r.watches.Some? {
      RoomForWatch(r);
      WatchGoesOn(entered, t);
      InvKept(entered, Resume(t, false));
      GrantedIsWritten(Step(entered, Resume(t, false)), t, false);
    } else {
      RoomForRequest(r, watch);
      GrantedIsWritten(entered, t, false);
    }
  }

  /** A freed place goes to the caller that has waited longest, in either lane. */
  lemma PlaceIsHandedOver(r: Route, t: nat, busy: bool)
    requires Inv(r) && !r.closed && t < |r.callers| && r.callers[t].stage.Flying? && (busy ==> r.callers[t].over)
    ensures var after := Step(r, Answer(t, busy)).callers;
            && |after| == |r.callers| && after[t].stage.Out?
            && (r.total.waiters != [] ==>
                  && r.total.waiters[0] < |after| && after[r.total.waiters[0]].stage.TotalGap?)
            && (r.callers[t].watch && r.watches.Some? && r.watches.value.waiters != [] ==>
                  && r.watches.value.waiters[0] < |after| && after[r.watches.value.waiters[0]].stage.WatchGap?)
  {
    FreeSlotTracks(r.(unanswered := r.unanswered - {t}), t);
  }

  /** The events by which caller `c` leaves for good. */
  predicate Leaves(c: Caller, e: Event, closed: bool) {
    match e
    case Throw(_) => c.stage.Ready?
    case Write(_, queued) => c.stage.Ready? && !queued && !closed
    case Expire(_) => c.stage.WatchWait? || (c.stage.TotalWait? && !c.watch)
    case Resume(_, _) => c.stage.TotalFail?
    case _ => false
  }

  /** Neither holds nor awaits a place. */
  predicate Nowhere(l: Lane, t: nat) { t !in l.live && t !in l.waiters }

  lemma OutIsNowhere(r: Route, t: nat)
    requires Tracks(r) && t < |r.callers| && r.callers[t].stage.Out?
    ensures Nowhere(r.total, t) && (r.watches.Some? ==> Nowhere(r.watches.value, t))
  {
    assert t !in Elems(r.total.waiters);
    if r.watches.Some? { assert t !in Elems(r.watches.value.waiters); }
  }

  lemma LeavesOut(r: Route, t: nat, e: Event)
    requires Inv(r) && t < |r.callers| && !e.Enter? && !e.CloseRoute? && e.caller == t
    requires Leaves(r.callers[t], e, r.closed)
    ensures |Step(r, e).callers| == |r.callers| && Step(r, e).callers[t].stage.Out?
  {
    if e.Throw? || e.Write? {
      FreeSlotTracks(r, t);
    } else if e.Resume? {
      FreeWatchTracks(r, t);
    }
  }

  /** An abandoned or timed-out caller keeps nothing, whatever it held. */
  lemma LeavingFrees(r: Route, t: nat, e: Event)
    requires Inv(r) && t < |r.callers| && !e.Enter? && !e.CloseRoute? && e.caller == t
    requires Leaves(r.callers[t], e, r.closed)
    ensures var after := Step(r, e);
            Nowhere(after.total, t) && (after.watches.Some? ==> Nowhere(after.watches.value, t))
  {
    InvKept(r, e);
    LeavesOut(r, t, e);
    OutIsNowhere(Step(r, e), t);
  }

  /** A watch that times out behind the total window gives its watch place back on its next turn. */
  lemma ExpiredWatchLeaves(r: Route, t: nat, expired: bool)
    requires Inv(r) && t < |r.callers| && r.callers[t].stage.TotalWait? && r.callers[t].watch
    ensures var after := Step(Step(r, Expire(t)), Resume(t, expired));
            Nowhere(after.total, t) && (after.watches.Some? ==> Nowhere(after.watches.value, t))
  {
    InvKept(r, Expire(t));
    LeavingFrees(Step(r, Expire(t)), t, Resume(t, expired));
  }

  // ------------------------------------------------ giving up

  /** A caller that gave up its request is not kept for a retry. */
  lemma GivenUpIsFreed(r: Route, t: nat, busy: bool)
    requires Inv(r) && !r.closed && t < |r.callers| && r.callers[t].stage.Flying?
    ensures var after := Step(Step(r, GiveUp(t)), Answer(t, busy));
            Nowhere(after.total, t) && (after.watches.Some? ==> Nowhere(after.watches.value, t))
  {
    var given := Step(r, GiveUp(t));
    InvKept(r, GiveUp(t));
    PlaceIsHandedOver(given, t, busy);
    InvKept(given, Answer(t, busy));
    OutIsNowhere(Step(given, Answer(t, busy)), t);
  }

  /** A busy refusal leaves a caller that did not give up free to write again under the same place. */
  lemma BusyIsRetried(r: Route, t: nat)
    requires Inv(r) && !r.closed && t < |r.callers| && r.callers[t].stage.Flying? && !r.callers[t].over
    ensures Step(Step(r, Answer(t, true)), Write(t, true)) == r
  {
  }

  predicate SameOver(r: Route, now: Route) {
    |now.callers| == |r.callers| && forall x | 0 <= x < |r.callers| :: now.callers[x].over == r.callers[x].over
  }

  lemma FreedKeepOver(r: Route, t: nat)
    requires t < |r.callers|
    ensures SameOver(r, FreeSlot(r, t)) && SameOver(r, FreeWatch(r, t))
  {
  }

  lemma CallerKeepsOver(r: Route, t: nat, e: Event)
    requires t < |r.callers| && !e.Enter? && !e.CloseRoute? && e.caller == t
    ensures var after := CallerStep(r, t, r.callers[t], e);
            && |after.callers| == |r.callers|
            && forall x | 0 <= x < |r.callers| :: after.callers[x].over ==> r.callers[x].over || e == GiveUp(x)
  {
    FreedKeepOver(r, t);
    if e.Answer? { FreedKeepOver(r.(unanswered := r.unanswered - {t}), t); }
  }

  lemma OverByGivingUp(r: Route, e: Event, t: nat)
    requires Inv(r) && t < |Step(r, e).callers| && Step(r, e).callers[t].over
    ensures e == GiveUp(t) || (t < |r.callers| && r.callers[t].over)
  {
    if e.Enter? {
      EntersWith(r, e.watch, e.expired);
    } else if e.CloseRoute? {
      if !r.closed { ClosingKeepsOver(r, t); }
    } else if e.caller < |r.callers| {
      CallerKeepsOver(r, e.caller, e);
    }
  }

  lemma ClosingKeepsOver(r: Route, t: nat)
    requires t < |Step(r, CloseRoute).callers|
    ensures t < |r.callers| && Step(r, CloseRoute).callers[t].over == r.callers[t].over
  {
    var keeps := (now: Route, k: nat) => SameOver(Shut(r), now);
    FreeAllKeeps(keeps, Shut(r), |r.callers|);
  }

  /** Closing is final, and a caller counts as given up only after it gave up. */
  lemma {:induction false} FlagsComeFromEvents(requestWindow: nat, watchWindow: Option<nat>, events: seq<Event>, t: nat)
    ensures After(requestWindow, watchWindow, events).closed <==> CloseRoute in events
    ensures var callers := After(requestWindow, watchWindow, events).callers;
            t < |callers| && callers[t].over ==> GiveUp(t) in events
  {
    if events != [] {
      var before, e := events[..|events| - 1], events[|events| - 1];
      FlagsComeFromEvents(requestWindow, watchWindow, before, t);
      WindowsHold(requestWindow, watchWindow, before);
      var r := After(requestWindow, watchWindow, before);
      assert events == before + [e];
      if t < |Step(r, e).callers| && Step(r, e).callers[t].over { OverByGivingUp(r, e, t); }
      ClosedBy(r, e);
    }
  }

  lemma ClosedBy(r: Route, e: Event)
    requires Inv(r)
    ensures Step(r, e).closed <==> r.closed || e.CloseRoute?
  {
    if e.CloseRoute? {
      if !r.closed { CloseKeepsInv(r); }
    } else if !e.Enter? && e.caller < |r.callers| {
      CallerKeeps(r, e.caller, e);
    }
  }
}
