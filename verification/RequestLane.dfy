/**
 One first-come-first-served lane of a route window: a counter of granted
 places, a queue of waiters, and the hand-over from a released place to the
 next waiter.
 */
module RequestLane {
  import opened Wrappers

  /**
   `live` names the grants whose releaser has not run yet; the counter `used` is
   what the lane itself keeps. Callers are numbered in the order they arrive.
   */
  datatype Lane = Lane(limit: nat, used: int, waiters: seq<nat>, failed: bool, live: set<nat>)

  datatype Reply = Granted | Waiting | Rejected

  function Open(limit: nat): Lane { Lane(limit, 0, [], false, {}) }

  /** `expired`: the caller was aborted or has no time left. */
  function Acquire(l: Lane, id: nat, expired: bool): (Lane, Reply) {
    if l.failed || expired then (l, Rejected)
    else if l.used < l.limit && l.waiters == [] then (l.(used := l.used + 1, live := l.live + {id}), Granted)
    else (l.(waiters := l.waiters + [id]), Waiting)
  }

  /** Running a releaser twice does nothing; otherwise the place goes to the next waiter, if any. */
  function Release(l: Lane, id: nat): (Lane, Option<nat>) {
    if id !in l.live then (l, None)
    else if l.waiters == [] then (l.(used := l.used - 1, live := l.live - {id}), None)
    else (l.(waiters := l.waiters[1..], live := l.live - {id} + {l.waiters[0]}), Some(l.waiters[0]))
  }

  function Without(q: seq<nat>, id: nat): seq<nat> {
    if q == [] then [] else if q[0] == id then q[1..] else [q[0]] + Without(q[1..], id)
  }

  /** A waiter whose deadline or abort comes first leaves the queue. */
  function Withdraw(l: Lane, id: nat): Lane { l.(waiters := Without(l.waiters, id)) }

  function Close(l: Lane): Lane { l.(failed := true, waiters := []) }

  predicate Rising(q: seq<nat>) { forall i, j | 0 <= i < j < |q| :: q[i] < q[j] }

  predicate Distinct(q: seq<nat>) { forall i, j | 0 <= i < j < |q| :: q[i] != q[j] }

  predicate Valid(l: Lane) {
    && l.used == |l.live| <= l.limit
    && (l.waiters != [] ==> l.used == l.limit)
    && (l.failed ==> l.waiters == [])
    && Distinct(l.waiters) && (forall w <- l.waiters :: w !in l.live)
  }

  // ------------------------------------------------ each operation keeps the lane valid

  lemma AcquireKeeps(l: Lane, id: nat, expired: bool)
    requires Valid(l) && id !in l.live && id !in l.waiters
    ensures var (after, reply) := Acquire(l, id, expired);
            && Valid(after)
            && after.live == l.live + (if reply.Granted? then {id} else {})
            && after.waiters == l.waiters + (if reply.Waiting? then [id] else [])
  {
  }

  /** Who is turned away, and who is granted a place at once. */
  lemma AcquireDecides(l: Lane, id: nat, expired: bool)
    requires Valid(l)
    ensures var reply := Acquire(l, id, expired).1;
            && (reply.Rejected? <==> l.failed || expired)
            && (reply.Granted? <==> !l.failed && !expired && |l.live| < l.limit)
  {
  }

  lemma RisingMore(q: seq<nat>, id: nat)
    requires Rising(q) && forall w <- q :: w < id
    ensures Rising(q + [id]) && id !in q
  {
    forall i, j | 0 <= i < j < |q + [id]| ensures (q + [id])[i] < (q + [id])[j] {
      assert q[i] in q;
    }
  }

  lemma ReleaseKeeps(l: Lane, id: nat)
    requires Valid(l)
    ensures var (after, granted) := Release(l, id);
            && Valid(after)
            && (granted.Some? <==> id in l.live && l.waiters != [])
            && (granted.Some? ==> granted.value == l.waiters[0] && after.waiters == l.waiters[1..])
            && (granted.None? ==> after.waiters == l.waiters)
            && forall x :: x in after.live <==> (x in l.live && x != id) || Some(x) == granted
  {
    if id in l.live && l.waiters != [] {
      assert l.waiters[0] in l.waiters && forall w <- l.waiters[1..] :: w in l.waiters;
      assert forall w <- l.waiters[1..] :: w != l.waiters[0];
    }
  }

  lemma {:induction false} WithoutLemma(q: seq<nat>, id: nat)
    requires Distinct(q)
    ensures Distinct(Without(q, id)) && forall x :: x in Without(q, id) <==> x in q && x != id
    ensures Rising(q) ==> Rising(Without(q, id))
  {
    if q != [] {
      assert Distinct(q[1..]) && (Rising(q) ==> Rising(q[1..]));
      assert forall x <- q[1..] :: x in q && q[0] != x;
      assert Rising(q) ==> forall x <- q[1..] :: q[0] < x;
      WithoutLemma(q[1..], id);
      if q[0] != id { ConsWithout(q[0], Without(q[1..], id)); }
    }
  }

  lemma ConsWithout(head: nat, rest: seq<nat>)
    requires Distinct(rest) && head !in rest
    ensures Distinct([head] + rest)
    ensures Rising(rest) && (forall x <- rest :: head < x) ==> Rising([head] + rest)
  {
    assert forall i | 0 <= i < |rest| :: rest[i] in rest;
  }

  lemma WithdrawKeeps(l: Lane, id: nat)
    requires Valid(l)
    ensures Valid(Withdraw(l, id)) && forall x :: x in Withdraw(l, id).waiters <==> x in l.waiters && x != id
  {
    WithoutLemma(l.waiters, id);
  }

  lemma CloseKeeps(l: Lane)
    requires Valid(l)
    ensures Valid(Close(l)) && Close(l).live == l.live
  {
  }

  // ------------------------------------------------ every run of a lane

  datatype Op = Arrive(expired: bool) | Leave(id: nat) | Give(id: nat) | Shut

  /** A lane with the order in which its places were granted. */
  datatype Run = Run(lane: Lane, arrivals: nat, grants: seq<nat>)

  function Apply(r: Run, op: Op): Run {
    match op
    case Arrive(expired) =>
      var (lane, reply) := Acquire(r.lane, r.arrivals, expired);
      Run(lane, r.arrivals + 1, if reply.Granted? then r.grants + [r.arrivals] else r.grants)
    case Leave(id) => r.(lane := Withdraw(r.lane, id))
    case Give(id) =>
      var (lane, granted) := Release(r.lane, id);
      Run(lane, r.arrivals, if granted.Some? then r.grants + [granted.value] else r.grants)
    case Shut => r.(lane := Close(r.lane))
  }

  function After(limit: nat, ops: seq<Op>): Run {
    if ops == [] then Run(Open(limit), 0, []) else Apply(After(limit, ops[..|ops| - 1]), ops[|ops| - 1])
  }

  predicate InOrder(r: Run) {
    && Valid(r.lane) && Rising(r.grants) && Rising(r.lane.waiters)
    && (forall g <- r.grants :: g < r.arrivals) && (forall w <- r.lane.waiters :: w < r.arrivals)
    && (forall g, w | g in r.grants && w in r.lane.waiters :: g < w)
    && (forall x <- r.lane.live :: x in r.grants)
  }

  lemma ArriveKeepsOrder(r: Run, expired: bool)
    requires InOrder(r)
    ensures InOrder(Apply(r, Arrive(expired)))
  {
    assert r.arrivals !in r.grants;
    RisingMore(r.lane.waiters, r.arrivals);
    AcquireKeeps(r.lane, r.arrivals, expired);
    RisingMore(r.grants, r.arrivals);
  }

  lemma GiveKeepsOrder(r: Run, id: nat)
    requires InOrder(r)
    ensures InOrder(Apply(r, Give(id)))
  {
    ReleaseKeeps(r.lane, id);
    if id in r.lane.live && r.lane.waiters != [] {
      HeadIsLeast(r.lane.waiters);
      RisingMore(r.grants, r.lane.waiters[0]);
    }
  }

  lemma HeadIsLeast(q: seq<nat>)
    requires Rising(q) && q != []
    ensures q[0] in q && Rising(q[1..]) && forall w <- q[1..] :: w in q && q[0] < w
  {
  }

  lemma OpKeepsOrder(r: Run, op: Op)
    requires InOrder(r)
    ensures InOrder(Apply(r, op)) && Apply(r, op).lane.limit == r.lane.limit
    ensures Apply(r, op).lane.failed <==> r.lane.failed || op.Shut?
  {
    match op
    case Arrive(expired) => ArriveKeepsOrder(r, expired);
    case Leave(id) =>
      WithdrawKeeps(r.lane, id);
      WithoutLemma(r.lane.waiters, id);
    case Give(id) => GiveKeepsOrder(r, id);
    case Shut => CloseKeeps(r.lane);
  }

  /**
   Over every run: the counter is the number of outstanding grants and within the
   limit, there are waiters only while the lane is full, places are granted in
   strict order of arrival, and nobody waits on a closed lane, which is one that
   was shut.
   */
  lemma {:induction false} LaneIsFair(limit: nat, ops: seq<Op>)
    ensures InOrder(After(limit, ops)) && After(limit, ops).lane.limit == limit
    ensures After(limit, ops).lane.failed <==> Shut in ops
  {
    if ops != [] {
      assert ops == ops[..|ops| - 1] + [ops[|ops| - 1]];
      LaneIsFair(limit, ops[..|ops| - 1]);
      OpKeepsOrder(After(limit, ops[..|ops| - 1]), ops[|ops| - 1]);
    }
  }

  predicate Shuttered(l: Lane) { l.failed && l.waiters == [] }

  lemma ShutteredStays(r: Run, op: Op)
    requires Shuttered(r.lane)
    ensures Shuttered(Apply(r, op).lane)
  {
  }

  lemma {:induction false} ClosedForGood(limit: nat, ops: seq<Op>, more: seq<Op>)
    requires After(limit, ops).lane.failed
    ensures Shuttered(After(limit, ops + more).lane)
    decreases |more|
  {
    if more == [] {
      LaneIsFair(limit, ops);
      assert ops + more == ops;
    } else {
      var fewer := more[..|more| - 1];
      ClosedForGood(limit, ops, fewer);
      ShutteredStays(After(limit, ops + fewer), more[|more| - 1]);
      assert (ops + more)[..|ops + more| - 1] == ops + fewer;
    }
  }

  // ------------------------------------------------ the lane object

  /** Every waiter is told exactly once: granted, or failed. */
  class LaneObject {
    const limit: nat
    var used: int
    var waiters: seq<nat>
    var failed: bool
    var live: set<nat>

    ghost function State(): Lane reads this { Lane(limit, used, waiters, failed, live) }

    constructor (limit: nat)
      ensures State() == Open(limit)
    {
      this.limit, used, waiters, failed, live := limit, 0, [], false, {};
    }

    method AcquirePlace(id: nat, aborted: bool, timeout: Option<int>) returns (reply: Reply)
      modifies this
      ensures (State(), reply) == Acquire(old(State()), id, aborted || (timeout.Some? && timeout.value <= 0))
    {
      if failed { return Rejected; }
      if aborted { return Rejected; }
      if timeout.Some? && timeout.value <= 0 { return Rejected; }
      if used < limit && waiters == [] {
        used := used + 1;
        live := live + {id};
        return Granted;
      }
      waiters := waiters + [id];
      return Waiting;
    }

    method ReleasePlace(id: nat) returns (granted: Option<nat>)
      modifies this
      ensures (State(), granted) == Release(old(State()), id)
    {
      if id !in live { return None; }
      live := live - {id};
      if waiters != [] {
        var next := waiters[0];
        waiters := waiters[1..];
        live := live + {next};
        return Some(next);
      }
      used := used - 1;
      return None;
    }

    /** The abort and timeout handlers look the waiter up, and do nothing if it is gone. */
    method WithdrawWaiter(id: nat) returns (failure: bool)
      modifies this
      ensures State() == Withdraw(old(State()), id) && (failure <==> id in old(waiters))
    {
      var i := 0;
      while i < |waiters| && waiters[i] != id
        invariant i <= |waiters| && id !in waiters[..i]
        invariant State() == old(State())
      {
        i := i + 1;
      }
      WithoutAt(waiters, id, i);
      if i == |waiters| {
        assert waiters[..i] == waiters;
        return false;
      }
      waiters := waiters[..i] + waiters[i + 1..];
      return true;
    }

    method CloseLane() returns (failures: seq<nat>)
      modifies this
      ensures State() == Close(old(State())) && failures == old(waiters)
    {
      failed := true;
      failures := waiters;
      waiters := [];
    }
  }

  lemma {:induction false} WithoutAt(q: seq<nat>, id: nat, i: nat)
    requires i <= |q| && id !in q[..i] && (i < |q| ==> q[i] == id)
    ensures Without(q, id) == if i == |q| then q else q[..i] + q[i + 1..]
  {
    if i > 0 {
      assert q[0] in q[..i] && q[1..][..i - 1] == q[..i][1..];
      WithoutAt(q[1..], id, i - 1);
    }
  }
}
