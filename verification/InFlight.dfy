/**
 The book of in-flight requests of a client: who waits under which correlation,
 and the single-winner settling of each wait whichever of reply, error, timeout,
 route close, connection loss or replacement comes first.
 */
module InFlight {
  import opened Bytes
  import opened Wrappers

  const MAX_CORR := 0xFFFF_FFFF_FFFF_FFFF

  datatype Key = Key(channel: nat, epoch: nat, corr: nat)

  /** One registered wait; `id` is its identity and `generation` the connection it was written on. */
  datatype Request = Request(id: nat, key: Key, generation: nat)

  /** `pending` keeps insertion order, as the client's map does. `all` and `settled` are its past. */
  datatype Book = Book(
    pending: seq<Request>, nextCorr: nat, closed: bool, generation: nat, all: seq<Request>, settled: seq<nat>)

  const FRESH := Book([], 1, false, 1, [], [])

  function Find(pending: seq<Request>, key: Key): Option<Request> {
    if pending == [] then None
    else if pending[0].key == key then Some(pending[0])
    else Find(pending[1..], key)
  }

  function Remove(pending: seq<Request>, key: Key): seq<Request> {
    if pending == [] then []
    else if pending[0].key == key then pending[1..]
    else [pending[0]] + Remove(pending[1..], key)
  }

  /** Map assignment: replaces an entry in place, or appends. */
  function Put(pending: seq<Request>, r: Request): seq<Request> {
    if pending == [] then [r]
    else if pending[0].key == r.key then [r] + pending[1..]
    else [pending[0]] + Put(pending[1..], r)
  }

  /** The identity guard: only the wait that the map still holds is settled. */
  function Settle(b: Book, r: Request): Book {
    if Find(b.pending, r.key) != Some(r) then b
    else b.(pending := Remove(b.pending, r.key), settled := b.settled + [r.id])
  }

  function SettleEach(b: Book, some: seq<Request>): Book
    decreases |some|
  {
    if some == [] then b else SettleEach(Settle(b, some[0]), some[1..])
  }

  function OnRoute(pending: seq<Request>, channel: nat, epoch: nat): seq<Request> {
    if pending == [] then []
    else
      (if pending[0].key.channel == channel && pending[0].key.epoch == epoch then [pending[0]] else []) +
      OnRoute(pending[1..], channel, epoch)
  }

  datatype Event =
    | Send(channel: nat, epoch: nat)
    | Terminal(key: Key)
    | Guarded(request: Request)
    | WriteFailed(request: Request)
    | RouteClosed(channel: nat, epoch: nat)
    | Lost
    | Replaced

  function Fail(b: Book): Book { SettleEach(b.(closed := true), b.pending) }

  function Register(b: Book, channel: nat, epoch: nat): Book {
    var r := Request(|b.all|, Key(channel, epoch, b.nextCorr), b.generation);
    b.(pending := Put(b.pending, r), nextCorr := b.nextCorr + 1, all := b.all + [r])
  }

  function Step(b: Book, e: Event): Book {
    match e
    case Send(channel, epoch) =>
      if b.closed then b else if b.nextCorr > MAX_CORR then Fail(b) else Register(b, channel, epoch)
    case Terminal(key) => if Find(b.pending, key).Some? then Settle(b, Find(b.pending, key).value) else b
    case Guarded(r) => Settle(b, r)
    case WriteFailed(r) => if Find(b.pending, r.key).Some? then Settle(b, Find(b.pending, r.key).value) else b
    case RouteClosed(channel, epoch) => SettleEach(b, OnRoute(b.pending, channel, epoch))
    case Lost => Fail(b)
    case Replaced => Fail(b).(closed := false, generation := b.generation + 1, nextCorr := 1)
  }

  function After(events: seq<Event>): Book {
    if events == [] then FRESH else Step(After(events[..|events| - 1]), events[|events| - 1])
  }

  // ------------------------------------------------ the book stays sound

  predicate DistinctKeys(pending: seq<Request>) {
    forall i, j | 0 <= i < j < |pending| :: pending[i].key != pending[j].key
  }

  predicate Known(b: Book, r: Request) { r.id < |b.all| && b.all[r.id] == r }

  predicate PendingOk(b: Book, r: Request) {
    && Known(b, r) && r.generation == b.generation && r.key.corr < b.nextCorr && r.id !in b.settled
  }

  predicate SettledOnce(b: Book) {
    && (forall i, j | 0 <= i < j < |b.settled| :: b.settled[i] != b.settled[j])
    && (forall x <- b.settled :: x < |b.all|)
  }

  /** Within a connection, correlations rise; on later connections they may repeat. */
  predicate CorrsRise(b: Book) {
    && (forall i | 0 <= i < |b.all| :: b.all[i].id == i && b.all[i].generation <= b.generation)
    && (forall i | 0 <= i < |b.all| && b.all[i].generation == b.generation :: b.all[i].key.corr < b.nextCorr)
    && (forall i, j | 0 <= i < j < |b.all| && b.all[i].generation == b.all[j].generation ::
          b.all[i].key.corr < b.all[j].key.corr)
  }

  predicate Sound(b: Book) {
    DistinctKeys(b.pending) && (forall r <- b.pending :: PendingOk(b, r)) && SettledOnce(b) && CorrsRise(b)
  }

  predicate Inv(b: Book) { Sound(b) && (b.closed ==> b.pending == []) }

  lemma {:induction false} FindLemma(pending: seq<Request>, key: Key)
    ensures Find(pending, key).Some? ==> Find(pending, key).value in pending && Find(pending, key).value.key == key
    ensures Find(pending, key).None? ==> forall r <- pending :: r.key != key
  {
    if pending != [] { FindLemma(pending[1..], key); }
  }

  lemma {:induction false} RemoveLemma(pending: seq<Request>, key: Key)
    requires DistinctKeys(pending)
    ensures DistinctKeys(Remove(pending, key))
    ensures forall r :: r in Remove(pending, key) <==> r in pending && r.key != key
  {
    if pending != [] {
      assert DistinctKeys(pending[1..]) && forall r <- pending[1..] :: r in pending && r.key != pending[0].key;
      RemoveLemma(pending[1..], key);
      if pending[0].key != key { ConsDistinct(pending[0], Remove(pending[1..], key)); }
    }
  }

  lemma ConsDistinct(r: Request, rest: seq<Request>)
    requires DistinctKeys(rest) && forall x <- rest :: x.key != r.key
    ensures DistinctKeys([r] + rest)
  {
    assert forall i | 0 <= i < |rest| :: rest[i] in rest;
  }

  lemma {:induction false} PutFresh(pending: seq<Request>, r: Request)
    requires forall x <- pending :: x.key != r.key
    ensures Put(pending, r) == pending + [r]
  {
    if pending != [] {
      assert pending[0] in pending && forall x <- pending[1..] :: x in pending;
      PutFresh(pending[1..], r);
      assert pending == [pending[0]] + pending[1..];
    }
  }

  lemma SettleKeeps(b: Book, r: Request)
    requires Sound(b)
    ensures Sound(Settle(b, r)) && Settle(b, r).closed == b.closed && Settle(b, r).all == b.all
    ensures Settle(b, r).generation == b.generation && Settle(b, r).nextCorr == b.nextCorr
    ensures forall x :: x in Settle(b, r).pending <==> x in b.pending && x != r
  {
    FindLemma(b.pending, r.key);
    if Find(b.pending, r.key) == Some(r) {
      RemoveLemma(b.pending, r.key);
      OnlyOneWithKey(b.pending, r);
      DistinctIds(b, r);
    }
  }

  lemma OnlyOneWithKey(pending: seq<Request>, r: Request)
    requires DistinctKeys(pending) && r in pending
    ensures forall x <- pending :: x.key == r.key <==> x == r
  {
  }

  lemma DistinctIds(b: Book, r: Request)
    requires Sound(b) && r in b.pending
    ensures forall x <- b.pending :: x.id == r.id <==> x == r
  {
    forall x | x in b.pending && x.id == r.id ensures x == r { assert Known(b, x) && Known(b, r); }
  }

  lemma {:induction false} SettleEachKeeps(b: Book, some: seq<Request>)
    requires Sound(b)
    ensures var after := SettleEach(b, some);
            && Sound(after) && after.closed == b.closed && after.all == b.all
            && after.generation == b.generation && after.nextCorr == b.nextCorr
            && forall x :: x in after.pending <==> x in b.pending && x !in some
    decreases |some|
  {
    if some != [] {
      SettleKeeps(b, some[0]);
      SettleEachKeeps(Settle(b, some[0]), some[1..]);
      assert forall x :: x in some <==> x == some[0] || x in some[1..];
    }
  }

  lemma FailKeeps(b: Book)
    requires Sound(b)
    ensures Sound(Fail(b)) && Fail(b).pending == [] && Fail(b).closed && Fail(b).all == b.all
    ensures Fail(b).generation == b.generation && Fail(b).nextCorr == b.nextCorr
  {
    SettleEachKeeps(b.(closed := true), b.pending);
    EmptyIfNone(Fail(b).pending);
  }

  lemma EmptyIfNone(q: seq<Request>)
    ensures (forall x :: x !in q) ==> q == []
  {
    if q != [] { assert q[0] in q; }
  }

  lemma FreshKey(b: Book, channel: nat, epoch: nat)
    requires Inv(b)
    ensures Find(b.pending, Key(channel, epoch, b.nextCorr)).None?
    ensures forall x <- b.pending :: x.key != Key(channel, epoch, b.nextCorr)
  {
    FindLemma(b.pending, Key(channel, epoch, b.nextCorr));
    forall x | x in b.pending ensures x.key != Key(channel, epoch, b.nextCorr) { assert PendingOk(b, x); }
  }

  lemma RegisterPast(b: Book, r: Request)
    requires CorrsRise(b) && SettledOnce(b)
    requires r.id == |b.all| && r.generation == b.generation && r.key.corr == b.nextCorr
    ensures CorrsRise(b.(nextCorr := b.nextCorr + 1, all := b.all + [r]))
    ensures SettledOnce(b.(all := b.all + [r]))
  {
  }

  lemma RegisterPending(b: Book, pending: seq<Request>, r: Request)
    requires Sound(b) && pending == b.pending + [r]
    requires r.id == |b.all| && r.generation == b.generation && r.key.corr == b.nextCorr
    ensures forall x <- pending ::
              PendingOk(b.(pending := pending, nextCorr := b.nextCorr + 1, all := b.all + [r]), x)
  {
    forall x | x in b.pending
      ensures PendingOk(b.(pending := pending, nextCorr := b.nextCorr + 1, all := b.all + [r]), x)
    {
      assert PendingOk(b, x);
    }
  }

  lemma RegisterKeeps(b: Book, channel: nat, epoch: nat)
    requires Inv(b) && !b.closed
    ensures var r := Request(|b.all|, Key(channel, epoch, b.nextCorr), b.generation);
            && Find(b.pending, r.key).None? && Register(b, channel, epoch).pending == b.pending + [r]
            && Inv(Register(b, channel, epoch))
  {
    var r := Request(|b.all|, Key(channel, epoch, b.nextCorr), b.generation);
    FreshKey(b, channel, epoch);
    PutFresh(b.pending, r);
    SnocDistinct(b.pending, r);
    RegisterPast(b, r);
    RegisterPending(b, b.pending + [r], r);
  }

  lemma SnocDistinct(q: seq<Request>, r: Request)
    requires DistinctKeys(q) && forall x <- q :: x.key != r.key
    ensures DistinctKeys(q + [r])
  {
    assert forall i | 0 <= i < |q| :: q[i] in q;
  }

  lemma ReplacedKeeps(b: Book)
    requires Inv(b)
    ensures Inv(Step(b, Replaced))
  {
    FailKeeps(b);
  }

  lemma StepKeeps(b: Book, e: Event)
    requires Inv(b)
    ensures Inv(Step(b, e))
  {
    match e
    case Send(channel, epoch) =>
      if !b.closed { if b.nextCorr > MAX_CORR { FailKeeps(b); } else { RegisterKeeps(b, channel, epoch); } }
    case Terminal(key) =>
      if Find(b.pending, key).Some? { SettleKeeps(b, Find(b.pending, key).value); EmptyIfNone(Step(b, e).pending); }
    case Guarded(r) => SettleKeeps(b, r); EmptyIfNone(Step(b, e).pending);
    case WriteFailed(r) =>
      if Find(b.pending, r.key).Some? { SettleKeeps(b, Find(b.pending, r.key).value); EmptyIfNone(Step(b, e).pending); }
    case RouteClosed(channel, epoch) =>
      SettleEachKeeps(b, OnRoute(b.pending, channel, epoch)); EmptyIfNone(Step(b, e).pending);
    case Lost => FailKeeps(b);
    case Replaced => ReplacedKeeps(b);
  }

  lemma {:induction false} AlwaysInv(events: seq<Event>)
    ensures Inv(After(events))
  {
    if events != [] {
      AlwaysInv(events[..|events| - 1]);
      StepKeeps(After(events[..|events| - 1]), events[|events| - 1]);
    }
  }

  // ------------------------------------------------ theorems over every run

  /** No wait is settled twice, and none that is settled is still held. */
  lemma SettledAtMostOnce(events: seq<Event>)
    ensures var b := After(events);
            && (forall i, j | 0 <= i < j < |b.settled| :: b.settled[i] != b.settled[j])
            && (forall r <- b.pending :: r.id !in b.settled)
  {
    AlwaysInv(events);
  }

  /** Although correlations restart at 1, a new registration never replaces a live one. */
  lemma NewKeysAreFree(events: seq<Event>, channel: nat, epoch: nat)
    ensures var b := After(events);
            var after := Step(b, Send(channel, epoch));
            !b.closed && b.nextCorr <= MAX_CORR ==> |after.pending| == |b.pending| + 1 && b.pending <= after.pending
  {
    AlwaysInv(events);
    var b := After(events);
    if !b.closed && b.nextCorr <= MAX_CORR { RegisterKeeps(b, channel, epoch); }
  }

  /** Guarded events can settle no wait but their own. */
  lemma GuardedHitsItself(events: seq<Event>, r: Request, x: Request)
    requires x in After(events).pending && x != r
    ensures x in Step(After(events), Guarded(r)).pending
  {
    AlwaysInv(events);
    SettleKeeps(After(events), r);
  }

  /** Exactly the wait `x` is settled, and everybody else stays. */
  ghost predicate SettlesOnly(b: Book, after: Book, x: Request) {
    && after.settled == b.settled + [x.id] && (forall y :: y in after.pending <==> y in b.pending && y != x)
    && after == b.(pending := after.pending, settled := after.settled)
  }

  lemma HolderIsSettled(b: Book, x: Request)
    requires Sound(b) && x in b.pending
    ensures SettlesOnly(b, Settle(b, x), x) && Find(b.pending, x.key) == Some(x)
  {
    HeldIsFound(b.pending, x);
    SettleKeeps(b, x);
  }

  /** A reply, a timeout or a failed write settles the wait that stands under its key, and no other. */
  lemma ReplySettlesItsWait(events: seq<Event>, x: Request, r: Request)
    requires x in After(events).pending && r.key == x.key
    ensures var b := After(events);
            && SettlesOnly(b, Step(b, Terminal(x.key)), x) && SettlesOnly(b, Step(b, Guarded(x)), x)
            && SettlesOnly(b, Step(b, WriteFailed(r)), x)
  {
    AlwaysInv(events);
    HolderIsSettled(After(events), x);
  }

  /** Under a key nobody holds nothing is settled. */
  lemma StrayChangesNothing(events: seq<Event>, r: Request)
    ensures var b := After(events);
            && ((forall x <- b.pending :: x.key != r.key) ==>
                  Step(b, Terminal(r.key)) == Step(b, WriteFailed(r)) == b)
            && (r !in b.pending ==> Step(b, Guarded(r)) == b)
  {
    FindLemma(After(events).pending, r.key);
  }

  /** Every request ever registered is still held or was settled. */
  predicate Accounted(b: Book) { forall i | 0 <= i < |b.all| :: b.all[i] in b.pending || i in b.settled }

  lemma SettleAccounts(b: Book, r: Request)
    requires Sound(b) && Accounted(b)
    ensures Accounted(Settle(b, r))
  {
    SettleKeeps(b, r);
    var after := Settle(b, r);
    forall i | 0 <= i < |b.all| ensures after.all[i] in after.pending || i in after.settled {
      if b.all[i] == r && r in b.pending {
        HolderIsSettled(b, r);
        assert after.settled[|b.settled|] == i;
      }
    }
  }

  lemma {:induction false} EachAccounts(b: Book, some: seq<Request>)
    requires Sound(b) && Accounted(b)
    ensures Accounted(SettleEach(b, some))
    decreases |some|
  {
    if some != [] {
      SettleKeeps(b, some[0]);
      SettleAccounts(b, some[0]);
      EachAccounts(Settle(b, some[0]), some[1..]);
    }
  }

  lemma StepAccounts(b: Book, e: Event)
    requires Inv(b) && Accounted(b)
    ensures Accounted(Step(b, e))
  {
    match e
    case Send(channel, epoch) =>
      if !b.closed {
        if b.nextCorr > MAX_CORR {
          EachAccounts(b.(closed := true), b.pending);
        } else {
          RegisterKeeps(b, channel, epoch);
        }
      }
    case Terminal(key) => if Find(b.pending, key).Some? { SettleAccounts(b, Find(b.pending, key).value); }
    case Guarded(r) => SettleAccounts(b, r);
    case WriteFailed(r) => if Find(b.pending, r.key).Some? { SettleAccounts(b, Find(b.pending, r.key).value); }
    case RouteClosed(channel, epoch) => EachAccounts(b, OnRoute(b.pending, channel, epoch));
    case Lost => EachAccounts(b.(closed := true), b.pending);
    case Replaced => EachAccounts(b.(closed := true), b.pending);
  }

  /** Nobody is lost: at any time each request ever registered is either still held or has been settled. */
  lemma {:induction false} HeldOrSettled(events: seq<Event>, i: nat)
    requires i < |After(events).all|
    ensures var b := After(events); b.all[i] in b.pending <==> i !in b.settled
  {
    AlwaysInv(events);
    AlwaysAccounted(events);
  }

  lemma {:induction false} AlwaysAccounted(events: seq<Event>)
    ensures Accounted(After(events))
  {
    if events != [] {
      AlwaysInv(events[..|events| - 1]);
      AlwaysAccounted(events[..|events| - 1]);
      StepAccounts(After(events[..|events| - 1]), events[|events| - 1]);
    }
  }

  predicate IsOn(r: Request, channel: nat, epoch: nat) { r.key.channel == channel && r.key.epoch == epoch }

  function Ids(some: seq<Request>): seq<nat> { seq(|some|, i requires 0 <= i < |some| => some[i].id) }

  /**
   Losing or replacing the connection settles everybody, in the order they were
   registered. Closing a route settles in that order everybody on it, and leaves
   everybody else.
   */
  lemma NobodyIsForgotten(events: seq<Event>, channel: nat, epoch: nat)
    ensures var b, lost, replaced := After(events), Step(After(events), Lost), Step(After(events), Replaced);
            && lost.pending == replaced.pending == []
            && lost.settled == replaced.settled == b.settled + Ids(b.pending)
    ensures var b, after := After(events), Step(After(events), RouteClosed(channel, epoch));
            && (forall x :: x in after.pending <==> x in b.pending && !IsOn(x, channel, epoch))
            && (forall x :: x in OnRoute(b.pending, channel, epoch) <==> x in b.pending && IsOn(x, channel, epoch))
            && after.settled == b.settled + Ids(OnRoute(b.pending, channel, epoch))
  {
    AlwaysInv(events);
    var b := After(events);
    FailKeeps(b);
    SettlesInOrder(b.(closed := true), b.pending);
    RouteEnds(b, channel, epoch);
  }

  lemma RouteEnds(b: Book, channel: nat, epoch: nat)
    requires Sound(b)
    ensures var some := OnRoute(b.pending, channel, epoch);
            var after := SettleEach(b, some);
            && (forall x :: x in some <==> x in b.pending && IsOn(x, channel, epoch))
            && (forall x :: x in after.pending <==> x in b.pending && !IsOn(x, channel, epoch))
            && after.settled == b.settled + Ids(some)
  {
    var some := OnRoute(b.pending, channel, epoch);
    OnRouteHolds(b.pending, channel, epoch);
    SettleEachKeeps(b, some);
    SettlesInOrder(b, some);
  }

  lemma {:induction false} OnRouteHolds(pending: seq<Request>, channel: nat, epoch: nat)
    requires DistinctKeys(pending)
    ensures forall x :: x in OnRoute(pending, channel, epoch) <==> x in pending && IsOn(x, channel, epoch)
    ensures DistinctKeys(OnRoute(pending, channel, epoch))
  {
    if pending != [] {
      var first, rest := pending[0], OnRoute(pending[1..], channel, epoch);
      OnRouteHolds(pending[1..], channel, epoch);
      assert forall x :: x in pending <==> x == first || x in pending[1..];
      assert forall x <- pending[1..] :: x.key != first.key;
      if IsOn(first, channel, epoch) {
        ConsDistinct(first, rest);
      } else {
        assert [] + rest == rest;
      }
    }
  }

  predicate AllHeld(b: Book, some: seq<Request>) {
    DistinctKeys(b.pending) && DistinctKeys(some) && forall r <- some :: r in b.pending
  }

  lemma SettlesFirst(b: Book, some: seq<Request>)
    requires some != [] && AllHeld(b, some)
    ensures Settle(b, some[0]).settled == b.settled + [some[0].id] && AllHeld(Settle(b, some[0]), some[1..])
  {
    var r := some[0];
    assert r in some && forall x <- some[1..] :: x in some && x.key != r.key;
    HeldIsFound(b.pending, r);
    RemoveLemma(b.pending, r.key);
  }

  lemma IdsCons(r: Request, rest: seq<Request>)
    ensures Ids([r] + rest) == [r.id] + Ids(rest)
  {
  }

  /** Held waits are all settled, each in its turn. */
  lemma {:induction false} SettlesInOrder(b: Book, some: seq<Request>)
    requires AllHeld(b, some)
    ensures SettleEach(b, some).settled == b.settled + Ids(some)
    decreases |some|
  {
    if some == [] {
      NilConcat(b.settled);
    } else {
      SettlesFirst(b, some);
      SettlesInOrder(Settle(b, some[0]), some[1..]);
      IdsCons(some[0], some[1..]);
      assert some == [some[0]] + some[1..];
      ConcatAssociates(b.settled, [some[0].id], Ids(some[1..]));
    }
  }

  lemma HeldIsFound(pending: seq<Request>, r: Request)
    requires DistinctKeys(pending) && r in pending
    ensures Find(pending, r.key) == Some(r)
  {
    FindLemma(pending, r.key);
    OnlyOneWithKey(pending, r);
  }

  /**
   The failure of a write is looked up by key alone. It hits a wait other than its
   own exactly when that key is held again by a request of a later connection; a
   failure on the current connection hits its own wait or none.
   */
  lemma WriteFailureHits(events: seq<Event>, r: Request)
    requires Known(After(events), r)
    ensures var b := After(events);
            var hit := Find(b.pending, r.key);
            hit.Some? && hit.value != r <==> hit.Some? && r.generation < b.generation
  {
    AlwaysInv(events);
    var b := After(events);
    FindLemma(b.pending, r.key);
    if Find(b.pending, r.key).Some? {
      var hit := Find(b.pending, r.key).value;
      assert PendingOk(b, hit) && Known(b, hit);
      assert b.all[r.id] == r && b.all[hit.id] == hit;
    }
  }

  /** Such a stale failure does reject a newer request: send, reconnect, send again on the same route. */
  lemma StaleWriteFailureHitsAnother()
    ensures var b := After([Send(1, 1), Replaced, Send(1, 1)]);
            && Known(b, Request(0, Key(1, 1, 1), 1)) && b.pending == [Request(1, Key(1, 1, 1), 2)]
            && Step(b, WriteFailed(Request(0, Key(1, 1, 1), 1))).pending == []
  {
    var first, second := Request(0, Key(1, 1, 1), 1), Request(1, Key(1, 1, 1), 2);
    var b1 := Step(FRESH, Send(1, 1));
    assert b1 == Book([first], 2, false, 1, [first], []);
    assert [first][1..] == [];
    var failed := b1.(closed := true);
    assert Settle(failed, first) == Book([], 2, true, 1, [first], [0]);
    assert SettleEach(failed, [first]) == Book([], 2, true, 1, [first], [0]);
    var b2 := Step(b1, Replaced);
    assert b2 == Book([], 1, false, 2, [first], [0]);
    var b3 := Step(b2, Send(1, 1));
    assert b3 == Book([second], 2, false, 2, [first, second], [0]);
    ThreeEvents(Send(1, 1), Replaced, Send(1, 1));
    assert [second][1..] == [];
  }

  lemma ThreeEvents(x: Event, y: Event, z: Event)
    ensures After([x, y, z]) == Step(Step(Step(FRESH, x), y), z)
  {
    assert [x, y, z][..2] == [x, y] && [x, y][..1] == [x] && [x][..0] == [];
    assert After([x]) == Step(FRESH, x) && After([x, y]) == Step(After([x]), y);
  }

  // ------------------------------------------------ the client object

  lemma {:induction false} SettleEachConcat(b: Book, a: seq<Request>, c: seq<Request>)
    ensures SettleEach(b, a + c) == SettleEach(SettleEach(b, a), c)
    decreases |a|
  {
    if a == [] {
      assert a + c == c;
    } else {
      assert (a + c)[0] == a[0] && (a + c)[1..] == a[1..] + c;
      SettleEachConcat(Settle(b, a[0]), a[1..], c);
    }
  }

  lemma {:induction false} OnRouteSnoc(q: seq<Request>, r: Request, channel: nat, epoch: nat)
    ensures OnRoute(q + [r], channel, epoch) ==
            OnRoute(q, channel, epoch) + (if r.key.channel == channel && r.key.epoch == epoch then [r] else [])
  {
    if q == [] {
      assert q + [r] == [r] && [r][1..] == [];
    } else {
      SnocCons(q, r);
      OnRouteSnoc(q[1..], r, channel, epoch);
      ConcatAssociates(if q[0].key.channel == channel && q[0].key.epoch == epoch then [q[0]] else [],
                       OnRoute(q[1..], channel, epoch),
                       if r.key.channel == channel && r.key.epoch == epoch then [r] else []);
    }
  }

  lemma SnocCons(q: seq<Request>, r: Request)
    requires q != []
    ensures (q + [r])[0] == q[0] && (q + [r])[1..] == q[1..] + [r]
  {
  }

  lemma DispatchSettles(b: Book, key: Key)
    requires Sound(b)
    ensures forall x <- b.pending :: x.key == key ==> SettlesOnly(b, Step(b, Terminal(key)), x)
    ensures (forall x <- b.pending :: x.key != key) ==> Step(b, Terminal(key)) == b
  {
    FindLemma(b.pending, key);
    forall x | x in b.pending && x.key == key ensures SettlesOnly(b, Step(b, Terminal(key)), x) {
      HolderIsSettled(b, x);
    }
  }

  class Client {
    var pending: seq<Request>
    var nextCorr: nat
    var closed: bool
    var generation: nat
    var made: nat
    ghost var all: seq<Request>
    ghost var settled: seq<nat>

    ghost predicate Valid() reads this { made == |all| }

    ghost function State(): Book reads this { Book(pending, nextCorr, closed, generation, all, settled) }

    constructor ()
      ensures Valid() && State() == FRESH
    {
      pending, nextCorr, closed, generation, made := [], 1, false, 1, 0;
      all, settled := [], [];
    }

    /** Returns whether this call was the settler. */
    method SettleWait(r: Request) returns (won: bool)
      requires Valid()
      modifies this
      ensures Valid() && State() == Settle(old(State()), r) && made == old(made)
      ensures won <==> |settled| == |old(settled)| + 1
    {
      if Find(pending, r.key) != Some(r) { return false; }
      pending := Remove(pending, r.key);
      settled := settled + [r.id];
      return true;
    }

    method Dispatch(key: Key)
      requires Valid()
      modifies this
      ensures Valid() && State() == Step(old(State()), Terminal(key))
      ensures Sound(old(State())) ==>
                && (forall x <- old(pending) :: x.key == key ==> SettlesOnly(old(State()), State(), x))
                && ((forall x <- old(pending) :: x.key != key) ==> State() == old(State()))
    {
      if Sound(State()) { DispatchSettles(State(), key); }
      var held := Find(pending, key);
      if held.Some? { var _ := SettleWait(held.value); }
    }

    /** Waits of a closed route are settled in the order they were registered. */
    method FailHandle(channel: nat, epoch: nat)
      requires Valid()
      modifies this
      ensures Valid() && State() == Step(old(State()), RouteClosed(channel, epoch))
    {
      var snapshot := pending;
      for i := 0 to |snapshot|
        invariant Valid() && State() == SettleEach(old(State()), OnRoute(snapshot[..i], channel, epoch))
      {
        var r := snapshot[i];
        assert snapshot[..i + 1] == snapshot[..i] + [r];
        OnRouteSnoc(snapshot[..i], r, channel, epoch);
        if r.key.channel == channel && r.key.epoch == epoch {
          SettleEachConcat(old(State()), OnRoute(snapshot[..i], channel, epoch), [r]);
          var _ := SettleWait(r);
        } else {
          assert OnRoute(snapshot[..i], channel, epoch) + [] == OnRoute(snapshot[..i], channel, epoch);
        }
      }
      assert snapshot[..|snapshot|] == snapshot;
    }

    method FailAll()
      requires Valid()
      modifies this
      ensures Valid() && State() == Fail(old(State()))
    {
      closed := true;
      var snapshot := pending;
      for i := 0 to |snapshot|
        invariant Valid() && State() == SettleEach(old(State()).(closed := true), snapshot[..i])
      {
        assert snapshot[..i + 1] == snapshot[..i] + [snapshot[i]];
        SettleEachConcat(old(State()).(closed := true), snapshot[..i], [snapshot[i]]);
        var _ := SettleWait(snapshot[i]);
      }
      assert snapshot[..|snapshot|] == snapshot;
    }

    /** Settles the old waits first, then lets correlation numbers start over. */
    method ReplaceConnection()
      requires Valid()
      modifies this
      ensures Valid() && State() == Step(old(State()), Replaced)
    {
      FailKeepsGeneration(State());
      FailAll();
      closed := false;
      generation := generation + 1;
      nextCorr := 1;
    }

    method Send(channel: nat, epoch: nat) returns (sent: Option<Request>)
      requires Valid()
      modifies this
      ensures Valid() && State() == Step(old(State()), Event.Send(channel, epoch))
      ensures sent.Some? <==> !old(closed) && old(nextCorr) <= MAX_CORR
      ensures sent.Some? ==>
                && sent.value == Request(|old(all)|, Key(channel, epoch, old(nextCorr)), old(generation))
                && Known(State(), sent.value)
    {
      if closed { return None; }
      if nextCorr > MAX_CORR {
        FailAll();
        return None;
      }
      var r := Request(made, Key(channel, epoch, nextCorr), generation);
      nextCorr, made := nextCorr + 1, made + 1;
      pending, all := Put(pending, r), all + [r];
      return Some(r);
    }
  }

  lemma {:induction false} FailKeepsGeneration(b: Book)
    ensures Fail(b).generation == b.generation
  {
    SettleEachGeneration(b.(closed := true), b.pending);
  }

  lemma {:induction false} SettleEachGeneration(b: Book, some: seq<Request>)
    ensures SettleEach(b, some).generation == b.generation
    decreases |some|
  {
    if some != [] { SettleEachGeneration(Settle(b, some[0]), some[1..]); }
  }
}
