/**
 Self-delimiting records on an octet stream, whatever the record: what reading
 a stream at once yields, and why reading it in pieces yields the same.
 */
module Framing {
  import opened Bytes
  import opened Wrappers

  datatype Next<+F, +E> = More | Bad(error: E) | Got(frame: F, size: nat)

  /** More octets do not revise a decision taken on `b`. */
  ghost predicate Final<F, E>(next: seq<byte> -> Next<F, E>, b: seq<byte>, more: seq<byte>) {
    !next(b).More? ==> next(b + more) == next(b)
  }

  /** A rule that decides a record from a prefix of the stream and never revises it. */
  ghost predicate Framer<F(!new), E(!new)>(next: seq<byte> -> Next<F, E>) {
    && (forall b :: next(b).Got? ==> 0 < next(b).size <= |b|)
    && (forall b, more :: Final(next, b, more))
  }

  datatype Parsed<+F, +E> = Parsed(frames: seq<F>, rest: seq<byte>, fault: Option<E>)

  /** A whole stream read at once, up to its first fault. */
  ghost function Parse<F(!new), E(!new)>(next: seq<byte> -> Next<F, E>, b: seq<byte>): Parsed<F, E>
    requires Framer(next)
    decreases |b|
  {
    match next(b)
    case More => Parsed([], b, None)
    case Bad(error) => Parsed([], b, Some(error))
    case Got(frame, size) =>
      var tail := Parse(next, b[size..]);
      Parsed([frame] + tail.frames, tail.rest, tail.fault)
  }

  /** Reading on from what an undecided stream left behind is reading the longer stream. */
  lemma {:induction false} ParseContinues<F(!new), E(!new)>(
      next: seq<byte> -> Next<F, E>, b: seq<byte>, more: seq<byte>)
    requires Framer(next)
    ensures var p := Parse(next, b);
            Parse(next, b + more) ==
            if p.fault.Some? then p.(rest := p.rest + more)
            else
              var q := Parse(next, p.rest + more);
              Parsed(p.frames + q.frames, q.rest, q.fault)
    decreases |b|
  {
    assert Final(next, b, more);
    match next(b)
    case More =>
    case Bad(_) =>
    case Got(frame, size) =>
      var rest := b[size..];
      ParseContinues(next, rest, more);
      assert (b + more)[size..] == rest + more;
      var p, whole := Parse(next, rest), Parse(next, rest + more);
      assert Parse(next, b + more) == Parsed([frame] + whole.frames, whole.rest, whole.fault);
      if p.fault.None? {
        var q := Parse(next, p.rest + more);
        ConcatAssociates([frame], p.frames, q.frames);
      }
  }

  /** A stream that is exactly one record. */
  lemma ParseSingle<F(!new), E(!new)>(next: seq<byte> -> Next<F, E>, b: seq<byte>)
    requires Framer(next) && next(b).Got? && next(b).size == |b| && next([]).More?
    ensures Parse(next, b) == Parsed([next(b).frame], [], None)
  {
    assert b[|b|..] == [];
  }

  /** What is left of an unbroken stream holds no complete record. */
  lemma {:induction false} RestIsUndecided<F(!new), E(!new)>(next: seq<byte> -> Next<F, E>, b: seq<byte>)
    requires Framer(next)
    ensures var p := Parse(next, b);
            match p.fault
            case None => next(p.rest) == More
            case Some(error) => next(p.rest) == Bad(error)
    decreases |b|
  {
    if next(b).Got? {
      RestIsUndecided(next, b[next(b).size..]);
    }
  }

  lemma {:induction false} RestIsShorter<F(!new), E(!new)>(next: seq<byte> -> Next<F, E>, b: seq<byte>)
    requires Framer(next)
    ensures |Parse(next, b).rest| <= |b|
    decreases |b|
  {
    if next(b).Got? {
      RestIsShorter(next, b[next(b).size..]);
    }
  }

  /** A reader that handed out `done` and still holds `seen` is on course with `arrived`. */
  ghost predicate Follows<F(!new), E(!new)>(
      next: seq<byte> -> Next<F, E>, seen: seq<byte>, arrived: seq<byte>, done: seq<F>)
  {
    && Framer(next)
    && var p := Parse(next, seen);
       Parse(next, arrived) == Parsed(done + p.frames, p.rest, p.fault)
  }

  /** A reader stopped on `error` after handing out `done`, as the whole stream does. */
  ghost predicate Stopped<F(!new), E(!new)>(
      next: seq<byte> -> Next<F, E>, error: E, arrived: seq<byte>, done: seq<F>)
  {
    && Framer(next)
    && var p := Parse(next, arrived);
       p.frames == done && p.fault == Some(error)
  }

  lemma FollowsArrival<F(!new), E(!new)>(
      next: seq<byte> -> Next<F, E>, seen: seq<byte>, arrived: seq<byte>, done: seq<F>, chunk: seq<byte>)
    requires Follows(next, seen, arrived, done)
    ensures Follows(next, seen + chunk, arrived + chunk, done)
  {
    ParseContinues(next, arrived, chunk);
    ParseContinues(next, seen, chunk);
    var p := Parse(next, seen);
    if p.fault.None? {
      var q := Parse(next, p.rest + chunk);
      ConcatAssociates(done, p.frames, q.frames);
    }
  }

  lemma StoppedArrival<F(!new), E(!new)>(
      next: seq<byte> -> Next<F, E>, error: E, arrived: seq<byte>, done: seq<F>, chunk: seq<byte>)
    requires Stopped(next, error, arrived, done)
    ensures Stopped(next, error, arrived + chunk, done)
  {
    ParseContinues(next, arrived, chunk);
  }

  lemma FollowsFrame<F(!new), E(!new)>(
      next: seq<byte> -> Next<F, E>, seen: seq<byte>, arrived: seq<byte>, done: seq<F>)
    requires Follows(next, seen, arrived, done) && next(seen).Got?
    ensures Follows(next, seen[next(seen).size..], arrived, done + [next(seen).frame])
  {
    var p := Parse(next, seen[next(seen).size..]);
    ConcatAssociates(done, [next(seen).frame], p.frames);
  }

  lemma FollowsFault<F(!new), E(!new)>(
      next: seq<byte> -> Next<F, E>, seen: seq<byte>, arrived: seq<byte>, done: seq<F>)
    requires Follows(next, seen, arrived, done) && next(seen).Bad?
    ensures Stopped(next, next(seen).error, arrived, done)
  {
  }

  lemma FollowsIdle<F(!new), E(!new)>(
      next: seq<byte> -> Next<F, E>, seen: seq<byte>, arrived: seq<byte>, done: seq<F>)
    requires Follows(next, seen, arrived, done) && next(seen).More?
    ensures Parse(next, arrived) == Parsed(done, seen, None)
  {
  }

  // ------------------------------------------------ streams of complete records

  /** The octets of a record alone decide it. */
  ghost predicate Alone<F, E>(next: seq<byte> -> Next<F, E>, b: seq<byte>) {
    next(b).Got? ==> next(b).size <= |b| && next(b[..next(b).size]) == next(b)
  }

  ghost predicate Tight<F(!new), E(!new)>(next: seq<byte> -> Next<F, E>) {
    forall b :: Alone(next, b)
  }

  ghost predicate IsRecord<F(!new), E(!new)>(next: seq<byte> -> Next<F, E>, raw: seq<byte>) {
    next(raw).Got? && next(raw).size == |raw|
  }

  ghost predicate AllRecords<F(!new), E(!new)>(next: seq<byte> -> Next<F, E>, pieces: seq<seq<byte>>) {
    forall raw <- pieces :: IsRecord(next, raw)
  }

  /** Complete records and nothing else. */
  ghost predicate IsRecords<F(!new), E(!new)>(next: seq<byte> -> Next<F, E>, b: seq<byte>) {
    exists pieces: seq<seq<byte>> :: AllRecords(next, pieces) && Flatten(pieces) == b
  }

  /** A record within `b` is found without the octets behind it. */
  lemma RecordIsFound<F(!new), E(!new)>(next: seq<byte> -> Next<F, E>, b: seq<byte>, more: seq<byte>)
    requires Framer(next) && Tight(next) && next(b + more).Got? && next(b + more).size <= |b|
    ensures next(b).Got?
  {
    var n := next(b + more).size;
    assert Alone(next, b + more);
    assert (b + more)[..n] == b[..n] && b == b[..n] + b[n..];
    assert Final(next, b[..n], b[n..]);
  }

  /** A record that `b` left undecided reaches beyond it. */
  lemma NewRecordIsLonger<F(!new), E(!new)>(next: seq<byte> -> Next<F, E>, b: seq<byte>, more: seq<byte>)
    requires Framer(next) && Tight(next) && next(b).More? && next(b + more).Got?
    ensures next(b + more).size > |b|
  {
    if next(b + more).size <= |b| { RecordIsFound(next, b, more); }
  }

  /** A record cut short is undecided. */
  lemma CutIsUndecided<F(!new), E(!new)>(next: seq<byte> -> Next<F, E>, raw: seq<byte>, k: nat)
    requires Framer(next) && IsRecord(next, raw) && k < |raw|
    ensures next(raw[..k]) == More
  {
    assert raw == raw[..k] + raw[k..];
    assert Final(next, raw[..k], raw[k..]);
  }

  /** Reading goes on behind complete records as if they had not been there. */
  lemma {:induction false} RecordsThenRest<F(!new), E(!new)>(
      next: seq<byte> -> Next<F, E>, pieces: seq<seq<byte>>, more: seq<byte>)
    requires Framer(next) && AllRecords(next, pieces)
    ensures var p, q := Parse(next, Flatten(pieces) + more), Parse(next, more);
            |p.frames| == |pieces| + |q.frames| && p.rest == q.rest && p.fault == q.fault
    decreases |pieces|
  {
    if pieces == [] {
      NilConcat(more);
    } else {
      var raw, rest := pieces[0], Flatten(pieces[1..]) + more;
      assert raw in pieces;
      ConcatAssociates(raw, Flatten(pieces[1..]), more);
      assert Final(next, raw, rest);
      CutConcat(raw, rest);
      RecordsThenRest(next, pieces[1..], more);
    }
  }

  lemma RecordsGrow<F(!new), E(!new)>(next: seq<byte> -> Next<F, E>, raw: seq<byte>, pieces: seq<seq<byte>>)
    requires IsRecord(next, raw) && AllRecords(next, pieces)
    ensures AllRecords(next, [raw] + pieces) && Flatten([raw] + pieces) == raw + Flatten(pieces)
  {
    assert ([raw] + pieces)[1..] == pieces;
  }

  /** Where nothing is left over, the stream was complete records. */
  lemma {:induction false} PiecesOf<F(!new), E(!new)>(next: seq<byte> -> Next<F, E>, b: seq<byte>)
    returns (pieces: seq<seq<byte>>)
    requires Framer(next) && Tight(next) && Parse(next, b).rest == []
    ensures AllRecords(next, pieces) && Flatten(pieces) == b
    decreases |b|
  {
    if next(b).Got? {
      assert Alone(next, b);
      var n := next(b).size;
      var rest := PiecesOf(next, b[n..]);
      RecordsGrow(next, b[..n], rest);
      pieces := [b[..n]] + rest;
      assert b == b[..n] + b[n..];
    } else {
      pieces := [];
    }
  }

  /** Nothing is left over exactly when the stream is complete records, and then nothing is wrong. */
  lemma EndsCleanIff<F(!new), E(!new)>(next: seq<byte> -> Next<F, E>, b: seq<byte>)
    requires Framer(next) && Tight(next) && next([]).More?
    ensures Parse(next, b).rest == [] <==> IsRecords(next, b)
    ensures IsRecords(next, b) ==> Parse(next, b).fault.None?
  {
    if IsRecords(next, b) {
      var pieces: seq<seq<byte>> :| AllRecords(next, pieces) && Flatten(pieces) == b;
      NilConcat(b);
      RecordsThenRest(next, pieces, []);
    }
    if Parse(next, b).rest == [] {
      var _ := PiecesOf(next, b);
    }
  }

  /** What is left of a stream cut inside a record is that part of the record. */
  lemma CutLeavesPart<F(!new), E(!new)>(next: seq<byte> -> Next<F, E>, done: seq<byte>, raw: seq<byte>, k: nat)
    requires Framer(next) && IsRecords(next, done) && IsRecord(next, raw) && k < |raw|
    ensures var p := Parse(next, done + raw[..k]); p.rest == raw[..k] && p.fault.None?
  {
    var pieces: seq<seq<byte>> :| AllRecords(next, pieces) && Flatten(pieces) == done;
    CutIsUndecided(next, raw, k);
    RecordsThenRest(next, pieces, raw[..k]);
  }
}
