/**
 The append-only record streams of the release state, as octets: one line per
 record, decoding, and the recovery of a torn tail. Recovery is two steps, a read
 and a truncation, and it runs without the lease that appending runs under.
 */
module DurableStream {
  import opened Bytes
  import opened Wrappers

  type octets = seq<byte>

  const NEWLINE: byte := 10

  /** What a complete line turns out to be; a bad framing and a bad checksum are both `Broken`. */
  datatype Line<+R> = Good(record: R) | Broken | Unsupported

  datatype Codec<!R> = Codec(encode: R -> octets, decode: octets -> Line<R>)

  /** Encoded records are not empty, hold no line break, and decode to themselves. */
  ghost predicate Laws<R(!new)>(codec: Codec<R>) {
    forall r :: codec.encode(r) != [] && NEWLINE !in codec.encode(r) && codec.decode(codec.encode(r)) == Good(r)
  }

  function LineOf<R>(codec: Codec<R>, r: R): octets { codec.encode(r) + [NEWLINE] }

  function Stream<R>(codec: Codec<R>, records: seq<R>): octets {
    if records == [] then [] else LineOf(codec, records[0]) + Stream(codec, records[1..])
  }

  // ------------------------------------------------ decoding

  datatype Decoded<+R> =
    | Records(records: seq<R>)
    | Torn(offset: nat)
    | Corrupt(offset: nat)
    | WrongVersion(offset: nat)

  function IndexOf(b: octets, u: byte): Option<nat> {
    if b == [] then None
    else if b[0] == u then Some(0)
    else match IndexOf(b[1..], u) case None => None case Some(i) => Some(i + 1)
  }

  lemma {:induction false} IndexIs(b: octets, u: byte)
    ensures IndexOf(b, u).None? <==> u !in b
    ensures IndexOf(b, u).Some? ==>
              IndexOf(b, u).value < |b| && b[IndexOf(b, u).value] == u && u !in b[..IndexOf(b, u).value]
  {
    if b != [] {
      IndexIs(b[1..], u);
      if b[0] != u && IndexOf(b[1..], u).Some? {
        var i := IndexOf(b[1..], u).value;
        assert b[..i + 1] == [b[0]] + b[1..][..i];
      }
    }
  }

  lemma {:induction false} IndexAfter(a: octets, u: byte, b: octets)
    requires u !in a
    ensures IndexOf(a + [u] + b, u) == Some(|a|)
  {
    if a == [] {
      assert a + [u] + b == [u] + b;
    } else {
      assert a[0] in a && forall x <- a[1..] :: x in a;
      assert (a + [u] + b)[1..] == a[1..] + [u] + b;
      IndexAfter(a[1..], u, b);
    }
  }

  /** A verdict on what follows `n` octets that hold `records`. */
  function Behind<R>(records: seq<R>, n: nat, later: Decoded<R>): Decoded<R> {
    match later
    case Records(more) => Records(records + more)
    case Torn(offset) => Torn(n + offset)
    case Corrupt(offset) => Corrupt(n + offset)
    case WrongVersion(offset) => WrongVersion(n + offset)
  }

  /** The verdict on the first line; `last`: nothing follows it. */
  function FirstLine<R>(codec: Codec<R>, line: octets, last: bool): Decoded<R> {
    var verdict := codec.decode(line);
    if line == [] || verdict.Broken? then (if last then Torn(0) else Corrupt(0))
    else if verdict.Unsupported? then WrongVersion(0)
    else Records([verdict.record])
  }

  function Decode<R>(codec: Codec<R>, b: octets): Decoded<R>
    decreases |b|
  {
    if b == [] then Records([])
    else
      match IndexOf(b, NEWLINE)
      case None => Torn(0)
      case Some(n) =>
        if n >= |b| then Torn(0)
        else
          var first := FirstLine(codec, b[..n], n + 1 == |b|);
          if first.Records? then Behind(first.records, n + 1, Decode(codec, b[n + 1..])) else first
  }

  lemma DecodeStep<R>(codec: Codec<R>, line: octets, rest: octets)
    requires NEWLINE !in line
    ensures var first := FirstLine(codec, line, rest == []);
            Decode(codec, line + [NEWLINE] + rest) ==
            if first.Records? then Behind(first.records, |line| + 1, Decode(codec, rest)) else first
  {
    var b := line + [NEWLINE] + rest;
    IndexAfter(line, NEWLINE, rest);
    CutConcat(line + [NEWLINE], rest);
    assert b[..|line|] == line;
  }

  lemma DecodeLine<R(!new)>(codec: Codec<R>, r: R, rest: octets)
    requires Laws(codec)
    ensures Decode(codec, LineOf(codec, r) + rest) == Behind([r], |LineOf(codec, r)|, Decode(codec, rest))
  {
    DecodeStep(codec, codec.encode(r), rest);
  }

  lemma BehindNothing<R>(d: Decoded<R>)
    ensures Behind([], 0, d) == d
  {
    if d.Records? { NilConcat(d.records); }
  }

  lemma BehindBehind<R>(a: seq<R>, n: nat, b: seq<R>, m: nat, d: Decoded<R>)
    ensures Behind(a, n, Behind(b, m, d)) == Behind(a + b, n + m, d)
  {
    if d.Records? { ConcatAssociates(a, b, d.records); }
  }

  /** Whole records in front are read, whatever follows them. */
  lemma {:induction false} DecodeStream<R(!new)>(codec: Codec<R>, records: seq<R>, rest: octets)
    requires Laws(codec)
    ensures Decode(codec, Stream(codec, records) + rest) ==
            Behind(records, |Stream(codec, records)|, Decode(codec, rest))
    decreases |records|
  {
    if records == [] {
      NilConcat(rest);
      BehindNothing(Decode(codec, rest));
    } else {
      var r, later := records[0], Stream(codec, records[1..]);
      ConcatAssociates(LineOf(codec, r), later, rest);
      DecodeLine(codec, r, later + rest);
      DecodeStream(codec, records[1..], rest);
      BehindBehind([r], |LineOf(codec, r)|, records[1..], |later|, Decode(codec, rest));
      assert records == [r] + records[1..];
    }
  }

  /** The beginning of a line, but not all of it. */
  ghost predicate Partial<R(!new)>(codec: Codec<R>, tail: octets) {
    tail == [] || exists r :: PartOf(codec, tail, r)
  }

  predicate PartOf<R>(codec: Codec<R>, tail: octets, r: R) { tail < LineOf(codec, r) }

  lemma PartialIsTorn<R(!new)>(codec: Codec<R>, tail: octets)
    requires Laws(codec) && Partial(codec, tail)
    ensures Decode(codec, tail) == if tail == [] then Records([]) else Torn(0)
  {
    if tail != [] {
      var r :| PartOf(codec, tail, r);
      var line := LineOf(codec, r);
      assert forall u <- tail :: u in codec.encode(r);
      IndexIs(tail, NEWLINE);
    }
  }

  /**
   An append cut short anywhere costs that record and nothing else: the stream reads
   as the records before it, or as torn exactly where they end.
   */
  lemma TornWhereWholeEnds<R(!new)>(codec: Codec<R>, records: seq<R>, tail: octets)
    requires Laws(codec) && Partial(codec, tail)
    ensures Decode(codec, Stream(codec, records) + tail) ==
            if tail == [] then Records(records) else Torn(|Stream(codec, records)|)
  {
    DecodeStream(codec, records, tail);
    PartialIsTorn(codec, tail);
    NilConcat(records);
  }

  /** A first line and what follows it. */
  lemma Lines(b: octets)
    requires IndexOf(b, NEWLINE).Some?
    ensures var n := IndexOf(b, NEWLINE).value;
            n < |b| && NEWLINE !in b[..n] && b == b[..n] + [NEWLINE] + b[n + 1..]
  {
    IndexIs(b, NEWLINE);
    SplitAt(b, IndexOf(b, NEWLINE).value);
  }

  lemma SplitAt(b: octets, n: nat)
    requires n < |b|
    ensures b == b[..n] + [b[n]] + b[n + 1..]
  {
  }

  /** The first line of a stream, and what the stream is with it. */
  lemma FirstLineIs<R>(codec: Codec<R>, tail: octets)
    requires tail != []
    ensures var newline := IndexOf(tail, NEWLINE);
            if newline.None? then Decode(codec, tail) == Torn(0)
            else
              var n := newline.value;
              && n < |tail|
              && var first := FirstLine(codec, tail[..n], n + 1 == |tail|);
                 Decode(codec, tail) ==
                 if first.Records? then Behind(first.records, n + 1, Decode(codec, tail[n + 1..])) else first
  {
    if IndexOf(tail, NEWLINE).Some? { Lines(tail); }
  }

  lemma CutLater(line: octets, rest: octets, m: nat)
    requires m <= |rest|
    ensures (line + [NEWLINE] + rest)[..|line| + 1 + m] == line + [NEWLINE] + rest[..m]
  {
  }

  lemma CutLineIsClean<R>(codec: Codec<R>, line: octets, rest: octets, m: nat)
    requires NEWLINE !in line && m <= |rest| && Decode(codec, rest[..m]).Records?
    requires FirstLine(codec, line, rest == []).Records?
    ensures Decode(codec, (line + [NEWLINE] + rest)[..|line| + 1 + m]).Records?
  {
    CutLater(line, rest, m);
    DecodeStep(codec, line, rest[..m]);
  }

  /** A tear behind the first `n` octets is a tear of the rest, and cutting the rest clean cuts the whole clean. */
  ghost predicate TearsBehind<R>(decode: octets -> Decoded<R>, b: octets, n: nat) {
    && 0 < n <= |b| && decode(b).Torn? && decode(b[n..]).Torn? && decode(b).offset == n + decode(b[n..]).offset
    && forall m: nat | m <= |b| - n && decode(b[n..][..m]).Records? :: decode(b[..n + m]).Records?
  }

  ghost predicate Tears<R>(decode: octets -> Decoded<R>, b: octets) {
    decode(b).Torn? ==> b != [] && (decode(b).offset == 0 || exists n: nat :: TearsBehind(decode, b, n))
  }

  lemma {:induction false} CutBy<R(!new)>(decode: octets -> Decoded<R>, b: octets)
    requires decode([]).Records? && (forall q :: Tears(decode, q)) && decode(b).Torn?
    ensures decode(b).offset < |b| && decode(b[..decode(b).offset]).Records?
    decreases |b|
  {
    assert Tears(decode, b);
    if decode(b).offset == 0 {
      assert b[..0] == [];
    } else {
      var n: nat :| TearsBehind(decode, b, n);
      CutBy(decode, b[n..]);
    }
  }

  lemma LineTears<R(!new)>(codec: Codec<R>, line: octets, rest: octets)
    requires NEWLINE !in line
    requires var d := Decode(codec, line + [NEWLINE] + rest); d.Torn? && d.offset > 0
    ensures TearsBehind(q => Decode(codec, q), line + [NEWLINE] + rest, |line| + 1)
  {
    var b := line + [NEWLINE] + rest;
    DecodeStep(codec, line, rest);
    CutConcat(line + [NEWLINE], rest);
    forall m: nat | m <= |rest| && Decode(codec, rest[..m]).Records?
      ensures Decode(codec, b[..|line| + 1 + m]).Records?
    {
      CutLineIsClean(codec, line, rest, m);
    }
  }

  lemma DecodeTears<R(!new)>(codec: Codec<R>, b: octets)
    ensures Tears(q => Decode(codec, q), b)
  {
    if Decode(codec, b).Torn? && Decode(codec, b).offset > 0 {
      Lines(b);
      var n := IndexOf(b, NEWLINE).value;
      LineTears(codec, b[..n], b[n + 1..]);
    }
  }

  /** Wherever a stream of any octets is torn, what is left of it there is whole records. */
  lemma CutIsClean<R(!new)>(codec: Codec<R>, b: octets)
    requires Decode(codec, b).Torn?
    ensures Decode(codec, b).offset < |b|
    ensures Decode(codec, b[..Decode(codec, b).offset]).Records?
  {
    var decode := (q: octets) => Decode(codec, q);
    forall q ensures Tears(decode, q) { DecodeTears(codec, q); }
    CutBy(decode, b);
  }

  /** One turn of the decoder: a bad line ends it, a good one leaves the rest to be read. */
  lemma TurnIs<R>(whole: Decoded<R>, here: Decoded<R>, first: Decoded<R>, later: Decoded<R>, records: seq<R>,
                  offset: nat, n: nat)
    requires whole == Behind(records, offset, here)
    requires here == if first.Records? then Behind(first.records, n, later) else first
    ensures whole ==
            if first.Records? then Behind(records + first.records, offset + n, later)
            else Behind(records, offset, first)
  {
    if first.Records? { BehindBehind(records, offset, first.records, n, later); }
  }

  method ReadLine<R>(codec: Codec<R>, line: octets, last: bool) returns (d: Decoded<R>)
    ensures d == FirstLine(codec, line, last)
  {
    if line == [] { return if last then Torn(0) else Corrupt(0); }
    match codec.decode(line)
    case Broken => return if last then Torn(0) else Corrupt(0);
    case Unsupported => return WrongVersion(0);
    case Good(record) => return Records([record]);
  }

  /** The decoder's loop over lines. */
  method DecodeRecords<R>(codec: Codec<R>, bytes: octets) returns (d: Decoded<R>)
    ensures d == Decode(codec, bytes)
  {
    var records: seq<R>, offset, tail := [], 0, bytes;
    ghost var whole := Decode(codec, bytes);
    BehindNothing(whole);
    while tail != []
      invariant whole == Behind(records, offset, Decode(codec, tail))
      decreases |tail|
    {
      FirstLineIs(codec, tail);
      var newline := IndexOf(tail, NEWLINE);
      if newline.None? { return Torn(offset); }
      var size := newline.value + 1;
      var first := ReadLine(codec, tail[..size - 1], size == |tail|);
      TurnIs(whole, Decode(codec, tail), first, Decode(codec, tail[size..]), records, offset, size);
      if !first.Records? { return Behind(records, offset, first); }
      records, offset, tail := records + first.records, offset + size, tail[size..];
    }
    NilConcat(records);
    return Records(records);
  }

  // ------------------------------------------------ one process alone

  /** The file once a reader has cut off its torn tail. */
  function Recovered<R>(codec: Codec<R>, b: octets): octets {
    var d := Decode(codec, b);
    if d.Torn? && d.offset <= |b| then b[..d.offset] else b
  }

  /** Recovery always ends in a stream that is not torn, and a second one changes nothing. */
  lemma RecoveredIsWhole<R(!new)>(codec: Codec<R>, b: octets)
    ensures !Decode(codec, Recovered(codec, b)).Torn? && Recovered(codec, Recovered(codec, b)) == Recovered(codec, b)
  {
    if Decode(codec, b).Torn? { CutIsClean(codec, b); }
  }

  /** Behind whole records and any part of one more, recovery leaves exactly those records. */
  lemma RecoveredKeeps<R(!new)>(codec: Codec<R>, records: seq<R>, tail: octets)
    requires Laws(codec) && Partial(codec, tail)
    ensures Recovered(codec, Stream(codec, records) + tail) == Stream(codec, records)
    ensures Decode(codec, Stream(codec, records)) == Records(records)
  {
    var whole := Stream(codec, records);
    TornWhereWholeEnds(codec, records, tail);
    TornWhereWholeEnds(codec, records, []);
    NilConcat(whole);
    CutConcat(whole, tail);
  }

  class StreamFile<R(!new)> {
    const codec: Codec<R>
    var bytes: octets

    constructor (codec: Codec<R>)
      ensures this.codec == codec && bytes == []
    {
      this.codec := codec;
      bytes := [];
    }

    method Append(record: R)
      modifies this
      ensures bytes == old(bytes) + LineOf(codec, record)
    {
      bytes := bytes + LineOf(codec, record);
    }

    /** Reading removes a torn tail, and returns what the rest holds. */
    method Recover() returns (d: Decoded<R>)
      modifies this
      ensures bytes == Recovered(codec, old(bytes)) && d == Decode(codec, bytes) && !d.Torn?
    {
      RecoveredIsWhole(codec, bytes);
      d := DecodeRecords(codec, bytes);
      if d.Torn? {
        CutIsClean(codec, bytes);
        bytes := bytes[..d.offset];
        d := DecodeRecords(codec, bytes);
      }
    }
  }

  // ------------------------------------------------ one writer, and readers without the lease

  /** An append under way: what of its line is not yet in the file. */
  datatype Writing<+R> = Writing(record: R, left: octets)

  /**
   `done`: the records whose append has returned. `cuts`: the readers that found a torn
   tail and have yet to truncate, each to the offset it found.
   */
  datatype World<+R> = World(file: octets, done: seq<R>, writing: Option<Writing<R>>, cuts: map<nat, nat>)

  datatype Event<+R> =
    | Begin(record: R)
    | Write(n: nat)
    | Crash
    | Read(id: nat)
    | Cut(id: nat)

  function Extended(b: octets, n: nat): octets { b + seq(n, _ => 0) }

  /** Truncation; a file that is shorter by now is filled up. */
  function SetLength(b: octets, n: nat): octets { if n <= |b| then b[..n] else Extended(b, n - |b|) }

  function OnWrite<R>(w: World<R>, n: nat): World<R>
    requires w.writing.Some?
  {
    var left := w.writing.value.left;
    var k := if n <= |left| then n else |left|;
    var more := w.(file := w.file + left[..k]);
    if k == |left| then more.(done := w.done + [w.writing.value.record], writing := None)
    else more.(writing := Some(Writing(w.writing.value.record, left[k..])))
  }

  /** The holder of the lease reads the stream before it appends, so it begins on a whole one. */
  function Step<R>(codec: Codec<R>, w: World<R>, e: Event<R>): World<R> {
    match e
    case Begin(r) =>
      if w.writing.Some? || !Decode(codec, w.file).Records? then w
      else w.(writing := Some(Writing(r, LineOf(codec, r))))
    case Write(n) => if w.writing.None? then w else OnWrite(w, n)
    case Crash => w.(writing := None)
    case Read(id) =>
      var d := Decode(codec, w.file);
      if d.Torn? then w.(cuts := w.cuts[id := d.offset]) else w.(cuts := w.cuts - {id})
    case Cut(id) =>
      if id !in w.cuts then w else w.(file := SetLength(w.file, w.cuts[id]), cuts := w.cuts - {id})
  }

  function After<R>(codec: Codec<R>, events: seq<Event<R>>): World<R> {
    if events == [] then World([], [], None, map[])
    else Step(codec, After(codec, events[..|events| - 1]), events[|events| - 1])
  }

  /** Every record whose append has returned is in the file, in order, from its beginning. */
  predicate Kept<R>(codec: Codec<R>, w: World<R>) { Stream(codec, w.done) <= w.file }

  /** What the file holds behind those records. */
  function TailOf<R>(codec: Codec<R>, w: World<R>): octets
    requires Kept(codec, w)
  {
    w.file[|Stream(codec, w.done)|..]
  }

  ghost predicate Intact<R(!new)>(codec: Codec<R>, w: World<R>) {
    && Kept(codec, w)
    && if w.writing.Some?
       then
         && TailOf(codec, w) + w.writing.value.left == LineOf(codec, w.writing.value.record)
         && w.writing.value.left != []
       else Partial(codec, TailOf(codec, w))
  }

  /** An offset at which some record ends. */
  ghost predicate Boundary<R>(codec: Codec<R>, done: seq<R>, offset: nat) {
    exists k: nat | k <= |done| :: |Stream(codec, done[..k])| == offset
  }

  ghost predicate CutsOk<R>(codec: Codec<R>, w: World<R>) {
    forall id | id in w.cuts :: Boundary(codec, w.done, w.cuts[id])
  }

  /** An append has returned since the reader read, or one is under way and partly in the file. */
  predicate Harmful<R>(codec: Codec<R>, w: World<R>, id: nat) {
    && id in w.cuts
    && (w.cuts[id] < |Stream(codec, w.done)| || (w.writing.Some? && |w.file| > |Stream(codec, w.done)|))
  }

  lemma {:induction false} StreamSnoc<R>(codec: Codec<R>, records: seq<R>, r: R)
    ensures Stream(codec, records + [r]) == Stream(codec, records) + LineOf(codec, r)
    decreases |records|
  {
    if records == [] {
      assert records + [r] == [r] && [r][1..] == [];
      NilConcat(LineOf(codec, r));
    } else {
      assert (records + [r])[0] == records[0] && (records + [r])[1..] == records[1..] + [r];
      StreamSnoc(codec, records[1..], r);
      ConcatAssociates(LineOf(codec, records[0]), Stream(codec, records[1..]), LineOf(codec, r));
    }
  }

  lemma {:induction false} StreamGrows<R>(codec: Codec<R>, done: seq<R>, k: nat)
    requires k <= |done|
    ensures |Stream(codec, done[..k])| <= |Stream(codec, done)|
    decreases |done| - k
  {
    if k < |done| {
      assert done[..k + 1] == done[..k] + [done[k]];
      StreamSnoc(codec, done[..k], done[k]);
      StreamGrows(codec, done, k + 1);
    } else {
      assert done[..k] == done;
    }
  }

  lemma BoundaryIsWithin<R>(codec: Codec<R>, done: seq<R>, offset: nat)
    requires Boundary(codec, done, offset)
    ensures offset <= |Stream(codec, done)|
  {
    var k: nat :| k <= |done| && |Stream(codec, done[..k])| == offset;
    StreamGrows(codec, done, k);
  }

  lemma BoundaryStays<R>(codec: Codec<R>, done: seq<R>, r: R, offset: nat)
    requires Boundary(codec, done, offset)
    ensures Boundary(codec, done + [r], offset)
  {
    var k: nat :| k <= |done| && |Stream(codec, done[..k])| == offset;
    assert (done + [r])[..k] == done[..k];
  }

  lemma FileIs<R>(codec: Codec<R>, w: World<R>)
    requires Kept(codec, w)
    ensures w.file == Stream(codec, w.done) + TailOf(codec, w)
  {
  }

  /** What a reader finds in an intact file. */
  lemma IntactReads<R(!new)>(codec: Codec<R>, w: World<R>)
    requires Laws(codec) && Intact(codec, w)
    ensures Partial(codec, TailOf(codec, w))
    ensures Decode(codec, w.file) ==
            if TailOf(codec, w) == [] then Records(w.done) else Torn(|Stream(codec, w.done)|)
  {
    var tail := TailOf(codec, w);
    if w.writing.Some? {
      CutConcat(tail, w.writing.value.left);
      assert PartOf(codec, tail, w.writing.value.record);
    }
    FileIs(codec, w);
    TornWhereWholeEnds(codec, w.done, tail);
  }

  // ---- what each event keeps

  lemma BeginKeeps<R(!new)>(codec: Codec<R>, w: World<R>, r: R)
    requires Laws(codec) && Intact(codec, w)
    ensures Intact(codec, Step(codec, w, Begin(r)))
  {
    IntactReads(codec, w);
    NilConcat(LineOf(codec, r));
  }

  /** An append that returns leaves its whole line behind the others. */
  lemma ReturnKeeps<R(!new)>(codec: Codec<R>, w: World<R>, n: nat)
    requires Intact(codec, w) && w.writing.Some? && n >= |w.writing.value.left|
    ensures Intact(codec, OnWrite(w, n)) && OnWrite(w, n).file == Stream(codec, OnWrite(w, n).done)
  {
    var left, tail, r := w.writing.value.left, TailOf(codec, w), w.writing.value.record;
    assert left[..|left|] == left;
    FileIs(codec, w);
    ConcatAssociates(Stream(codec, w.done), tail, left);
    StreamSnoc(codec, w.done, r);
  }

  lemma PieceKeeps<R(!new)>(codec: Codec<R>, w: World<R>, n: nat)
    requires Intact(codec, w) && w.writing.Some? && n < |w.writing.value.left|
    ensures Intact(codec, OnWrite(w, n))
  {
    var left, tail := w.writing.value.left, TailOf(codec, w);
    FileIs(codec, w);
    ConcatAssociates(Stream(codec, w.done), tail, left[..n]);
    CutConcat(Stream(codec, w.done), tail + left[..n]);
    ConcatAssociates(tail, left[..n], left[n..]);
    assert left == left[..n] + left[n..];
  }

  lemma CrashKeeps<R(!new)>(codec: Codec<R>, w: World<R>)
    requires Laws(codec) && Intact(codec, w)
    ensures Intact(codec, Step(codec, w, Crash))
  {
    IntactReads(codec, w);
  }

  lemma CutsStay<R(!new)>(codec: Codec<R>, w: World<R>, n: nat)
    requires CutsOk(codec, w) && w.writing.Some?
    ensures CutsOk(codec, OnWrite(w, n))
  {
    var after := OnWrite(w, n);
    forall id | id in after.cuts ensures Boundary(codec, after.done, after.cuts[id]) {
      assert Boundary(codec, w.done, w.cuts[id]);
      BoundaryStays(codec, w.done, w.writing.value.record, w.cuts[id]);
    }
  }

  lemma ReadKeeps<R(!new)>(codec: Codec<R>, w: World<R>, id: nat)
    requires Laws(codec) && Intact(codec, w) && CutsOk(codec, w)
    ensures Intact(codec, Step(codec, w, Read(id))) && CutsOk(codec, Step(codec, w, Read(id)))
  {
    IntactReads(codec, w);
    assert w.done[..|w.done|] == w.done;
    assert Boundary(codec, w.done, |Stream(codec, w.done)|);
  }

  /** A harmless truncation takes off a tail that nobody is writing, and nothing else. */
  lemma CutKeeps<R(!new)>(codec: Codec<R>, w: World<R>, id: nat)
    requires Intact(codec, w) && CutsOk(codec, w) && !Harmful(codec, w, id)
    ensures Intact(codec, Step(codec, w, Cut(id))) && CutsOk(codec, Step(codec, w, Cut(id)))
  {
    if id in w.cuts {
      BoundaryIsWithin(codec, w.done, w.cuts[id]);
      FileIs(codec, w);
      CutConcat(Stream(codec, w.done), TailOf(codec, w));
    }
  }

  lemma SafeStep<R(!new)>(codec: Codec<R>, w: World<R>, e: Event<R>)
    requires Laws(codec) && Intact(codec, w) && CutsOk(codec, w)
    requires e.Cut? ==> !Harmful(codec, w, e.id)
    ensures Intact(codec, Step(codec, w, e)) && CutsOk(codec, Step(codec, w, e))
  {
    match e
    case Begin(r) => BeginKeeps(codec, w, r);
    case Write(n) =>
      if w.writing.Some? {
        CutsStay(codec, w, n);
        if n >= |w.writing.value.left| { ReturnKeeps(codec, w, n); } else { PieceKeeps(codec, w, n); }
      }
    case Crash => CrashKeeps(codec, w);
    case Read(id) => ReadKeeps(codec, w, id);
    case Cut(id) => CutKeeps(codec, w, id);
  }

  // ---- runs

  /** No truncation of the run is harmful when it happens. */
  predicate Harmless<R>(codec: Codec<R>, events: seq<Event<R>>) {
    events == [] ||
    var before, e := events[..|events| - 1], events[|events| - 1];
    Harmless(codec, before) && (e.Cut? ==> !Harmful(codec, After(codec, before), e.id))
  }

  /** Then every record whose append returned is kept, whatever crashes and whoever reads. */
  lemma {:induction false} HarmlessKeepsAll<R(!new)>(codec: Codec<R>, events: seq<Event<R>>)
    requires Laws(codec) && Harmless(codec, events)
    ensures Intact(codec, After(codec, events)) && CutsOk(codec, After(codec, events))
  {
    if events != [] {
      HarmlessKeepsAll(codec, events[..|events| - 1]);
      SafeStep(codec, After(codec, events[..|events| - 1]), events[|events| - 1]);
    }
  }

  /** What the writer makes of its append once nothing gets in its way. */
  function Finish<R>(w: World<R>): World<R> {
    if w.writing.Some? then OnWrite(w, |w.writing.value.left|) else w
  }

  /**
   The first truncation of a run that is not harmless loses a record: one whose append
   has returned, or the one being appended, whose append will return all the same.
   */
  lemma CutKeepsIff<R(!new)>(codec: Codec<R>, events: seq<Event<R>>, id: nat)
    requires Laws(codec) && Harmless(codec, events) && id in After(codec, events).cuts
    ensures var after := Step(codec, After(codec, events), Cut(id));
            Kept(codec, after) && Kept(codec, Finish(after)) <==> !Harmful(codec, After(codec, events), id)
  {
    HarmlessKeepsAll(codec, events);
    var w := After(codec, events);
    BoundaryIsWithin(codec, w.done, w.cuts[id]);
    if Harmful(codec, w, id) {
      HarmfulLoses(codec, w, id);
    } else {
      CutKeeps(codec, w, id);
      var after := Step(codec, w, Cut(id));
      if after.writing.Some? { ReturnKeeps(codec, after, |after.writing.value.left|); }
    }
  }

  lemma HarmfulLoses<R(!new)>(codec: Codec<R>, w: World<R>, id: nat)
    requires Intact(codec, w) && Harmful(codec, w, id) && w.cuts[id] <= |Stream(codec, w.done)|
    ensures var after := Step(codec, w, Cut(id)); !(Kept(codec, after) && Kept(codec, Finish(after)))
  {
    var after := Step(codec, w, Cut(id));
    if w.cuts[id] == |Stream(codec, w.done)| {
      var r, left := w.writing.value.record, w.writing.value.left;
      StreamSnoc(codec, w.done, r);
      assert |TailOf(codec, w) + left| == |LineOf(codec, r)|;
    }
  }

  /** Recovery under the writer's lease: nobody reads during an append, or appends before the truncation. */
  predicate Leased<R>(codec: Codec<R>, events: seq<Event<R>>) {
    events == [] ||
    var before, e := events[..|events| - 1], events[|events| - 1];
    && Leased(codec, before)
    && (e.Read? ==> After(codec, before).writing.None?)
    && (e.Begin? ==> After(codec, before).cuts == map[])
  }

  ghost predicate Quiet<R(!new)>(codec: Codec<R>, w: World<R>) {
    && (w.writing.Some? ==> w.cuts == map[])
    && forall id | id in w.cuts :: w.cuts[id] == |Stream(codec, w.done)|
  }

  lemma {:induction false} LeasedIsHarmless<R(!new)>(codec: Codec<R>, events: seq<Event<R>>)
    requires Laws(codec) && Leased(codec, events)
    ensures Harmless(codec, events) && Quiet(codec, After(codec, events))
  {
    if events != [] {
      var before, e := events[..|events| - 1], events[|events| - 1];
      LeasedIsHarmless(codec, before);
      HarmlessKeepsAll(codec, before);
      IntactReads(codec, After(codec, before));
    }
  }

  /** Under the lease nothing that was acknowledged is ever lost. */
  lemma LeasedKeepsAll<R(!new)>(codec: Codec<R>, events: seq<Event<R>>)
    requires Laws(codec) && Leased(codec, events)
    ensures Kept(codec, After(codec, events))
  {
    LeasedIsHarmless(codec, events);
    HarmlessKeepsAll(codec, events);
  }

  /** Without it every record can be: read in the middle of its append, truncated behind it. */
  function LosingRun<R>(codec: Codec<R>, r: R): seq<Event<R>> {
    [Begin(r), Write(1), Read(0), Write(|codec.encode(r)|), Cut(0)]
  }

  lemma UnleasedCutLoses<R(!new)>(codec: Codec<R>, r: R)
    requires Laws(codec)
    ensures After(codec, LosingRun(codec, r)) == World([], [r], None, map[])
  {
    var line, run := LineOf(codec, r), LosingRun(codec, r);
    assert run[..4][..3] == run[..3] && run[..3][..2] == run[..2] && run[..2][..1] == run[..1] && run[..1][..0] == [];
    var w1 := World([], [], Some(Writing(r, line)), map[]);
    assert After(codec, run[..1]) == Step(codec, World([], [], None, map[]), Begin(r)) == w1;
    var w2 := World(line[..1], [], Some(Writing(r, line[1..])), map[]);
    assert After(codec, run[..2]) == Step(codec, w1, Write(1)) == w2;
    assert PartOf(codec, line[..1], r);
    PartialIsTorn(codec, line[..1]);
    assert After(codec, run[..3]) == Step(codec, w2, Read(0)) == w2.(cuts := map[0 := 0]);
    assert line == line[..1] + line[1..] && line[1..][..|line| - 1] == line[1..];
    assert After(codec, run[..4]) == Step(codec, w2.(cuts := map[0 := 0]), Write(|codec.encode(r)|));
    assert After(codec, run[..4]) == World(line, [r], None, map[0 := 0]);
    assert run[..5] == run;
  }
}
