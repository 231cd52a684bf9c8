/**
 The federation inner framing: a length-prefixed header and a length-prefixed
 body, read incrementally. The header text codec and the per-kind schema check
 are parameters.
 */
module FedFrames {
  import opened Bytes
  import opened Wrappers
  import opened Framing

  const MAX_HEADER: nat := 65536

  type Reason = string

  datatype Record<+H> = Record(header: H, body: seq<byte>)

  /** How header octets become a header and back, and which records are legal. */
  datatype Codec<!H> = Codec(
    compact: H -> seq<byte>,
    strictJson: seq<byte> -> Result<H, Reason>,
    validate: (H, seq<byte>) -> Option<Reason>,
    maxBody: nat)

  // ------------------------------------------------ one record on the stream

  function NextRecord<H>(codec: Codec<H>, b: seq<byte>): Next<Record<H>, Reason> {
    if |b| < 4 then More
    else
      var headerSize := FromLittleEndian(b[0..4]);
      if headerSize > MAX_HEADER then Bad("header_too_large")
      else if |b| < 4 + headerSize + 4 then More
      else
        var bodySize := FromLittleEndian(b[4 + headerSize..8 + headerSize]);
        if bodySize > codec.maxBody then Bad("body_too_large")
        else
          var size := 8 + headerSize + bodySize;
          if |b| < size then More
          else Complete(codec, b[4..4 + headerSize], b[8 + headerSize..size], size)
  }

  /** The verdict on a record whose octets are all present. */
  function Complete<H>(codec: Codec<H>, text: seq<byte>, body: seq<byte>, size: nat): Next<Record<H>, Reason> {
    match codec.strictJson(text)
    case Err(reason) => Bad(reason)
    case Ok(header) =>
      match codec.validate(header, body)
      case Some(reason) => Bad(reason)
      case None => Got(Record(header, body), size)
  }

  ghost function Rule<H(!new)>(codec: Codec<H>): seq<byte> -> Next<Record<H>, Reason> {
    b => NextRecord(codec, b)
  }

  lemma RecordsAreDelimited<H(!new)>(codec: Codec<H>)
    ensures Framer(Rule(codec))
  {
    forall b, more ensures Final(Rule(codec), b, more) {
      if |b| >= 4 {
        assert (b + more)[0..4] == b[0..4];
        var h := FromLittleEndian(b[0..4]);
        if |b| >= 8 + h {
          assert (b + more)[4 + h..8 + h] == b[4 + h..8 + h];
          var size := 8 + h + FromLittleEndian(b[4 + h..8 + h]);
          if |b| >= size {
            assert (b + more)[4..4 + h] == b[4..4 + h];
            assert (b + more)[8 + h..size] == b[8 + h..size];
          }
        }
      }
    }
  }

  /** The reference reading: the whole stream at once. */
  ghost function WholeStream<H(!new)>(codec: Codec<H>, b: seq<byte>): Parsed<Record<H>, Reason> {
    RecordsAreDelimited(codec);
    Parse(Rule(codec), b)
  }

  /** Why a stream may not stop where `rest` is all that is left. */
  function Truncation(rest: seq<byte>): Option<Reason> {
    if rest == [] then None
    else if |rest| < 4 then Some("truncated_header_prefix")
    else
      var size := FromLittleEndian(rest[0..4]);
      if |rest| < 4 + size then Some("truncated_header")
      else if |rest| < 8 + size then Some("truncated_body_prefix")
      else Some("truncated_body")
  }

  // ------------------------------------------------ where a stream may stop

  /** The same octets in the same places. */
  lemma SamePlaces(b: seq<byte>, n: nat, i: nat, j: nat)
    requires i <= j <= n <= |b|
    ensures b[..n][i..j] == b[i..j]
  {
  }

  lemma RecordsAreTight<H(!new)>(codec: Codec<H>)
    ensures Tight(Rule(codec))
  {
    forall b | NextRecord(codec, b).Got? ensures Alone(Rule(codec), b) {
      var n, h := NextRecord(codec, b).size, FromLittleEndian(b[0..4]);
      SamePlaces(b, n, 0, 4);
      SamePlaces(b, n, 4, 4 + h);
      SamePlaces(b, n, 4 + h, 8 + h);
      SamePlaces(b, n, 8 + h, n);
    }
  }

  /** The part of a record in which its octet `k` lies: length, header, length, body. */
  function CutReason(raw: seq<byte>, k: nat): Reason
    requires |raw| >= 4
  {
    var header := FromLittleEndian(raw[0..4]);
    if k < 4 then "truncated_header_prefix"
    else if k - 4 < header then "truncated_header"
    else if k - 4 - header < 4 then "truncated_body_prefix"
    else "truncated_body"
  }

  /** The octets are complete records and the first `k` octets of one more. */
  ghost predicate CutShort<H(!new)>(codec: Codec<H>, b: seq<byte>, done: seq<byte>, raw: seq<byte>, k: nat) {
    IsRecords(Rule(codec), done) && IsRecord(Rule(codec), raw) && 0 < k < |raw| && b == done + raw[..k]
  }

  /** What is left of a stream cut inside a record tells which part the cut fell in. */
  lemma CutIsReported<H(!new)>(codec: Codec<H>, b: seq<byte>, done: seq<byte>, raw: seq<byte>, k: nat)
    requires CutShort(codec, b, done, raw, k)
    ensures |raw| >= 4 && WholeStream(codec, b).fault.None?
    ensures Truncation(WholeStream(codec, b).rest) == Some(CutReason(raw, k))
  {
    RecordsAreDelimited(codec);
    CutLeavesPart(Rule(codec), done, raw, k);
    assert NextRecord(codec, raw).Got?;
    if k >= 4 { assert raw[..k][0..4] == raw[0..4]; }
  }

  /** What reading has left, read on. */
  lemma RestReadsOn<H(!new)>(codec: Codec<H>, b: seq<byte>, chunk: seq<byte>)
    ensures WholeStream(codec, b + chunk).rest == WholeStream(codec, WholeStream(codec, b).rest + chunk).rest
  {
    RecordsAreDelimited(codec);
    ParseContinues(Rule(codec), b, chunk);
    if WholeStream(codec, b).fault.Some? {
      RestIsUndecided(Rule(codec), b);
      assert Final(Rule(codec), WholeStream(codec, b).rest, chunk);
    }
  }

  // ------------------------------------------------ the incremental parser

  class Incremental<H(!new)> {
    const codec: Codec<H>
    var buffer: seq<byte>
    ghost var arrived: seq<byte>

    /** The buffer holds what the reading of everything fed so far has left. */
    ghost predicate Valid()
      reads this
    {
      buffer == WholeStream(codec, arrived).rest
    }

    constructor (codec: Codec<H>)
      ensures Valid() && this.codec == codec && buffer == arrived == []
    {
      this.codec := codec;
      buffer, arrived := [], [];
      new;
      assert Rule(codec)([]) == More;
    }

    /** Adds a chunk and takes every complete record; a fault raises, and drops what this call took. */
    method Feed(chunk: seq<byte>) returns (r: Result<seq<Record<H>>, Reason>)
      requires Valid()
      modifies this
      ensures Valid() && arrived == old(arrived) + chunk
      ensures var p := WholeStream(codec, old(buffer) + chunk);
              && buffer == p.rest
              && r == match p.fault case Some(reason) => Err(reason) case None => Ok(p.frames)
    {
      RecordsAreDelimited(codec);
      RestReadsOn(codec, arrived, chunk);
      arrived := arrived + chunk;
      buffer := buffer + chunk;
      ghost var pending := buffer;
      var frames: seq<Record<H>> := [];
      NilConcat(WholeStream(codec, buffer).frames);
      while |buffer| >= 4
        invariant arrived == old(arrived) + chunk && Follows(Rule(codec), buffer, pending, frames)
        decreases |buffer|
      {
        var headerSize := FromLittleEndian(buffer[0..4]);
        if headerSize > MAX_HEADER {
          assert Rule(codec)(buffer) == Bad("header_too_large");
          return Err("header_too_large");
        }
        if |buffer| < 4 + headerSize + 4 { break; }
        var bodySize := FromLittleEndian(buffer[4 + headerSize..8 + headerSize]);
        if bodySize > codec.maxBody {
          assert Rule(codec)(buffer) == Bad("body_too_large");
          return Err("body_too_large");
        }
        var size := 8 + headerSize + bodySize;
        if |buffer| < size { break; }
        var body := buffer[8 + headerSize..size];
        match codec.strictJson(buffer[4..4 + headerSize]) {
          case Err(reason) =>
            assert Rule(codec)(buffer) == Bad(reason);
            return Err(reason);
          case Ok(header) =>
            match codec.validate(header, body) {
              case Some(reason) =>
                assert Rule(codec)(buffer) == Bad(reason);
                return Err(reason);
              case None =>
                assert Rule(codec)(buffer) == Got(Record(header, body), size);
                FollowsFrame(Rule(codec), buffer, pending, frames);
                frames := frames + [Record(header, body)];
                buffer := buffer[size..];
            }
        }
      }
      assert Rule(codec)(buffer) == More;
      FollowsIdle(Rule(codec), buffer, pending, frames);
      return Ok(frames);
    }

    /**
     End of input: nothing is reported exactly when all that was fed is complete
     records, and a record cut short is reported by the part the cut falls in.
     */
    method Finish() returns (r: Option<Reason>)
      requires Valid()
      ensures r == Truncation(buffer)
      ensures r.None? <==> IsRecords(Rule(codec), arrived)
      ensures forall done, raw, k: nat | CutShort(codec, arrived, done, raw, k) ::
                |raw| >= 4 && r == Some(CutReason(raw, k))
    {
      RecordsAreDelimited(codec);
      RecordsAreTight(codec);
      assert Rule(codec)([]) == More;
      EndsCleanIff(Rule(codec), arrived);
      forall done, raw, k: nat | CutShort(codec, arrived, done, raw, k)
        ensures |raw| >= 4 && Truncation(buffer) == Some(CutReason(raw, k))
      {
        CutIsReported(codec, arrived, done, raw, k);
      }
      if buffer == [] { return None; }
      if |buffer| < 4 { return Some("truncated_header_prefix"); }
      var size := FromLittleEndian(buffer[0..4]);
      if |buffer| < 4 + size { return Some("truncated_header"); }
      if |buffer| < 8 + size { return Some("truncated_body_prefix"); }
      return Some("truncated_body");
    }
  }

  // ------------------------------------------------ a parser fed in pieces

  /** What a caller collects: records returned, then the fault that ended it or the octets held. */
  datatype Session<+H> = Session(frames: seq<Record<H>>, held: seq<byte>, fault: Option<Reason>)

  /** Feeding chunk after chunk until one raises. */
  ghost function FeedAll<H(!new)>(codec: Codec<H>, held: seq<byte>, chunks: seq<seq<byte>>): Session<H>
    decreases |chunks|
  {
    if chunks == [] then Session([], held, None)
    else
      var p := WholeStream(codec, held + chunks[0]);
      if p.fault.Some? then Session([], p.rest, p.fault)
      else
        var s := FeedAll(codec, p.rest, chunks[1..]);
        s.(frames := p.frames + s.frames)
  }

  /** The parser object, fed in turn until it raises, is that reading. */
  method FeedEach<H(!new)>(codec: Codec<H>, chunks: seq<seq<byte>>)
    returns (frames: seq<Record<H>>, held: seq<byte>, fault: Option<Reason>)
    ensures Session(frames, held, fault) == FeedAll(codec, [], chunks)
  {
    var parser := new Incremental(codec);
    frames, fault := [], None;
    var i := 0;
    NilConcat(FeedAll(codec, [], chunks).frames);
    while i < |chunks|
      invariant fresh(parser) && parser.Valid() && parser.codec == codec && 0 <= i <= |chunks|
      invariant var s := FeedAll(codec, parser.buffer, chunks[i..]);
                FeedAll(codec, [], chunks) == s.(frames := frames + s.frames)
    {
      ghost var rest := chunks[i..];
      assert rest[0] == chunks[i] && rest[1..] == chunks[i + 1..];
      var fed := parser.Feed(chunks[i]);
      i := i + 1;
      match fed
      case Err(reason) =>
        NilConcat(frames);
        return frames, parser.buffer, Some(reason);
      case Ok(more) =>
        ConcatAssociates(frames, more, FeedAll(codec, parser.buffer, chunks[i..]).frames);
        frames := frames + more;
    }
    NilConcat(frames);
    held := parser.buffer;
  }

  /** Records completed inside the very chunk that raises; the raising call never returns them. */
  ghost function Lost<H(!new)>(codec: Codec<H>, held: seq<byte>, chunks: seq<seq<byte>>): seq<Record<H>>
    decreases |chunks|
  {
    if chunks == [] then []
    else
      var p := WholeStream(codec, held + chunks[0]);
      if p.fault.Some? then p.frames else Lost(codec, p.rest, chunks[1..])
  }

  /**
   Cutting never changes the verdict. What is returned is the whole-stream
   reading less the records finished in the raising chunk.
   */
  lemma {:induction false} ChunkingLaw<H(!new)>(codec: Codec<H>, held: seq<byte>, chunks: seq<seq<byte>>)
    requires NextRecord(codec, held) == More
    ensures var s, p := FeedAll(codec, held, chunks), WholeStream(codec, held + Flatten(chunks));
            && s.fault == p.fault
            && s.frames + Lost(codec, held, chunks) == p.frames
            && (p.fault.None? ==> s.held == p.rest && Lost(codec, held, chunks) == [])
    decreases |chunks|
  {
    RecordsAreDelimited(codec);
    if chunks == [] {
      NilConcat(held);
      assert Rule(codec)(held) == More;
    } else {
      var first, rest := held + chunks[0], Flatten(chunks[1..]);
      var p := WholeStream(codec, first);
      ConcatAssociates(held, chunks[0], rest);
      ParseContinues(Rule(codec), first, rest);
      RestIsUndecided(Rule(codec), first);
      if p.fault.None? {
        assert Rule(codec)(p.rest) == More;
        ChunkingLaw(codec, p.rest, chunks[1..]);
        var s := FeedAll(codec, p.rest, chunks[1..]);
        ConcatAssociates(p.frames, s.frames, Lost(codec, p.rest, chunks[1..]));
      } else {
        NilConcat(p.frames);
      }
    }
  }

  // ------------------------------------------------ which cuttings return every record

  /**
   A boundary at or behind the end of the last good record of the stream, and
   before the octets that decide its fault.
   */
  ghost predicate SafeBoundary<H(!new)>(codec: Codec<H>, held: seq<byte>, chunks: seq<seq<byte>>, i: nat)
    requires i <= |chunks|
  {
    var stream, before := held + Flatten(chunks), held + Flatten(chunks[..i]);
    && |stream| - |WholeStream(codec, stream).rest| <= |before|
    && WholeStream(codec, before).fault.None?
  }

  ghost predicate SafelyCut<H(!new)>(codec: Codec<H>, held: seq<byte>, chunks: seq<seq<byte>>) {
    exists i: nat | i <= |chunks| :: SafeBoundary(codec, held, chunks, i)
  }

  lemma TakeFlatten(chunks: seq<seq<byte>>, i: nat)
    requires 0 < i <= |chunks|
    ensures Flatten(chunks[..i]) == chunks[0] + Flatten(chunks[1..][..i - 1])
  {
    assert chunks[..i][1..] == chunks[1..][..i - 1];
  }

  /** A boundary behind the first chunk is one of the stream that is left by then. */
  lemma LaterBoundary<H(!new)>(codec: Codec<H>, held: seq<byte>, chunks: seq<seq<byte>>, i: nat)
    requires 0 < i <= |chunks|
    requires WholeStream(codec, held + chunks[0]).fault.None?
    ensures SafeBoundary(codec, held, chunks, i)
            <==> SafeBoundary(codec, WholeStream(codec, held + chunks[0]).rest, chunks[1..], i - 1)
  {
    RecordsAreDelimited(codec);
    var first, rest, before := held + chunks[0], Flatten(chunks[1..]), Flatten(chunks[1..][..i - 1]);
    TakeFlatten(chunks, i);
    ConcatAssociates(held, chunks[0], rest);
    ConcatAssociates(held, chunks[0], before);
    ParseContinues(Rule(codec), first, rest);
    ParseContinues(Rule(codec), first, before);
  }

  /** When the first chunk raises, only the boundary ahead of it can be safe. */
  lemma RaisingBoundary<H(!new)>(codec: Codec<H>, held: seq<byte>, chunks: seq<seq<byte>>)
    requires chunks != [] && NextRecord(codec, held) == More
    requires WholeStream(codec, held + chunks[0]).fault.Some?
    ensures SafelyCut(codec, held, chunks) <==> WholeStream(codec, held + chunks[0]).frames == []
  {
    RecordsAreDelimited(codec);
    var first, rest := held + chunks[0], Flatten(chunks[1..]);
    ConcatAssociates(held, chunks[0], rest);
    ParseContinues(Rule(codec), first, rest);
    NilConcat(held);
    assert Rule(codec)(held) == More && chunks[..0] == [];
    assert WholeStream(codec, first).frames == [] <==> SafeBoundary(codec, held, chunks, 0) by {
      if NextRecord(codec, first).Got? {
        RecordsAreTight(codec);
        NewRecordIsLonger(Rule(codec), held, chunks[0]);
        RestIsShorter(Rule(codec), first[NextRecord(codec, first).size..]);
      }
    }
    forall i: nat | 0 < i <= |chunks| ensures !SafeBoundary(codec, held, chunks, i) {
      TakeFlatten(chunks, i);
      ConcatAssociates(held, chunks[0], Flatten(chunks[1..][..i - 1]));
      ParseContinues(Rule(codec), first, Flatten(chunks[1..][..i - 1]));
    }
  }

  /** Every record comes back exactly when some boundary parts the last of them from the fault. */
  lemma {:induction false} ReturnsAllIff<H(!new)>(codec: Codec<H>, held: seq<byte>, chunks: seq<seq<byte>>)
    requires NextRecord(codec, held) == More
    ensures FeedAll(codec, held, chunks).frames == WholeStream(codec, held + Flatten(chunks)).frames
            <==> SafelyCut(codec, held, chunks)
    decreases |chunks|
  {
    RecordsAreDelimited(codec);
    assert Rule(codec)(held) == More;
    if chunks == [] {
      NilConcat(held);
      assert SafeBoundary(codec, held, chunks, 0);
    } else {
      var first, rest := held + chunks[0], Flatten(chunks[1..]);
      var p := WholeStream(codec, first);
      ConcatAssociates(held, chunks[0], rest);
      ParseContinues(Rule(codec), first, rest);
      if p.fault.Some? {
        RaisingBoundary(codec, held, chunks);
      } else {
        RestIsUndecided(Rule(codec), first);
        ReturnsAllIff(codec, p.rest, chunks[1..]);
        SafelyCutLater(codec, held, chunks);
        var s, q := FeedAll(codec, p.rest, chunks[1..]), WholeStream(codec, p.rest + rest);
        SamePrefix(p.frames, s.frames, q.frames);
      }
    }
  }

  lemma SamePrefix<T>(a: seq<T>, b: seq<T>, c: seq<T>)
    ensures a + b == a + c <==> b == c
  {
    CutConcat(a, b);
    CutConcat(a, c);
  }

  lemma SafelyCutLater<H(!new)>(codec: Codec<H>, held: seq<byte>, chunks: seq<seq<byte>>)
    requires chunks != [] && NextRecord(codec, held) == More
    requires WholeStream(codec, held + chunks[0]).fault.None?
    ensures SafelyCut(codec, held, chunks)
            <==> SafelyCut(codec, WholeStream(codec, held + chunks[0]).rest, chunks[1..])
  {
    var rest := WholeStream(codec, held + chunks[0]).rest;
    if SafelyCut(codec, held, chunks) {
      var i: nat :| i <= |chunks| && SafeBoundary(codec, held, chunks, i);
      if i == 0 {
        assert chunks[..0] == [] && chunks[..1] == [chunks[0]];
        NilConcat(held);
        assert Flatten([chunks[0]]) == chunks[0] + Flatten([]) == chunks[0];
        assert SafeBoundary(codec, held, chunks, 1);
        LaterBoundary(codec, held, chunks, 1);
      } else {
        LaterBoundary(codec, held, chunks, i);
      }
    }
    if SafelyCut(codec, rest, chunks[1..]) {
      var j: nat :| j <= |chunks[1..]| && SafeBoundary(codec, rest, chunks[1..], j);
      LaterBoundary(codec, held, chunks, j + 1);
      assert SafeBoundary(codec, held, chunks, j + 1);
    }
  }

  /**
   Two cuttings of one stream agree on accept, fault and truncation alike. A
   cutting returns every record exactly when one of its boundaries lies at or
   behind the end of the last good record and ahead of the octets that decide
   the fault; a stream without fault is always so cut.
   */
  lemma ChunkingIndependence<H(!new)>(codec: Codec<H>, chunks: seq<seq<byte>>, chunks': seq<seq<byte>>)
    requires Flatten(chunks) == Flatten(chunks')
    ensures var s, s' := FeedAll(codec, [], chunks), FeedAll(codec, [], chunks');
            && s.fault == s'.fault
            && (s.fault.None? ==> s == s' && Truncation(s.held) == Truncation(s'.held))
    ensures FeedAll(codec, [], chunks).frames == WholeStream(codec, Flatten(chunks)).frames
            <==> SafelyCut(codec, [], chunks)
  {
    ChunkingLaw(codec, [], chunks);
    ChunkingLaw(codec, [], chunks');
    ReturnsAllIff(codec, [], chunks);
    NilConcat(Flatten(chunks));
    NilConcat(FeedAll(codec, [], chunks).frames);
    NilConcat(FeedAll(codec, [], chunks').frames);
  }

  /** After a fault the parser stays at it: every later chunk raises the same reason. */
  lemma FaultIsSticky<H(!new)>(codec: Codec<H>, b: seq<byte>, chunk: seq<byte>)
    requires WholeStream(codec, b).fault.Some?
    ensures var p := WholeStream(codec, b);
            WholeStream(codec, p.rest + chunk) == Parsed([], p.rest + chunk, p.fault)
  {
    RecordsAreDelimited(codec);
    RestIsUndecided(Rule(codec), b);
    assert Final(Rule(codec), WholeStream(codec, b).rest, chunk);
  }

  /**
   The returned records do depend on the cutting, for every record and every
   fault: together in one chunk the record is lost, in two chunks it is returned.
   */
  lemma RecordsDependOnCutting<H(!new)>(codec: Codec<H>, ok: seq<byte>, bad: seq<byte>)
    requires NextRecord(codec, ok).Got? && NextRecord(codec, ok).size == |ok|
    requires NextRecord(codec, bad).Bad?
    ensures FeedAll(codec, [], [ok + bad]) == Session([], bad, Some(NextRecord(codec, bad).error))
    ensures FeedAll(codec, [], [ok, bad]) ==
            Session([NextRecord(codec, ok).frame], bad, Some(NextRecord(codec, bad).error))
  {
    RecordsAreDelimited(codec);
    var frame := NextRecord(codec, ok).frame;
    assert Rule(codec)(ok) == NextRecord(codec, ok) && Rule(codec)(bad) == NextRecord(codec, bad);
    assert Rule(codec)([]) == More;
    ParseSingle(Rule(codec), ok);
    ParseContinues(Rule(codec), ok, bad);
    NilConcat(ok);
    NilConcat(bad);
    NilConcat(ok + bad);
    assert [ok, bad][1..] == [bad];
    assert FeedAll(codec, [], [bad]) == Session([], bad, Some(NextRecord(codec, bad).error));
  }

  // ------------------------------------------------ writing and reading one record

  function Encode<H>(codec: Codec<H>, header: H, body: seq<byte>): Result<seq<byte>, Reason> {
    if |body| > codec.maxBody then Err("body_too_large")
    else
      match codec.validate(header, body)
      case Some(reason) => Err(reason)
      case None =>
        var raw := codec.compact(header);
        if |raw| > MAX_HEADER then Err("header_too_large")
        else Ok(LittleEndian(|raw|, 4) + raw + LittleEndian(|body|, 4) + body)
  }

  /** A record alone in its input: anything before, after or missing refuses. */
  method Decode<H(!new)>(codec: Codec<H>, raw: seq<byte>) returns (r: Result<Record<H>, Reason>)
    ensures var p := WholeStream(codec, raw);
            r == match p.fault
                 case Some(reason) => Err(reason)
                 case None =>
                   match Truncation(p.rest)
                   case Some(reason) => Err(reason)
                   case None => if |p.frames| == 1 then Ok(p.frames[0]) else Err("single_frame_required")
  {
    var parser := new Incremental(codec);
    NilConcat(raw);
    var fed := parser.Feed(raw);
    if fed.Err? { return Err(fed.error); }
    var end := parser.Finish();
    if end.Some? { return Err(end.value); }
    if |fed.value| != 1 { return Err("single_frame_required"); }
    return Ok(fed.value[0]);
  }

  lemma EncodedRecordIsNext<H(!new)>(codec: Codec<H>, header: H, body: seq<byte>)
    requires codec.maxBody < 0x1_0000_0000
    requires codec.strictJson(codec.compact(header)) == Ok(header)
    requires Encode(codec, header, body).Ok?
    ensures var raw := Encode(codec, header, body).value;
            NextRecord(codec, raw) == Got(Record(header, body), |raw|)
  {
    var text := codec.compact(header);
    assert Pow256(4) == 256 * Pow256(3) && Pow256(3) == 256 * Pow256(2) && Pow256(2) == 256 * Pow256(1);
    LittleEndianRoundTrip(|text|, 4);
    LittleEndianRoundTrip(|body|, 4);
    FourPieces(LittleEndian(|text|, 4), text, LittleEndian(|body|, 4), body);
  }

  lemma FourPieces(a: seq<byte>, text: seq<byte>, c: seq<byte>, body: seq<byte>)
    requires |a| == 4 && |c| == 4
    ensures var b, n := a + text + c + body, |text|;
            b[0..4] == a && b[4..4 + n] == text && b[4 + n..8 + n] == c && b[8 + n..8 + n + |body|] == body
  {
  }

  /** Decoding an encoded record gives it back, when the header codec inverts itself. */
  lemma EncodedRecordReadsBack<H(!new)>(codec: Codec<H>, header: H, body: seq<byte>)
    requires codec.maxBody < 0x1_0000_0000
    requires codec.strictJson(codec.compact(header)) == Ok(header)
    requires Encode(codec, header, body).Ok?
    ensures WholeStream(codec, Encode(codec, header, body).value) == Parsed([Record(header, body)], [], None)
  {
    RecordsAreDelimited(codec);
    var raw := Encode(codec, header, body).value;
    EncodedRecordIsNext(codec, header, body);
    assert Rule(codec)([]) == More;
    ParseSingle(Rule(codec), raw);
  }

  /** Whatever a reader takes a writer can write, unless the compact header outgrows its limit. */
  lemma ReadRecordsEncode<H(!new)>(codec: Codec<H>, b: seq<byte>)
    requires NextRecord(codec, b).Got?
    ensures var r := NextRecord(codec, b).frame;
            Encode(codec, r.header, r.body).Ok? <==> |codec.compact(r.header)| <= MAX_HEADER
  {
  }

  lemma OversizedPrefix<H(!new)>(codec: Codec<H>)
    ensures NextRecord(codec, [255, 255, 255, 255]) == Bad("header_too_large")
  {
    var bad: seq<byte> := [255, 255, 255, 255];
    assert bad[0..4] == bad && bad[1..][1..] == [255, 255];
    assert FromLittleEndian(bad) == 255 + 256 * (255 + 256 * FromLittleEndian([255, 255]));
    assert FromLittleEndian([255, 255]) >= 255 by { assert [255, 255][0] == 255; }
  }

  /**
   Every record that can be written shows it, under every codec: with an oversized
   length prefix behind it in the same chunk it is lost, in a chunk of its own it
   is returned.
   */
  lemma CuttingWitness<H(!new)>(codec: Codec<H>, header: H, body: seq<byte>)
    requires codec.maxBody < 0x1_0000_0000
    requires codec.strictJson(codec.compact(header)) == Ok(header)
    requires Encode(codec, header, body).Ok?
    ensures var raw, bad := Encode(codec, header, body).value, [255, 255, 255, 255];
            && FeedAll(codec, [], [raw + bad]) == Session([], bad, Some("header_too_large"))
            && FeedAll(codec, [], [raw, bad]) == Session([Record(header, body)], bad, Some("header_too_large"))
  {
    EncodedRecordIsNext(codec, header, body);
    OversizedPrefix(codec);
    RecordsDependOnCutting(codec, Encode(codec, header, body).value, [255, 255, 255, 255]);
  }
}
