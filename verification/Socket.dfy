/**
 The pull side of a connection: data events append chunks of any size, a single
 parked read is served once enough octets are buffered, and the frame reader
 turns served reads into frames.

 The reader is written over any header decoder; `ReadChunks` runs it with the
 protocol's own.
 */
module Socket {
  import opened Bytes
  import opened Wrappers
  import opened Envelope
  import opened Framing

  type Decoder = seq<byte> -> Result<Header, Code>

  // ------------------------------------------------ the flat stream as reference

  /** What the octets from a frame boundary say: undecided, broken, or one frame. */
  function NextFrame(decode: Decoder, b: seq<byte>): Next<Frame, Code> {
    if |b| < FROZEN_PREFIX_LEN then More
    else if b[4] != PROTOCOL_VERSION then Bad(UnsupportedVersion)
    else if |b| < HEADER_LEN then More
    else
      match decode(b[..HEADER_LEN])
      case Err(code) => Bad(code)
      case Ok(header) =>
        if header.len > MAX_FRAME_BODY_LEN then Bad(FrameBodyTooLarge)
        else if |b| < HEADER_LEN + BodyLen(header) then More
        else Got(Frame(header, b[HEADER_LEN..HEADER_LEN + BodyLen(header)]), HEADER_LEN + BodyLen(header))
  }

  /** Octets that follow a header. The protocol's decoder never yields a negative length. */
  function BodyLen(header: Header): nat {
    if header.len > 0 then header.len else 0
  }

  ghost function Rule(decode: Decoder): seq<byte> -> Next<Frame, Code> {
    b => NextFrame(decode, b)
  }

  /** The frame rule decides from a prefix and never revises. */
  lemma FramesAreDelimited(decode: Decoder)
    ensures Framer(Rule(decode))
  {
    forall b, more ensures Final(Rule(decode), b, more) {
      if |b| >= HEADER_LEN {
        assert (b + more)[..HEADER_LEN] == b[..HEADER_LEN];
        var decoded := decode(b[..HEADER_LEN]);
        if decoded.Ok? && BodyLen(decoded.value) <= |b| - HEADER_LEN {
          var end := HEADER_LEN + BodyLen(decoded.value);
          assert (b + more)[HEADER_LEN..end] == b[HEADER_LEN..end];
        }
      }
    }
  }

  /** A whole stream read at once. */
  ghost function ParseStream(b: seq<byte>): Parsed<Frame, Code> {
    FramesAreDelimited(DecodeHeader);
    Parse(Rule(DecodeHeader), b)
  }

  lemma HeaderThenBody(decode: Decoder, head: seq<byte>, header: Header, body: seq<byte>, after: seq<byte>)
    requires |head| == HEADER_LEN && head[4] == PROTOCOL_VERSION && decode(head) == Ok(header)
    requires BodyLen(header) == |body| && header.len <= MAX_FRAME_BODY_LEN
    ensures NextFrame(decode, head + body + after) == Got(Frame(header, body), HEADER_LEN + |body|)
  {
    var b := head + body + after;
    assert b[..HEADER_LEN] == head && b[4] == head[4];
    assert b[HEADER_LEN..HEADER_LEN + |body|] == body;
  }

  // ------------------------------------------------ frames written end to end

  function EncodeAll(frames: seq<Frame>): seq<byte>
    requires forall f <- frames :: EncodeFrame(f).Ok?
  {
    if frames == [] then [] else EncodeFrame(frames[0]).value + EncodeAll(frames[1..])
  }

  /** What a peer sees of a frame: the header cut to wire widths, the body untouched. */
  function Received(f: Frame): Frame { Frame(OnWire(f.header), f.body) }

  function AllReceived(frames: seq<Frame>): seq<Frame> {
    seq(|frames|, i requires 0 <= i < |frames| => Received(frames[i]))
  }

  lemma EncodedFrameIsNext(f: Frame, after: seq<byte>)
    requires EncodeFrame(f).Ok?
    ensures NextFrame(DecodeHeader, EncodeFrame(f).value + after) == Got(Received(f), |EncodeFrame(f).value|)
  {
    WriterAgreesWithReader(f.header);
    WireLayout(OnWire(f.header));
    HeaderThenBody(DecodeHeader, EncodeHeader(f.header), OnWire(f.header), f.body, after);
  }

  lemma ParseOneMore(b: seq<byte>, frame: Frame, first: seq<byte>, rest: seq<byte>)
    requires b == first + rest && NextFrame(DecodeHeader, b) == Got(frame, |first|)
    ensures ParseStream(b) ==
            Parsed([frame] + ParseStream(rest).frames, ParseStream(rest).rest, ParseStream(rest).fault)
  {
    FramesAreDelimited(DecodeHeader);
    CutConcat(first, rest);
    assert Rule(DecodeHeader)(b) == Got(frame, |first|);
  }

  lemma EncodedFrameFirst(f: Frame, rest: seq<byte>)
    requires EncodeFrame(f).Ok?
    ensures var later := ParseStream(rest);
            ParseStream(EncodeFrame(f).value + rest) == later.(frames := [Received(f)] + later.frames)
  {
    EncodedFrameIsNext(f, rest);
    ParseOneMore(EncodeFrame(f).value + rest, Received(f), EncodeFrame(f).value, rest);
  }

  lemma ReceivedCons(f: Frame, rest: seq<Frame>)
    ensures AllReceived([f] + rest) == [Received(f)] + AllReceived(rest)
  {
  }

  /** The stream of any accepted frames reads back as those frames, with nothing left. */
  lemma {:induction false} EncodedFramesReadBack(frames: seq<Frame>)
    requires forall f <- frames :: EncodeFrame(f).Ok?
    ensures ParseStream(EncodeAll(frames)) == Parsed(AllReceived(frames), [], None)
  {
    if frames == [] {
      FramesAreDelimited(DecodeHeader);
      assert Rule(DecodeHeader)([]) == More;
    } else {
      EncodedFrameFirst(frames[0], EncodeAll(frames[1..]));
      EncodedFramesReadBack(frames[1..]);
      ReceivedCons(frames[0], frames[1..]);
      assert frames == [frames[0]] + frames[1..];
    }
  }

  // ------------------------------------------------ the reader against the flat stream

  /** Where the frame reader waits; `Failed` is where it stopped. */
  datatype ReadPhase =
    | AwaitPrefix
    | AwaitRemainder(prefix: seq<byte>)
    | AwaitBody(header: Header)
    | Failed(code: Code)
  {
    /** Octets the parked read is waiting for. */
    function Need(): int {
      match this
      case AwaitPrefix => FROZEN_PREFIX_LEN
      case AwaitRemainder(_) => HEADER_LEN - FROZEN_PREFIX_LEN
      case AwaitBody(header) => header.len
      case Failed(_) => 0
    }

    /** `taken` is what of the current frame is already out of the queue. */
    ghost predicate Holds(decode: Decoder, taken: seq<byte>) {
      match this
      case AwaitPrefix => taken == []
      case AwaitRemainder(prefix) =>
        taken == prefix && |prefix| == FROZEN_PREFIX_LEN && prefix[4] == PROTOCOL_VERSION
      case AwaitBody(header) =>
        && |taken| == HEADER_LEN && taken[4] == PROTOCOL_VERSION
        && decode(taken) == Ok(header) && 0 < header.len <= MAX_FRAME_BODY_LEN
      case Failed(_) => true
    }
  }

  /** A reader in `phase` over `queue` has delivered what the flat stream holds so far. */
  ghost predicate Tracks(decode: Decoder, phase: ReadPhase, taken: seq<byte>, queue: seq<byte>,
                         arrived: seq<byte>, delivered: seq<Frame>)
  {
    && phase.Holds(decode, taken)
    && if phase.Failed? then Stopped(Rule(decode), phase.code, arrived, delivered)
       else Follows(Rule(decode), taken + queue, arrived, delivered)
  }

  lemma TracksArrival(decode: Decoder, phase: ReadPhase, taken: seq<byte>, queue: seq<byte>,
                      arrived: seq<byte>, delivered: seq<Frame>, chunk: seq<byte>)
    requires Tracks(decode, phase, taken, queue, arrived, delivered)
    ensures Tracks(decode, phase, taken, queue + chunk, arrived + chunk, delivered)
  {
    if phase.Failed? {
      StoppedArrival(Rule(decode), phase.code, arrived, delivered, chunk);
    } else {
      FollowsArrival(Rule(decode), taken + queue, arrived, delivered, chunk);
      ConcatAssociates(taken, queue, chunk);
    }
  }

  /** The prefix read served with `prefix`: an unknown version stops here. */
  lemma TracksPrefix(decode: Decoder, prefix: seq<byte>, queue: seq<byte>,
                     arrived: seq<byte>, delivered: seq<Frame>)
    requires |prefix| == FROZEN_PREFIX_LEN
    requires Tracks(decode, AwaitPrefix, [], prefix + queue, arrived, delivered)
    ensures prefix[4] == PROTOCOL_VERSION ==>
      Tracks(decode, AwaitRemainder(prefix), prefix, queue, arrived, delivered)
    ensures prefix[4] != PROTOCOL_VERSION ==>
      Tracks(decode, Failed(UnsupportedVersion), [], queue, arrived, delivered)
  {
    NilConcat(prefix + queue);
    if prefix[4] != PROTOCOL_VERSION {
      assert Rule(decode)(prefix + queue) == Bad(UnsupportedVersion);
      FollowsFault(Rule(decode), prefix + queue, arrived, delivered);
    }
  }

  /** What the frame reader does next once the header octets are complete. */
  function AfterHeader(decode: Decoder, head: seq<byte>): ReadPhase {
    match decode(head)
    case Err(code) => Failed(code)
    case Ok(header) =>
      if header.len > MAX_FRAME_BODY_LEN then Failed(FrameBodyTooLarge)
      else if BodyLen(header) == 0 then AwaitPrefix
      else AwaitBody(header)
  }

  /** A reader that goes on behind the header octets `head` is on course. */
  ghost predicate HeaderTracks(decode: Decoder, head: seq<byte>, queue: seq<byte>, arrived: seq<byte>,
                               delivered: seq<Frame>)
  {
    var phase := AfterHeader(decode, head);
    if phase.AwaitPrefix?
    then Tracks(decode, phase, [], queue, arrived, delivered + [Frame(decode(head).value, [])])
    else Tracks(decode, phase, head, queue, arrived, delivered)
  }

  lemma TracksRemainder(decode: Decoder, prefix: seq<byte>, got: seq<byte>, queue: seq<byte>,
                        arrived: seq<byte>, delivered: seq<Frame>)
    requires |got| == HEADER_LEN - FROZEN_PREFIX_LEN
    requires Tracks(decode, AwaitRemainder(prefix), prefix, got + queue, arrived, delivered)
    ensures HeaderTracks(decode, prefix + got, queue, arrived, delivered)
  {
    var head := prefix + got;
    var phase := AfterHeader(decode, head);
    ConcatAssociates(prefix, got, queue);
    CutConcat(head, queue);
    assert (head + queue)[4] == PROTOCOL_VERSION;
    if phase.Failed? {
      assert Rule(decode)(head + queue) == Bad(phase.code);
      FollowsFault(Rule(decode), head + queue, arrived, delivered);
    } else if phase.AwaitPrefix? {
      HeaderThenBody(decode, head, decode(head).value, [], queue);
      NilConcat(head);
      FollowsFrame(Rule(decode), head + queue, arrived, delivered);
      NilConcat(queue);
    }
  }

  lemma TracksBody(decode: Decoder, header: Header, taken: seq<byte>, body: seq<byte>, queue: seq<byte>,
                   arrived: seq<byte>, delivered: seq<Frame>)
    requires |body| == header.len
    requires Tracks(decode, AwaitBody(header), taken, body + queue, arrived, delivered)
    ensures Tracks(decode, AwaitPrefix, [], queue, arrived, delivered + [Frame(header, body)])
  {
    ConcatAssociates(taken, body, queue);
    CutConcat(taken + body, queue);
    HeaderThenBody(decode, taken, header, body, queue);
    FollowsFrame(Rule(decode), taken + body + queue, arrived, delivered);
    NilConcat(queue);
  }

  /** When no parked read can be served, the reader has said all the flat stream says. */
  lemma TracksIdle(decode: Decoder, phase: ReadPhase, taken: seq<byte>, queue: seq<byte>,
                   arrived: seq<byte>, delivered: seq<Frame>)
    requires Tracks(decode, phase, taken, queue, arrived, delivered)
    requires !phase.Failed? ==> |queue| < phase.Need()
    ensures Framer(Rule(decode))
    ensures Parse(Rule(decode), arrived).frames == delivered
    ensures Parse(Rule(decode), arrived).fault == if phase.Failed? then Some(phase.code) else None
  {
    if !phase.Failed? {
      if phase.AwaitBody? {
        CutConcat(taken, queue);
        assert (taken + queue)[4] == PROTOCOL_VERSION;
      }
      assert Rule(decode)(taken + queue) == More;
      FollowsIdle(Rule(decode), taken + queue, arrived, delivered);
    }
  }

  // ------------------------------------------------ the chunk queue

  /** What a read of `want` octets takes from the first chunk. */
  function Piece(head: seq<byte>, want: nat): seq<byte> { if |head| <= want then head else head[..want] }

  /** What it leaves of the queue. */
  function Behind(chunks: seq<seq<byte>>, want: nat): seq<seq<byte>>
    requires chunks != []
  {
    if |chunks[0]| <= want then chunks[1..] else [chunks[0][want..]] + chunks[1..]
  }

  lemma CutQueue(chunks: seq<seq<byte>>, want: nat)
    requires chunks != []
    ensures Flatten(chunks) == Piece(chunks[0], want) + Flatten(Behind(chunks, want))
  {
    var head, rest := chunks[0], chunks[1..];
    if |head| > want {
      assert head == head[..want] + head[want..];
      ConcatAssociates(head[..want], head[want..], Flatten(rest));
      CutConcat([head[want..]], rest);
    }
  }

  /** Copies `piece` to the place behind the first `off` octets. */
  method CopyInto(out: array<byte>, off: nat, piece: seq<byte>)
    requires off + |piece| <= out.Length
    modifies out
    ensures out[..off + |piece|] == old(out[..off]) + piece
  {
    forall k | 0 <= k < |piece| { out[off + k] := piece[k]; }
  }

  class FrameReader {
    const decode: Decoder
    var chunks: seq<seq<byte>>
    var buffered: nat
    var phase: ReadPhase

    /** The current frame's octets already taken, all that ever arrived, all handed out for it. */
    ghost var taken: seq<byte>
    ghost var arrived: seq<byte>
    ghost var delivered: seq<Frame>

    ghost predicate Consistent()
      reads this
    {
      && buffered == |Flatten(chunks)|
      && Tracks(decode, phase, taken, Flatten(chunks), arrived, delivered)
    }

    /** Consistent, and no parked read could be served from what is buffered. */
    ghost predicate Idle()
      reads this
    {
      Consistent() && (!phase.Failed? ==> buffered < phase.Need())
    }

    constructor (decode: Decoder)
      ensures Idle() && arrived == [] && delivered == [] && this.decode == decode
    {
      this.decode := decode;
      chunks, buffered, phase := [], 0, AwaitPrefix;
      taken, arrived, delivered := [], [], [];
      FramesAreDelimited(decode);
      assert Rule(decode)([]) == More;
    }

    /** Copies `n` octets out of the front chunks, splitting the last one touched. */
    method Take(n: nat) returns (out: array<byte>)
      requires buffered == |Flatten(chunks)| && n <= buffered
      modifies this`chunks, this`buffered
      ensures fresh(out) && out.Length == n
      ensures old(Flatten(chunks)) == out[..] + Flatten(chunks)
      ensures buffered == |Flatten(chunks)| == old(buffered) - n
    {
      out := new byte[n](_ => 0);
      var off := 0;
      while off < n
        invariant 0 <= off <= n == out.Length && buffered == old(buffered)
        invariant old(Flatten(chunks)) == out[..off] + Flatten(chunks)
        decreases n - off, |chunks|
      {
        var want := n - off;
        var piece := Piece(chunks[0], want);
        ghost var before := out[..off];
        CutQueue(chunks, want);
        CopyInto(out, off, piece);
        chunks := Behind(chunks, want);
        ConcatAssociates(before, piece, Flatten(chunks));
        off := off + |piece|;
      }
      buffered := buffered - n;
    }

    /** The prefix read is served. */
    method ResumePrefix()
      requires Consistent() && phase.AwaitPrefix? && phase.Need() <= buffered
      modifies this`chunks, this`buffered, this`phase, this`taken
      ensures Consistent() && buffered < old(buffered)
    {
      var out := Take(FROZEN_PREFIX_LEN);
      var prefix := out[..];
      TracksPrefix(decode, prefix, Flatten(chunks), arrived, delivered);
      if prefix[4] != PROTOCOL_VERSION {
        phase := Failed(UnsupportedVersion);
      } else {
        phase, taken := AwaitRemainder(prefix), prefix;
      }
    }

    /** The header octets are complete: a frame without a body is too. */
    method FinishHeader(head: seq<byte>) returns (frames: seq<Frame>)
      requires buffered == |Flatten(chunks)| && HeaderTracks(decode, head, Flatten(chunks), arrived, delivered)
      modifies this`phase, this`taken, this`delivered
      ensures Consistent() && delivered == old(delivered) + frames
    {
      var next := AfterHeader(decode, head);
      if next.AwaitPrefix? {
        frames := [Frame(decode(head).value, [])];
        phase, taken, delivered := next, [], delivered + frames;
      } else {
        frames := [];
        NilConcat(delivered);
        phase, taken := next, head;
      }
    }

    /** The rest of the header is served. */
    method ResumeRemainder() returns (frames: seq<Frame>)
      requires Consistent() && phase.AwaitRemainder? && phase.Need() <= buffered
      modifies this`chunks, this`buffered, this`phase, this`taken, this`delivered
      ensures Consistent() && buffered < old(buffered) && delivered == old(delivered) + frames
    {
      var out := Take(HEADER_LEN - FROZEN_PREFIX_LEN);
      var got := out[..];
      TracksRemainder(decode, phase.prefix, got, Flatten(chunks), arrived, delivered);
      frames := FinishHeader(phase.prefix + got);
    }

    /** The body is served, which completes the frame. */
    method ResumeBody() returns (frames: seq<Frame>)
      requires Consistent() && phase.AwaitBody? && phase.Need() <= buffered
      modifies this`chunks, this`buffered, this`phase, this`taken, this`delivered
      ensures Consistent() && buffered < old(buffered) && delivered == old(delivered) + frames
    {
      var out := Take(phase.header.len);
      TracksBody(decode, phase.header, taken, out[..], Flatten(chunks), arrived, delivered);
      frames := [Frame(phase.header, out[..])];
      phase, taken, delivered := AwaitPrefix, [], delivered + frames;
    }

    /** One served read: the continuation of the frame reader up to its next wait. */
    method Resume() returns (frames: seq<Frame>)
      requires Consistent() && !phase.Failed? && phase.Need() <= buffered
      modifies this`chunks, this`buffered, this`phase, this`taken, this`delivered
      ensures Consistent() && buffered < old(buffered) && delivered == old(delivered) + frames
    {
      frames := [];
      match phase
      case AwaitPrefix => ResumePrefix();
      case AwaitRemainder(_) => frames := ResumeRemainder();
      case AwaitBody(_) => frames := ResumeBody();
    }

    /** A data event: the octets queue up, whether or not a read is parked. */
    method Arrive(chunk: seq<byte>)
      requires Consistent()
      modifies this`chunks, this`buffered, this`arrived
      ensures Consistent() && arrived == old(arrived) + chunk && chunks == old(chunks) + [chunk]
    {
      FlattenSnoc(chunks, chunk);
      TracksArrival(decode, phase, taken, Flatten(chunks), arrived, delivered, chunk);
      chunks, buffered, arrived := chunks + [chunk], buffered + |chunk|, arrived + chunk;
    }

    /** A read asked for or parked: it is served when enough octets are queued, and waits otherwise. */
    method Serve() returns (frames: seq<Frame>)
      requires Consistent()
      modifies this`chunks, this`buffered, this`phase, this`taken, this`delivered
      ensures Consistent() && delivered == old(delivered) + frames
      ensures old(Idle()) ==> Idle() && frames == []
    {
      frames := [];
      if !phase.Failed? && phase.Need() <= buffered { frames := Resume(); }
    }

    /** Reads asked for one after the other until one has to wait. */
    method Drain() returns (frames: seq<Frame>)
      requires Consistent()
      modifies this`chunks, this`buffered, this`phase, this`taken, this`delivered
      ensures Idle() && delivered == old(delivered) + frames
    {
      frames := [];
      while !phase.Failed? && phase.Need() <= buffered
        invariant Consistent() && delivered == old(delivered) + frames
        decreases buffered
      {
        var more := Resume();
        ConcatAssociates(old(delivered), frames, more);
        frames := frames + more;
      }
    }

    /** A data event with a caller that always reads again. */
    method OnData(chunk: seq<byte>) returns (frames: seq<Frame>)
      requires Consistent()
      modifies this
      ensures Idle() && arrived == old(arrived) + chunk
      ensures delivered == old(delivered) + frames
    {
      Arrive(chunk);
      frames := Drain();
    }
  }

  // ------------------------------------------------ any interleaving of data and reads

  /** Data arrives, or the frame reader asks for its next octets. */
  datatype Event = Data(chunk: seq<byte>) | Ask

  function DataOf(events: seq<Event>): seq<byte> {
    if events == [] then []
    else
      var before, last := DataOf(events[..|events| - 1]), events[|events| - 1];
      if last.Data? then before + last.chunk else before
  }

  lemma DataSnoc(events: seq<Event>, i: nat)
    requires i < |events|
    ensures DataOf(events[..i + 1]) ==
            if events[i].Data? then DataOf(events[..i]) + events[i].chunk else DataOf(events[..i])
  {
    assert events[..i + 1][..i] == events[..i];
  }

  /** What a reader handed out is the beginning of what the flat stream holds. */
  lemma TracksPrefixOfStream(decode: Decoder, phase: ReadPhase, taken: seq<byte>, queue: seq<byte>,
                             arrived: seq<byte>, delivered: seq<Frame>)
    requires Tracks(decode, phase, taken, queue, arrived, delivered)
    ensures Framer(Rule(decode)) && delivered <= Parse(Rule(decode), arrived).frames
    ensures phase.Failed? ==>
              Parse(Rule(decode), arrived).frames == delivered && Parse(Rule(decode), arrived).fault == Some(phase.code)
  {
  }

  /**
   In every interleaving of data and reads, what has been handed out is the beginning
   of what the flat stream holds, a fault is the flat stream's, and once the reads have
   caught up nothing is missing.
   */
  method ReadInterleaved(decode: Decoder, events: seq<Event>)
    returns (frames: seq<Frame>, fault: Option<Code>, caughtUp: bool)
    ensures Framer(Rule(decode)) && frames <= Parse(Rule(decode), DataOf(events)).frames
    ensures fault.Some? ==> caughtUp
    ensures caughtUp ==>
              && frames == Parse(Rule(decode), DataOf(events)).frames
              && fault == Parse(Rule(decode), DataOf(events)).fault
  {
    var reader := new FrameReader(decode);
    frames := [];
    for i := 0 to |events|
      invariant fresh(reader) && reader.decode == decode && reader.Consistent()
      invariant reader.arrived == DataOf(events[..i]) && reader.delivered == frames
    {
      DataSnoc(events, i);
      match events[i]
      case Data(chunk) => reader.Arrive(chunk);
      case Ask =>
        var more := reader.Serve();
        frames := frames + more;
    }
    assert events[..|events|] == events;
    TracksPrefixOfStream(decode, reader.phase, reader.taken, Flatten(reader.chunks), reader.arrived, reader.delivered);
    fault := match reader.phase case Failed(code) => Some(code) case _ => None;
    caughtUp := reader.phase.Failed? || reader.buffered < reader.phase.Need();
    if caughtUp {
      TracksIdle(decode, reader.phase, reader.taken, Flatten(reader.chunks), reader.arrived, reader.delivered);
    }
  }

  /** A reader fed `chunks` in turn agrees with the flat stream, for any header decoder. */
  method ReadWith(decode: Decoder, chunks: seq<seq<byte>>) returns (frames: seq<Frame>, fault: Option<Code>)
    ensures Framer(Rule(decode))
    ensures frames == Parse(Rule(decode), Flatten(chunks)).frames
    ensures fault == Parse(Rule(decode), Flatten(chunks)).fault
  {
    var reader := new FrameReader(decode);
    frames := [];
    for i := 0 to |chunks|
      invariant fresh(reader) && reader.decode == decode && reader.Idle()
      invariant reader.arrived == Flatten(chunks[..i]) && reader.delivered == frames
    {
      FlattenPrefix(chunks, i);
      var more := reader.OnData(chunks[i]);
      frames := frames + more;
    }
    CutConcat(chunks, []);
    NilConcat(chunks);
    TracksIdle(decode, reader.phase, reader.taken, Flatten(reader.chunks), reader.arrived, reader.delivered);
    fault := match reader.phase case Failed(code) => Some(code) case _ => None;
  }

  /**
   However a stream is cut into data events, the frames handed out and the
   fault reported are those of the flat stream.
   */
  method ReadChunks(chunks: seq<seq<byte>>) returns (frames: seq<Frame>, fault: Option<Code>)
    ensures frames == ParseStream(Flatten(chunks)).frames
    ensures fault == ParseStream(Flatten(chunks)).fault
  {
    frames, fault := ReadWith(DecodeHeader, chunks);
  }

  /** Frames written by one peer arrive whole and in order, however the stream is cut. */
  method ReadWrittenFrames(sent: seq<Frame>, chunks: seq<seq<byte>>) returns (frames: seq<Frame>, fault: Option<Code>)
    requires forall f <- sent :: EncodeFrame(f).Ok?
    requires Flatten(chunks) == EncodeAll(sent)
    ensures frames == AllReceived(sent) && fault == None
  {
    EncodedFramesReadBack(sent);
    frames, fault := ReadChunks(chunks);
  }
}
