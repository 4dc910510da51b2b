/** The take stream's items depend on the bytes received, not on how they were cut
    into chunks, and frames decode to exactly what was framed. */
module TakeLaws {
  import opened Utf8
  import opened Take
  import opened Wrappers

  // --- A complete frame is not disturbed by what follows ---

  lemma {:induction false} LineEndStable(b: seq<Byte>, more: seq<Byte>)
    requires LineEnd(b) < |b|
    ensures LineEnd(b + more) == LineEnd(b)
  {
    if b[0] != LF {
      assert (b + more)[1..] == b[1..] + more;
      LineEndStable(b[1..], more);
    }
  }

  lemma FrameStable(format: Format, b: seq<Byte>, more: seq<Byte>)
    requires !FirstFrame(format, b).Partial?
    ensures FirstFrame(format, b + more) == FirstFrame(format, b)
  {
    match format {
      case Json =>
        LineEndStable(b, more);
        assert (b + more)[..LineEnd(b)] == b[..LineEnd(b)];
      case MessagePack =>
        assert BigEndian(b + more) == BigEndian(b);
        var len := BigEndian(b);
        if len > 0 {
          assert (b + more)[4..4 + len] == b[4..4 + len];
        }
    }
  }

  /** More bytes never change a record already complete, and decoding before they
      arrive only drops heartbeats that would be dropped anyway. */
  lemma {:induction false} NextStable<Job>(format: Format, parse: Parser<Job>, b: seq<Byte>, more: seq<Byte>)
    ensures var (d, rest) := Next(format, parse, b);
            if d.NeedMore? then Next(format, parse, b + more) == Next(format, parse, rest + more)
            else Next(format, parse, b + more) == (d, rest + more)
    decreases |b|
  {
    var f := FirstFrame(format, b);
    if !f.Partial? {
      FrameStable(format, b, more);
      assert (b + more)[f.size..] == b[f.size..] + more;
      if f.Heartbeat? {
        NextStable(format, parse, b[f.size..], more);
      }
    }
  }

  // --- One-shot decoding ---

  /** How the byte stream ends: cleanly, by failing, or not yet. */
  datatype Ending = Clean | Broken | Open

  /** Everything a whole byte string decodes to: jobs in order, then at most one error. */
  function OneShot<Job>(format: Format, parse: Parser<Job>, b: seq<Byte>, ending: Ending): (r: seq<Item<Job>>)
    ensures forall i :: 0 <= i < |r| - 1 ==> r[i].Ok?
    decreases |b|
  {
    var (d, rest) := Next(format, parse, b);
    match d
    case Got(job) => [Ok(job)] + OneShot(format, parse, rest, ending)
    case Bad => [Err(BadFrame)]
    case NeedMore =>
      match ending
      case Clean => if rest == [] then [] else [Err(IncompleteFrame)]
      case Broken => [Err(Transport)]
      case Open => []
  }

  // --- Polling to the end ---

  /** The bytes delivered before the inner stream ends or fails. */
  function Delivered(events: seq<Event>): seq<Byte> {
    if events == [] || events[0].Ends? || events[0].Fails? then []
    else (if events[0].Chunk? then events[0].bytes else []) + Delivered(events[1..])
  }

  function EndingOf(events: seq<Event>): Ending {
    if events == [] then Open
    else if events[0].Ends? then Clean
    else if events[0].Fails? then Broken
    else EndingOf(events[1..])
  }

  function Bytes(events: seq<Event>): nat {
    if events == [] then 0
    else (if events[0].Chunk? then |events[0].bytes| else 0) + Bytes(events[1..])
  }

  /** Each poll that is not the last consumes input. */
  lemma {:induction false} PollConsumes<Job>(format: Format, parse: Parser<Job>, s: Stream)
    ensures var (p, s') := PollStep(format, parse, s);
            && |s'.events| <= |s.events|
            && |s'.buffer| + Bytes(s'.events) <= |s.buffer| + Bytes(s.events)
            && (s.finished ==> s' == s && p == Ready(None))
            && (p.Ready? && p.item.Some? && p.item.value.Ok? ==>
                  |s'.buffer| + Bytes(s'.events) < |s.buffer| + Bytes(s.events) && !s'.finished)
            && (p.Ready? && (p.item.None? || p.item.value.Err?) ==> s'.finished)
            && (p.Pending? ==> !s'.finished && (s.events != [] ==> |s'.events| < |s.events|))
    decreases |s.events|
  {
    if !s.finished {
      var (d, rest) := Next(format, parse, s.buffer);
      if d.NeedMore? && s.events != [] && s.events[0].Chunk? {
        PollConsumes(format, parse, s.(buffer := rest + s.events[0].bytes, events := s.events[1..]));
      }
    }
  }

  /** The items of polling again and again, until the stream yields None or nothing more
      can arrive. */
  function Drained<Job>(format: Format, parse: Parser<Job>, s: Stream): seq<Item<Job>>
    decreases |s.buffer| + Bytes(s.events) + |s.events| + if s.finished then 0 else 1
  {
    PollConsumes(format, parse, s);
    var (p, s') := PollStep(format, parse, s);
    match p
    case Pending => if s.events == [] then [] else Drained(format, parse, s')
    case Ready(None) => []
    case Ready(Some(item)) =>
      if s.finished then [] else [item] + Drained(format, parse, s')
  }

  /** One poll, in terms of one-shot decoding. */
  lemma {:induction false} PollIsOneShot<Job>(format: Format, parse: Parser<Job>, s: Stream)
    requires !s.finished
    ensures var (p, s') := PollStep(format, parse, s);
            var all := OneShot(format, parse, s.buffer + Delivered(s.events), EndingOf(s.events));
            match p
            case Pending =>
              && all == OneShot(format, parse, s'.buffer + Delivered(s'.events), EndingOf(s'.events))
              && (s.events == [] ==> all == [])
            case Ready(None) => all == []
            case Ready(Some(Ok(job))) =>
              all == [Ok(job)] + OneShot(format, parse, s'.buffer + Delivered(s'.events), EndingOf(s'.events))
            case Ready(Some(Err(e))) => all == [Err(e)]
    decreases |s.events|
  {
    var (d, rest) := Next(format, parse, s.buffer);
    if !d.NeedMore? {
      NextStable(format, parse, s.buffer, Delivered(s.events));
    } else if s.events == [] || s.events[0].Ends? || s.events[0].Fails? {
      assert s.buffer + Delivered(s.events) == s.buffer;
      NextIdempotent(format, parse, s.buffer);
      assert rest + Delivered(s.events) == rest;
    } else {
      OneShotMovesOn(format, parse, s);
      if s.events[0].Chunk? {
        PollIsOneShot(format, parse, s.(buffer := rest + s.events[0].bytes, events := s.events[1..]));
      }
    }
  }

  /** Where more is needed, dropping heartbeats and taking the next chunk in changes
      nothing that is still to be decoded. */
  lemma OneShotMovesOn<Job>(format: Format, parse: Parser<Job>, s: Stream)
    requires Next(format, parse, s.buffer).0.NeedMore? && s.events != [] && (s.events[0].Chunk? || s.events[0].Pends?)
    ensures var rest := Next(format, parse, s.buffer).1;
            var next := if s.events[0].Chunk? then rest + s.events[0].bytes else rest;
            OneShot(format, parse, s.buffer + Delivered(s.events), EndingOf(s.events))
            == OneShot(format, parse, next + Delivered(s.events[1..]), EndingOf(s.events[1..]))
  {
    var rest, data := Next(format, parse, s.buffer).1, Delivered(s.events);
    NextStable(format, parse, s.buffer, data);
    SameNextSameOneShot(format, parse, s.buffer + data, rest + data, EndingOf(s.events));
    var next := if s.events[0].Chunk? then rest + s.events[0].bytes else rest;
    assert rest + data == next + Delivered(s.events[1..]);
  }

  lemma SameNextSameOneShot<Job>(format: Format, parse: Parser<Job>, a: seq<Byte>, b: seq<Byte>, ending: Ending)
    requires Next(format, parse, a) == Next(format, parse, b)
    ensures OneShot(format, parse, a, ending) == OneShot(format, parse, b, ending)
  {
  }

  /** What is left when more is needed holds no complete frame. */
  lemma {:induction false} NextIdempotent<Job>(format: Format, parse: Parser<Job>, b: seq<Byte>)
    ensures var (d, rest) := Next(format, parse, b); d.NeedMore? ==> Next(format, parse, rest) == (NeedMore, rest)
    decreases |b|
  {
    var f := FirstFrame(format, b);
    if f.Heartbeat? {
      NextIdempotent(format, parse, b[f.size..]);
    }
  }

  /** Polling to the end gives what decoding all delivered bytes at once gives. */
  lemma {:induction false} DrainedIsOneShot<Job>(format: Format, parse: Parser<Job>, s: Stream)
    requires !s.finished
    ensures Drained(format, parse, s) == OneShot(format, parse, s.buffer + Delivered(s.events), EndingOf(s.events))
    decreases |s.buffer| + Bytes(s.events) + |s.events|
  {
    hide PollStep, Next, OneShot, Delivered, EndingOf;
    PollConsumes(format, parse, s);
    PollIsOneShot(format, parse, s);
    var (p, s') := PollStep(format, parse, s);
    match p {
      case Pending =>
        if s.events != [] {
          DrainedIsOneShot(format, parse, s');
        }
      case Ready(None) =>
      case Ready(Some(item)) =>
        if item.Ok? {
          DrainedIsOneShot(format, parse, s');
        } else {
          PollConsumes(format, parse, s');
          assert Drained(format, parse, s') == [];
        }
    }
  }

  function Start(events: seq<Event>): Stream {
    Stream([], false, events)
  }

  /** Two ways of cutting the same bytes into chunks, with any number of empty chunks
      and pending polls, yield the same items. */
  lemma ChunkingIndependent<Job>(format: Format, parse: Parser<Job>, a: seq<Event>, b: seq<Event>)
    requires Delivered(a) == Delivered(b) && EndingOf(a) == EndingOf(b)
    ensures Drained(format, parse, Start(a)) == Drained(format, parse, Start(b))
    ensures Drained(format, parse, Start(a)) == OneShot(format, parse, Delivered(a), EndingOf(a))
  {
    DrainedIsOneShot(format, parse, Start(a));
    DrainedIsOneShot(format, parse, Start(b));
    assert [] + Delivered(a) == Delivered(a);
  }

  function After<Job>(format: Format, parse: Parser<Job>, s: Stream, polls: nat): Stream
    decreases polls
  {
    if polls == 0 then s else After(format, parse, PollStep(format, parse, s).1, polls - 1)
  }

  /** From the first None or error on, every poll gives None and touches nothing. */
  lemma {:induction false} NoneForever<Job>(format: Format, parse: Parser<Job>, s: Stream, polls: nat)
    requires var p := PollStep(format, parse, s).0; p.Ready? && (p.item.None? || p.item.value.Err?)
    ensures var s' := PollStep(format, parse, s).1;
            After(format, parse, s', polls) == s' && PollStep(format, parse, s') == (Ready(None), s')
  {
    PollConsumes(format, parse, s);
    var s' := PollStep(format, parse, s).1;
    PollConsumes(format, parse, s');
    if polls > 0 {
      NoneForever(format, parse, s, polls - 1);
    }
  }

  // --- Framing ---

  /** One thing a server writes: a heartbeat or a job, a line with CRLF or LF. */
  datatype Piece = Beat(space: seq<Byte>, crlf: bool) | Message(payload: seq<Byte>, crlf: bool)

  /** What each framing can carry, byte by byte: a heartbeat line is blanks, a job line
      has a byte that is not, holds no line feed and, sent with LF alone, does not end in
      a carriage return. */
  predicate Sendable(format: Format, p: Piece) {
    match format
    case Json =>
      if p.Beat? then
        forall i :: 0 <= i < |p.space| ==> p.space[i] in {0x20, 0x09, 0x0C, 0x0D}
      else
        && 0x0A !in p.payload && (!p.crlf ==> p.payload != [] && p.payload[|p.payload| - 1] != 0x0D)
        && exists i :: 0 <= i < |p.payload| && p.payload[i] !in {0x20, 0x09, 0x0A, 0x0C, 0x0D}
    case MessagePack => p.Message? ==> 0 < |p.payload| < 0x1_0000_0000
  }

  /** Bytes that begin a frame without ending it. */
  predicate CutShort(format: Format, tail: seq<Byte>) {
    match format
    case Json => 0x0A !in tail
    case MessagePack =>
      |tail| < 4 ||
      (var len: int :=
         tail[0] as int * 0x100_0000 + tail[1] as int * 0x1_0000 + tail[2] as int * 0x100 + tail[3] as int;
       0 < len && |tail| < 4 + len)
  }

  function Body(p: Piece): seq<Byte> {
    if p.Beat? then p.space else p.payload
  }

  /** `u32::to_be_bytes`. */
  function ToBigEndian(n: nat): (b: seq<Byte>)
    requires n < 0x1_0000_0000
    ensures |b| == 4 && BigEndian(b) == n
  {
    var high, low := n / 0x1_0000, n % 0x1_0000;
    [high / 0x100, high % 0x100, low / 0x100, low % 0x100]
  }

  function Encoded(format: Format, p: Piece): seq<Byte>
    requires Sendable(format, p)
  {
    match format
    case Json => Body(p) + (if p.crlf then [0x0D, 0x0A] else [0x0A])
    case MessagePack => if p.Beat? then [0, 0, 0, 0] else ToBigEndian(|p.payload|) + p.payload
  }

  lemma {:induction false} LineEndAt(body: seq<Byte>)
    requires LF !in body
    ensures LineEnd(body + [LF]) == |body|
  {
    if body != [] {
      assert (body + [LF])[1..] == body[1..] + [LF];
      LineEndAt(body[1..]);
    }
  }

  lemma RecordFrames(header: seq<Byte>, payload: seq<Byte>)
    requires |header| == 4 && BigEndian(header) == |payload| > 0
    ensures FirstRecord(header + payload) == Payload(payload, 4 + |payload|)
  {
    var e := header + payload;
    assert e[0] == header[0] && e[1] == header[1] && e[2] == header[2] && e[3] == header[3];
    assert e[4..4 + |payload|] == payload;
  }

  lemma LineFrames(p: Piece)
    requires Sendable(Json, p)
    ensures FirstLine(Encoded(Json, p))
         == if p.Beat? then Heartbeat(|Encoded(Json, p)|) else Payload(p.payload, |Encoded(Json, p)|)
  {
    var body := Body(p);
    var line := if p.crlf then body + [CR] else body;
    var e := Encoded(Json, p);
    assert e == line + [LF];
    LineEndAt(line);
    assert e[..|line|] == line;
    hide LineEnd;
    if p.crlf {
      assert StripCr(line) == body;
    }
    BodyKind(p);
  }

  lemma BodyKind(p: Piece)
    requires Sendable(Json, p)
    ensures Blank(Body(p)) <==> p.Beat?
  {
  }

  /** The framer's output is one frame that the decoder reads back whole. */
  lemma PieceFrames(format: Format, p: Piece)
    requires Sendable(format, p)
    ensures FirstFrame(format, Encoded(format, p))
         == if p.Beat? then Heartbeat(|Encoded(format, p)|) else Payload(p.payload, |Encoded(format, p)|)
  {
    hide FirstLine;
    match format {
      case Json => LineFrames(p);
      case MessagePack =>
        if p.Message? {
          hide ToBigEndian, FirstRecord;
          RecordFrames(ToBigEndian(|p.payload|), p.payload);
        }
    }
  }

  predicate AllSendable(format: Format, ps: seq<Piece>) {
    forall i :: 0 <= i < |ps| ==> Sendable(format, ps[i])
  }

  function EncodedAll(format: Format, ps: seq<Piece>): seq<Byte>
    requires AllSendable(format, ps)
  {
    if ps == [] then [] else Encoded(format, ps[0]) + EncodedAll(format, ps[1..])
  }

  function Payloads(ps: seq<Piece>): seq<seq<Byte>> {
    if ps == [] then [] else (if ps[0].Message? then [ps[0].payload] else []) + Payloads(ps[1..])
  }

  /** How the items end where the bytes do. */
  function Closing<Job>(tail: seq<Byte>, ending: Ending): seq<Item<Job>> {
    match ending
    case Clean => if tail == [] then [] else [Err(IncompleteFrame)]
    case Broken => [Err(Transport)]
    case Open => []
  }

  /** What a list of payloads decodes to: jobs up to the first that does not parse, or
      all of them and then how the bytes end. */
  function Parsed<Job>(format: Format, parse: Parser<Job>, payloads: seq<seq<Byte>>, closing: seq<Item<Job>>): seq<Item<Job>> {
    if payloads == [] then closing
    else
      match parse(format, payloads[0])
      case Some(job) => [Ok(job)] + Parsed(format, parse, payloads[1..], closing)
      case None => [Err(BadFrame)]
  }

  lemma CutShortIsPartial(format: Format, tail: seq<Byte>)
    requires CutShort(format, tail)
    ensures FirstFrame(format, tail).Partial?
  {
  }

  lemma EncodedFront(format: Format, ps: seq<Piece>, tail: seq<Byte>)
    requires AllSendable(format, ps) && ps != []
    ensures AllSendable(format, ps[1..])
    ensures EncodedAll(format, ps) + tail == Encoded(format, ps[0]) + (EncodedAll(format, ps[1..]) + tail)
  {
  }

  lemma PayloadsFront(ps: seq<Piece>)
    requires ps != []
    ensures if ps[0].Message? then Payloads(ps) != [] && Payloads(ps)[0] == ps[0].payload && Payloads(ps)[1..] == Payloads(ps[1..])
            else Payloads(ps) == Payloads(ps[1..])
  {
  }

  lemma OneTail<Job>(format: Format, parse: Parser<Job>, tail: seq<Byte>, ending: Ending)
    requires CutShort(format, tail)
    ensures OneShot(format, parse, tail, ending) == Closing(tail, ending)
  {
    CutShortIsPartial(format, tail);
  }

  lemma OneFrame<Job>(format: Format, parse: Parser<Job>, p: Piece, rest: seq<Byte>, ending: Ending)
    requires Sendable(format, p)
    ensures var whole := OneShot(format, parse, Encoded(format, p) + rest, ending);
            if p.Beat? then whole == OneShot(format, parse, rest, ending)
            else
              match parse(format, p.payload)
              case Some(job) => whole == [Ok(job)] + OneShot(format, parse, rest, ending)
              case None => whole == [Err(BadFrame)]
  {
    var e := Encoded(format, p);
    PieceFrames(format, p);
    FrameStable(format, e, rest);
    assert (e + rest)[|e|..] == rest;
    hide FirstFrame, Encoded, Sendable;
    if p.Beat? {
      SameNextSameOneShot(format, parse, e + rest, rest, ending);
    }
  }

  /** Framed payloads, with heartbeats anywhere and either line ending, decode to exactly
      those payloads; a frame cut short after them is an error only if the bytes end. */
  lemma {:induction false} FrameRoundTrip<Job>(format: Format, parse: Parser<Job>, ps: seq<Piece>, tail: seq<Byte>, ending: Ending)
    requires AllSendable(format, ps) && CutShort(format, tail)
    ensures OneShot(format, parse, EncodedAll(format, ps) + tail, ending)
         == Parsed(format, parse, Payloads(ps), Closing(tail, ending))
    decreases |ps|
  {
    if ps == [] {
      assert [] + tail == tail;
      OneTail(format, parse, tail, ending);
    } else {
      assert AllSendable(format, ps[1..]);
      var rest := EncodedAll(format, ps[1..]) + tail;
      hide OneShot, Encoded, CutShort, Closing, Sendable;
      OneFrame(format, parse, ps[0], rest, ending);
      EncodedFront(format, ps, tail);
      FrameRoundTrip(format, parse, ps[1..], tail, ending);
      PayloadsFront(ps);
    }
  }
}
