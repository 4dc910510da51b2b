/** The streaming take decoders and their poll loop (zizq/src/take.rs). Decoding one
    frame's bytes into a job is a parameter. */
module Take {
  import opened Utf8
  import opened Wrappers

  datatype Format = Json | MessagePack

  type Parser<!Job> = (Format, seq<Byte>) -> Option<Job>

  datatype Failure = BadFrame | Transport | IncompleteFrame

  datatype Item<+Job> = Ok(job: Job) | Err(failure: Failure)

  const LF: Byte := 0x0A
  const CR: Byte := 0x0D

  // --- One frame ---

  /** The first frame of a buffer and how many bytes it takes. */
  datatype Framed = Partial | Heartbeat(size: nat) | Payload(bytes: seq<Byte>, size: nat)

  /** Rust's `u8::is_ascii_whitespace`: a vertical tab is not one. */
  predicate IsSpace(b: Byte) {
    b == 0x20 || b == 0x09 || b == LF || b == 0x0C || b == CR
  }

  predicate Blank(line: seq<Byte>) {
    forall i :: 0 <= i < |line| ==> IsSpace(line[i])
  }

  /** The index of the first line feed, or the length if there is none. */
  function LineEnd(buffer: seq<Byte>): (n: nat)
    ensures n <= |buffer|
    ensures n < |buffer| ==> buffer[n] == LF
    ensures forall i :: 0 <= i < n ==> buffer[i] != LF
  {
    if buffer == [] || buffer[0] == LF then 0 else 1 + LineEnd(buffer[1..])
  }

  function StripCr(line: seq<Byte>): seq<Byte> {
    if line != [] && line[|line| - 1] == CR then line[..|line| - 1] else line
  }

  function FirstLine(buffer: seq<Byte>): Framed {
    var n := LineEnd(buffer);
    if n == |buffer| then Partial
    else
      var line := StripCr(buffer[..n]);
      if Blank(line) then Heartbeat(n + 1) else Payload(line, n + 1)
  }

  /** `u32::from_be_bytes`. */
  function BigEndian(b: seq<Byte>): nat
    requires |b| >= 4
  {
    (b[0] as int) * 0x100_0000 + (b[1] as int) * 0x1_0000 + (b[2] as int) * 0x100 + b[3] as int
  }

  function FirstRecord(buffer: seq<Byte>): Framed {
    if |buffer| < 4 then Partial
    else
      var len := BigEndian(buffer);
      if len == 0 then Heartbeat(4)
      else if |buffer| < 4 + len then Partial
      else Payload(buffer[4..4 + len], 4 + len)
  }

  function FirstFrame(format: Format, buffer: seq<Byte>): (f: Framed)
    ensures !f.Partial? ==> 0 < f.size <= |buffer|
  {
    match format
    case Json => FirstLine(buffer)
    case MessagePack => FirstRecord(buffer)
  }

  // --- Decoding from a buffer ---

  datatype Decoded<+Job> = Got(job: Job) | Bad | NeedMore

  /** The next record, heartbeats skipped, and what is left of the buffer. */
  function Next<Job>(format: Format, parse: Parser<Job>, buffer: seq<Byte>): (r: (Decoded<Job>, seq<Byte>))
    ensures |r.1| <= |buffer| && (!r.0.NeedMore? ==> |r.1| < |buffer|)
    decreases |buffer|
  {
    match FirstFrame(format, buffer)
    case Partial => (NeedMore, buffer)
    case Heartbeat(n) => Next(format, parse, buffer[n..])
    case Payload(bytes, n) =>
      match parse(format, bytes)
      case Some(job) => (Got(job), buffer[n..])
      case None => (Bad, buffer[n..])
  }

  class StreamDecoder<Job(!new)> {
    const format: Format
    const parse: Parser<Job>
    var buffer: seq<Byte>

    constructor (format: Format, parse: Parser<Job>)
      ensures this.format == format && this.parse == parse && buffer == []
    {
      this.format := format;
      this.parse := parse;
      buffer := [];
    }

    method Feed(chunk: seq<Byte>)
      modifies this
      ensures buffer == old(buffer) + chunk
    {
      buffer := buffer + chunk;
    }

    /** Takes the first `n` bytes off the buffer. */
    method SplitTo(n: nat) returns (head: seq<Byte>)
      requires n <= |buffer|
      modifies this
      ensures head == old(buffer)[..n] && buffer == old(buffer)[n..]
    {
      head := buffer[..n];
      buffer := buffer[n..];
    }

    method DecodeNdjson() returns (r: Decoded<Job>)
      requires format == Json
      modifies this
      ensures (r, buffer) == Next(Json, parse, old(buffer))
    {
      while true
        invariant Next(Json, parse, buffer) == Next(Json, parse, old(buffer))
        decreases |buffer|
      {
        var nl := Position();
        if nl == |buffer| {
          return NeedMore;
        }
        ghost var whole := buffer;
        var lineBytes := SplitTo(nl + 1);
        var line := lineBytes[..nl];
        assert line == whole[..nl];
        if line != [] && line[|line| - 1] == CR {
          line := line[..|line| - 1];
        }
        assert FirstFrame(Json, whole) == if Blank(line) then Heartbeat(nl + 1) else Payload(line, nl + 1);
        if Blank(line) {
          continue;
        }
        match parse(Json, line) {
          case Some(job) => return Got(job);
          case None => return Bad;
        }
      }
    }

    /** `buffer.iter().position(..)` for a line feed. */
    method Position() returns (n: nat)
      ensures n == LineEnd(buffer)
    {
      n := 0;
      while n < |buffer| && buffer[n] != LF
        invariant n <= |buffer| && n + LineEnd(buffer[n..]) == LineEnd(buffer)
      {
        assert buffer[n..][1..] == buffer[n + 1..];
        n := n + 1;
      }
    }

    method DecodeMsgpack() returns (r: Decoded<Job>)
      requires format == MessagePack
      modifies this
      ensures (r, buffer) == Next(MessagePack, parse, old(buffer))
    {
      while true
        invariant Next(MessagePack, parse, buffer) == Next(MessagePack, parse, old(buffer))
        decreases |buffer|
      {
        if |buffer| < 4 {
          return NeedMore;
        }
        var len := BigEndian(buffer);
        if len == 0 {
          var _ := SplitTo(4);
          continue;
        }
        if |buffer| < 4 + len {
          return NeedMore;
        }
        ghost var whole := buffer;
        var header := SplitTo(4);
        var payload := SplitTo(len);
        assert payload == whole[4..4 + len] && buffer == whole[4 + len..];
        match parse(MessagePack, payload) {
          case Some(job) => return Got(job);
          case None => return Bad;
        }
      }
    }

    method Decode() returns (r: Decoded<Job>)
      modifies this
      ensures (r, buffer) == Next(format, parse, old(buffer))
    {
      match format {
        case Json => r := DecodeNdjson();
        case MessagePack => r := DecodeMsgpack();
      }
    }

    /** Whatever is left at the end of the body is a partial frame. */
    method Finalize() returns (failure: Option<Failure>)
      modifies this
      ensures buffer == []
      ensures failure == if old(buffer) == [] then None else Some(IncompleteFrame)
    {
      if buffer == [] {
        return None;
      }
      buffer := [];
      failure := Some(IncompleteFrame);
    }
  }

  // --- The poll loop ---

  /** What polling the inner byte stream gives. */
  datatype Event = Chunk(bytes: seq<Byte>) | Pends | Fails | Ends

  datatype Poll<+Job> = Pending | Ready(item: Option<Item<Job>>)

  /** `events` is what the inner stream will answer; past its end it stays pending. */
  datatype Stream = Stream(buffer: seq<Byte>, finished: bool, events: seq<Event>)

  function PollStep<Job>(format: Format, parse: Parser<Job>, s: Stream): (r: (Poll<Job>, Stream))
    decreases |s.events|
  {
    if s.finished then (Ready(None), s)
    else
      var (d, rest) := Next(format, parse, s.buffer);
      match d
      case Got(job) => (Ready(Some(Ok(job))), s.(buffer := rest))
      case Bad => (Ready(Some(Err(BadFrame))), s.(buffer := rest, finished := true))
      case NeedMore =>
        if s.events == [] then (Pending, s.(buffer := rest))
        else
          match s.events[0]
          case Chunk(bytes) => PollStep(format, parse, s.(buffer := rest + bytes, events := s.events[1..]))
          case Pends => (Pending, s.(buffer := rest, events := s.events[1..]))
          case Fails =>
            (Ready(Some(Err(Transport))), Stream(rest, true, s.events[1..]))
          case Ends =>
            (Ready(if rest == [] then None else Some(Err(IncompleteFrame))), Stream([], true, s.events[1..]))
  }

  class TakeStream<Job(!new)> {
    var inner: seq<Event>
    const decoder: StreamDecoder<Job>
    var finished: bool

    constructor (format: Format, parse: Parser<Job>, inner: seq<Event>)
      ensures fresh(decoder) && decoder.format == format && decoder.parse == parse
      ensures State() == Stream([], false, inner)
    {
      this.inner := inner;
      decoder := new StreamDecoder(format, parse);
      finished := false;
    }

    ghost function State(): Stream
      reads this, decoder
    {
      Stream(decoder.buffer, finished, inner)
    }

    method PollNext() returns (p: Poll<Job>)
      modifies this, decoder
      ensures (p, State()) == PollStep(decoder.format, decoder.parse, old(State()))
    {
      while true
        invariant PollStep(decoder.format, decoder.parse, State()) == PollStep(decoder.format, decoder.parse, old(State()))
        decreases |inner|
      {
        if finished {
          return Ready(None);
        }
        var d := decoder.Decode();
        match d {
          case Got(job) => return Ready(Some(Ok(job)));
          case Bad =>
            finished := true;
            return Ready(Some(Err(BadFrame)));
          case NeedMore =>
        }
        if inner == [] {
          return Pending;
        }
        var event := inner[0];
        inner := inner[1..];
        match event {
          case Chunk(bytes) => decoder.Feed(bytes);
          case Fails =>
            finished := true;
            return Ready(Some(Err(Transport)));
          case Ends =>
            finished := true;
            var failure := decoder.Finalize();
            return Ready(if failure.Some? then Some(Err(failure.value)) else None);
          case Pends => return Pending;
        }
      }
    }
  }
}
