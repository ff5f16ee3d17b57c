/**
 The decoder of Docker's multiplexed log stream. Chunks of the transport align with nothing:
 frames span chunks, and lines of events span frames.
 */
module DockerFrames {
  import opened Prelude

  newtype Byte = x: int | 0 <= x < 256

  type Bytes = seq<Byte>

  const MAX_LOG_BYTES: nat := 131072
  const NEWLINE: Byte := 10

  /** The decoder between two chunks. */
  datatype State = State(buffer: Bytes, line: Bytes)

  datatype Outcome<+E> = Failed | Fed(state: State, events: seq<E>)

  /** The bytes that `bytes.strip` removes. */
  predicate IsSpace(b: Byte) {
    b == 32 || 9 <= b <= 13
  }

  predicate IsBlank(line: Bytes) {
    forall i :: 0 <= i < |line| ==> IsSpace(line[i])
  }

  /** The first newline, or the length. */
  function FirstNewline(s: Bytes): (n: nat)
    ensures n <= |s| && (n < |s| ==> s[n] == NEWLINE)
    ensures forall i :: 0 <= i < n ==> s[i] != NEWLINE
  {
    if s == [] || s[0] == NEWLINE then 0 else 1 + FirstNewline(s[1..])
  }

  predicate HasNewline(s: Bytes) {
    FirstNewline(s) < |s|
  }

  predicate ValidHeader(s: Bytes)
    requires |s| >= 8
  {
    s[0] in {1, 2} && s[1..4] == [0, 0, 0] && FrameSize(s) <= MAX_LOG_BYTES
  }

  /** The big-endian length of the frame whose header is at the front. */
  function FrameSize(s: Bytes): nat
    requires |s| >= 8
  {
    ((s[4] as int * 256 + s[5] as int) * 256 + s[6] as int) * 256 + s[7] as int
  }

  // --------------------------------------------------------------- one feed

  /** Splitting the accumulated line: every complete line becomes an event or is blank. */
  function Lines<E>(parse: Bytes -> Option<E>, line: Bytes): Outcome<E>
    decreases |line|
  {
    if !HasNewline(line) then Fed(State([], line), [])
    else
      var n := FirstNewline(line);
      var rest := Lines(parse, line[n + 1..]);
      if IsBlank(line[..n]) then rest
      else if parse(line[..n]).None? || rest.Failed? then Failed
      else Fed(rest.state, [parse(line[..n]).value] + rest.events)
  }

  /** Taking every complete frame off the buffer. */
  function Drain<E>(parse: Bytes -> Option<E>, s: State): Outcome<E>
    decreases |s.buffer|
  {
    if |s.buffer| < 8 then Fed(s, [])
    else if !ValidHeader(s.buffer) then Failed
    else
      var size := FrameSize(s.buffer);
      if |s.buffer| < 8 + size then Fed(s, [])
      else if s.buffer[0] == 2 then Drain(parse, State(s.buffer[8 + size..], s.line))
      else
        var line := s.line + s.buffer[8..8 + size];
        if |line| > MAX_LOG_BYTES then Failed
        else
          var read := Lines(parse, line);
          if read.Failed? then Failed
          else Append(read.events, Drain(parse, State(s.buffer[8 + size..], read.state.line)))
  }

  function Append<E>(events: seq<E>, o: Outcome<E>): Outcome<E> {
    if o.Failed? then Failed else Fed(o.state, events + o.events)
  }

  function FeedChunk<E>(parse: Bytes -> Option<E>, s: State, data: Bytes): Outcome<E> {
    Drain(parse, State(s.buffer + data, s.line))
  }

  /** Feeding chunk after chunk. */
  function FeedAll<E>(parse: Bytes -> Option<E>, s: State, chunks: seq<Bytes>): Outcome<E>
    decreases |chunks|
  {
    if chunks == [] then Fed(s, [])
    else
      var first := FeedChunk(parse, s, chunks[0]);
      if first.Failed? then Failed else Append(first.events, FeedAll(parse, first.state, chunks[1..]))
  }

  function Flatten<T>(xs: seq<seq<T>>): seq<T> {
    if xs == [] then [] else xs[0] + Flatten(xs[1..])
  }

  const START := State([], [])

  // ------------------------------------------------------------------ the class

  class Decoder<E> {
    const parse: Bytes -> Option<E>
    var buffer: Bytes
    var line: Bytes

    constructor (parse: Bytes -> Option<E>)
      ensures this.parse == parse && State(buffer, line) == START
    {
      this.parse := parse;
      buffer, line := [], [];
    }

    /** The inner loop: events of the complete lines; None where the code raises. */
    method TakeLines() returns (events: Option<seq<E>>)
      modifies this`line
      ensures events.None? <==> Lines(parse, old(line)).Failed?
      ensures events.Some? ==> Lines(parse, old(line)) == Fed(State([], line), events.value)
    {
      var taken := [];
      while HasNewline(line)
        invariant Lines(parse, old(line)) == Append(taken, Lines(parse, line))
        decreases |line|
      {
        var n := FirstNewline(line);
        var text := line[..n];
        line := line[n + 1..];
        if !IsBlank(text) {
          var event := parse(text);
          if event.None? {
            return None;
          }
          taken := taken + [event.value];
        }
      }
      return Some(taken);
    }

    /** `feed`. */
    method Feed(data: Bytes) returns (events: Option<seq<E>>)
      modifies this
      ensures var o := FeedChunk(parse, old(State(buffer, line)), data);
        (events.None? <==> o.Failed?) && (events.Some? ==> o == Fed(State(buffer, line), events.value))
    {
      buffer := buffer + data;
      var taken := [];
      while |buffer| >= 8
        invariant FeedChunk(parse, old(State(buffer, line)), data) == Append(taken, Drain(parse, State(buffer, line)))
        decreases |buffer|
      {
        var stream, size := buffer[0], FrameSize(buffer);
        if stream !in {1, 2} || buffer[1..4] != [0, 0, 0] || size > MAX_LOG_BYTES {
          return None;
        }
        if |buffer| < 8 + size {
          break;
        }
        ghost var before := State(buffer, line);
        var frame := buffer[8..8 + size];
        buffer := buffer[8 + size..];
        if stream == 2 {
          continue;
        }
        line := line + frame;
        if |line| > MAX_LOG_BYTES {
          return None;
        }
        var read := TakeLines();
        if read.None? {
          return None;
        }
        AppendTwice(taken, read.value, Drain(parse, State(buffer, line)));
        assert Drain(parse, before) == Append(read.value, Drain(parse, State(buffer, line)));
        taken := taken + read.value;
      }
      return Some(taken);
    }
  }

  lemma AppendTwice<E>(a: seq<E>, b: seq<E>, o: Outcome<E>)
    ensures Append(a, Append(b, o)) == Append(a + b, o)
  {
    if o.Fed? {
      assert a + (b + o.events) == a + b + o.events;
    }
  }
}
