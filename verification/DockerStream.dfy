/**
 What the decoder does to a whole stream: how the transport cuts it never matters, and the
 events are the nonblank lines of the concatenated standard output.
 */
module DockerStream {
  import opened Prelude
  import opened DockerFrames

  // ------------------------------------------------------------- chunk independence

  /** What is left between two feeds: no complete frame, no complete line, a bounded line. */
  ghost predicate Resting(s: State) {
    && !HasNewline(s.line) && |s.line| <= MAX_LOG_BYTES
    && (|s.buffer| >= 8 ==> ValidHeader(s.buffer) && |s.buffer| < 8 + FrameSize(s.buffer))
  }

  lemma {:induction false} LinesRest<E>(parse: Bytes -> Option<E>, line: Bytes)
    requires Lines(parse, line).Fed?
    ensures Lines(parse, line).state.buffer == [] && !HasNewline(Lines(parse, line).state.line)
    ensures |Lines(parse, line).state.line| <= |line|
    decreases |line|
  {
    if HasNewline(line) {
      LinesRest(parse, line[FirstNewline(line) + 1..]);
    }
  }

  /** After every successful feed the partial line holds no newline and is within its bound. */
  lemma {:induction false} DrainRests<E>(parse: Bytes -> Option<E>, s: State)
    requires !HasNewline(s.line) && |s.line| <= MAX_LOG_BYTES
    requires Drain(parse, s).Fed?
    ensures Resting(Drain(parse, s).state)
    decreases |s.buffer|
  {
    if |s.buffer| >= 8 && |s.buffer| >= 8 + FrameSize(s.buffer) {
      var rest := s.buffer[8 + FrameSize(s.buffer)..];
      if s.buffer[0] == 2 {
        DrainRests(parse, State(rest, s.line));
      } else {
        var line := s.line + s.buffer[8..8 + FrameSize(s.buffer)];
        LinesRest(parse, line);
        DrainRests(parse, State(rest, Lines(parse, line).state.line));
      }
    }
  }

  /** Bytes that arrive later continue exactly where the earlier ones stopped. */
  lemma {:induction false} DrainContinues<E>(parse: Bytes -> Option<E>, s: State, more: Bytes)
    ensures Drain(parse, s).Failed? ==> Drain(parse, State(s.buffer + more, s.line)).Failed?
    ensures Drain(parse, s).Fed? ==>
      Drain(parse, State(s.buffer + more, s.line))
      == Append(Drain(parse, s).events, FeedChunk(parse, Drain(parse, s).state, more))
    decreases |s.buffer|
  {
    var all := s.buffer + more;
    if |s.buffer| >= 8 {
      assert ValidHeader(all) <==> ValidHeader(s.buffer) by {
        assert all[1..4] == s.buffer[1..4];
      }
      var size := FrameSize(s.buffer);
      if ValidHeader(s.buffer) && |s.buffer| >= 8 + size {
        var rest := s.buffer[8 + size..];
        assert all[8 + size..] == rest + more;
        if s.buffer[0] == 2 {
          DrainContinues(parse, State(rest, s.line), more);
        } else {
          assert all[8..8 + size] == s.buffer[8..8 + size];
          var line := s.line + s.buffer[8..8 + size];
          var read := Lines(parse, line);
          if |line| <= MAX_LOG_BYTES && read.Fed? {
            DrainContinues(parse, State(rest, read.state.line), more);
            var tail := Drain(parse, State(rest, read.state.line));
            if tail.Fed? {
              AppendTwice(read.events, tail.events, FeedChunk(parse, tail.state, more));
            }
          }
        }
      }
    }
  }

  /** Cutting a stream into chunks is as feeding it at once: same events, same buffers, or both raise. */
  lemma {:induction false} ChunksDoNotMatter<E>(parse: Bytes -> Option<E>, s: State, chunks: seq<Bytes>)
    requires Resting(s)
    ensures FeedAll(parse, s, chunks) == FeedChunk(parse, s, Flatten(chunks))
    decreases |chunks|
  {
    if chunks == [] {
      assert s.buffer + [] == s.buffer;
    } else {
      var first := FeedChunk(parse, s, chunks[0]);
      assert s.buffer + Flatten(chunks) == (s.buffer + chunks[0]) + Flatten(chunks[1..]);
      DrainContinues(parse, State(s.buffer + chunks[0], s.line), Flatten(chunks[1..]));
      if first.Fed? {
        DrainRests(parse, State(s.buffer + chunks[0], s.line));
        ChunksDoNotMatter(parse, first.state, chunks[1..]);
      }
    }
  }

  /** Any two ways of cutting the same stream agree, and what they leave is bounded. */
  lemma AnyTwoCutsAgree<E>(parse: Bytes -> Option<E>, a: seq<Bytes>, b: seq<Bytes>)
    requires Flatten(a) == Flatten(b)
    ensures FeedAll(parse, START, a) == FeedAll(parse, START, b)
    ensures FeedAll(parse, START, a).Fed? ==> Resting(FeedAll(parse, START, a).state)
  {
    ChunksDoNotMatter(parse, START, a);
    ChunksDoNotMatter(parse, START, b);
    if FeedAll(parse, START, a).Fed? {
      DrainRests(parse, State(START.buffer + Flatten(a), START.line));
    }
  }

  // -------------------------------------------------------------- the reference

  datatype Frame = Frame(stdout: bool, payload: Bytes)

  /** A byte string read as frames: all complete ones, and what is left of the last one. */
  datatype Reading = BadHeader | Read(frames: seq<Frame>, rest: Bytes)

  function Frames(s: Bytes): Reading
    decreases |s|
  {
    if |s| < 8 then Read([], s)
    else if !ValidHeader(s) then BadHeader
    else if |s| < 8 + FrameSize(s) then Read([], s)
    else
      match Frames(s[8 + FrameSize(s)..])
      case BadHeader => BadHeader
      case Read(frames, rest) => Read([Frame(s[0] == 1, s[8..8 + FrameSize(s)])] + frames, rest)
  }

  /** Standard output: the payloads of its frames, joined. */
  function Stdout(fs: seq<Frame>): Bytes {
    if fs == [] then [] else (if fs[0].stdout then fs[0].payload else []) + Stdout(fs[1..])
  }

  /** The lines that end in a newline. */
  function CompleteLines(text: Bytes): seq<Bytes>
    decreases |text|
  {
    if !HasNewline(text) then [] else [text[..FirstNewline(text)]] + CompleteLines(text[FirstNewline(text) + 1..])
  }

  /** What follows the last newline. */
  function LastPart(text: Bytes): Bytes
    decreases |text|
  {
    if !HasNewline(text) then text else LastPart(text[FirstNewline(text) + 1..])
  }

  /** The events of the nonblank lines, if each of them is one. */
  function Events<E>(parse: Bytes -> Option<E>, lines: seq<Bytes>): Option<seq<E>> {
    if lines == [] then Some([])
    else Join(EventOf(parse, lines[0]), Events(parse, lines[1..]))
  }

  function EventOf<E>(parse: Bytes -> Option<E>, line: Bytes): Option<seq<E>> {
    if IsBlank(line) then Some([]) else if parse(line).None? then None else Some([parse(line).value])
  }

  function Join<E>(a: Option<seq<E>>, b: Option<seq<E>>): Option<seq<E>> {
    if a.None? || b.None? then None else Some(a.value + b.value)
  }

  /** No frame of standard output makes the unfinished line before it too long. */
  predicate LinesFit(text: Bytes, fs: seq<Frame>)
    decreases |fs|
  {
    fs == []
    || if !fs[0].stdout then LinesFit(text, fs[1..])
       else |LastPart(text)| + |fs[0].payload| <= MAX_LOG_BYTES && LinesFit(text + fs[0].payload, fs[1..])
  }

  /** What a decoder with an unfinished line should make of a stream, without any loop over chunks or buffers. */
  function Expected<E>(parse: Bytes -> Option<E>, line: Bytes, reading: Reading): Outcome<E> {
    if reading.BadHeader? || !LinesFit(line, reading.frames) then Failed
    else
      var text := line + Stdout(reading.frames);
      match Events(parse, CompleteLines(text))
      case None => Failed
      case Some(events) => Fed(State(reading.rest, LastPart(text)), events)
  }

  // -------------------------------------------------------------- lines of joined texts

  lemma {:induction false} NewlineInJoin(a: Bytes, b: Bytes)
    ensures HasNewline(a) ==> FirstNewline(a + b) == FirstNewline(a)
    ensures !HasNewline(a) ==> FirstNewline(a + b) == |a| + FirstNewline(b)
  {
    if HasNewline(a) {
      var n := FirstNewline(a);
      assert (a + b)[n] == NEWLINE;
      assert forall i :: 0 <= i < n ==> (a + b)[i] != NEWLINE;
      assert (a + b)[FirstNewline(a + b)] == NEWLINE;
    } else {
      var n := |a| + FirstNewline(b);
      assert forall i :: 0 <= i < n ==> (a + b)[i] != NEWLINE;
      if n < |a + b| {
        assert (a + b)[n] == NEWLINE;
      }
    }
  }

  /** Lines of a joined text: those of the first part, then those of its unfinished line and the second part. */
  lemma {:induction false} LinesOfJoin(a: Bytes, b: Bytes)
    ensures CompleteLines(a + b) == CompleteLines(a) + CompleteLines(LastPart(a) + b)
    ensures LastPart(a + b) == LastPart(LastPart(a) + b)
    decreases |a|
  {
    NewlineInJoin(a, b);
    if HasNewline(a) {
      var n := FirstNewline(a);
      var first, rest := a[..n], a[n + 1..];
      assert (a + b)[..n] == first && (a + b)[n + 1..] == rest + b;
      LinesOfJoin(rest, b);
      JoinedFirst(first, CompleteLines(rest), CompleteLines(LastPart(a) + b));
    } else {
      assert [] + CompleteLines(a + b) == CompleteLines(a + b);
    }
  }

  lemma JoinedFirst(first: Bytes, b: seq<Bytes>, c: seq<Bytes>)
    ensures [first] + (b + c) == [first] + b + c
  {
  }

  lemma {:induction false} LastPartIsLast(a: Bytes)
    ensures !HasNewline(LastPart(a))
    ensures LastPart(LastPart(a)) == LastPart(a) && CompleteLines(LastPart(a)) == []
    decreases |a|
  {
    if HasNewline(a) {
      LastPartIsLast(a[FirstNewline(a) + 1..]);
    }
  }

  lemma {:induction false} EventsOfJoin<E>(parse: Bytes -> Option<E>, a: seq<Bytes>, b: seq<Bytes>)
    ensures Events(parse, a + b) == Join(Events(parse, a), Events(parse, b))
  {
    if a == [] {
      assert a + b == b;
      assert Events(parse, b).Some? ==> [] + Events(parse, b).value == Events(parse, b).value;
    } else {
      assert (a + b)[1..] == a[1..] + b;
      EventsOfJoin(parse, a[1..], b);
      JoinTwice(EventOf(parse, a[0]), Events(parse, a[1..]), Events(parse, b));
    }
  }

  lemma JoinTwice<E>(a: Option<seq<E>>, b: Option<seq<E>>, c: Option<seq<E>>)
    ensures Join(a, Join(b, c)) == Join(Join(a, b), c)
  {
    if a.Some? && b.Some? && c.Some? {
      assert a.value + (b.value + c.value) == a.value + b.value + c.value;
    }
  }

  /** Splitting one accumulated line is reading its complete nonblank lines. */
  lemma {:induction false} LinesAreEvents<E>(parse: Bytes -> Option<E>, line: Bytes)
    ensures Lines(parse, line)
         == match Events(parse, CompleteLines(line))
            case None => Failed
            case Some(events) => Fed(State([], LastPart(line)), events)
    decreases |line|
  {
    if HasNewline(line) {
      var n := FirstNewline(line);
      LinesAreEvents(parse, line[n + 1..]);
      assert CompleteLines(line)[1..] == CompleteLines(line[n + 1..]);
    }
  }

  /** Whether later frames fit depends on the unfinished line only. */
  lemma {:induction false} FitNeedsLastPart(text: Bytes, fs: seq<Frame>)
    ensures LinesFit(text, fs) <==> LinesFit(LastPart(text), fs)
    decreases |fs|
  {
    if fs != [] {
      LastPartIsLast(text);
      if fs[0].stdout {
        FitNeedsLastPart(text + fs[0].payload, fs[1..]);
        FitNeedsLastPart(LastPart(text) + fs[0].payload, fs[1..]);
        LinesOfJoin(text, fs[0].payload);
      } else {
        FitNeedsLastPart(text, fs[1..]);
      }
    }
  }

  // ------------------------------------------------------------------- the decoder

  /** One frame of the reference: its own lines, then what follows from the unfinished one. */
  lemma ExpectedStep<E>(parse: Bytes -> Option<E>, line: Bytes, f: Frame, fs: seq<Frame>, rest: Bytes)
    requires f.stdout && !HasNewline(line) && |line + f.payload| <= MAX_LOG_BYTES
    ensures Expected(parse, line, Read([f] + fs, rest))
         == match Lines(parse, line + f.payload)
            case Failed => Failed
            case Fed(state, events) => Append(events, Expected(parse, state.line, Read(fs, rest)))
  {
    var joined := line + f.payload;
    var last := LastPart(joined);
    assert ([f] + fs)[1..] == fs && LastPart(line) == line;
    FitNeedsLastPart(joined, fs);
    assert line + Stdout([f] + fs) == joined + Stdout(fs);
    LinesOfJoin(joined, Stdout(fs));
    EventsOfJoin(parse, CompleteLines(joined), CompleteLines(last + Stdout(fs)));
    LinesAreEvents(parse, joined);
  }

  lemma ExpectedSkips<E>(parse: Bytes -> Option<E>, line: Bytes, f: Frame, fs: seq<Frame>, rest: Bytes)
    requires !f.stdout
    ensures Expected(parse, line, Read([f] + fs, rest)) == Expected(parse, line, Read(fs, rest))
  {
    assert ([f] + fs)[1..] == fs;
    assert Stdout([f] + fs) == Stdout(fs);
  }

  lemma ExpectedOverflows<E>(parse: Bytes -> Option<E>, line: Bytes, f: Frame, fs: seq<Frame>, rest: Bytes)
    requires f.stdout && !HasNewline(line) && |line + f.payload| > MAX_LOG_BYTES
    ensures Expected(parse, line, Read([f] + fs, rest)).Failed?
  {
    assert LastPart(line) == line;
  }

  /**
   The decoder is the reference: it raises exactly on an invalid header, an overlong line or a
   nonblank line that is no event, and otherwise its events are the lines of standard output.
   */
  lemma {:induction false} DrainIsExpected<E>(parse: Bytes -> Option<E>, s: State)
    requires !HasNewline(s.line)
    ensures Drain(parse, s) == Expected(parse, s.line, Frames(s.buffer))
    decreases |s.buffer|
  {
    if |s.buffer| < 8 || !ValidHeader(s.buffer) || |s.buffer| < 8 + FrameSize(s.buffer) {
      assert s.line + Stdout([]) == s.line;
      assert CompleteLines(s.line) == [] && LastPart(s.line) == s.line;
    } else {
      var size := FrameSize(s.buffer);
      var f, rest := Frame(s.buffer[0] == 1, s.buffer[8..8 + size]), s.buffer[8 + size..];
      assert Frames(s.buffer) == Prepend(f, Frames(rest));
      ExpectedOne(parse, s.line, f, Frames(rest));
      if !f.stdout {
        DrainIsExpected(parse, State(rest, s.line));
      } else if |s.line + f.payload| <= MAX_LOG_BYTES && Lines(parse, s.line + f.payload).Fed? {
        LinesRest(parse, s.line + f.payload);
        DrainIsExpected(parse, State(rest, Lines(parse, s.line + f.payload).state.line));
      }
    }
  }

  /** A frame at the front of a reading, if what follows has valid headers. */
  function Prepend(f: Frame, reading: Reading): Reading {
    if reading.BadHeader? then BadHeader else Read([f] + reading.frames, reading.rest)
  }

  lemma ExpectedOne<E>(parse: Bytes -> Option<E>, line: Bytes, f: Frame, reading: Reading)
    requires !HasNewline(line)
    ensures Expected(parse, line, Prepend(f, reading))
         == if !f.stdout then Expected(parse, line, reading)
            else if |line + f.payload| > MAX_LOG_BYTES then Failed
            else match Lines(parse, line + f.payload)
                 case Failed => Failed
                 case Fed(state, events) => Append(events, Expected(parse, state.line, reading))
  {
    if reading.Read? {
      if !f.stdout {
        ExpectedSkips(parse, line, f, reading.frames, reading.rest);
      } else if |line + f.payload| > MAX_LOG_BYTES {
        ExpectedOverflows(parse, line, f, reading.frames, reading.rest);
      } else {
        ExpectedStep(parse, line, f, reading.frames, reading.rest);
      }
    }
  }

  /** However the transport cuts a stream, its events are the nonblank lines of standard output. */
  lemma EventsAreLines<E>(parse: Bytes -> Option<E>, chunks: seq<Bytes>)
    ensures FeedAll(parse, START, chunks) == Expected(parse, [], Frames(Flatten(chunks)))
  {
    ChunksDoNotMatter(parse, START, chunks);
    assert START.buffer + Flatten(chunks) == Flatten(chunks);
    DrainIsExpected(parse, State(Flatten(chunks), []));
  }
}
