/**
 The transport between runner and controller: framing of the runner's output, and the order of
 events that the controller accepts from it.
 */
module RunnerTransport {
  import opened Prelude
  import opened DockerFrames
  import opened DockerStream

  // --------------------------------------------------------------------- framing

  /** Docker's header: stream, three zero bytes, the size in big-endian order. */
  function Header(f: Frame): Bytes
    requires |f.payload| <= MAX_LOG_BYTES
  {
    var n := |f.payload|;
    [if f.stdout then 1 else 2, 0, 0, 0, 0, (n / 65536) as Byte, (n / 256 % 256) as Byte, (n % 256) as Byte]
  }

  predicate Framed(fs: seq<Frame>) {
    forall i :: 0 <= i < |fs| ==> |fs[i].payload| <= MAX_LOG_BYTES
  }

  function Encode(fs: seq<Frame>): Bytes
    requires Framed(fs)
  {
    if fs == [] then [] else Header(fs[0]) + fs[0].payload + Encode(fs[1..])
  }

  lemma HeaderReads(f: Frame, rest: Bytes)
    requires |f.payload| <= MAX_LOG_BYTES
    ensures var s := Header(f) + f.payload + rest;
      ValidHeader(s) && FrameSize(s) == |f.payload| && (s[0] == 1 <==> f.stdout)
      && s[8..8 + |f.payload|] == f.payload && s[8 + |f.payload|..] == rest
  {
    var s, n := Header(f) + f.payload + rest, |f.payload|;
    assert s[1..4] == [0, 0, 0];
    assert n == (n / 65536) * 65536 + (n / 256 % 256) * 256 + n % 256;
  }

  /** Frames read back exactly what was framed. */
  lemma {:induction false} FramesRoundTrip(fs: seq<Frame>)
    requires Framed(fs)
    ensures Frames(Encode(fs)) == Read(fs, [])
  {
    if fs != [] {
      HeaderReads(fs[0], Encode(fs[1..]));
      FramesRoundTrip(fs[1..]);
      assert fs == [fs[0]] + fs[1..];
    }
  }

  /** Lines as the runner writes them. */
  function Terminated(lines: seq<Bytes>): Bytes {
    if lines == [] then [] else lines[0] + [NEWLINE] + Terminated(lines[1..])
  }

  lemma {:induction false} LinesRoundTrip(lines: seq<Bytes>)
    requires forall i :: 0 <= i < |lines| ==> !HasNewline(lines[i])
    ensures CompleteLines(Terminated(lines)) == lines && LastPart(Terminated(lines)) == []
  {
    if lines != [] {
      FirstLine(lines[0], Terminated(lines[1..]));
      LinesRoundTrip(lines[1..]);
      HeadTail(lines);
    }
  }

  lemma FirstLine(line: Bytes, rest: Bytes)
    requires !HasNewline(line)
    ensures var text := line + [NEWLINE] + rest;
      && HasNewline(text) && FirstNewline(text) == |line| && text[..|line|] == line && text[|line| + 1..] == rest
      && CompleteLines(text) == [line] + CompleteLines(rest) && LastPart(text) == LastPart(rest)
  {
    var text := line + [NEWLINE] + rest;
    assert text == line + ([NEWLINE] + rest);
    NewlineInJoin(line, [NEWLINE] + rest);
    assert FirstNewline([NEWLINE] + rest) == 0;
    assert text[..|line|] == line && text[|line| + 1..] == rest;
  }

  /**
   What a runner writes arrives: however its lines are cut into frames, interleaved with
   standard error, and the frames into chunks, the events are those of its lines.
   */
  lemma WrittenLinesArrive<E>(parse: Bytes -> Option<E>, lines: seq<Bytes>, fs: seq<Frame>, chunks: seq<Bytes>)
    requires forall i :: 0 <= i < |lines| ==> !HasNewline(lines[i])
    requires Framed(fs) && Stdout(fs) == Terminated(lines) && LinesFit([], fs)
    requires Flatten(chunks) == Encode(fs)
    ensures FeedAll(parse, START, chunks)
         == match Events(parse, lines)
            case None => Failed
            case Some(events) => Fed(START, events)
  {
    EventsAreLines(parse, chunks);
    FramesRoundTrip(fs);
    LinesRoundTrip(lines);
    assert [] + Stdout(fs) == Stdout(fs);
  }

  // ----------------------------------------------------------------- event order

  datatype Receipt = Receipt(native: string, status: string)

  /** A decoded event, with the checks that look at one event only already made. */
  datatype Event =
    | SessionStarted(id: string)
    | Progress(bounded: bool)
    | Supervision(sequence: int, bounded: bool)
    | TurnCompleted(receipt: Option<Receipt>)
    | RunnerFailed
    | Unknown

  /** What the reader has learned. `answered` lists the supervision requests it has answered. */
  datatype Reader = Reader(started: Option<string>, completed: Option<Receipt>, sequence: nat, answered: seq<int>)

  const FRESH := Reader(None, None, 0, [])
  const MAX_SUPERVISIONS: nat := 2

  /** One event; None is a protocol error. */
  function Handle(r: Reader, supervised: bool, e: Event): Option<Reader> {
    match e
    case SessionStarted(id) =>
      if r.started.Some? || !(1 <= |id| <= 255) then None else Some(r.(started := Some(id)))
    case Progress(bounded) => if bounded then Some(r) else None
    case Supervision(sequence, bounded) =>
      if !supervised || !bounded || sequence != r.sequence + 1 || r.sequence >= MAX_SUPERVISIONS then None
      else Some(r.(sequence := r.sequence + 1, answered := r.answered + [sequence]))
    case TurnCompleted(receipt) =>
      if r.started.None? || r.completed.Some? || receipt.None? || receipt.value.native != r.started.value
         || receipt.value.status !in {"completed", "failed", "interrupted"} then None
      else Some(r.(completed := receipt))
    case RunnerFailed => None
    case Unknown => None
  }

  /** The events of one chunk, up to the first protocol error. */
  function HandleAll(r: Reader, supervised: bool, events: seq<Event>): (Reader, bool)
    decreases |events|
  {
    if events == [] then (r, true)
    else match Handle(r, supervised, events[0])
      case None => (r, false)
      case Some(next) => HandleAll(next, supervised, events[1..])
  }

  /** The events that reach the reader: those of a chunk in which the decoder raises are lost. */
  function Delivered<E>(parse: Bytes -> Option<E>, s: State, chunks: seq<Bytes>): seq<E>
    decreases |chunks|
  {
    if chunks == [] then []
    else
      var first := FeedChunk(parse, s, chunks[0]);
      if first.Failed? then [] else first.events + Delivered(parse, first.state, chunks[1..])
  }

  class Harness {
    const supervised: bool
    const parse: Bytes -> Option<Event>
    var started: Option<string>
    var completed: Option<Receipt>
    var sequence: nat
    ghost var answered: seq<int>

    ghost function View(): Reader
      reads this
    {
      Reader(started, completed, sequence, answered)
    }

    constructor (supervised: bool, parse: Bytes -> Option<Event>)
      ensures View() == FRESH && this.supervised == supervised && this.parse == parse
    {
      this.supervised, this.parse := supervised, parse;
      started, completed, sequence, answered := None, None, 0, [];
    }

    /** The dispatch on one event. */
    method Accept(e: Event) returns (ok: bool)
      modifies this
      ensures ok == Handle(old(View()), supervised, e).Some?
      ensures View() == if ok then Handle(old(View()), supervised, e).value else old(View())
    {
      match e {
        case SessionStarted(id) =>
          if started.Some? || !(1 <= |id| <= 255) {
            return false;
          }
          started := Some(id);
        case Progress(bounded) =>
          return bounded;
        case Supervision(next, bounded) =>
          if !supervised || !bounded || next != sequence + 1 || sequence >= MAX_SUPERVISIONS {
            return false;
          }
          sequence := sequence + 1;
          answered := answered + [next];
        case TurnCompleted(receipt) =>
          if started.None? || completed.Some? || receipt.None? || receipt.value.native != started.value
             || receipt.value.status !in {"completed", "failed", "interrupted"} {
            return false;
          }
          completed := receipt;
        case _ =>
          return false;
      }
      return true;
    }

    /** The events of one chunk. */
    method Dispatch(events: seq<Event>) returns (ok: bool)
      modifies this
      ensures (View(), ok) == HandleAll(old(View()), supervised, events)
    {
      ghost var before := View();
      var i := 0;
      while i < |events|
        invariant 0 <= i <= |events|
        invariant HandleAll(View(), supervised, events[i..]) == HandleAll(before, supervised, events)
      {
        ok := Accept(events[i]);
        if !ok {
          return;
        }
        i := i + 1;
      }
      return true;
    }

    /**
     `_read`: chunks are decoded and their events dispatched until one of them fails. True is
     an orderly end with a receipt.
     */
    method Read(chunks: seq<Bytes>) returns (orderly: bool)
      modifies this
      ensures View() == HandleAll(old(View()), supervised, Delivered(parse, START, chunks)).0
      ensures orderly <==>
        FeedAll(parse, START, chunks).Fed? && HandleAll(old(View()), supervised, Delivered(parse, START, chunks)).1 && completed.Some?
    {
      ghost var before := View();
      ghost var all := Delivered(parse, START, chunks);
      var frames := new Decoder<Event>(parse);
      var c := 0;
      while c < |chunks|
        invariant 0 <= c <= |chunks| && frames.parse == parse && fresh(frames)
        invariant FeedAll(parse, START, chunks).Failed? <==> FeedAll(parse, State(frames.buffer, frames.line), chunks[c..]).Failed?
        invariant HandleAll(before, supervised, all)
               == HandleAll(View(), supervised, Delivered(parse, State(frames.buffer, frames.line), chunks[c..]))
      {
        ghost var now := View();
        assert chunks[c..][0] == chunks[c] && chunks[c..][1..] == chunks[c + 1..];
        var events := frames.Feed(chunks[c]);
        if events.None? {
          return false;
        }
        var ok := Dispatch(events.value);
        HandleSplit(now, supervised, events.value, Delivered(parse, State(frames.buffer, frames.line), chunks[c + 1..]));
        if !ok {
          return false;
        }
        c := c + 1;
      }
      return completed.Some?;
    }
  }

  lemma {:induction false} HandleSplit(r: Reader, supervised: bool, a: seq<Event>, b: seq<Event>)
    ensures HandleAll(r, supervised, a + b)
         == if HandleAll(r, supervised, a).1 then HandleAll(HandleAll(r, supervised, a).0, supervised, b) else HandleAll(r, supervised, a)
    decreases |a|
  {
    if a == [] {
      assert a + b == b;
    } else {
      assert (a + b)[1..] == a[1..] + b;
      if Handle(r, supervised, a[0]).Some? {
        HandleSplit(Handle(r, supervised, a[0]).value, supervised, a[1..], b);
      }
    }
  }

  // ------------------------------------------------------- what every run guarantees

  /** A receipt belongs to the one announced session, and supervision requests are 1, 2, ... without gaps. */
  predicate Orderly(r: Reader) {
    && (r.completed.Some? ==> r.started == Some(r.completed.value.native))
    && r.sequence == |r.answered| <= MAX_SUPERVISIONS
    && (forall i :: 0 <= i < |r.answered| ==> r.answered[i] == i + 1)
  }

  lemma {:induction false} RunsAreOrderly(r: Reader, supervised: bool, events: seq<Event>)
    requires Orderly(r)
    ensures Orderly(HandleAll(r, supervised, events).0)
    ensures r.started.Some? ==> HandleAll(r, supervised, events).0.started == r.started
    ensures r.completed.Some? ==> HandleAll(r, supervised, events).0.completed == r.completed
    decreases |events|
  {
    if events != [] && Handle(r, supervised, events[0]).Some? {
      RunsAreOrderly(Handle(r, supervised, events[0]).value, supervised, events[1..]);
    }
  }

  // ------------------------------------------------- what the cuts can still change

  function Singles(s: Bytes): seq<Bytes> {
    if s == [] then [] else [[s[0]]] + Singles(s[1..])
  }

  lemma {:induction false} SinglesFlatten(s: Bytes)
    ensures Flatten(Singles(s)) == s
  {
    if s != [] {
      SinglesFlatten(s[1..]);
      assert Singles(s)[1..] == Singles(s[1..]);
    }
  }

  lemma {:induction false} SinglesJoin(a: Bytes, b: Bytes)
    ensures Singles(a + b) == Singles(a) + Singles(b)
  {
    if a == [] {
      assert a + b == b;
    } else {
      assert (a + b)[1..] == a[1..] + b;
      SinglesJoin(a[1..], b);
    }
  }

  lemma {:induction false} DeliveredSplit<E>(parse: Bytes -> Option<E>, s: State, a: seq<Bytes>, b: seq<Bytes>)
    requires FeedAll(parse, s, a).Fed?
    ensures Delivered(parse, s, a + b) == FeedAll(parse, s, a).events + Delivered(parse, FeedAll(parse, s, a).state, b)
    decreases |a|
  {
    if a == [] {
      assert a + b == b;
    } else {
      assert (a + b)[1..] == a[1..] + b;
      DeliveredSplit(parse, FeedChunk(parse, s, a[0]).state, a[1..], b);
    }
  }

  /**
   When the decoder raises, the events delivered before it depend on the cuts, but never beyond
   this: they are a prefix of those delivered byte by byte, and all of them when it does not raise.
   */
  lemma {:induction false} DeliveredIsPrefix<E>(parse: Bytes -> Option<E>, s: State, chunks: seq<Bytes>)
    requires Resting(s)
    ensures Delivered(parse, s, chunks) <= Delivered(parse, s, Singles(Flatten(chunks)))
    ensures FeedAll(parse, s, chunks).Fed? ==> Delivered(parse, s, chunks) == FeedAll(parse, s, chunks).events
    decreases |chunks|
  {
    if chunks != [] {
      var first := FeedChunk(parse, s, chunks[0]);
      if first.Fed? {
        var bytes := Singles(chunks[0]);
        SinglesFlatten(chunks[0]);
        ChunksDoNotMatter(parse, s, bytes);
        SinglesJoin(chunks[0], Flatten(chunks[1..]));
        DeliveredSplit(parse, s, bytes, Singles(Flatten(chunks[1..])));
        DrainRests(parse, State(s.buffer + chunks[0], s.line));
        DeliveredIsPrefix(parse, first.state, chunks[1..]);
      }
    }
  }

  /** The same bytes with and without a cut before a broken frame: the events before it survive only with the cut. */
  lemma CutDecidesWhatSurvives<E>(parse: Bytes -> Option<E>, good: Bytes, bad: Bytes)
    requires FeedChunk(parse, START, good).Fed? && FeedChunk(parse, FeedChunk(parse, START, good).state, bad).Failed?
    ensures Delivered(parse, START, [good, bad]) == FeedChunk(parse, START, good).events
    ensures Delivered(parse, START, [good + bad]) == []
  {
    assert [good, bad][1..] == [bad];
    assert START.buffer + (good + bad) == (START.buffer + good) + bad;
    DrainContinues(parse, State(START.buffer + good, START.line), bad);
  }

  // ------------------------------------------------ the break, read independently

  /** The complete frames before the first bad header. */
  function GoodFrames(s: Bytes): seq<Frame>
    decreases |s|
  {
    if |s| < 8 || !ValidHeader(s) || |s| < 8 + FrameSize(s) then []
    else [Frame(s[0] == 1, s[8..8 + FrameSize(s)])] + GoodFrames(s[8 + FrameSize(s)..])
  }

  /** The events of some frames read together, if their lines fit and all of them are events. */
  function EventsIn<E>(parse: Bytes -> Option<E>, fs: seq<Frame>): Option<seq<E>> {
    if LinesFit([], fs) then Events(parse, CompleteLines(Stdout(fs))) else None
  }

  /** No run of frames from the beginning of the stream that can be read holds an event. */
  ghost predicate SilentBeforeBreak<E>(parse: Bytes -> Option<E>, stream: Bytes) {
    forall k :: 0 <= k <= |GoodFrames(stream)| && EventsIn(parse, GoodFrames(stream)[..k]).Some? ==>
      EventsIn(parse, GoodFrames(stream)[..k]).value == []
  }

  lemma PrefixHeader(s: Bytes, n: nat)
    requires 8 <= n <= |s|
    ensures FrameSize(s[..n]) == FrameSize(s) && (ValidHeader(s[..n]) <==> ValidHeader(s)) && s[..n][0] == s[0]
    ensures n >= 8 + FrameSize(s) ==>
      && s[..n][8..8 + FrameSize(s)] == s[8..8 + FrameSize(s)]
      && s[..n][8 + FrameSize(s)..] == s[8 + FrameSize(s)..][..n - 8 - FrameSize(s)]
  {
    assert s[..n][1..4] == s[1..4];
  }

  /** A prefix of the stream that ends with frame `k`. */
  lemma {:induction false} FramePrefix(s: Bytes, k: nat) returns (n: nat)
    requires k <= |GoodFrames(s)|
    ensures n <= |s| && Frames(s[..n]) == Read(GoodFrames(s)[..k], [])
    decreases |s|
  {
    if k == 0 {
      n := 0;
    } else {
      var size := 8 + FrameSize(s);
      var m := FramePrefix(s[size..], k - 1);
      n := size + m;
      PrefixHeader(s, n);
      assert GoodFrames(s)[..k] == [GoodFrames(s)[0]] + GoodFrames(s[size..])[..k - 1];
    }
  }

  /** Whatever is complete in a prefix of the stream are its first frames. */
  lemma {:induction false} PrefixFrames(s: Bytes, n: nat) returns (k: nat)
    requires n <= |s| && Frames(s[..n]).Read?
    ensures k <= |GoodFrames(s)| && Frames(s[..n]).frames == GoodFrames(s)[..k]
    decreases |s|
  {
    var p := s[..n];
    if |p| < 8 {
      k := 0;
    } else {
      PrefixHeader(s, n);
      var size := 8 + FrameSize(s);
      if |p| < size {
        k := 0;
      } else {
        var m := PrefixFrames(s[size..], n - size);
        k := m + 1;
        assert GoodFrames(s)[..k] == [GoodFrames(s)[0]] + GoodFrames(s[size..])[..m];
      }
    }
  }

  lemma WholeStream<E>(parse: Bytes -> Option<E>, stream: Bytes)
    ensures FeedChunk(parse, START, stream) == Expected(parse, [], Frames(stream))
  {
    assert START.buffer + stream == stream;
    DrainIsExpected(parse, State(stream, []));
  }

  /** A prefix is fed without an error exactly with the events of its complete frames. */
  lemma PrefixReads<E>(parse: Bytes -> Option<E>, p: Bytes)
    ensures FeedChunk(parse, START, p).Fed? <==> Frames(p).Read? && EventsIn(parse, Frames(p).frames).Some?
    ensures FeedChunk(parse, START, p).Fed? ==> FeedChunk(parse, START, p).events == EventsIn(parse, Frames(p).frames).value
  {
    WholeStream(parse, p);
    if Frames(p).Read? {
      assert [] + Stdout(Frames(p).frames) == Stdout(Frames(p).frames);
    }
  }

  lemma {:induction false} DeliveredStops<E>(parse: Bytes -> Option<E>, s: State, a: seq<Bytes>, b: seq<Bytes>)
    requires FeedAll(parse, s, a).Failed?
    ensures Delivered(parse, s, a + b) == Delivered(parse, s, a)
    decreases |a|
  {
    assert (a + b)[1..] == a[1..] + b && (a + b)[0] == a[0];
    var first := FeedChunk(parse, s, a[0]);
    if first.Fed? {
      DeliveredStops(parse, first.state, a[1..], b);
    }
  }

  lemma LastByte<E>(parse: Bytes -> Option<E>, s: State, b: Byte)
    ensures Delivered(parse, s, [[b]]) == if FeedChunk(parse, s, [b]).Fed? then FeedChunk(parse, s, [b]).events else []
  {
    assert Delivered(parse, s, [[b]][1..]) == [];
  }

  /** What is delivered byte by byte is what some prefix of the stream holds. */
  lemma {:induction false} DeliveredIsOfPrefix<E>(parse: Bytes -> Option<E>, s: Bytes) returns (n: nat)
    ensures n <= |s| && FeedChunk(parse, START, s[..n]).Fed?
    ensures Delivered(parse, START, Singles(s)) == FeedChunk(parse, START, s[..n]).events
    decreases |s|
  {
    if s == [] {
      n := 0;
      assert START.buffer + s[..0] == [];
    } else {
      var m := |s| - 1;
      var front, last := s[..m], s[m];
      assert s == front + [last] && Singles([last]) == [[last]];
      SinglesJoin(front, [last]);
      SinglesFlatten(front);
      ChunksDoNotMatter(parse, START, Singles(front));
      if FeedChunk(parse, START, front).Failed? {
        n := DeliveredIsOfPrefix(parse, front);
        DeliveredStops(parse, START, Singles(front), [[last]]);
        assert front[..n] == s[..n];
      } else {
        DeliveredSplit(parse, START, Singles(front), [[last]]);
        LastByte(parse, FeedChunk(parse, START, front).state, last);
        n := LongerPrefix(parse, s, front, last);
      }
    }
  }

  lemma LongerPrefix<E>(parse: Bytes -> Option<E>, s: Bytes, front: Bytes, last: Byte) returns (n: nat)
    requires s == front + [last] && FeedChunk(parse, START, front).Fed?
    ensures n <= |s| && FeedChunk(parse, START, s[..n]).Fed?
    ensures var fed := FeedChunk(parse, START, front);
            FeedChunk(parse, START, s[..n]).events
            == fed.events + (if FeedChunk(parse, fed.state, [last]).Fed? then FeedChunk(parse, fed.state, [last]).events else [])
  {
    assert START.buffer + s == (START.buffer + front) + [last];
    DrainContinues(parse, State(START.buffer + front, START.line), [last]);
    assert s[..|s|] == s && s[..|s| - 1] == front;
    n := if FeedChunk(parse, FeedChunk(parse, START, front).state, [last]).Fed? then |s| else |s| - 1;
  }

  /** What a readable prefix holds is delivered. */
  lemma FirstPartIsDelivered<E>(parse: Bytes -> Option<E>, stream: Bytes, a: Bytes, b: Bytes)
    requires stream == a + b && FeedChunk(parse, START, a).Fed?
    ensures FeedChunk(parse, START, a).events <= Delivered(parse, START, Singles(stream))
  {
    SinglesJoin(a, b);
    SinglesFlatten(a);
    ChunksDoNotMatter(parse, START, Singles(a));
    DeliveredSplit(parse, START, Singles(a), Singles(b));
  }

  lemma ReadableIsDelivered<E>(parse: Bytes -> Option<E>, stream: Bytes, a: Bytes, b: Bytes, fs: seq<Frame>)
    requires stream == a + b && Frames(a) == Read(fs, []) && EventsIn(parse, fs).Some?
    ensures EventsIn(parse, fs).value <= Delivered(parse, START, Singles(stream))
  {
    PrefixReads(parse, a);
    FirstPartIsDelivered(parse, stream, a, b);
  }

  lemma NothingDelivered<E>(parse: Bytes -> Option<E>, stream: Bytes)
    requires SilentBeforeBreak(parse, stream)
    ensures Delivered(parse, START, Singles(stream)) == []
  {
    var n := DeliveredIsOfPrefix(parse, stream);
    PrefixReads(parse, stream[..n]);
    var k := PrefixFrames(stream, n);
    assert EventsIn(parse, GoodFrames(stream)[..k]).Some?;
  }

  /** Byte by byte a stream delivers nothing exactly if it is silent before its break. */
  lemma SilentExactly<E>(parse: Bytes -> Option<E>, stream: Bytes)
    ensures Delivered(parse, START, Singles(stream)) == [] <==> SilentBeforeBreak(parse, stream)
  {
    if Delivered(parse, START, Singles(stream)) == [] {
      forall k | 0 <= k <= |GoodFrames(stream)| && EventsIn(parse, GoodFrames(stream)[..k]).Some?
        ensures EventsIn(parse, GoodFrames(stream)[..k]).value == []
      {
        var n := FramePrefix(stream, k);
        ReadableIsDelivered(parse, stream, stream[..n], stream[n..], GoodFrames(stream)[..k]);
      }
    }
    if SilentBeforeBreak(parse, stream) {
      NothingDelivered(parse, stream);
    }
  }

  /** However the stream is cut, the same events are delivered. */
  ghost predicate CutsAgree<E>(parse: Bytes -> Option<E>, stream: Bytes) {
    forall a, b :: Flatten(a) == stream && Flatten(b) == stream ==> Delivered(parse, START, a) == Delivered(parse, START, b)
  }

  lemma SameDelivery<E>(parse: Bytes -> Option<E>, stream: Bytes, chunks: seq<Bytes>)
    requires Flatten(chunks) == stream
    requires FeedChunk(parse, START, stream).Fed? || Delivered(parse, START, Singles(stream)) == []
    ensures Delivered(parse, START, chunks) ==
      if FeedChunk(parse, START, stream).Fed? then FeedChunk(parse, START, stream).events else []
  {
    DeliveredIsPrefix(parse, START, chunks);
    ChunksDoNotMatter(parse, START, chunks);
    if FeedChunk(parse, START, stream).Failed? {
      assert Delivered(parse, START, chunks) <= [];
    }
  }

  /** In terms of what is delivered byte by byte. */
  lemma CutsAgreeDelivered<E>(parse: Bytes -> Option<E>, stream: Bytes)
    ensures CutsAgree(parse, stream)
       <==> FeedChunk(parse, START, stream).Fed? || Delivered(parse, START, Singles(stream)) == []
  {
    if FeedChunk(parse, START, stream).Fed? || Delivered(parse, START, Singles(stream)) == [] {
      forall a, b | Flatten(a) == stream && Flatten(b) == stream
        ensures Delivered(parse, START, a) == Delivered(parse, START, b)
      {
        SameDelivery(parse, stream, a);
        SameDelivery(parse, stream, b);
      }
    } else {
      SinglesFlatten(stream);
      assert Flatten([stream]) == stream;
      assert Delivered(parse, START, [stream]) == [];
    }
  }

  /**
   What is delivered is independent of the cuts exactly for the streams whose frames, lines and
   events can all be read, and for the broken ones that hold no event before their break.
   */
  lemma CutsAgreeExactly<E>(parse: Bytes -> Option<E>, stream: Bytes)
    ensures CutsAgree(parse, stream) <==> Expected(parse, [], Frames(stream)).Fed? || SilentBeforeBreak(parse, stream)
  {
    CutsAgreeDelivered(parse, stream);
    SilentExactly(parse, stream);
    WholeStream(parse, stream);
  }

  /** One framed line, and a header of no stream. */
  const LINE_FRAME: Bytes := [1, 0, 0, 0, 0, 0, 0, 2, 65, 10]
  const BROKEN_HEADER: Bytes := [9, 0, 0, 0, 0, 0, 0, 0]

  /** One complete frame of standard output. */
  lemma FrameDrains<E>(parse: Bytes -> Option<E>, frame: Bytes, read: Outcome<E>)
    requires |frame| >= 8 && ValidHeader(frame) && |frame| == 8 + FrameSize(frame) && frame[0] == 1
    requires read == Lines(parse, frame[8..]) && read.Fed?
    ensures Drain(parse, State(frame, [])) == Append(read.events, Drain(parse, State([], read.state.line)))
  {
    var line: Bytes := [];
    assert line + frame[8..8 + FrameSize(frame)] == frame[8..];
    assert frame[8 + FrameSize(frame)..] == [];
  }

  /** A complete frame that holds one line. */
  lemma LineFrameReads<E>(parse: Bytes -> Option<E>, frame: Bytes)
    requires parse([65]).Some? && |frame| == 10 && ValidHeader(frame) && FrameSize(frame) == 2 && frame[0] == 1 && frame[8..] == [65, 10]
    ensures FeedChunk(parse, START, frame) == Fed(START, [parse([65]).value])
  {
    LineReads(parse);
    FrameDrains(parse, frame, Lines(parse, [65, 10]));
    NothingLeft(parse);
    assert START.buffer + frame == frame;
  }

  lemma NothingLeft<E>(parse: Bytes -> Option<E>)
    ensures Drain(parse, START) == Fed(START, [])
  {
  }

  lemma BadHeaderFails<E>(parse: Bytes -> Option<E>, header: Bytes)
    requires |header| >= 8 && !ValidHeader(header)
    ensures FeedChunk(parse, START, header).Failed?
  {
    assert START.buffer + header == header;
  }

  /** A stream whose one event is delivered or lost, depending on the cut. */
  lemma BrokenFrameLosesEvent<E>(parse: Bytes -> Option<E>)
    requires parse([65]).Some?
    ensures Delivered(parse, START, [LINE_FRAME, BROKEN_HEADER]) == [parse([65]).value]
    ensures Delivered(parse, START, [LINE_FRAME + BROKEN_HEADER]) == []
    ensures !CutsAgree(parse, LINE_FRAME + BROKEN_HEADER)
  {
    var good, bad := LINE_FRAME, BROKEN_HEADER;
    assert good[1..4] == [0, 0, 0] && FrameSize(good) == 2 && good[8..] == [65, 10];
    LineFrameReads(parse, good);
    BadHeaderFails(parse, bad);
    LostByJoining(parse, good, bad);
  }

  /** Events before a break are lost by every stream that has some. */
  lemma LostByJoining<E>(parse: Bytes -> Option<E>, good: Bytes, bad: Bytes)
    requires FeedChunk(parse, START, good).Fed? && FeedChunk(parse, START, good).events != []
    requires FeedChunk(parse, FeedChunk(parse, START, good).state, bad).Failed?
    ensures Delivered(parse, START, [good, bad]) == FeedChunk(parse, START, good).events
    ensures Delivered(parse, START, [good + bad]) == []
    ensures !CutsAgree(parse, good + bad)
  {
    CutDecidesWhatSurvives(parse, good, bad);
    TwoChunks(good, bad);
    OneChunk(good + bad);
  }

  lemma OneChunk(s: Bytes)
    ensures Flatten([s]) == s
  {
    assert Flatten([s]) == s + [];
  }

  lemma TwoChunks(a: Bytes, b: Bytes)
    ensures Flatten([a, b]) == a + b
  {
    OneChunk(b);
    assert [a, b][1..] == [b];
  }

  lemma LineReads<E>(parse: Bytes -> Option<E>)
    requires parse([65]).Some?
    ensures Lines(parse, [65, 10]) == Fed(State([], []), [parse([65]).value])
  {
    var line: Bytes := [65, 10];
    assert line[1..] == [10] && FirstNewline([10]) == 0 && FirstNewline(line) == 1;
    assert line[..1] == [65] && line[2..] == [];
    assert !IsBlank([65]) by {
      var a: Bytes := [65];
      assert !IsSpace(a[0]);
    }
  }
}
