/**
 The single-flight cache of analytics queries. Every stretch of code between two awaits is one
 step; inner calls end with any value, or fail, or time out at any moment.
 */
module AnalyticsCache {
  import opened Prelude

  type Key = string
  type Value = int

  const FRESH_SECONDS: int := 20
  const MAX_FILLS: nat := 128
  const MAX_ENTRIES: nat := 128

  /** `call` is the fill that produced the value; `touched` is when it was first stored or last hit. */
  datatype Entry = Entry(key: Key, at: int, value: Value, call: nat, touched: nat)

  datatype Phase = Waiting | Calling | Done(value: Value, at: int) | Dead

  datatype Fill = Fill(key: Key, phase: Phase)

  /** A value given to a reader, the time when it was given, and whether the reader awaited its call itself. */
  datatype Answer = Answer(key: Key, value: Value, call: nat, time: int, awaited: bool)

  /** `tasks` are all fills ever created; `waiters` the readers that await one. */
  datatype State = State(
    cache: seq<Entry>, fills: map<Key, nat>, tasks: seq<Fill>, waiters: seq<(Key, nat)>, running: nat, capacity: nat,
    now: int, step: nat, answers: seq<Answer>)

  datatype Step =
    | Read(key: Key)
    | Start(task: nat)
    | Finish(task: nat, value: Value)
    | Fail(task: nat)
    | Deliver(waiter: nat)
    | Leave(waiter: nat)
    | Tick(seconds: nat)

  function Position(cache: seq<Entry>, key: Key): (r: Option<nat>)
    ensures r.Some? ==> r.value < |cache| && cache[r.value].key == key
    ensures r.None? ==> forall i :: 0 <= i < |cache| ==> cache[i].key != key
  {
    if cache == [] then None
    else if cache[|cache| - 1].key == key then Some(|cache| - 1)
    else Position(cache[..|cache| - 1], key)
  }

  function Without<T>(s: seq<T>, i: nat): seq<T>
    requires i < |s|
  {
    s[..i] + s[i + 1..]
  }

  /** A hit moves its entry to the end. */
  function Hit(s: State, i: nat): State
    requires i < |s.cache|
  {
    var e := s.cache[i];
    s.(cache := Without(s.cache, i) + [e.(touched := s.step)],
       answers := s.answers + [Answer(e.key, e.value, e.call, s.now, false)], step := s.step + 1)
  }

  predicate IsFresh(s: State, key: Key) {
    var i := Position(s.cache, key);
    i.Some? && s.now - s.cache[i.value].at < FRESH_SECONDS
  }

  /** `_read`, up to its await. */
  function OnRead(s: State, key: Key): State {
    if IsFresh(s, key) then Hit(s, Position(s.cache, key).value)
    else if key in s.fills then s.(waiters := s.waiters + [(key, s.fills[key])], step := s.step + 1)
    else if |s.fills| >= MAX_FILLS then s.(step := s.step + 1)
    else s.(tasks := s.tasks + [Fill(key, Waiting)], fills := s.fills[key := |s.tasks|],
            waiters := s.waiters + [(key, |s.tasks|)], step := s.step + 1)
  }

  /** The semaphore admits a waiting fill. */
  function OnStart(s: State, t: nat): State {
    if t < |s.tasks| && s.tasks[t].phase == Waiting && s.running < s.capacity
    then s.(tasks := s.tasks[t := s.tasks[t].(phase := Calling)], running := s.running + 1, step := s.step + 1)
    else s
  }

  /** Storing a result: in place if the key is there, else at the end, after the oldest entry made room. */
  function Stored(s: State, key: Key, value: Value, t: nat): seq<Entry> {
    match Position(s.cache, key)
    case Some(i) => s.cache[i := Entry(key, s.now, value, t, s.cache[i].touched)]
    case None =>
      (if |s.cache| >= MAX_ENTRIES then s.cache[1..] else s.cache) + [Entry(key, s.now, value, t, s.step)]
  }

  function OnFinish(s: State, t: nat, value: Value): State {
    if t < |s.tasks| && s.tasks[t].phase == Calling && s.running > 0
    then s.(cache := Stored(s, s.tasks[t].key, value, t), fills := s.fills - {s.tasks[t].key},
            tasks := s.tasks[t := s.tasks[t].(phase := Done(value, s.now))], running := s.running - 1, step := s.step + 1)
    else s
  }

  /** A fill times out or fails, before or during its inner call. */
  function OnFail(s: State, t: nat): State {
    if t < |s.tasks| && s.tasks[t].phase == Waiting
    then s.(fills := s.fills - {s.tasks[t].key}, tasks := s.tasks[t := s.tasks[t].(phase := Dead)], step := s.step + 1)
    else if t < |s.tasks| && s.tasks[t].phase == Calling && s.running > 0
    then s.(fills := s.fills - {s.tasks[t].key}, tasks := s.tasks[t := s.tasks[t].(phase := Dead)],
            running := s.running - 1, step := s.step + 1)
    else s
  }

  /** A waiter resumes once its fill has ended; a failed fill gives it an exception. */
  function OnDeliver(s: State, w: nat): State {
    if w >= |s.waiters| || s.waiters[w].1 >= |s.tasks| then s
    else
      var fill := s.tasks[s.waiters[w].1];
      match fill.phase
      case Done(value, at) =>
        s.(waiters := Without(s.waiters, w), step := s.step + 1,
           answers := s.answers + [Answer(s.waiters[w].0, value, s.waiters[w].1, s.now, true)])
      case Dead => s.(waiters := Without(s.waiters, w), step := s.step + 1)
      case _ => s
  }

  function Next(s: State, step: Step): State {
    match step
    case Read(key) => OnRead(s, key)
    case Start(t) => OnStart(s, t)
    case Finish(t, value) => OnFinish(s, t, value)
    case Fail(t) => OnFail(s, t)
    case Deliver(w) => OnDeliver(s, w)
    case Leave(w) => if w < |s.waiters| then s.(waiters := Without(s.waiters, w)) else s
    case Tick(seconds) => s.(now := s.now + seconds)
  }

  function Initial(capacity: nat, now: int): State {
    State([], map[], [], [], 0, capacity, now, 0, [])
  }

  function Run(s: State, steps: seq<Step>): State {
    if steps == [] then s else Next(Run(s, steps[..|steps| - 1]), steps[|steps| - 1])
  }

  // ------------------------------------------------------------------- the class

  class Cache {
    var cache: seq<Entry>
    var fills: map<Key, nat>
    var tasks: seq<Fill>
    var running: nat
    const capacity: nat
    var now: int
    var waiters: seq<(Key, nat)>
    var step: nat
    ghost var answers: seq<Answer>

    ghost function View(): State
      reads this
    {
      State(cache, fills, tasks, waiters, running, capacity, now, step, answers)
    }

    constructor (capacity: nat, now: int)
      requires capacity >= 1
      ensures View() == Initial(capacity, now)
    {
      this.capacity, this.now := capacity, now;
      cache, fills, tasks, running := [], map[], [], 0;
      waiters, step, answers := [], 0, [];
    }

    method Find(key: Key) returns (i: Option<nat>)
      ensures i == Position(cache, key)
    {
      var n := |cache|;
      assert cache[..n] == cache;
      while n > 0
        invariant 0 <= n <= |cache| && Position(cache, key) == Position(cache[..n], key)
      {
        assert cache[..n][..n - 1] == cache[..n - 1];
        if cache[n - 1].key == key {
          return Some(n - 1);
        }
        n := n - 1;
      }
      return None;
    }

    /** `_read`, up to its await: the cached value, the fill to await, or neither when too many are under way. */
    method ReadKey(key: Key) returns (cached: Option<Value>, pending: Option<nat>)
      modifies this
      ensures View() == OnRead(old(View()), key)
      ensures cached == if IsFresh(old(View()), key) then Some(old(cache)[Position(old(cache), key).value].value) else None
      ensures cached.None? ==> (pending.None? <==> key !in old(fills) && |old(fills)| >= MAX_FILLS)
      ensures pending.Some? ==> key in fills && pending.value == fills[key]
    {
      cached, pending := None, None;
      var at := Find(key);
      step := step + 1;
      if at.Some? && now - cache[at.value].at < FRESH_SECONDS {
        var e := cache[at.value];
        cached := Some(e.value);
        TakeHit(at.value);
        return;
      }
      if key !in fills {
        if |fills| >= MAX_FILLS {
          return;
        }
        tasks := tasks + [Fill(key, Waiting)];
        fills := fills[key := |tasks| - 1];
      }
      pending := Some(fills[key]);
      waiters := waiters + [(key, fills[key])];
    }

    method TakeHit(i: nat)
      requires i < |cache| && step > 0
      modifies this`cache, this`answers
      ensures cache == Without(old(cache), i) + [old(cache)[i].(touched := step - 1)]
      ensures answers == old(answers) + [Answer(old(cache)[i].key, old(cache)[i].value, old(cache)[i].call, now, false)]
    {
      var e := cache[i];
      answers := answers + [Answer(e.key, e.value, e.call, now, false)];
      cache := cache[..i] + cache[i + 1..] + [Entry(e.key, e.at, e.value, e.call, step - 1)];
    }

    /** The semaphore lets a waiting fill make its inner call. */
    method StartFill(t: nat)
      modifies this`tasks, this`running, this`step
      ensures View() == OnStart(old(View()), t)
    {
      if t < |tasks| && tasks[t].phase == Waiting && running < capacity {
        tasks := tasks[t := Fill(tasks[t].key, Calling)];
        running := running + 1;
        step := step + 1;
      }
    }

    /** Storing under a key: the oldest entry makes room for a new one. */
    method StoreResult(key: Key, value: Value, t: nat)
      modifies this`cache
      ensures cache == Stored(old(View()), key, value, t)
    {
      var at := Find(key);
      if at.Some? {
        cache := cache[at.value := Entry(key, now, value, t, cache[at.value].touched)];
      } else {
        if |cache| >= MAX_ENTRIES {
          cache := cache[1..];
        }
        cache := cache + [Entry(key, now, value, t, step)];
      }
    }

    /** The inner call of a fill returns. */
    method FinishFill(t: nat, value: Value)
      modifies this`cache, this`fills, this`tasks, this`running, this`step
      ensures View() == OnFinish(old(View()), t, value)
    {
      if t < |tasks| && tasks[t].phase == Calling && running > 0 {
        var key := tasks[t].key;
        StoreResult(key, value, t);
        fills := fills - {key};
        tasks := tasks[t := Fill(key, Done(value, now))];
        running := running - 1;
        step := step + 1;
      }
    }

    /** A fill times out or fails. */
    method FailFill(t: nat)
      modifies this`fills, this`tasks, this`running, this`step
      ensures View() == OnFail(old(View()), t)
    {
      if t < |tasks| && (tasks[t].phase == Waiting || (tasks[t].phase == Calling && running > 0)) {
        var key := tasks[t].key;
        if tasks[t].phase == Calling {
          running := running - 1;
        }
        fills := fills - {key};
        tasks := tasks[t := Fill(key, Dead)];
        step := step + 1;
      }
    }

    /** A reader resumes after its await: with the value of its own fill, with an exception, or not yet. */
    method Resume(w: nat) returns (value: Option<Value>, raised: bool)
      modifies this`waiters, this`answers, this`step
      ensures View() == OnDeliver(old(View()), w)
      ensures var awaited := if w < |old(waiters)| && old(waiters)[w].1 < |tasks| then Some(tasks[old(waiters)[w].1].phase) else None;
              && value == (if awaited.Some? && awaited.value.Done? then Some(awaited.value.value) else None)
              && raised == (awaited.Some? && awaited.value.Dead?)
    {
      value, raised := None, false;
      if w >= |waiters| || waiters[w].1 >= |tasks| {
        return;
      }
      var key, t := waiters[w].0, waiters[w].1;
      match tasks[t].phase {
        case Done(v, at) =>
          waiters := waiters[..w] + waiters[w + 1..];
          answers := answers + [Answer(key, v, t, now, true)];
          step := step + 1;
          value := Some(v);
        case Dead =>
          waiters := waiters[..w] + waiters[w + 1..];
          step := step + 1;
          raised := true;
        case _ =>
      }
    }
  }

  // ------------------------------------------------------------------- invariants

  predicate Active(f: Fill) {
    f.phase == Waiting || f.phase == Calling
  }

  /** Fills under way and the dictionary of fills correspond: at most one per key. */
  ghost predicate SingleFlight(tasks: seq<Fill>, fills: map<Key, nat>) {
    && (forall k :: k in fills ==> fills[k] < |tasks| && tasks[fills[k]].key == k && Active(tasks[fills[k]]))
    && (forall t :: 0 <= t < |tasks| && Active(tasks[t]) ==> tasks[t].key in fills && fills[tasks[t].key] == t)
  }

  function Calls(tasks: seq<Fill>): nat {
    if tasks == [] then 0 else Calls(tasks[..|tasks| - 1]) + (if tasks[|tasks| - 1].phase == Calling then 1 else 0)
  }

  /** A value is that of a finished call with exactly this key. */
  predicate FromCall(tasks: seq<Fill>, key: Key, value: Value, call: nat, at: int) {
    call < |tasks| && tasks[call] == Fill(key, Done(value, at))
  }

  /** One entry per key, each from a finished call; the order is that of first storing or last hit. */
  ghost predicate EntriesFit(cache: seq<Entry>, tasks: seq<Fill>, now: int, step: nat) {
    && |cache| <= MAX_ENTRIES
    && (forall i, j :: 0 <= i < j < |cache| ==> cache[i].key != cache[j].key && cache[i].touched < cache[j].touched)
    && (forall i :: 0 <= i < |cache| ==>
          FromCall(tasks, cache[i].key, cache[i].value, cache[i].call, cache[i].at) && cache[i].at <= now && cache[i].touched < step)
  }

  /** What readers were told: a value of a call with their key, young or awaited by themselves. */
  ghost predicate AnswersFit(answers: seq<Answer>, tasks: seq<Fill>) {
    forall a :: 0 <= a < |answers| ==>
      && answers[a].call < |tasks| && tasks[answers[a].call].key == answers[a].key
      && tasks[answers[a].call].phase.Done? && tasks[answers[a].call].phase.value == answers[a].value
      && 0 <= answers[a].time - tasks[answers[a].call].phase.at
      && (answers[a].awaited || answers[a].time - tasks[answers[a].call].phase.at < FRESH_SECONDS)
  }

  ghost predicate FinishedBefore(tasks: seq<Fill>, now: int) {
    forall t :: 0 <= t < |tasks| && tasks[t].phase.Done? ==> tasks[t].phase.at <= now
  }

  ghost predicate WaitersFit(waiters: seq<(Key, nat)>, tasks: seq<Fill>) {
    forall w :: 0 <= w < |waiters| ==> waiters[w].1 < |tasks| && tasks[waiters[w].1].key == waiters[w].0
  }

  ghost predicate Inv(s: State) {
    && SingleFlight(s.tasks, s.fills) && |s.fills| <= MAX_FILLS
    && s.running == Calls(s.tasks) <= s.capacity
    && EntriesFit(s.cache, s.tasks, s.now, s.step)
    && AnswersFit(s.answers, s.tasks) && WaitersFit(s.waiters, s.tasks) && FinishedBefore(s.tasks, s.now)
  }

  lemma {:induction false} CallsUpdate(tasks: seq<Fill>, t: nat, f: Fill)
    requires t < |tasks|
    ensures Calls(tasks[t := f]) == Calls(tasks) - (if tasks[t].phase == Calling then 1 else 0) + (if f.phase == Calling then 1 else 0)
  {
    var front := tasks[..|tasks| - 1];
    if t == |tasks| - 1 {
      assert tasks[t := f][..|tasks| - 1] == front;
    } else {
      CallsUpdate(front, t, f);
      assert tasks[t := f][..|tasks| - 1] == front[t := f];
    }
  }

  lemma CallsAppend(tasks: seq<Fill>, f: Fill)
    ensures Calls(tasks + [f]) == Calls(tasks) + (if f.phase == Calling then 1 else 0)
  {
    assert (tasks + [f])[..|tasks|] == tasks;
  }

  /** A fill that goes on or ends; ended fills never change again. */
  predicate Advances(before: Fill, after: Fill) {
    before.key == after.key && Active(before)
  }

  lemma PhaseKeepsOthers(s: State, t: nat, f: Fill)
    requires t < |s.tasks| && Advances(s.tasks[t], f)
    requires EntriesFit(s.cache, s.tasks, s.now, s.step) && AnswersFit(s.answers, s.tasks) && WaitersFit(s.waiters, s.tasks)
    ensures EntriesFit(s.cache, s.tasks[t := f], s.now, s.step)
    ensures AnswersFit(s.answers, s.tasks[t := f]) && WaitersFit(s.waiters, s.tasks[t := f])
  {
  }

  lemma FlightEnds(tasks: seq<Fill>, fills: map<Key, nat>, t: nat, f: Fill)
    requires SingleFlight(tasks, fills) && t < |tasks| && Active(tasks[t]) && f.key == tasks[t].key && !Active(f)
    ensures SingleFlight(tasks[t := f], fills - {tasks[t].key})
    ensures |fills - {tasks[t].key}| < |fills|
  {
    var key, left := tasks[t].key, fills - {tasks[t].key};
    assert left.Keys == fills.Keys - {key};
    assert |left.Keys| < |fills.Keys|;
    assert |left| == |left.Keys| && |fills| == |fills.Keys|;
  }

  lemma OneMoreKey(fills: map<Key, nat>, key: Key, t: nat)
    requires key !in fills
    ensures |fills[key := t]| == |fills| + 1
  {
    var more := fills[key := t];
    assert more.Keys == fills.Keys + {key};
    assert |more| == |more.Keys| && |fills| == |fills.Keys|;
  }

  lemma FlightBegins(tasks: seq<Fill>, fills: map<Key, nat>, key: Key)
    requires SingleFlight(tasks, fills) && key !in fills
    ensures SingleFlight(tasks + [Fill(key, Waiting)], fills[key := |tasks|])
    ensures |fills[key := |tasks|]| == |fills| + 1
  {
    OneMoreKey(fills, key, |tasks|);
    var after := tasks + [Fill(key, Waiting)];
    assert forall t :: 0 <= t < |tasks| ==> after[t] == tasks[t];
  }

  lemma HitKeeps(s: State, i: nat)
    requires Inv(s) && i < |s.cache| && s.now - s.cache[i].at < FRESH_SECONDS
    ensures Inv(Hit(s, i))
  {
    var e := s.cache[i];
    assert FromCall(s.tasks, e.key, e.value, e.call, e.at);
    var moved := Without(s.cache, i);
    forall j | 0 <= j < |moved| ensures moved[j] == s.cache[if j < i then j else j + 1] {
    }
  }

  /** A new fill disturbs nothing that refers to fills. */
  lemma NewFillFits(s: State, f: Fill)
    requires EntriesFit(s.cache, s.tasks, s.now, s.step) && AnswersFit(s.answers, s.tasks)
    requires WaitersFit(s.waiters, s.tasks) && FinishedBefore(s.tasks, s.now) && Active(f)
    ensures EntriesFit(s.cache, s.tasks + [f], s.now, s.step) && AnswersFit(s.answers, s.tasks + [f])
    ensures WaitersFit(s.waiters, s.tasks + [f]) && FinishedBefore(s.tasks + [f], s.now)
  {
    var tasks := s.tasks + [f];
    assert forall t :: 0 <= t < |s.tasks| ==> tasks[t] == s.tasks[t];
  }

  lemma NewWaiterFits(waiters: seq<(Key, nat)>, tasks: seq<Fill>, w: (Key, nat))
    requires WaitersFit(waiters, tasks) && w.1 < |tasks| && tasks[w.1].key == w.0
    ensures WaitersFit(waiters + [w], tasks)
  {
  }

  lemma JoinKeeps(s: State, key: Key)
    requires Inv(s) && key in s.fills
    ensures Inv(s.(waiters := s.waiters + [(key, s.fills[key])], step := s.step + 1))
  {
    NewWaiterFits(s.waiters, s.tasks, (key, s.fills[key]));
  }

  lemma BeginKeeps(s: State, key: Key)
    requires Inv(s) && key !in s.fills && |s.fills| < MAX_FILLS
    ensures Inv(s.(tasks := s.tasks + [Fill(key, Waiting)], fills := s.fills[key := |s.tasks|],
                   waiters := s.waiters + [(key, |s.tasks|)], step := s.step + 1))
  {
    var f := Fill(key, Waiting);
    FlightBegins(s.tasks, s.fills, key);
    CallsAppend(s.tasks, f);
    NewFillFits(s, f);
    NewWaiterFits(s.waiters, s.tasks + [f], (key, |s.tasks|));
  }

  lemma ReadKeeps(s: State, key: Key)
    requires Inv(s)
    ensures Inv(OnRead(s, key))
  {
    if IsFresh(s, key) {
      HitKeeps(s, Position(s.cache, key).value);
    } else if key in s.fills {
      JoinKeeps(s, key);
    } else if |s.fills| < MAX_FILLS {
      BeginKeeps(s, key);
    }
  }

  lemma StartKeeps(s: State, t: nat)
    requires Inv(s)
    ensures Inv(OnStart(s, t))
  {
    if t < |s.tasks| && s.tasks[t].phase == Waiting && s.running < s.capacity {
      var f := s.tasks[t].(phase := Calling);
      PhaseKeepsOthers(s, t, f);
      CallsUpdate(s.tasks, t, f);
    }
  }

  lemma ReplacedFits(cache: seq<Entry>, tasks: seq<Fill>, now: int, step: nat, i: nat, e: Entry)
    requires EntriesFit(cache, tasks, now, step) && i < |cache|
    requires e.key == cache[i].key && e.touched == cache[i].touched && FromCall(tasks, e.key, e.value, e.call, e.at) && e.at <= now
    ensures EntriesFit(cache[i := e], tasks, now, step)
  {
  }

  lemma AppendedFits(cache: seq<Entry>, tasks: seq<Fill>, now: int, step: nat, e: Entry)
    requires EntriesFit(cache, tasks, now, step) && |cache| < MAX_ENTRIES && e.touched == step
    requires FromCall(tasks, e.key, e.value, e.call, e.at) && e.at <= now
    requires forall i :: 0 <= i < |cache| ==> cache[i].key != e.key
    ensures EntriesFit(cache + [e], tasks, now, step + 1)
  {
  }

  lemma TailFits(cache: seq<Entry>, tasks: seq<Fill>, now: int, step: nat)
    requires EntriesFit(cache, tasks, now, step) && cache != []
    ensures EntriesFit(cache[1..], tasks, now, step)
  {
    var rest := cache[1..];
    assert forall j :: 0 <= j < |rest| ==> rest[j] == cache[j + 1];
  }

  lemma StoredFits(s: State, t: nat, value: Value, tasks: seq<Fill>)
    requires EntriesFit(s.cache, tasks, s.now, s.step) && t < |tasks| && tasks[t].phase == Done(value, s.now)
    ensures EntriesFit(Stored(s, tasks[t].key, value, t), tasks, s.now, s.step + 1)
  {
    var key := tasks[t].key;
    match Position(s.cache, key)
    case Some(i) =>
      ReplacedFits(s.cache, tasks, s.now, s.step, i, Entry(key, s.now, value, t, s.cache[i].touched));
    case None =>
      if |s.cache| >= MAX_ENTRIES {
        TailFits(s.cache, tasks, s.now, s.step);
      }
      AppendedFits(if |s.cache| >= MAX_ENTRIES then s.cache[1..] else s.cache, tasks, s.now, s.step, Entry(key, s.now, value, t, s.step));
  }

  lemma FinishKeeps(s: State, t: nat, value: Value)
    requires Inv(s)
    ensures Inv(OnFinish(s, t, value))
  {
    if t < |s.tasks| && s.tasks[t].phase == Calling && s.running > 0 {
      var f := s.tasks[t].(phase := Done(value, s.now));
      PhaseKeepsOthers(s, t, f);
      CallsUpdate(s.tasks, t, f);
      FlightEnds(s.tasks, s.fills, t, f);
      StoredFits(s, t, value, s.tasks[t := f]);
    }
  }

  lemma FailKeeps(s: State, t: nat)
    requires Inv(s)
    ensures Inv(OnFail(s, t))
  {
    if t < |s.tasks| && (s.tasks[t].phase == Waiting || (s.tasks[t].phase == Calling && s.running > 0)) {
      var f := s.tasks[t].(phase := Dead);
      PhaseKeepsOthers(s, t, f);
      CallsUpdate(s.tasks, t, f);
      FlightEnds(s.tasks, s.fills, t, f);
    }
  }

  lemma OneWaiterLess(waiters: seq<(Key, nat)>, tasks: seq<Fill>, w: nat)
    requires WaitersFit(waiters, tasks) && w < |waiters|
    ensures WaitersFit(Without(waiters, w), tasks)
  {
    var rest := Without(waiters, w);
    assert forall j :: 0 <= j < |rest| ==> rest[j] == waiters[if j < w then j else j + 1];
  }

  lemma DeliverKeeps(s: State, w: nat)
    requires Inv(s)
    ensures Inv(OnDeliver(s, w))
  {
    if w < |s.waiters| && s.waiters[w].1 < |s.tasks| {
      OneWaiterLess(s.waiters, s.tasks, w);
    }
  }

  lemma StepKeeps(s: State, step: Step)
    requires Inv(s)
    ensures Inv(Next(s, step))
  {
    match step
    case Read(key) => ReadKeeps(s, key);
    case Start(t) => StartKeeps(s, t);
    case Finish(t, value) => FinishKeeps(s, t, value);
    case Fail(t) => FailKeeps(s, t);
    case Deliver(w) => DeliverKeeps(s, w);
    case Leave(w) =>
      if w < |s.waiters| {
        OneWaiterLess(s.waiters, s.tasks, w);
      }
    case Tick(_) =>
  }

  lemma {:induction false} RunKeeps(capacity: nat, now: int, steps: seq<Step>)
    ensures Inv(Run(Initial(capacity, now), steps)) && Run(Initial(capacity, now), steps).capacity == capacity
  {
    if steps != [] {
      RunKeeps(capacity, now, steps[..|steps| - 1]);
      StepKeeps(Run(Initial(capacity, now), steps[..|steps| - 1]), steps[|steps| - 1]);
    }
  }

  /** In every interleaving: one fill per key, bounded fills, entries and inner calls, and only rightful answers. */
  lemma CacheIsSafe(capacity: nat, now: int, steps: seq<Step>)
    ensures var s := Run(Initial(capacity, now), steps);
      && (forall t, u :: 0 <= t < u < |s.tasks| && Active(s.tasks[t]) && Active(s.tasks[u]) ==> s.tasks[t].key != s.tasks[u].key)
      && |s.fills| <= 128 && |s.cache| <= 128 && Calls(s.tasks) <= capacity
      && (forall a :: 0 <= a < |s.answers| ==>
            var x := s.answers[a];
            x.call < |s.tasks| && s.tasks[x.call].key == x.key && s.tasks[x.call].phase.Done?
            && s.tasks[x.call].phase.value == x.value && s.tasks[x.call].phase.at <= x.time
            && (x.awaited || x.time - s.tasks[x.call].phase.at < 20))
  {
    RunKeeps(capacity, now, steps);
  }

  /** Times are what they say: an answer carries the moment it was given, a finished call the moment it finished. */
  lemma TimesAreTrue(s: State, step: Step)
    ensures var s' := Next(s, step);
      && (s'.answers == s.answers || (|s'.answers| == |s.answers| + 1 && s'.answers[..|s.answers|] == s.answers
                                      && s'.answers[|s.answers|].time == s.now))
      && (forall t :: 0 <= t < |s.tasks| ==>
            t < |s'.tasks| && (s'.tasks[t] != s.tasks[t] && s'.tasks[t].phase.Done? ==> s'.tasks[t].phase.at == s.now))
      && s.now <= s'.now
  {
  }

  lemma {:induction false} RunFromKeeps(s: State, steps: seq<Step>)
    requires Inv(s)
    ensures Inv(Run(s, steps))
  {
    if steps != [] {
      RunFromKeeps(s, steps[..|steps| - 1]);
      StepKeeps(Run(s, steps[..|steps| - 1]), steps[|steps| - 1]);
    }
  }

  /** Fills stay, with their keys; one that has ended is never active again; a new one has a key that is not under way. */
  ghost predicate FillsEvolve(fills: map<Key, nat>, a: seq<Fill>, b: seq<Fill>) {
    && |a| <= |b| <= |a| + 1
    && (forall t :: 0 <= t < |a| ==> b[t].key == a[t].key && (Active(b[t]) ==> Active(a[t])))
    && (|b| > |a| ==> b[|a|].key !in fills)
  }

  lemma PhaseEvolves(fills: map<Key, nat>, tasks: seq<Fill>, t: nat, f: Fill)
    requires t < |tasks| && Advances(tasks[t], f)
    ensures FillsEvolve(fills, tasks, tasks[t := f]) && FillsEvolve(fills, tasks, tasks)
  {
  }

  lemma StepEvolves(s: State, step: Step)
    requires Inv(s)
    ensures FillsEvolve(s.fills, s.tasks, Next(s, step).tasks)
  {
    match step
    case Read(key) => ReadEvolves(s, key);
    case Start(t) => StartEvolves(s, t);
    case Finish(t, value) => EndEvolves(s, t, value);
    case Fail(t) => EndEvolves(s, t, 0);
    case _ =>
  }

  lemma StartEvolves(s: State, t: nat)
    ensures FillsEvolve(s.fills, s.tasks, OnStart(s, t).tasks)
  {
    if t < |s.tasks| && s.tasks[t].phase == Waiting {
      PhaseEvolves(s.fills, s.tasks, t, s.tasks[t].(phase := Calling));
    }
  }

  lemma EndEvolves(s: State, t: nat, value: Value)
    ensures FillsEvolve(s.fills, s.tasks, OnFinish(s, t, value).tasks) && FillsEvolve(s.fills, s.tasks, OnFail(s, t).tasks)
  {
    if t < |s.tasks| && Active(s.tasks[t]) {
      PhaseEvolves(s.fills, s.tasks, t, s.tasks[t].(phase := Done(value, s.now)));
      PhaseEvolves(s.fills, s.tasks, t, s.tasks[t].(phase := Dead));
    }
  }

  lemma ReadEvolves(s: State, key: Key)
    ensures FillsEvolve(s.fills, s.tasks, OnRead(s, key).tasks)
  {
  }

  /** Fill `t` has the key it had when there were `n` fills, and while it is active no later fill has that key. */
  ghost predicate Alone(tasks: seq<Fill>, n: nat, t: nat, key: Key) {
    && t < n <= |tasks| && tasks[t].key == key
    && (Active(tasks[t]) ==> forall u :: n <= u < |tasks| ==> tasks[u].key != key)
  }

  lemma StillAlone(fills: map<Key, nat>, a: seq<Fill>, b: seq<Fill>, n: nat, t: nat, key: Key)
    requires SingleFlight(a, fills) && FillsEvolve(fills, a, b) && Alone(a, n, t, key)
    ensures Alone(b, n, t, key)
  {
    if Active(b[t]) {
      assert Active(a[t]) && key in fills;
    }
  }

  /**
   However reads, fills and failures interleave, no second call of a key is made while one is
   under way: as long as a fill has not ended, every reader of its key joins it or is served a
   fresh value.
   */
  lemma {:induction false} NoSecondCall(s: State, steps: seq<Step>, t: nat)
    requires Inv(s) && t < |s.tasks|
    ensures Alone(Run(s, steps).tasks, |s.tasks|, t, s.tasks[t].key)
    ensures Active(Run(s, steps).tasks[t]) ==> Active(s.tasks[t])
    ensures Active(Run(s, steps).tasks[t]) ==> s.tasks[t].key in Run(s, steps).fills && Run(s, steps).fills[s.tasks[t].key] == t
  {
    RunFromKeeps(s, steps);
    if steps != [] {
      var before, last := steps[..|steps| - 1], steps[|steps| - 1];
      NoSecondCall(s, before, t);
      RunFromKeeps(s, before);
      OneMoreStep(Run(s, before), last, |s.tasks|, t, s.tasks[t].key);
    }
  }

  lemma OneMoreStep(s: State, step: Step, n: nat, t: nat, key: Key)
    requires Inv(s) && Alone(s.tasks, n, t, key)
    ensures Alone(Next(s, step).tasks, n, t, key) && (Active(Next(s, step).tasks[t]) ==> Active(s.tasks[t]))
  {
    StepEvolves(s, step);
    StillAlone(s.fills, s.tasks, Next(s, step).tasks, n, t, key);
  }

  /** What is evicted is the entry whose last hit or first storing is longest ago; refreshing it does not count. */
  lemma EvictsLeastRecentlyTouched(s: State, t: nat, value: Value)
    requires Inv(s) && t < |s.tasks| && s.tasks[t].phase == Calling
    ensures forall i :: 0 <= i < |s.cache| && (forall e :: e in OnFinish(s, t, value).cache ==> e.key != s.cache[i].key) ==>
      forall j :: 0 <= j < |s.cache| && j != i ==> s.cache[i].touched < s.cache[j].touched
  {
    CallingIsCounted(s.tasks, t);
    forall i | 0 <= i < |s.cache| ensures i == 0 || exists e :: e in OnFinish(s, t, value).cache && e.key == s.cache[i].key {
      if i > 0 {
        KeptUnlessFirst(s, s.tasks[t].key, value, t, i);
      }
    }
  }

  lemma {:induction false} CallingIsCounted(tasks: seq<Fill>, t: nat)
    requires t < |tasks| && tasks[t].phase == Calling
    ensures Calls(tasks) > 0
  {
    if t < |tasks| - 1 {
      CallingIsCounted(tasks[..|tasks| - 1], t);
    }
  }

  lemma KeptUnlessFirst(s: State, key: Key, value: Value, t: nat, i: nat)
    requires 0 < i < |s.cache|
    ensures exists e :: e in Stored(s, key, value, t) && e.key == s.cache[i].key
  {
    var after := Stored(s, key, value, t);
    var k := if Position(s.cache, key).None? && |s.cache| >= MAX_ENTRIES then i - 1 else i;
    assert after[k] in after && after[k].key == s.cache[i].key;
  }
}
