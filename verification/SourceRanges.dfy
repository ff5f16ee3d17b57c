/**
 The compilation of an oversized source into line ranges within a byte budget.
 */
module SourceRanges {
  import opened Prelude

  /** Lines of a definition, counted from one. */
  datatype Symbol = Symbol(line: nat, end: nat)

  /** Lines `start + 1` to `end` of the source. */
  datatype Span = Span(start: nat, end: nat)

  /** First and last line, counted from one. */
  datatype Range = Range(startLine: nat, endLine: nat, text: string)

  datatype Compiled = Whole(text: string) | Parts(ranges: seq<Range>)

  /** `PastTheEnd` is an index error: a span that reaches beyond the last line. */
  datatype Failure = PastTheEnd | NothingFits

  const HEAD_LINES: nat := 35
  const RANKED: nat := 8
  const LONGEST_SYMBOL: nat := 140

  // --------------------------------------------------------------------- the spans

  /** `a` is ranked before `b`: more matching words, or the same and an earlier line. */
  predicate Better(scores: seq<nat>, a: nat, b: nat)
    requires a < |scores| && b < |scores|
  {
    scores[a] > scores[b] || (scores[a] == scores[b] && a < b)
  }

  /** The best line below `n` that is not taken. */
  function Best(scores: seq<nat>, n: nat, taken: set<nat>): (r: Option<nat>)
    requires n <= |scores|
    ensures r.Some? ==> r.value < n && r.value !in taken
                        && forall i :: 0 <= i < n && i !in taken && i != r.value ==> Better(scores, r.value, i)
    ensures r.None? ==> forall i :: 0 <= i < n ==> i in taken
  {
    if n == 0 then None
    else
      var before := Best(scores, n - 1, taken);
      if n - 1 in taken then before
      else if before.None? || scores[n - 1] > scores[before.value] then Some(n - 1)
      else before
  }

  /** `heapq.nsmallest(k, ((-score, index), ...))`: the best lines, best first. */
  function Top(scores: seq<nat>, k: nat, taken: set<nat>): seq<nat> {
    if k == 0 then []
    else
      match Best(scores, |scores|, taken)
      case None => []
      case Some(i) => [i] + Top(scores, k - 1, taken + {i})
  }

  function Around(symbols: seq<Symbol>, index: nat): Option<Symbol> {
    if symbols == [] then None
    else if symbols[0].line <= index + 1 <= symbols[0].end && symbols[0].end - symbols[0].line <= LONGEST_SYMBOL
    then Some(symbols[0])
    else Around(symbols[1..], index)
  }

  function Min(a: nat, b: nat): nat {
    if a <= b then a else b
  }

  /** The span of a matching line: its definition, or a window around it. */
  function SpanOf(count: nat, symbols: seq<Symbol>, index: nat): Span {
    match Around(symbols, index)
    case Some(s) => Span(if s.line == 0 then 0 else s.line - 1, s.end)
    case None => Span(if index < 12 then 0 else index - 12, Min(count, index + 45))
  }

  function Matches(count: nat, scores: seq<nat>, symbols: seq<Symbol>, ranked: seq<nat>): seq<Span>
    requires forall i :: 0 <= i < |ranked| ==> ranked[i] < |scores|
  {
    if ranked == [] then []
    else
      var last := ranked[|ranked| - 1];
      Matches(count, scores, symbols, ranked[..|ranked| - 1])
      + (if scores[last] == 0 then [] else [SpanOf(count, symbols, last)])
  }

  lemma {:induction false} TopIsInRange(scores: seq<nat>, k: nat, taken: set<nat>)
    ensures forall i :: 0 <= i < |Top(scores, k, taken)| ==> Top(scores, k, taken)[i] < |scores|
  {
    if k > 0 && Best(scores, |scores|, taken).Some? {
      TopIsInRange(scores, k - 1, taken + {Best(scores, |scores|, taken).value});
    }
  }

  /** The best lines are in rank order, and no other line is better than any of them. */
  lemma {:induction false} TopIsBest(scores: seq<nat>, k: nat, taken: set<nat>)
    ensures var top := Top(scores, k, taken);
      && |top| <= k
      && (forall r :: r in top ==> r < |scores| && r !in taken)
      && (forall i, j :: 0 <= i < j < |top| ==> top[i] < |scores| && top[j] < |scores| && Better(scores, top[i], top[j]))
      && (forall i, r :: 0 <= r < |scores| && r !in taken && r !in top && 0 <= i < |top| ==> top[i] < |scores| && Better(scores, top[i], r))
      && (|top| < k ==> forall r :: 0 <= r < |scores| && r !in taken ==> r in top)
  {
    if k > 0 && Best(scores, |scores|, taken).Some? {
      var b := Best(scores, |scores|, taken).value;
      TopIsBest(scores, k - 1, taken + {b});
    }
  }

  function Spans(count: nat, scores: seq<nat>, symbols: seq<Symbol>): seq<Span> {
    TopIsInRange(scores, RANKED, {});
    [Span(0, Min(HEAD_LINES, count))] + Matches(count, scores, symbols, Top(scores, RANKED, {}))
  }

  // ----------------------------------------------------------------- the selection

  /** The bytes of the selected lines below `n`. */
  function SizeOf(lines: seq<string>, selected: set<nat>, n: nat): nat
    requires n <= |lines|
  {
    if n == 0 then 0 else SizeOf(lines, selected, n - 1) + (if n - 1 in selected then Utf8Size(lines[n - 1]) else 0)
  }

  predicate Covers(span: Span, i: nat) {
    span.start <= i < span.end
  }

  /** `set(range(start, end))`. */
  function Indexes(span: Span): set<nat> {
    set i: nat | span.start <= i < span.end && Covers(span, i)
  }

  /** What is selected after some spans: each is taken as a whole if it still fits. None is an index error. */
  function Selected(lines: seq<string>, spans: seq<Span>, budget: nat): Option<set<nat>> {
    if spans == [] then Some({})
    else
      match Selected(lines, spans[..|spans| - 1], budget)
      case None => None
      case Some(before) =>
        var extra := Indexes(spans[|spans| - 1]) - before;
        if exists i :: i in extra && i >= |lines| then None
        else if SizeOf(lines, before, |lines|) + SizeOf(lines, extra, |lines|) <= budget then Some(before + extra)
        else Some(before)
  }

  lemma {:induction false} SizesAdd(lines: seq<string>, a: set<nat>, b: set<nat>, n: nat)
    requires n <= |lines| && a !! b
    ensures SizeOf(lines, a + b, n) == SizeOf(lines, a, n) + SizeOf(lines, b, n)
  {
    if n > 0 {
      SizesAdd(lines, a, b, n - 1);
    }
  }

  lemma {:induction false} NothingIsEmpty(lines: seq<string>, n: nat)
    requires n <= |lines|
    ensures SizeOf(lines, {}, n) == 0
  {
    if n > 0 {
      NothingIsEmpty(lines, n - 1);
    }
  }

  /** What is selected are lines of the source, from the spans, within the budget. */
  lemma {:induction false} SelectionFits(lines: seq<string>, spans: seq<Span>, budget: nat)
    ensures var s := Selected(lines, spans, budget);
      s.Some? ==>
        && SizeOf(lines, s.value, |lines|) <= budget
        && (forall i :: i in s.value ==> i < |lines| && exists k :: 0 <= k < |spans| && i in Indexes(spans[k]))
  {
    if spans == [] {
      NothingIsEmpty(lines, |lines|);
    } else if Selected(lines, spans, budget).Some? {
      var front := spans[..|spans| - 1];
      SelectionFits(lines, front, budget);
      var before := Selected(lines, front, budget).value;
      var extra := Indexes(spans[|spans| - 1]) - before;
      SizesAdd(lines, before, extra, |lines|);
      forall i | i in Selected(lines, spans, budget).value
        ensures i < |lines| && exists k :: 0 <= k < |spans| && i in Indexes(spans[k])
      {
        if i in before {
          var k :| 0 <= k < |front| && i in Indexes(front[k]);
          assert i in Indexes(spans[k]);
        } else {
          assert i in Indexes(spans[|spans| - 1]);
        }
      }
    }
  }

  /** The selection fails exactly when some span reaches past the last line. */
  lemma {:induction false} FailsExactlyPastTheEnd(lines: seq<string>, spans: seq<Span>, budget: nat)
    ensures Selected(lines, spans, budget).None? <==> exists k :: 0 <= k < |spans| && spans[k].start < spans[k].end && spans[k].end > |lines|
  {
    if spans != [] {
      var n := |spans| - 1;
      var front, last := spans[..n], spans[n];
      FailsExactlyPastTheEnd(lines, front, budget);
      assert forall k :: 0 <= k < n ==> front[k] == spans[k];
      if Selected(lines, front, budget).Some? {
        SelectionFits(lines, front, budget);
        var before := Selected(lines, front, budget).value;
        if last.start < last.end && last.end > |lines| {
          assert last.end - 1 in Indexes(last) - before;
        }
      }
    }
  }

  predicate PastTheLast(count: nat, span: Span) {
    span.start < span.end && span.end > count
  }

  /** Line `i` is ranked, matches, and its span ends past the last line. */
  predicate Overruns(count: nat, scores: seq<nat>, symbols: seq<Symbol>, i: nat) {
    i in Top(scores, RANKED, {}) && i < |scores| && scores[i] > 0 && PastTheLast(count, SpanOf(count, symbols, i))
  }

  ghost predicate SomeOverrun(count: nat, scores: seq<nat>, symbols: seq<Symbol>) {
    exists i: nat :: Overruns(count, scores, symbols, i)
  }

  /** Every span of a match is that of a ranked matching line. */
  lemma {:induction false} MatchOf(count: nat, scores: seq<nat>, symbols: seq<Symbol>, ranked: seq<nat>, k: nat) returns (j: nat)
    requires forall i :: 0 <= i < |ranked| ==> ranked[i] < |scores|
    requires k < |Matches(count, scores, symbols, ranked)|
    ensures j < |ranked| && scores[ranked[j]] > 0 && Matches(count, scores, symbols, ranked)[k] == SpanOf(count, symbols, ranked[j])
  {
    var n := |ranked| - 1;
    var before := Matches(count, scores, symbols, ranked[..n]);
    if k < |before| {
      j := MatchOf(count, scores, symbols, ranked[..n], k);
    } else {
      j := n;
    }
  }

  /** Every ranked matching line has its span. */
  lemma {:induction false} SpanAmong(count: nat, scores: seq<nat>, symbols: seq<Symbol>, ranked: seq<nat>, j: nat) returns (k: nat)
    requires forall i :: 0 <= i < |ranked| ==> ranked[i] < |scores|
    requires j < |ranked| && scores[ranked[j]] > 0
    ensures k < |Matches(count, scores, symbols, ranked)| && Matches(count, scores, symbols, ranked)[k] == SpanOf(count, symbols, ranked[j])
  {
    var n := |ranked| - 1;
    if j < n {
      k := SpanAmong(count, scores, symbols, ranked[..n], j);
    } else {
      k := |Matches(count, scores, symbols, ranked[..n])|;
    }
  }

  /** The selection fails exactly when the span of some ranked matching line ends past the last line. */
  lemma SelectionFailsExactly(lines: seq<string>, scores: seq<nat>, symbols: seq<Symbol>, budget: nat)
    requires |scores| == |lines|
    ensures Selected(lines, Spans(|lines|, scores, symbols), budget).None? <==> SomeOverrun(|lines|, scores, symbols)
  {
    var count, top := |lines|, Top(scores, RANKED, {});
    var spans := Spans(count, scores, symbols);
    FailsExactlyPastTheEnd(lines, spans, budget);
    TopIsInRange(scores, RANKED, {});
    var matches := Matches(count, scores, symbols, top);
    assert forall k :: 0 <= k < |matches| ==> spans[k + 1] == matches[k];
    if exists k :: 0 <= k < |spans| && PastTheLast(count, spans[k]) {
      var k :| 0 <= k < |spans| && PastTheLast(count, spans[k]);
      assert k > 0 && PastTheLast(count, matches[k - 1]);
      var j := MatchOf(count, scores, symbols, top, k - 1);
      assert Overruns(count, scores, symbols, top[j]);
    }
    if SomeOverrun(count, scores, symbols) {
      var i: nat :| Overruns(count, scores, symbols, i);
      var j :| 0 <= j < |top| && top[j] == i;
      var k := SpanAmong(count, scores, symbols, top, j);
      assert PastTheLast(count, spans[k + 1]);
    }
  }

  lemma {:induction false} AroundIsWithin(symbols: seq<Symbol>, index: nat, count: nat)
    requires forall k :: 0 <= k < |symbols| ==> symbols[k].end <= count
    ensures Around(symbols, index).Some? ==> Around(symbols, index).value.end <= count
  {
    if symbols != [] {
      AroundIsWithin(symbols[1..], index, count);
    }
  }

  /** If any line matches, one of those that match is ranked. */
  lemma SomeMatchIsRanked(scores: seq<nat>, i: nat) returns (r: nat)
    requires i < |scores| && scores[i] > 0
    ensures r in Top(scores, RANKED, {}) && r < |scores| && scores[r] > 0
  {
    r := Best(scores, |scores|, {}).value;
    assert Top(scores, RANKED, {})[0] == r;
    assert i != r ==> Better(scores, r, i);
  }

  function NewlinesIn(line: string): nat {
    if line == [] then 0 else NewlinesIn(line[..|line| - 1]) + (if line[|line| - 1] == '\n' then 1 else 0)
  }

  lemma {:induction false} NoNewline(line: string)
    requires forall i :: 0 <= i < |line| ==> line[i] != '\n'
    ensures NewlinesIn(line) == 0
  {
    if line != [] {
      NoNewline(line[..|line| - 1]);
    }
  }

  lemma OneNewline(line: string)
    requires line != [] && line[|line| - 1] == '\n' && forall i :: 0 <= i < |line| - 1 ==> line[i] != '\n'
    ensures NewlinesIn(line) == 1
  {
    NoNewline(line[..|line| - 1]);
  }

  /** `text.count("\n")`. */
  function Newlines(lines: seq<string>): nat {
    if lines == [] then 0 else Newlines(lines[..|lines| - 1]) + NewlinesIn(lines[|lines| - 1])
  }

  /** The symbol that stands for a whole component. */
  function ComponentSymbol(lines: seq<string>): Symbol {
    Symbol(1, Newlines(lines) + 1)
  }

  /**
   The component symbol of a Svelte file spans one line too many when there are as many newlines
   as lines, which is the case when the file ends in one. If the other definitions lie within
   the file, the compilation of the oversized file then fails exactly if the symbol is short
   enough to be taken as a span and any line matches.
   */
  lemma ComponentFailsExactly(lines: seq<string>, scores: seq<nat>, symbols: seq<Symbol>)
    requires |scores| == |lines| && symbols != [] && symbols[0] == ComponentSymbol(lines)
    requires forall k :: 1 <= k < |symbols| ==> symbols[k].end <= |lines|
    ensures SomeOverrun(|lines|, scores, symbols)
       <==> Newlines(lines) >= |lines| && Newlines(lines) <= LONGEST_SYMBOL && exists i :: 0 <= i < |scores| && scores[i] > 0
  {
    forall i: nat | i < |lines|
      ensures PastTheLast(|lines|, SpanOf(|lines|, symbols, i)) <==> Newlines(lines) >= |lines| && Newlines(lines) <= LONGEST_SYMBOL
    {
      AroundIsWithin(symbols[1..], i, |lines|);
    }
    if Newlines(lines) >= |lines| && Newlines(lines) <= LONGEST_SYMBOL && exists i :: 0 <= i < |scores| && scores[i] > 0 {
      var i :| 0 <= i < |scores| && scores[i] > 0;
      var r := SomeMatchIsRanked(scores, i);
      assert Overruns(|lines|, scores, symbols, r);
    }
  }

  /** Two short lines that end in newlines, and one match: with a budget of one byte the compilation fails. */
  lemma ShortComponentFails()
    ensures var lines := ["<A/>\n", "b\n"];
            && TotalSize(lines) > 1 && SomeOverrun(2, [1, 0], [ComponentSymbol(lines)])
            && Selected(lines, Spans(2, [1, 0], [ComponentSymbol(lines)]), 1).None?
  {
    var lines: seq<string>, scores: seq<nat> := ["<A/>\n", "b\n"], [1, 0];
    var first, last := "<A/>\n", "b\n";
    OneNewline(first);
    OneNewline(last);
    assert lines[..1] == [first] && lines[..1][..0] == lines[..0] == [];
    assert Newlines([first]) == 1 && Newlines(lines) == 2;
    assert scores[0] > 0;
    ComponentFailsExactly(lines, scores, [ComponentSymbol(lines)]);
    SelectionFailsExactly(lines, scores, [ComponentSymbol(lines)], 1);
    assert Utf8Size(last) == Utf8Size(last[..1]) + 1;
    assert TotalSize(lines) == TotalSize(lines[..1]) + Utf8Size(lines[1]);
  }

  // --------------------------------------------------------------------- the ranges

  function Joined(lines: seq<string>): string {
    if lines == [] then [] else Joined(lines[..|lines| - 1]) + lines[|lines| - 1]
  }

  /** The ranges are exactly the maximal runs of the selected lines, in order, with their text. */
  ghost predicate MaximalRuns(lines: seq<string>, selected: set<nat>, ranges: seq<Range>) {
    && (forall r :: 0 <= r < |ranges| ==>
          && 1 <= ranges[r].startLine <= ranges[r].endLine <= |lines|
          && ranges[r].text == Joined(lines[ranges[r].startLine - 1..ranges[r].endLine]))
    && (forall r, q :: 0 <= r < q < |ranges| ==> ranges[r].endLine + 1 < ranges[q].startLine)
    && (forall i :: i in selected <==> InSome(ranges, i))
  }

  ghost predicate InSome(ranges: seq<Range>, i: nat) {
    exists r :: 0 <= r < |ranges| && ranges[r].startLine <= i + 1 <= ranges[r].endLine
  }

  /** `sorted(selected)`. */
  function Ordered(selected: set<nat>, n: nat): (r: seq<nat>)
    ensures forall i :: i in r <==> i < n && i in selected
    ensures forall i :: 0 <= i < |r| ==> r[i] < n
    ensures forall i, j :: 0 <= i < j < |r| ==> r[i] < r[j]
  {
    if n == 0 then []
    else if n - 1 in selected then Ordered(selected, n - 1) + [n - 1]
    else Ordered(selected, n - 1)
  }

  lemma OneMoreRange(ranges: seq<Range>, r: Range, i: nat)
    ensures InSome(ranges + [r], i) <==> InSome(ranges, i) || r.startLine <= i + 1 <= r.endLine
  {
    var all := ranges + [r];
    if InSome(ranges, i) {
      var k :| 0 <= k < |ranges| && ranges[k].startLine <= i + 1 <= ranges[k].endLine;
      assert all[k] == ranges[k];
    }
    if r.startLine <= i + 1 <= r.endLine {
      assert all[|ranges|] == r;
    }
    if InSome(all, i) {
      var k :| 0 <= k < |all| && all[k].startLine <= i + 1 <= all[k].endLine;
      assert k < |ranges| ==> ranges[k] == all[k];
    }
  }

  /** Below a bound: closed ranges so far, all of them before `limit`. */
  ghost predicate RunsBelow(lines: seq<string>, selected: set<nat>, ranges: seq<Range>, limit: nat) {
    && (forall r :: 0 <= r < |ranges| ==>
          && 1 <= ranges[r].startLine <= ranges[r].endLine <= |lines| && ranges[r].endLine < limit
          && ranges[r].text == Joined(lines[ranges[r].startLine - 1..ranges[r].endLine]))
    && (forall r, q :: 0 <= r < q < |ranges| ==> ranges[r].endLine + 1 < ranges[q].startLine)
    && (forall i :: 0 <= i < limit ==> (i in selected <==> InSome(ranges, i)))
  }

  lemma CloseRange(lines: seq<string>, selected: set<nat>, ranges: seq<Range>, start: nat, previous: nat, next: nat)
    requires RunsBelow(lines, selected, ranges, start) && start <= previous < next && previous < |lines|
    requires forall i :: start <= i <= previous ==> i in selected
    requires forall i :: previous < i < next ==> i !in selected
    requires next > previous + 1
    ensures RunsBelow(lines, selected, ranges + [Range(start + 1, previous + 1, Joined(lines[start..previous + 1]))], next)
  {
    var r := Range(start + 1, previous + 1, Joined(lines[start..previous + 1]));
    forall i | 0 <= i < next ensures i in selected <==> InSome(ranges + [r], i) {
      OneMoreRange(ranges, r, i);
      if i >= start {
        BeyondRanges(ranges, start, i);
      }
    }
  }

  lemma BeyondRanges(ranges: seq<Range>, limit: nat, i: nat)
    requires (forall r :: 0 <= r < |ranges| ==> ranges[r].endLine < limit) && i >= limit
    ensures !InSome(ranges, i)
  {
  }

  /** The run from `start` to `previous` is selected, and nothing else between the closed ranges and `next`. */
  ghost predicate OpenRun(lines: seq<string>, selected: set<nat>, ranges: seq<Range>, start: nat, previous: nat) {
    && start <= previous < |lines| && RunsBelow(lines, selected, ranges, start)
    && forall i :: start <= i <= previous ==> i in selected
  }

  lemma ClosedRuns(lines: seq<string>, selected: set<nat>, ranges: seq<Range>)
    requires RunsBelow(lines, selected, ranges, |lines| + 1) && forall i :: i in selected ==> i < |lines|
    ensures MaximalRuns(lines, selected, ranges)
  {
    forall i: nat ensures i in selected <==> InSome(ranges, i) {
      if i > |lines| {
        BeyondRanges(ranges, |lines| + 1, i);
      }
    }
  }

  lemma OrderedIsNonempty(selected: set<nat>, n: nat)
    requires selected != {} && forall i :: i in selected ==> i < n
    ensures Ordered(selected, n) != []
  {
    var some :| some in selected;
    assert some in Ordered(selected, n);
  }

  /** Selected lines are at or beyond the first one, and not between neighbours. */
  lemma NoneBetween(selected: set<nat>, n: nat, i: nat, k: nat)
    requires i in selected && i < n && k < |Ordered(selected, n)|
    ensures var o := Ordered(selected, n); (k == 0 ==> o[0] <= i) && (k > 0 ==> i <= o[k - 1] || o[k] <= i)
  {
    var o := Ordered(selected, n);
    assert i in o;
    var j :| 0 <= j < |o| && o[j] == i;
    assert j > k ==> o[k] < o[j];
    assert k > 0 && j < k - 1 ==> o[j] < o[k - 1];
  }

  lemma NoneAfter(selected: set<nat>, n: nat, i: nat)
    requires i in selected && i < n && Ordered(selected, n) != []
    ensures var o := Ordered(selected, n); i <= o[|o| - 1]
  {
    var o := Ordered(selected, n);
    assert i in o;
    var j :| 0 <= j < |o| && o[j] == i;
    assert j < |o| - 1 ==> o[j] < o[|o| - 1];
  }

  lemma FirstOpens(lines: seq<string>, selected: set<nat>, first: nat)
    requires first in selected && first < |lines| && forall i :: i in selected ==> first <= i
    ensures OpenRun(lines, selected, [], first, first)
  {
  }

  /** No selected line lies between. */
  ghost predicate Adjacent(selected: set<nat>, previous: nat, index: nat) {
    previous < index && forall i :: i in selected ==> i <= previous || index <= i
  }

  lemma Neighbours(selected: set<nat>, n: nat, k: nat)
    requires 0 < k < |Ordered(selected, n)| && forall i :: i in selected ==> i < n
    ensures var o := Ordered(selected, n); Adjacent(selected, o[k - 1], o[k]) && o[k] in selected && o[k] < n
  {
    var o := Ordered(selected, n);
    assert o[k] in o;
    forall i | i in selected ensures i <= o[k - 1] || o[k] <= i {
      NoneBetween(selected, n, i, k);
    }
  }

  lemma EndNeighbours(selected: set<nat>, n: nat)
    requires Ordered(selected, n) != [] && forall i :: i in selected ==> i < n
    ensures var o := Ordered(selected, n);
      && o[0] in selected && (forall i :: i in selected ==> o[0] <= i)
      && (forall i :: i in selected ==> i <= o[|o| - 1])
  {
    var o := Ordered(selected, n);
    assert o[0] in o;
    forall i | i in selected ensures o[0] <= i <= o[|o| - 1] {
      NoneBetween(selected, n, i, 0);
      NoneAfter(selected, n, i);
    }
  }

  /** The next selected line continues the run. */
  lemma RunGrows(lines: seq<string>, selected: set<nat>, ranges: seq<Range>, start: nat, previous: nat)
    requires OpenRun(lines, selected, ranges, start, previous) && previous + 1 in selected && previous + 1 < |lines|
    ensures OpenRun(lines, selected, ranges, start, previous + 1)
  {
  }

  /** ... or closes it and opens another one. */
  lemma RunCloses(lines: seq<string>, selected: set<nat>, ranges: seq<Range>, start: nat, previous: nat, index: nat)
    requires OpenRun(lines, selected, ranges, start, previous)
    requires Adjacent(selected, previous, index) && index > previous + 1 && index in selected && index < |lines|
    ensures OpenRun(lines, selected, ranges + [Range(start + 1, previous + 1, Joined(lines[start..previous + 1]))], index, index)
  {
    CloseRange(lines, selected, ranges, start, previous, index);
  }

  lemma LastCloses(lines: seq<string>, selected: set<nat>, ranges: seq<Range>, start: nat, previous: nat)
    requires forall i :: i in selected ==> i <= previous
    requires OpenRun(lines, selected, ranges, start, previous)
    ensures MaximalRuns(lines, selected, ranges + [Range(start + 1, previous + 1, Joined(lines[start..previous + 1]))])
  {
    CloseRange(lines, selected, ranges, start, previous, |lines| + 1);
    ClosedRuns(lines, selected, ranges + [Range(start + 1, previous + 1, Joined(lines[start..previous + 1]))]);
  }

  /** The next selected line continues the open range or closes it. */
  method NextLine(lines: seq<string>, ghost selected: set<nat>, ranges: seq<Range>, start: nat, previous: nat, index: nat)
    returns (extended: seq<Range>, first: nat)
    requires OpenRun(lines, selected, ranges, start, previous)
    requires Adjacent(selected, previous, index) && index in selected && index < |lines|
    ensures OpenRun(lines, selected, extended, first, index)
  {
    if index != previous + 1 {
      RunCloses(lines, selected, ranges, start, previous, index);
      return ranges + [Range(start + 1, previous + 1, Joined(lines[start..previous + 1]))], index;
    }
    RunGrows(lines, selected, ranges, start, previous);
    return ranges, start;
  }

  /** The loop that closes a range wherever the next selected line is not adjacent. */
  method GroupRanges(lines: seq<string>, selected: set<nat>) returns (ranges: seq<Range>)
    requires selected != {} && forall i :: i in selected ==> i < |lines|
    ensures MaximalRuns(lines, selected, ranges)
  {
    var ordered := Ordered(selected, |lines|);
    OrderedIsNonempty(selected, |lines|);
    EndNeighbours(selected, |lines|);
    FirstOpens(lines, selected, ordered[0]);
    ranges := [];
    var start, previous := ordered[0], ordered[0];
    var k := 1;
    while k < |ordered|
      invariant 1 <= k <= |ordered| && previous == ordered[k - 1]
      invariant OpenRun(lines, selected, ranges, start, previous)
    {
      Neighbours(selected, |lines|, k);
      ranges, start := NextLine(lines, selected, ranges, start, previous, ordered[k]);
      previous := ordered[k];
      k := k + 1;
    }
    LastCloses(lines, selected, ranges, start, previous);
    ranges := ranges + [Range(start + 1, previous + 1, Joined(lines[start..previous + 1]))];
  }

  // --------------------------------------------------------------------- the method

  function TotalSize(lines: seq<string>): nat {
    if lines == [] then 0 else TotalSize(lines[..|lines| - 1]) + Utf8Size(lines[|lines| - 1])
  }

  /** The bytes of the chosen lines of one span. */
  method SpanSize(lines: seq<string>, extra: set<nat>, span: Span) returns (size: Option<nat>)
    requires extra <= Indexes(span)
    ensures size.None? <==> exists i :: i in extra && i >= |lines|
    ensures size.Some? ==> size.value == SizeOf(lines, extra, |lines|)
  {
    if i :| i in extra && i >= |lines| {
      return None;
    }
    var n, total := 0, 0;
    while n < |lines|
      invariant 0 <= n <= |lines| && total == SizeOf(lines, extra, n)
    {
      if n in extra {
        total := total + Utf8Size(lines[n]);
      }
      n := n + 1;
    }
    return Some(total);
  }

  /** The selection loop, with its remaining budget. */
  method SelectLines(lines: seq<string>, spans: seq<Span>, budget: nat) returns (selected: Option<set<nat>>)
    ensures selected == Selected(lines, spans, budget)
  {
    var chosen: set<nat> := {};
    var remaining := budget;
    var k := 0;
    NothingIsEmpty(lines, |lines|);
    while k < |spans|
      invariant 0 <= k <= |spans| && Selected(lines, spans[..k], budget) == Some(chosen)
      invariant remaining == budget - SizeOf(lines, chosen, |lines|) >= 0
    {
      assert spans[..k + 1][..k] == spans[..k];
      var extra := Indexes(spans[k]) - chosen;
      var size := SpanSize(lines, extra, spans[k]);
      if size.None? {
        SelectionStops(lines, spans, k + 1, budget);
        return None;
      }
      if size.value <= remaining {
        SizesAdd(lines, chosen, extra, |lines|);
        chosen, remaining := chosen + extra, remaining - size.value;
      }
      k := k + 1;
    }
    assert spans[..k] == spans;
    return Some(chosen);
  }

  lemma {:induction false} SelectionStops(lines: seq<string>, spans: seq<Span>, n: nat, budget: nat)
    requires n <= |spans| && Selected(lines, spans[..n], budget).None?
    ensures Selected(lines, spans, budget).None?
    decreases |spans| - n
  {
    if n < |spans| {
      assert spans[..n + 1][..n] == spans[..n];
      SelectionStops(lines, spans, n + 1, budget);
    } else {
      assert spans[..n] == spans;
    }
  }

  /**
   `compile_source`. A small source is returned whole; otherwise the ranges are exactly the
   maximal runs of the selected lines, and their lines fit the budget.
   */
  method CompileSource(lines: seq<string>, scores: seq<nat>, symbols: seq<Symbol>, budget: nat) returns (r: Result<Compiled, Failure>)
    requires |scores| == |lines|
    ensures TotalSize(lines) <= budget ==> r == Ok(Whole(Joined(lines)))
    ensures TotalSize(lines) > budget ==>
      match Selected(lines, Spans(|lines|, scores, symbols), budget)
      case None => r == Err(PastTheEnd)
      case Some(selected) =>
        if selected == {} then r == Err(NothingFits)
        else r.Ok? && r.value.Parts? && MaximalRuns(lines, selected, r.value.ranges) && SizeOf(lines, selected, |lines|) <= budget
    ensures r == Err(PastTheEnd) <==> TotalSize(lines) > budget && SomeOverrun(|lines|, scores, symbols)
  {
    SelectionFailsExactly(lines, scores, symbols, budget);
    if TotalSize(lines) <= budget {
      return Ok(Whole(Joined(lines)));
    }
    var spans := Spans(|lines|, scores, symbols);
    var selected := SelectLines(lines, spans, budget);
    if selected.None? {
      return Err(PastTheEnd);
    }
    SelectionFits(lines, spans, budget);
    if selected.value == {} {
      return Err(NothingFits);
    }
    var ranges := GroupRanges(lines, selected.value);
    return Ok(Parts(ranges));
  }

  /** Two groupings of the same lines are the same: the ranges are determined. */
  lemma {:induction false} RunsAreUnique(lines: seq<string>, selected: set<nat>, a: seq<Range>, b: seq<Range>, n: nat)
    requires MaximalRuns(lines, selected, a) && MaximalRuns(lines, selected, b) && n <= |a| && n <= |b|
    ensures a[..n] == b[..n]
  {
    if n > 0 {
      RunsAreUnique(lines, selected, a, b, n - 1);
      SameRun(lines, selected, a, b, n - 1);
      assert a[..n] == a[..n - 1] + [a[n - 1]] && b[..n] == b[..n - 1] + [b[n - 1]];
    }
  }

  lemma SameRun(lines: seq<string>, selected: set<nat>, a: seq<Range>, b: seq<Range>, k: nat)
    requires MaximalRuns(lines, selected, a) && MaximalRuns(lines, selected, b) && k < |a| && k < |b| && a[..k] == b[..k]
    ensures a[k] == b[k]
  {
    StartsNoLater(lines, selected, a, b, k);
    StartsNoLater(lines, selected, b, a, k);
    EndsNoLater(lines, selected, a, b, k);
    EndsNoLater(lines, selected, b, a, k);
  }

  lemma StartsNoLater(lines: seq<string>, selected: set<nat>, a: seq<Range>, b: seq<Range>, k: nat)
    requires MaximalRuns(lines, selected, a) && MaximalRuns(lines, selected, b) && k < |a| && k < |b| && a[..k] == b[..k]
    ensures b[k].startLine <= a[k].startLine
  {
    var i: nat := a[k].startLine - 1;
    assert InSome(a, i) && i in selected;
    forall r | 0 <= r < k ensures b[r].endLine < i + 1 {
      assert a[..k][r] == b[..k][r];
      assert a[r].endLine + 1 < a[k].startLine;
    }
    var r :| 0 <= r < |b| && b[r].startLine <= i + 1 <= b[r].endLine;
    assert r > k ==> b[k].endLine + 1 < b[r].startLine;
  }

  /** The line after a run is not selected. */
  lemma RunEnds(lines: seq<string>, selected: set<nat>, b: seq<Range>, k: nat)
    requires MaximalRuns(lines, selected, b) && k < |b|
    ensures b[k].endLine !in selected
  {
    var i: nat := b[k].endLine;
    forall r | 0 <= r < |b| ensures !(b[r].startLine <= i + 1 <= b[r].endLine) {
      assert r > k ==> b[k].endLine + 1 < b[r].startLine;
      assert r < k ==> b[r].endLine + 1 < b[k].startLine;
    }
    assert !InSome(b, i);
  }

  lemma EndsNoLater(lines: seq<string>, selected: set<nat>, a: seq<Range>, b: seq<Range>, k: nat)
    requires MaximalRuns(lines, selected, a) && MaximalRuns(lines, selected, b) && k < |a| && k < |b| && a[k].startLine == b[k].startLine
    ensures a[k].endLine <= b[k].endLine
  {
    RunEnds(lines, selected, b, k);
    assert b[k].endLine + 1 <= a[k].endLine ==> InSome(a, b[k].endLine);
  }
}
