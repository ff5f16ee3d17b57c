/**
 The syntax index of a repository, kept up to date by file signatures, and the catalogue of
 paths that a survey offers. Digests are injective, so a content stands for its own digest and
 the index key for what was digested.
 */
module RepositoryIndex {
  import opened Prelude

  type Content = string
  type Signature = seq<int>

  /** One eligible file in walk order. */
  datatype File = File(path: string, signature: Signature, size: nat, content: Content)

  datatype Workspace = Workspace(root: string, sha: string, files: seq<File>)

  /** What `extract` and the search text make of a file, and its content hash. */
  datatype Meta = Meta(imports: seq<string>, symbols: seq<string>, searchText: string)

  /** `dependencies` is absent on a row that was not part of a finished index yet. */
  datatype Row = Row(path: string, meta: Meta, signature: Signature, hash: Content, dependencies: Option<seq<string>>)

  datatype Index = Index(sha: string, root: string, key: Key, partial: bool, files: seq<Row>)

  datatype Key = Key(sha: string, entries: seq<(string, Content)>)

  const MAX_FILES: nat := 2500
  const MAX_TOTAL: nat := 30000000

  /** The parser and the import resolver. */
  datatype Syntax = Syntax(extract: (string, Content) -> Meta, resolve: (string, Meta, set<string>) -> seq<string>)

  // -------------------------------------------------------------- the specification

  function Find(rows: seq<Row>, path: string): Option<Row> {
    if rows == [] then None
    else if rows[|rows| - 1].path == path then Some(rows[|rows| - 1])
    else Find(rows[..|rows| - 1], path)
  }

  /** A file's row: the cached one if its signature is unchanged, else a new one. */
  function RowOf(x: Syntax, f: File, cached: seq<Row>): Row {
    if Unchanged(f, cached) then Find(cached, f.path).value
    else Row(f.path, x.extract(f.path, f.content), f.signature, f.content, None)
  }

  function TotalSize(files: seq<File>): nat {
    if files == [] then 0 else TotalSize(files[..|files| - 1]) + files[|files| - 1].size
  }

  /** How many files are indexed: the walk stops at the first one beyond a limit. */
  function Admitted(files: seq<File>, n: nat): (r: nat)
    requires n <= |files|
    ensures r <= n
  {
    if n == 0 then 0
    else
      var before := Admitted(files, n - 1);
      if before < n - 1 || before >= MAX_FILES || TotalSize(files[..before]) >= MAX_TOTAL then before else n
  }

  function Rows(x: Syntax, files: seq<File>, cached: seq<Row>): (r: seq<Row>)
    ensures |r| == |files|
  {
    if files == [] then [] else Rows(x, files[..|files| - 1], cached) + [RowOf(x, files[|files| - 1], cached)]
  }

  function Entries(rows: seq<Row>): seq<(string, Content)> {
    seq(|rows|, i requires 0 <= i < |rows| => (rows[i].path, rows[i].hash))
  }

  function Paths(rows: seq<Row>): set<string> {
    set r | r in rows :: r.path
  }

  function Resolved(x: Syntax, rows: seq<Row>): seq<Row> {
    seq(|rows|, i requires 0 <= i < |rows| =>
      rows[i].(dependencies := Some(x.resolve(rows[i].path, rows[i].meta, Paths(rows)))))
  }

  /** The saved index, unless it is of another root. */
  function Previous(w: Workspace, saved: Option<Index>): Option<Index> {
    if saved.Some? && saved.value.root == w.root then saved else None
  }

  function Cached(w: Workspace, saved: Option<Index>): seq<Row> {
    if Previous(w, saved).Some? then saved.value.files else []
  }

  /** `_index_snapshot`: the previous index if nothing changed, else a new one. */
  function Snapshot(x: Syntax, w: Workspace, saved: Option<Index>): Index {
    var n := Admitted(w.files, |w.files|);
    var rows := Rows(x, w.files[..n], Cached(w, saved));
    var key := Key(w.sha, Entries(rows));
    var previous := Previous(w, saved);
    if previous.Some? && previous.value.key == key && previous.value.files == rows && previous.value.partial == (n < |w.files|)
    then previous.value
    else Index(w.sha, w.root, key, n < |w.files|, Resolved(x, rows))
  }

  // ------------------------------------------------------------------ the algorithm

  /** A file of this path has no cached row with its signature. */
  ghost predicate Changed(files: seq<File>, cached: seq<Row>, path: string) {
    exists i :: 0 <= i < |files| && files[i].path == path && !Unchanged(files[i], cached)
  }

  predicate Unchanged(f: File, cached: seq<Row>) {
    Find(cached, f.path).Some? && Find(cached, f.path).value.signature == f.signature
  }

  lemma ChangedStep(files: seq<File>, f: File, cached: seq<Row>, path: string)
    ensures Changed(files + [f], cached, path) <==> Changed(files, cached, path) || (f.path == path && !Unchanged(f, cached))
  {
    var all := files + [f];
    if Changed(files, cached, path) {
      var i :| 0 <= i < |files| && files[i].path == path && !Unchanged(files[i], cached);
      assert all[i] == files[i];
    }
    if f.path == path && !Unchanged(f, cached) {
      assert all[|files|] == f;
    }
    if Changed(all, cached, path) {
      var i :| 0 <= i < |all| && all[i].path == path && !Unchanged(all[i], cached);
      assert i < |files| ==> files[i] == all[i];
    }
  }

  /** The walk: `rows`, and the paths whose contents had to be read. */
  method Walk(x: Syntax, files: seq<File>, cached: seq<Row>) returns (rows: seq<Row>, partial: bool, read: seq<string>)
    ensures var n := Admitted(files, |files|); rows == Rows(x, files[..n], cached) && partial == (n < |files|)
    ensures forall f :: f in files[..Admitted(files, |files|)] ==>
      (f.path in read <==> Changed(files[..Admitted(files, |files|)], cached, f.path))
  {
    rows, partial, read := [], false, [];
    var total := 0;
    var i := 0;
    while i < |files|
      invariant 0 <= i <= |files| && Admitted(files, i) == i && total == TotalSize(files[..i])
      invariant rows == Rows(x, files[..i], cached) && !partial
      invariant forall p :: p in read <==> Changed(files[..i], cached, p)
    {
      if |rows| >= MAX_FILES || total >= MAX_TOTAL {
        partial := true;
        StopsHere(files, i, |files|);
        return;
      }
      var f := files[i];
      assert files[..i + 1] == files[..i] + [f] && files[..i + 1][..i] == files[..i];
      forall p ensures Changed(files[..i + 1], cached, p) <==> Changed(files[..i], cached, p) || (f.path == p && !Unchanged(f, cached)) {
        ChangedStep(files[..i], f, cached, p);
      }
      var known := Find(cached, f.path);
      var row;
      if known.Some? && known.value.signature == f.signature {
        row := known.value;
      } else {
        read := read + [f.path];
        row := Row(f.path, x.extract(f.path, f.content), f.signature, f.content, None);
      }
      total := total + f.size;
      rows := rows + [row];
      i := i + 1;
    }
    assert files[..i] == files;
  }

  lemma {:induction false} StopsHere(files: seq<File>, i: nat, n: nat)
    requires i < n <= |files| && Admitted(files, i) == i && (i >= MAX_FILES || TotalSize(files[..i]) >= MAX_TOTAL)
    ensures Admitted(files, n) == i
  {
    if n > i + 1 {
      StopsHere(files, i, n - 1);
    }
  }

  method IndexSnapshot(x: Syntax, w: Workspace, saved: Option<Index>) returns (index: Index)
    ensures index == Snapshot(x, w, saved)
  {
    var previous := Previous(w, saved);
    var cached := if previous.Some? then previous.value.files else [];
    var rows, partial, _ := Walk(x, w.files, cached);
    var key := Key(w.sha, Entries(rows));
    if previous.Some? && previous.value.key == key && previous.value.files == rows && previous.value.partial == partial {
      return previous.value;
    }
    var paths := Paths(rows);
    var done := rows;
    var i := 0;
    while i < |done|
      invariant 0 <= i <= |done| == |rows|
      invariant forall k :: 0 <= k < i ==> done[k] == Resolved(x, rows)[k]
      invariant forall k :: i <= k < |done| ==> done[k] == rows[k]
    {
      done := done[i := done[i].(dependencies := Some(x.resolve(done[i].path, done[i].meta, paths)))];
      i := i + 1;
    }
    assert done == Resolved(x, rows);
    return Index(w.sha, w.root, key, partial, done);
  }

  // ----------------------------------------------------- incremental equals from scratch

  /** A history in which a path's signature determines its content. */
  type World = (string, Signature) -> Content

  ghost predicate Faithful(world: World, w: Workspace) {
    && (forall i :: 0 <= i < |w.files| ==> w.files[i].content == world(w.files[i].path, w.files[i].signature))
    && (forall i, j :: 0 <= i < j < |w.files| ==> w.files[i].path != w.files[j].path)
  }

  predicate Genuine(x: Syntax, world: World, r: Row) {
    r.hash == world(r.path, r.signature) && r.meta == x.extract(r.path, r.hash)
  }

  /** A saved index that some run of the indexer could have left. */
  ghost predicate Trustworthy(x: Syntax, world: World, index: Index) {
    && (forall i :: 0 <= i < |index.files| ==> Genuine(x, world, index.files[i]))
    && (forall i :: 0 <= i < |index.files| ==>
          index.files[i].dependencies == Some(x.resolve(index.files[i].path, index.files[i].meta, Paths(index.files))))
    && index.key == Key(index.sha, Entries(index.files))
  }

  lemma {:induction false} FoundIsThere(rows: seq<Row>, path: string)
    ensures Find(rows, path).Some? ==> Find(rows, path).value in rows && Find(rows, path).value.path == path
  {
    if rows != [] && rows[|rows| - 1].path != path {
      FoundIsThere(rows[..|rows| - 1], path);
    }
  }

  /** A row as a scan without any cache makes it. */
  function FreshRow(x: Syntax, f: File): Row {
    Row(f.path, x.extract(f.path, f.content), f.signature, f.content, None)
  }

  lemma {:induction false} RowsAgree(x: Syntax, world: World, files: seq<File>, cached: seq<Row>)
    requires forall i :: 0 <= i < |files| ==> files[i].content == world(files[i].path, files[i].signature)
    requires forall i :: 0 <= i < |cached| ==> Genuine(x, world, cached[i])
    ensures var rows := Rows(x, files, cached);
      forall i :: 0 <= i < |files| ==> rows[i].(dependencies := None) == FreshRow(x, files[i])
  {
    if files != [] {
      var last := files[|files| - 1];
      RowsAgree(x, world, files[..|files| - 1], cached);
      FoundIsThere(cached, last.path);
    }
  }

  /** Rows that agree but for dependencies have the same keys, paths and resolutions. */
  lemma AgreeingRows(x: Syntax, a: seq<Row>, b: seq<Row>)
    requires |a| == |b| && forall i :: 0 <= i < |a| ==> a[i].(dependencies := None) == b[i].(dependencies := None)
    ensures Entries(a) == Entries(b) && Paths(a) == Paths(b) && Resolved(x, a) == Resolved(x, b)
  {
    assert forall i :: 0 <= i < |a| ==> a[i].path == b[i].path && a[i].hash == b[i].hash && a[i].meta == b[i].meta;
    forall p ensures p in Paths(a) <==> p in Paths(b) {
      if p in Paths(a) {
        var i :| 0 <= i < |a| && a[i].path == p;
        assert b[i] in b;
      }
      if p in Paths(b) {
        var i :| 0 <= i < |b| && b[i].path == p;
        assert a[i] in a;
      }
    }
    assert Paths(a) == Paths(b);
  }

  /** The rows of a scan with a trustworthy cache are those without one, but for dependencies. */
  lemma CachedRowsAgree(x: Syntax, world: World, files: seq<File>, cached: seq<Row>)
    requires forall i :: 0 <= i < |files| ==> files[i].content == world(files[i].path, files[i].signature)
    requires forall i :: 0 <= i < |cached| ==> Genuine(x, world, cached[i])
    ensures var rows, bare := Rows(x, files, cached), Rows(x, files, []);
      Entries(rows) == Entries(bare) && Resolved(x, rows) == Resolved(x, bare)
  {
    var rows, bare := Rows(x, files, cached), Rows(x, files, []);
    RowsAgree(x, world, files, cached);
    RowsAgree(x, world, files, []);
    assert forall i :: 0 <= i < |files| ==> rows[i].(dependencies := None) == FreshRow(x, files[i]) == bare[i].(dependencies := None);
    AgreeingRows(x, rows, bare);
  }

  /** Rows whose dependencies are resolved already stay as they are. */
  lemma ResolvedIsStable(x: Syntax, world: World, index: Index)
    requires Trustworthy(x, world, index)
    ensures Resolved(x, index.files) == index.files
  {
  }

  lemma ResolvedAgain(x: Syntax, rows: seq<Row>)
    ensures Entries(Resolved(x, rows)) == Entries(rows) && Paths(Resolved(x, rows)) == Paths(rows)
  {
    var after := Resolved(x, rows);
    forall p ensures p in Paths(after) <==> p in Paths(rows) {
      if p in Paths(rows) {
        var i :| 0 <= i < |rows| && rows[i].path == p;
        assert after[i] in after;
      }
      if p in Paths(after) {
        var i :| 0 <= i < |after| && after[i].path == p;
        assert rows[i] in rows;
      }
    }
  }

  /** A new index is trustworthy. */
  lemma NewIsTrustworthy(x: Syntax, world: World, w: Workspace, saved: Option<Index>)
    requires Faithful(world, w) && (saved.Some? ==> Trustworthy(x, world, saved.value))
    ensures var n := Admitted(w.files, |w.files|);
            var rows := Rows(x, w.files[..n], Cached(w, saved));
            Trustworthy(x, world, Index(w.sha, w.root, Key(w.sha, Entries(rows)), n < |w.files|, Resolved(x, rows)))
  {
    var files := w.files[..Admitted(w.files, |w.files|)];
    var rows := Rows(x, files, Cached(w, saved));
    RowsAgree(x, world, files, Cached(w, saved));
    GenuineRows(x, world, files, rows);
    ResolvedAgain(x, rows);
  }

  /**
   Whatever trustworthy index was saved, and also when it was lost, the incremental index equals
   a scan from an empty cache, recomputed dependencies and the early return included.
   */
  lemma IncrementalIsFresh(x: Syntax, world: World, w: Workspace, saved: Option<Index>)
    requires Faithful(world, w) && (saved.Some? ==> Trustworthy(x, world, saved.value))
    ensures Snapshot(x, w, saved) == Snapshot(x, w, None)
    ensures Trustworthy(x, world, Snapshot(x, w, saved))
  {
    CachedRowsAgree(x, world, w.files[..Admitted(w.files, |w.files|)], Cached(w, saved));
    NewIsTrustworthy(x, world, w, saved);
    if Previous(w, saved).Some? {
      ResolvedIsStable(x, world, saved.value);
    }
  }

  lemma GenuineRows(x: Syntax, world: World, files: seq<File>, rows: seq<Row>)
    requires |rows| == |files|
    requires forall i :: 0 <= i < |files| ==> files[i].content == world(files[i].path, files[i].signature)
    requires forall i :: 0 <= i < |files| ==> rows[i].(dependencies := None) == FreshRow(x, files[i])
    ensures forall i :: 0 <= i < |rows| ==> Genuine(x, world, Resolved(x, rows)[i]) && Genuine(x, world, rows[i])
  {
    forall i | 0 <= i < |rows| ensures Genuine(x, world, rows[i]) {
      assert FreshRow(x, files[i]) == Row(rows[i].path, rows[i].meta, rows[i].signature, rows[i].hash, None);
    }
  }

  /** The index after a sequence of workspaces, each scan starting from what the last one saved. */
  function History(x: Syntax, ws: seq<Workspace>): Option<Index> {
    if ws == [] then None else Some(Snapshot(x, ws[|ws| - 1], History(x, ws[..|ws| - 1])))
  }

  /** After any sequence of file changes the index is that of the last workspace alone. */
  lemma {:induction false} HistoryIsForgotten(x: Syntax, world: World, ws: seq<Workspace>)
    requires forall i :: 0 <= i < |ws| ==> Faithful(world, ws[i])
    ensures ws != [] ==> History(x, ws) == Some(Snapshot(x, ws[|ws| - 1], None))
    ensures History(x, ws).Some? ==> Trustworthy(x, world, History(x, ws).value)
  {
    if ws != [] {
      HistoryIsForgotten(x, world, ws[..|ws| - 1]);
      IncrementalIsFresh(x, world, ws[|ws| - 1], History(x, ws[..|ws| - 1]));
    }
  }

  // ------------------------------------------------------------------ the catalogue

  datatype Group = Group(area: string, paths: seq<string>)

  function Listed(groups: seq<Group>): set<string> {
    set g, p | g in groups && p in g.paths :: p
  }

  const CATALOG_PATHS: nat := 200
  const CATALOG_BYTES: nat := 14000

  function CatalogBytes(paths: seq<string>): nat {
    if paths == [] then 0 else CatalogBytes(paths[..|paths| - 1]) + Utf8Size(paths[|paths| - 1])
  }

  function Remaining(groups: seq<Group>): nat {
    if groups == [] then 0 else Remaining(groups[..|groups| - 1]) + |groups[|groups| - 1].paths|
  }

  /** The group without its last path, unless that was its only one. */
  function Returned(left: seq<Group>, g: Group): seq<Group>
    requires g.paths != []
  {
    if |g.paths| == 1 then left else left + [Group(g.area, g.paths[..|g.paths| - 1])]
  }

  /** The next path of every area, in order of the areas. */
  function Layer(groups: seq<Group>): seq<string>
    requires AllWaiting(groups)
  {
    seq(|groups|, i requires 0 <= i < |groups| => groups[i].paths[|groups[i].paths| - 1])
  }

  predicate AllWaiting(groups: seq<Group>) {
    forall i :: 0 <= i < |groups| ==> groups[i].paths != []
  }

  /** What is left of the first `i` areas after each gave a path. */
  function RestOf(groups: seq<Group>, i: nat): (r: seq<Group>)
    requires AllWaiting(groups) && i <= |groups|
    ensures AllWaiting(r) && Remaining(r) + i <= Remaining(groups[..i])
  {
    if i == 0 then []
    else
      ReturnedCounts(RestOf(groups, i - 1), groups, i - 1);
      assert AllWaiting([Group(groups[i - 1].area, groups[i - 1].paths[..|groups[i - 1].paths| - 1])]) || |groups[i - 1].paths| == 1;
      Returned(RestOf(groups, i - 1), groups[i - 1])
  }

  function Rest(groups: seq<Group>): (r: seq<Group>)
    requires AllWaiting(groups)
    ensures AllWaiting(r) && Remaining(r) + |groups| <= Remaining(groups)
  {
    assert groups[..|groups|] == groups;
    RestOf(groups, |groups|)
  }

  /** The paths in the order in which they are offered: layer by layer. */
  function Offered(groups: seq<Group>): seq<string>
    requires AllWaiting(groups)
    decreases Remaining(groups)
  {
    if groups == [] then [] else Layer(groups) + Offered(Rest(groups))
  }

  predicate Filled(catalog: seq<string>) {
    |catalog| >= CATALOG_PATHS || CatalogBytes(catalog) > CATALOG_BYTES
  }

  function Grown(catalog: seq<string>, path: string): seq<string> {
    if path in catalog then catalog else catalog + [path]
  }

  /** Offered paths join the catalogue unless they are there already, until a limit is met. */
  function Absorb(catalog: seq<string>, offered: seq<string>): seq<string>
    decreases |offered|
  {
    if offered == [] then catalog
    else
      var extended := Grown(catalog, offered[0]);
      if Filled(extended) then extended else Absorb(extended, offered[1..])
  }

  lemma ReturnedCounts(left: seq<Group>, groups: seq<Group>, i: nat)
    requires i < |groups| && groups[i].paths != [] && Remaining(left) + i <= Remaining(groups[..i])
    ensures Remaining(Returned(left, groups[i])) + i + 1 <= Remaining(groups[..i + 1])
  {
    assert groups[..i + 1][..i] == groups[..i];
    var after := Returned(left, groups[i]);
    assert |after| > |left| ==> after[..|after| - 1] == left;
  }

  lemma BytesGrow(catalog: seq<string>, path: string)
    ensures CatalogBytes(catalog + [path]) == CatalogBytes(catalog) + Utf8Size(path)
  {
    assert (catalog + [path])[..|catalog|] == catalog;
  }

  /** What is still offered when the first `i` areas gave their path. */
  function Ahead(groups: seq<Group>, i: nat): seq<string>
    requires i <= |groups| && AllWaiting(groups)
  {
    Layer(groups)[i..] + Offered(Rest(groups))
  }

  lemma AheadOf(groups: seq<Group>)
    requires groups != [] && AllWaiting(groups)
    ensures Ahead(groups, 0) == Offered(groups) && Ahead(groups, |groups|) == Offered(Rest(groups))
  {
    assert Layer(groups)[0..] == Layer(groups) && Layer(groups)[|groups|..] == [];
  }

  lemma TurnAbsorbs(groups: seq<Group>, i: nat, catalog: seq<string>, extended: seq<string>)
    requires i < |groups| && AllWaiting(groups)
    requires extended == Grown(catalog, Layer(groups)[i])
    ensures Absorb(catalog, Ahead(groups, i)) == if Filled(extended) then extended else Absorb(extended, Ahead(groups, i + 1))
  {
    assert Ahead(groups, i)[0] == Layer(groups)[i] && Ahead(groups, i)[1..] == Ahead(groups, i + 1);
  }

  /** One area's turn. */
  method GivePath(g: Group, left: seq<Group>, catalog: seq<string>, bytes: nat)
    returns (after: seq<Group>, extended: seq<string>, size: nat, full: bool)
    requires g.paths != [] && bytes == CatalogBytes(catalog)
    ensures after == Returned(left, g) && size == CatalogBytes(extended)
    ensures extended == Grown(catalog, g.paths[|g.paths| - 1]) && (full <==> Filled(extended))
  {
    var path := g.paths[|g.paths| - 1];
    extended, size, after := catalog, bytes, left;
    if path !in catalog {
      BytesGrow(catalog, path);
      extended, size := extended + [path], size + Utf8Size(path);
    }
    if |g.paths| > 1 {
      after := after + [Group(g.area, g.paths[..|g.paths| - 1])];
    }
    full := |extended| >= CATALOG_PATHS || size > CATALOG_BYTES;
  }

  datatype Pass = Pass(catalog: seq<string>, full: bool)

  /** One round over the areas, from area `i` on. */
  function RoundFrom(groups: seq<Group>, i: nat, catalog: seq<string>): Pass
    requires AllWaiting(groups)
    decreases |groups| - i
  {
    if i >= |groups| then Pass(catalog, false)
    else
      var extended := Grown(catalog, groups[i].paths[|groups[i].paths| - 1]);
      if Filled(extended) then Pass(extended, true) else RoundFrom(groups, i + 1, extended)
  }

  /** A round absorbs one layer. */
  lemma {:induction false} RoundAbsorbs(groups: seq<Group>, i: nat, catalog: seq<string>)
    requires AllWaiting(groups) && i <= |groups|
    ensures var pass := RoundFrom(groups, i, catalog);
      && Absorb(catalog, Ahead(groups, i)) == (if pass.full then pass.catalog else Absorb(pass.catalog, Offered(Rest(groups))))
      && (pass.full ==> Filled(pass.catalog)) && (!pass.full && i < |groups| ==> !Filled(pass.catalog))
    decreases |groups| - i
  {
    if i == |groups| {
      assert Layer(groups)[i..] + Offered(Rest(groups)) == Offered(Rest(groups));
    } else {
      var extended := Grown(catalog, Layer(groups)[i]);
      TurnAbsorbs(groups, i, catalog, extended);
      RoundAbsorbs(groups, i + 1, extended);
    }
  }

  /** Every area in turn gives one path, until a limit is met. */
  method Round(groups: seq<Group>, catalog: seq<string>, bytes: nat)
    returns (left: seq<Group>, extended: seq<string>, size: nat, full: bool)
    requires AllWaiting(groups) && bytes == CatalogBytes(catalog)
    ensures Pass(extended, full) == RoundFrom(groups, 0, catalog) && size == CatalogBytes(extended)
    ensures !full ==> left == Rest(groups)
  {
    left, extended, size, full := [], catalog, bytes, false;
    var i := 0;
    while i < |groups| && !full
      invariant 0 <= i <= |groups| && size == CatalogBytes(extended) && left == RestOf(groups, i)
      invariant RoundFrom(groups, 0, catalog) == if full then Pass(extended, true) else RoundFrom(groups, i, extended)
    {
      left, extended, size, full := GivePath(groups[i], left, extended, size);
      i := i + 1;
    }
  }

  lemma {:induction false} DistinctCount(paths: seq<string>)
    requires Distinct(paths)
    ensures |(set p | p in paths)| == |paths|
  {
    if paths == [] {
      assert (set p | p in paths) == {};
    } else {
      var front, last := paths[..|paths| - 1], paths[|paths| - 1];
      DistinctCount(front);
      assert (set p | p in paths) == (set p | p in front) + {last};
      assert last !in front;
    }
  }

  lemma {:induction false} SubsetSize(a: set<string>, b: set<string>)
    requires a <= b
    ensures |a| <= |b|
    decreases |a|
  {
    if a != {} {
      var x :| x in a;
      SubsetSize(a - {x}, b - {x});
    }
  }

  /** `catalog_partial` is reported exactly when some file is missing from the catalogue. */
  lemma PartialMeansMissing(files: set<string>, catalog: seq<string>)
    requires Distinct(catalog) && forall p :: p in catalog ==> p in files
    ensures |catalog| < |files| <==> exists p :: p in files && p !in catalog
  {
    var listed := set p | p in catalog;
    DistinctCount(catalog);
    SubsetSize(listed, files);
    if p :| p in files && p !in catalog {
      SubsetSize(listed, files - {p});
      assert files == (files - {p}) + {p};
    } else {
      assert files <= listed;
      SubsetSize(files, listed);
    }
  }

  /** Before the limits are met nothing that was offered is passed over. */
  lemma {:induction false} Absorbed(catalog: seq<string>, first: seq<string>, later: seq<string>)
    requires |catalog| + |first| < CATALOG_PATHS && CatalogBytes(catalog) + CatalogBytes(first) <= CATALOG_BYTES
    ensures catalog <= Absorb(catalog, first + later)
    ensures forall p :: p in first ==> p in Absorb(catalog, first + later)
    decreases |first|
  {
    if first == [] {
      assert first + later == later;
      AbsorbKeeps(catalog, later);
    } else {
      var extended := Grown(catalog, first[0]);
      BytesSplit(first);
      assert first[0] !in catalog ==> extended[..|catalog|] == catalog;
      assert (first + later)[1..] == first[1..] + later;
      Absorbed(extended, first[1..], later);
      assert first[0] in extended;
    }
  }

  lemma {:induction false} AbsorbKeeps(catalog: seq<string>, offered: seq<string>)
    ensures catalog <= Absorb(catalog, offered)
    decreases |offered|
  {
    if offered != [] {
      var extended := Grown(catalog, offered[0]);
      if !Filled(extended) {
        AbsorbKeeps(extended, offered[1..]);
      }
    }
  }

  lemma {:induction false} BytesSplit(paths: seq<string>)
    requires paths != []
    ensures CatalogBytes(paths) == Utf8Size(paths[0]) + CatalogBytes(paths[1..])
  {
    if |paths| > 1 {
      BytesSplit(paths[..|paths| - 1]);
      assert paths[..|paths| - 1][1..] == paths[1..][..|paths[1..]| - 1];
    }
  }

  /** As long as the limits leave room for one path of each, every area is in the catalogue. */
  lemma EveryAreaIsSeen(areas: seq<Group>, candidates: seq<string>, g: Group)
    requires AllWaiting(areas) && g in areas
    requires |candidates| + |areas| < CATALOG_PATHS
    requires CatalogBytes(candidates) + CatalogBytes(Layer(areas)) <= CATALOG_BYTES
    ensures g.paths[|g.paths| - 1] in Absorb(candidates, Offered(areas))
  {
    var i :| 0 <= i < |areas| && areas[i] == g;
    assert Layer(areas)[i] in Layer(areas);
    Absorbed(candidates, Layer(areas), Offered(Rest(areas)));
  }

  /** What joins the catalogue comes from the offer, once, and all of it does unless a limit is met. */
  lemma {:induction false} AbsorbMeans(catalog: seq<string>, offered: seq<string>)
    requires Distinct(catalog) && |catalog| < CATALOG_PATHS
    ensures var r := Absorb(catalog, offered);
      && catalog <= r && Distinct(r) && |r| <= CATALOG_PATHS
      && (forall p :: p in r ==> p in catalog || p in offered)
      && (!Filled(r) ==> forall p :: p in offered ==> p in r)
    decreases |offered|
  {
    if offered != [] {
      var extended := Grown(catalog, offered[0]);
      if !Filled(extended) {
        AbsorbMeans(extended, offered[1..]);
      }
    }
  }

  /** Exactly the listed paths are offered. */
  lemma {:induction false} OfferedIsListed(groups: seq<Group>, p: string)
    requires AllWaiting(groups)
    ensures p in Offered(groups) <==> p in Listed(groups)
    decreases Remaining(groups)
  {
    if groups != [] {
      OfferedIsListed(Rest(groups), p);
      LayerAndRest(groups, p);
      assert p in Offered(groups) <==> p in Layer(groups) || p in Offered(Rest(groups));
    }
  }

  lemma LayerAndRest(groups: seq<Group>, p: string)
    requires AllWaiting(groups)
    ensures p in Listed(groups) <==> p in Layer(groups) || p in Listed(Rest(groups))
  {
    assert groups[..|groups|] == groups && Layer(groups)[..|groups|] == Layer(groups);
    PrefixLayerAndRest(groups, |groups|, p);
  }

  lemma {:induction false} PrefixLayerAndRest(groups: seq<Group>, i: nat, p: string)
    requires AllWaiting(groups) && i <= |groups|
    ensures p in Listed(groups[..i]) <==> p in Layer(groups)[..i] || p in Listed(RestOf(groups, i))
  {
    if i > 0 {
      var last := groups[i - 1];
      PrefixLayerAndRest(groups, i - 1, p);
      assert groups[..i] == groups[..i - 1] + [last];
      assert Layer(groups)[..i] == Layer(groups)[..i - 1] + [last.paths[|last.paths| - 1]];
      ListedAppends(groups[..i - 1], last, p);
      if |last.paths| > 1 {
        ListedAppends(RestOf(groups, i - 1), Group(last.area, last.paths[..|last.paths| - 1]), p);
      }
      assert p in last.paths <==> p == last.paths[|last.paths| - 1] || p in last.paths[..|last.paths| - 1];
    }
  }

  lemma ListedAppends(groups: seq<Group>, g: Group, p: string)
    ensures p in Listed(groups + [g]) <==> p in Listed(groups) || p in g.paths
  {
    if p in Listed(groups) {
      var h :| h in groups && p in h.paths;
      assert h in groups + [g];
    }
    if p in g.paths {
      assert (groups + [g])[|groups|] == g;
    }
    if p in Listed(groups + [g]) {
      var h :| h in groups + [g] && p in h.paths;
    }
  }

  /** The catalogue: candidates first, then the areas layer by layer until a limit is met. */
  function CatalogOf(areas: seq<Group>, candidates: seq<string>): seq<string>
    requires AllWaiting(areas)
  {
    if |candidates| >= CATALOG_PATHS then candidates else Absorb(candidates, Offered(areas))
  }

  /** No path is in the catalogue twice, and every file is in it unless a limit was met. */
  lemma CatalogMeans(areas: seq<Group>, candidates: seq<string>)
    requires Distinct(candidates) && AllWaiting(areas) && forall p :: p in candidates ==> p in Listed(areas)
    ensures var catalog := CatalogOf(areas, candidates);
      && candidates <= catalog && Distinct(catalog) && (forall p :: p in catalog ==> p in Listed(areas))
      && (!Filled(catalog) ==> forall p :: p in Listed(areas) ==> p in catalog)
      && (|candidates| <= CATALOG_PATHS ==> |catalog| <= CATALOG_PATHS)
  {
    if |candidates| < CATALOG_PATHS {
      AbsorbMeans(candidates, Offered(areas));
      forall p ensures p in Offered(areas) <==> p in Listed(areas) {
        OfferedIsListed(areas, p);
      }
    }
  }

  /** The catalogue loop of `survey`. */
  method Catalog(areas: seq<Group>, candidates: seq<string>) returns (catalog: seq<string>)
    requires AllWaiting(areas)
    ensures catalog == CatalogOf(areas, candidates)
  {
    catalog := candidates;
    var bytes := CatalogBytes(candidates);
    var groups := areas;
    var full := false;
    while groups != [] && |catalog| < CATALOG_PATHS
      invariant AllWaiting(groups) && bytes == CatalogBytes(catalog)
      invariant if |candidates| >= CATALOG_PATHS then catalog == candidates
                else |catalog| < CATALOG_PATHS && Absorb(catalog, Offered(groups)) == CatalogOf(areas, candidates)
      decreases Remaining(groups)
    {
      RoundAbsorbs(groups, 0, catalog);
      AheadOf(groups);
      groups, catalog, bytes, full := Round(groups, catalog, bytes);
      if full {
        return;
      }
    }
  }
}
