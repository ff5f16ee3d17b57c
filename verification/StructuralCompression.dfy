/**
 The key-dictionary compression of packets: long repeated keys become references `~i`, keys
 that start with a tilde are escaped, everything else stays verbatim.
 */
module StructuralCompression {
  import opened Prelude
  import opened Json

  const MAX_DEPTH: nat := 32
  const MAX_DICTIONARY: nat := 128

  // ------------------------------------------------------------------ the dictionary

  function Names(members: seq<Member>): seq<string> {
    seq(|members|, i requires 0 <= i < |members| => members[i].key)
  }

  /** Every occurrence of a key anywhere in a value. */
  function KeysOf(v: Json): seq<string>
    decreases v, 0
  {
    match v
    case Arr(items) => KeysOfItems(items)
    case Obj(members) => Names(members) + KeysOfValues(members)
    case _ => []
  }

  function KeysOfItems(items: seq<Json>): seq<string>
    decreases items, 1
  {
    if items == [] then [] else KeysOf(items[0]) + KeysOfItems(items[1..])
  }

  function KeysOfValues(members: seq<Member>): seq<string>
    decreases members, 1
  {
    if members == [] then [] else KeysOf(members[0].value) + KeysOfValues(members[1..])
  }

  /** No value sits deeper than the bound; scalars count too. */
  predicate Shallow(v: Json, depth: nat)
    decreases v
  {
    depth <= MAX_DEPTH
    && match v
       case Arr(items) => forall i :: 0 <= i < |items| ==> Shallow(items[i], depth + 1)
       case Obj(members) => forall i :: 0 <= i < |members| ==> Shallow(members[i].value, depth + 1)
       case _ => true
  }

  /** Strings compare by code point. */
  predicate Less(a: string, b: string) {
    b != [] && (a == [] || a[0] < b[0] || (a[0] == b[0] && Less(a[1..], b[1..])))
  }

  ghost predicate Sorted(keys: seq<string>) {
    forall i, j :: 0 <= i < j < |keys| ==> Less(keys[i], keys[j])
  }

  predicate Eligible(key: string, count: nat) {
    count >= 2 && 8 <= |key| <= 200
  }

  function Insert(key: string, keys: seq<string>): seq<string> {
    if keys == [] then [key]
    else if Less(keys[0], key) then [keys[0]] + Insert(key, keys[1..])
    else if keys[0] == key then keys
    else [key] + keys
  }

  /** The eligible keys among the first ones, in order and once each. */
  function Selected(keys: seq<string>, all: seq<string>): seq<string> {
    if keys == [] then []
    else if Eligible(keys[0], multiset(all)[keys[0]]) then Insert(keys[0], Selected(keys[1..], all))
    else Selected(keys[1..], all)
  }

  function Dictionary(v: Json): seq<string> {
    var keys := Selected(KeysOf(v), KeysOf(v));
    if |keys| <= MAX_DICTIONARY then keys else keys[..MAX_DICTIONARY]
  }

  // --------------------------------------------------------------------- packing

  function IndexOf(dictionary: seq<string>, key: string): (r: Option<nat>)
    ensures r.Some? ==> r.value < |dictionary| && dictionary[r.value] == key
    ensures r.None? ==> key !in dictionary
  {
    if dictionary == [] then None
    else if dictionary[|dictionary| - 1] == key then Some(|dictionary| - 1)
    else IndexOf(dictionary[..|dictionary| - 1], key)
  }

  function Rename(dictionary: seq<string>, key: string): string {
    match IndexOf(dictionary, key)
    case Some(i) => ['~'] + Digits(i)
    case None => if ['~'] <= key then ['~'] + key else key
  }

  /** Storing under a key that is already there replaces its value, as in any dictionary. */
  function Store(members: seq<Member>, key: string, value: Json): seq<Member> {
    if members == [] then [Member(key, value)]
    else if members[0].key == key then [Member(key, value)] + members[1..]
    else [members[0]] + Store(members[1..], key, value)
  }

  function Pack(dictionary: seq<string>, v: Json): Json
    decreases v, 0
  {
    match v
    case Arr(items) => Arr(PackItems(dictionary, items))
    case Obj(members) => Obj(PackMembers(dictionary, members))
    case _ => v
  }

  function PackItems(dictionary: seq<string>, items: seq<Json>): (r: seq<Json>)
    ensures |r| == |items|
    decreases items, 1
  {
    if items == [] then [] else PackItems(dictionary, items[..|items| - 1]) + [Pack(dictionary, items[|items| - 1])]
  }

  function PackMembers(dictionary: seq<string>, members: seq<Member>): seq<Member>
    decreases members, 1
  {
    if members == [] then []
    else
      var last := members[|members| - 1];
      Store(PackMembers(dictionary, members[..|members| - 1]), Rename(dictionary, last.key), Pack(dictionary, last.value))
  }

  function Strings(keys: seq<string>): seq<Json> {
    seq(|keys|, i requires 0 <= i < |keys| => Str(keys[i]))
  }

  /** `compress`: refused when the value is nested too deeply. */
  function Compress(v: Json): Option<Json> {
    if !Shallow(v, 0) then None
    else Some(Obj([Member("dictionary", Arr(Strings(Dictionary(v)))), Member("packet", Pack(Dictionary(v), v))]))
  }

  // ------------------------------------------------------------------- unpacking

  /** A reference is the canonical decimal text of an index into the dictionary. */
  function Reference(text: string, bound: nat): Option<nat> {
    if text != [] && AllDigits(text) && Digits(DigitsValue(text)) == text && DigitsValue(text) < bound
    then Some(DigitsValue(text)) else None
  }

  function DecodeKey(dictionary: seq<string>, key: string): Option<string> {
    if ['~', '~'] <= key then Some(key[1..])
    else if ['~'] <= key then
      match Reference(key[1..], |dictionary|)
      case Some(i) => Some(dictionary[i])
      case None => None
    else Some(key)
  }

  function Unpack(dictionary: seq<string>, v: Json, depth: nat): Option<Json>
    decreases v, 0
  {
    if depth > MAX_DEPTH then None
    else match v
      case Arr(items) =>
        var r := UnpackItems(dictionary, items, depth);
        if r.None? then None else Some(Arr(r.value))
      case Obj(members) =>
        var r := UnpackMembers(dictionary, members, depth);
        if r.None? then None else Some(Obj(r.value))
      case _ => Some(v)
  }

  function UnpackItems(dictionary: seq<string>, items: seq<Json>, depth: nat): Option<seq<Json>>
    decreases items, 1
  {
    if items == [] then Some([])
    else
      var front := UnpackItems(dictionary, items[..|items| - 1], depth);
      var last := Unpack(dictionary, items[|items| - 1], depth + 1);
      if front.None? || last.None? then None else Some(front.value + [last.value])
  }

  function UnpackMembers(dictionary: seq<string>, members: seq<Member>, depth: nat): Option<seq<Member>>
    decreases members, 1
  {
    if members == [] then Some([])
    else
      var last := members[|members| - 1];
      var front := UnpackMembers(dictionary, members[..|members| - 1], depth);
      var key := DecodeKey(dictionary, last.key);
      var value := Unpack(dictionary, last.value, depth + 1);
      if front.None? || key.None? || HasKey(front.value, key.value) || value.None? then None
      else Some(front.value + [Member(key.value, value.value)])
  }

  function Lookup(members: seq<Member>, key: string): Option<Json> {
    if members == [] then None else if members[0].key == key then Some(members[0].value) else Lookup(members[1..], key)
  }

  predicate OnlyKeys(members: seq<Member>, keys: seq<string>) {
    (forall i :: 0 <= i < |members| ==> members[i].key in keys)
    && (forall i :: 0 <= i < |keys| ==> HasKey(members, keys[i]))
  }

  predicate ValidDictionary(items: seq<Json>) {
    |items| <= MAX_DICTIONARY
    && (forall i :: 0 <= i < |items| ==> items[i].Str? && 1 <= |items[i].s| <= 200)
    && (forall i, j :: 0 <= i < j < |items| ==> items[i] != items[j])
  }

  function Texts(items: seq<Json>): seq<string>
    requires forall i :: 0 <= i < |items| ==> items[i].Str?
  {
    seq(|items|, i requires 0 <= i < |items| => items[i].s)
  }

  /** `decompress`. */
  function Decompress(v: Json): Option<seq<Member>> {
    if !v.Obj? || !OnlyKeys(v.members, ["dictionary", "packet"]) then None
    else
      var dictionary, packet := Lookup(v.members, "dictionary"), Lookup(v.members, "packet");
      if dictionary.None? || packet.None? || !dictionary.value.Arr? || !ValidDictionary(dictionary.value.items) then None
      else
        match Unpack(Texts(dictionary.value.items), packet.value, 0)
        case Some(Obj(members)) => Some(members)
        case _ => None
  }

  // ---------------------------------------------------------------- the algorithms

  function CountOf(counts: map<string, nat>, key: string): nat {
    if key in counts then counts[key] else 0
  }

  /** A Counter after more keys were counted. */
  function Tally(counts: map<string, nat>, keys: seq<string>): map<string, nat> {
    if keys == [] then counts
    else
      var before, last := Tally(counts, keys[..|keys| - 1]), keys[|keys| - 1];
      before[last := CountOf(before, last) + 1]
  }

  lemma {:induction false} TallyJoin(counts: map<string, nat>, a: seq<string>, b: seq<string>)
    ensures Tally(counts, a + b) == Tally(Tally(counts, a), b)
  {
    if b == [] {
      assert a + b == a;
    } else {
      TallyJoin(counts, a, b[..|b| - 1]);
      assert (a + b)[..|a + b| - 1] == a + b[..|b| - 1];
    }
  }

  /** A Counter holds the multiplicity of every key. */
  lemma {:induction false} TallyCounts(keys: seq<string>, k: string)
    ensures CountOf(Tally(map[], keys), k) == multiset(keys)[k]
  {
    if keys != [] {
      TallyCounts(keys[..|keys| - 1], k);
      assert keys == keys[..|keys| - 1] + [keys[|keys| - 1]];
    }
  }

  method CountNames(members: seq<Member>, counts: map<string, nat>) returns (now: map<string, nat>)
    ensures now == Tally(counts, Names(members))
  {
    now := counts;
    var i := 0;
    while i < |members|
      invariant 0 <= i <= |members|
      invariant now == Tally(counts, Names(members)[..i])
    {
      assert Names(members)[..i + 1][..i] == Names(members)[..i];
      now := now[members[i].key := CountOf(now, members[i].key) + 1];
      i := i + 1;
    }
    assert Names(members)[..i] == Names(members);
  }

  /** `count`: the Counter after a whole value, unless it is nested too deeply. */
  method CountKeys(node: Json, depth: nat, counts: map<string, nat>) returns (result: Option<map<string, nat>>)
    ensures result.Some? <==> Shallow(node, depth)
    ensures result.Some? ==> result.value == Tally(counts, KeysOf(node))
    decreases node, 0
  {
    if depth > MAX_DEPTH {
      return None;
    }
    match node {
      case Obj(members) =>
        var named := CountNames(members, counts);
        result := CountValues(members, depth, named);
        if result.Some? {
          TallyJoin(counts, Names(members), KeysOfValues(members));
        }
      case Arr(items) =>
        result := CountItems(items, depth, counts);
      case _ =>
        result := Some(counts);
    }
  }

  method CountValues(members: seq<Member>, depth: nat, counts: map<string, nat>) returns (result: Option<map<string, nat>>)
    ensures result.Some? <==> forall j :: 0 <= j < |members| ==> Shallow(members[j].value, depth + 1)
    ensures result.Some? ==> result.value == Tally(counts, KeysOfValues(members))
    decreases members, 1
  {
    var now: map<string, nat> := counts;
    var i := 0;
    assert members[..0] == [];
    while i < |members|
      invariant 0 <= i <= |members|
      invariant forall j :: 0 <= j < i ==> Shallow(members[j].value, depth + 1)
      invariant now == Tally(counts, KeysOfValues(members[..i]))
    {
      var next := CountKeys(members[i].value, depth + 1, now);
      if next.None? {
        return None;
      }
      MoreValues(members, i);
      TallyJoin(counts, KeysOfValues(members[..i]), KeysOf(members[i].value));
      now := next.value;
      i := i + 1;
    }
    assert members[..i] == members;
    return Some(now);
  }

  method CountItems(items: seq<Json>, depth: nat, counts: map<string, nat>) returns (result: Option<map<string, nat>>)
    ensures result.Some? <==> forall j :: 0 <= j < |items| ==> Shallow(items[j], depth + 1)
    ensures result.Some? ==> result.value == Tally(counts, KeysOfItems(items))
    decreases items, 1
  {
    var now: map<string, nat> := counts;
    var i := 0;
    assert items[..0] == [];
    while i < |items|
      invariant 0 <= i <= |items|
      invariant forall j :: 0 <= j < i ==> Shallow(items[j], depth + 1)
      invariant now == Tally(counts, KeysOfItems(items[..i]))
    {
      var next := CountKeys(items[i], depth + 1, now);
      if next.None? {
        return None;
      }
      MoreItems(items, i);
      TallyJoin(counts, KeysOfItems(items[..i]), KeysOf(items[i]));
      now := next.value;
      i := i + 1;
    }
    assert items[..i] == items;
    return Some(now);
  }

  lemma {:induction false} MoreValues(members: seq<Member>, n: nat)
    requires n < |members|
    ensures KeysOfValues(members[..n + 1]) == KeysOfValues(members[..n]) + KeysOf(members[n].value)
  {
    if n > 0 {
      MoreValues(members[1..], n - 1);
      assert members[..n + 1][1..] == members[1..][..n] && members[..n][1..] == members[1..][..n - 1];
    } else {
      assert members[..1][1..] == [];
    }
  }

  lemma {:induction false} MoreItems(items: seq<Json>, n: nat)
    requires n < |items|
    ensures KeysOfItems(items[..n + 1]) == KeysOfItems(items[..n]) + KeysOf(items[n])
  {
    if n > 0 {
      MoreItems(items[1..], n - 1);
      assert items[..n + 1][1..] == items[1..][..n] && items[..n][1..] == items[1..][..n - 1];
    } else {
      assert items[..1][1..] == [];
    }
  }

  /** `unpack`, filling one dictionary or list in a loop. */
  method UnpackNode(dictionary: seq<string>, node: Json, depth: nat) returns (r: Option<Json>)
    ensures r == Unpack(dictionary, node, depth)
    decreases node
  {
    if depth > MAX_DEPTH {
      return None;
    }
    match node {
      case Obj(members) =>
        var result: seq<Member> := [];
        var i := 0;
        while i < |members|
          invariant 0 <= i <= |members|
          invariant UnpackMembers(dictionary, members[..i], depth) == Some(result)
        {
          assert members[..i + 1][..i] == members[..i];
          var key := DecodeKey(dictionary, members[i].key);
          if key.None? || HasKey(result, key.value) {
            UnpackStops(dictionary, members, i + 1, depth);
            return None;
          }
          var child := UnpackNode(dictionary, members[i].value, depth + 1);
          if child.None? {
            UnpackStops(dictionary, members, i + 1, depth);
            return None;
          }
          result := result + [Member(key.value, child.value)];
          i := i + 1;
        }
        assert members[..i] == members;
        return Some(Obj(result));
      case Arr(items) =>
        var result: seq<Json> := [];
        var i := 0;
        while i < |items|
          invariant 0 <= i <= |items|
          invariant UnpackItems(dictionary, items[..i], depth) == Some(result)
        {
          assert items[..i + 1][..i] == items[..i];
          var child := UnpackNode(dictionary, items[i], depth + 1);
          if child.None? {
            UnpackItemsStop(dictionary, items, i + 1, depth);
            return None;
          }
          result := result + [child.value];
          i := i + 1;
        }
        assert items[..i] == items;
        return Some(Arr(result));
      case _ =>
        return Some(node);
    }
  }

  lemma {:induction false} UnpackStops(dictionary: seq<string>, members: seq<Member>, n: nat, depth: nat)
    requires n <= |members| && UnpackMembers(dictionary, members[..n], depth).None?
    ensures UnpackMembers(dictionary, members, depth).None?
    decreases |members| - n
  {
    if n < |members| {
      assert members[..n + 1][..n] == members[..n];
      UnpackStops(dictionary, members, n + 1, depth);
    } else {
      assert members[..n] == members;
    }
  }

  lemma {:induction false} UnpackItemsStop(dictionary: seq<string>, items: seq<Json>, n: nat, depth: nat)
    requires n <= |items| && UnpackItems(dictionary, items[..n], depth).None?
    ensures UnpackItems(dictionary, items, depth).None?
    decreases |items| - n
  {
    if n < |items| {
      assert items[..n + 1][..n] == items[..n];
      UnpackItemsStop(dictionary, items, n + 1, depth);
    } else {
      assert items[..n] == items;
    }
  }
}
