/**
 Compression is lossless: renaming is injective within any object, references decode to their
 keys, and both directions refuse exactly the same depths.
 */
module CompressionRoundTrip {
  import opened Prelude
  import opened Json
  import opened JsonText
  import opened StructuralCompression

  // ------------------------------------------------------------------- string order

  lemma {:induction false} LessIsTotal(a: string, b: string)
    ensures Less(a, b) || a == b || Less(b, a)
    ensures !(Less(a, b) && Less(b, a)) && !Less(a, a)
  {
    if a != [] && b != [] && a[0] == b[0] {
      LessIsTotal(a[1..], b[1..]);
      assert a == [a[0]] + a[1..] && b == [b[0]] + b[1..];
    }
    if a != [] {
      LessIsTotal(a[1..], a[1..]);
    }
  }

  lemma {:induction false} LessChains(a: string, b: string, c: string)
    requires Less(a, b) && Less(b, c)
    ensures Less(a, c)
  {
    if a != [] && a[0] == b[0] && b[0] == c[0] {
      LessChains(a[1..], b[1..], c[1..]);
    }
  }

  lemma {:induction false} InsertSorts(key: string, keys: seq<string>)
    requires Sorted(keys)
    ensures Sorted(Insert(key, keys))
    ensures forall k :: k in Insert(key, keys) <==> k == key || k in keys
  {
    if keys != [] {
      LessIsTotal(keys[0], key);
      var rest := keys[1..];
      assert keys == [keys[0]] + rest;
      if Less(keys[0], key) {
        InsertSorts(key, rest);
        var more := Insert(key, rest);
        forall i | 0 <= i < |more| ensures Less(keys[0], more[i]) {
          assert more[i] in more;
          if more[i] in rest {
            var j :| 0 <= j < |rest| && rest[j] == more[i];
            assert Less(keys[0], keys[j + 1]);
          }
        }
      } else if keys[0] != key {
        forall i | 0 <= i < |keys| ensures Less(key, keys[i]) {
          if i > 0 {
            assert Less(keys[0], keys[i]);
            LessChains(key, keys[0], keys[i]);
          }
        }
      }
    }
  }

  /** A sorted sequence without repetitions is determined by its elements. */
  lemma {:induction false} SortedIsUnique(a: seq<string>, b: seq<string>)
    requires Sorted(a) && Sorted(b) && forall k :: k in a <==> k in b
    ensures a == b
  {
    assert forall i :: 0 <= i < |a| ==> a[i] in b;
    assert forall i :: 0 <= i < |b| ==> b[i] in a;
    if a != [] && b != [] {
      FirstIsSmallest(a, b[0]);
      FirstIsSmallest(b, a[0]);
      LessIsTotal(a[0], b[0]);
      forall k ensures k in a[1..] <==> k in b[1..] {
        RestOf(a, k);
        RestOf(b, k);
      }
      SortedIsUnique(a[1..], b[1..]);
    }
  }

  lemma FirstIsSmallest(a: seq<string>, k: string)
    requires Sorted(a) && k in a
    ensures k == a[0] || Less(a[0], k)
  {
  }

  lemma RestOf(a: seq<string>, k: string)
    requires Sorted(a) && a != []
    ensures k in a[1..] <==> k in a && k != a[0]
  {
    LessIsTotal(a[0], a[0]);
    if k in a[1..] {
      var j :| 0 <= j < |a[1..]| && a[1..][j] == k;
      assert Less(a[0], a[j + 1]);
    }
  }

  lemma {:induction false} SelectedIs(keys: seq<string>, all: seq<string>)
    ensures Sorted(Selected(keys, all))
    ensures forall k :: k in Selected(keys, all) <==> k in keys && Eligible(k, multiset(all)[k])
  {
    if keys != [] {
      SelectedIs(keys[1..], all);
      InsertSorts(keys[0], Selected(keys[1..], all));
      assert keys == [keys[0]] + keys[1..];
    }
  }

  /** The first 128 eligible keys, in order: none is skipped for a later one. */
  lemma DictionaryIs(v: Json)
    ensures var d := Dictionary(v);
      && |d| <= MAX_DICTIONARY && Sorted(d)
      && (forall k :: k in d ==> Eligible(k, multiset(KeysOf(v))[k]))
      && (forall k :: Eligible(k, multiset(KeysOf(v))[k]) && k !in d ==>
            |d| == MAX_DICTIONARY && forall i :: 0 <= i < |d| ==> Less(d[i], k))
  {
    var all := KeysOf(v);
    var keys := Selected(all, all);
    SelectedIs(all, all);
    var d := Dictionary(v);
    forall k | Eligible(k, multiset(all)[k]) && k !in d
      ensures |d| == MAX_DICTIONARY && forall i :: 0 <= i < |d| ==> Less(d[i], k)
    {
      assert k in keys;
      var j :| 0 <= j < |keys| && keys[j] == k;
      assert forall i :: 0 <= i < |d| ==> d[i] == keys[i];
    }
  }

  /** `compress`, over the Counter's items in whatever order. */
  method CompressPacket(value: Json) returns (r: Option<Json>)
    ensures r == Compress(value)
  {
    var counts := CountKeys(value, 0, map[]);
    if counts.None? {
      return None;
    }
    var dictionary: seq<string> := [];
    var left := counts.value.Keys;
    while left != {}
      invariant left <= counts.value.Keys && Sorted(dictionary)
      invariant forall k :: k in dictionary <==> k in counts.value && k !in left && Eligible(k, counts.value[k])
      decreases |left|
    {
      var key :| key in left;
      left := left - {key};
      if Eligible(key, counts.value[key]) {
        InsertSorts(key, dictionary);
        dictionary := Insert(key, dictionary);
      }
    }
    SelectedIs(KeysOf(value), KeysOf(value));
    forall k ensures k in dictionary <==> k in Selected(KeysOf(value), KeysOf(value)) {
      TallyCounts(KeysOf(value), k);
    }
    SortedIsUnique(dictionary, Selected(KeysOf(value), KeysOf(value)));
    if |dictionary| > MAX_DICTIONARY {
      dictionary := dictionary[..MAX_DICTIONARY];
    }
    return Some(Obj([Member("dictionary", Arr(Strings(dictionary))), Member("packet", Pack(dictionary, value))]));
  }

  // ------------------------------------------------------------------------ renaming

  /** What renaming produces is decoded to the key itself, whatever the dictionary. */
  lemma RenameDecodes(dictionary: seq<string>, key: string)
    ensures DecodeKey(dictionary, Rename(dictionary, key)) == Some(key)
  {
    match IndexOf(dictionary, key)
    case Some(i) =>
      DigitsRoundTrip(i);
      var name := ['~'] + Digits(i);
      assert name[1..] == Digits(i) && name[1] != '~';
    case None =>
      if ['~'] <= key {
        assert (['~'] + key)[1..] == key;
        assert ['~', '~'] <= ['~'] + key;
      }
  }

  /** No two keys are renamed to the same one. */
  lemma RenameIsInjective(dictionary: seq<string>, a: string, b: string)
    requires Rename(dictionary, a) == Rename(dictionary, b)
    ensures a == b
  {
    RenameDecodes(dictionary, a);
    RenameDecodes(dictionary, b);
  }

  /** Objects whose keys are all different, as dictionaries are. */
  predicate Keyed(v: Json)
    decreases v
  {
    match v
    case Arr(items) => forall i :: 0 <= i < |items| ==> Keyed(items[i])
    case Obj(members) => DistinctNames(members) && forall i :: 0 <= i < |members| ==> Keyed(members[i].value)
    case _ => true
  }

  predicate DistinctNames(members: seq<Member>) {
    forall i, j :: 0 <= i < j < |members| ==> members[i].key != members[j].key
  }

  lemma {:induction false} StoreNew(members: seq<Member>, key: string, value: Json)
    requires !HasKey(members, key)
    ensures Store(members, key, value) == members + [Member(key, value)]
  {
    if members != [] {
      assert members[0].key != key;
      forall i | 0 <= i < |members[1..]| ensures members[1..][i].key != key {
        assert members[1..][i] == members[i + 1];
      }
      StoreNew(members[1..], key, value);
    }
  }

  /** One packed member. */
  function Packed(dictionary: seq<string>, member: Member): Member {
    Member(Rename(dictionary, member.key), Pack(dictionary, member.value))
  }

  lemma NoClash(dictionary: seq<string>, front: seq<Member>, packed: seq<Member>, key: string)
    requires |packed| == |front| && forall i :: 0 <= i < |front| ==> packed[i] == Packed(dictionary, front[i])
    requires !HasKey(front, key)
    ensures !HasKey(packed, Rename(dictionary, key))
  {
    forall i | 0 <= i < |packed| ensures packed[i].key != Rename(dictionary, key) {
      RenameDecodes(dictionary, front[i].key);
      RenameDecodes(dictionary, key);
    }
  }

  lemma AppendDistinct(members: seq<Member>, m: Member)
    requires DistinctNames(members) && !HasKey(members, m.key)
    ensures DistinctNames(members + [m])
  {
  }

  /** Packing an object renames every member in place: no two renamed keys meet. */
  lemma {:induction false} PackedMembers(dictionary: seq<string>, members: seq<Member>)
    requires DistinctNames(members)
    ensures var packed := PackMembers(dictionary, members);
      && |packed| == |members| && DistinctNames(packed)
      && forall i :: 0 <= i < |members| ==> packed[i] == Packed(dictionary, members[i])
  {
    if members != [] {
      var front, last := members[..|members| - 1], members[|members| - 1];
      PackedMembers(dictionary, front);
      var packed := PackMembers(dictionary, front);
      NoClash(dictionary, front, packed, last.key);
      StoreNew(packed, Rename(dictionary, last.key), Pack(dictionary, last.value));
      AppendDistinct(packed, Packed(dictionary, last));
    }
  }

  // --------------------------------------------------------------------- round trip

  /** Unpacking what was packed restores the value, or finds it too deep, exactly as packing would. */
  lemma {:induction false} UnpackPacked(dictionary: seq<string>, v: Json, depth: nat)
    requires Keyed(v)
    ensures Unpack(dictionary, Pack(dictionary, v), depth) == if Shallow(v, depth) then Some(v) else None
    decreases v, 0
  {
    match v
    case Arr(items) => UnpackPackedItems(dictionary, items, depth);
    case Obj(members) => UnpackPackedMembers(dictionary, members, depth);
    case _ =>
  }

  predicate ShallowItems(items: seq<Json>, depth: nat) {
    forall i :: 0 <= i < |items| ==> Shallow(items[i], depth)
  }

  predicate ShallowValues(members: seq<Member>, depth: nat) {
    forall i :: 0 <= i < |members| ==> Shallow(members[i].value, depth)
  }

  lemma {:induction false} UnpackPackedItems(dictionary: seq<string>, items: seq<Json>, depth: nat)
    requires forall i :: 0 <= i < |items| ==> Keyed(items[i])
    ensures UnpackItems(dictionary, PackItems(dictionary, items), depth)
         == if ShallowItems(items, depth + 1) then Some(items) else None
    decreases items, 1
  {
    if items != [] {
      var front, last := items[..|items| - 1], items[|items| - 1];
      UnpackPackedItems(dictionary, front, depth);
      UnpackPacked(dictionary, last, depth + 1);
      LastItemUnpacks(dictionary, PackItems(dictionary, front), Pack(dictionary, last), depth);
      assert items == front + [last];
      assert ShallowItems(items, depth + 1) <==> ShallowItems(front, depth + 1) && Shallow(last, depth + 1);
    }
  }

  lemma LastItemUnpacks(dictionary: seq<string>, front: seq<Json>, last: Json, depth: nat)
    ensures var a, b := UnpackItems(dictionary, front, depth), Unpack(dictionary, last, depth + 1);
      UnpackItems(dictionary, front + [last], depth) == if a.Some? && b.Some? then Some(a.value + [b.value]) else None
  {
    assert (front + [last])[..|front|] == front;
  }

  lemma {:induction false} UnpackPackedMembers(dictionary: seq<string>, members: seq<Member>, depth: nat)
    requires DistinctNames(members) && forall i :: 0 <= i < |members| ==> Keyed(members[i].value)
    ensures UnpackMembers(dictionary, PackMembers(dictionary, members), depth)
         == if ShallowValues(members, depth + 1) then Some(members) else None
    decreases members, 1
  {
    if members != [] {
      var front, last := members[..|members| - 1], members[|members| - 1];
      UnpackPackedMembers(dictionary, front, depth);
      UnpackPacked(dictionary, last.value, depth + 1);
      RenameDecodes(dictionary, last.key);
      PackedFront(dictionary, members);
      LastMemberUnpacks(dictionary, PackMembers(dictionary, front), Member(Rename(dictionary, last.key), Pack(dictionary, last.value)), depth);
      LastOf(members, depth + 1);
    }
  }

  lemma LastOf(members: seq<Member>, depth: nat)
    requires DistinctNames(members) && members != []
    ensures var front, last := members[..|members| - 1], members[|members| - 1];
      && members == front + [last] && last == Member(last.key, last.value) && !HasKey(front, last.key)
      && (ShallowValues(members, depth) <==> ShallowValues(front, depth) && Shallow(last.value, depth))
  {
  }

  lemma PackedFront(dictionary: seq<string>, members: seq<Member>)
    requires DistinctNames(members) && members != []
    ensures var last := members[|members| - 1];
      PackMembers(dictionary, members)
      == PackMembers(dictionary, members[..|members| - 1]) + [Member(Rename(dictionary, last.key), Pack(dictionary, last.value))]
  {
    PackedMembers(dictionary, members);
    PackedMembers(dictionary, members[..|members| - 1]);
  }

  lemma LastMemberUnpacks(dictionary: seq<string>, front: seq<Member>, last: Member, depth: nat)
    ensures var a, k, b := UnpackMembers(dictionary, front, depth), DecodeKey(dictionary, last.key), Unpack(dictionary, last.value, depth + 1);
      UnpackMembers(dictionary, front + [last], depth)
      == if a.Some? && k.Some? && b.Some? && !HasKey(a.value, k.value) then Some(a.value + [Member(k.value, b.value)]) else None
  {
    assert (front + [last])[..|front|] == front;
  }

  lemma TextsOfStrings(keys: seq<string>)
    ensures Texts(Strings(keys)) == keys
  {
  }

  lemma DictionaryIsValid(v: Json)
    ensures ValidDictionary(Strings(Dictionary(v)))
  {
    DictionaryIs(v);
    var d := Dictionary(v);
    forall i, j | 0 <= i < j < |d| ensures d[i] != d[j] {
      LessIsTotal(d[i], d[j]);
    }
    forall i | 0 <= i < |d| ensures 1 <= |d[i]| <= 200 {
      assert d[i] in d;
    }
  }

  lemma DifferentNames()
    ensures "dictionary" != "packet"
  {
    assert "dictionary"[0] != "packet"[0];
  }

  /** The two members of a compressed packet. */
  lemma OuterPacket(d: seq<string>, packet: Json)
    requires ValidDictionary(Strings(d))
    ensures var outer := [Member("dictionary", Arr(Strings(d))), Member("packet", packet)];
      && Unique(outer) && OnlyKeys(outer, ["dictionary", "packet"])
      && Lookup(outer, "dictionary") == Some(Arr(Strings(d))) && Lookup(outer, "packet") == Some(packet)
  {
    var outer := [Member("dictionary", Arr(Strings(d))), Member("packet", packet)];
    DifferentNames();
    assert outer[1..] == [outer[1]] && outer[1..][1..] == [];
    assert outer[0].key == "dictionary" && outer[1].key == "packet";
  }

  /** `decompress(compress(v)) == v` for every object that `compress` accepts. */
  lemma CompressionIsLossless(members: seq<Member>)
    requires Keyed(Obj(members))
    ensures Compress(Obj(members)).Some? <==> Shallow(Obj(members), 0)
    ensures Compress(Obj(members)).Some? ==> Decompress(Compress(Obj(members)).value) == Some(members)
  {
    var v := Obj(members);
    DictionaryIsValid(v);
    OuterPacket(Dictionary(v), Pack(Dictionary(v), v));
    TextsOfStrings(Dictionary(v));
    UnpackPacked(Dictionary(v), v, 0);
  }

  // ----------------------------------------------------------- compressed packets print

  lemma {:induction false} UniqueIsDistinct(members: seq<Member>)
    ensures Unique(members) <==> DistinctNames(members)
  {
    if members != [] {
      UniqueIsDistinct(members[1..]);
      if DistinctNames(members) {
        forall i | 0 <= i < |members[1..]| ensures members[1..][i].key != members[0].key {
          assert members[0].key != members[i + 1].key;
        }
      }
      if Unique(members) {
        forall i, j | 0 <= i < j < |members| ensures members[i].key != members[j].key {
          assert members[1..][j - 1] == members[j];
          assert i > 0 ==> members[1..][i - 1] == members[i];
        }
      }
    }
  }

  lemma {:induction false} WellFormedIsKeyed(v: Json)
    requires WellFormed(v)
    ensures Keyed(v)
    decreases v
  {
    match v
    case Arr(items) => forall i | 0 <= i < |items| ensures Keyed(items[i]) { WellFormedIsKeyed(items[i]); }
    case Obj(members) =>
      UniqueIsDistinct(members);
      forall i | 0 <= i < |members| ensures Keyed(members[i].value) { WellFormedIsKeyed(members[i].value); }
    case _ =>
  }

  lemma {:induction false} PackedItemAt(dictionary: seq<string>, items: seq<Json>, i: nat)
    requires i < |items|
    ensures PackItems(dictionary, items)[i] == Pack(dictionary, items[i])
  {
    if i < |items| - 1 {
      PackedItemAt(dictionary, items[..|items| - 1], i);
    }
  }

  lemma {:induction false} PackedIsWellFormed(dictionary: seq<string>, v: Json)
    requires WellFormed(v)
    ensures WellFormed(Pack(dictionary, v))
    decreases v
  {
    match v
    case Arr(items) =>
      forall i | 0 <= i < |items| ensures WellFormed(PackItems(dictionary, items)[i]) {
        PackedItemAt(dictionary, items, i);
        PackedIsWellFormed(dictionary, items[i]);
      }
    case Obj(members) =>
      UniqueIsDistinct(members);
      PackedMembers(dictionary, members);
      UniqueIsDistinct(PackMembers(dictionary, members));
      forall i | 0 <= i < |members| ensures WellFormed(PackMembers(dictionary, members)[i].value) {
        PackedIsWellFormed(dictionary, members[i].value);
      }
    case _ =>
  }

  /** A compressed packet is JSON that prints and reads back like any other. */
  lemma CompressedIsWellFormed(v: Json)
    requires WellFormed(v) && Compress(v).Some?
    ensures WellFormed(Compress(v).value)
  {
    var d := Dictionary(v);
    PackedIsWellFormed(d, v);
    DictionaryIsValid(v);
    OuterPacket(d, Pack(d, v));
    assert WellFormed(Arr(Strings(d)));
  }
}
