/**
 The canonical handoff packet, independent of any encoding.
 */
module AgentEnvelope {
  import opened Prelude
  import opened Json
  import opened StructuralCompression

  /** A UUID as its 32 hexadecimal digits. */
  type TaskId = seq<nat>

  predicate IsTaskId(id: TaskId) {
    |id| == 32 && forall i :: 0 <= i < |id| ==> id[i] < 16
  }

  datatype Envelope = Envelope(
    version: int, kind: string, taskId: TaskId, revision: int, sha: Option<string>, payload: seq<Member>, refs: seq<string>)

  /** The characters that `str.strip` removes. */
  predicate IsBlankChar(c: char) {
    var n := c as int;
    9 <= n <= 13 || 28 <= n <= 32 || n == 0x85 || n == 0xA0 || n == 0x1680 || 0x2000 <= n <= 0x200A
    || n == 0x2028 || n == 0x2029 || n == 0x202F || n == 0x205F || n == 0x3000
  }

  /** `str(payload.get("request") or "").strip()` is not empty. */
  predicate HasRequest(payload: seq<Member>) {
    match Lookup(payload, "request")
    case None => false
    case Some(Null) => false
    case Some(Bool(b)) => b
    case Some(Int(n)) => n != 0
    case Some(Float(lexeme)) => lexeme != "0.0" && lexeme != "-0.0"
    case Some(Str(s)) => exists i :: 0 <= i < |s| && !IsBlankChar(s[i])
    case Some(Arr(items)) => items != []
    case Some(Obj(members)) => members != []
  }

  /** What the constructor accepts. */
  predicate Valid(e: Envelope) {
    && e.version == 1 && e.kind in {"work", "repair", "result"} && IsTaskId(e.taskId)
    && e.revision >= 1 && |e.refs| <= 20 && (forall i :: 0 <= i < |e.refs| ==> |e.refs[i]| <= 500)
    && (e.sha.Some? ==> |e.sha.value| <= 64)
    && (e.kind in {"work", "repair"} ==> HasRequest(e.payload))
  }

  // -------------------------------------------------------------------- task ids

  function HexText(digits: seq<nat>): string
    requires forall i :: 0 <= i < |digits| ==> digits[i] < 16
  {
    seq(|digits|, i requires 0 <= i < |digits| => Hex(digits[i]))
  }

  /** `str(uuid)`: 8-4-4-4-12 lower-case digits. */
  function IdText(id: TaskId): string
    requires IsTaskId(id)
  {
    HexText(id[..8]) + ['-'] + HexText(id[8..12]) + ['-'] + HexText(id[12..16]) + ['-'] + HexText(id[16..20]) + ['-'] + HexText(id[20..])
  }

  function Dehyphenated(s: string): string {
    if s == [] then [] else (if s[0] == '-' then [] else [s[0]]) + Dehyphenated(s[1..])
  }

  /** `UUID(text)`, for hexadecimal digits with hyphens anywhere. */
  function ParseId(s: string): Option<TaskId> {
    var digits := Dehyphenated(s);
    if |digits| != 32 || exists i :: 0 <= i < 32 && HexValue(digits[i]).None? then None
    else Some(seq(32, i requires 0 <= i < 32 => HexValue(digits[i]).value))
  }

  lemma {:induction false} DehyphenatedJoin(a: string, b: string)
    ensures Dehyphenated(a + b) == Dehyphenated(a) + Dehyphenated(b)
  {
    if a == [] {
      assert a + b == b;
    } else {
      DropJoin(a, b, 1);
      DehyphenatedJoin(a[1..], b);
    }
  }

  lemma {:induction false} NoHyphens(s: string)
    requires '-' !in s
    ensures Dehyphenated(s) == s
  {
    if s != [] {
      assert s == [s[0]] + s[1..];
      NoHyphens(s[1..]);
    }
  }

  lemma HexTextIsPlain(digits: seq<nat>)
    requires forall i :: 0 <= i < |digits| ==> digits[i] < 16
    ensures Dehyphenated(HexText(digits)) == HexText(digits)
  {
    NoHyphens(HexText(digits));
  }

  lemma Hyphenated(digits: seq<nat>, rest: string)
    requires forall i :: 0 <= i < |digits| ==> digits[i] < 16
    ensures Dehyphenated(HexText(digits) + ['-'] + rest) == HexText(digits) + Dehyphenated(rest)
  {
    HexTextIsPlain(digits);
    DehyphenatedJoin(HexText(digits) + ['-'], rest);
    DehyphenatedJoin(HexText(digits), ['-']);
    assert Dehyphenated(['-']) == [];
  }

  lemma IdDigits(id: TaskId)
    requires IsTaskId(id)
    ensures Dehyphenated(IdText(id)) == HexText(id)
  {
    var e := HexText(id[20..]);
    var d := HexText(id[16..20]) + ['-'] + e;
    var c := HexText(id[12..16]) + ['-'] + d;
    var b := HexText(id[8..12]) + ['-'] + c;
    assert IdText(id) == HexText(id[..8]) + ['-'] + b;
    Hyphenated(id[..8], b);
    Hyphenated(id[8..12], c);
    Hyphenated(id[12..16], d);
    Hyphenated(id[16..20], e);
    HexTextIsPlain(id[20..]);
    assert HexText(id) == HexText(id[..8]) + (HexText(id[8..12]) + (HexText(id[12..16]) + (HexText(id[16..20]) + e)));
  }

  lemma IdRoundTrip(id: TaskId)
    requires IsTaskId(id)
    ensures ParseId(IdText(id)) == Some(id)
  {
    IdDigits(id);
    var digits := HexText(id);
    assert forall i :: 0 <= i < 32 ==> HexValue(digits[i]) == Some(id[i]);
    assert seq(32, i requires 0 <= i < 32 => HexValue(digits[i]).value) == id;
  }

  // --------------------------------------------------------------- canonical form

  /** The names of the seven fields, in their order, and their short names on the wire. */
  const FIELDS := ["version", "type", "task_id", "requirement_revision", "current_sha", "payload", "evidence_refs"]
  const SHORT := ["v", "t", "id", "r", "sha", "p", "e"]

  /** The seven field values of `canonical`. */
  function Values(e: Envelope): seq<Json>
    requires IsTaskId(e.taskId)
  {
    [Int(e.version), Str(e.kind), Str(IdText(e.taskId)), Int(e.revision),
     if e.sha.Some? then Str(e.sha.value) else Null, Obj(e.payload), Arr(Strings(e.refs))]
  }

  function Zip(names: seq<string>, values: seq<Json>): seq<Member>
    requires |names| == |values|
  {
    seq(|names|, i requires 0 <= i < |names| => Member(names[i], values[i]))
  }

  /** Reading a packet back from its fields under seven names: their set, their types, and the constructor's checks. */
  function FromFields(names: seq<string>, members: seq<Member>): Option<Envelope>
    requires |names| == 7
  {
    if !OnlyKeys(members, names) then None
    else
      match (Lookup(members, names[0]), Lookup(members, names[1]), Lookup(members, names[2]), Lookup(members, names[3]),
             Lookup(members, names[4]), Lookup(members, names[5]), Lookup(members, names[6]))
      case (Some(Int(version)), Some(Str(kind)), Some(Str(id)), Some(Int(revision)), Some(sha), Some(Obj(payload)), Some(Arr(refs))) =>
        if ParseId(id).None? || !(sha.Str? || sha.Null?) || exists i :: 0 <= i < |refs| && !refs[i].Str? then None
        else
          var e := Envelope(version, kind, ParseId(id).value, revision, if sha.Str? then Some(sha.s) else None, payload, Texts(refs));
          if Valid(e) then Some(e) else None
      case _ => None
  }

  lemma {:induction false} LookupAt(members: seq<Member>, i: nat)
    requires i < |members| && forall j, k :: 0 <= j < k < |members| ==> members[j].key != members[k].key
    ensures Lookup(members, members[i].key) == Some(members[i].value)
  {
    if i > 0 {
      assert members[0].key != members[i].key;
      LookupAt(members[1..], i - 1);
    }
  }

  /** A valid packet is read back from its own fields, under any seven different names. */
  lemma FieldsRoundTrip(names: seq<string>, e: Envelope)
    requires |names| == 7 && Distinct(names) && Valid(e)
    ensures FromFields(names, Zip(names, Values(e))) == Some(e)
  {
    var members := Zip(names, Values(e));
    forall i | 0 <= i < 7 ensures Lookup(members, names[i]) == Some(Values(e)[i]) && HasKey(members, names[i]) {
      LookupAt(members, i);
      assert members[i].key == names[i];
    }
    IdRoundTrip(e.taskId);
    assert Texts(Strings(e.refs)) == e.refs;
  }
}
