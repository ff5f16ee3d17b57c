/**
 The four wire codecs of a packet.
 */
module AgentCodec {
  import opened Prelude
  import opened Json
  import opened StructuralCompression
  import opened AgentEnvelope

  datatype Codec = JsonVerbose | JsonCompact | DslV1 | CompressedV1

  const MAX_BYTES: nat := 100000

  // -------------------------------------------------------------------- encoding

  function FieldLine(m: Member): string {
    m.key + ['='] + Print(m.value, false)
  }

  function FieldLines(members: seq<Member>): string {
    if members == [] then []
    else if |members| == 1 then FieldLine(members[0])
    else FieldLine(members[0]) + ['\n'] + FieldLines(members[1..])
  }

  const DSL_MAGIC := "AE1\n"
  const COMPRESSED_MAGIC := "AEZ1\n"

  /** `encode`; None where the packet cannot be compressed. */
  function Encode(e: Envelope, codec: Codec): Option<string>
    requires Valid(e)
  {
    var compact := Zip(SHORT, Values(e));
    match codec
    case JsonVerbose => Some(Print(Obj(Zip(FIELDS, Values(e))), true))
    case JsonCompact => Some(Print(Obj(compact), false))
    case DslV1 => Some(DSL_MAGIC + FieldLines(compact))
    case CompressedV1 =>
      match Compress(Obj(compact))
      case None => None
      case Some(packet) => Some(COMPRESSED_MAGIC + Print(packet, false))
  }

  // -------------------------------------------------------------------- decoding

  /** Where `str.splitlines` breaks: controls that JSON escapes, and three characters that it does not. */
  predicate IsBreak(c: char) {
    var n := c as int;
    10 <= n <= 13 || 28 <= n <= 30 || n == 0x85 || n == 0x2028 || n == 0x2029
  }

  function FirstBreak(s: string): (n: nat)
    ensures n <= |s| && (n < |s| ==> IsBreak(s[n]))
    ensures forall i :: 0 <= i < n ==> !IsBreak(s[i])
  {
    if s == [] || IsBreak(s[0]) then 0 else 1 + FirstBreak(s[1..])
  }

  /** `str.splitlines`: a carriage return and a line feed are one break, and the end of the text is none. */
  function SplitLines(s: string): seq<string>
    decreases |s|
  {
    if s == [] then []
    else
      var n := FirstBreak(s);
      if n == |s| then [s]
      else if s[n] == '\r' && n + 1 < |s| && s[n + 1] == '\n' then [s[..n]] + SplitLines(s[n + 2..])
      else [s[..n]] + SplitLines(s[n + 1..])
  }

  /** The first equals sign, or the length. */
  function FirstEquals(s: string): (n: nat)
    ensures n <= |s| && (n < |s| ==> s[n] == '=')
    ensures forall i :: 0 <= i < n ==> s[i] != '='
  {
    if s == [] || s[0] == '=' then 0 else 1 + FirstEquals(s[1..])
  }

  function ReadField(line: string): Option<Member> {
    var n := FirstEquals(line);
    if n == |line| || Loads(line[n + 1..]).None? then None else Some(Member(line[..n], Loads(line[n + 1..]).value))
  }

  function ReadFields(lines: seq<string>): Option<seq<Member>> {
    if lines == [] then Some([])
    else
      var first, rest := ReadField(lines[0]), ReadFields(lines[1..]);
      if first.None? || rest.None? then None else Some([first.value] + rest.value)
  }

  /** The object on the wire. */
  function Wire(text: string, codec: Codec): Option<seq<Member>> {
    match codec
    case CompressedV1 =>
      if !(COMPRESSED_MAGIC <= text) then None
      else
        var packet := Loads(text[5..]);
        if packet.None? then None else Decompress(packet.value)
    case DslV1 =>
      var lines := SplitLines(text);
      if !(DSL_MAGIC <= text) || lines == [] then None
      else
        var fields := ReadFields(lines[1..]);
        if fields.None? || !Unique(fields.value) then None else fields
    case _ =>
      match Loads(text)
      case Some(Obj(members)) => Some(members)
      case _ => None
  }

  /** `decode`. */
  function Decode(text: string, codec: Codec): Option<Envelope> {
    if Utf8Size(text) > MAX_BYTES then None
    else
      match Wire(text, codec)
      case None => None
      case Some(members) => FromFields(if codec.JsonVerbose? then FIELDS else SHORT, members)
  }

  /** The field loop of `decode`. */
  method CollectFields(lines: seq<string>) returns (pairs: Option<seq<Member>>)
    ensures pairs == ReadFields(lines)
  {
    var read: seq<Member> := [];
    var i := 0;
    PrependedNothing(ReadFields(lines));
    assert lines[0..] == lines;
    while i < |lines|
      invariant 0 <= i <= |lines|
      invariant ReadFields(lines) == Prepended(read, ReadFields(lines[i..]))
    {
      var field := ReadField(lines[i]);
      assert lines[i..][1..] == lines[i + 1..];
      if field.None? {
        return None;
      }
      PrependedTwice(read, [field.value], ReadFields(lines[i + 1..]));
      read := read + [field.value];
      i := i + 1;
    }
    assert read + [] == read;
    return Some(read);
  }

  function Prepended(read: seq<Member>, rest: Option<seq<Member>>): Option<seq<Member>> {
    if rest.None? then None else Some(read + rest.value)
  }

  lemma PrependedTwice(a: seq<Member>, b: seq<Member>, rest: Option<seq<Member>>)
    ensures Prepended(a, Prepended(b, rest)) == Prepended(a + b, rest)
  {
    if rest.Some? {
      assert a + (b + rest.value) == a + b + rest.value;
    }
  }

  lemma PrependedNothing(rest: Option<seq<Member>>)
    ensures Prepended([], rest) == rest
  {
    if rest.Some? {
      assert [] + rest.value == rest.value;
    }
  }

  /** `_unique`: the dictionary of the pairs, unless a key occurs twice. */
  method UniqueFields(pairs: seq<Member>) returns (result: Option<seq<Member>>)
    ensures result == if Unique(pairs) then Some(pairs) else None
  {
    var stored: seq<Member> := [];
    var i := 0;
    while i < |pairs|
      invariant 0 <= i <= |pairs| && stored == pairs[..i]
      invariant forall j, k :: 0 <= j < k < i ==> pairs[j].key != pairs[k].key
    {
      if HasKey(stored, pairs[i].key) {
        var j :| 0 <= j < |stored| && stored[j].key == pairs[i].key;
        UniqueMeans(pairs, j, i);
        return None;
      }
      assert forall j :: 0 <= j < i ==> pairs[j].key == stored[j].key != pairs[i].key;
      stored := stored + [pairs[i]];
      i := i + 1;
    }
    DistinctIsUnique(pairs);
    return Some(pairs);
  }

  lemma {:induction false} UniqueMeans(pairs: seq<Member>, j: nat, k: nat)
    requires j < k < |pairs| && pairs[j].key == pairs[k].key
    ensures !Unique(pairs)
  {
    if j == 0 {
      assert pairs[1..][k - 1].key == pairs[0].key;
    } else {
      UniqueMeans(pairs[1..], j - 1, k - 1);
    }
  }

  lemma {:induction false} DistinctIsUnique(pairs: seq<Member>)
    requires forall j, k :: 0 <= j < k < |pairs| ==> pairs[j].key != pairs[k].key
    ensures Unique(pairs)
  {
    if pairs != [] {
      DistinctIsUnique(pairs[1..]);
    }
  }
}
