/**
 Every codec gives back the packet it was given, within the size bound; the line-based one
 exactly when no string holds a line separator that JSON leaves unescaped.
 */
module CodecRoundTrip {
  import opened Prelude
  import opened Json
  import opened JsonText
  import opened JsonPrefix
  import opened StructuralCompression
  import opened CompressionRoundTrip
  import opened AgentEnvelope
  import opened AgentCodec

  // ------------------------------------------------------------------ field names

  lemma NamesAreDistinct()
    ensures Distinct(FIELDS) && Distinct(SHORT)
    ensures forall i :: 0 <= i < 7 ==> forall c :: c in SHORT[i] ==> !IsBreak(c) && c != '='
  {
    assert FIELDS[0][0] == 'v' && FIELDS[1][0] == 't' && FIELDS[2][0] == 't' && FIELDS[3][0] == 'r'
        && FIELDS[4][0] == 'c' && FIELDS[5][0] == 'p' && FIELDS[6][0] == 'e' && |FIELDS[1]| == 4 && |FIELDS[2]| == 7;
    assert SHORT[0][0] == 'v' && SHORT[1][0] == 't' && SHORT[2][0] == 'i' && SHORT[3][0] == 'r'
        && SHORT[4][0] == 's' && SHORT[5][0] == 'p' && SHORT[6][0] == 'e';
  }

  lemma FieldsAreWellFormed(names: seq<string>, e: Envelope)
    requires |names| == 7 && Distinct(names) && Valid(e) && WellFormed(Obj(e.payload))
    ensures WellFormed(Obj(Zip(names, Values(e))))
  {
    var members := Zip(names, Values(e));
    UniqueIsDistinct(members);
    assert WellFormed(Arr(Strings(e.refs)));
    forall i | 0 <= i < 7 ensures WellFormed(members[i].value) {
      assert members[i].value == Values(e)[i];
    }
  }

  // --------------------------------------------------------------------- the lines

  predicate HasBreak(s: string) {
    FirstBreak(s) < |s|
  }

  lemma BreakIn(s: string, c: char)
    requires c in s && IsBreak(c)
    ensures HasBreak(s)
  {
  }

  lemma BreakInJoin(a: string, b: string)
    ensures HasBreak(a) ==> FirstBreak(a + b) == FirstBreak(a)
    ensures !HasBreak(a) ==> FirstBreak(a + b) == |a| + FirstBreak(b)
  {
    if HasBreak(a) {
      var n := FirstBreak(a);
      assert (a + b)[n] == a[n];
      assert forall i :: 0 <= i < n ==> !IsBreak((a + b)[i]);
    } else {
      var n := |a| + FirstBreak(b);
      assert forall i :: 0 <= i < n ==> !IsBreak((a + b)[i]);
      if n < |a + b| {
        assert (a + b)[n] == b[FirstBreak(b)];
      }
    }
  }

  lemma SplitAtNewline(a: string, rest: string)
    requires !HasBreak(a)
    ensures SplitLines(a + ['\n'] + rest) == [a] + SplitLines(rest)
  {
    var s := a + ['\n'] + rest;
    assert s == a + (['\n'] + rest);
    BreakInJoin(a, ['\n'] + rest);
    assert FirstBreak(['\n'] + rest) == 0;
    assert s[..|a|] == a && s[|a| + 1..] == rest && s[|a|] == '\n';
  }

  lemma SplitAtBreak(a: string, rest: string)
    requires HasBreak(a)
    ensures SplitLines(a + rest) != [] && SplitLines(a + rest)[0] == a[..FirstBreak(a)]
  {
    BreakInJoin(a, rest);
    assert (a + rest)[..FirstBreak(a)] == a[..FirstBreak(a)];
  }

  /** A field whose key is plain. */
  predicate PlainKey(key: string) {
    forall c :: c in key ==> !IsBreak(c) && c != '='
  }

  lemma EqualsInLine(key: string, text: string)
    requires PlainKey(key)
    ensures FirstEquals(key + ['='] + text) == |key|
  {
    var line := key + ['='] + text;
    assert line[|key|] == '=';
    assert forall i :: 0 <= i < |key| ==> line[i] == key[i] && key[i] in key;
  }

  lemma LineRead(m: Member)
    requires PlainKey(m.key) && WellFormed(m.value)
    ensures ReadField(FieldLine(m)) == Some(m)
  {
    EqualsInLine(m.key, Print(m.value, false));
    var line := FieldLine(m);
    assert line[..|m.key|] == m.key && line[|m.key| + 1..] == Print(m.value, false);
    LoadsPrinted(m.value, false);
  }

  /** The three characters that end a line and that JSON does not escape. */
  predicate IsSeparator(c: char) {
    var n := c as int;
    n == 0x85 || n == 0x2028 || n == 0x2029
  }

  /** Some string or key of the value holds one of them. */
  ghost predicate Separated(v: Json) {
    exists c :: IsSeparator(c) && Mentions(v, c)
  }

  /** A field's line breaks exactly where its value holds a separator. */
  lemma LineBreaks(m: Member)
    requires PlainKey(m.key) && WellFormed(m.value)
    ensures HasBreak(FieldLine(m)) <==> Separated(m.value)
    ensures HasBreak(FieldLine(m)) ==> FirstBreak(FieldLine(m)) > |m.key| && (m.value.Str? || m.value.Arr? || m.value.Obj?)
  {
    var line, text := FieldLine(m), Print(m.value, false);
    assert line == (m.key + ['=']) + text;
    forall i | 0 <= i < |m.key + ['=']| ensures !IsBreak((m.key + ['='])[i]) {
      assert i < |m.key| ==> m.key[i] in m.key;
    }
    assert !HasBreak(m.key + ['=']);
    BreakInJoin(m.key + ['='], text);
    if HasBreak(text) {
      var c := text[FirstBreak(text)];
      assert c in text && !IsPlain(c);
      TextMentions(m.value, 0, [], c);
      assert IsSeparator(c) && Mentions(m.value, c);
    }
    if Separated(m.value) {
      var c :| IsSeparator(c) && Mentions(m.value, c);
      TextMentions(m.value, 0, [], c);
      BreakIn(text, c);
    }
  }

  /** What is left of a broken line is no field. */
  lemma BrokenLineFails(m: Member)
    requires PlainKey(m.key) && WellFormed(m.value) && HasBreak(FieldLine(m))
    ensures ReadField(FieldLine(m)[..FirstBreak(FieldLine(m))]).None?
  {
    LineBreaks(m);
    var line, n, k := FieldLine(m), FirstBreak(FieldLine(m)), |m.key|;
    var text := Print(m.value, false);
    assert line[..n] == m.key + ['='] + text[..n - k - 1];
    EqualsInLine(m.key, text[..n - k - 1]);
    assert line[..n][k + 1..] == text[..n - k - 1];
    TruncatedIsRefused(m.value, false, n - k - 1);
  }

  ghost predicate LinesReady(members: seq<Member>) {
    forall i :: 0 <= i < |members| ==> PlainKey(members[i].key) && WellFormed(members[i].value)
  }

  ghost predicate AnySeparated(members: seq<Member>) {
    exists i :: 0 <= i < |members| && Separated(members[i].value)
  }

  lemma ReadyTail(members: seq<Member>)
    requires members != [] && LinesReady(members)
    ensures LinesReady(members[1..])
  {
  }

  lemma AnySeparatedSplit(members: seq<Member>)
    requires members != []
    ensures AnySeparated(members) <==> Separated(members[0].value) || AnySeparated(members[1..])
  {
    assert forall i :: 0 <= i < |members| - 1 ==> members[1..][i] == members[i + 1];
    assert forall i :: 1 <= i < |members| ==> members[i] == members[1..][i - 1];
  }

  lemma BrokenFirst(members: seq<Member>)
    requires members != [] && LinesReady(members) && HasBreak(FieldLine(members[0]))
    ensures ReadFields(SplitLines(FieldLines(members))).None?
  {
    var first, rest := FieldLine(members[0]), members[1..];
    var more := if rest == [] then [] else ['\n'] + FieldLines(rest);
    assert FieldLines(members) == first + more;
    SplitAtBreak(first, more);
    BrokenLineFails(members[0]);
  }

  lemma OneLine(m: Member)
    requires PlainKey(m.key) && WellFormed(m.value) && !HasBreak(FieldLine(m))
    ensures ReadFields(SplitLines(FieldLines([m]))) == Some([m])
  {
    LineRead(m);
    assert FieldLine(m) != [] && SplitLines(FieldLine(m)) == [FieldLine(m)];
    OneMoreLine(FieldLine(m), m, []);
    assert [FieldLine(m)] + [] == [FieldLine(m)] && [m] + [] == [m];
  }

  lemma UnbrokenFirst(members: seq<Member>)
    requires |members| > 1 && LinesReady(members) && !HasBreak(FieldLine(members[0]))
    ensures ReadFields(SplitLines(FieldLines(members))) == Prepended([members[0]], ReadFields(SplitLines(FieldLines(members[1..]))))
  {
    LineRead(members[0]);
    SplitAtNewline(FieldLine(members[0]), FieldLines(members[1..]));
    OneMoreLine(FieldLine(members[0]), members[0], SplitLines(FieldLines(members[1..])));
  }

  /** The field lines are read back exactly when no value holds a separator, and otherwise refused. */
  lemma {:induction false} LinesRead(members: seq<Member>)
    requires members != [] && LinesReady(members)
    ensures ReadFields(SplitLines(FieldLines(members))) == if AnySeparated(members) then None else Some(members)
  {
    LineBreaks(members[0]);
    AnySeparatedSplit(members);
    HeadTail(members);
    if HasBreak(FieldLine(members[0])) {
      BrokenFirst(members);
    } else if |members| == 1 {
      OneLine(members[0]);
    } else {
      UnbrokenFirst(members);
      ReadyTail(members);
      LinesRead(members[1..]);
    }
  }

  lemma OneMoreLine(line: string, m: Member, lines: seq<string>)
    requires ReadField(line) == Some(m)
    ensures ReadFields([line] + lines) == Prepended([m], ReadFields(lines))
  {
    assert ([line] + lines)[1..] == lines;
  }

  // ------------------------------------------------------------------- the codecs

  /** Some string of the packet holds a separator: its revision, its payload or a reference. */
  ghost predicate SeparatedPacket(e: Envelope) {
    || (e.sha.Some? && exists c :: IsSeparator(c) && c in e.sha.value)
    || Separated(Obj(e.payload))
    || exists i, c :: 0 <= i < |e.refs| && IsSeparator(c) && c in e.refs[i]
  }

  predicate Ascii(s: string) {
    forall i :: 0 <= i < |s| ==> s[i] as int < 128
  }

  lemma HexIsAscii(digits: seq<nat>, rest: string)
    requires (forall i :: 0 <= i < |digits| ==> digits[i] < 16) && Ascii(rest)
    ensures Ascii(HexText(digits) + ['-'] + rest) && Ascii(HexText(digits))
  {
  }

  lemma IdIsAscii(id: TaskId)
    requires IsTaskId(id)
    ensures Ascii(IdText(id))
  {
    HexIsAscii(id[20..], []);
    var e := HexText(id[20..]);
    HexIsAscii(id[16..20], e);
    var d := HexText(id[16..20]) + ['-'] + e;
    HexIsAscii(id[12..16], d);
    var c := HexText(id[12..16]) + ['-'] + d;
    HexIsAscii(id[8..12], c);
    var b := HexText(id[8..12]) + ['-'] + c;
    HexIsAscii(id[..8], b);
    assert IdText(id) == HexText(id[..8]) + ['-'] + b;
  }

  lemma SeparatedFields(e: Envelope)
    requires Valid(e)
    ensures AnySeparated(Zip(SHORT, Values(e))) <==> SeparatedPacket(e)
  {
    var members := Zip(SHORT, Values(e));
    assert forall i :: 0 <= i < 7 ==> members[i].value == Values(e)[i];
    assert !Separated(Str(e.kind)) by {
      assert forall i :: 0 <= i < |e.kind| ==> e.kind[i] as int < 128;
    }
    assert !Separated(Str(IdText(e.taskId))) by {
      IdIsAscii(e.taskId);
    }
    RefsSeparated(e.refs);
    if SeparatedPacket(e) {
      if Separated(Obj(e.payload)) {
        assert Separated(members[5].value);
      } else if Separated(Arr(Strings(e.refs))) {
        assert Separated(members[6].value);
      } else {
        var c :| IsSeparator(c) && c in e.sha.value;
        assert Mentions(Str(e.sha.value), c);
        assert Separated(members[4].value);
      }
    }
  }

  lemma RefsSeparated(refs: seq<string>)
    ensures Separated(Arr(Strings(refs))) <==> exists i, c :: 0 <= i < |refs| && IsSeparator(c) && c in refs[i]
  {
    if i, c :| 0 <= i < |refs| && IsSeparator(c) && c in refs[i] {
      assert Mentions(Strings(refs)[i], c);
      assert Mentions(Arr(Strings(refs)), c);
    }
    if Separated(Arr(Strings(refs))) {
      var c :| IsSeparator(c) && Mentions(Arr(Strings(refs)), c);
      var i :| 0 <= i < |refs| && Mentions(Strings(refs)[i], c);
      assert c in refs[i];
    }
  }

  lemma MagicLine(rest: string)
    ensures SplitLines(DSL_MAGIC + rest) == ["AE1"] + SplitLines(rest)
  {
    assert DSL_MAGIC + rest == "AE1" + ['\n'] + rest;
    SplitAtNewline("AE1", rest);
  }

  lemma DslWire(e: Envelope)
    requires Valid(e) && WellFormed(Obj(e.payload))
    ensures Wire(Encode(e, DslV1).value, DslV1) == if SeparatedPacket(e) then None else Some(Zip(SHORT, Values(e)))
  {
    var members := Zip(SHORT, Values(e));
    LinesAreReady(e);
    SeparatedFields(e);
    LinesRead(members);
    MagicLine(FieldLines(members));
    var lines := SplitLines(FieldLines(members));
    assert (["AE1"] + lines)[1..] == lines;
  }

  lemma LinesAreReady(e: Envelope)
    requires Valid(e) && WellFormed(Obj(e.payload))
    ensures LinesReady(Zip(SHORT, Values(e))) && Unique(Zip(SHORT, Values(e)))
  {
    NamesAreDistinct();
    FieldsAreWellFormed(SHORT, e);
    assert forall i :: 0 <= i < 7 ==> Zip(SHORT, Values(e))[i].key == SHORT[i];
  }

  lemma JsonWire(names: seq<string>, e: Envelope, indent: bool)
    requires |names| == 7 && Distinct(names) && Valid(e) && WellFormed(Obj(e.payload))
    ensures Loads(Print(Obj(Zip(names, Values(e))), indent)) == Some(Obj(Zip(names, Values(e))))
  {
    FieldsAreWellFormed(names, e);
    LoadsPrinted(Obj(Zip(names, Values(e))), indent);
  }

  lemma CompressedWire(e: Envelope)
    requires Valid(e) && WellFormed(Obj(e.payload))
    ensures Encode(e, CompressedV1).Some? <==> Shallow(Obj(Zip(SHORT, Values(e))), 0)
    ensures Encode(e, CompressedV1).Some? ==> Wire(Encode(e, CompressedV1).value, CompressedV1) == Some(Zip(SHORT, Values(e)))
  {
    var members := Zip(SHORT, Values(e));
    NamesAreDistinct();
    FieldsAreWellFormed(SHORT, e);
    WellFormedIsKeyed(Obj(members));
    CompressionIsLossless(members);
    if Encode(e, CompressedV1).Some? {
      var packet := Compress(Obj(members)).value;
      CompressedIsWellFormed(Obj(members));
      LoadsPrinted(packet, false);
      var text := Encode(e, CompressedV1).value;
      assert COMPRESSED_MAGIC <= text && text[5..] == Print(packet, false);
    }
  }

  /** Once the wire object is right, only the size bound can refuse it. */
  lemma DecodeWire(e: Envelope, codec: Codec, text: string)
    requires Valid(e) && Wire(text, codec) == Some(Zip(if codec.JsonVerbose? then FIELDS else SHORT, Values(e)))
    ensures Decode(text, codec) == if Utf8Size(text) <= MAX_BYTES then Some(e) else None
  {
    NamesAreDistinct();
    FieldsRoundTrip(if codec.JsonVerbose? then FIELDS else SHORT, e);
  }

  /**
   Decoding what was encoded gives the packet back if and only if the text is within the size
   bound and, for the line-based codec, no string of the packet holds a separator. Only the
   compressed codec can refuse to encode, and does so exactly for values nested too deeply.
   */
  lemma DecodeEncoded(e: Envelope, codec: Codec)
    requires Valid(e) && WellFormed(Obj(e.payload))
    ensures Encode(e, codec).Some? <==> (codec.CompressedV1? ==> Shallow(Obj(Zip(SHORT, Values(e))), 0))
    ensures Encode(e, codec).Some? ==>
      Decode(Encode(e, codec).value, codec)
      == if Utf8Size(Encode(e, codec).value) <= MAX_BYTES && (codec.DslV1? ==> !SeparatedPacket(e)) then Some(e) else None
  {
    NamesAreDistinct();
    match codec
    case JsonVerbose =>
      JsonWire(FIELDS, e, true);
      DecodeWire(e, codec, Encode(e, codec).value);
    case JsonCompact =>
      JsonWire(SHORT, e, false);
      DecodeWire(e, codec, Encode(e, codec).value);
    case DslV1 =>
      DslWire(e);
      if !SeparatedPacket(e) {
        DecodeWire(e, codec, Encode(e, codec).value);
      }
    case CompressedV1 =>
      CompressedWire(e);
      if Encode(e, codec).Some? {
        DecodeWire(e, codec, Encode(e, codec).value);
      }
  }

  /** A packet whose request holds one U+2028: encoded without complaint, and refused when decoded. */
  function WithLineSeparator(): Envelope {
    Envelope(1, "work", seq(32, i => 0), 1, None, [Member("request", Str([0x2028 as char, 'x']))], [])
  }

  lemma DslLosesLineSeparator()
    ensures var e := WithLineSeparator();
      Valid(e) && WellFormed(Obj(e.payload)) && Decode(Encode(e, DslV1).value, DslV1).None?
  {
    var e := WithLineSeparator();
    var c := 0x2028 as char;
    assert e.payload[0].key == "request" && e.payload[0].value == Str([c, 'x']);
    assert !IsBlankChar([c, 'x'][1]);
    assert Lookup(e.payload, "request") == Some(Str([c, 'x']));
    UniqueIsDistinct(e.payload);
    assert [c, 'x'][0] == c;
    assert Mentions(e.payload[0].value, c);
    assert Mentions(Obj(e.payload), c);
    DecodeEncoded(e, DslV1);
  }
}
