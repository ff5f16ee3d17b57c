/**
 JSON text that is cut short, and the characters that JSON text contains.
 */
module JsonPrefix {
  import opened Prelude
  import opened Json
  import opened JsonText

  // ------------------------------------------------------- reading never looks ahead

  lemma {:induction false} SpaceExtends(s: string, t: string)
    requires SkipSpace(s) != []
    ensures SkipSpace(s + t) == SkipSpace(s) + t
  {
    if IsSpace(s[0]) {
      SpaceExtends(s[1..], t);
      DropJoin(s, t, 1);
    }
  }

  lemma Hex4Extends(s: string, t: string)
    requires |s| >= 4
    ensures Hex4(s + t) == Hex4(s)
  {
  }

  lemma EscapeExtends(s: string, t: string)
    requires ReadEscape(s).Some?
    ensures ReadEscape(s + t) == Some((ReadEscape(s).value.0, ReadEscape(s).value.1 + t))
  {
    DropJoin(s, t, 1);
    if s[0] == 'u' {
      Hex4Extends(s[1..], t);
      DropJoin(s, t, 5);
      if IsHighSurrogate(Hex4(s[1..]).value) {
        Hex4Extends(s[5..][2..], t);
        DropJoin(s[5..], t, 2);
        DropJoin(s[5..], t, 6);
      }
    }
  }

  lemma {:induction false} CharsExtend(s: string, t: string)
    requires ReadChars(s).Some?
    ensures ReadChars(s + t) == Some((ReadChars(s).value.0, ReadChars(s).value.1 + t))
    decreases |s|
  {
    DropJoin(s, t, 1);
    if s[0] == '\\' {
      EscapeExtends(s[1..], t);
      CharsExtend(ReadEscape(s[1..]).value.1, t);
    } else if s[0] != '\"' {
      CharsExtend(s[1..], t);
    }
  }

  /** A value that shows its own end, or one before a delimiter. */
  predicate Closed(v: Json, rest: string) {
    !(v.Int? || v.Float?) || (rest != [] && IsDelimiter(rest[0]))
  }

  lemma LiteralExtends(s: string, t: string, word: string)
    requires word <= s
    ensures word <= s + t && (s + t)[|word|..] == s[|word|..] + t
  {
    DropJoin(s, t, |word|);
  }

  lemma NumberReadExtends(s: string, t: string)
    requires ReadNumber(s).Some? && Closed(ReadNumber(s).value.0, ReadNumber(s).value.1)
    ensures ReadNumber(s + t) == Some((ReadNumber(s).value.0, ReadNumber(s).value.1 + t))
  {
    var n := NumberLength(s);
    assert s[n..][0] == s[n];
    NumberExtends(s, t);
    DropJoin(s, t, n);
    assert (s + t)[..n] == s[..n];
  }

  lemma NumberValueExtends(s: string, t: string)
    requires s != [] && s[0] !in "\"[{ntfNI" && ReadValue(s).Some?
    requires Closed(ReadValue(s).value.0, ReadValue(s).value.1)
    ensures ReadValue(s + t) == Some((ReadValue(s).value.0, ReadValue(s).value.1 + t))
  {
    if "-Infinity" <= s {
      LiteralExtends(s, t, "-Infinity");
      assert (s + t)[0] == s[0];
    } else {
      NumberReadExtends(s, t);
      NumberIsTried(s + t);
    }
  }

  lemma {:induction false} ValueExtends(s: string, t: string)
    requires ReadValue(s).Some? && Closed(ReadValue(s).value.0, ReadValue(s).value.1)
    ensures ReadValue(s + t) == Some((ReadValue(s).value.0, ReadValue(s).value.1 + t))
    decreases |s|, 1
  {
    DropJoin(s, t, 1);
    assert (s + t)[0] == s[0];
    if s[0] == '\"' {
      CharsExtend(s[1..], t);
    } else if s[0] == '[' {
      ArrayExtends(s, t);
    } else if s[0] == '{' {
      ObjectExtends(s, t);
    } else if s[0] == 'n' {
      LiteralExtends(s, t, "null");
    } else if s[0] == 't' {
      LiteralExtends(s, t, "true");
    } else if s[0] == 'f' {
      LiteralExtends(s, t, "false");
    } else if s[0] == 'N' {
      LiteralExtends(s, t, "NaN");
    } else if s[0] == 'I' {
      LiteralExtends(s, t, "Infinity");
    } else {
      NumberValueExtends(s, t);
    }
  }

  lemma {:induction false} ArrayExtends(s: string, t: string)
    requires s != [] && s[0] == '[' && ReadValue(s).Some?
    ensures ReadValue(s + t) == Some((ReadValue(s).value.0, ReadValue(s).value.1 + t))
    decreases |s|, 0
  {
    var rest := SkipSpace(s[1..]);
    DropJoin(s, t, 1);
    SpaceExtends(s[1..], t);
    if rest[0] == ']' {
      DropJoin(rest, t, 1);
    } else {
      ItemsExtend(rest, t);
    }
  }

  lemma {:induction false} ItemsExtend(s: string, t: string)
    requires ReadItems(s).Some?
    ensures ReadItems(s + t) == Some((ReadItems(s).value.0, ReadItems(s).value.1 + t))
    decreases |s|, 2
  {
    var item := ReadValue(s).value;
    var rest := SkipSpace(item.1);
    assert IsDelimiter(item.1[0]);
    ValueExtends(s, t);
    SpaceExtends(item.1, t);
    DropJoin(rest, t, 1);
    if rest[0] == ',' {
      SpaceExtends(rest[1..], t);
      ItemsExtend(SkipSpace(rest[1..]), t);
    }
  }

  lemma {:induction false} ObjectExtends(s: string, t: string)
    requires s != [] && s[0] == '{' && ReadValue(s).Some?
    ensures ReadValue(s + t) == Some((ReadValue(s).value.0, ReadValue(s).value.1 + t))
    decreases |s|, 0
  {
    var rest := SkipSpace(s[1..]);
    DropJoin(s, t, 1);
    SpaceExtends(s[1..], t);
    if rest[0] == '}' {
      DropJoin(rest, t, 1);
    } else {
      MembersExtend(rest, t);
    }
  }

  lemma {:induction false} MemberExtends(s: string, t: string)
    requires ReadMember(s).Some? && ReadMember(s).value.1 != [] && IsDelimiter(ReadMember(s).value.1[0])
    ensures ReadMember(s + t) == Some((ReadMember(s).value.0, ReadMember(s).value.1 + t))
    decreases |s|, 2
  {
    var key := ReadChars(s[1..]).value;
    var colon := SkipSpace(key.1);
    DropJoin(s, t, 1);
    CharsExtend(s[1..], t);
    SpaceExtends(key.1, t);
    DropJoin(colon, t, 1);
    SpaceExtends(colon[1..], t);
    ValueExtends(SkipSpace(colon[1..]), t);
  }

  lemma {:induction false} MembersExtend(s: string, t: string)
    requires ReadMembers(s).Some?
    ensures ReadMembers(s + t) == Some((ReadMembers(s).value.0, ReadMembers(s).value.1 + t))
    decreases |s|, 3
  {
    var member := ReadMember(s).value;
    var rest := SkipSpace(member.1);
    assert IsDelimiter(member.1[0]);
    MemberExtends(s, t);
    SpaceExtends(member.1, t);
    DropJoin(rest, t, 1);
    if rest[0] == ',' {
      SpaceExtends(rest[1..], t);
      MembersExtend(SkipSpace(rest[1..]), t);
    }
  }

  lemma KindOf(s: string)
    requires s != [] && ReadValue(s).Some?
    ensures s[0] == '\"' ==> ReadValue(s).value.0.Str?
    ensures s[0] == '[' ==> ReadValue(s).value.0.Arr?
    ensures s[0] == '{' ==> ReadValue(s).value.0.Obj?
  {
  }

  /** A string, array or object that is cut short anywhere is not JSON. */
  lemma TruncatedIsRefused(v: Json, indent: bool, cut: nat)
    requires WellFormed(v) && (v.Str? || v.Arr? || v.Obj?) && cut < |Print(v, indent)|
    ensures Loads(Print(v, indent)[..cut]).None?
  {
    var text := Print(v, indent);
    var p, t := text[..cut], text[cut..];
    assert text == p + t;
    FirstChar(v, indent, 0, []);
    ValueRead(v, indent, 0, []);
    if p != [] {
      assert p[0] == text[0];
      if ReadValue(p).Some? {
        KindOf(p);
        ValueExtends(p, t);
      }
    }
  }

  // ------------------------------------------------------------------ characters

  /** The characters of a value's strings and keys. */
  predicate Mentions(v: Json, c: char)
    decreases v
  {
    match v
    case Str(s) => c in s
    case Arr(items) => exists i :: 0 <= i < |items| && Mentions(items[i], c)
    case Obj(members) => exists i :: 0 <= i < |members| && (c in members[i].key || Mentions(members[i].value, c))
    case _ => false
  }

  /** Printable ASCII. */
  predicate IsPlain(c: char) {
    ' ' <= c && c as int < 128
  }

  predicate AllPlain(s: string) {
    forall i :: 0 <= i < |s| ==> IsPlain(s[i])
  }

  lemma PlainNumber(s: string)
    requires NumberLength(s) == |s| > 0
    ensures AllPlain(s)
  {
    var i := IntLength(s);
    var f := i + FractionLength(s[i..]);
    forall k | 0 <= k < |s| ensures IsPlain(s[k]) {
      if k < i {
        PlainInt(s, k);
      } else if k < f {
        PlainFraction(s[i..], k - i);
      } else {
        assert s[f..] == s[i..][FractionLength(s[i..])..];
        PlainExponent(s[f..], k - f);
      }
    }
  }

  lemma PlainInt(s: string, k: nat)
    requires k < IntLength(s)
    ensures IsPlain(s[k])
  {
    var sign := if s[0] == '-' then 1 else 0;
    if k >= sign && s[sign] != '0' {
      assert IsDigit(s[sign..][..DigitRun(s[sign..])][k - sign]);
    }
  }

  lemma PlainFraction(s: string, k: nat)
    requires k < FractionLength(s)
    ensures IsPlain(s[k])
  {
    if k > 0 {
      assert IsDigit(s[1..][..DigitRun(s[1..])][k - 1]);
    }
  }

  lemma PlainExponent(s: string, k: nat)
    requires k < ExponentLength(s)
    ensures IsPlain(s[k])
  {
    var sign := if s[1] == '+' || s[1] == '-' then 2 else 1;
    if k >= sign {
      assert IsDigit(s[sign..][..DigitRun(s[sign..])][k - sign]);
    }
  }

  lemma PlainScalar(v: Json)
    requires WellFormed(v) && !v.Str? && !v.Arr? && !v.Obj?
    ensures AllPlain(Print(v, false))
  {
    match v
    case Int(n) =>
      TextOfInt(n);
      PlainNumber(IntText(n));
      assert IntText(n) + [] == IntText(n);
    case Float(lexeme) =>
      assert lexeme + [] == lexeme;
      if lexeme != "Infinity" && lexeme != "-Infinity" {
        PlainNumber(lexeme);
      }
    case Null => assert "null" + [] == "null";
    case Bool(b) => assert (if b then "true" else "false") + [] == if b then "true" else "false";
  }

  lemma {:induction false} CharsMention(s: string, tail: string, c: char)
    requires !IsPlain(c)
    ensures c in CharsTo(s, tail) <==> (c >= ' ' && c in s) || c in tail
    decreases |s|
  {
    if s == [] {
      assert CharsTo(s, tail) == ['\"'] + tail;
    } else {
      CharsMention(s[1..], tail, c);
      assert s == [s[0]] + s[1..];
      assert c in EscapeChar(s[0]) <==> c >= ' ' && c == s[0];
    }
  }

  lemma StringMentions(s: string, tail: string, c: char)
    requires !IsPlain(c)
    ensures c in StringTo(s, tail) <==> (c >= ' ' && c in s) || c in tail
  {
    CharsMention(s, tail, c);
  }

  /** Compact text contains a character that is not plain ASCII exactly where a string of the value does, unless it is a control character. */
  lemma {:induction false} TextMentions(v: Json, level: nat, tail: string, c: char)
    requires WellFormed(v) && !IsPlain(c)
    ensures c in PrintTo(v, false, level, tail) <==> (c >= ' ' && Mentions(v, c)) || c in tail
    decreases v, 0
  {
    match v
    case Str(s) => StringMentions(s, tail, c);
    case Arr(items) =>
      if items != [] {
        var end := [']'] + tail;
        ItemsMention(items, level + 1, Gap(false, level) + end, c);
        assert Gap(false, level) + end == end;
      }
    case Obj(members) =>
      if members != [] {
        var end := ['}'] + tail;
        MembersMention(members, level + 1, Gap(false, level) + end, c);
        assert Gap(false, level) + end == end;
      }
    case _ =>
      PlainScalar(v);
      assert PrintTo(v, false, level, tail) == Print(v, false) + tail;
  }

  lemma {:induction false} ItemsMention(items: seq<Json>, level: nat, tail: string, c: char)
    requires items != [] && !IsPlain(c) && forall i :: 0 <= i < |items| ==> WellFormed(items[i])
    ensures c in ItemsTo(items, false, level, tail)
      <==> (c >= ' ' && exists i :: 0 <= i < |items| && Mentions(items[i], c)) || c in tail
    decreases items, 1
  {
    if |items| == 1 {
      TextMentions(items[0], level, tail, c);
    } else {
      ItemsMention(items[1..], level, tail, c);
      var rest := ItemsTo(items[1..], false, level, tail);
      TextMentions(items[0], level, [','] + (Gap(false, level) + rest), c);
      assert forall i :: 0 <= i < |items| - 1 ==> items[1..][i] == items[i + 1];
      assert forall i :: 1 <= i < |items| ==> items[i] == items[1..][i - 1];
    }
  }

  lemma {:induction false} MembersMention(members: seq<Member>, level: nat, tail: string, c: char)
    requires members != [] && !IsPlain(c) && forall i :: 0 <= i < |members| ==> WellFormed(members[i].value)
    ensures c in MembersTo(members, false, level, tail)
      <==> (c >= ' ' && exists i :: 0 <= i < |members| && (c in members[i].key || Mentions(members[i].value, c))) || c in tail
    decreases members, 1
  {
    if |members| == 1 {
      MemberMentions(members[0], level, tail, c);
    } else {
      MembersMention(members[1..], level, tail, c);
      var rest := MembersTo(members[1..], false, level, tail);
      MemberMentions(members[0], level, [','] + (Gap(false, level) + rest), c);
      assert forall i :: 0 <= i < |members| - 1 ==> members[1..][i] == members[i + 1];
      assert forall i :: 1 <= i < |members| ==> members[i] == members[1..][i - 1];
    }
  }

  lemma {:induction false} MemberMentions(member: Member, level: nat, tail: string, c: char)
    requires !IsPlain(c) && WellFormed(member.value)
    ensures c in MemberTo(member, false, level, tail)
      <==> (c >= ' ' && (c in member.key || Mentions(member.value, c))) || c in tail
    decreases member, 1
  {
    var value := PrintTo(member.value, false, level, tail);
    StringMentions(member.key, Colon(false) + value, c);
    TextMentions(member.value, level, tail, c);
    assert c in Colon(false) + value <==> c in value;
  }
}
