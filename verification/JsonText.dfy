/**
 Printing and reading JSON are inverse; a value that is cut short is never read; and which
 characters printed text contains.
 */
module JsonText {
  import opened Prelude
  import opened Json

  /** Values that Python can print and read back: known float lexemes, and objects without duplicate keys. */
  predicate WellFormed(v: Json)
    decreases v
  {
    match v
    case Float(lexeme) => IsFloat(lexeme)
    case Arr(items) => forall i :: 0 <= i < |items| ==> WellFormed(items[i])
    case Obj(members) => Unique(members) && forall i :: 0 <= i < |members| ==> WellFormed(members[i].value)
    case _ => true
  }

  predicate IsDelimiter(c: char) {
    IsSpace(c) || c == ',' || c == ']' || c == '}'
  }

  /** What may follow a number without becoming part of it. */
  predicate Delimited(s: string) {
    s == [] || IsDelimiter(s[0])
  }

  // --------------------------------------------------------------------- numbers

  lemma {:induction false} RunExtends(s: string, t: string)
    requires DigitRun(s) < |s| || t == [] || !IsDigit(t[0])
    ensures DigitRun(s + t) == DigitRun(s)
  {
    if s == [] {
      assert s + t == t;
    } else if IsDigit(s[0]) {
      DropJoin(s, t, 1);
      RunExtends(s[1..], t);
    }
  }

  /** A number that ends before a delimiter, or with the text, ends there whatever follows. */
  predicate Ends(s: string, n: nat, t: string)
    requires n <= |s|
  {
    if n < |s| then IsDelimiter(s[n]) else Delimited(t)
  }

  lemma IntExtends(s: string, t: string)
    requires IntLength(s) > 0
    requires IntLength(s) < |s| || t == [] || !IsDigit(t[0])
    ensures IntLength(s + t) == IntLength(s)
  {
    var sign := if s[0] == '-' then 1 else 0;
    if s[sign] != '0' {
      DropJoin(s, t, sign);
      RunExtends(s[sign..], t);
    }
  }

  lemma FractionExtends(s: string, t: string)
    requires FractionLength(s) > 0 ==> FractionLength(s) < |s| || t == [] || !IsDigit(t[0])
    requires FractionLength(s) == 0 ==> if s == [] then t == [] || t[0] != '.' else s[0] != '.' || |s| >= 2
    ensures FractionLength(s + t) == FractionLength(s)
  {
    if s == [] {
      assert s + t == t;
    } else if FractionLength(s) > 0 {
      DropJoin(s, t, 1);
      RunExtends(s[1..], t);
    }
  }

  lemma ExponentExtends(s: string, t: string)
    requires ExponentLength(s) > 0 ==> ExponentLength(s) < |s| || t == [] || !IsDigit(t[0])
    requires ExponentLength(s) == 0 ==> if s == [] then t == [] || (t[0] != 'e' && t[0] != 'E') else s[0] != 'e' && s[0] != 'E'
    ensures ExponentLength(s + t) == ExponentLength(s)
  {
    if s == [] {
      assert s + t == t;
    } else if ExponentLength(s) > 0 {
      var sign := if s[1] == '+' || s[1] == '-' then 2 else 1;
      DropJoin(s, t, sign);
      RunExtends(s[sign..], t);
    }
  }

  lemma TailExtends(u: string, t: string)
    requires Ends(u, TailLength(u), t)
    ensures TailLength(u + t) == TailLength(u)
  {
    var f := FractionLength(u);
    var w := u[f..];
    DropJoin(u, t, f);
    assert ExponentLength(w) == 0 && w != [] ==> IsDelimiter(w[0]);
    FractionExtends(u, t);
    ExponentExtends(w, t);
  }

  lemma NumberExtends(s: string, t: string)
    requires NumberLength(s) > 0 && Ends(s, NumberLength(s), t)
    ensures NumberLength(s + t) == NumberLength(s) && IntLength(s + t) == IntLength(s)
  {
    var i := IntLength(s);
    EndsLater(s, i, t);
    TailExtends(s[i..], t);
    DropJoin(s, t, i);
    IntExtends(s, t);
  }

  lemma EndsLater(s: string, i: nat, t: string)
    requires i <= |s| && Ends(s, i + TailLength(s[i..]), t)
    ensures Ends(s[i..], TailLength(s[i..]), t)
    ensures i == |s| ==> Delimited(t)
  {
  }

  lemma TextOfInt(n: int)
    ensures IntLength(IntText(n)) == NumberLength(IntText(n)) == |IntText(n)| > 0 && IntValue(IntText(n)) == n
  {
    var d: nat := if n < 0 then -n else n;
    var sign := if n < 0 then 1 else 0;
    var text := IntText(n);
    assert text[sign..] == Digits(d);
    WholeRun(Digits(d));
    DigitsRoundTrip(d);
    if n < 0 {
      assert text[0] == '-' && text[1] == Digits(d)[0];
    }
    assert text[|text|..] == [];
  }

  lemma NumberIsTried(s: string)
    requires IntLength(s) > 0
    ensures ReadValue(s) == ReadNumber(s)
  {
    NumberStarts(s);
    assert "-Infinity"[1] == 'I';
    assert s[0] == '-' ==> !("-Infinity" <= s);
  }

  /** A token is read as a number. */
  lemma TokenRead(token: string, tail: string)
    requires IntLength(token) > 0 && NumberLength(token) == |token| && Delimited(tail)
    ensures ReadValue(token + tail)
         == Some((if IntLength(token) == |token| then Int(IntValue(token)) else Float(token), tail))
  {
    NumberExtends(token, tail);
    NumberIsTried(token + tail);
    assert (token + tail)[..|token|] == token && (token + tail)[|token|..] == tail;
  }

  lemma NumberRead(v: Json, tail: string)
    requires WellFormed(v) && (v.Int? || v.Float?) && Delimited(tail)
    ensures ReadValue(PrintTo(v, false, 0, tail)) == Some((v, tail))
  {
    match v
    case Int(n) =>
      TextOfInt(n);
      TokenRead(IntText(n), tail);
    case Float(text) =>
      assert (text + tail)[|text|..] == tail;
      if text == "Infinity" || text == "-Infinity" {
        assert text <= text + tail;
      } else {
        TokenRead(text, tail);
      }
  }

  lemma NumberStarts(s: string)
    requires IntLength(s) > 0
    ensures IsDigit(s[0]) || (s[0] == '-' && |s| > 1 && IsDigit(s[1]))
  {
  }

  // --------------------------------------------------------------------- strings

  lemma HexRoundTrip(d: nat)
    requires d < 16
    ensures HexValue(Hex(d)) == Some(d)
  {
  }

  lemma EscapeRead(c: char, tail: string)
    requires EscapeChar(c) != [c]
    ensures EscapeChar(c)[0] == '\\' && ReadEscape((EscapeChar(c) + tail)[1..]) == Some((c, tail))
  {
    var s := (EscapeChar(c) + tail)[1..];
    if |EscapeChar(c)| == 2 {
      assert s[1..] == tail;
    } else {
      HexRoundTrip(c as int / 16);
      HexRoundTrip(c as int % 16);
      assert s[5..] == tail;
      assert s[1..][0] == '0' && s[1..][1] == '0' && s[1..][2] == Hex(c as int / 16) && s[1..][3] == Hex(c as int % 16);
    }
  }

  lemma {:induction false} CharsRead(s: string, tail: string)
    ensures ReadChars(CharsTo(s, tail)) == Some((s, tail))
    decreases |s|
  {
    var text := CharsTo(s, tail);
    if s == [] {
      assert text[1..] == tail;
    } else {
      CharsRead(s[1..], tail);
      var rest := CharsTo(s[1..], tail);
      assert s == [s[0]] + s[1..];
      if EscapeChar(s[0]) == [s[0]] {
        assert text[1..] == rest;
      } else {
        EscapeRead(s[0], rest);
      }
    }
  }

  // ------------------------------------------------------------------ whitespace

  lemma {:induction false} SkipSpaces(n: nat, s: string)
    ensures SkipSpace(Spaces(n) + s) == SkipSpace(s)
  {
    if n == 0 {
      assert Spaces(n) + s == s;
    } else {
      SkipSpaces(n - 1, s);
      assert (Spaces(n) + s)[1..] == Spaces(n - 1) + s;
    }
  }

  lemma SkipGap(indent: bool, level: nat, s: string)
    ensures SkipSpace(Gap(indent, level) + s) == SkipSpace(s)
  {
    if indent {
      SkipSpaces(2 * level, s);
      assert (Gap(indent, level) + s)[1..] == Spaces(2 * level) + s;
    } else {
      assert Gap(indent, level) + s == s;
    }
  }

  /** A gap and a closing bracket end a number. */
  lemma GapDelimits(indent: bool, level: nat, s: string)
    requires s != [] && IsDelimiter(s[0])
    ensures Delimited(Gap(indent, level) + s)
  {
    if indent {
      assert (Gap(indent, level) + s)[0] == '\n';
    } else {
      assert Gap(indent, level) + s == s;
    }
  }

  /** The first character of a printed value tells its kind, and is neither space nor closing bracket. */
  lemma FirstChar(v: Json, indent: bool, level: nat, tail: string)
    requires WellFormed(v)
    ensures var text := PrintTo(v, indent, level, tail);
      && text != [] && !IsSpace(text[0]) && text[0] != ']' && text[0] != '}' && SkipSpace(text) == text
      && (v.Str? ==> text[0] == '\"') && (v.Arr? ==> text[0] == '[') && (v.Obj? ==> text[0] == '{')
  {
    match v
    case Int(n) => TextOfInt(n);
    case Float(text) => if text[0] != 'I' && text != "-Infinity" { NumberStarts(text); }
    case _ =>
  }

  lemma MemberStarts(members: seq<Member>, indent: bool, level: nat, tail: string)
    requires members != []
    ensures var text := MembersTo(members, indent, level, tail); text != [] && text[0] == '\"' && SkipSpace(text) == text
  {
  }

  lemma ItemStarts(items: seq<Json>, indent: bool, level: nat, tail: string)
    requires items != [] && WellFormed(items[0])
    ensures var text := ItemsTo(items, indent, level, tail);
      text != [] && !IsSpace(text[0]) && text[0] != ']' && SkipSpace(text) == text
  {
    FirstChar(items[0], indent, level,
              if |items| == 1 then tail else [','] + (Gap(indent, level) + ItemsTo(items[1..], indent, level, tail)));
  }

  // ------------------------------------------------------------------- round trip

  lemma {:induction false} ValueRead(v: Json, indent: bool, level: nat, tail: string)
    requires WellFormed(v) && (v.Int? || v.Float? ==> Delimited(tail))
    ensures ReadValue(PrintTo(v, indent, level, tail)) == Some((v, tail))
    decreases v, 0
  {
    match v
    case Null => assert "null" <= "null" + tail && ("null" + tail)[4..] == tail;
    case Bool(b) =>
      var word := if b then "true" else "false";
      assert word <= word + tail && (word + tail)[|word|..] == tail;
    case Int(_) => NumberRead(v, tail);
    case Float(_) => NumberRead(v, tail);
    case Str(s) => CharsRead(s, tail); assert StringTo(s, tail)[1..] == CharsTo(s, tail);
    case Arr(items) => ArrayRead(items, indent, level, tail);
    case Obj(members) => ObjectRead(members, indent, level, tail);
  }

  // One step of the reader, for whatever text it stands before.

  lemma LastItem(s: string, item: Json, end: string, tail: string)
    requires ReadValue(s) == Some((item, end)) && SkipSpace(end) == [']'] + tail
    ensures ReadItems(s) == Some(([item], tail))
  {
    assert ([']'] + tail)[1..] == tail;
  }

  lemma NextItem(s: string, item: Json, next: string, items: seq<Json>, tail: string)
    requires ReadValue(s) == Some((item, [','] + next)) && ReadItems(SkipSpace(next)) == Some((items, tail))
    ensures ReadItems(s) == Some(([item] + items, tail))
  {
    assert SkipSpace([','] + next) == [','] + next && ([','] + next)[1..] == next;
  }

  lemma LastMember(s: string, member: Member, end: string, tail: string)
    requires ReadMember(s) == Some((member, end)) && SkipSpace(end) == ['}'] + tail
    ensures ReadMembers(s) == Some(([member], tail))
  {
    assert (['}'] + tail)[1..] == tail;
  }

  lemma NextMember(s: string, member: Member, next: string, members: seq<Member>, tail: string)
    requires ReadMember(s) == Some((member, [','] + next)) && ReadMembers(SkipSpace(next)) == Some((members, tail))
    ensures ReadMembers(s) == Some(([member] + members, tail))
  {
    assert SkipSpace([','] + next) == [','] + next && ([','] + next)[1..] == next;
  }

  lemma OpenArray(rest: string, items: seq<Json>, tail: string)
    requires SkipSpace(rest) != [] && SkipSpace(rest)[0] != ']' && ReadItems(SkipSpace(rest)) == Some((items, tail))
    ensures ReadValue(['['] + rest) == Some((Arr(items), tail))
  {
    assert (['['] + rest)[1..] == rest;
  }

  lemma OpenObject(rest: string, members: seq<Member>, tail: string)
    requires SkipSpace(rest) != [] && SkipSpace(rest)[0] == '\"' && ReadMembers(SkipSpace(rest)) == Some((members, tail))
    requires Unique(members)
    ensures ReadValue(['{'] + rest) == Some((Obj(members), tail))
  {
    assert (['{'] + rest)[1..] == rest;
  }

  lemma EmptyBrackets(tail: string)
    ensures ReadValue(['[', ']'] + tail) == Some((Arr([]), tail))
    ensures ReadValue(['{', '}'] + tail) == Some((Obj([]), tail))
  {
    assert (['[', ']'] + tail)[1..] == [']'] + tail && ([']'] + tail)[1..] == tail;
    assert (['{', '}'] + tail)[1..] == ['}'] + tail && (['}'] + tail)[1..] == tail;
  }

  lemma {:induction false} ArrayRead(items: seq<Json>, indent: bool, level: nat, tail: string)
    requires forall i :: 0 <= i < |items| ==> WellFormed(items[i])
    ensures ReadValue(PrintTo(Arr(items), indent, level, tail)) == Some((Arr(items), tail))
    decreases items, 2
  {
    if items == [] {
      EmptyBrackets(tail);
    } else {
      var end := Gap(indent, level) + ([']'] + tail);
      SkipGap(indent, level, [']'] + tail);
      GapDelimits(indent, level, [']'] + tail);
      ItemsRead(items, indent, level + 1, end, tail);
      ItemStarts(items, indent, level + 1, end);
      SkipGap(indent, level + 1, ItemsTo(items, indent, level + 1, end));
      OpenArray(Gap(indent, level + 1) + ItemsTo(items, indent, level + 1, end), items, tail);
    }
  }

  lemma {:induction false} ItemsRead(items: seq<Json>, indent: bool, level: nat, end: string, tail: string)
    requires items != [] && forall i :: 0 <= i < |items| ==> WellFormed(items[i])
    requires Delimited(end) && SkipSpace(end) == [']'] + tail
    ensures ReadItems(ItemsTo(items, indent, level, end)) == Some((items, tail))
    decreases items, 1
  {
    if |items| == 1 {
      ValueRead(items[0], indent, level, end);
      LastItem(ItemsTo(items, indent, level, end), items[0], end, tail);
      assert items == [items[0]];
    } else {
      ValueRead(items[0], indent, level, [','] + (Gap(indent, level) + ItemsTo(items[1..], indent, level, end)));
      ItemsRead(items[1..], indent, level, end, tail);
      ItemStarts(items[1..], indent, level, end);
      MoreItems(items, indent, level, end, ItemsTo(items[1..], indent, level, end), tail);
    }
  }

  lemma MoreItems(items: seq<Json>, indent: bool, level: nat, end: string, rest: string, tail: string)
    requires |items| > 1 && rest == ItemsTo(items[1..], indent, level, end) && SkipSpace(rest) == rest
    requires var next := [','] + (Gap(indent, level) + rest);
      ReadValue(PrintTo(items[0], indent, level, next)) == Some((items[0], next))
    requires ReadItems(rest) == Some((items[1..], tail))
    ensures ReadItems(ItemsTo(items, indent, level, end)) == Some((items, tail))
  {
    SkipGap(indent, level, rest);
    NextItem(ItemsTo(items, indent, level, end), items[0], Gap(indent, level) + rest, items[1..], tail);
    assert items == [items[0]] + items[1..];
  }

  lemma {:induction false} ObjectRead(members: seq<Member>, indent: bool, level: nat, tail: string)
    requires Unique(members) && forall i :: 0 <= i < |members| ==> WellFormed(members[i].value)
    ensures ReadValue(PrintTo(Obj(members), indent, level, tail)) == Some((Obj(members), tail))
    decreases members, 2
  {
    if members == [] {
      EmptyBrackets(tail);
    } else {
      var end := Gap(indent, level) + (['}'] + tail);
      SkipGap(indent, level, ['}'] + tail);
      GapDelimits(indent, level, ['}'] + tail);
      MembersRead(members, indent, level + 1, end, tail);
      MemberStarts(members, indent, level + 1, end);
      SkipGap(indent, level + 1, MembersTo(members, indent, level + 1, end));
      OpenObject(Gap(indent, level + 1) + MembersTo(members, indent, level + 1, end), members, tail);
    }
  }

  lemma {:induction false} MemberRead(member: Member, indent: bool, level: nat, next: string)
    requires WellFormed(member.value) && Delimited(next)
    ensures ReadMember(MemberTo(member, indent, level, next)) == Some((member, next))
    decreases member, 1
  {
    var value := PrintTo(member.value, indent, level, next);
    var colon := Colon(indent) + value;
    CharsRead(member.key, colon);
    assert StringTo(member.key, colon)[1..] == CharsTo(member.key, colon);
    ValueRead(member.value, indent, level, next);
    FirstChar(member.value, indent, level, next);
    assert SkipSpace(colon) == colon;
    if indent {
      assert colon[1..][1..] == value;
    } else {
      assert colon[1..] == value;
    }
  }

  lemma {:induction false} MembersRead(members: seq<Member>, indent: bool, level: nat, end: string, tail: string)
    requires members != [] && forall i :: 0 <= i < |members| ==> WellFormed(members[i].value)
    requires Delimited(end) && SkipSpace(end) == ['}'] + tail
    ensures ReadMembers(MembersTo(members, indent, level, end)) == Some((members, tail))
    decreases members, 1
  {
    if |members| == 1 {
      MemberRead(members[0], indent, level, end);
      LastMember(MembersTo(members, indent, level, end), members[0], end, tail);
      assert members == [members[0]];
    } else {
      MemberRead(members[0], indent, level, [','] + (Gap(indent, level) + MembersTo(members[1..], indent, level, end)));
      MembersRead(members[1..], indent, level, end, tail);
      MemberStarts(members[1..], indent, level, end);
      MoreMembers(members, indent, level, end, MembersTo(members[1..], indent, level, end), tail);
    }
  }

  lemma MoreMembers(members: seq<Member>, indent: bool, level: nat, end: string, rest: string, tail: string)
    requires |members| > 1 && rest == MembersTo(members[1..], indent, level, end) && SkipSpace(rest) == rest
    requires var next := [','] + (Gap(indent, level) + rest);
      ReadMember(MemberTo(members[0], indent, level, next)) == Some((members[0], next))
    requires ReadMembers(rest) == Some((members[1..], tail))
    ensures ReadMembers(MembersTo(members, indent, level, end)) == Some((members, tail))
  {
    SkipGap(indent, level, rest);
    NextMember(MembersTo(members, indent, level, end), members[0], Gap(indent, level) + rest, members[1..], tail);
    assert members == [members[0]] + members[1..];
  }

  /** `loads(dumps(v)) == v`, compact or indented. */
  lemma LoadsPrinted(v: Json, indent: bool)
    requires WellFormed(v)
    ensures Loads(Print(v, indent)) == Some(v)
  {
    FirstChar(v, indent, 0, []);
    ValueRead(v, indent, 0, []);
  }
}
