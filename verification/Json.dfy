/**
 JSON values and text, as Python's `json` prints and reads them: `ensure_ascii=False`, compact
 or with an indent of two, and every object read through a hook that refuses duplicate keys.
 Floating-point numbers are kept as their printed lexeme.
 */
module Json {
  import opened Prelude

  datatype Json =
    | Null
    | Bool(b: bool)
    | Int(n: int)
    | Float(lexeme: string)
    | Str(s: string)
    | Arr(items: seq<Json>)
    | Obj(members: seq<Member>)

  datatype Member = Member(key: string, value: Json)

  // --------------------------------------------------------------------- numbers

  predicate IsDigit(c: char) {
    '0' <= c <= '9'
  }

  predicate AllDigits(s: string) {
    forall i :: 0 <= i < |s| ==> IsDigit(s[i])
  }

  function Digits(n: nat): (s: string)
    ensures s != [] && AllDigits(s) && (s[0] == '0' <==> n == 0)
  {
    if n < 10 then [(n + 48) as char] else Digits(n / 10) + [(n % 10 + 48) as char]
  }

  function DigitsValue(s: string): nat
    requires AllDigits(s)
  {
    if s == [] then 0 else DigitsValue(s[..|s| - 1]) * 10 + (s[|s| - 1] as int - 48)
  }

  lemma {:induction false} DigitsRoundTrip(n: nat)
    ensures DigitsValue(Digits(n)) == n && (n < 10 ==> |Digits(n)| == 1)
  {
    if n >= 10 {
      DigitsRoundTrip(n / 10);
      assert Digits(n)[..|Digits(n)| - 1] == Digits(n / 10);
    } else {
      assert Digits(n)[..0] == [];
    }
  }

  /** The number of leading digits. */
  function DigitRun(s: string): (n: nat)
    ensures n <= |s| && AllDigits(s[..n]) && (n < |s| ==> !IsDigit(s[n]))
  {
    if s == [] || !IsDigit(s[0]) then 0 else 1 + DigitRun(s[1..])
  }

  /** The length of `-?(0|[1-9]\d*)` at the front, or 0. */
  function IntLength(s: string): (n: nat)
    ensures n <= |s|
  {
    var sign := if s != [] && s[0] == '-' then 1 else 0;
    if |s| == sign || !IsDigit(s[sign]) then 0
    else if s[sign] == '0' then sign + 1
    else sign + DigitRun(s[sign..])
  }

  /** The length of `\.\d+` at the front, or 0. */
  function FractionLength(s: string): (n: nat)
    ensures n <= |s|
  {
    if |s| >= 2 && s[0] == '.' && IsDigit(s[1]) then 1 + DigitRun(s[1..]) else 0
  }

  /** The length of `[eE][-+]?\d+` at the front, or 0. */
  function ExponentLength(s: string): (n: nat)
    ensures n <= |s|
  {
    if |s| >= 2 && (s[0] == 'e' || s[0] == 'E') then
      var sign := if s[1] == '+' || s[1] == '-' then 2 else 1;
      if sign < |s| && IsDigit(s[sign]) then sign + DigitRun(s[sign..]) else 0
    else 0
  }

  /** Fraction and exponent. */
  function TailLength(s: string): (n: nat)
    ensures n <= |s|
  {
    FractionLength(s) + ExponentLength(s[FractionLength(s)..])
  }

  function NumberLength(s: string): (n: nat)
    ensures IntLength(s) <= n <= |s|
  {
    if IntLength(s) == 0 then 0 else IntLength(s) + TailLength(s[IntLength(s)..])
  }

  /** The value of a token without fraction or exponent. */
  function IntValue(token: string): int
    requires IntLength(token) == |token| > 0
  {
    if token[0] == '-' then -(DigitsValue(token[1..]) as int) else DigitsValue(token)
  }

  function IntText(n: int): string {
    if n < 0 then "-" + Digits(-n) else Digits(n)
  }

  /** The lexemes of finite floats, and the infinities, which Python prints and reads too. */
  predicate IsFloat(lexeme: string) {
    lexeme == "Infinity" || lexeme == "-Infinity"
    || (lexeme != [] && IntLength(lexeme) < NumberLength(lexeme) == |lexeme|)
  }

  // --------------------------------------------------------------------- printing

  function Hex(d: nat): char
    requires d < 16
  {
    if d < 10 then (d + 48) as char else (d + 87) as char
  }

  /** Only quotes, backslashes and control characters below the space are escaped. */
  function EscapeChar(c: char): string {
    if c == '\"' then ['\\', '\"']
    else if c == '\\' then ['\\', '\\']
    else if c == '\n' then ['\\', 'n']
    else if c == '\r' then ['\\', 'r']
    else if c == '\t' then ['\\', 't']
    else if c as int == 8 then ['\\', 'b']
    else if c as int == 12 then ['\\', 'f']
    else if c < ' ' then ['\\', 'u', '0', '0', Hex(c as int / 16), Hex(c as int % 16)]
    else [c]
  }

  /** The quoted string, followed by `tail`. */
  function CharsTo(s: string, tail: string): string {
    if s == [] then ['\"'] + tail else EscapeChar(s[0]) + CharsTo(s[1..], tail)
  }

  function StringTo(s: string, tail: string): string {
    ['\"'] + CharsTo(s, tail)
  }

  function Spaces(n: nat): string {
    if n == 0 then [] else [' '] + Spaces(n - 1)
  }

  /** What separates elements on a level: nothing, or a new line and its indentation. */
  function Gap(indent: bool, level: nat): string {
    if indent then ['\n'] + Spaces(2 * level) else []
  }

  function Colon(indent: bool): string {
    if indent then [':', ' '] else [':']
  }

  /** `json.dumps` of a value, followed by `tail`: the chunks in the order in which they are written. */
  function PrintTo(v: Json, indent: bool, level: nat, tail: string): string
    decreases v
  {
    match v
    case Null => "null" + tail
    case Bool(b) => (if b then "true" else "false") + tail
    case Int(n) => IntText(n) + tail
    case Float(lexeme) => lexeme + tail
    case Str(s) => StringTo(s, tail)
    case Arr(items) =>
      if items == [] then ['[', ']'] + tail
      else ['['] + (Gap(indent, level + 1) + ItemsTo(items, indent, level + 1, Gap(indent, level) + ([']'] + tail)))
    case Obj(members) =>
      if members == [] then ['{', '}'] + tail
      else ['{'] + (Gap(indent, level + 1) + MembersTo(members, indent, level + 1, Gap(indent, level) + (['}'] + tail)))
  }

  function ItemsTo(items: seq<Json>, indent: bool, level: nat, tail: string): string
    requires items != []
    decreases items
  {
    if |items| == 1 then PrintTo(items[0], indent, level, tail)
    else PrintTo(items[0], indent, level, [','] + (Gap(indent, level) + ItemsTo(items[1..], indent, level, tail)))
  }

  function MemberTo(member: Member, indent: bool, level: nat, tail: string): string
    decreases member
  {
    StringTo(member.key, Colon(indent) + PrintTo(member.value, indent, level, tail))
  }

  function MembersTo(members: seq<Member>, indent: bool, level: nat, tail: string): string
    requires members != []
    decreases members
  {
    if |members| == 1 then MemberTo(members[0], indent, level, tail)
    else MemberTo(members[0], indent, level, [','] + (Gap(indent, level) + MembersTo(members[1..], indent, level, tail)))
  }

  function Print(v: Json, indent: bool): string {
    PrintTo(v, indent, 0, [])
  }

  // ---------------------------------------------------------------------- reading

  predicate IsSpace(c: char) {
    c == ' ' || c == '\t' || c == '\n' || c == '\r'
  }

  function SkipSpace(s: string): (r: string)
    ensures |r| <= |s| && (r != [] ==> !IsSpace(r[0]))
    ensures |r| == |s| ==> r == s
  {
    if s == [] || !IsSpace(s[0]) then s else SkipSpace(s[1..])
  }

  function HexValue(c: char): Option<nat> {
    if '0' <= c <= '9' then Some(c as int - 48)
    else if 'a' <= c <= 'f' then Some(c as int - 87)
    else if 'A' <= c <= 'F' then Some(c as int - 55)
    else None
  }

  /** Four hexadecimal digits at the front. */
  function Hex4(s: string): (r: Option<nat>)
    ensures r.Some? ==> |s| >= 4 && r.value < 65536
  {
    if |s| < 4 then None
    else
      var a, b, c, d := HexValue(s[0]), HexValue(s[1]), HexValue(s[2]), HexValue(s[3]);
      if a.None? || b.None? || c.None? || d.None? then None
      else Some(((a.value * 16 + b.value) * 16 + c.value) * 16 + d.value)
  }

  predicate IsHighSurrogate(u: nat) {
    0xD800 <= u < 0xDC00
  }

  predicate IsLowSurrogate(u: nat) {
    0xDC00 <= u < 0xE000
  }

  /** What follows a backslash. A surrogate without its partner is no character here. */
  function ReadEscape(s: string): (r: Option<(char, string)>)
    ensures r.Some? ==> |r.value.1| < |s|
  {
    if s == [] then None
    else if s[0] == '\"' || s[0] == '\\' || s[0] == '/' then Some((s[0], s[1..]))
    else if s[0] == 'n' then Some(('\n', s[1..]))
    else if s[0] == 'r' then Some(('\r', s[1..]))
    else if s[0] == 't' then Some(('\t', s[1..]))
    else if s[0] == 'b' then Some((8 as char, s[1..]))
    else if s[0] == 'f' then Some((12 as char, s[1..]))
    else if s[0] != 'u' || Hex4(s[1..]).None? then None
    else
      var u, rest := Hex4(s[1..]).value, s[5..];
      if !IsHighSurrogate(u) && !IsLowSurrogate(u) then Some((u as char, rest))
      else if IsHighSurrogate(u) && |rest| >= 2 && rest[0] == '\\' && rest[1] == 'u' && Hex4(rest[2..]).Some?
              && IsLowSurrogate(Hex4(rest[2..]).value)
      then Some(((0x10000 + (u - 0xD800) * 1024 + (Hex4(rest[2..]).value - 0xDC00)) as char, rest[6..]))
      else None
  }

  /** The characters up to the closing quote, and what follows it. */
  function ReadChars(s: string): (r: Option<(string, string)>)
    ensures r.Some? ==> |r.value.1| < |s|
    decreases |s|
  {
    if s == [] then None
    else if s[0] == '\"' then Some(("", s[1..]))
    else if s[0] == '\\' then
      var escape := ReadEscape(s[1..]);
      if escape.None? then None
      else
        var rest := ReadChars(escape.value.1);
        if rest.None? then None else Some(([escape.value.0] + rest.value.0, rest.value.1))
    else if s[0] < ' ' then None
    else
      var rest := ReadChars(s[1..]);
      if rest.None? then None else Some(([s[0]] + rest.value.0, rest.value.1))
  }

  function Literal(s: string, word: string, v: Json): (r: Option<(Json, string)>)
    requires word != []
    ensures r.Some? ==> |r.value.1| < |s|
  {
    if word <= s then Some((v, s[|word|..])) else None
  }

  function ReadNumber(s: string): (r: Option<(Json, string)>)
    ensures r.Some? ==> |r.value.1| < |s|
  {
    var n := NumberLength(s);
    if n == 0 then None
    else if n == IntLength(s) then
      TokenIsInt(s);
      Some((Int(IntValue(s[..n])), s[n..]))
    else Some((Float(s[..n]), s[n..]))
  }

  lemma TokenIsInt(s: string)
    requires IntLength(s) > 0
    ensures IntLength(s[..IntLength(s)]) == IntLength(s)
  {
    var n := IntLength(s);
    var sign := if s[0] == '-' then 1 else 0;
    if s[sign] != '0' {
      assert s[..n][sign..] == s[sign..][..n - sign];
      WholeRun(s[..n][sign..]);
    }
  }

  lemma {:induction false} WholeRun(s: string)
    requires AllDigits(s)
    ensures DigitRun(s) == |s|
  {
    if s != [] {
      WholeRun(s[1..]);
    }
  }

  predicate HasKey(members: seq<Member>, key: string) {
    exists i :: 0 <= i < |members| && members[i].key == key
  }

  /** `_unique`: the members, unless a key occurs twice. */
  predicate Unique(members: seq<Member>) {
    members == [] || (!HasKey(members[1..], members[0].key) && Unique(members[1..]))
  }

  function ReadValue(s: string): (r: Option<(Json, string)>)
    ensures r.Some? ==> |r.value.1| < |s|
    decreases |s|, 0
  {
    if s == [] then None
    else if s[0] == '\"' then
      var chars := ReadChars(s[1..]);
      if chars.None? then None else Some((Str(chars.value.0), chars.value.1))
    else if s[0] == '[' then
      var rest := SkipSpace(s[1..]);
      if rest != [] && rest[0] == ']' then Some((Arr([]), rest[1..]))
      else
        var items := ReadItems(rest);
        if items.None? then None else Some((Arr(items.value.0), items.value.1))
    else if s[0] == '{' then
      var rest := SkipSpace(s[1..]);
      if rest != [] && rest[0] == '}' then Some((Obj([]), rest[1..]))
      else
        var members := ReadMembers(rest);
        if members.None? || !Unique(members.value.0) then None else Some((Obj(members.value.0), members.value.1))
    else if s[0] == 'n' then Literal(s, "null", Null)
    else if s[0] == 't' then Literal(s, "true", Bool(true))
    else if s[0] == 'f' then Literal(s, "false", Bool(false))
    else if s[0] == 'N' then Literal(s, "NaN", Float("NaN"))
    else if s[0] == 'I' then Literal(s, "Infinity", Float("Infinity"))
    else if "-Infinity" <= s then Some((Float("-Infinity"), s[9..]))
    else ReadNumber(s)
  }

  /** The items from the first one to the closing bracket. */
  function ReadItems(s: string): (r: Option<(seq<Json>, string)>)
    ensures r.Some? ==> |r.value.1| < |s|
    decreases |s|, 1
  {
    var item := ReadValue(s);
    if item.None? then None
    else
      var rest := SkipSpace(item.value.1);
      if rest == [] then None
      else if rest[0] == ']' then Some(([item.value.0], rest[1..]))
      else if rest[0] != ',' then None
      else
        var more := ReadItems(SkipSpace(rest[1..]));
        if more.None? then None else Some(([item.value.0] + more.value.0, more.value.1))
  }

  /** A key, its colon and its value. */
  function ReadMember(s: string): (r: Option<(Member, string)>)
    ensures r.Some? ==> |r.value.1| < |s|
    decreases |s|, 1
  {
    if s == [] || s[0] != '\"' then None
    else
      var key := ReadChars(s[1..]);
      if key.None? then None
      else
        var colon := SkipSpace(key.value.1);
        if colon == [] || colon[0] != ':' then None
        else
          var value := ReadValue(SkipSpace(colon[1..]));
          if value.None? then None else Some((Member(key.value.0, value.value.0), value.value.1))
  }

  /** The members from the first key to the closing brace. */
  function ReadMembers(s: string): (r: Option<(seq<Member>, string)>)
    ensures r.Some? ==> |r.value.1| < |s|
    decreases |s|, 2
  {
    var member := ReadMember(s);
    if member.None? then None
    else
      var rest := SkipSpace(member.value.1);
      if rest == [] then None
      else if rest[0] == '}' then Some(([member.value.0], rest[1..]))
      else if rest[0] != ',' then None
      else
        var more := ReadMembers(SkipSpace(rest[1..]));
        if more.None? then None else Some(([member.value.0] + more.value.0, more.value.1))
  }

  /** `json.loads`. */
  function Loads(s: string): Option<Json> {
    var value := ReadValue(SkipSpace(s));
    if value.None? || SkipSpace(value.value.1) != [] then None else Some(value.value.0)
  }
}
