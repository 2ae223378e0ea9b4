/**
 * JSON values, what the printer writes for them and what the parser reads from a text, as functions.
 * Strings are byte strings. A number that is not an integer of 64 bits is kept as the text it was read from.
 */
module JsonModel {

  datatype Json =
    | Null
    | Bool(b: bool)
    | Int(n: int)
    | Real(raw: string)
    | Str(s: string)
    | Arr(items: seq<Json>)
    | Obj(members: seq<Member>)

  datatype Member = Member(key: string, value: Json)

  const MAX_DEPTH := 64
  const INT_MIN := -0x8000_0000_0000_0000
  const INT_MAX := 0x7fff_ffff_ffff_ffff

  const BACKSPACE := 8 as char
  const FORM_FEED := 12 as char

  /** Json::set: an existing key keeps its place, a new one goes last. */
  function Set(members: seq<Member>, key: string, value: Json): seq<Member> {
    if members == [] then [Member(key, value)]
    else if members[0].key == key then [Member(key, value)] + members[1..]
    else [members[0]] + Set(members[1..], key, value)
  }

  // ---- printing ----

  function Digit(d: nat): char
    requires d < 10
  {
    ('0' as int + d) as char
  }

  function Decimal(n: nat): string { if n < 10 then [Digit(n)] else Decimal(n / 10) + [Digit(n % 10)] }

  function PrintInt(n: int): string { if n < 0 then "-" + Decimal(-n) else Decimal(n) }

  function HexDigit(d: nat): char
    requires d < 16
  {
    if d < 10 then Digit(d) else ('a' as int + d - 10) as char
  }

  function Escape(c: char): string {
    if c == '"' then "\\\""
    else if c == '\\' then "\\\\"
    else if c == BACKSPACE then "\\b"
    else if c == FORM_FEED then "\\f"
    else if c == '\n' then "\\n"
    else if c == '\r' then "\\r"
    else if c == '\t' then "\\t"
    else if c < ' ' then "\\u00" + [HexDigit(c as int / 16), HexDigit(c as int % 16)]
    else [c]
  }

  function EscapeAll(s: string): string { if s == "" then "" else Escape(s[0]) + EscapeAll(s[1..]) }

  function Quote(s: string): string { "\"" + EscapeAll(s) + "\"" }

  function Spaces(n: nat): string { seq(n, _ => ' ') }

  function NewLine(indent: int, depth: nat): string {
    if indent > 0 then "\n" + Spaces(indent * depth) else ""
  }

  function Colon(indent: int): string { if indent > 0 then ": " else ":" }

  function Dump(v: Json, indent: int, depth: nat): string {
    match v
    case Null => "null"
    case Bool(b) => if b then "true" else "false"
    case Int(n) => PrintInt(n)
    case Real(raw) => raw
    case Str(s) => Quote(s)
    case Arr(items) =>
      if items == [] then "[]" else "[" + DumpItems(items, indent, depth + 1) + NewLine(indent, depth) + "]"
    case Obj(members) =>
      if members == [] then "{}" else "{" + DumpMembers(members, indent, depth + 1) + NewLine(indent, depth) + "}"
  }

  function DumpItems(items: seq<Json>, indent: int, depth: nat): string
    requires items != []
  {
    NewLine(indent, depth) + Dump(items[0], indent, depth) +
    if |items| == 1 then "" else "," + DumpItems(items[1..], indent, depth)
  }

  function DumpMember(m: Member, indent: int, depth: nat): string {
    NewLine(indent, depth) + Quote(m.key) + Colon(indent) + Dump(m.value, indent, depth)
  }

  function DumpMembers(members: seq<Member>, indent: int, depth: nat): string
    requires members != []
  {
    DumpMember(members[0], indent, depth) +
    if |members| == 1 then "" else "," + DumpMembers(members[1..], indent, depth)
  }

  // ---- parsing ----

  /** A failure, or a value and the offset behind it. */
  datatype Parsed<+T> = Fail | Got(value: T, next: nat)

  predicate IsSpace(c: char) { c == ' ' || c == '\t' || c == '\n' || c == '\r' }

  predicate IsDigit(c: char) { '0' <= c <= '9' }

  function SkipSpace(t: string, i: nat): (r: nat)
    requires i <= |t|
    ensures i <= r <= |t|
    decreases |t| - i
  {
    if i < |t| && IsSpace(t[i]) then SkipSpace(t, i + 1) else i
  }

  function SkipDigits(t: string, i: nat): (r: nat)
    requires i <= |t|
    ensures i <= r <= |t|
    decreases |t| - i
  {
    if i < |t| && IsDigit(t[i]) then SkipDigits(t, i + 1) else i
  }

  predicate At(t: string, i: nat, s: string) { i + |s| <= |t| && t[i..i + |s|] == s }

  function Literal(t: string, i: nat, word: string, v: Json): (r: Parsed<Json>)
    ensures r.Got? ==> r.next == i + |word| <= |t|
  {
    if At(t, i, word) then Got(v, i + |word|) else Fail
  }

  function HexValue(c: char): int {
    if '0' <= c <= '9' then c as int - '0' as int
    else if 'a' <= c <= 'f' then c as int - 'a' as int + 10
    else if 'A' <= c <= 'F' then c as int - 'A' as int + 10
    else -1
  }

  function Hex4(t: string, i: nat): (r: Parsed<nat>)
    ensures r.Got? ==> r.next == i + 4 <= |t| && r.value < 0x10000
  {
    if i + 4 > |t| then Fail else
      var a, b, c, d := HexValue(t[i]), HexValue(t[i + 1]), HexValue(t[i + 2]), HexValue(t[i + 3]);
      if a < 0 || b < 0 || c < 0 || d < 0 then Fail else Got(((a * 16 + b) * 16 + c) * 16 + d, i + 4)
  }

  function Utf8(cp: nat): string
    requires cp < 0x110000
  {
    if cp <= 0x7F then [cp as char]
    else if cp <= 0x7FF then [(0xC0 + cp / 0x40) as char, (0x80 + cp % 0x40) as char]
    else if cp <= 0xFFFF then [(0xE0 + cp / 0x1000) as char, (0x80 + cp / 0x40 % 0x40) as char,
                               (0x80 + cp % 0x40) as char]
    else [(0xF0 + cp / 0x40000) as char, (0x80 + cp / 0x1000 % 0x40) as char, (0x80 + cp / 0x40 % 0x40) as char,
          (0x80 + cp % 0x40) as char]
  }

  /** The rest of a \u escape from its digits on; a high surrogate takes the low one behind it. */
  function UnicodeEscape(t: string, i: nat): (r: Parsed<string>)
    ensures r.Got? ==> i < r.next <= |t|
  {
    var h := Hex4(t, i);
    if h.Fail? then Fail
    else if 0xD800 <= h.value <= 0xDBFF then
      if !At(t, i + 4, "\\u") then Fail else
        var l := Hex4(t, i + 6);
        if l.Fail? || !(0xDC00 <= l.value <= 0xDFFF) then Fail
        else Got(Utf8(0x10000 + (h.value - 0xD800) * 0x400 + (l.value - 0xDC00)), i + 10)
    else if 0xDC00 <= h.value <= 0xDFFF then Fail
    else Got(Utf8(h.value), i + 4)
  }

  /** An escape from the character behind the backslash on. */
  function Unescape(t: string, i: nat): (r: Parsed<string>)
    ensures r.Got? ==> i < r.next <= |t|
  {
    if i >= |t| then Fail
    else match t[i]
      case '"' => Got("\"", i + 1)
      case '\\' => Got("\\", i + 1)
      case '/' => Got("/", i + 1)
      case 'b' => Got([BACKSPACE], i + 1)
      case 'f' => Got([FORM_FEED], i + 1)
      case 'n' => Got("\n", i + 1)
      case 'r' => Got("\r", i + 1)
      case 't' => Got("\t", i + 1)
      case 'u' => UnicodeEscape(t, i + 1)
      case _ => Fail
  }

  /** The rest of a string literal, with `out` read so far. */
  function StringRest(t: string, i: nat, out: string): (r: Parsed<string>)
    ensures r.Got? ==> i < r.next <= |t|
    decreases |t| - i
  {
    if i >= |t| then Fail
    else if t[i] == '"' then Got(out, i + 1)
    else if t[i] < ' ' then Fail
    else if t[i] != '\\' then StringRest(t, i + 1, out + [t[i]])
    else
      var e := Unescape(t, i + 1);
      if e.Fail? then Fail else StringRest(t, e.next, out + e.value)
  }

  function DecimalValue(s: string): int {
    if s == "" then 0 else DecimalValue(s[..|s| - 1]) * 10 + (s[|s| - 1] as int - '0' as int)
  }

  predicate IsDigitAt(t: string, i: nat) { i < |t| && IsDigit(t[i]) }

  /** Where the integer part of a number ends: no digits follow a leading zero. */
  function IntegerEnd(t: string, i: nat): (r: Parsed<()>)
    ensures r.Got? ==> i < r.next <= |t|
  {
    var j := if i < |t| && t[i] == '-' then i + 1 else i;
    if !IsDigitAt(t, j) then Fail
    else if t[j] == '0' then Got((), j + 1)
    else Got((), SkipDigits(t, j))
  }

  function FractionEnd(t: string, i: nat): (r: Parsed<bool>)
    requires i <= |t|
    ensures r.Got? ==> i <= r.next <= |t|
  {
    if i < |t| && t[i] == '.' then
      if IsDigitAt(t, i + 1) then Got(true, SkipDigits(t, i + 1)) else Fail
    else Got(false, i)
  }

  function ExponentEnd(t: string, i: nat): (r: Parsed<bool>)
    requires i <= |t|
    ensures r.Got? ==> i <= r.next <= |t|
  {
    if i < |t| && (t[i] == 'e' || t[i] == 'E') then
      var j := if i + 1 < |t| && (t[i + 1] == '+' || t[i + 1] == '-') then i + 2 else i + 1;
      if IsDigitAt(t, j) then Got(true, SkipDigits(t, j)) else Fail
    else Got(false, i)
  }

  /** strtoll, where it does not overflow. */
  function IntValue(raw: string): int {
    var minus := raw != "" && raw[0] == '-';
    var digits := if minus then raw[1..] else raw;
    if minus then -DecimalValue(digits) else DecimalValue(digits)
  }

  predicate Fits64(n: int) { INT_MIN <= n <= INT_MAX }

  function Number(t: string, i: nat): (r: Parsed<Json>)
    ensures r.Got? ==> i < r.next <= |t|
  {
    var a := IntegerEnd(t, i);
    if a.Fail? then Fail else
      var b := FractionEnd(t, a.next);
      if b.Fail? then Fail else
        var c := ExponentEnd(t, b.next);
        if c.Fail? then Fail else
          var raw := t[i..c.next];
          if !b.value && !c.value && Fits64(IntValue(raw)) then Got(Int(IntValue(raw)), c.next)
          else Got(Real(raw), c.next)
  }

  function Value(t: string, i: nat, depth: nat): (r: Parsed<Json>)
    ensures r.Got? ==> i < r.next <= |t|
    decreases |t| - i, 2
  {
    if depth > MAX_DEPTH || i >= |t| then Fail
    else match t[i]
      case '{' => Object(t, i, depth)
      case '[' => Array(t, i, depth)
      case '"' =>
        var s := StringRest(t, i + 1, "");
        if s.Fail? then Fail else Got(Str(s.value), s.next)
      case 't' => Literal(t, i, "true", Bool(true))
      case 'f' => Literal(t, i, "false", Bool(false))
      case 'n' => Literal(t, i, "null", Null)
      case _ => Number(t, i)
  }

  function Array(t: string, i: nat, depth: nat): (r: Parsed<Json>)
    requires i < |t|
    ensures r.Got? ==> i < r.next <= |t|
    decreases |t| - i, 1
  {
    var j := SkipSpace(t, i + 1);
    if j < |t| && t[j] == ']' then Got(Arr([]), j + 1) else Elements(t, j, depth, [])
  }

  /** The elements from `i` on, and the bracket that closes them; `items` are read already. */
  function Elements(t: string, i: nat, depth: nat, items: seq<Json>): (r: Parsed<Json>)
    requires i <= |t|
    ensures r.Got? ==> i < r.next <= |t|
    decreases |t| - i, 3
  {
    var j := SkipSpace(t, i);
    var v := Value(t, j, depth + 1);
    if v.Fail? then Fail else
      var k := SkipSpace(t, v.next);
      if k >= |t| then Fail
      else if t[k] == ',' then Elements(t, k + 1, depth, items + [v.value])
      else if t[k] == ']' then Got(Arr(items + [v.value]), k + 1)
      else Fail
  }

  function Object(t: string, i: nat, depth: nat): (r: Parsed<Json>)
    requires i < |t|
    ensures r.Got? ==> i < r.next <= |t|
    decreases |t| - i, 1
  {
    var j := SkipSpace(t, i + 1);
    if j < |t| && t[j] == '}' then Got(Obj([]), j + 1) else Members(t, j, depth, [])
  }

  /** A key and the colon behind it. */
  function Key(t: string, i: nat): (r: Parsed<string>)
    requires i <= |t|
    ensures r.Got? ==> i < r.next <= |t|
  {
    var j := SkipSpace(t, i);
    if j >= |t| || t[j] != '"' then Fail else
      var key := StringRest(t, j + 1, "");
      if key.Fail? then Fail else
        var k := SkipSpace(t, key.next);
        if k >= |t| || t[k] != ':' then Fail else Got(key.value, SkipSpace(t, k + 1))
  }

  function Members(t: string, i: nat, depth: nat, members: seq<Member>): (r: Parsed<Json>)
    requires i <= |t|
    ensures r.Got? ==> i < r.next <= |t|
    decreases |t| - i, 3
  {
    var key := Key(t, i);
    if key.Fail? then Fail else
      var v := Value(t, key.next, depth + 1);
      if v.Fail? then Fail else
        var k := SkipSpace(t, v.next);
        if k >= |t| then Fail
        else if t[k] == ',' then Members(t, k + 1, depth, Set(members, key.value, v.value))
        else if t[k] == '}' then Got(Obj(Set(members, key.value, v.value)), k + 1)
        else Fail
  }

  /** Json::parse: one value and nothing but white space around it. */
  function Parse(t: string): Parsed<Json> {
    var v := Value(t, SkipSpace(t, 0), 0);
    if v.Fail? || SkipSpace(t, v.next) != |t| then Fail else Got(v.value, |t|)
  }
}
