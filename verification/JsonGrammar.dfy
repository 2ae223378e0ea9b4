/**
 The grammar of JSON texts (sections 2 to 7 of RFC 8259), and what a text stands for. A tree is a text as it is
 written: with its white space, its escapes and the spelling of its numbers. Nothing here mentions the parser.
 */
module JsonGrammar {
  import opened Jobs
  import opened JsonModel

  datatype Tree =
    | Word(word: string)
    | Numeral(minus: bool, integer: string, fraction: Option<string>, exponent: Option<Exponent>)
    | Quoted(pieces: seq<Piece>)
    | Bracketed(space: string, items: seq<Item>)       // the space counts if there are no items
    | Braced(space: string, entries: seq<Entry>)

  datatype Exponent = Exponent(letter: char, sign: string, digits: string)

  /** A character, a two-character escape, a \u escape, or two of them that are a surrogate pair. */
  datatype Piece = Bare(c: char) | Short(letter: char) | Unit(hex: string) | Pair(high: string, low: string)

  datatype Item = Item(before: string, value: Tree, after: string)

  datatype Entry = Entry(before: string, key: seq<Piece>, mid: string, behind: string, value: Tree, after: string)

  // ---- how it is written ----

  function SpellPiece(p: Piece): string {
    match p
    case Bare(c) => [c]
    case Short(letter) => ['\\', letter]
    case Unit(hex) => "\\u" + hex
    case Pair(high, low) => "\\u" + high + "\\u" + low
  }

  function SpellPieces(pieces: seq<Piece>): string {
    if pieces == [] then "" else SpellPiece(pieces[0]) + SpellPieces(pieces[1..])
  }

  function SpellFraction(fraction: Option<string>): string {
    match fraction
    case None => ""
    case Some(digits) => "." + digits
  }

  function SpellExponent(exponent: Option<Exponent>): string {
    match exponent
    case None => ""
    case Some(e) => [e.letter] + e.sign + e.digits
  }

  function SpellInteger(minus: bool, integer: string): string { (if minus then "-" else "") + integer }

  function Spell(v: Tree): string {
    match v
    case Word(word) => word
    case Numeral(minus, integer, fraction, exponent) =>
      SpellInteger(minus, integer) + SpellFraction(fraction) + SpellExponent(exponent)
    case Quoted(pieces) => "\"" + SpellPieces(pieces) + "\""
    case Bracketed(space, items) => if items == [] then "[" + space + "]" else "[" + SpellItems(items)
    case Braced(space, entries) => if entries == [] then "{" + space + "}" else "{" + SpellEntries(entries)
  }

  function SpellItems(items: seq<Item>): string
    requires items != []
  {
    items[0].before + Spell(items[0].value) + items[0].after +
    if |items| == 1 then "]" else "," + SpellItems(items[1..])
  }

  function SpellEntries(entries: seq<Entry>): string
    requires entries != []
  {
    var e := entries[0];
    e.before + "\"" + SpellPieces(e.key) + "\"" + e.mid + ":" + e.behind + Spell(e.value) + e.after +
    if |entries| == 1 then "}" else "," + SpellEntries(entries[1..])
  }

  // ---- which trees there are ----

  /** Space, tab, line feed, carriage return. */
  predicate Blank(s: string) {
    forall c <- s :: c as int == 0x20 || c as int == 0x09 || c as int == 0x0A || c as int == 0x0D
  }

  predicate Digits(s: string) { s != "" && forall c <- s :: 0x30 <= c as int <= 0x39 }

  /** The value of a hexadecimal digit. */
  function Nibble(c: char): int {
    match c
    case '0' => 0 case '1' => 1 case '2' => 2 case '3' => 3 case '4' => 4
    case '5' => 5 case '6' => 6 case '7' => 7 case '8' => 8 case '9' => 9
    case 'a' => 10 case 'b' => 11 case 'c' => 12 case 'd' => 13 case 'e' => 14 case 'f' => 15
    case 'A' => 10 case 'B' => 11 case 'C' => 12 case 'D' => 13 case 'E' => 14 case 'F' => 15
    case _ => -1
  }

  predicate IsHex(s: string) { |s| == 4 && forall c <- s :: Nibble(c) >= 0 }

  function HexNumber(s: string): int
    requires |s| == 4
  {
    0x1000 * Nibble(s[0]) + 0x100 * Nibble(s[1]) + 0x10 * Nibble(s[2]) + Nibble(s[3])
  }

  /** The code of the character that a two-character escape stands for. */
  function ShortCode(letter: char): int {
    match letter
    case '"' => 0x22
    case '\\' => 0x5C
    case '/' => 0x2F
    case 'b' => 0x08
    case 'f' => 0x0C
    case 'n' => 0x0A
    case 'r' => 0x0D
    case 't' => 0x09
    case _ => -1
  }

  predicate FormedPiece(p: Piece) {
    match p
    case Bare(c) => c as int >= 0x20 && c != '"' && c != '\\'
    case Short(letter) => ShortCode(letter) >= 0
    case Unit(hex) => IsHex(hex) && !(0xD800 <= HexNumber(hex) < 0xE000)
    case Pair(high, low) => IsHex(high) && IsHex(low) && 0xD800 <= HexNumber(high) < 0xDC00 <= HexNumber(low) < 0xE000
  }

  predicate FormedPieces(pieces: seq<Piece>) { forall p <- pieces :: FormedPiece(p) }

  predicate FormedInteger(integer: string) { Digits(integer) && (integer[0] == '0' ==> |integer| == 1) }

  predicate FormedExponent(e: Exponent) {
    (e.letter == 'e' || e.letter == 'E') && (e.sign == "" || e.sign == "+" || e.sign == "-") && Digits(e.digits)
  }

  predicate Formed(v: Tree) {
    match v
    case Word(word) => word == "null" || word == "true" || word == "false"
    case Numeral(_, integer, fraction, exponent) =>
      && FormedInteger(integer) && (fraction.Some? ==> Digits(fraction.value))
      && (exponent.Some? ==> FormedExponent(exponent.value))
    case Quoted(pieces) => FormedPieces(pieces)
    case Bracketed(space, items) => Blank(space) && FormedItems(items)
    case Braced(space, entries) => Blank(space) && FormedEntries(entries)
  }

  predicate FormedItems(items: seq<Item>) {
    items == [] || (Blank(items[0].before) && Formed(items[0].value) && Blank(items[0].after) &&
                    FormedItems(items[1..]))
  }

  predicate FormedEntries(entries: seq<Entry>) {
    || entries == []
    || (var e := entries[0];
        && Blank(e.before) && FormedPieces(e.key) && Blank(e.mid) && Blank(e.behind) && Formed(e.value)
        && Blank(e.after) && FormedEntries(entries[1..]))
  }

  /** How deep arrays and objects are nested. */
  function Levels(v: Tree): nat {
    match v
    case Bracketed(_, items) => ItemLevels(items)
    case Braced(_, entries) => EntryLevels(entries)
    case _ => 0
  }

  function Larger(a: nat, b: nat): nat { if a < b then b else a }

  function ItemLevels(items: seq<Item>): nat {
    if items == [] then 0 else Larger(1 + Levels(items[0].value), ItemLevels(items[1..]))
  }

  function EntryLevels(entries: seq<Entry>): nat {
    if entries == [] then 0 else Larger(1 + Levels(entries[0].value), EntryLevels(entries[1..]))
  }

  // ---- what it stands for ----

  /** The number that digits stand for, behind a number `n`. */
  function Natural(n: int, digits: string): int
    decreases |digits|
  {
    if digits == "" then n else Natural(10 * n + (digits[0] as int - 0x30), digits[1..])
  }

  function MeansNumeral(minus: bool, integer: string, whole: bool, spelled: string): Json {
    var n := if minus then -Natural(0, integer) else Natural(0, integer);
    if whole && -0x8000_0000_0000_0000 <= n < 0x8000_0000_0000_0000 then Int(n) else Real(spelled)
  }

  function MeansPiece(p: Piece): string
    requires FormedPiece(p)
  {
    match p
    case Bare(c) => [c]
    case Short(letter) => [ShortCode(letter) as char]
    case Unit(hex) => HexBounds(hex); Utf8(HexNumber(hex))
    case Pair(high, low) => Utf8(0x10000 + 0x400 * (HexNumber(high) - 0xD800) + (HexNumber(low) - 0xDC00))
  }

  lemma HexBounds(hex: string)
    requires IsHex(hex)
    ensures 0 <= HexNumber(hex) < 0x10000
  {
    assert hex[0] in hex && hex[1] in hex && hex[2] in hex && hex[3] in hex;
  }

  function MeansPieces(pieces: seq<Piece>): string
    requires FormedPieces(pieces)
  {
    if pieces == [] then "" else MeansPiece(pieces[0]) + MeansPieces(pieces[1..])
  }

  /** An integer of 64 bits, or a number kept as it is spelled; in an object a later member replaces an earlier one. */
  function Means(v: Tree): Json
    requires Formed(v)
  {
    match v
    case Word(word) => if word == "null" then Null else Bool(word == "true")
    case Numeral(minus, integer, fraction, exponent) =>
      MeansNumeral(minus, integer, fraction.None? && exponent.None?, Spell(v))
    case Quoted(pieces) => Str(MeansPieces(pieces))
    case Bracketed(_, items) => Arr(MeansItems(items))
    case Braced(_, entries) => Obj(MeansEntries([], entries))
  }

  function MeansItems(items: seq<Item>): seq<Json>
    requires FormedItems(items)
  {
    if items == [] then [] else [Means(items[0].value)] + MeansItems(items[1..])
  }

  function MeansEntries(members: seq<Member>, entries: seq<Entry>): seq<Member>
    requires FormedEntries(entries)
    decreases entries
  {
    if entries == [] then members
    else MeansEntries(Set(members, MeansPieces(entries[0].key), Means(entries[0].value)), entries[1..])
  }

  /** `t` is a JSON text for `v`, nested at most 64 deep. */
  ghost predicate Denotes(t: string, v: Json) {
    exists before, tree, after ::
      && Blank(before) && Formed(tree) && Blank(after) && Levels(tree) <= 64
      && t == before + Spell(tree) + after && Means(tree) == v
  }
}
