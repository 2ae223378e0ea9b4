/** Whatever is parsed is a JSON text, and stands for the value it is parsed to. */
module JsonDerives {
  import opened Jobs
  import opened JsonModel
  import opened JsonRoundTrip
  import opened JsonGrammar
  import opened JsonReads

  // ---- white space and digits ----

  lemma {:induction false} SkippedIsBlank(t: string, i: nat)
    requires i <= |t|
    ensures Blank(t[i..SkipSpace(t, i)]) && At(t, i, t[i..SkipSpace(t, i)])
    decreases |t| - i
  {
    if i < |t| && IsSpace(t[i]) {
      SkippedIsBlank(t, i + 1);
      var j := SkipSpace(t, i);
      assert t[i..j] == [t[i]] + t[i + 1..j];
    }
  }

  lemma {:induction false} SkippedAreDigits(t: string, i: nat)
    requires i <= |t|
    ensures forall c <- t[i..SkipDigits(t, i)] :: IsDigit(c)
    decreases |t| - i
  {
    if i < |t| && IsDigit(t[i]) {
      SkippedAreDigits(t, i + 1);
      var j := SkipDigits(t, i);
      assert t[i..j] == [t[i]] + t[i + 1..j];
    }
  }

  lemma DigitsFound(t: string, i: nat) returns (s: string)
    requires IsDigitAt(t, i)
    ensures Digits(s) && At(t, i, s) && SkipDigits(t, i) == i + |s| && s[0] == t[i]
  {
    SkippedAreDigits(t, i);
    s := t[i..SkipDigits(t, i)];
  }

  // ---- numbers ----

  lemma IntegerFound(t: string, i: nat) returns (minus: bool, integer: string)
    requires IntegerEnd(t, i).Got?
    ensures FormedInteger(integer) && At(t, i, SpellInteger(minus, integer))
    ensures IntegerEnd(t, i).next == i + |SpellInteger(minus, integer)|
  {
    minus := i < |t| && t[i] == '-';
    var sign := if minus then "-" else "";
    var j := i + |sign|;
    IntegerGot(t, i, j);
    hide IntegerEnd, SkipDigits, At;
    integer := DigitsFound(t, j);
    if t[j] == '0' {
      integer := "0";
      OneAt(t, j, '0');
    }
    if minus { OneAt(t, i, '-'); } else { NothingAt(t, i); }
    AtSplit(t, i, sign, integer);
  }

  lemma IntegerGot(t: string, i: nat, j: nat)
    requires IntegerEnd(t, i).Got? && j == if i < |t| && t[i] == '-' then i + 1 else i
    ensures IsDigitAt(t, j) && IntegerEnd(t, i).next == if t[j] == '0' then j + 1 else SkipDigits(t, j)
  {
  }

  lemma FractionFound(t: string, i: nat) returns (fraction: Option<string>)
    requires i <= |t| && FractionEnd(t, i).Got?
    ensures (fraction.Some? ==> Digits(fraction.value)) && At(t, i, SpellFraction(fraction))
    ensures FractionEnd(t, i) == Got(fraction.Some?, i + |SpellFraction(fraction)|)
  {
    fraction := None;
    if i < |t| && t[i] == '.' {
      var s := DigitsFound(t, i + 1);
      fraction := Some(s);
      AtSplit(t, i, ".", s);
    }
  }

  lemma ExponentFound(t: string, i: nat) returns (exponent: Option<Exponent>)
    requires i <= |t| && ExponentEnd(t, i).Got?
    ensures (exponent.Some? ==> FormedExponent(exponent.value)) && At(t, i, SpellExponent(exponent))
    ensures ExponentEnd(t, i) == Got(exponent.Some?, i + |SpellExponent(exponent)|)
  {
    exponent := None;
    if i < |t| && (t[i] == 'e' || t[i] == 'E') {
      var signed := i + 1 < |t| && (t[i + 1] == '+' || t[i + 1] == '-');
      var sign := if signed then [t[i + 1]] else "";
      var s := DigitsFound(t, i + 1 + |sign|);
      exponent := Some(Exponent(t[i], sign, s));
      hide At, SkipDigits, Digits;
      OneAt(t, i, t[i]);
      if signed { OneAt(t, i + 1, t[i + 1]); } else { NothingAt(t, i + 1); }
      AtSplit(t, i, [t[i]], sign);
      AtSplit(t, i, [t[i]] + sign, s);
    }
  }

  lemma NumeralJoined(t: string, i: nat, v: Tree)
    requires v.Numeral? && Formed(v)
    requires var a := i + |SpellInteger(v.minus, v.integer)|;
             && At(t, i, SpellInteger(v.minus, v.integer)) && At(t, a, SpellFraction(v.fraction))
             && At(t, a + |SpellFraction(v.fraction)|, SpellExponent(v.exponent))
    ensures At(t, i, Spell(v))
    ensures |Spell(v)| ==
            |SpellInteger(v.minus, v.integer)| + |SpellFraction(v.fraction)| + |SpellExponent(v.exponent)|
  {
    hide *;
    NumeralSpelled(v);
    var n, f, x := SpellInteger(v.minus, v.integer), SpellFraction(v.fraction), SpellExponent(v.exponent);
    AtSplit(t, i + |n|, f, x);
    AtSplit(t, i, n, f + x);
  }

  lemma NumeralMeans(v: Tree)
    requires v.Numeral? && Formed(v)
    ensures var n := if v.minus then -Natural(0, v.integer) else Natural(0, v.integer);
            Means(v) ==
            if v.fraction.None? && v.exponent.None? && -0x8000_0000_0000_0000 <= n < 0x8000_0000_0000_0000
            then Int(n) else Real(Spell(v))
    ensures v.fraction.None? && v.exponent.None? ==> Spell(v) == SpellInteger(v.minus, v.integer)
    ensures FormedInteger(v.integer)
  {
    hide Spell, SpellInteger, Natural;
    NumeralSpelled(v);
    if v.fraction.None? && v.exponent.None? {
      assert SpellInteger(v.minus, v.integer) + ("" + "") == SpellInteger(v.minus, v.integer);
    }
  }

  lemma NumeralFormed(minus: bool, integer: string, fraction: Option<string>, exponent: Option<Exponent>)
    requires FormedInteger(integer) && (fraction.Some? ==> Digits(fraction.value))
    requires exponent.Some? ==> FormedExponent(exponent.value)
    ensures Formed(Numeral(minus, integer, fraction, exponent))
  {
  }

  lemma NumberGot(t: string, i: nat)
    requires Number(t, i).Got?
    ensures var a := IntegerEnd(t, i);
            && a.Got? && FractionEnd(t, a.next).Got? && ExponentEnd(t, FractionEnd(t, a.next).next).Got?
  {
    hide IntegerEnd, FractionEnd, ExponentEnd;
  }

  lemma NumberFound(t: string, i: nat) returns (v: Tree)
    requires Number(t, i).Got?
    ensures v.Numeral? && Formed(v) && At(t, i, Spell(v)) && Number(t, i) == Got(Means(v), i + |Spell(v)|)
  {
    hide *;
    NumberGot(t, i);
    var minus, integer := IntegerFound(t, i);
    var a := i + |SpellInteger(minus, integer)|;
    var fraction := FractionFound(t, a);
    var b := a + |SpellFraction(fraction)|;
    var exponent := ExponentFound(t, b);
    v := Numeral(minus, integer, fraction, exponent);
    NumeralFormed(minus, integer, fraction, exponent);
    NumeralJoined(t, i, v);
    IntegerUnit(t, i, a);
    NumberSteps(t, i, a, fraction.Some?, b, exponent.Some?, i + |Spell(v)|);
    NumeralRaw(t, i, v);
    NumeralMeans(v);
    NumeralInt(minus, integer);
  }

  lemma IntegerUnit(t: string, i: nat, a: nat)
    requires IntegerEnd(t, i).Got? && IntegerEnd(t, i).next == a
    ensures IntegerEnd(t, i) == Got((), a)
  {
  }

  // ---- strings ----

  lemma HexFound(t: string, i: nat) returns (hex: string)
    requires Hex4(t, i).Got?
    ensures IsHex(hex) && At(t, i, hex) && Hex4(t, i) == Got(HexNumber(hex), i + 4)
  {
    hex := t[i..i + 4];
    NibbleIsHex(t[i]);
    NibbleIsHex(t[i + 1]);
    NibbleIsHex(t[i + 2]);
    NibbleIsHex(t[i + 3]);
    assert hex == [t[i], t[i + 1], t[i + 2], t[i + 3]];
  }

  lemma CodeFound(t: string, i: nat) returns (p: Piece)
    requires At(t, i, "\\u") && UnicodeEscape(t, i + 2).Got?
    ensures FormedPiece(p) && !p.Bare? && At(t, i, SpellPiece(p))
  {
    hide Hex4, HexNumber, At, IsHex;
    var high := HexFound(t, i + 2);
    HexSize(high);
    AtSplit(t, i, "\\u", high);
    if 0xD800 <= HexNumber(high) <= 0xDBFF {
      var low := HexFound(t, i + 8);
      AtSplit(t, i, "\\u" + high, "\\u");
      AtSplit(t, i, "\\u" + high + "\\u", low);
      p := Pair(high, low);
    } else {
      p := Unit(high);
    }
  }

  lemma EscapeFound(t: string, i: nat) returns (p: Piece)
    requires i < |t| && t[i] == '\\' && Unescape(t, i + 1).Got?
    ensures FormedPiece(p) && !p.Bare? && At(t, i, SpellPiece(p))
  {
    hide UnicodeEscape, HexNumber, IsHex;
    if t[i + 1] == 'u' {
      assert At(t, i, "\\u");
      p := CodeFound(t, i);
    } else {
      p := Short(t[i + 1]);
      assert t[i..i + 2] == ['\\', t[i + 1]];
    }
  }

  /** The pieces of a string literal, up to its closing quote. */
  lemma {:induction false} PiecesFound(t: string, i: nat, out: string) returns (pieces: seq<Piece>)
    requires StringRest(t, i, out).Got?
    ensures FormedPieces(pieces) && At(t, i, SpellPieces(pieces) + "\"")
    decreases |t| - i
  {
    if t[i] == '"' {
      pieces := [];
      assert SpellPieces(pieces) + "\"" == "\"";
    } else {
      var p := PieceFound(t, i, out);
      PieceComplete(t, i, p, out);
      hide *;
      PieceSize(p);
      AtFits(t, i, SpellPiece(p));
      var rest := PiecesFound(t, i + |SpellPiece(p)|, out + MeansPiece(p));
      pieces := [p] + rest;
      assert pieces[0] == p && pieces[1..] == rest;
      MorePieces(pieces);
      Joined(SpellPiece(p), SpellPieces(rest), "\"");
      AtSplit(t, i, SpellPiece(p), SpellPieces(rest) + "\"");
    }
  }

  lemma PieceFound(t: string, i: nat, out: string) returns (p: Piece)
    requires StringRest(t, i, out).Got? && t[i] != '"'
    ensures FormedPiece(p) && At(t, i, SpellPiece(p))
  {
    hide Unescape;
    if t[i] == '\\' {
      p := EscapeFound(t, i);
    } else {
      p := Bare(t[i]);
    }
  }

  lemma PieceSize(p: Piece)
    ensures |SpellPiece(p)| > 0
  {
  }

  lemma MorePieces(pieces: seq<Piece>)
    requires pieces != [] && FormedPiece(pieces[0]) && FormedPieces(pieces[1..])
    ensures FormedPieces(pieces) && SpellPieces(pieces) == SpellPiece(pieces[0]) + SpellPieces(pieces[1..])
  {
    hide FormedPiece, SpellPiece;
    assert pieces == [pieces[0]] + pieces[1..];
  }

  // ---- values ----

  lemma QuotedFound(t: string, i: nat) returns (v: Tree)
    requires i < |t| && t[i] == '"' && StringRest(t, i + 1, "").Got?
    ensures v.Quoted? && Formed(v) && At(t, i, Spell(v))
    ensures Got(Means(v), i + |Spell(v)|) == var s := StringRest(t, i + 1, ""); Got(Str(s.value), s.next)
  {
    hide StringRest, SpellPieces, MeansPieces, FormedPieces, At;
    var pieces := PiecesFound(t, i + 1, "");
    PiecesComplete(t, i + 1, pieces, "");
    v := Quoted(pieces);
    assert Spell(v) == "\"" + (SpellPieces(pieces) + "\"");
    OneAt(t, i, '"');
    AtSplit(t, i, "\"", SpellPieces(pieces) + "\"");
    assert "" + MeansPieces(pieces) == MeansPieces(pieces);
  }

  lemma OneAt(t: string, i: nat, c: char)
    requires i < |t| && t[i] == c
    ensures At(t, i, [c])
  {
  }

  lemma WordFound(t: string, i: nat, depth: nat) returns (v: Tree)
    requires Value(t, i, depth).Got? && (t[i] == 't' || t[i] == 'f' || t[i] == 'n')
    ensures Formed(v) && At(t, i, Spell(v)) && Levels(v) == 0 && Value(t, i, depth) == Got(Means(v), i + |Spell(v)|)
  {
    v := Word(if t[i] == 't' then "true" else if t[i] == 'f' then "false" else "null");
  }

  lemma ItemsFormed(items: seq<Item>)
    requires items != [] && Blank(items[0].before) && Formed(items[0].value) && Blank(items[0].after)
    requires FormedItems(items[1..])
    ensures FormedItems(items)
  {
  }

  lemma ItemsJoined(t: string, i: nat, items: seq<Item>)
    requires items != []
    requires var x := items[0];
             var j := i + |x.before|;
             var k := j + |Spell(x.value)|;
             var m := k + |x.after|;
             && Blank(x.before) && Formed(x.value) && Blank(x.after) && FormedItems(items[1..])
             && At(t, i, x.before) && At(t, j, Spell(x.value)) && At(t, k, x.after) && m < |t|
             && (if |items| == 1 then t[m] == ']' else t[m] == ',' && At(t, m + 1, SpellItems(items[1..])))
    ensures FormedItems(items) && At(t, i, SpellItems(items))
    ensures var m := i + |items[0].before| + |Spell(items[0].value)| + |items[0].after|;
            |SpellItems(items)| == m - i + 1 + if |items| == 1 then 0 else |SpellItems(items[1..])|
  {
    hide *;
    var x := items[0];
    ItemsFormed(items);
    ItemsSpelled(items);
    var mark, rest := Mark(|items| == 1, "]"), RestItems(items);
    MarkIs(|items| == 1, "]");
    RestIs(items);
    var j := i + |x.before|;
    var k := j + |Spell(x.value)|;
    var m := k + |x.after|;
    OneAt(t, m, t[m]);
    NothingAt(t, m + 1);
    AtSplit(t, k, x.after, mark);
    AtSplit(t, k, x.after + mark, rest);
    AtSplit(t, j, Spell(x.value), (x.after + mark) + rest);
    AtSplit(t, i, x.before, Spell(x.value) + ((x.after + mark) + rest));
  }

  lemma NothingAt(t: string, i: nat)
    requires i <= |t|
    ensures At(t, i, "")
  {
  }

  lemma ItemsOne(x: Item)
    requires Blank(x.before) && Formed(x.value) && Blank(x.after)
    ensures FormedItems([x]) && MeansItems([x]) == [Means(x.value)] && ItemLevels([x]) == 1 + Levels(x.value)
  {
    hide Formed, Blank, Means, Levels;
    assert [x][1..] == [];
    assert [Means(x.value)] + [] == [Means(x.value)];
  }

  lemma ItemsMore(x: Item, rest: seq<Item>)
    requires Blank(x.before) && Formed(x.value) && Blank(x.after) && FormedItems(rest)
    ensures ([x] + rest)[1..] == rest && FormedItems([x] + rest)
    ensures MeansItems([x] + rest) == [Means(x.value)] + MeansItems(rest)
    ensures ItemLevels([x] + rest) == Larger(1 + Levels(x.value), ItemLevels(rest))
  {
    hide Formed, Blank, Means, Levels;
    assert ([x] + rest)[1..] == rest;
  }

  lemma ElementsGot(t: string, i: nat, depth: nat, acc: seq<Json>)
    requires i <= |t| && Elements(t, i, depth, acc).Got?
    ensures var v := Value(t, SkipSpace(t, i), depth + 1);
            && v.Got?
            && var k := SkipSpace(t, v.next);
               && k < |t| && (t[k] == ',' || t[k] == ']')
               && (t[k] == ',' ==> Elements(t, i, depth, acc) == Elements(t, k + 1, depth, acc + [v.value]))
               && (t[k] == ']' ==> Elements(t, i, depth, acc) == Got(Arr(acc + [v.value]), k + 1))
  {
    hide Value, SkipSpace;
  }

  lemma {:induction false} ItemsFound(t: string, i: nat, depth: nat, acc: seq<Json>) returns (items: seq<Item>)
    requires i <= |t| && depth <= MAX_DEPTH && Elements(t, i, depth, acc).Got?
    ensures items != [] && FormedItems(items) && At(t, i, SpellItems(items)) && depth + ItemLevels(items) <= MAX_DEPTH
    ensures Elements(t, i, depth, acc) == Got(Arr(acc + MeansItems(items)), i + |SpellItems(items)|)
    decreases |t| - i, 3
  {
    hide *;
    ElementsGot(t, i, depth, acc);
    var j := SkipSpace(t, i);
    var tree := ValueFound(t, j, depth + 1);
    var next := j + |Spell(tree)|;
    var k := SkipSpace(t, next);
    SkippedIsBlank(t, i);
    SkippedIsBlank(t, next);
    var x := Item(t[i..j], tree, t[next..k]);
    if t[k] == ']' {
      items := [x];
      ItemsOne(x);
      assert items[1..] == [];
      NoItems();
      ItemsJoined(t, i, items);
    } else {
      var rest := ItemsFound(t, k + 1, depth, acc + [Means(tree)]);
      items := [x] + rest;
      ItemsMore(x, rest);
      LargerIs(1 + Levels(tree), ItemLevels(rest));
      ItemsJoined(t, i, items);
      assert acc + [Means(tree)] + MeansItems(rest) == acc + ([Means(tree)] + MeansItems(rest));
    }
  }

  lemma NoItems()
    ensures FormedItems([])
  {
  }

  lemma LargerIs(a: nat, b: nat)
    ensures Larger(a, b) == a || Larger(a, b) == b
  {
  }

  lemma ArrayGot(t: string, i: nat, depth: nat)
    requires Value(t, i, depth).Got? && t[i] == '['
    ensures depth <= MAX_DEPTH
    ensures var j := SkipSpace(t, i + 1);
            if j < |t| && t[j] == ']' then Value(t, i, depth) == Got(Arr([]), j + 1)
            else Value(t, i, depth) == Elements(t, i + 1, depth, [])
  {
    hide SkipSpace, Elements;
    var j := SkipSpace(t, i + 1);
    SkippedStays(t, i + 1);
    SkippedElements(t, i + 1, j, depth);
  }

  lemma SkippedElements(t: string, i: nat, j: nat, depth: nat)
    requires i <= |t| && j <= |t| && SkipSpace(t, i) == SkipSpace(t, j)
    ensures Elements(t, i, depth, []) == Elements(t, j, depth, [])
  {
    hide SkipSpace, Value;
  }

  lemma EmptyFound(t: string, i: nat, v: Tree)
    requires (v.Bracketed? && v.items == []) || (v.Braced? && v.entries == [])
    requires i < |t| && t[i] == (if v.Bracketed? then '[' else '{') && v.space == t[i + 1..SkipSpace(t, i + 1)]
    requires var j := SkipSpace(t, i + 1); j < |t| && t[j] == if v.Bracketed? then ']' else '}'
    ensures Formed(v) && At(t, i, Spell(v)) && |Spell(v)| == |v.space| + 2 && Levels(v) == 0
    ensures Means(v) == if v.Bracketed? then Arr([]) else Obj([])
  {
    hide At, SkipSpace;
    var open, close := if v.Bracketed? then "[" else "{", if v.Bracketed? then "]" else "}";
    assert Spell(v) == open + v.space + close;
    SkippedIsBlank(t, i + 1);
    OneAt(t, i, open[0]);
    OneAt(t, SkipSpace(t, i + 1), close[0]);
    AtSplit(t, i, open, v.space);
    AtSplit(t, i, open + v.space, close);
  }

  lemma ArrayFound(t: string, i: nat, depth: nat) returns (v: Tree)
    requires Value(t, i, depth).Got? && t[i] == '['
    ensures Formed(v) && At(t, i, Spell(v)) && depth + Levels(v) <= MAX_DEPTH
    ensures Value(t, i, depth) == Got(Means(v), i + |Spell(v)|)
    decreases |t| - i, 1
  {
    hide *;
    ArrayGot(t, i, depth);
    var j := SkipSpace(t, i + 1);
    if j < |t| && t[j] == ']' {
      v := Bracketed(t[i + 1..j], []);
      EmptyFound(t, i, v);
    } else {
      var items := ItemsFound(t, i + 1, depth, []);
      v := Bracketed("", items);
      BracketedIs(v);
      OneAt(t, i, '[');
      AtSplit(t, i, "[", SpellItems(items));
      assert [] + MeansItems(items) == MeansItems(items);
    }
  }

  lemma BracketedIs(v: Tree)
    requires v.Bracketed? && v.space == "" && v.items != [] && FormedItems(v.items)
    ensures Formed(v) && Spell(v) == "[" + SpellItems(v.items) && Levels(v) == ItemLevels(v.items)
    ensures Means(v) == Arr(MeansItems(v.items))
  {
  }

  // ---- objects ----

  lemma KeyGot(t: string, i: nat)
    requires i <= |t| && Key(t, i).Got?
    ensures var j := SkipSpace(t, i);
            && j < |t| && t[j] == '"' && StringRest(t, j + 1, "").Got?
            && var s := StringRest(t, j + 1, "");
               var k := SkipSpace(t, s.next);
               k < |t| && t[k] == ':' && Key(t, i) == Got(s.value, SkipSpace(t, k + 1))
  {
    hide StringRest, SkipSpace;
  }

  /** A member up to its value. */
  lemma MemberFound(t: string, i: nat) returns (e: Entry)
    requires i <= |t| && Key(t, i).Got?
    ensures Blank(e.before) && FormedPieces(e.key) && Blank(e.mid) && Blank(e.behind)
    ensures Key(t, i).value == MeansPieces(e.key)
    ensures var next := Key(t, i).next;
            && next == i + |e.before| + 1 + |KeyText(e)| + |e.mid| + 1 + |e.behind|
            && forall rest :: At(t, next, rest) ==>
                 At(t, i, e.before + ("\"" + (KeyText(e) + ((e.mid + ":") + (e.behind + rest)))))
  {
    hide *;
    KeyGot(t, i);
    var a := SkipSpace(t, i);
    var pieces := PiecesFound(t, a + 1, "");
    var b := StringRest(t, a + 1, "").next;
    var c := SkipSpace(t, b);
    var d := SkipSpace(t, c + 1);
    SkippedIsBlank(t, i);
    SkippedIsBlank(t, b);
    SkippedIsBlank(t, c + 1);
    e := Entry(t[i..a], pieces, t[b..c], t[c + 1..d], Word("null"), "");
    KeyTextIs(e);
    KeyReads(t, a + 1, e);
    OneAt(t, a, '"');
    OneAt(t, c, ':');
    AtSplit(t, b, e.mid, ":");
    forall rest | At(t, d, rest)
      ensures At(t, i, e.before + ("\"" + (KeyText(e) + ((e.mid + ":") + (e.behind + rest)))))
    {
      AtSplit(t, c + 1, e.behind, rest);
      AtSplit(t, b, e.mid + ":", e.behind + rest);
      AtSplit(t, a + 1, KeyText(e), (e.mid + ":") + (e.behind + rest));
      AtSplit(t, a, "\"", KeyText(e) + ((e.mid + ":") + (e.behind + rest)));
      AtSplit(t, i, e.before, "\"" + (KeyText(e) + ((e.mid + ":") + (e.behind + rest))));
    }
  }

  lemma KeyTextIs(e: Entry)
    ensures KeyText(e) == SpellPieces(e.key) + "\""
  {
  }

  lemma EntriesFormed(entries: seq<Entry>)
    requires entries != [] && FormedEntries(entries[1..])
    requires var e := entries[0];
             && Blank(e.before) && FormedPieces(e.key) && Blank(e.mid) && Blank(e.behind) && Formed(e.value)
             && Blank(e.after)
    ensures FormedEntries(entries)
  {
  }

  lemma EntriesJoined(t: string, i: nat, entries: seq<Entry>, j: nat)
    requires entries != []
    requires var e := entries[0];
             var k := j + |Spell(e.value)|;
             var m := k + |e.after|;
             && Blank(e.before) && FormedPieces(e.key) && Blank(e.mid) && Blank(e.behind) && Formed(e.value)
             && Blank(e.after) && FormedEntries(entries[1..])
             && j == i + |e.before| + 1 + |KeyText(e)| + |e.mid| + 1 + |e.behind|
             && At(t, j, Spell(e.value)) && At(t, k, e.after) && m < |t|
             && (if |entries| == 1 then t[m] == '}' else t[m] == ',' && At(t, m + 1, SpellEntries(entries[1..])))
             && forall rest :: At(t, j, rest) ==>
                  At(t, i, e.before + ("\"" + (KeyText(e) + ((e.mid + ":") + (e.behind + rest)))))
    ensures FormedEntries(entries) && At(t, i, SpellEntries(entries))
    ensures var m := j + |Spell(entries[0].value)| + |entries[0].after|;
            |SpellEntries(entries)| == m - i + 1 + if |entries| == 1 then 0 else |SpellEntries(entries[1..])|
  {
    hide *;
    var e := entries[0];
    EntriesFormed(entries);
    EntriesSpelled(entries);
    var mark, rest := Mark(|entries| == 1, "}"), RestEntries(entries);
    MarkIs(|entries| == 1, "}");
    RestEntriesIs(entries);
    var k := j + |Spell(e.value)|;
    var m := k + |e.after|;
    OneAt(t, m, t[m]);
    NothingAt(t, m + 1);
    AtSplit(t, k, e.after, mark);
    AtSplit(t, k, e.after + mark, rest);
    AtSplit(t, j, Spell(e.value), (e.after + mark) + rest);
  }

  lemma EntriesOne(e: Entry, acc: seq<Member>)
    requires Blank(e.before) && FormedPieces(e.key) && Blank(e.mid) && Blank(e.behind) && Formed(e.value) &&
             Blank(e.after)
    ensures FormedEntries([]) && [e][1..] == [] && FormedEntries([e])
    ensures MeansEntries(acc, [e]) == Set(acc, MeansPieces(e.key), Means(e.value))
    ensures EntryLevels([e]) == 1 + Levels(e.value)
  {
    hide Formed, Blank, FormedPieces, Means, MeansPieces, Levels, Set;
    assert [e][1..] == [];
  }

  lemma EntriesMore(e: Entry, rest: seq<Entry>, acc: seq<Member>)
    requires Blank(e.before) && FormedPieces(e.key) && Blank(e.mid) && Blank(e.behind) && Formed(e.value) &&
             Blank(e.after)
    requires FormedEntries(rest)
    ensures ([e] + rest)[1..] == rest && FormedEntries([e] + rest)
    ensures MeansEntries(acc, [e] + rest) == MeansEntries(Set(acc, MeansPieces(e.key), Means(e.value)), rest)
    ensures EntryLevels([e] + rest) == Larger(1 + Levels(e.value), EntryLevels(rest))
  {
    hide Formed, Blank, FormedPieces, Means, MeansPieces, Levels, Set;
    assert ([e] + rest)[1..] == rest;
  }

  lemma MembersGot(t: string, i: nat, depth: nat, acc: seq<Member>)
    requires i <= |t| && Members(t, i, depth, acc).Got?
    ensures var key := Key(t, i);
            && key.Got?
            && var v := Value(t, key.next, depth + 1);
               && v.Got?
               && var k := SkipSpace(t, v.next);
                  var more := Set(acc, key.value, v.value);
                  && k < |t| && (t[k] == ',' || t[k] == '}')
                  && (t[k] == ',' ==> Members(t, i, depth, acc) == Members(t, k + 1, depth, more))
                  && (t[k] == '}' ==> Members(t, i, depth, acc) == Got(Obj(more), k + 1))
  {
    hide Value, SkipSpace, Key, Set;
  }

  lemma {:induction false} EntriesFound(t: string, i: nat, depth: nat, acc: seq<Member>) returns (entries: seq<Entry>)
    requires i <= |t| && depth <= MAX_DEPTH && Members(t, i, depth, acc).Got?
    ensures entries != [] && FormedEntries(entries) && At(t, i, SpellEntries(entries))
    ensures depth + EntryLevels(entries) <= MAX_DEPTH
    ensures Members(t, i, depth, acc) == Got(Obj(MeansEntries(acc, entries)), i + |SpellEntries(entries)|)
    decreases |t| - i, 3
  {
    hide *;
    MembersGot(t, i, depth, acc);
    var key := MemberFound(t, i);
    var j := Key(t, i).next;
    var tree := ValueFound(t, j, depth + 1);
    var next := j + |Spell(tree)|;
    var k := SkipSpace(t, next);
    SkippedIsBlank(t, next);
    var e := key.(value := tree, after := t[next..k]);
    KeyTextIs(e);
    KeyTextIs(key);
    if t[k] == '}' {
      entries := [e];
      EntriesOne(e, acc);
      EntriesJoined(t, i, entries, j);
    } else {
      var more := Set(acc, MeansPieces(e.key), Means(tree));
      var rest := EntriesFound(t, k + 1, depth, more);
      entries := [e] + rest;
      EntriesMore(e, rest, acc);
      LargerIs(1 + Levels(tree), EntryLevels(rest));
      EntriesJoined(t, i, entries, j);
    }
  }

  lemma ObjectGot(t: string, i: nat, depth: nat)
    requires Value(t, i, depth).Got? && t[i] == '{'
    ensures depth <= MAX_DEPTH
    ensures var j := SkipSpace(t, i + 1);
            if j < |t| && t[j] == '}' then Value(t, i, depth) == Got(Obj([]), j + 1)
            else Value(t, i, depth) == Members(t, i + 1, depth, [])
  {
    hide SkipSpace, Members;
    var j := SkipSpace(t, i + 1);
    SkippedStays(t, i + 1);
    SkippedMembers(t, i + 1, j, depth);
  }

  lemma SkippedMembers(t: string, i: nat, j: nat, depth: nat)
    requires i <= |t| && j <= |t| && SkipSpace(t, i) == SkipSpace(t, j)
    ensures Members(t, i, depth, []) == Members(t, j, depth, [])
  {
    hide SkipSpace, Value, StringRest;
    assert Key(t, i) == Key(t, j);
  }

  lemma ObjectFound(t: string, i: nat, depth: nat) returns (v: Tree)
    requires Value(t, i, depth).Got? && t[i] == '{'
    ensures Formed(v) && At(t, i, Spell(v)) && depth + Levels(v) <= MAX_DEPTH
    ensures Value(t, i, depth) == Got(Means(v), i + |Spell(v)|)
    decreases |t| - i, 1
  {
    hide *;
    ObjectGot(t, i, depth);
    var j := SkipSpace(t, i + 1);
    if j < |t| && t[j] == '}' {
      v := Braced(t[i + 1..j], []);
      EmptyFound(t, i, v);
    } else {
      var entries := EntriesFound(t, i + 1, depth, []);
      v := Braced("", entries);
      BracedIs(v);
      OneAt(t, i, '{');
      AtSplit(t, i, "{", SpellEntries(entries));
    }
  }

  lemma BracedIs(v: Tree)
    requires v.Braced? && v.space == "" && v.entries != [] && FormedEntries(v.entries)
    ensures Formed(v) && Spell(v) == "{" + SpellEntries(v.entries) && Levels(v) == EntryLevels(v.entries)
    ensures Means(v) == Obj(MeansEntries([], v.entries))
  {
  }

  // ---- any value ----

  lemma {:induction false} ValueFound(t: string, i: nat, depth: nat) returns (v: Tree)
    requires Value(t, i, depth).Got?
    ensures Formed(v) && At(t, i, Spell(v)) && depth + Levels(v) <= MAX_DEPTH
    ensures Value(t, i, depth) == Got(Means(v), i + |Spell(v)|)
    decreases |t| - i, 2
  {
    ValueGot(t, i, depth);
    hide *;
    if t[i] == '[' {
      v := ArrayFound(t, i, depth);
    } else if t[i] == '{' {
      v := ObjectFound(t, i, depth);
    } else if t[i] == '"' {
      v := QuotedFound(t, i);
      FlatLevels(v);
    } else if t[i] == 't' || t[i] == 'f' || t[i] == 'n' {
      v := WordFound(t, i, depth);
    } else {
      v := NumberFound(t, i);
      FlatLevels(v);
    }
  }

  lemma FlatLevels(v: Tree)
    requires v.Quoted? || v.Numeral?
    ensures Levels(v) == 0
  {
  }

  lemma ValueGot(t: string, i: nat, depth: nat)
    requires Value(t, i, depth).Got?
    ensures depth <= MAX_DEPTH && i < |t|
    ensures t[i] == '"' ==>
              var s := StringRest(t, i + 1, ""); s.Got? && Value(t, i, depth) == Got(Str(s.value), s.next)
    ensures t[i] != '[' && t[i] != '{' && t[i] != '"' && t[i] != 't' && t[i] != 'f' && t[i] != 'n' ==>
              Value(t, i, depth) == Number(t, i)
  {
    hide StringRest, Number, Elements, Members;
  }

  // ---- texts ----

  /** Whatever is parsed stands for the value it is parsed to. */
  lemma ParsedIsDenoted(t: string)
    requires Parse(t).Got?
    ensures Parse(t).next == |t| && Denotes(t, Parse(t).value)
  {
    hide Value, SkipSpace, Spell, Formed, Means, Levels, Blank;
    var i := SkipSpace(t, 0);
    var tree := ValueFound(t, i, 0);
    var k := i + |Spell(tree)|;
    SkippedIsBlank(t, 0);
    SkippedIsBlank(t, k);
    assert t == t[0..i] + Spell(tree) + t[k..];
    assert t[k..] == t[k..SkipSpace(t, k)];
    assert Denotes(t, Means(tree));
  }

  /** The parser accepts exactly the JSON texts nested at most 64 deep, and gives the value each stands for. */
  lemma ParseIffDenotes(t: string, v: Json)
    ensures Parse(t) == Got(v, |t|) <==> Denotes(t, v)
    ensures Parse(t) == Fail <==> forall w :: !Denotes(t, w)
  {
    hide Parse, Denotes;
    if Parse(t).Got? { ParsedIsDenoted(t); }
    if Denotes(t, v) { DenotedIsParsed(t, v); }
    forall w | Denotes(t, w) ensures Parse(t).Got? { DenotedIsParsed(t, w); }
  }
}
