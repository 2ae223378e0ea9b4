/** Every JSON text is parsed, to the value it stands for. */
module JsonReads {
  import opened Jobs
  import opened JsonModel
  import opened JsonRoundTrip
  import opened JsonGrammar

  // ---- white space and digits ----

  lemma SkipsBlank(t: string, i: nat, s: string)
    requires At(t, i, s) && Blank(s) && (i + |s| < |t| ==> !IsSpace(t[i + |s|]))
    ensures SkipSpace(t, i) == i + |s|
  {
    SkipsSpace(t, i, s);
  }

  lemma ReadsDigits(t: string, i: nat, s: string)
    requires At(t, i, s) && Digits(s) && !IsDigitAt(t, i + |s|)
    ensures IsDigitAt(t, i) && SkipDigits(t, i) == i + |s|
  {
    AtFirst(t, i, s, 0);
    assert s[0] in s;
    SkipsDigits(t, i, s);
  }

  lemma {:induction false} NaturalLast(n: int, s: string, c: char)
    ensures Natural(n, s + [c]) == 10 * Natural(n, s) + (c as int - 0x30)
    decreases |s|
  {
    if s == "" {
      assert Natural(n, [c]) == Natural(10 * n + (c as int - 0x30), [c][1..]);
      assert s + [c] == [c];
    } else {
      assert (s + [c])[1..] == s[1..] + [c];
      NaturalLast(10 * n + (s[0] as int - 0x30), s[1..], c);
    }
  }

  lemma {:induction false} DecimalIsNatural(s: string)
    ensures DecimalValue(s) == Natural(0, s)
  {
    if s != "" {
      var n := |s| - 1;
      DecimalIsNatural(s[..n]);
      NaturalLast(0, s[..n], s[n]);
      assert s == s[..n] + [s[n]];
    }
  }

  // ---- numbers ----

  /** Nothing that a number could go on with. */
  predicate Stops(t: string, j: nat) {
    j < |t| ==> !IsDigit(t[j]) && t[j] != '.' && t[j] != 'e' && t[j] != 'E'
  }

  lemma IntegerComplete(t: string, i: nat, minus: bool, integer: string)
    requires At(t, i, SpellInteger(minus, integer)) && FormedInteger(integer)
    requires !IsDigitAt(t, i + |SpellInteger(minus, integer)|)
    ensures IntegerEnd(t, i) == Got((), i + |SpellInteger(minus, integer)|)
  {
    var sign := if minus then "-" else "";
    AtSplit(t, i, sign, integer);
    var j := i + |sign|;
    if minus { AtFirst(t, i, "-", 0); }
    ReadsDigits(t, j, integer);
    AtFirst(t, j, integer, 0);
  }

  lemma FractionComplete(t: string, i: nat, fraction: Option<string>)
    requires i <= |t| && At(t, i, SpellFraction(fraction)) && (fraction.Some? ==> Digits(fraction.value))
    requires !IsDigitAt(t, i + |SpellFraction(fraction)|) && (fraction.None? && i < |t| ==> t[i] != '.')
    ensures FractionEnd(t, i) == Got(fraction.Some?, i + |SpellFraction(fraction)|)
  {
    if fraction.Some? {
      AtSplit(t, i, ".", fraction.value);
      AtFirst(t, i, ".", 0);
      ReadsDigits(t, i + 1, fraction.value);
    }
  }

  lemma ExponentComplete(t: string, i: nat, exponent: Option<Exponent>)
    requires i <= |t| && At(t, i, SpellExponent(exponent)) && (exponent.Some? ==> FormedExponent(exponent.value))
    requires Stops(t, i + |SpellExponent(exponent)|)
    ensures ExponentEnd(t, i) == Got(exponent.Some?, i + |SpellExponent(exponent)|)
  {
    if exponent.Some? {
      var e := exponent.value;
      AtSplit(t, i, [e.letter] + e.sign, e.digits);
      AtSplit(t, i, [e.letter], e.sign);
      AtFirst(t, i, [e.letter], 0);
      ReadsDigits(t, i + 1 + |e.sign|, e.digits);
      if e.sign != "" { AtFirst(t, i + 1, e.sign, 0); }
    }
  }

  /** What follows the integer part is no digit, and a point only if there is a fraction. */
  lemma AfterInteger(t: string, j: nat, fraction: Option<string>, exponent: Option<Exponent>)
    requires At(t, j, SpellFraction(fraction) + SpellExponent(exponent))
    requires Stops(t, j + |SpellFraction(fraction) + SpellExponent(exponent)|)
    requires exponent.Some? ==> FormedExponent(exponent.value)
    ensures At(t, j, SpellFraction(fraction)) && At(t, j + |SpellFraction(fraction)|, SpellExponent(exponent))
    ensures !IsDigitAt(t, j) && (fraction.None? && j < |t| ==> t[j] != '.')
    ensures !IsDigitAt(t, j + |SpellFraction(fraction)|)
  {
    var f, x := SpellFraction(fraction), SpellExponent(exponent);
    AtSplit(t, j, f, x);
    if fraction.Some? { AtFirst(t, j, f, 0); }
    if exponent.Some? { AtFirst(t, j + |f|, x, 0); }
  }

  lemma NumeralRaw(t: string, i: nat, v: Tree)
    requires v.Numeral? && At(t, i, Spell(v))
    ensures t[i..i + |Spell(v)|] == Spell(v)
  {
  }

  lemma NumeralInt(minus: bool, integer: string)
    requires FormedInteger(integer)
    ensures IntValue(SpellInteger(minus, integer)) == if minus then -Natural(0, integer) else Natural(0, integer)
  {
    DecimalIsNatural(integer);
    assert integer[0] in integer;
    if minus { assert SpellInteger(minus, integer)[1..] == integer; }
    assert "" + integer == integer;
  }

  lemma NumberSteps(t: string, i: nat, a: nat, fraction: bool, b: nat, exponent: bool, c: nat)
    requires IntegerEnd(t, i) == Got((), a) && FractionEnd(t, a) == Got(fraction, b)
    requires ExponentEnd(t, b) == Got(exponent, c)
    ensures i <= c <= |t|
    ensures var n := IntValue(t[i..c]);
            Number(t, i) ==
            Got(if !fraction && !exponent && -0x8000_0000_0000_0000 <= n < 0x8000_0000_0000_0000 then Int(n)
                else Real(t[i..c]), c)
  {
    hide IntegerEnd, FractionEnd, ExponentEnd, IntValue;
  }

  lemma NumeralSpelled(v: Tree)
    requires v.Numeral? && Formed(v)
    ensures Spell(v) == SpellInteger(v.minus, v.integer) + (SpellFraction(v.fraction) + SpellExponent(v.exponent))
    ensures FormedInteger(v.integer) && (v.fraction.Some? ==> Digits(v.fraction.value))
    ensures v.exponent.Some? ==> FormedExponent(v.exponent.value)
  {
  }

  lemma NumeralParts(t: string, i: nat, v: Tree)
    requires v.Numeral? && Formed(v) && At(t, i, Spell(v)) && Stops(t, i + |Spell(v)|)
    ensures var a := i + |SpellInteger(v.minus, v.integer)|;
            var b := a + |SpellFraction(v.fraction)|;
            && b <= |t| && IntegerEnd(t, i) == Got((), a) && FractionEnd(t, a) == Got(v.fraction.Some?, b)
            && ExponentEnd(t, b) == Got(v.exponent.Some?, i + |Spell(v)|)
  {
    hide *;
    NumeralSpelled(v);
    var n, f, x := SpellInteger(v.minus, v.integer), SpellFraction(v.fraction), SpellExponent(v.exponent);
    AtSplit(t, i, n, f + x);
    AfterInteger(t, i + |n|, v.fraction, v.exponent);
    AtFits(t, i + |n|, f);
    AtFits(t, i + |n| + |f|, x);
    IntegerComplete(t, i, v.minus, v.integer);
    FractionComplete(t, i + |n|, v.fraction);
    ExponentComplete(t, i + |n| + |f|, v.exponent);
  }

  lemma AtFits(t: string, i: nat, s: string)
    requires At(t, i, s)
    ensures i + |s| <= |t|
  {
  }

  lemma NumeralComplete(t: string, i: nat, v: Tree)
    requires v.Numeral? && Formed(v) && At(t, i, Spell(v)) && Stops(t, i + |Spell(v)|)
    ensures Number(t, i) == Got(Means(v), i + |Spell(v)|)
  {
    hide IntegerEnd, FractionEnd, ExponentEnd, At, IntValue, Natural, SpellInteger, Stops, Number;
    var a := i + |SpellInteger(v.minus, v.integer)|;
    var b := a + |SpellFraction(v.fraction)|;
    NumeralParts(t, i, v);
    NumberSteps(t, i, a, v.fraction.Some?, b, v.exponent.Some?, i + |Spell(v)|);
    NumeralRaw(t, i, v);
    if v.fraction.None? && v.exponent.None? {
      assert Spell(v) == SpellInteger(v.minus, v.integer);
      NumeralInt(v.minus, v.integer);
    }
  }

  // ---- strings ----

  lemma NibbleIsHex(c: char)
    ensures Nibble(c) == HexValue(c)
  {
  }

  lemma HexComplete(t: string, i: nat, hex: string)
    requires At(t, i, hex) && IsHex(hex)
    ensures 0 <= HexNumber(hex) < 0x10000 && Hex4(t, i) == Got(HexNumber(hex), i + 4)
  {
    HexBounds(hex);
    AtFirst(t, i, hex, 0);
    AtFirst(t, i, hex, 1);
    AtFirst(t, i, hex, 2);
    AtFirst(t, i, hex, 3);
    NibbleIsHex(hex[0]);
    NibbleIsHex(hex[1]);
    NibbleIsHex(hex[2]);
    NibbleIsHex(hex[3]);
    assert hex[0] in hex && hex[1] in hex && hex[2] in hex && hex[3] in hex;
  }

  lemma ShortComplete(t: string, i: nat, letter: char)
    requires i < |t| && t[i] == letter && ShortCode(letter) >= 0
    ensures Unescape(t, i) == Got([ShortCode(letter) as char], i + 1)
  {
  }

  lemma UnitComplete(t: string, i: nat, hex: string)
    requires At(t, i, hex) && FormedPiece(Unit(hex))
    ensures UnicodeEscape(t, i) == Got(MeansPiece(Unit(hex)), i + 4)
  {
    hide Hex4, HexNumber, At;
    HexComplete(t, i, hex);
  }

  lemma PairComplete(t: string, i: nat, high: string, low: string)
    requires At(t, i, high + "\\u" + low) && FormedPiece(Pair(high, low))
    ensures UnicodeEscape(t, i) == Got(MeansPiece(Pair(high, low)), i + 10)
  {
    hide Hex4, HexNumber, At;
    AtSplit(t, i, high + "\\u", low);
    AtSplit(t, i, high, "\\u");
    HexComplete(t, i, high);
    HexComplete(t, i + 6, low);
  }

  lemma BareStep(t: string, i: nat, c: char, out: string)
    requires i < |t| && t[i] == c && FormedPiece(Bare(c))
    ensures StringRest(t, i, out) == StringRest(t, i + 1, out + [c])
  {
  }

  lemma EscapeStep(t: string, i: nat, out: string, e: string, k: nat)
    requires i < |t| && t[i] == '\\' && Unescape(t, i + 1) == Got(e, k)
    ensures StringRest(t, i, out) == StringRest(t, k, out + e)
  {
    hide Unescape;
  }

  lemma CodeStep(t: string, i: nat, e: string, k: nat)
    requires At(t, i, "\\u") && UnicodeEscape(t, i + 2) == Got(e, k)
    ensures i < |t| && t[i] == '\\' && Unescape(t, i + 1) == Got(e, k)
  {
    hide UnicodeEscape;
    AtFirst(t, i, "\\u", 0);
    AtFirst(t, i, "\\u", 1);
  }

  /** An escape, from its backslash on. */
  lemma EscapeComplete(t: string, i: nat, p: Piece)
    requires At(t, i, SpellPiece(p)) && FormedPiece(p) && !p.Bare?
    ensures i < |t| && t[i] == '\\' && Unescape(t, i + 1) == Got(MeansPiece(p), i + |SpellPiece(p)|)
  {
    hide UnicodeEscape, Unescape, MeansPiece, At, IsHex, HexNumber, ShortCode;
    match p
    case Short(letter) =>
      AtFirst(t, i, SpellPiece(p), 0);
      AtFirst(t, i, SpellPiece(p), 1);
      ShortComplete(t, i + 1, letter);
      ShortMeans(letter);
    case Unit(hex) =>
      AtSplit(t, i, "\\u", hex);
      UnitComplete(t, i + 2, hex);
      HexSize(hex);
      CodeStep(t, i, MeansPiece(p), i + 6);
    case Pair(high, low) =>
      assert SpellPiece(p) == "\\u" + (high + "\\u" + low);
      AtSplit(t, i, "\\u", high + "\\u" + low);
      PairComplete(t, i + 2, high, low);
      HexSize(high);
      HexSize(low);
      CodeStep(t, i, MeansPiece(p), i + 12);
  }

  lemma HexSize(hex: string)
    requires IsHex(hex)
    ensures |hex| == 4
  {
  }

  lemma PieceComplete(t: string, i: nat, p: Piece, out: string)
    requires At(t, i, SpellPiece(p)) && FormedPiece(p)
    ensures StringRest(t, i, out) == StringRest(t, i + |SpellPiece(p)|, out + MeansPiece(p))
  {
    hide Unescape, MeansPiece, At, StringRest, FormedPiece;
    if p.Bare? {
      AtFirst(t, i, SpellPiece(p), 0);
      BareStep(t, i, p.c, out);
      BareMeans(p.c);
    } else {
      EscapeComplete(t, i, p);
      EscapeStep(t, i, out, MeansPiece(p), i + |SpellPiece(p)|);
    }
  }

  lemma BareMeans(c: char)
    requires FormedPiece(Bare(c))
    ensures MeansPiece(Bare(c)) == [c]
  {
  }

  lemma ShortMeans(letter: char)
    requires FormedPiece(Short(letter))
    ensures MeansPiece(Short(letter)) == [ShortCode(letter) as char]
  {
  }

  lemma FirstPiece(pieces: seq<Piece>)
    requires pieces != [] && FormedPieces(pieces)
    ensures FormedPiece(pieces[0]) && FormedPieces(pieces[1..])
    ensures SpellPieces(pieces) == SpellPiece(pieces[0]) + SpellPieces(pieces[1..])
    ensures MeansPieces(pieces) == MeansPiece(pieces[0]) + MeansPieces(pieces[1..])
  {
    hide FormedPiece, SpellPiece, MeansPiece;
    assert pieces[0] in pieces && forall q <- pieces[1..] :: q in pieces;
  }

  lemma QuoteEnds(t: string, i: nat, out: string)
    requires At(t, i, SpellPieces([]) + "\"")
    ensures StringRest(t, i, out) == Got(out + MeansPieces([]), i + |SpellPieces([])| + 1)
  {
    assert SpellPieces([]) + "\"" == "\"";
    assert out + MeansPieces([]) == out;
    AtFirst(t, i, "\"", 0);
  }

  lemma Joined(a: string, b: string, c: string)
    ensures (a + b) + c == a + (b + c)
  {
  }

  lemma {:induction false} PiecesComplete(t: string, i: nat, pieces: seq<Piece>, out: string)
    requires At(t, i, SpellPieces(pieces) + "\"") && FormedPieces(pieces)
    ensures StringRest(t, i, out) == Got(out + MeansPieces(pieces), i + |SpellPieces(pieces)| + 1)
    decreases |pieces|
  {
    hide *;
    if pieces == [] {
      QuoteEnds(t, i, out);
    } else {
      var p, rest := pieces[0], pieces[1..];
      FirstPiece(pieces);
      Joined(SpellPiece(p), SpellPieces(rest), "\"");
      AtSplit(t, i, SpellPiece(p), SpellPieces(rest) + "\"");
      PieceComplete(t, i, p, out);
      PiecesComplete(t, i + |SpellPiece(p)|, rest, out + MeansPiece(p));
      Joined(out, MeansPiece(p), MeansPieces(rest));
    }
  }

  // ---- values ----

  lemma WordComplete(t: string, i: nat, v: Tree, depth: nat)
    requires v.Word? && Formed(v) && At(t, i, Spell(v)) && depth <= MAX_DEPTH
    ensures Value(t, i, depth) == Got(Means(v), i + |Spell(v)|)
  {
    AtFirst(t, i, v.word, 0);
  }

  lemma DigitStarts(t: string, i: nat, v: Tree, depth: nat)
    requires v.Numeral? && Formed(v) && At(t, i, Spell(v)) && depth <= MAX_DEPTH
    ensures Value(t, i, depth) == Number(t, i)
  {
    hide Number, Spell;
    StartsLike(v);
    AtFirst(t, i, Spell(v), 0);
  }

  /** The first character says what a value is. */
  predicate Starts(v: Tree, c: char) {
    match v
    case Word(_) => c == 'n' || c == 't' || c == 'f'
    case Numeral(_, _, _, _) => c == '-' || IsDigit(c)
    case Quoted(_) => c == '"'
    case Bracketed(_, _) => c == '['
    case Braced(_, _) => c == '{'
  }

  lemma StartsLike(v: Tree)
    requires Formed(v)
    ensures Spell(v) != "" && Starts(v, Spell(v)[0])
  {
    match v
    case Numeral(minus, integer, fraction, exponent) =>
      NumeralSpelled(v);
      hide SpellFraction, SpellExponent, Spell;
      assert integer[0] in integer;
      assert SpellInteger(minus, integer) != "" && Starts(v, SpellInteger(minus, integer)[0]);
    case Bracketed(_, _) =>
    case Braced(_, _) =>
    case _ =>
  }

  lemma StartsAt(t: string, i: nat, v: Tree)
    requires Formed(v) && At(t, i, Spell(v))
    ensures i < |t| && Starts(v, t[i]) && !IsSpace(t[i]) && t[i] != ']' && t[i] != '}'
  {
    hide Spell, Formed;
    StartsLike(v);
    AtFirst(t, i, Spell(v), 0);
  }

  lemma NumberComplete(t: string, i: nat, v: Tree, depth: nat)
    requires v.Numeral? && Formed(v) && At(t, i, Spell(v)) && Stops(t, i + |Spell(v)|) && depth <= MAX_DEPTH
    ensures Value(t, i, depth) == Got(Means(v), i + |Spell(v)|)
  {
    hide *;
    DigitStarts(t, i, v, depth);
    NumeralComplete(t, i, v);
  }

  lemma QuotedComplete(t: string, i: nat, v: Tree, depth: nat)
    requires v.Quoted? && Formed(v) && At(t, i, Spell(v)) && depth <= MAX_DEPTH
    ensures Value(t, i, depth) == Got(Means(v), i + |Spell(v)|)
  {
    hide StringRest, SpellPieces, MeansPieces, FormedPieces, At;
    assert Spell(v) == "\"" + (SpellPieces(v.pieces) + "\"");
    AtSplit(t, i, "\"", SpellPieces(v.pieces) + "\"");
    AtFirst(t, i, "\"", 0);
    PiecesComplete(t, i + 1, v.pieces, "");
    assert "" + MeansPieces(v.pieces) == MeansPieces(v.pieces);
  }

  // ---- arrays and objects ----

  lemma EmptyComplete(t: string, i: nat, v: Tree, depth: nat)
    requires (v.Bracketed? && v.items == []) || (v.Braced? && v.entries == [])
    requires Formed(v) && At(t, i, Spell(v)) && depth <= MAX_DEPTH
    ensures Value(t, i, depth) == Got(Means(v), i + |Spell(v)|)
  {
    hide Elements, Members, At, SkipSpace;
    var open, close := if v.Bracketed? then "[" else "{", if v.Bracketed? then "]" else "}";
    assert Spell(v) == open + v.space + close;
    AtSplit(t, i, open + v.space, close);
    AtSplit(t, i, open, v.space);
    AtFirst(t, i, open, 0);
    AtFirst(t, i + 1 + |v.space|, close, 0);
    SkipsBlank(t, i + 1, v.space);
  }

  /** Blanks, and then one of the characters that end a value. */
  lemma BlankThen(t: string, k: nat, after: string, mark: string)
    requires At(t, k, after + mark) && Blank(after) && (mark == "," || mark == "]" || mark == "}" || mark == ":")
    ensures var m := k + |after|;
            m < |t| && t[m] == mark[0] && SkipSpace(t, k) == m && Stops(t, k) && At(t, k, after)
  {
    AtSplit(t, k, after, mark);
    AtFirst(t, k + |after|, mark, 0);
    SkipsBlank(t, k, after);
    if after != "" {
      AtFirst(t, k, after, 0);
      assert after[0] in after;
    }
  }

  function Mark(last: bool, close: string): string { if last then close else "," }

  function RestItems(items: seq<Item>): string { if |items| <= 1 then "" else SpellItems(items[1..]) }

  lemma UnfoldItems(items: seq<Item>)
    requires items != []
    ensures var x := items[0];
            SpellItems(items) == x.before + Spell(x.value) + x.after + (Mark(|items| == 1, "]") + RestItems(items))
  {
    hide Spell;
    assert "]" + "" == "]";
  }

  lemma FourParts(a: string, b: string, c: string, mark: string, rest: string)
    ensures a + b + c + (mark + rest) == a + (b + ((c + mark) + rest))
  {
    Joined(c, mark, rest);
    Joined(a + b, c, mark + rest);
    Joined(a, b, c + (mark + rest));
  }

  lemma ItemsSpelled(items: seq<Item>)
    requires items != [] && FormedItems(items)
    ensures var x := items[0];
            && Blank(x.before) && Formed(x.value) && Blank(x.after) && FormedItems(items[1..])
            && SpellItems(items) ==
               x.before + (Spell(x.value) + ((x.after + Mark(|items| == 1, "]")) + RestItems(items)))
  {
    hide *;
    var x := items[0];
    ItemsAreFormed(items);
    UnfoldItems(items);
    FourParts(x.before, Spell(x.value), x.after, Mark(|items| == 1, "]"), RestItems(items));
  }

  lemma ItemsAreFormed(items: seq<Item>)
    requires items != [] && FormedItems(items)
    ensures var x := items[0]; Blank(x.before) && Formed(x.value) && Blank(x.after) && FormedItems(items[1..])
  {
    hide Blank, Formed;
  }

  lemma ItemParts(t: string, i: nat, items: seq<Item>)
    requires items != [] && FormedItems(items) && At(t, i, SpellItems(items))
    ensures var x := items[0];
            var j := i + |x.before|;
            var k := j + |Spell(x.value)|;
            var m := k + |x.after|;
            && Formed(x.value) && At(t, j, Spell(x.value)) && i <= |t|
            && SkipSpace(t, i) == j && Stops(t, k) && m < |t| && SkipSpace(t, k) == m
            && FormedItems(items[1..])
            && (if |items| == 1 then t[m] == ']' && i + |SpellItems(items)| == m + 1
                else
                  && t[m] == ',' && At(t, m + 1, SpellItems(items[1..]))
                  && i + |SpellItems(items)| == m + 1 + |SpellItems(items[1..])|)
  {
    hide *;
    ItemsSpelled(items);
    var x := items[0];
    var mark, rest := Mark(|items| == 1, "]"), RestItems(items);
    MarkIs(|items| == 1, "]");
    RestIs(items);
    AtFits(t, i, SpellItems(items));
    AtSplit(t, i, x.before, Spell(x.value) + ((x.after + mark) + rest));
    AtSplit(t, i + |x.before|, Spell(x.value), (x.after + mark) + rest);
    AtSplit(t, i + |x.before| + |Spell(x.value)|, x.after + mark, rest);
    StartsAt(t, i + |x.before|, x.value);
    SkipsBlank(t, i, x.before);
    BlankThen(t, i + |x.before| + |Spell(x.value)|, x.after, mark);
  }

  lemma MarkIs(last: bool, close: string)
    ensures Mark(last, close) == if last then close else ","
  {
  }

  lemma RestIs(items: seq<Item>)
    ensures RestItems(items) == if |items| <= 1 then "" else SpellItems(items[1..])
  {
  }

  lemma ItemsMean(items: seq<Item>, acc: seq<Json>)
    requires items != [] && FormedItems(items)
    ensures acc + MeansItems(items) == acc + [Means(items[0].value)] + MeansItems(items[1..])
    ensures |items| == 1 ==> MeansItems(items[1..]) == []
    ensures 1 + Levels(items[0].value) <= ItemLevels(items) && ItemLevels(items[1..]) <= ItemLevels(items)
  {
    hide *;
    FirstItem(items);
    Regroup(acc, Means(items[0].value), MeansItems(items[1..]));
  }

  lemma FirstItem(items: seq<Item>)
    requires items != [] && FormedItems(items)
    ensures Formed(items[0].value) && FormedItems(items[1..])
    ensures MeansItems(items) == [Means(items[0].value)] + MeansItems(items[1..])
    ensures |items| == 1 ==> MeansItems(items[1..]) == []
    ensures 1 + Levels(items[0].value) <= ItemLevels(items) && ItemLevels(items[1..]) <= ItemLevels(items)
  {
    hide Means, Levels, Formed, Blank;
  }

  lemma ArrayOpens(t: string, i: nat, items: seq<Item>, depth: nat)
    requires items != [] && FormedItems(items) && At(t, i, "[" + SpellItems(items)) && depth <= MAX_DEPTH
    ensures Value(t, i, depth) == Elements(t, i + 1, depth, []) && At(t, i + 1, SpellItems(items))
  {
    hide Value, Elements, SpellItems, FormedItems, Spell, Formed, At, SkipSpace;
    AtSplit(t, i, "[", SpellItems(items));
    AtFirst(t, i, "[", 0);
    ItemParts(t, i + 1, items);
    StartsAt(t, i + 1 + |items[0].before|, items[0].value);
    SkippedStays(t, i + 1);
    ArrayStarts(t, i, depth);
  }

  lemma {:induction false} SkippedStays(t: string, i: nat)
    requires i <= |t|
    ensures SkipSpace(t, SkipSpace(t, i)) == SkipSpace(t, i)
    decreases |t| - i
  {
    if i < |t| && IsSpace(t[i]) { SkippedStays(t, i + 1); }
  }

  lemma {:induction false} ItemsComplete(t: string, i: nat, items: seq<Item>, acc: seq<Json>, depth: nat)
    requires items != [] && FormedItems(items) && At(t, i, SpellItems(items)) && depth + ItemLevels(items) <= MAX_DEPTH
    ensures i <= |t|
    ensures Elements(t, i, depth, acc) == Got(Arr(acc + MeansItems(items)), i + |SpellItems(items)|)
    decreases items
  {
    hide *;
    var x := items[0];
    ItemParts(t, i, items);
    ItemsMean(items, acc);
    var j := i + |x.before|;
    ValueComplete(t, j, x.value, depth + 1);
    ElementsStep(t, i, depth, acc, Means(x.value), j + |Spell(x.value)|);
    if |items| > 1 {
      ItemsComplete(t, j + |Spell(x.value)| + |x.after| + 1, items[1..], acc + [Means(x.value)], depth);
    } else {
      assert acc + [Means(x.value)] + [] == acc + [Means(x.value)];
    }
  }

  function KeyText(e: Entry): string { SpellPieces(e.key) + "\"" }

  /** A member up to its value: the key, the colon and the white space around them. */
  lemma EntryKey(t: string, i: nat, e: Entry, rest: string)
    requires Blank(e.before) && FormedPieces(e.key) && Blank(e.mid) && Blank(e.behind)
    requires At(t, i, e.before + ("\"" + (KeyText(e) + ((e.mid + ":") + (e.behind + rest)))))
    requires rest != "" && !IsSpace(rest[0])
    ensures var j := i + |e.before| + 1 + |KeyText(e)| + |e.mid| + 1 + |e.behind|;
            i <= |t| && Key(t, i) == Got(MeansPieces(e.key), j) && At(t, j, rest)
    ensures SkipSpace(t, i) == i + |e.before| < |t| && t[i + |e.before|] == '"'
  {
    hide *;
    var tail := e.behind + rest;
    var a := i + |e.before|;
    var b := a + 1 + |KeyText(e)|;
    var c := b + |e.mid| + 1;
    AtFits(t, i, e.before + ("\"" + (KeyText(e) + ((e.mid + ":") + tail))));
    AtSplit(t, i, e.before, "\"" + (KeyText(e) + ((e.mid + ":") + tail)));
    AtSplit(t, a, "\"", KeyText(e) + ((e.mid + ":") + tail));
    AtSplit(t, a + 1, KeyText(e), (e.mid + ":") + tail);
    AtSplit(t, b, e.mid + ":", tail);
    AtSplit(t, c, e.behind, rest);
    AtFirst(t, a, "\"", 0);
    assert !IsSpace('"') by { QuoteIsNoSpace(); }
    SkipsBlank(t, i, e.before);
    KeyReads(t, a + 1, e);
    BlankThen(t, b, e.mid, ":");
    AtFirst(t, c + |e.behind|, rest, 0);
    SkipsBlank(t, c, e.behind);
    KeyFound(t, i, MeansPieces(e.key), b);
  }

  lemma QuoteIsNoSpace()
    ensures !IsSpace('"')
  {
  }

  lemma KeyReads(t: string, i: nat, e: Entry)
    requires FormedPieces(e.key) && At(t, i, KeyText(e))
    ensures StringRest(t, i, "") == Got(MeansPieces(e.key), i + |KeyText(e)|)
  {
    hide StringRest, SpellPieces, MeansPieces, FormedPieces, At;
    PiecesComplete(t, i, e.key, "");
    assert "" + MeansPieces(e.key) == MeansPieces(e.key);
  }

  lemma KeyFound(t: string, i: nat, key: string, b: nat)
    requires i <= |t| && var j := SkipSpace(t, i); j < |t| && t[j] == '"' && StringRest(t, j + 1, "") == Got(key, b)
    requires b <= |t| && var k := SkipSpace(t, b); k < |t| && t[k] == ':'
    ensures Key(t, i) == Got(key, SkipSpace(t, SkipSpace(t, b) + 1))
  {
    hide StringRest, SkipSpace;
  }

  function RestEntries(entries: seq<Entry>): string { if |entries| <= 1 then "" else SpellEntries(entries[1..]) }

  function HeadText(e: Entry): string {
    e.before + "\"" + SpellPieces(e.key) + "\"" + e.mid + ":" + e.behind
  }

  lemma UnfoldEntries(entries: seq<Entry>)
    requires entries != []
    ensures var e := entries[0];
            SpellEntries(entries) ==
            HeadText(e) + Spell(e.value) + e.after + (Mark(|entries| == 1, "}") + RestEntries(entries))
  {
    hide Spell, SpellPieces;
    assert "}" + "" == "}";
  }

  lemma EntriesAreFormed(entries: seq<Entry>)
    requires entries != [] && FormedEntries(entries)
    ensures var e := entries[0];
            && Blank(e.before) && FormedPieces(e.key) && Blank(e.mid) && Blank(e.behind) && Formed(e.value)
            && Blank(e.after) && FormedEntries(entries[1..])
  {
    hide Blank, Formed, FormedPieces;
  }

  lemma EntriesSpelled(entries: seq<Entry>)
    requires entries != [] && FormedEntries(entries)
    ensures var e := entries[0];
            && Blank(e.before) && FormedPieces(e.key) && Blank(e.mid) && Blank(e.behind) && Formed(e.value)
            && Blank(e.after) && FormedEntries(entries[1..])
            && var tail := Spell(e.value) + ((e.after + Mark(|entries| == 1, "}")) + RestEntries(entries));
               SpellEntries(entries) == e.before + ("\"" + (KeyText(e) + ((e.mid + ":") + (e.behind + tail))))
  {
    hide *;
    var e := entries[0];
    var mark, rest := Mark(|entries| == 1, "}"), RestEntries(entries);
    EntriesAreFormed(entries);
    UnfoldEntries(entries);
    FourParts(HeadText(e), Spell(e.value), e.after, mark, rest);
    HeadSpelled(e, Spell(e.value) + ((e.after + mark) + rest));
  }

  lemma HeadSpelled(e: Entry, tail: string)
    ensures HeadText(e) + tail == e.before + ("\"" + (KeyText(e) + ((e.mid + ":") + (e.behind + tail))))
  {
    SevenParts(e.before, SpellPieces(e.key), e.mid, e.behind, tail);
  }

  lemma SevenParts(before: string, name: string, mid: string, behind: string, tail: string)
    ensures before + "\"" + name + "\"" + mid + ":" + behind + tail ==
            before + ("\"" + ((name + "\"") + ((mid + ":") + (behind + tail))))
  {
    var a := before + "\"";
    Joined(a + name + "\"" + mid + ":", behind, tail);
    Joined(a + name + "\"", mid, ":");
    Joined(a + name + "\"", mid + ":", behind + tail);
    Joined(a, name, "\"");
    Joined(a, name + "\"", (mid + ":") + (behind + tail));
    Joined(before, "\"", (name + "\"") + ((mid + ":") + (behind + tail)));
  }

  lemma EntryParts(t: string, i: nat, entries: seq<Entry>)
    requires entries != [] && FormedEntries(entries) && At(t, i, SpellEntries(entries))
    ensures var e := entries[0];
            var j := i + |e.before| + 1 + |KeyText(e)| + |e.mid| + 1 + |e.behind|;
            var k := j + |Spell(e.value)|;
            var m := k + |e.after|;
            && FormedPieces(e.key) && Formed(e.value) && At(t, j, Spell(e.value)) && i <= |t|
            && Key(t, i) == Got(MeansPieces(e.key), j) && Stops(t, k) && m < |t| && SkipSpace(t, k) == m
            && SkipSpace(t, i) < |t| && t[SkipSpace(t, i)] == '"'
            && FormedEntries(entries[1..])
            && (if |entries| == 1 then t[m] == '}' && i + |SpellEntries(entries)| == m + 1
                else
                  && t[m] == ',' && At(t, m + 1, SpellEntries(entries[1..]))
                  && i + |SpellEntries(entries)| == m + 1 + |SpellEntries(entries[1..])|)
  {
    hide *;
    EntriesSpelled(entries);
    var e := entries[0];
    var mark, rest := Mark(|entries| == 1, "}"), RestEntries(entries);
    MarkIs(|entries| == 1, "}");
    RestEntriesIs(entries);
    var tail := Spell(e.value) + ((e.after + mark) + rest);
    StartsUnspaced(e.value, (e.after + mark) + rest);
    EntryKey(t, i, e, tail);
    var j := i + |e.before| + 1 + |KeyText(e)| + |e.mid| + 1 + |e.behind|;
    AtSplit(t, j, Spell(e.value), (e.after + mark) + rest);
    AtSplit(t, j + |Spell(e.value)|, e.after + mark, rest);
    BlankThen(t, j + |Spell(e.value)|, e.after, mark);
  }

  lemma RestEntriesIs(entries: seq<Entry>)
    ensures RestEntries(entries) == if |entries| <= 1 then "" else SpellEntries(entries[1..])
  {
  }

  lemma StartsUnspaced(v: Tree, rest: string)
    requires Formed(v)
    ensures Spell(v) + rest != "" && !IsSpace((Spell(v) + rest)[0])
  {
    hide Spell, Formed;
    StartsLike(v);
  }

  lemma EntriesMean(entries: seq<Entry>, acc: seq<Member>)
    requires entries != [] && FormedEntries(entries)
    ensures FormedPieces(entries[0].key) && Formed(entries[0].value) && FormedEntries(entries[1..])
    ensures MeansEntries(acc, entries) ==
            MeansEntries(Set(acc, MeansPieces(entries[0].key), Means(entries[0].value)), entries[1..])
    ensures |entries| == 1 ==>
              MeansEntries(acc, entries) == Set(acc, MeansPieces(entries[0].key), Means(entries[0].value))
    ensures 1 + Levels(entries[0].value) <= EntryLevels(entries) && EntryLevels(entries[1..]) <= EntryLevels(entries)
  {
    hide Means, Levels, Formed, Set;
  }

  lemma ObjectOpens(t: string, i: nat, entries: seq<Entry>, depth: nat)
    requires entries != [] && FormedEntries(entries) && At(t, i, "{" + SpellEntries(entries)) && depth <= MAX_DEPTH
    ensures Value(t, i, depth) == Members(t, i + 1, depth, []) && At(t, i + 1, SpellEntries(entries))
  {
    hide Value, Members, SpellEntries, FormedEntries, Spell, Formed, At, SkipSpace, Key, SpellPieces, MeansPieces;
    AtSplit(t, i, "{", SpellEntries(entries));
    AtFirst(t, i, "{", 0);
    EntryParts(t, i + 1, entries);
    SkippedStays(t, i + 1);
    ObjectStarts(t, i, depth);
  }

  lemma {:induction false} EntriesComplete(t: string, i: nat, entries: seq<Entry>, acc: seq<Member>, depth: nat)
    requires entries != [] && FormedEntries(entries) && At(t, i, SpellEntries(entries))
    requires depth + EntryLevels(entries) <= MAX_DEPTH
    ensures i <= |t|
    ensures Members(t, i, depth, acc) == Got(Obj(MeansEntries(acc, entries)), i + |SpellEntries(entries)|)
    decreases entries
  {
    hide *;
    var e := entries[0];
    EntryParts(t, i, entries);
    EntriesMean(entries, acc);
    var j := i + |e.before| + 1 + |KeyText(e)| + |e.mid| + 1 + |e.behind|;
    ValueComplete(t, j, e.value, depth + 1);
    MembersStep(t, i, depth, acc, MeansPieces(e.key), j, Means(e.value), j + |Spell(e.value)|);
    if |entries| > 1 {
      EntriesComplete(t, j + |Spell(e.value)| + |e.after| + 1, entries[1..],
                      Set(acc, MeansPieces(e.key), Means(e.value)), depth);
    }
  }

  lemma BracketedComplete(t: string, i: nat, v: Tree, depth: nat)
    requires v.Bracketed? && v.items != [] && Formed(v) && At(t, i, Spell(v)) && depth + Levels(v) <= MAX_DEPTH
    ensures Value(t, i, depth) == Got(Means(v), i + |Spell(v)|)
    decreases v, 0
  {
    assert Spell(v) == "[" + SpellItems(v.items) && FormedItems(v.items) && Levels(v) == ItemLevels(v.items);
    assert Means(v) == Arr(MeansItems(v.items));
    hide *;
    ArrayOpens(t, i, v.items, depth);
    ItemsComplete(t, i + 1, v.items, [], depth);
    assert [] + MeansItems(v.items) == MeansItems(v.items);
  }

  lemma BracedComplete(t: string, i: nat, v: Tree, depth: nat)
    requires v.Braced? && v.entries != [] && Formed(v) && At(t, i, Spell(v)) && depth + Levels(v) <= MAX_DEPTH
    ensures Value(t, i, depth) == Got(Means(v), i + |Spell(v)|)
    decreases v, 0
  {
    assert Spell(v) == "{" + SpellEntries(v.entries) && FormedEntries(v.entries) && Levels(v) == EntryLevels(v.entries);
    assert Means(v) == Obj(MeansEntries([], v.entries));
    hide *;
    ObjectOpens(t, i, v.entries, depth);
    EntriesComplete(t, i + 1, v.entries, [], depth);
  }

  /** A value that stands at `i`, with nothing behind it that a number could go on with, is read as what it means. */
  lemma {:induction false} ValueComplete(t: string, i: nat, v: Tree, depth: nat)
    requires Formed(v) && At(t, i, Spell(v)) && Stops(t, i + |Spell(v)|) && depth + Levels(v) <= MAX_DEPTH
    ensures Value(t, i, depth) == Got(Means(v), i + |Spell(v)|)
    decreases v, 1
  {
    hide *;
    match v
    case Word(_) => WordComplete(t, i, v, depth);
    case Numeral(_, _, _, _) => NumberComplete(t, i, v, depth);
    case Quoted(_) => QuotedComplete(t, i, v, depth);
    case Bracketed(_, items) =>
      if items == [] { EmptyComplete(t, i, v, depth); } else { BracketedComplete(t, i, v, depth); }
    case Braced(_, entries) =>
      if entries == [] { EmptyComplete(t, i, v, depth); } else { BracedComplete(t, i, v, depth); }
  }

  /** Every JSON text within the depth limit is parsed, to the value it stands for. */
  lemma DenotedIsParsed(t: string, v: Json)
    requires Denotes(t, v)
    ensures Parse(t) == Got(v, |t|)
  {
    var before, tree, after :| && Blank(before) && Formed(tree) && Blank(after) && Levels(tree) <= 64
                               && t == before + Spell(tree) + after && Means(tree) == v;
    DocumentComplete(t, before, tree, after);
  }

  lemma DocumentComplete(t: string, before: string, tree: Tree, after: string)
    requires Blank(before) && Formed(tree) && Blank(after) && Levels(tree) <= 64 && t == before + Spell(tree) + after
    ensures Parse(t) == Got(Means(tree), |t|)
  {
    hide Spell, Formed, Means, Levels, Value, SkipSpace, At;
    var i := |before|;
    var k := i + |Spell(tree)|;
    assert At(t, 0, before + (Spell(tree) + after)) by { AtWhole(t, before + (Spell(tree) + after)); }
    AtSplit(t, 0, before, Spell(tree) + after);
    AtSplit(t, i, Spell(tree), after);
    StartsAt(t, i, tree);
    SkipsBlank(t, 0, before);
    if after != "" {
      AtFirst(t, k, after, 0);
      assert after[0] in after;
    }
    ValueComplete(t, i, tree, 0);
    SkipsBlank(t, k, after);
  }

  lemma AtWhole(t: string, s: string)
    requires t == s
    ensures At(t, 0, s)
  {
    assert t[0..|s|] == s;
  }
}
