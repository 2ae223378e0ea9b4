/** Printing a JSON value and parsing the text gives the value back. */
module JsonRoundTrip {
  import opened Jobs
  import opened JsonModel

  // ---- texts ----

  lemma AtSplit(t: string, i: nat, a: string, b: string)
    ensures At(t, i, a + b) <==> At(t, i, a) && At(t, i + |a|, b)
  {
    if i + |a + b| <= |t| {
      var w := t[i..i + |a + b|];
      assert w[..|a|] == t[i..i + |a|] && w[|a|..] == t[i + |a|..i + |a| + |b|];
      assert w == w[..|a|] + w[|a|..];
      assert (a + b)[..|a|] == a && (a + b)[|a|..] == b;
    }
  }

  lemma AtFirst(t: string, i: nat, s: string, k: nat)
    requires At(t, i, s) && k < |s|
    ensures i + k < |t| && t[i + k] == s[k]
  {
    assert t[i..i + |s|][k] == s[k];
  }

  // ---- white space ----

  lemma {:induction false} SkipsSpace(t: string, i: nat, s: string)
    requires At(t, i, s) && (forall c <- s :: IsSpace(c)) && (i + |s| < |t| ==> !IsSpace(t[i + |s|]))
    ensures SkipSpace(t, i) == i + |s|
    decreases |s|
  {
    if s != "" {
      AtFirst(t, i, s, 0);
      AtSplit(t, i, s[..1], s[1..]);
      assert s[..1] + s[1..] == s;
      SkipsSpace(t, i + 1, s[1..]);
    }
  }

  lemma SkipsNewLine(t: string, i: nat, indent: int, depth: nat)
    requires At(t, i, NewLine(indent, depth))
    requires var j := i + |NewLine(indent, depth)|; j < |t| ==> !IsSpace(t[j])
    ensures SkipSpace(t, i) == i + |NewLine(indent, depth)|
  {
    SkipsSpace(t, i, NewLine(indent, depth));
  }

  // ---- integers ----

  lemma {:induction false} DecimalReads(n: nat)
    ensures var s := Decimal(n);
            s != "" && (forall c <- s :: IsDigit(c)) && DecimalValue(s) == n && (s[0] == '0' <==> n == 0)
    ensures n == 0 ==> Decimal(n) == "0"
  {
    if n >= 10 {
      DecimalReads(n / 10);
      assert Decimal(n)[..|Decimal(n)| - 1] == Decimal(n / 10);
    } else {
      assert Decimal(n)[..0] == "";
    }
  }

  lemma {:induction false} SkipsDigits(t: string, i: nat, s: string)
    requires At(t, i, s) && (forall c <- s :: IsDigit(c)) && !IsDigitAt(t, i + |s|)
    ensures SkipDigits(t, i) == i + |s|
    decreases |s|
  {
    if s != "" {
      AtFirst(t, i, s, 0);
      AtSplit(t, i, s[..1], s[1..]);
      assert s[..1] + s[1..] == s;
      SkipsDigits(t, i + 1, s[1..]);
    }
  }

  /** What the printer puts behind a value: nothing, or a character that ends a number. */
  predicate Ends(t: string, j: nat) {
    j == |t| || (j < |t| && (t[j] == ',' || t[j] == ']' || t[j] == '}' || t[j] == '\n'))
  }

  lemma IntegerEndReads(t: string, i: nat, n: int)
    requires At(t, i, PrintInt(n)) && Ends(t, i + |PrintInt(n)|)
    ensures IntegerEnd(t, i) == Got((), i + |PrintInt(n)|)
  {
    var m: nat := if n < 0 then -n else n;
    var j := if n < 0 then i + 1 else i;
    DecimalReads(m);
    if n < 0 { AtSplit(t, i, "-", Decimal(m)); AtFirst(t, i, "-", 0); }
    AtFirst(t, j, Decimal(m), 0);
    assert IsDigit(Decimal(m)[0]);
    if m > 0 { SkipsDigits(t, j, Decimal(m)); }
  }

  lemma NumberReads(t: string, i: nat, n: int)
    requires At(t, i, PrintInt(n)) && Fits64(n) && Ends(t, i + |PrintInt(n)|)
    ensures Number(t, i) == Got(Int(n), i + |PrintInt(n)|)
  {
    IntegerEndReads(t, i, n);
    var m: nat := if n < 0 then -n else n;
    DecimalReads(m);
    var raw := t[i..i + |PrintInt(n)|];
    assert raw == PrintInt(n);
    if n < 0 {
      assert raw[1..] == Decimal(m);
    } else {
      assert IsDigit(raw[0]);
    }
    assert IntValue(raw) == n;
  }

  // ---- strings ----

  lemma HexReads(d: nat)
    requires d < 16
    ensures HexValue(HexDigit(d)) == d
  {
  }

  lemma ControlReads(t: string, i: nat, c: char)
    requires c < ' ' && At(t, i, ['0', '0', HexDigit(c as int / 16), HexDigit(c as int % 16)])
    ensures UnicodeEscape(t, i) == Got([c], i + 4)
  {
    var s := ['0', '0', HexDigit(c as int / 16), HexDigit(c as int % 16)];
    AtFirst(t, i, s, 0);
    AtFirst(t, i, s, 1);
    AtFirst(t, i, s, 2);
    AtFirst(t, i, s, 3);
    HexReads(c as int / 16);
    HexReads(c as int % 16);
    assert HexValue('0') == 0;
    assert Hex4(t, i) == Got(c as int, i + 4);
  }

  lemma EscapeReads(t: string, i: nat, c: char, out: string)
    requires At(t, i, Escape(c))
    ensures StringRest(t, i, out) == StringRest(t, i + |Escape(c)|, out + [c])
  {
    var e := Escape(c);
    AtFirst(t, i, e, 0);
    if |e| > 1 {
      AtFirst(t, i, e, 1);
      if |e| > 2 {
        AtSplit(t, i, e[..2], e[2..]);
        assert e[..2] + e[2..] == e;
        ControlReads(t, i + 2, c);
      }
    }
  }

  lemma {:induction false} StringReads(t: string, i: nat, s: string, out: string)
    requires At(t, i, EscapeAll(s) + "\"")
    ensures StringRest(t, i, out) == Got(out + s, i + |EscapeAll(s)| + 1)
    decreases |s|
  {
    hide Escape, Unescape, At;
    AtSplit(t, i, EscapeAll(s), "\"");
    if s == "" {
      AtFirst(t, i, "\"", 0);
      assert out + s == out;
    } else {
      AtSplit(t, i, Escape(s[0]), EscapeAll(s[1..]));
      AtSplit(t, i + |Escape(s[0])|, EscapeAll(s[1..]), "\"");
      EscapeReads(t, i, s[0], out);
      StringReads(t, i + |Escape(s[0])|, s[1..], out + [s[0]]);
      assert out + [s[0]] + s[1..] == out + s;
    }
  }

  lemma QuoteReads(t: string, i: nat, s: string)
    requires At(t, i, Quote(s))
    ensures i < |t| && t[i] == '"' && StringRest(t, i + 1, "") == Got(s, i + |Quote(s)|)
  {
    AtFirst(t, i, Quote(s), 0);
    assert Quote(s) == "\"" + (EscapeAll(s) + "\"");
    AtSplit(t, i, "\"", EscapeAll(s) + "\"");
    StringReads(t, i + 1, s, "");
    assert "" + s == s;
  }

  // ---- values ----

  /** No floating-point number, and every integer one of 64 bits. */
  predicate Plain(v: Json) {
    match v
    case Int(n) => Fits64(n)
    case Real(_) => false
    case Arr(items) => forall x <- items :: Plain(x)
    case Obj(members) => forall m <- members :: Plain(m.value)
    case _ => true
  }

  function Max(a: nat, b: nat): nat { if a < b then b else a }

  /** How deep a value nests: containers around its deepest element. */
  function Depth(v: Json): nat {
    match v
    case Arr(items) => DeepestItem(items)
    case Obj(members) => DeepestMember(members)
    case _ => 0
  }

  function DeepestItem(items: seq<Json>): nat {
    if items == [] then 0 else Max(1 + Depth(items[0]), DeepestItem(items[1..]))
  }

  function DeepestMember(members: seq<Member>): nat {
    if members == [] then 0 else Max(1 + Depth(members[0].value), DeepestMember(members[1..]))
  }

  /** The value with the repeated keys of its objects merged: the last value, in the first place. */
  function Merged(v: Json): Json {
    match v
    case Arr(items) => Arr(MergedItems(items))
    case Obj(members) => Obj(SetAll([], members))
    case _ => v
  }

  function MergedItems(items: seq<Json>): seq<Json> {
    if items == [] then [] else [Merged(items[0])] + MergedItems(items[1..])
  }

  function SetAll(members: seq<Member>, more: seq<Member>): seq<Member>
    decreases more
  {
    if more == [] then members else SetAll(Set(members, more[0].key, Merged(more[0].value)), more[1..])
  }

  /** The keys of every object are pairwise distinct. */
  predicate DistinctKeys(v: Json) {
    match v
    case Arr(items) => forall x <- items :: DistinctKeys(x)
    case Obj(members) =>
      && (forall i, j :: 0 <= i < j < |members| ==> members[i].key != members[j].key)
      && forall m <- members :: DistinctKeys(m.value)
    case _ => true
  }

  lemma {:induction false} SetNewKey(members: seq<Member>, key: string, value: Json)
    requires forall m <- members :: m.key != key
    ensures Set(members, key, value) == members + [Member(key, value)]
  {
    if members != [] {
      SetNewKey(members[1..], key, value);
      assert members == [members[0]] + members[1..];
    }
  }

  function Keys(members: seq<Member>): seq<string> {
    if members == [] then [] else [members[0].key] + Keys(members[1..])
  }

  /** Json::find: the first member with the key. */
  function Find(members: seq<Member>, key: string): Option<Json> {
    if members == [] then None else if members[0].key == key then Some(members[0].value) else Find(members[1..], key)
  }

  /** After a set the key has the value, every other key has what it had, and no key moves. */
  lemma {:induction false} SetThenFind(members: seq<Member>, key: string, value: Json, other: string)
    ensures Find(Set(members, key, value), other) == if other == key then Some(value) else Find(members, other)
    ensures Keys(Set(members, key, value)) == if key in Keys(members) then Keys(members) else Keys(members) + [key]
  {
    if members != [] {
      SetThenFind(members[1..], key, value, other);
      var s := Set(members, key, value);
      if members[0].key == key {
        assert s[1..] == members[1..];
      } else {
        assert s[1..] == Set(members[1..], key, value);
      }
    } else {
      var s := Set(members, key, value);
      assert s[1..] == [];
    }
  }

  // ---- reading back what was printed ----

  /** The first character printed for a value is neither white space nor a closing bracket. */
  lemma DumpStarts(v: Json, indent: int, depth: nat)
    requires Plain(v)
    ensures var s := Dump(v, indent, depth); s != "" && !IsSpace(s[0]) && s[0] != ']' && s[0] != '}'
  {
    if v.Int? {
      var m: nat := if v.n < 0 then -v.n else v.n;
      DecimalReads(m);
      assert IsDigit(Decimal(m)[0]);
    }
  }

  /** The claim for one value: parsing at a printed value gives it back, unless it nests too deep from here. */
  ghost predicate ReadsBack(v: Json, t: string, i: nat, indent: int, depth: nat) {
    Value(t, i, depth) == if depth + Depth(v) <= MAX_DEPTH then Got(Merged(v), i + |Dump(v, indent, depth)|) else Fail
  }

  lemma WordReads(v: Json, t: string, i: nat, indent: int, depth: nat)
    requires v.Null? || v.Bool?
    requires At(t, i, Dump(v, indent, depth))
    ensures ReadsBack(v, t, i, indent, depth)
  {
    AtFirst(t, i, Dump(v, indent, depth), 0);
  }

  lemma IntReads(n: int, t: string, i: nat, indent: int, depth: nat)
    requires Fits64(n) && At(t, i, PrintInt(n)) && Ends(t, i + |PrintInt(n)|)
    ensures ReadsBack(Int(n), t, i, indent, depth)
  {
    hide Number, Decimal, At;
    var m: nat := if n < 0 then -n else n;
    DecimalReads(m);
    assert IsDigit(Decimal(m)[0]);
    AtFirst(t, i, PrintInt(n), 0);
    NumberReads(t, i, n);
  }

  lemma StrReads(s: string, t: string, i: nat, indent: int, depth: nat)
    requires At(t, i, Quote(s))
    ensures ReadsBack(Str(s), t, i, indent, depth)
  {
    hide StringRest, Quote, At;
    QuoteReads(t, i, s);
  }

  lemma EmptyReads(v: Json, t: string, i: nat, indent: int, depth: nat)
    requires v == Arr([]) || v == Obj([])
    requires At(t, i, Dump(v, indent, depth))
    ensures ReadsBack(v, t, i, indent, depth)
  {
    hide Elements, Members;
    var s := Dump(v, indent, depth);
    AtFirst(t, i, s, 0);
    AtFirst(t, i, s, 1);
    assert SkipSpace(t, i + 1) == i + 1;
    assert Depth(v) == 0 && Merged(v) == v;
    if v.Arr? {
      assert Array(t, i, depth) == Got(v, i + 2);
    } else {
      assert Object(t, i, depth) == Got(v, i + 2);
    }
  }

  lemma {:induction false} ValueReads(v: Json, t: string, i: nat, indent: int, depth: nat)
    requires Plain(v) && At(t, i, Dump(v, indent, depth)) && Ends(t, i + |Dump(v, indent, depth)|)
    ensures ReadsBack(v, t, i, indent, depth)
    decreases v
  {
    hide At, Ends, ReadsBack, Value;
    match v
    case Arr(items) =>
      if items != [] { ArrayReads(items, t, i, indent, depth); } else { EmptyReads(v, t, i, indent, depth); }
    case Obj(members) =>
      if members != [] { ObjectReads(members, t, i, indent, depth); } else { EmptyReads(v, t, i, indent, depth); }
    case Int(n) => IntReads(n, t, i, indent, depth);
    case Str(s) => StrReads(s, t, i, indent, depth);
    case _ => WordReads(v, t, i, indent, depth);
  }

  // ---- containers: how the printer and the parser unfold ----

  /** What closes a container: the line break before the bracket, and the bracket. */
  function Close(indent: int, depth: nat, bracket: char): string { NewLine(indent, depth) + [bracket] }

  lemma CloseReads(t: string, i: nat, indent: int, depth: nat, bracket: char)
    requires At(t, i, Close(indent, depth, bracket)) && (bracket == ']' || bracket == '}')
    ensures Ends(t, i)
    ensures var k := SkipSpace(t, i); k < |t| && t[k] == bracket && k + 1 == i + |Close(indent, depth, bracket)|
  {
    var n := NewLine(indent, depth);
    AtSplit(t, i, n, [bracket]);
    AtFirst(t, i + |n|, [bracket], 0);
    SkipsNewLine(t, i, indent, depth);
    if n != "" { AtFirst(t, i, n, 0); }
  }

  /** A comma behind a value ends it, and the parser goes on behind the comma. */
  lemma CommaReads(t: string, i: nat, rest: string)
    requires At(t, i, "," + rest)
    ensures i < |t| && t[i] == ',' && Ends(t, i) && SkipSpace(t, i) == i && At(t, i + 1, rest)
  {
    AtSplit(t, i, ",", rest);
    AtFirst(t, i, ",", 0);
  }

  lemma ElementsStep(t: string, i: nat, depth: nat, acc: seq<Json>, v: Json, next: nat)
    requires i <= |t| && Value(t, SkipSpace(t, i), depth + 1) == Got(v, next)
    ensures next <= |t|
    ensures var k := SkipSpace(t, next);
            k < |t| ==>
              && (t[k] == ',' ==> Elements(t, i, depth, acc) == Elements(t, k + 1, depth, acc + [v]))
              && (t[k] == ']' ==> Elements(t, i, depth, acc) == Got(Arr(acc + [v]), k + 1))
  {
    hide Value, SkipSpace;
  }

  lemma ElementsFail(t: string, i: nat, depth: nat, acc: seq<Json>)
    requires i <= |t| && Value(t, SkipSpace(t, i), depth + 1) == Fail
    ensures Elements(t, i, depth, acc) == Fail
  {
    hide Value, SkipSpace;
  }

  lemma ArrayStarts(t: string, i: nat, depth: nat)
    requires i < |t| && t[i] == '['
    requires var j := SkipSpace(t, i + 1); j < |t| && t[j] != ']' && SkipSpace(t, j) == j
    ensures Value(t, i, depth) == if depth <= MAX_DEPTH then Elements(t, i + 1, depth, []) else Fail
  {
    hide SkipSpace;
    var j := SkipSpace(t, i + 1);
    assert Array(t, i, depth) == Elements(t, j, depth, []) == Elements(t, i + 1, depth, []);
  }

  lemma DumpArray(items: seq<Json>, indent: int, depth: nat)
    requires items != []
    ensures Dump(Arr(items), indent, depth) == "[" + (DumpItems(items, indent, depth + 1) + Close(indent, depth, ']'))
  {
    hide DumpItems, NewLine;
  }

  lemma DumpItem(items: seq<Json>, indent: int, depth: nat, close: string)
    requires items != []
    ensures var item := NewLine(indent, depth) + Dump(items[0], indent, depth);
            DumpItems(items, indent, depth) + close ==
              item + if |items| == 1 then close else "," + (DumpItems(items[1..], indent, depth) + close)
  {
    hide Dump, NewLine;
  }

  /** From the start of an element: its value is next, behind white space. */
  lemma ItemStarts(v: Json, t: string, i: nat, indent: int, depth: nat)
    requires Plain(v) && At(t, i, NewLine(indent, depth) + Dump(v, indent, depth))
    ensures var j := SkipSpace(t, i);
            && j == i + |NewLine(indent, depth)| && j < |t| && t[j] != ']' && t[j] != '}' && SkipSpace(t, j) == j
            && At(t, j, Dump(v, indent, depth))
  {
    hide At, Dump;
    var n, d := NewLine(indent, depth), Dump(v, indent, depth);
    AtSplit(t, i, n, d);
    DumpStarts(v, indent, depth);
    AtFirst(t, i + |n|, d, 0);
    SkipsNewLine(t, i, indent, depth);
  }

  lemma {:induction false} ArrayReads(items: seq<Json>, t: string, i: nat, indent: int, depth: nat)
    requires items != [] && Plain(Arr(items)) && At(t, i, Dump(Arr(items), indent, depth))
    ensures ReadsBack(Arr(items), t, i, indent, depth)
    decreases items, |items| + 1
  {
    hide At, Dump, DumpItems, NewLine, Close, Elements, Value;
    var close := Close(indent, depth, ']');
    var body := DumpItems(items, indent, depth + 1) + close;
    DumpArray(items, indent, depth);
    AtSplit(t, i, "[", body);
    AtFirst(t, i, "[", 0);
    DumpItem(items, indent, depth + 1, close);
    AtSplit(t, i + 1, NewLine(indent, depth + 1) + Dump(items[0], indent, depth + 1),
            if |items| == 1 then close else "," + (DumpItems(items[1..], indent, depth + 1) + close));
    ItemStarts(items[0], t, i + 1, indent, depth + 1);
    ArrayStarts(t, i, depth);
    if depth <= MAX_DEPTH {
      ItemsRead(items, [], t, i + 1, indent, depth);
      assert [] + MergedItems(items) == MergedItems(items);
    }
  }

  lemma Regroup(a: seq<Json>, x: Json, b: seq<Json>)
    ensures a + ([x] + b) == a + [x] + b
    ensures b == [] ==> a + ([x] + b) == a + [x]
  {
  }

  lemma DeepestFirst(items: seq<Json>)
    requires items != []
    ensures DeepestItem(items) == Max(1 + Depth(items[0]), DeepestItem(items[1..]))
    ensures |items| == 1 ==> DeepestItem(items[1..]) == 0
  {
    hide Depth;
  }

  lemma MergedFirst(items: seq<Json>)
    requires items != []
    ensures MergedItems(items) == [Merged(items[0])] + MergedItems(items[1..])
    ensures |items| == 1 ==> MergedItems(items[1..]) == []
  {
    hide Merged;
  }

  lemma {:induction false} ItemsRead(items: seq<Json>, acc: seq<Json>, t: string, i: nat, indent: int, depth: nat)
    requires items != [] && (forall x <- items :: Plain(x)) && depth <= MAX_DEPTH
    requires At(t, i, DumpItems(items, indent, depth + 1) + Close(indent, depth, ']'))
    ensures i <= |t|
    ensures Elements(t, i, depth, acc) ==
              if depth + DeepestItem(items) <= MAX_DEPTH
              then Got(Arr(acc + MergedItems(items)),
                       i + |DumpItems(items, indent, depth + 1) + Close(indent, depth, ']')|)
              else Fail
    decreases items, |items|
  {
    hide At, Dump, DumpItems, NewLine, Close, Elements, Value, SkipSpace, Depth, Merged, Plain, Ends, DeepestItem,
         MergedItems;
    DeepestFirst(items);
    MergedFirst(items);
    Regroup(acc, Merged(items[0]), MergedItems(items[1..]));
    var v, close := items[0], Close(indent, depth, ']');
    var d := Dump(v, indent, depth + 1);
    var item := NewLine(indent, depth + 1) + d;
    DumpItem(items, indent, depth + 1, close);
    if |items| == 1 {
      AtSplit(t, i, item, close);
      CloseReads(t, i + |item|, indent, depth, ']');
    } else {
      AtSplit(t, i, item, "," + (DumpItems(items[1..], indent, depth + 1) + close));
      CommaReads(t, i + |item|, DumpItems(items[1..], indent, depth + 1) + close);
    }
    ItemStarts(v, t, i, indent, depth + 1);
    var j := SkipSpace(t, i);
    ValueReads(v, t, j, indent, depth + 1);
    if depth + 1 + Depth(v) > MAX_DEPTH {
      ElementsFail(t, i, depth, acc);
    } else {
      ElementsStep(t, i, depth, acc, Merged(v), j + |d|);
      if |items| > 1 { ItemsRead(items[1..], acc + [Merged(v)], t, i + |item| + 1, indent, depth); }
    }
  }

  lemma MembersStep(t: string, i: nat, depth: nat, acc: seq<Member>, key: string, j: nat, v: Json, next: nat)
    requires i <= |t| && Key(t, i) == Got(key, j) && Value(t, j, depth + 1) == Got(v, next)
    ensures next <= |t|
    ensures var k := SkipSpace(t, next);
            k < |t| ==>
              && (t[k] == ',' ==> Members(t, i, depth, acc) == Members(t, k + 1, depth, Set(acc, key, v)))
              && (t[k] == '}' ==> Members(t, i, depth, acc) == Got(Obj(Set(acc, key, v)), k + 1))
  {
    hide Value, SkipSpace, Key, Set;
  }

  lemma MembersFail(t: string, i: nat, depth: nat, acc: seq<Member>, key: string, j: nat)
    requires i <= |t| && Key(t, i) == Got(key, j) && Value(t, j, depth + 1) == Fail
    ensures Members(t, i, depth, acc) == Fail
  {
    hide Value, SkipSpace, Key;
  }

  /** White space that was already skipped makes no difference. */
  lemma ObjectStarts(t: string, i: nat, depth: nat)
    requires i < |t| && t[i] == '{'
    requires var j := SkipSpace(t, i + 1); j < |t| && t[j] != '}' && SkipSpace(t, j) == j
    ensures Value(t, i, depth) == if depth <= MAX_DEPTH then Members(t, i + 1, depth, []) else Fail
  {
    hide SkipSpace;
    var j := SkipSpace(t, i + 1);
    assert Key(t, j) == Key(t, i + 1);
    assert Object(t, i, depth) == Members(t, j, depth, []) == Members(t, i + 1, depth, []);
  }

  lemma DumpObject(members: seq<Member>, indent: int, depth: nat)
    requires members != []
    ensures Dump(Obj(members), indent, depth) ==
            "{" + (DumpMembers(members, indent, depth + 1) + Close(indent, depth, '}'))
  {
    hide DumpMembers, NewLine;
  }

  lemma DumpFirst(members: seq<Member>, indent: int, depth: nat, close: string)
    requires members != []
    ensures DumpMembers(members, indent, depth) + close ==
              DumpMember(members[0], indent, depth) +
              if |members| == 1 then close else "," + (DumpMembers(members[1..], indent, depth) + close)
  {
    hide DumpMember;
  }

  lemma ColonReads(t: string, i: nat, indent: int, rest: string)
    requires At(t, i, Colon(indent) + rest) && rest != "" && !IsSpace(rest[0])
    ensures var j := i + |Colon(indent)|;
            && i < |t| && t[i] == ':' && SkipSpace(t, i) == i && SkipSpace(t, i + 1) == j && At(t, j, rest)
  {
    var c := Colon(indent);
    AtSplit(t, i, c, rest);
    AtFirst(t, i, c, 0);
    AtFirst(t, i + |c|, rest, 0);
    if indent > 0 { AtFirst(t, i, c, 1); }
  }

  /** From the start of a member: its key is read, and its value is next. */
  lemma MemberStarts(m: Member, t: string, i: nat, indent: int, depth: nat)
    requires Plain(m.value) && At(t, i, DumpMember(m, indent, depth))
    ensures i <= |t| && var j := SkipSpace(t, i); j < |t| && t[j] != '}' && SkipSpace(t, j) == j
    ensures var j := i + |DumpMember(m, indent, depth)| - |Dump(m.value, indent, depth)|;
            j >= 0 && Key(t, i) == Got(m.key, j) && At(t, j, Dump(m.value, indent, depth))
  {
    hide At, Dump, Quote, StringRest, Plain, Colon, NewLine;
    var n, q, c, d := NewLine(indent, depth), Quote(m.key), Colon(indent), Dump(m.value, indent, depth);
    assert DumpMember(m, indent, depth) == n + (q + (c + d));
    AtSplit(t, i, n, q + (c + d));
    AtSplit(t, i + |n|, q, c + d);
    QuoteReads(t, i + |n|, m.key);
    SkipsNewLine(t, i, indent, depth);
    DumpStarts(m.value, indent, depth);
    ColonReads(t, i + |n| + |q|, indent, d);
  }

  lemma {:induction false} ObjectReads(members: seq<Member>, t: string, i: nat, indent: int, depth: nat)
    requires members != [] && Plain(Obj(members)) && At(t, i, Dump(Obj(members), indent, depth))
    ensures ReadsBack(Obj(members), t, i, indent, depth)
    decreases members, |members| + 1
  {
    hide At, Dump, DumpMembers, DumpMember, NewLine, Close, Members, Value;
    var close := Close(indent, depth, '}');
    var body := DumpMembers(members, indent, depth + 1) + close;
    DumpObject(members, indent, depth);
    AtSplit(t, i, "{", body);
    AtFirst(t, i, "{", 0);
    DumpFirst(members, indent, depth + 1, close);
    AtSplit(t, i + 1, DumpMember(members[0], indent, depth + 1),
            if |members| == 1 then close else "," + (DumpMembers(members[1..], indent, depth + 1) + close));
    MemberStarts(members[0], t, i + 1, indent, depth + 1);
    ObjectStarts(t, i, depth);
    if depth <= MAX_DEPTH { MembersRead(members, [], t, i + 1, indent, depth); }
  }

  lemma {:induction false} MembersRead(members: seq<Member>, acc: seq<Member>, t: string, i: nat, indent: int,
                                       depth: nat)
    requires members != [] && (forall m <- members :: Plain(m.value)) && depth <= MAX_DEPTH
    requires At(t, i, DumpMembers(members, indent, depth + 1) + Close(indent, depth, '}'))
    ensures i <= |t|
    ensures Members(t, i, depth, acc) ==
              if depth + DeepestMember(members) <= MAX_DEPTH
              then Got(Obj(SetAll(acc, members)),
                       i + |DumpMembers(members, indent, depth + 1) + Close(indent, depth, '}')|)
              else Fail
    decreases members, |members|
  {
    hide At, Dump, DumpMembers, DumpMember, NewLine, Close, Members, Value, SkipSpace, Depth, Merged, Plain, Ends,
         Key, Set;
    var m, close := members[0], Close(indent, depth, '}');
    var d, item := Dump(m.value, indent, depth + 1), DumpMember(m, indent, depth + 1);
    DumpFirst(members, indent, depth + 1, close);
    if |members| == 1 {
      AtSplit(t, i, item, close);
      CloseReads(t, i + |item|, indent, depth, '}');
    } else {
      AtSplit(t, i, item, "," + (DumpMembers(members[1..], indent, depth + 1) + close));
      CommaReads(t, i + |item|, DumpMembers(members[1..], indent, depth + 1) + close);
    }
    MemberStarts(m, t, i, indent, depth + 1);
    var j := i + |item| - |d|;
    ValueReads(m.value, t, j, indent, depth + 1);
    if depth + 1 + Depth(m.value) > MAX_DEPTH {
      MembersFail(t, i, depth, acc, m.key, j);
    } else {
      MembersStep(t, i, depth, acc, m.key, j, Merged(m.value), j + |d|);
      if |members| == 1 {
        assert members[1..] == [];
      } else {
        MembersRead(members[1..], Set(acc, m.key, Merged(m.value)), t, i + |item| + 1, indent, depth);
      }
    }
  }

  // ---- the theorem ----

  /**
   * For every value without floating-point numbers, parsing what dump() or dump_pretty() prints fails if it
   * nests deeper than the parser allows, and otherwise gives the value with repeated keys merged.
   */
  lemma ParseDump(v: Json, indent: int)
    requires Plain(v)
    ensures Parse(Dump(v, indent, 0)) == if Depth(v) <= MAX_DEPTH then Got(Merged(v), |Dump(v, indent, 0)|) else Fail
  {
    hide Dump, Value;
    var t := Dump(v, indent, 0);
    DumpStarts(v, indent, 0);
    assert t[0..0 + |t|] == t;
    ValueReads(v, t, 0, indent, 0);
  }

  /** Nothing is merged when keys are distinct. */
  lemma {:induction false} MergedIsSame(v: Json)
    requires DistinctKeys(v)
    ensures Merged(v) == v
    decreases v
  {
    match v
    case Arr(items) => ItemsAreSame(items);
    case Obj(members) => MembersAreSame([], members);
    case _ =>
  }

  lemma {:induction false} ItemsAreSame(items: seq<Json>)
    requires forall x <- items :: DistinctKeys(x)
    ensures MergedItems(items) == items
    decreases items
  {
    if items != [] {
      MergedIsSame(items[0]);
      ItemsAreSame(items[1..]);
    }
  }

  lemma {:induction false} MembersAreSame(done: seq<Member>, more: seq<Member>)
    requires forall i, j :: 0 <= i < j < |done + more| ==> (done + more)[i].key != (done + more)[j].key
    requires forall m <- more :: DistinctKeys(m.value)
    ensures SetAll(done, more) == done + more
    decreases more
  {
    if more != [] {
      var m := more[0];
      MergedIsSame(m.value);
      forall x <- done ensures x.key != m.key {
        var i :| 0 <= i < |done| && done[i] == x;
        assert (done + more)[i] == x && (done + more)[|done|] == m;
      }
      SetNewKey(done, m.key, m.value);
      assert done + [m] + more[1..] == done + more;
      MembersAreSame(done + [m], more[1..]);
    } else {
      assert done + more == done;
    }
  }

  ghost predicate Unique(members: seq<Member>) {
    && (forall i, j :: 0 <= i < j < |members| ==> members[i].key != members[j].key)
    && forall m <- members :: DistinctKeys(m.value)
  }

  /** Merging leaves distinct keys. */
  lemma {:induction false} MergedIsDistinct(v: Json)
    ensures DistinctKeys(Merged(v))
    decreases v
  {
    match v
    case Arr(items) => ItemsAreDistinct(items);
    case Obj(members) => SetAllIsUnique([], members);
    case _ =>
  }

  lemma {:induction false} ItemsAreDistinct(items: seq<Json>)
    ensures forall x <- MergedItems(items) :: DistinctKeys(x)
    decreases items
  {
    if items != [] {
      MergedIsDistinct(items[0]);
      ItemsAreDistinct(items[1..]);
    }
  }

  lemma {:induction false} SetAllIsUnique(done: seq<Member>, more: seq<Member>)
    requires Unique(done)
    ensures Unique(SetAll(done, more))
    decreases more
  {
    if more != [] {
      MergedIsDistinct(more[0].value);
      SetIsUnique(done, more[0].key, Merged(more[0].value));
      SetAllIsUnique(Set(done, more[0].key, Merged(more[0].value)), more[1..]);
    }
  }

  lemma {:induction false} SetIsUnique(members: seq<Member>, key: string, value: Json)
    requires Unique(members) && DistinctKeys(value)
    ensures Unique(Set(members, key, value))
    ensures forall m <- Set(members, key, value) :: m.key == key || exists x <- members :: x.key == m.key
  {
    hide DistinctKeys;
    if members != [] {
      var first, rest := members[0], members[1..];
      UniqueTail(members);
      SetIsUnique(rest, key, value);
      if first.key == key {
        UniqueCons(Member(key, value), rest);
      } else {
        UniqueCons(first, Set(rest, key, value));
      }
    }
  }

  lemma UniqueTail(members: seq<Member>)
    requires Unique(members) && members != []
    ensures Unique(members[1..]) && DistinctKeys(members[0].value) && forall x <- members[1..] ::
            x.key != members[0].key && x in members
  {
    hide DistinctKeys;
    forall x <- members[1..] ensures x.key != members[0].key && x in members {
      var i :| 0 <= i < |members[1..]| && members[1..][i] == x;
      assert members[i + 1] == x;
    }
  }

  lemma UniqueCons(m: Member, rest: seq<Member>)
    requires Unique(rest) && DistinctKeys(m.value) && forall x <- rest :: x.key != m.key
    ensures Unique([m] + rest)
  {
    hide DistinctKeys;
  }

  /** Printing and parsing is the identity exactly on values that nest at most 64 deep and have distinct keys. */
  lemma RoundTripIff(v: Json, indent: int)
    requires Plain(v)
    ensures Parse(Dump(v, indent, 0)) == Got(v, |Dump(v, indent, 0)|) <==> Depth(v) <= MAX_DEPTH && DistinctKeys(v)
  {
    hide Dump, Parse, Merged, DistinctKeys, Depth;
    ParseDump(v, indent);
    MergedIsDistinct(v);
    if DistinctKeys(v) { MergedIsSame(v); }
  }
}
