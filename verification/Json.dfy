/** The JSON parser and printer as they run: a cursor that moves over the text, and an output that grows. */
module JsonText {
  import opened JsonModel
  import opened JsonGrammar
  import opened JsonDerives

  // ---- members ----

  /** A prefix without the key stays in front of what set does to the rest. */
  lemma {:induction false} SetBehind(members: seq<Member>, key: string, value: Json, k: nat)
    requires k <= |members| && forall i :: 0 <= i < k ==> members[i].key != key
    ensures Set(members, key, value) == members[..k] + Set(members[k..], key, value)
    decreases k
  {
    if k == 0 {
      assert members[0..] == members;
    } else {
      SetBehind(members[1..], key, value, k - 1);
      assert members[..k] == [members[0]] + members[1..][..k - 1] && members[1..][k - 1..] == members[k..];
    }
  }

  method SetMember(members: seq<Member>, key: string, value: Json) returns (r: seq<Member>)
    ensures r == Set(members, key, value)
  {
    for k := 0 to |members|
      invariant forall i :: 0 <= i < k ==> members[i].key != key
    {
      if members[k].key == key {
        SetBehind(members, key, value, k);
        assert members[k..][1..] == members[k + 1..];
        assert members[..k] + ([Member(key, value)] + members[k + 1..]) == members[k := Member(key, value)];
        return members[k := Member(key, value)];
      }
    }
    SetBehind(members, key, value, |members|);
    assert members[..|members|] == members;
    return members + [Member(key, value)];
  }

  // ---- printing ----

  lemma EscapeNext(r: string, s: string, k: nat)
    requires k < |s|
    ensures r + EscapeAll(s[k..]) == r + Escape(s[k]) + EscapeAll(s[k + 1..])
  {
    hide Escape;
    assert s[k..][1..] == s[k + 1..];
    assert r + (Escape(s[k]) + EscapeAll(s[k + 1..])) == r + Escape(s[k]) + EscapeAll(s[k + 1..]);
  }

  lemma QuoteParts(out: string, s: string)
    ensures out + Quote(s) == out + "\"" + EscapeAll(s) + "\""
    ensures EscapeAll(s[|s|..]) == "" && s[0..] == s
  {
    Appended(out, "\"", EscapeAll(s), "\"", "");
    assert s[|s|..] == "";
  }

  method EscapeInto(s: string, out: string) returns (r: string)
    ensures r == out + Quote(s)
  {
    hide Escape, EscapeAll, Quote;
    QuoteParts(out, s);
    r := out + "\"";
    for k := 0 to |s|
      invariant out + "\"" + EscapeAll(s) == r + EscapeAll(s[k..])
    {
      EscapeNext(r, s, k);
      r := r + Escape(s[k]);
    }
    assert r + "" == r;
    r := r + "\"";
  }

  /** What is still to be printed of the elements from the k-th on. */
  function ItemsFrom(items: seq<Json>, k: nat, indent: int, depth: nat): string
    requires k <= |items|
  {
    if k == |items| then "" else (if k == 0 then "" else ",") + DumpItems(items[k..], indent, depth)
  }

  lemma ItemsFromStep(items: seq<Json>, k: nat, indent: int, depth: nat)
    requires k < |items|
    ensures ItemsFrom(items, k, indent, depth) ==
              (if k == 0 then "" else ",") + NewLine(indent, depth) + Dump(items[k], indent, depth) +
                ItemsFrom(items, k + 1, indent, depth)
  {
    hide Dump, NewLine;
    assert items[k..][0] == items[k] && items[k..][1..] == items[k + 1..];
    if k + 1 == |items| {
      assert DumpItems(items[k..], indent, depth) == NewLine(indent, depth) + Dump(items[k], indent, depth) + "";
    } else {
      assert DumpItems(items[k..], indent, depth) ==
             NewLine(indent, depth) + Dump(items[k], indent, depth) + ("," + DumpItems(items[k + 1..], indent, depth));
    }
  }

  function MembersFrom(members: seq<Member>, k: nat, indent: int, depth: nat): string
    requires k <= |members|
  {
    if k == |members| then "" else (if k == 0 then "" else ",") + DumpMembers(members[k..], indent, depth)
  }

  lemma MembersFromStep(members: seq<Member>, k: nat, indent: int, depth: nat)
    requires k < |members|
    ensures MembersFrom(members, k, indent, depth) ==
              (if k == 0 then "" else ",") + DumpMember(members[k], indent, depth) +
                MembersFrom(members, k + 1, indent, depth)
  {
    hide DumpMember;
    assert members[k..][0] == members[k] && members[k..][1..] == members[k + 1..];
    if k + 1 == |members| {
      assert DumpMembers(members[k..], indent, depth) == DumpMember(members[k], indent, depth) + "";
    } else {
      assert DumpMembers(members[k..], indent, depth) ==
             DumpMember(members[k], indent, depth) + ("," + DumpMembers(members[k + 1..], indent, depth));
    }
  }

  method DumpInto(v: Json, out: string, indent: int, depth: nat) returns (r: string)
    ensures r == out + Dump(v, indent, depth)
    decreases v
  {
    match v
    case Null => r := out + "null";
    case Bool(b) => r := out + if b then "true" else "false";
    case Int(n) => r := out + PrintInt(n);
    case Real(raw) => r := out + raw;
    case Str(s) => r := EscapeInto(s, out);
    case Arr(items) =>
      if items == [] { return out + "[]"; }
      r := DumpItemsInto(items, out + "[", indent, depth + 1);
      r := r + NewLine(indent, depth) + "]";
      Appended(out, "[", DumpItems(items, indent, depth + 1), NewLine(indent, depth), "]");
    case Obj(members) =>
      if members == [] { return out + "{}"; }
      r := DumpMembersInto(members, out + "{", indent, depth + 1);
      r := r + NewLine(indent, depth) + "}";
      Appended(out, "{", DumpMembers(members, indent, depth + 1), NewLine(indent, depth), "}");
  }

  lemma ItemsFromStart(items: seq<Json>, indent: int, depth: nat)
    requires items != []
    ensures ItemsFrom(items, 0, indent, depth) == DumpItems(items, indent, depth)
  {
    hide DumpItems;
    assert items[0..] == items;
    assert "" + DumpItems(items, indent, depth) == DumpItems(items, indent, depth);
  }

  method DumpItemsInto(items: seq<Json>, out: string, indent: int, depth: nat) returns (r: string)
    requires items != []
    ensures r == out + DumpItems(items, indent, depth)
    decreases items
  {
    hide Dump, DumpItems, NewLine, ItemsFrom;
    r := out;
    ItemsFromStart(items, indent, depth);
    for k := 0 to |items|
      invariant r + ItemsFrom(items, k, indent, depth) == out + DumpItems(items, indent, depth)
    {
      ghost var before, comma, rest := r, if k == 0 then "" else ",", ItemsFrom(items, k + 1, indent, depth);
      ItemsFromStep(items, k, indent, depth);
      if k != 0 { r := r + ","; }
      r := r + NewLine(indent, depth);
      r := DumpInto(items[k], r, indent, depth);
      Appended(before, comma, NewLine(indent, depth), Dump(items[k], indent, depth), rest);
      assert before + comma == if k == 0 then before else before + ",";
    }
    ItemsDone(items, indent, depth);
    assert r + "" == r;
  }

  lemma ItemsDone(items: seq<Json>, indent: int, depth: nat)
    ensures ItemsFrom(items, |items|, indent, depth) == ""
  {
  }

  lemma MembersFromStart(members: seq<Member>, indent: int, depth: nat)
    requires members != []
    ensures MembersFrom(members, 0, indent, depth) == DumpMembers(members, indent, depth)
    ensures MembersFrom(members, |members|, indent, depth) == ""
  {
    hide DumpMembers;
    assert members[0..] == members;
    assert "" + DumpMembers(members, indent, depth) == DumpMembers(members, indent, depth);
  }

  method DumpMembersInto(members: seq<Member>, out: string, indent: int, depth: nat) returns (r: string)
    requires members != []
    ensures r == out + DumpMembers(members, indent, depth)
    decreases members, 1
  {
    hide Dump, DumpMembers, DumpMember, MembersFrom;
    r := out;
    MembersFromStart(members, indent, depth);
    for k := 0 to |members|
      invariant r + MembersFrom(members, k, indent, depth) == out + DumpMembers(members, indent, depth)
    {
      ghost var before, comma, rest := r, if k == 0 then "" else ",", MembersFrom(members, k + 1, indent, depth);
      MembersFromStep(members, k, indent, depth);
      if k != 0 { r := r + ","; }
      assert r == before + comma;
      r := DumpMemberInto(members[k], r, indent, depth);
      Appended(before, comma, DumpMember(members[k], indent, depth), rest, "");
    }
    assert r + "" == r;
  }

  method DumpMemberInto(m: Member, out: string, indent: int, depth: nat) returns (r: string)
    ensures r == out + DumpMember(m, indent, depth)
    decreases m
  {
    hide Dump, Quote, NewLine, Colon;
    r := out + NewLine(indent, depth);
    r := EscapeInto(m.key, r);
    r := r + if indent > 0 then ": " else ":";
    Spaced(indent);
    r := DumpInto(m.value, r, indent, depth);
    Appended(out, NewLine(indent, depth), Quote(m.key), Colon(indent), Dump(m.value, indent, depth));
  }

  lemma Spaced(indent: int)
    ensures Colon(indent) == if indent > 0 then ": " else ":"
  {
  }

  lemma Appended(a: string, b: string, c: string, d: string, e: string)
    ensures a + (b + c + d + e) == a + b + c + d + e
    ensures e == "" ==> a + (b + c + d) == a + b + c + d
  {
    assert a + (b + c + d + e) == a + b + c + d + e;
    if e == "" { assert a + (b + c + d) == a + b + c + d; }
  }

  // ---- parsing ----

  /** What a parsing method reports is what the function gives. */
  ghost predicate Agrees<T>(r: Parsed<T>, ok: bool, value: T, i: nat) {
    if ok then r == Got(value, i) else r == Fail
  }

  class Parser {
    const t: string
    var i: nat

    constructor (text: string)
      ensures t == text && i == 0
    {
      t, i := text, 0;
    }

    method SkipWs()
      requires i <= |t|
      modifies this
      ensures i == SkipSpace(t, old(i))
    {
      while i < |t| && IsSpace(t[i])
        invariant i <= |t| && SkipSpace(t, old(i)) == SkipSpace(t, i)
        decreases |t| - i
      {
        i := i + 1;
      }
    }

    method Lit(word: string) returns (ok: bool)
      requires i <= |t|
      modifies this
      ensures ok == At(t, old(i), word) && i == if ok then old(i) + |word| else old(i)
    {
      ok := |t| - i >= |word| && t[i..i + |word|] == word;
      if ok { i := i + |word|; }
    }

    method ReadHex4() returns (ok: bool, v: nat)
      requires i <= |t|
      modifies this
      ensures Agrees(Hex4(t, old(i)), ok, v, i)
    {
      v := 0;
      if |t| - i < 4 { return false, 0; }
      for k := 0 to 4
        invariant i == old(i) && i + 4 <= |t|
        invariant k >= 1 ==> HexValue(t[i]) >= 0
        invariant k >= 2 ==> HexValue(t[i + 1]) >= 0
        invariant k >= 3 ==> HexValue(t[i + 2]) >= 0
        invariant k >= 4 ==> HexValue(t[i + 3]) >= 0
        invariant k == 0 ==> v == 0
        invariant k == 1 ==> v == HexValue(t[i])
        invariant k == 2 ==> v == HexValue(t[i]) * 16 + HexValue(t[i + 1])
        invariant k == 3 ==> v == (HexValue(t[i]) * 16 + HexValue(t[i + 1])) * 16 + HexValue(t[i + 2])
        invariant k == 4 ==>
                    v == ((HexValue(t[i]) * 16 + HexValue(t[i + 1])) * 16 + HexValue(t[i + 2])) * 16 +
                         HexValue(t[i + 3])
      {
        var h := HexValue(t[i + k]);
        if h < 0 { return false, 0; }
        v := v * 16 + h;
      }
      i := i + 4;
      ok := true;
    }

    method ReadUnicode() returns (ok: bool, s: string)
      requires i <= |t|
      modifies this
      ensures Agrees(UnicodeEscape(t, old(i)), ok, s, i)
    {
      s := "";
      var done, cp := ReadHex4();
      if !done { return false, ""; }
      if 0xD800 <= cp <= 0xDBFF {
        var low := Lit("\\u");
        if !low { return false, ""; }
        var got, lo := ReadHex4();
        if !got || !(0xDC00 <= lo <= 0xDFFF) { return false, ""; }
        cp := 0x10000 + (cp - 0xD800) * 0x400 + (lo - 0xDC00);
      } else if 0xDC00 <= cp <= 0xDFFF {
        return false, "";
      }
      return true, Utf8(cp);
    }

    /** The escape behind a backslash. */
    method ReadEscape() returns (ok: bool, s: string)
      requires i <= |t|
      modifies this
      ensures Agrees(Unescape(t, old(i)), ok, s, i)
    {
      if i >= |t| { return false, ""; }
      var e := t[i];
      i := i + 1;
      match e
      case '"' => return true, "\"";
      case '\\' => return true, "\\";
      case '/' => return true, "/";
      case 'b' => return true, [BACKSPACE];
      case 'f' => return true, [FORM_FEED];
      case 'n' => return true, "\n";
      case 'r' => return true, "\r";
      case 't' => return true, "\t";
      case 'u' => ok, s := ReadUnicode();
      case _ => return false, "";
    }

    method ReadString() returns (ok: bool, out: string)
      requires i < |t|
      modifies this
      ensures Agrees(StringRest(t, old(i) + 1, ""), ok, out, i)
    {
      i := i + 1;
      out := "";
      while true
        invariant old(i) < i <= |t| && StringRest(t, old(i) + 1, "") == StringRest(t, i, out)
        decreases |t| - i
      {
        if i >= |t| { return false, ""; }
        var c := t[i];
        if c == '"' {
          i := i + 1;
          return true, out;
        }
        if c < ' ' { return false, ""; }
        if c != '\\' {
          out := out + [c];
          i := i + 1;
        } else {
          i := i + 1;
          var done, s := ReadEscape();
          if !done { return false, ""; }
          out := out + s;
        }
      }
    }

    method SkipNumerals()
      requires i <= |t|
      modifies this
      ensures i == SkipDigits(t, old(i))
    {
      while i < |t| && IsDigit(t[i])
        invariant i <= |t| && SkipDigits(t, old(i)) == SkipDigits(t, i)
        decreases |t| - i
      {
        i := i + 1;
      }
    }

    method ReadInteger() returns (ok: bool)
      requires i <= |t|
      modifies this
      ensures Agrees(IntegerEnd(t, old(i)), ok, (), i)
    {
      if i < |t| && t[i] == '-' { i := i + 1; }
      if i >= |t| || !IsDigit(t[i]) { return false; }
      if t[i] == '0' { i := i + 1; } else { SkipNumerals(); }
      return true;
    }

    method ReadFraction() returns (ok: bool, found: bool)
      requires i <= |t|
      modifies this
      ensures Agrees(FractionEnd(t, old(i)), ok, found, i)
    {
      found := i < |t| && t[i] == '.';
      if found {
        i := i + 1;
        if i >= |t| || !IsDigit(t[i]) { return false, found; }
        SkipNumerals();
      }
      ok := true;
    }

    method ReadExponent() returns (ok: bool, found: bool)
      requires i <= |t|
      modifies this
      ensures Agrees(ExponentEnd(t, old(i)), ok, found, i)
    {
      found := i < |t| && (t[i] == 'e' || t[i] == 'E');
      if found {
        i := i + 1;
        if i < |t| && (t[i] == '+' || t[i] == '-') { i := i + 1; }
        if i >= |t| || !IsDigit(t[i]) { return false, found; }
        SkipNumerals();
      }
      ok := true;
    }

    method ReadNumber() returns (ok: bool, v: Json)
      requires i <= |t|
      modifies this
      ensures Agrees(Number(t, old(i)), ok, v, i)
    {
      hide IntegerEnd, FractionEnd, ExponentEnd, IntValue;
      var start, fraction, exponent := i, false, false;
      ok := ReadInteger();
      if ok { ok, fraction := ReadFraction(); }
      if ok { ok, exponent := ReadExponent(); }
      if !ok { return false, Null; }
      var raw := t[start..i];
      v := if !fraction && !exponent && Fits64(IntValue(raw)) then Int(IntValue(raw)) else Real(raw);
    }

    method ReadValue(depth: nat) returns (ok: bool, v: Json)
      requires i <= |t|
      modifies this
      ensures Agrees(Value(t, old(i), depth), ok, v, i)
      decreases |t| - i, 2
    {
      v := Null;
      if depth > MAX_DEPTH { return false, v; }
      if i >= |t| { return false, v; }
      match t[i]
      case '{' => ok, v := ReadObject(depth);
      case '[' => ok, v := ReadArray(depth);
      case '"' =>
        var s;
        ok, s := ReadString();
        v := Str(s);
      case 't' =>
        ok := Lit("true");
        v := Bool(true);
      case 'f' =>
        ok := Lit("false");
        v := Bool(false);
      case 'n' => ok := Lit("null");
      case _ => ok, v := ReadNumber();
    }

    method ReadArray(depth: nat) returns (ok: bool, v: Json)
      requires i < |t|
      modifies this
      ensures Agrees(Array(t, old(i), depth), ok, v, i)
      decreases |t| - i, 1
    {
      hide Value, SkipSpace, Members, Object;
      i := i + 1;
      var items := [];
      SkipWs();
      if i < |t| && t[i] == ']' {
        i := i + 1;
        return true, Arr([]);
      }
      while true
        invariant old(i) < i <= |t| && Array(t, old(i), depth) == Elements(t, i, depth, items)
        decreases |t| - i
      {
        SkipWs();
        var done, x := ReadValue(depth + 1);
        if !done { return false, Null; }
        items := items + [x];
        SkipWs();
        if i >= |t| { return false, Null; }
        if t[i] == ',' {
          i := i + 1;
        } else {
          if t[i] != ']' { return false, Null; }
          i := i + 1;
          return true, Arr(items);
        }
      }
    }

    method ReadKey() returns (ok: bool, key: string)
      requires i <= |t|
      modifies this
      ensures Agrees(Key(t, old(i)), ok, key, i)
    {
      SkipWs();
      if i >= |t| || t[i] != '"' { return false, ""; }
      ok, key := ReadString();
      if !ok { return false, ""; }
      SkipWs();
      if i >= |t| || t[i] != ':' { return false, ""; }
      i := i + 1;
      SkipWs();
    }

    method ReadObject(depth: nat) returns (ok: bool, v: Json)
      requires i < |t|
      modifies this
      ensures Agrees(Object(t, old(i), depth), ok, v, i)
      decreases |t| - i, 1
    {
      hide Value, Key, SkipSpace, Set, Elements, Array;
      i := i + 1;
      var members := [];
      SkipWs();
      if i < |t| && t[i] == '}' {
        i := i + 1;
        return true, Obj([]);
      }
      while true
        invariant old(i) < i <= |t| && Object(t, old(i), depth) == Members(t, i, depth, members)
        decreases |t| - i
      {
        var named, key := ReadKey();
        if !named { return false, Null; }
        var done, x := ReadValue(depth + 1);
        if !done { return false, Null; }
        members := SetMember(members, key, x);
        SkipWs();
        if i >= |t| { return false, Null; }
        if t[i] == ',' {
          i := i + 1;
        } else {
          if t[i] != '}' { return false, Null; }
          i := i + 1;
          return true, Obj(members);
        }
      }
    }
  }

  /** Json::parse: succeeds exactly on the JSON texts nested at most 64 deep, with the value the text stands for. */
  method ParseText(text: string) returns (ok: bool, v: Json)
    ensures Agrees(Parse(text), ok, v, |text|)
    ensures ok <==> exists w :: Denotes(text, w)
    ensures ok ==> Denotes(text, v)
  {
    ok, v := ParseWhole(text);
    hide Parse, Denotes;
    ParseIffDenotes(text, v);
  }

  method ParseWhole(text: string) returns (ok: bool, v: Json)
    ensures Agrees(Parse(text), ok, v, |text|)
  {
    var p := new Parser(text);
    p.SkipWs();
    ok, v := p.ReadValue(0);
    if !ok { return false, Null; }
    p.SkipWs();
    if p.i != |text| { return false, Null; }
  }
}
