/** What the printer writes: one line per item when indented, no white space at all when not, and which escapes. */
module JsonLayout {
  import opened JsonModel
  import opened JsonGrammar

  function Join(parts: seq<string>): string {
    if parts == [] then "" else if |parts| == 1 then parts[0] else parts[0] + "," + Join(parts[1..])
  }

  /** `s` starts a line at the given depth, or, without indentation, is empty. */
  predicate StartsLine(s: string, indent: int, depth: nat) {
    if indent > 0 then |s| == 1 + indent * depth && s[0] == '\n' && forall k :: 1 <= k < |s| ==> s[k] == ' '
    else s == ""
  }

  lemma LineStarts(indent: int, depth: nat)
    ensures StartsLine(NewLine(indent, depth), indent, depth)
  {
  }

  lemma {:induction false} ItemsJoined(items: seq<Json>, parts: seq<string>, indent: int, depth: nat)
    requires items != [] && |parts| == |items|
    requires forall k :: 0 <= k < |items| ==> parts[k] == NewLine(indent, depth) + Dump(items[k], indent, depth)
    ensures DumpItems(items, indent, depth) == Join(parts)
    decreases |items|
  {
    hide NewLine, Dump;
    if |items| > 1 {
      ItemsJoined(items[1..], parts[1..], indent, depth);
    } else {
      assert DumpItems(items, indent, depth) == parts[0] + "" == parts[0];
    }
  }

  /** An array is its items, each on a line of its own one level deeper, and the closing bracket on a line. */
  lemma ArrayLayout(items: seq<Json>, indent: int, depth: nat) returns (parts: seq<string>, inner: string, outer: string)
    requires items != []
    ensures StartsLine(inner, indent, depth + 1) && StartsLine(outer, indent, depth) && |parts| == |items|
    ensures forall k :: 0 <= k < |items| ==> parts[k] == inner + Dump(items[k], indent, depth + 1)
    ensures Dump(Arr(items), indent, depth) == "[" + Join(parts) + outer + "]" && Dump(Arr([]), indent, depth) == "[]"
  {
    hide NewLine, Join, DumpItems;
    inner, outer := NewLine(indent, depth + 1), NewLine(indent, depth);
    LineStarts(indent, depth + 1);
    LineStarts(indent, depth);
    parts := seq(|items|, k requires 0 <= k < |items| => inner + Dump(items[k], indent, depth + 1));
    ItemsJoined(items, parts, indent, depth + 1);
  }

  lemma {:induction false} MembersJoined(members: seq<Member>, parts: seq<string>, indent: int, depth: nat)
    requires members != [] && |parts| == |members|
    requires forall k :: 0 <= k < |members| ==> parts[k] == DumpMember(members[k], indent, depth)
    ensures DumpMembers(members, indent, depth) == Join(parts)
    decreases |members|
  {
    hide DumpMember;
    if |members| > 1 {
      MembersJoined(members[1..], parts[1..], indent, depth);
    } else {
      assert DumpMembers(members, indent, depth) == parts[0] + "" == parts[0];
    }
  }

  /** An object likewise; a blank follows the colon only if it is indented. */
  lemma ObjectLayout(members: seq<Member>, indent: int, depth: nat)
    returns (parts: seq<string>, inner: string, outer: string)
    requires members != []
    ensures StartsLine(inner, indent, depth + 1) && StartsLine(outer, indent, depth) && |parts| == |members|
    ensures forall k :: 0 <= k < |members| ==>
              parts[k] == inner + Quote(members[k].key) + (if indent > 0 then ": " else ":") +
                          Dump(members[k].value, indent, depth + 1)
    ensures Dump(Obj(members), indent, depth) == "{" + Join(parts) + outer + "}" && Dump(Obj([]), indent, depth) == "{}"
  {
    hide NewLine, Join, DumpMembers, Quote;
    inner, outer := NewLine(indent, depth + 1), NewLine(indent, depth);
    LineStarts(indent, depth + 1);
    LineStarts(indent, depth);
    parts := seq(|members|, k requires 0 <= k < |members| => DumpMember(members[k], indent, depth + 1));
    MembersJoined(members, parts, indent, depth + 1);
  }

  /**
   A character is escaped in two characters if there is such an escape, the solidus excepted, a control character
   without one as \u00 and two lower-case digits, and no other character is.
   */
  lemma EscapeIs(c: char)
    ensures var s := Escape(c);
            if c as int in {0x22, 0x5C, 0x08, 0x0C, 0x0A, 0x0D, 0x09} then
              |s| == 2 && s[0] == '\\' && ShortCode(s[1]) == c as int
            else if c as int < 0x20 then
              && |s| == 6 && s[..4] == "\\u00" && HexNumber(s[2..6]) == c as int
              && forall k :: 4 <= k < 6 ==> !('A' <= s[k] <= 'F')
            else s == [c]
  {
    if c as int < 0x20 && c as int !in {0x22, 0x5C, 0x08, 0x0C, 0x0A, 0x0D, 0x09} {
      var s := Escape(c);
      assert s[2..6] == ['0', '0', HexDigit(c as int / 16), HexDigit(c as int % 16)];
      NibbleOfDigit(c as int / 16);
      NibbleOfDigit(c as int % 16);
    }
  }

  lemma NibbleOfDigit(d: nat)
    requires d < 16
    ensures Nibble(HexDigit(d)) == d && !('A' <= HexDigit(d) <= 'F')
  {
  }
}
