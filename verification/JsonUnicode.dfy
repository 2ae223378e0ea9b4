/**
 Escaped code points: what \u escapes stand for, and the UTF-8 written for them (section 7 of RFC 8259, section 3
 of RFC 3629).
 */
module JsonUnicode {
  import opened JsonModel
  import opened JsonRoundTrip

  /** Four hexadecimal digits. */
  function HexText(n: nat): string
    requires n < 0x10000
  {
    [HexDigit(n / 0x1000), HexDigit(n / 0x100 % 0x10), HexDigit(n / 0x10 % 0x10), HexDigit(n % 0x10)]
  }

  predicate IsSurrogate(cp: nat) { 0xD800 <= cp <= 0xDFFF }

  /** The code point that the bytes of one UTF-8 sequence stand for. */
  function Decoded(s: string): int {
    if |s| == 1 then s[0] as int
    else if |s| == 2 then (s[0] as int - 0xC0) * 0x40 + (s[1] as int - 0x80)
    else if |s| == 3 then ((s[0] as int - 0xE0) * 0x40 + (s[1] as int - 0x80)) * 0x40 + (s[2] as int - 0x80)
    else if |s| == 4 then
      (((s[0] as int - 0xF0) * 0x40 + (s[1] as int - 0x80)) * 0x40 + (s[2] as int - 0x80)) * 0x40 + (s[3] as int - 0x80)
    else -1
  }

  predicate IsTail(c: char) { 0x80 <= c as int <= 0xBF }

  lemma Sextets(n: nat)
    ensures n / 0x1000 == n / 0x40 / 0x40 && n / 0x40000 == n / 0x40 / 0x40 / 0x40
  {
  }

  /**
   Every code point is written as its UTF-8 sequence: it can be read back, and the bytes are a lead byte and
   tails.
   */
  lemma Utf8Decodes(cp: nat)
    requires cp < 0x110000
    ensures var s := Utf8(cp);
            && Decoded(s) == cp && 1 <= |s| <= 4
            && (forall k :: 1 <= k < |s| ==> IsTail(s[k]))
            && (|s| == 1 ==> s[0] as int < 0x80) && (|s| == 2 ==> 0xC2 <= s[0] as int <= 0xDF)
            && (|s| == 3 ==> 0xE0 <= s[0] as int <= 0xEF) && (|s| == 4 ==> 0xF0 <= s[0] as int <= 0xF4)
  {
    Sextets(cp);
  }

  lemma HexTextReads(t: string, i: nat, n: nat)
    requires n < 0x10000 && At(t, i, HexText(n))
    ensures Hex4(t, i) == Got(n, i + 4)
  {
    var s := HexText(n);
    AtFirst(t, i, s, 0);
    AtFirst(t, i, s, 1);
    AtFirst(t, i, s, 2);
    AtFirst(t, i, s, 3);
    HexReads(n / 0x1000);
    HexReads(n / 0x100 % 0x10);
    HexReads(n / 0x10 % 0x10);
    HexReads(n % 0x10);
    Nibbles(n);
  }

  lemma Nibbles(n: nat)
    ensures ((n / 0x1000 * 16 + n / 0x100 % 0x10) * 16 + n / 0x10 % 0x10) * 16 + n % 0x10 == n
  {
    assert n / 0x100 == n / 0x10 / 0x10 && n / 0x1000 == n / 0x10 / 0x10 / 0x10;
  }

  /** One escape stands for its code point exactly when that is no surrogate; a lone surrogate is refused. */
  lemma EscapeStandsFor(t: string, i: nat, cp: nat)
    requires cp < 0x10000 && At(t, i, HexText(cp)) && !At(t, i + 4, "\\u")
    ensures UnicodeEscape(t, i) == if IsSurrogate(cp) then Fail else Got(Utf8(cp), i + 4)
  {
    HexTextReads(t, i, cp);
  }

  /** Two escapes stand for one code point beyond the first plane exactly when they are a surrogate pair. */
  lemma PairStandsFor(t: string, i: nat, high: nat, low: nat)
    requires high < 0x10000 && low < 0x10000 && 0xD800 <= high <= 0xDBFF
    requires At(t, i, HexText(high) + "\\u" + HexText(low))
    ensures UnicodeEscape(t, i) ==
              if 0xDC00 <= low <= 0xDFFF then Got(Utf8(0x10000 + (high - 0xD800) * 0x400 + (low - 0xDC00)), i + 10)
              else Fail
  {
    hide Hex4, HexText, Utf8, At;
    AtSplit(t, i, HexText(high) + "\\u", HexText(low));
    AtSplit(t, i, HexText(high), "\\u");
    HexLength(high);
    HexTextReads(t, i, high);
    HexTextReads(t, i + 6, low);
  }

  lemma HexLength(n: nat)
    requires n < 0x10000
    ensures |HexText(n)| == 4
  {
  }

  /** Every code point beyond the first plane has such a pair. */
  lemma PairsCoverAll(cp: nat) returns (high: nat, low: nat)
    requires 0x10000 <= cp < 0x110000
    ensures 0xD800 <= high <= 0xDBFF && 0xDC00 <= low <= 0xDFFF
    ensures 0x10000 + (high - 0xD800) * 0x400 + (low - 0xDC00) == cp
  {
    high, low := 0xD800 + (cp - 0x10000) / 0x400, 0xDC00 + (cp - 0x10000) % 0x400;
  }
}
