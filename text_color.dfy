// Text colour for a card face (composables/useTextColor.ts): black on light backgrounds and
// white on dark ones, from the weighted brightness of the red, green and blue components.
module TextColor {
  import opened Types

  const Black := "#000000"
  const White := "#ffffff"

  /** `replace("#", "")` with a string pattern: only the first '#' goes. */
  function StripFirstHash(s: string): (r: string)
    ensures '#' !in s ==> r == s
    ensures '#' in s ==> |r| == |s| - 1
  {
    if |s| == 0 then s
    else if s[0] == '#' then s[1..]
    else [s[0]] + StripFirstHash(s[1..])
  }

  /** Only the first '#' is removed; the rest of the string is kept as it is. */
  lemma {:induction false} StripFirstHashSplits(prefix: string, rest: string)
    requires '#' !in prefix
    ensures StripFirstHash(prefix + "#" + rest) == prefix + rest
  {
    if |prefix| == 0 {
      assert prefix + "#" + rest == "#" + rest;
    } else {
      assert (prefix + "#" + rest)[1..] == prefix[1..] + "#" + rest;
      StripFirstHashSplits(prefix[1..], rest);
      assert [prefix[0]] + (prefix[1..] + rest) == prefix + rest;
    }
  }

  /** `substring(start, end)` with `start <= end`: both ends are clamped to the string. */
  function Substring(s: string, start: nat, end: nat): (r: string)
    requires start <= end
    ensures |r| <= end - start
    ensures end <= |s| ==> r == s[start..end]
  {
    var lo := if start < |s| then start else |s|;
    var hi := if end < |s| then end else |s|;
    s[lo..hi]
  }

  /** The value of one hexadecimal digit, in either case. */
  function HexDigit(c: char): (d: Option<int>)
    ensures d.Some? ==> 0 <= d.value < 16
  {
    if '0' <= c <= '9' then Some(c as int - '0' as int)
    else if 'a' <= c <= 'f' then Some(c as int - 'a' as int + 10)
    else if 'A' <= c <= 'F' then Some(c as int - 'A' as int + 10)
    else None
  }

  predicate IsHexDigit(c: char) { HexDigit(c).Some? }

  /** The longest prefix made of hexadecimal digits. */
  function HexPrefix(s: string): (p: string)
    ensures |p| <= |s| && p == s[..|p|]
    ensures forall i :: 0 <= i < |p| ==> IsHexDigit(p[i])
    ensures |p| < |s| ==> !IsHexDigit(s[|p|])
  {
    if |s| == 0 || !IsHexDigit(s[0]) then ""
    else [s[0]] + HexPrefix(s[1..])
  }

  function Pow16(n: nat): (r: nat)
    ensures r >= 1
  {
    if n == 0 then 1 else 16 * Pow16(n - 1)
  }

  /** The number written by a string of hexadecimal digits, most significant first. */
  function HexValue(p: string): (v: int)
    requires forall i :: 0 <= i < |p| ==> IsHexDigit(p[i])
    ensures 0 <= v < Pow16(|p|)
  {
    if |p| == 0 then 0
    else
      var init := p[..|p| - 1];
      assert forall i :: 0 <= i < |init| ==> init[i] == p[i];
      assert IsHexDigit(p[|p| - 1]);
      HexValue(init) * 16 + HexDigit(p[|p| - 1]).value
  }

  /** `parseInt(s, 16)`: the value of the leading hexadecimal digits; None stands for NaN. */
  function ParseHex(s: string): (r: Option<int>)
    ensures r.Some? <==> |s| > 0 && IsHexDigit(s[0])
    ensures r.Some? ==> r.value >= 0
  {
    var p := HexPrefix(s);
    if |p| == 0 then None else Some(HexValue(p))
  }

  /** The decision on the three components: black when the weighted brightness is above 128. */
  function Contrast(r: Option<int>, g: Option<int>, b: Option<int>): (c: string)
    ensures c == Black || c == White
    ensures c == Black ==> r.Some? && g.Some? && b.Some?
  {
    if r.None? || g.None? || b.None? then White
    else if (r.value * 299 + g.value * 587 + b.value * 114) as real / 1000.0 > 128.0 then Black
    else White
  }

  /** `useTextColor`: strip the first '#', read three two-digit components, decide. */
  function TextColor(bgColor: string): (r: string)
    ensures r == Black || r == White
  {
    var colorHex := StripFirstHash(bgColor);
    Contrast(ParseHex(Substring(colorHex, 0, 2)),
             ParseHex(Substring(colorHex, 2, 4)),
             ParseHex(Substring(colorHex, 4, 6)))
  }

  /** The brightness test is the integer comparison `299r + 587g + 114b > 128000`; NaN gives white. */
  lemma ContrastInteger(r: Option<int>, g: Option<int>, b: Option<int>)
    ensures Contrast(r, g, b) == Black <==>
              r.Some? && g.Some? && b.Some? && r.value * 299 + g.value * 587 + b.value * 114 > 128000
    ensures Contrast(r, g, b) == Black || Contrast(r, g, b) == White
  {
    if r.Some? && g.Some? && b.Some? {
      var sum := r.value * 299 + g.value * 587 + b.value * 114;
      assert sum as real / 1000.0 > 128.0 <==> sum > 128000;
    }
  }

  /** Raising a component can turn white text black but never black text white. */
  lemma ContrastMonotone(r1: int, g1: int, b1: int, r2: int, g2: int, b2: int)
    requires r1 <= r2 && g1 <= g2 && b1 <= b2
    ensures Contrast(Some(r1), Some(g1), Some(b1)) == Black ==> Contrast(Some(r2), Some(g2), Some(b2)) == Black
  {
    ContrastInteger(Some(r1), Some(g1), Some(b1));
    ContrastInteger(Some(r2), Some(g2), Some(b2));
  }

  /** Six hexadecimal digits. */
  predicate WellFormedHex(s: string) {
    |s| == 6 && forall i :: 0 <= i < 6 ==> IsHexDigit(s[i])
  }

  /** Two hexadecimal digits read as one component, between 0 and 255. */
  lemma TwoDigits(s: string)
    requires |s| == 2 && IsHexDigit(s[0]) && IsHexDigit(s[1])
    ensures ParseHex(s) == Some(HexDigit(s[0]).value * 16 + HexDigit(s[1]).value)
    ensures 0 <= ParseHex(s).value <= 255
  {
    assert HexPrefix(s[1..][1..]) == "";
    assert HexPrefix(s[1..]) == s[1..];
    assert HexPrefix(s) == s;
    assert s[..1][..0] == "";
    assert HexValue(s[..1]) == HexDigit(s[0]).value;
  }

  /** For six hex digits, with or without one leading '#', the components are the three digit pairs. */
  lemma WellFormedComponents(hex: string)
    requires WellFormedHex(hex)
    ensures StripFirstHash(hex) == hex && StripFirstHash("#" + hex) == hex
    ensures TextColor(hex) == TextColor("#" + hex)
              == Contrast(ParseHex(hex[0..2]), ParseHex(hex[2..4]), ParseHex(hex[4..6]))
    ensures forall k :: 0 <= k < 3 ==>
              ParseHex(hex[2 * k..2 * k + 2]).Some? && 0 <= ParseHex(hex[2 * k..2 * k + 2]).value <= 255
  {
    assert '#' !in hex by {
      assert forall i :: 0 <= i < |hex| ==> IsHexDigit(hex[i]);
    }
    StripFirstHashSplits("", hex);
    assert "" + "#" + hex == "#" + hex;
    forall k | 0 <= k < 3
      ensures ParseHex(hex[2 * k..2 * k + 2]).Some? && 0 <= ParseHex(hex[2 * k..2 * k + 2]).value <= 255
    {
      var pair := hex[2 * k..2 * k + 2];
      assert pair[0] == hex[2 * k] && pair[1] == hex[2 * k + 1];
      TwoDigits(pair);
    }
  }

  /** The colour for six hex digits, given what their three pairs read as. */
  lemma TextColorOfPairs(hex: string, r: Option<int>, g: Option<int>, b: Option<int>)
    requires WellFormedHex(hex)
    requires ParseHex(hex[0..2]) == r && ParseHex(hex[2..4]) == g && ParseHex(hex[4..6]) == b
    ensures TextColor(hex) == Contrast(r, g, b) && TextColor("#" + hex) == Contrast(r, g, b)
  {
    WellFormedComponents(hex);
  }

  /** A white background gets black text, with or without the '#'. */
  lemma WhiteBackground()
    ensures TextColor("ffffff") == Black && TextColor("#ffffff") == Black
  {
    var hex := "ffffff";
    assert WellFormedHex(hex) by {
      assert forall i :: 0 <= i < 6 ==> hex[i] == 'f';
    }
    assert ParseHex(hex[0..2]) == Some(255) by {
      assert hex[0..2] == hex[2..4] == hex[4..6] == "ff";
      TwoDigits("ff");
    }
    assert hex[0..2] == hex[2..4] == hex[4..6];
    TextColorOfPairs(hex, Some(255), Some(255), Some(255));
    ContrastInteger(Some(255), Some(255), Some(255));
  }

  /** A black background gets white text, with or without the '#'. */
  lemma BlackBackground()
    ensures TextColor("000000") == White && TextColor("#000000") == White
  {
    var hex := "000000";
    assert WellFormedHex(hex) by {
      assert forall i :: 0 <= i < 6 ==> hex[i] == '0';
    }
    assert ParseHex(hex[0..2]) == Some(0) by {
      assert hex[0..2] == "00";
      TwoDigits("00");
    }
    assert hex[0..2] == hex[2..4] == hex[4..6];
    TextColorOfPairs(hex, Some(0), Some(0), Some(0));
    ContrastInteger(Some(0), Some(0), Some(0));
  }
}
