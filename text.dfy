/**
 * The few pieces of Python's `str` behaviour the core relies on:
 * `str.strip()` with no argument, `sep.join(parts)`, and zero-padded
 * decimal fields as `strftime` writes them.
 */
module Text {
  import opened Wrappers

  /** An absent or empty text: what Python reads as false in `if not x` or a walrus guard. */
  predicate Blank(text: Option<string>) {
    text.None? || text.value == ""
  }

  /**
   * The characters Python's `str.isspace()` accepts, which are exactly the
   * characters `str.strip()` with no argument removes.
   */
  predicate IsSpace(c: char) {
    || ('\U{9}' <= c <= '\U{D}')
    || ('\U{1C}' <= c <= '\U{20}')
    || c == '\U{85}' || c == '\U{A0}' || c == '\U{1680}'
    || ('\U{2000}' <= c <= '\U{200A}')
    || c == '\U{2028}' || c == '\U{2029}' || c == '\U{202F}' || c == '\U{205F}'
    || c == '\U{3000}'
  }

  predicate AllSpace(s: string) {
    forall i | 0 <= i < |s| :: IsSpace(s[i])
  }

  /** True when `s` neither starts nor ends with whitespace. */
  predicate Unpadded(s: string) {
    s == [] || (!IsSpace(s[0]) && !IsSpace(s[|s| - 1]))
  }

  /** `s` without its leading whitespace: the longest suffix that does not start with a space. */
  function TrimLeft(s: string): (r: string)
    ensures |r| <= |s| && r == s[|s| - |r|..]
    ensures AllSpace(s[..|s| - |r|])
    ensures r == [] || !IsSpace(r[0])
  {
    if s != [] && IsSpace(s[0]) then
      var r := TrimLeft(s[1..]);
      assert s[..|s| - |r|] == [s[0]] + s[1..][..|s[1..]| - |r|];
      r
    else
      s
  }

  /** `s` without its trailing whitespace: the longest prefix that does not end with a space. */
  function TrimRight(s: string): (r: string)
    ensures |r| <= |s| && r == s[..|r|]
    ensures AllSpace(s[|r|..])
    ensures r == [] || !IsSpace(r[|r| - 1])
  {
    if s != [] && IsSpace(s[|s| - 1]) then
      var r := TrimRight(s[..|s| - 1]);
      assert s[|r|..] == s[..|s| - 1][|r|..] + [s[|s| - 1]];
      r
    else
      s
  }

  /** Python's `s.strip()`. */
  function Strip(s: string): (r: string)
    ensures |r| <= |s|
    ensures Unpadded(r)
  {
    TrimRight(TrimLeft(s))
  }

  lemma {:induction false} TrimLeftPadded(lead: string, rest: string)
    requires AllSpace(lead)
    requires rest == [] || !IsSpace(rest[0])
    ensures TrimLeft(lead + rest) == rest
  {
    if lead == [] {
      assert lead + rest == rest;
    } else {
      assert (lead + rest)[1..] == lead[1..] + rest;
      TrimLeftPadded(lead[1..], rest);
    }
  }

  lemma {:induction false} TrimRightPadded(rest: string, trail: string)
    requires AllSpace(trail)
    requires rest == [] || !IsSpace(rest[|rest| - 1])
    ensures TrimRight(rest + trail) == rest
  {
    if trail == [] {
      assert rest + trail == rest;
    } else {
      var s := rest + trail;
      assert s[..|s| - 1] == rest + trail[..|trail| - 1];
      TrimRightPadded(rest, trail[..|trail| - 1]);
    }
  }

  /**
   * Strip removes exactly the surrounding whitespace: a text that does not
   * itself start or end with a space comes back unchanged from any padding.
   */
  lemma StripPadded(lead: string, core: string, trail: string)
    requires AllSpace(lead) && AllSpace(trail)
    requires Unpadded(core)
    ensures Strip(lead + core + trail) == core
  {
    if core == [] {
      assert lead + core + trail == (lead + trail) + [];
      assert AllSpace(lead + trail);
      TrimLeftPadded(lead + trail, []);
    } else {
      assert lead + core + trail == lead + (core + trail);
      TrimLeftPadded(lead, core + trail);
      TrimRightPadded(core, trail);
    }
  }

  /** A text without surrounding whitespace is its own strip. */
  lemma StripUnpadded(s: string)
    requires Unpadded(s)
    ensures Strip(s) == s
  {
    assert [] + s + [] == s;
    StripPadded([], s, []);
  }

  /** The combined length of a list of texts. */
  function TotalLength(parts: seq<string>): nat {
    if parts == [] then 0 else |parts[0]| + TotalLength(parts[1..])
  }

  /** Python's `sep.join(parts)`. */
  function JoinWith(sep: string, parts: seq<string>): string {
    if |parts| == 0 then ""
    else if |parts| == 1 then parts[0]
    else parts[0] + sep + JoinWith(sep, parts[1..])
  }

  /**
   * The length of a join is the parts' total plus one separator per gap
   * between neighbouring parts, and a non-empty join opens with its first
   * part.
   */
  lemma {:induction false} JoinLength(sep: string, parts: seq<string>)
    ensures |JoinWith(sep, parts)| == TotalLength(parts) + (if parts == [] then 0 else (|parts| - 1) * |sep|)
    ensures parts != [] ==> parts[0] <= JoinWith(sep, parts)
  {
    if |parts| > 1 {
      JoinLength(sep, parts[1..]);
    }
  }

  lemma JoinThree(sep: string, a: string, b: string, c: string)
    ensures JoinWith(sep, [a, b, c]) == a + sep + b + sep + c
  {
    assert [a, b, c][1..] == [b, c];
    assert [b, c][1..] == [c];
    assert JoinWith(sep, [b, c]) == b + sep + c;
  }

  /** Regrouping five concatenated texts around the middle one. */
  lemma Regroup(a: string, b: string, c: string, d: string, e: string)
    ensures a + b + c + d + e == (a + b) + c + (d + e)
  {
  }

  /**
   * A name framed by a lead and a closing mark, followed by more text and a
   * tail: the framed name opens the whole, the name sits right after the
   * lead, and the tail ends it.
   */
  lemma NamedBetween(lead: string, name: string, close: string, rest: string, tail: string)
    ensures var w := lead + name + (close + rest + tail);
            && lead + name + close <= w
            && w[|lead|..|lead| + |name|] == name
            && |w| >= |tail| && w[|w| - |tail|..] == tail
  {
    var w := lead + name + (close + rest + tail);
    assert w == (lead + name + close) + rest + tail;
    ThreeParts(lead + name + close, rest, tail);
    ThreeParts(lead, name, close + rest + tail);
  }

  /** Where each of three concatenated texts sits in the whole. */
  lemma ThreeParts(x: string, y: string, z: string)
    ensures var w := x + y + z;
            && |w| == |x| + |y| + |z|
            && w[..|x|] == x && w[|x|..|x| + |y|] == y && w[|x| + |y|..] == z
  {
  }

  // Decimal fields

  function Pow10(n: nat): (p: nat)
    ensures p >= 1
  {
    if n == 0 then 1 else 10 * Pow10(n - 1)
  }

  predicate IsDigit(c: char) {
    '0' <= c <= '9'
  }

  function DigitChar(d: nat): (c: char)
    requires d < 10
    ensures IsDigit(c)
  {
    "0123456789"[d]
  }

  function DigitValue(c: char): (d: nat)
    ensures d < 10
  {
    if IsDigit(c) then (c as int - '0' as int) else 0
  }

  /** The last `width` decimal digits of `n`, zero-padded on the left, as `%0<width>d` writes them. */
  function Digits(n: nat, width: nat): (s: string)
    ensures |s| == width
    ensures forall i | 0 <= i < |s| :: IsDigit(s[i])
  {
    if width == 0 then "" else Digits(n / 10, width - 1) + [DigitChar(n % 10)]
  }

  /** The number a string of decimal digits denotes. */
  function DecimalValue(s: string): nat {
    if s == [] then 0 else DecimalValue(s[..|s| - 1]) * 10 + DigitValue(s[|s| - 1])
  }

  /** Reading back a zero-padded field gives the number written, whenever it fits the width. */
  lemma {:induction false} DecimalRoundTrip(n: nat, width: nat)
    requires n < Pow10(width)
    ensures DecimalValue(Digits(n, width)) == n
  {
    if width == 0 {
    } else {
      var prefix := Digits(n / 10, width - 1);
      var s := prefix + [DigitChar(n % 10)];
      assert s[..|s| - 1] == prefix;
      assert n / 10 < Pow10(width - 1);
      DecimalRoundTrip(n / 10, width - 1);
      assert DigitValue(DigitChar(n % 10)) == n % 10;
    }
  }
}
