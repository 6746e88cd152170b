/** Go strings as byte sequences: UTF-8 well-formedness, clipping on a rune boundary, JSON string escaping.

A Go string is a sequence of bytes. It is written here as a Dafny string in which every character
stands for one byte, so that literals stay readable; `…` is the three bytes E2 80 A6.
*/
module Bytes {

  type Bytes = string

  // ---------------------------------------------------------------- UTF-8

  /** A 10xxxxxx byte: `b & 0xC0 == 0x80`. */
  predicate IsContinuation(c: char) {
    0x80 <= c as int < 0xC0
  }

  /** Whether a byte can start an encoded rune. */
  predicate Utf8Start(c: char) {
    !IsContinuation(c)
  }

  /** The continuation bytes allowed right after a leading byte (table 3-7 of the Unicode standard). */
  predicate SecondByteOk(lead: int, c: char) {
    var b := c as int;
    if lead == 0xE0 then 0xA0 <= b < 0xC0
    else if lead == 0xED then 0x80 <= b < 0xA0
    else if lead == 0xF0 then 0x90 <= b < 0xC0
    else if lead == 0xF4 then 0x80 <= b < 0x90
    else 0x80 <= b < 0xC0
  }

  /** Length of the well-formed rune at the head of `s`, or 0 when there is none. */
  function RuneLen(s: Bytes): (k: nat)
    ensures k <= |s| && k <= 4
    ensures k > 0 ==> Utf8Start(s[0])
    ensures forall j :: 1 <= j < k ==> IsContinuation(s[j])
  {
    if s == "" then 0
    else
      var lead := s[0] as int;
      if lead < 0x80 then 1
      else if 0xC2 <= lead < 0xE0 then
        if |s| >= 2 && SecondByteOk(lead, s[1]) then 2 else 0
      else if 0xE0 <= lead < 0xF0 then
        if |s| >= 3 && SecondByteOk(lead, s[1]) && IsContinuation(s[2]) then 3 else 0
      else if 0xF0 <= lead < 0xF5 then
        if |s| >= 4 && SecondByteOk(lead, s[1]) && IsContinuation(s[2]) && IsContinuation(s[3]) then 4 else 0
      else 0
  }

  /** The whole string is a sequence of well-formed runes (section 3 of RFC 3629). */
  predicate ValidUtf8(s: Bytes) {
    s == "" || (RuneLen(s) > 0 && ValidUtf8(s[RuneLen(s)..]))
  }

  predicate IsAscii(s: Bytes) {
    forall i :: 0 <= i < |s| ==> s[i] as int < 0x80
  }

  lemma {:induction false} AsciiIsValid(s: Bytes)
    requires IsAscii(s)
    ensures ValidUtf8(s)
  {
    if s != "" { AsciiIsValid(s[1..]); }
  }

  lemma {:induction false} ValidConcat(a: Bytes, b: Bytes)
    requires ValidUtf8(a) && ValidUtf8(b)
    ensures ValidUtf8(a + b)
  {
    hide RuneLen;
    if a == "" {
      assert a + b == b;
    } else {
      RuneLenPrefix(a, b);
      assert (a + b)[RuneLen(a)..] == a[RuneLen(a)..] + b;
      ValidConcat(a[RuneLen(a)..], b);
    }
  }

  lemma RuneLenPrefix(a: Bytes, b: Bytes)
    requires RuneLen(a) > 0
    ensures RuneLen(a + b) == RuneLen(a)
  {
  }

  /** Cutting a valid string in front of a byte that starts a rune leaves a valid string. */
  lemma {:induction false} ValidCut(s: Bytes, cut: nat)
    requires ValidUtf8(s) && cut <= |s|
    requires cut == |s| || Utf8Start(s[cut])
    ensures ValidUtf8(s[..cut])
  {
    if cut > 0 {
      var k := RuneLen(s);
      var rest := s[k..];
      assert cut >= k;
      assert cut < |s| ==> rest[cut - k] == s[cut];
      ValidCut(rest, cut - k);
      RuneLenCut(s, cut);
      SliceTwice(s, k, cut);
    }
  }

  lemma RuneLenCut(s: Bytes, cut: nat)
    requires RuneLen(s) <= cut <= |s| && RuneLen(s) > 0
    ensures RuneLen(s[..cut]) == RuneLen(s)
  {
  }

  lemma SliceTwice(s: Bytes, k: nat, cut: nat)
    requires k <= cut <= |s|
    ensures s[..cut][k..] == s[k..][..cut - k]
  {
  }

  // ---------------------------------------------------------------- decimal rendering (%d)

  function Decimal(n: nat): (d: Bytes)
    ensures |d| >= 1
    ensures IsDigits(d) && IsAscii(d)
  {
    var digit := ['0' + (n % 10) as char];
    if n < 10 then digit else Decimal(n / 10) + digit
  }

  predicate IsDigits(d: Bytes) {
    forall i :: 0 <= i < |d| ==> '0' <= d[i] <= '9'
  }

  /** The number a string of digits stands for in base ten. */
  function Value(d: Bytes): (v: nat)
    requires IsDigits(d)
  {
    if d == "" then 0 else 10 * Value(d[..|d| - 1]) + (d[|d| - 1] as int - '0' as int)
  }

  /** `d` is `n` as %d writes it: digits that read back as `n`, with no leading zero unless `n` is 0. */
  predicate Renders(d: Bytes, n: nat) {
    d != "" && IsDigits(d) && Value(d) == n && (d[0] == '0' ==> d == "0")
  }

  lemma {:induction false} DecimalRenders(n: nat)
    ensures Renders(Decimal(n), n)
  {
    var d := Decimal(n);
    if n < 10 {
      assert d[..|d| - 1] == "";
    } else {
      DecimalRenders(n / 10);
      assert d[..|d| - 1] == Decimal(n / 10);
      assert d[0] == Decimal(n / 10)[0];
      assert Value("0") == 0 by { assert "0"[..0] == ""; }
    }
  }

  lemma {:induction false} ValuePositive(d: Bytes)
    requires d != "" && IsDigits(d) && d[0] != '0'
    ensures Value(d) > 0
  {
    if |d| > 1 {
      ValuePositive(d[..|d| - 1]);
    } else {
      assert d[..0] == "";
    }
  }

  /** There is one way to write a number. */
  lemma {:induction false} RendersOnce(d: Bytes, n: nat)
    requires Renders(d, n)
    ensures d == Decimal(n)
  {
    var rest, last := d[..|d| - 1], d[|d| - 1];
    assert d == rest + [last];
    if rest == "" {
      assert d[..0] == "";
    } else {
      assert rest[0] == d[0];
      ValuePositive(rest);
      RendersOnce(rest, Value(rest));
    }
  }

  function Pow10(k: nat): (p: nat)
    ensures p >= 1
  {
    if k == 0 then 1 else 10 * Pow10(k - 1)
  }

  lemma {:induction false} DecimalLength(n: nat, k: nat)
    requires k >= 1 && n < Pow10(k)
    ensures |Decimal(n)| <= k
  {
    if n >= 10 {
      assert k >= 2 by { assert Pow10(1) == 10; }
      DecimalLength(n / 10, k - 1);
    }
  }

  /** Every length or difference of lengths is a Go `int`; this slack leaves room for replacement growth. */
  const MAX_LENGTH: nat := 0x1_0000_0000_0000_0000

  lemma LengthDigits(n: nat)
    requires n <= 4 * MAX_LENGTH
    ensures |Decimal(n)| <= 21
  {
    assert Pow10(3) == 1000;
    assert Pow10(6) == 1000 * Pow10(3);
    assert Pow10(9) == 1000 * Pow10(6);
    assert Pow10(12) == 1000 * Pow10(9);
    assert Pow10(15) == 1000 * Pow10(12);
    assert Pow10(18) == 1000 * Pow10(15);
    assert Pow10(21) == 1000 * Pow10(18);
    DecimalLength(n, 21);
  }

  // ---------------------------------------------------------------- truncateText

  /** Moves `cut` back to the nearest rune boundary. */
  function BackOff(s: Bytes, cut: nat): (c: nat)
    requires cut < |s|
    ensures c <= cut
    ensures c == 0 || Utf8Start(s[c])
  {
    if cut > 0 && !Utf8Start(s[cut]) then BackOff(s, cut - 1) else cut
  }

  const TRUNCATION_LEAD: Bytes := "\U{E2}\U{80}\U{A6} (+"
  const TRUNCATION_TAIL: Bytes := " bytes truncated)"

  function TruncationSuffix(dropped: nat): (s: Bytes) {
    TRUNCATION_LEAD + Decimal(dropped) + TRUNCATION_TAIL
  }

  datatype Clipped = Clipped(text: Bytes, dropped: nat)

  /** What `truncateText` returns: the clipped text and how many bytes were over the cap. */
  function TruncateText(s: Bytes, max: nat): (r: Clipped) {
    if |s| <= max then Clipped(s, 0)
    else Clipped(s[..BackOff(s, max)] + TruncationSuffix(|s| - max), |s| - max)
  }

  /** `t` is `s` cut at `cut`, the last rune boundary within the cap, plus the count of bytes over the cap. In
      valid text that boundary is at most three bytes back and leaves valid text. */
  ghost predicate CutOnRune(s: Bytes, max: nat, t: Bytes, cut: nat, digits: Bytes) {
    && cut <= max < |s|
    && (cut == 0 || Utf8Start(s[cut]))
    && (forall j :: cut < j <= max ==> IsContinuation(s[j]))
    && (ValidUtf8(s) ==> max <= cut + 3 && ValidUtf8(s[..cut]))
    && Renders(digits, |s| - max)
    && t == s[..cut] + "\U{E2}\U{80}\U{A6} (+" + digits + " bytes truncated)"
  }

  /** `t` is what is left of `s` under a cap. */
  ghost predicate Shortened(s: Bytes, max: nat, t: Bytes) {
    if |s| <= max then t == s else exists cut: nat, digits: Bytes :: CutOnRune(s, max, t, cut, digits)
  }

  /** The loop of `truncateText`, byte by byte. */
  method ClipText(s: Bytes, max: nat) returns (text: Bytes, dropped: nat)
    ensures Clipped(text, dropped) == TruncateText(s, max)
    ensures Shortened(s, max, text) && dropped == if |s| <= max then 0 else |s| - max
  {
    hide Shortened, Decimal;
    TruncateTextCut(s, max);
    if |s| <= max { return s, 0; }
    dropped := |s| - max;
    var cut: nat := max;
    while cut > 0 && !Utf8Start(s[cut])
      invariant cut <= max
      invariant BackOff(s, cut) == BackOff(s, max)
    {
      cut := cut - 1;
    }
    text := s[..cut] + TruncationSuffix(dropped);
  }

  lemma LeadIsValid()
    ensures ValidUtf8(TRUNCATION_LEAD)
  {
    var lead := TRUNCATION_LEAD;
    assert RuneLen(lead) == 3;
    assert lead[3..] == " (+";
    AsciiIsValid(lead[3..]);
  }

  lemma SuffixIsValid(dropped: nat)
    ensures ValidUtf8(TruncationSuffix(dropped))
  {
    LeadIsValid();
    AsciiIsValid(Decimal(dropped));
    AsciiIsValid(TRUNCATION_TAIL);
    ValidConcat(TRUNCATION_LEAD, Decimal(dropped));
    ValidConcat(TRUNCATION_LEAD + Decimal(dropped), TRUNCATION_TAIL);
  }

  lemma SuffixLength(dropped: nat)
    requires dropped <= 4 * MAX_LENGTH
    ensures |TruncationSuffix(dropped)| <= 48
  {
    LengthDigits(dropped);
  }

  /** In a valid string a rune boundary is never more than three bytes back. */
  lemma {:induction false} BackOffNear(s: Bytes, cut: nat)
    requires ValidUtf8(s) && cut < |s|
    ensures BackOff(s, cut) + 3 >= cut
    ensures Utf8Start(s[BackOff(s, cut)])
  {
    var k := RuneLen(s);
    if cut < k {
      BackOffInRune(s, cut, k);
    } else {
      var rest := s[k..];
      BackOffNear(rest, cut - k);
      BackOffShift(s, cut, k);
    }
  }

  lemma {:induction false} BackOffInRune(s: Bytes, cut: nat, k: nat)
    requires k == RuneLen(s) && cut < k
    ensures BackOff(s, cut) == 0 && cut <= 3
  {
    if cut > 0 { BackOffInRune(s, cut - 1, k); }
  }

  lemma {:induction false} BackOffShift(s: Bytes, cut: nat, k: nat)
    requires k <= cut < |s|
    requires Utf8Start(s[k])
    ensures BackOff(s, cut) == BackOff(s[k..], cut - k) + k
  {
    assert s[k..][cut - k] == s[cut];
    if cut > k && !Utf8Start(s[cut]) { BackOffShift(s, cut - 1, k); }
  }

  /** Cutting valid text back to a rune boundary and appending valid text leaves valid text. */
  lemma CutAndAppend(s: Bytes, max: nat, suffix: Bytes)
    requires ValidUtf8(s) && max < |s| && ValidUtf8(suffix)
    ensures BackOff(s, max) <= max <= BackOff(s, max) + 3
    ensures ValidUtf8(s[..BackOff(s, max)]) && ValidUtf8(s[..BackOff(s, max)] + suffix)
  {
    BackOffNear(s, max);
    ValidCut(s, BackOff(s, max));
    ValidConcat(s[..BackOff(s, max)], suffix);
  }

  /** `truncateText` keeps valid text valid. */
  lemma TruncateTextValid(s: Bytes, max: nat)
    requires ValidUtf8(s)
    ensures ValidUtf8(TruncateText(s, max).text)
  {
    if |s| > max {
      SuffixIsValid(|s| - max);
      CutAndAppend(s, max, TruncationSuffix(|s| - max));
    }
  }

  lemma {:induction false} BackOffSkips(s: Bytes, max: nat)
    requires max < |s|
    ensures forall j :: BackOff(s, max) < j <= max ==> IsContinuation(s[j])
  {
    if max > 0 && !Utf8Start(s[max]) { BackOffSkips(s, max - 1); }
  }

  /** It cuts on the last rune boundary within the cap, in valid text at most three bytes back, and says how
      many bytes were over the cap; text within the cap is left alone. */
  lemma TruncateTextCut(s: Bytes, max: nat)
    ensures Shortened(s, max, TruncateText(s, max).text)
    ensures TruncateText(s, max).dropped == if |s| <= max then 0 else |s| - max
  {
    hide Decimal, BackOff, Renders, ValidUtf8;
    if |s| > max {
      var cut := BackOff(s, max);
      BackOffSkips(s, max);
      if ValidUtf8(s) { CutAndAppend(s, max, ""); }
      DecimalRenders(|s| - max);
      assert CutOnRune(s, max, TruncateText(s, max).text, cut, Decimal(|s| - max));
    }
  }

  /** The clipped text is at most 48 bytes over the cap, whatever the bytes are. */
  lemma TruncateTextBound(s: Bytes, max: nat)
    requires |s| <= 4 * MAX_LENGTH
    ensures |TruncateText(s, max).text| <= max + 48
    ensures TruncateText(s, max).dropped == 0 <==> |s| <= max
  {
    if |s| > max { SuffixLength(|s| - max); }
  }

  // ---------------------------------------------------------------- JSON strings

  /** What a byte string reads back as after a JSON round trip: ill-formed bytes become U+FFFD. */
  function Sanitize(s: Bytes): (r: Bytes) {
    if s == "" then ""
    else if RuneLen(s) > 0 then s[..RuneLen(s)] + Sanitize(s[RuneLen(s)..])
    else "\U{EF}\U{BF}\U{BD}" + Sanitize(s[1..])
  }

  /** Encoding a valid string and reading it back changes nothing. */
  lemma {:induction false} SanitizeValid(s: Bytes)
    requires ValidUtf8(s)
    ensures Sanitize(s) == s
  {
    if s != "" {
      SanitizeValid(s[RuneLen(s)..]);
      assert s == s[..RuneLen(s)] + s[RuneLen(s)..];
    }
  }

  function HexDigit(n: int): (c: char)
    requires 0 <= n < 16
  {
    if n < 10 then '0' + n as char else 'a' + (n - 10) as char
  }

  /** The escaped form of one well-formed rune (encoding/json with HTML escaping on). */
  function EscapeRune(r: Bytes): (e: Bytes)
    requires 1 <= |r| <= 4
    ensures |r| <= |e| <= 6 * |r|
  {
    if |r| == 1 then
      var b := r[0] as int;
      if r[0] == '"' || r[0] == '\\' then ['\\', r[0]]
      else if b == 8 then "\\b" else if b == 12 then "\\f"
      else if b == 10 then "\\n" else if b == 13 then "\\r" else if b == 9 then "\\t"
      else if b < 0x20 || r[0] == '<' || r[0] == '>' || r[0] == '&' then
        "\\u00" + [HexDigit(b / 16 % 16), HexDigit(b % 16)]
      else r
    else if r == "\U{E2}\U{80}\U{A8}" then "\\u2028"
    else if r == "\U{E2}\U{80}\U{A9}" then "\\u2029"
    else r
  }

  function Escape(s: Bytes): (e: Bytes) {
    if s == "" then ""
    else if RuneLen(s) > 0 then EscapeRune(s[..RuneLen(s)]) + Escape(s[RuneLen(s)..])
    else "\\ufffd" + Escape(s[1..])
  }

  /** JSON string encoding never shrinks its input and never expands it more than six times. */
  lemma {:induction false} EscapeSize(s: Bytes)
    ensures |s| <= |Escape(s)| <= 6 * |s|
  {
    if s != "" {
      EscapeSize(s[if RuneLen(s) > 0 then RuneLen(s) else 1..]);
    }
  }

  function Quote(s: Bytes): (q: Bytes) {
    "\"" + Escape(s) + "\""
  }

  // ---------------------------------------------------------------- substrings

  predicate At(s: Bytes, pat: Bytes, i: int) {
    0 <= i && i + |pat| <= |s| && s[i..i + |pat|] == pat
  }

  ghost predicate Contains(s: Bytes, pat: Bytes) {
    exists i: int :: At(s, pat, i)
  }

  /** strings.Index, searching from `from`. */
  function IndexFrom(s: Bytes, pat: Bytes, from: nat): (i: int)
    requires from <= |s|
    ensures -1 <= i
    ensures i >= 0 ==> from <= i && At(s, pat, i)
    ensures forall j :: from <= j && At(s, pat, j) ==> 0 <= i <= j
    decreases |s| - from
  {
    if At(s, pat, from) then from
    else if from == |s| then -1
    else IndexFrom(s, pat, from + 1)
  }

  function Index(s: Bytes, pat: Bytes): (i: int)
    ensures -1 <= i
    ensures i >= 0 ==> At(s, pat, i)
    ensures forall j :: At(s, pat, j) ==> 0 <= i <= j
  {
    IndexFrom(s, pat, 0)
  }

  predicate EndsWith(s: Bytes, tail: Bytes) {
    |tail| <= |s| && s[|s| - |tail|..] == tail
  }

  /** An occurrence of `pat` that reaches across a byte holds that byte. */
  lemma OccurrenceAcross(a: Bytes, c: char, b: Bytes, pat: Bytes, i: int)
    requires At(a + [c] + b, pat, i)
    ensures c in pat || At(a, pat, i) || At(b, pat, i - |a| - 1)
  {
    var s := a + [c] + b;
    if i + |pat| <= |a| {
      assert s[i..i + |pat|] == a[i..i + |pat|];
    } else if i > |a| {
      var j := i - |a| - 1;
      assert s[i..i + |pat|] == b[j..j + |pat|];
    } else {
      assert s[i..i + |pat|][|a| - i] == c;
    }
  }

  lemma ForeignByteSeparates(a: Bytes, c: char, b: Bytes, pat: Bytes)
    requires c !in pat
    requires !Contains(a, pat) && !Contains(b, pat)
    ensures !Contains(a + [c] + b, pat)
  {
    forall i: int | At(a + [c] + b, pat, i)
      ensures At(a, pat, i) || At(b, pat, i - |a| - 1)
    {
      OccurrenceAcross(a, c, b, pat, i);
    }
  }

  lemma ContainsPrefix(s: Bytes, k: nat, pat: Bytes)
    requires k <= |s| && Contains(s[..k], pat)
    ensures Contains(s, pat)
  {
    var i :| At(s[..k], pat, i);
    assert s[..k][i..i + |pat|] == s[i..i + |pat|];
    assert At(s, pat, i);
  }
}
