/** Reading JSON strings back: what an escaped string means to the receiver.

Stands for json.Marshal and json.Unmarshal of a Go string, which `mustRawString`, the marshalled result and
the decoded warning of agent/cmd/breeze-backup/result_bounds.go all go through.
*/
module JsonStrings {
  import opened Bytes

  function HexValue(c: char): (v: nat)
    ensures v < 16
  {
    if '0' <= c <= '9' then c as int - '0' as int
    else if 'a' <= c <= 'f' then c as int - 'a' as int + 10
    else if 'A' <= c <= 'F' then c as int - 'A' as int + 10
    else 0
  }

  /** The code unit four hexadecimal digits stand for. */
  function HexUnit(h: Bytes): (u: nat)
    requires |h| == 4
    ensures u < 0x1_0000
  {
    ((HexValue(h[0]) * 16 + HexValue(h[1])) * 16 + HexValue(h[2])) * 16 + HexValue(h[3])
  }

  /** The UTF-8 encoding of a code unit (section 3 of RFC 3629). */
  function Utf8Of(u: nat): (r: Bytes)
    requires u < 0x1_0000
  {
    if u < 0x80 then [u as char]
    else if u < 0x800 then [(0xC0 + u / 0x40) as char, (0x80 + u % 0x40) as char]
    else [(0xE0 + u / 0x1000) as char, (0x80 + u / 0x40 % 0x40) as char, (0x80 + u % 0x40) as char]
  }

  /** The byte a two-character escape stands for (section 7 of RFC 8259). */
  function Escaped(c: char): (r: char) {
    match c
    case 'b' => '\U{08}'
    case 'f' => '\U{0C}'
    case 'n' => '\n'
    case 'r' => '\r'
    case 't' => '\t'
    case _ => c
  }

  /** The text between the quotes of a JSON string, read back. */
  function Unescape(e: Bytes): (s: Bytes) {
    if e == "" then ""
    else if e[0] != '\\' then [e[0]] + Unescape(e[1..])
    else if |e| >= 6 && e[1] == 'u' then Utf8Of(HexUnit(e[2..6])) + Unescape(e[6..])
    else if |e| >= 2 then [Escaped(e[1])] + Unescape(e[2..])
    else ""
  }

  lemma {:induction false} UnescapeCopies(a: Bytes, e: Bytes)
    requires '\\' !in a
    ensures Unescape(a + e) == a + Unescape(e)
  {
    if a == "" {
      assert a + e == e;
    } else {
      assert (a + e)[1..] == a[1..] + e;
      UnescapeCopies(a[1..], e);
    }
  }

  lemma UnescapeEmpty()
    ensures Unescape("") == ""
  {
  }

  lemma UnescapeUnit(h: Bytes, e: Bytes)
    requires |h| == 4
    ensures Unescape("\\u" + h + e) == Utf8Of(HexUnit(h)) + Unescape(e)
  {
    var t := "\\u" + h + e;
    assert t[2..6] == h && t[6..] == e;
  }

  lemma UnescapeShort(c: char, e: Bytes)
    requires c != 'u'
    ensures Unescape(['\\', c] + e) == [Escaped(c)] + Unescape(e)
  {
    assert (['\\', c] + e)[2..] == e;
  }

  lemma HexReads(b: nat)
    requires b < 0x80
    ensures HexUnit("00" + [HexDigit(b / 16 % 16), HexDigit(b % 16)]) == b
  {
    var h := "00" + [HexDigit(b / 16 % 16), HexDigit(b % 16)];
    assert HexValue(h[2]) == b / 16 && HexValue(h[3]) == b % 16;
  }

  /** One escaped byte reads back as that byte. */
  lemma ByteReadsBack(r: Bytes, e: Bytes)
    requires |r| == 1 && r[0] as int < 0x80
    ensures Unescape(EscapeRune(r) + e) == r + Unescape(e)
  {
    hide Unescape, HexDigit;
    var b := r[0] as int;
    if r[0] == '"' || r[0] == '\\' {
      UnescapeShort(r[0], e);
    } else if b in {8, 9, 10, 12, 13} {
      UnescapeShort(EscapeRune(r)[1], e);
    } else if b < 0x20 || r[0] in "<>&" {
      var h := "00" + [HexDigit(b / 16 % 16), HexDigit(b % 16)];
      assert EscapeRune(r) + e == "\\u" + h + e;
      HexReads(b);
      UnescapeUnit(h, e);
    } else {
      UnescapeCopies(r, e);
    }
  }

  lemma LongReadsBack(r: Bytes, e: Bytes)
    requires 2 <= |r| <= 4 && '\\' !in r
    ensures Unescape(EscapeRune(r) + e) == r + Unescape(e)
  {
    hide Unescape;
    if r == "\U{E2}\U{80}\U{A8}" {
      assert EscapeRune(r) + e == "\\u" + "2028" + e;
      UnescapeUnit("2028", e);
    } else if r == "\U{E2}\U{80}\U{A9}" {
      assert EscapeRune(r) + e == "\\u" + "2029" + e;
      UnescapeUnit("2029", e);
    } else {
      UnescapeCopies(r, e);
    }
  }

  lemma RuneBytes(s: Bytes)
    requires RuneLen(s) > 0
    ensures RuneLen(s) > 1 ==> '\\' !in s[..RuneLen(s)]
    ensures RuneLen(s) == 1 ==> s[0] as int < 0x80
  {
  }

  /** Marshalling a Go string and reading it back gives the string with ill-formed bytes replaced: the very
      string when it is valid UTF-8. */
  lemma {:induction false} EscapeRoundTrip(s: Bytes)
    ensures Unescape(Escape(s)) == Sanitize(s)
    ensures ValidUtf8(s) ==> Unescape(Escape(s)) == s
  {
    hide Unescape, EscapeRune, RuneLen, ValidUtf8;
    if ValidUtf8(s) { SanitizeValid(s); }
    if s == "" {
      UnescapeEmpty();
    } else if RuneLen(s) > 0 {
      var r, rest := s[..RuneLen(s)], s[RuneLen(s)..];
      EscapeRoundTrip(rest);
      RuneBytes(s);
      if |r| == 1 { ByteReadsBack(r, Escape(rest)); } else { LongReadsBack(r, Escape(rest)); }
    } else {
      EscapeRoundTrip(s[1..]);
      assert Escape(s) == "\\u" + "fffd" + Escape(s[1..]);
      UnescapeUnit("fffd", Escape(s[1..]));
    }
  }

  predicate InertAt(e: Bytes, i: nat)
    requires i < |e|
  {
    && e[i] as int >= 0x20 && e[i] != '<' && e[i] != '>' && e[i] != '&'
    && (e[i] == '"' ==> i > 0 && e[i - 1] == '\\')
  }

  /** No byte of an escaped string ends it early or needs escaping in HTML. */
  ghost predicate Inert(e: Bytes) {
    forall i :: 0 <= i < |e| ==> InertAt(e, i)
  }

  lemma InertConcat(a: Bytes, b: Bytes)
    requires Inert(a) && Inert(b)
    ensures Inert(a + b)
  {
    forall i | 0 <= i < |a + b| ensures InertAt(a + b, i) {
      if i < |a| { assert InertAt(a, i); } else { assert InertAt(b, i - |a|); }
    }
  }

  lemma RuneInert(s: Bytes)
    requires RuneLen(s) > 0
    ensures Inert(EscapeRune(s[..RuneLen(s)]))
  {
    var r := s[..RuneLen(s)];
    RuneBytes(s);
    if |r| == 1 {
      assert EscapeRune(r) == r ==> r[0] as int >= 0x20;
    } else {
      assert forall i :: 0 <= i < |r| ==> r[i] as int >= 0x80;
    }
  }

  lemma {:induction false} EscapeInert(s: Bytes)
    ensures Inert(Escape(s))
  {
    hide EscapeRune, RuneLen, Inert;
    if s == "" {
      NothingInert();
    } else if RuneLen(s) > 0 {
      EscapeInert(s[RuneLen(s)..]);
      RuneInert(s);
      InertConcat(EscapeRune(s[..RuneLen(s)]), Escape(s[RuneLen(s)..]));
    } else {
      EscapeInert(s[1..]);
      ReplacementInert();
      InertConcat("\\ufffd", Escape(s[1..]));
    }
  }

  lemma NothingInert()
    ensures Inert("")
  {
  }

  lemma ReplacementInert()
    ensures Inert("\\ufffd")
  {
  }
}
