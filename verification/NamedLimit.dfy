/** Which limit a degraded result names: exactly when it is a real one. */
module NamedLimit {
  import opened Options
  import opened Bytes
  import opened WarningNotes
  import opened ResultBounds
  import opened ResultDelivery

  // ---------------------------------------------------------------- what clipping costs

  /** How much of a string its first escape takes. */
  function FirstLen(s: Bytes): (k: nat)
    requires s != ""
    ensures 1 <= k <= |s|
  {
    if RuneLen(s) > 0 then RuneLen(s) else 1
  }

  function FirstEscape(s: Bytes): (e: Bytes)
    requires s != ""
  {
    if RuneLen(s) > 0 then EscapeRune(s[..RuneLen(s)]) else "\\ufffd"
  }

  lemma EscapeStep(s: Bytes)
    requires s != ""
    ensures Escape(s) == FirstEscape(s) + Escape(s[FirstLen(s)..])
  {
    hide EscapeRune, RuneLen;
  }

  lemma FirstConcat(a: Bytes, b: Bytes)
    requires a != "" && (b == "" || Utf8Start(b[0]))
    ensures FirstEscape(a + b) == FirstEscape(a) && FirstLen(a + b) == FirstLen(a)
    ensures (a + b)[FirstLen(a)..] == a[FirstLen(a)..] + b
  {
    hide EscapeRune;
    RuneLenConcat(a, b);
    assert (a + b)[..RuneLen(a)] == a[..RuneLen(a)];
  }

  /** Escaping works rune by rune, so it splits in front of any byte that can start one. */
  lemma {:induction false} EscapeConcat(a: Bytes, b: Bytes)
    requires b == "" || Utf8Start(b[0])
    ensures Escape(a + b) == Escape(a) + Escape(b)
  {
    hide Escape, FirstEscape, FirstLen, Utf8Start;
    if a == "" {
      assert a + b == b;
      EmptyEscape();
    } else {
      EscapeStep(a);
      EscapeStep(a + b);
      FirstConcat(a, b);
      EscapeConcat(a[FirstLen(a)..], b);
    }
  }

  lemma RuneLenConcat(a: Bytes, b: Bytes)
    requires a != "" && (b == "" || Utf8Start(b[0]))
    ensures RuneLen(a + b) == RuneLen(a)
  {
    if b != "" { assert (a + b)[|a|] == b[0]; }
  }

  predicate Unescaped(s: Bytes) {
    forall i :: 0 <= i < |s| ==>
      0x20 <= s[i] as int < 0x80 && s[i] != '"' && s[i] != '\\' && s[i] != '<' && s[i] != '>' && s[i] != '&'
  }

  lemma {:induction false} UnescapedText(s: Bytes)
    requires Unescaped(s)
    ensures Escape(s) == s
  {
    if s != "" {
      assert RuneLen(s) == 1 && EscapeRune(s[..1]) == s[..1];
      UnescapedText(s[1..]);
      assert s == s[..1] + s[1..];
    }
  }

  lemma LeadEscape(lead: Bytes)
    requires lead == "\U{E2}\U{80}\U{A6} (+"
    ensures |lead| == 6 && Escape(lead) == lead
  {
    assert RuneLen(lead) == 3 && EscapeRune(lead[..3]) == lead[..3];
    UnescapedText(lead[3..]);
    assert lead == lead[..3] + lead[3..];
  }

  lemma SuffixEscape(dropped: nat)
    ensures |Escape(TruncationSuffix(dropped))| == |TruncationSuffix(dropped)| == 23 + |Decimal(dropped)|
    ensures Utf8Start(TruncationSuffix(dropped)[0])
  {
    hide Escape;
    var lead, d, tail := TRUNCATION_LEAD, Decimal(dropped), TRUNCATION_TAIL;
    LeadEscape(lead);
    assert |tail| == 17 && Unescaped(tail);
    UnescapedText(d);
    UnescapedText(tail);
    EscapeConcat(lead, d);
    EscapeConcat(lead + d, tail);
  }

  /** Clipping trades the escaped tail of the text for the suffix. */
  lemma ClipCost(s: Bytes, max: nat)
    requires |s| > max
    ensures var cut := BackOff(s, max);
            |Escape(TruncateText(s, max).text)| - |Escape(s)| == 23 + |Decimal(|s| - max)| - |Escape(s[cut..])|
  {
    hide Escape, TruncationSuffix, BackOff, Decimal;
    var cut := BackOff(s, max);
    SuffixEscape(|s| - max);
    EscapeConcat(s[..cut], TruncationSuffix(|s| - max));
    assert s == s[..cut] + s[cut..];
    if cut == 0 {
      assert s[..cut] == "" && s[cut..] == s;
      EmptyEscape();
    } else {
      EscapeConcat(s[..cut], s[cut..]);
    }
  }

  lemma EmptyEscape()
    ensures Escape("") == ""
  {
  }

  /** From 25 bytes over the cap on, the suffix is no longer than what is cut. */
  lemma DigitsPaid(d: nat)
    requires 25 <= d <= 4 * MAX_LENGTH
    ensures 23 + |Decimal(d)| <= d
  {
    hide Decimal;
    if d < 44 {
      assert Pow10(2) == 100;
      DecimalLength(d, 2);
    } else {
      LengthDigits(d);
    }
  }

  lemma ClipNeverCosts(s: Bytes, max: nat)
    requires max + 25 <= |s| <= 4 * MAX_LENGTH
    ensures |Escape(TruncateText(s, max).text)| <= |Escape(s)|
  {
    hide Escape, TruncateText, Decimal;
    var cut := BackOff(s, max);
    ClipCost(s, max);
    EscapeSize(s[cut..]);
    DigitsPaid(|s| - max);
  }

  // ---------------------------------------------------------------- when a real limit is named

  /** A degraded result is blamed on a limit that was in fact exceeded. */
  ghost predicate Named(r: Result, encode: Encoder) {
    Fit(r, encode).tier != AsGiven ==> ExceededLimit(r) != NoLimit
  }

  lemma NamedIff(r: Result, encode: Encoder)
    ensures Named(r, encode) <==> !Fits(r) || Fits(ClipStderr(r))
  {
    hide FitObject, OversizeFailure, TruncateText;
    TierAsGiven(ClipStderr(r), ExceededLimit(r), StderrLog(r), encode);
  }

  lemma TierAsGiven(c: Result, limit: Limit, log: seq<LogNote>, encode: Encoder)
    ensures FitClipped(c, limit, log, encode).tier == AsGiven <==> Fits(c)
  {
    hide Fits, StageIndex, StageBulk, StageBound, StageScalars, LastResort, OversizeFailure, LastResortNote;
  }

  lemma MarshalStderr(r: Result, stderr: Bytes)
    ensures |Marshal(r.(stderr := stderr))| - |Escape(stderr)| == |Marshal(r)| - |Escape(r.stderr)|
  {
  }

  /** In bytes: a deliverable result is degraded with no limit to name exactly when the escaped suffix pushes
      the marshalled result over the frame. */
  lemma NamedByMeasure(r: Result, encode: Encoder)
    requires Fits(r)
    ensures Named(r, encode) <==>
            |Marshal(r)| - |Escape(r.stderr)| + |Escape(TruncateText(r.stderr, MAX_TEXT).text)| <= RESULT_PAYLOAD_BUDGET
  {
    hide Marshal, Escape, TruncateText, Named, ExceededLimit;
    NamedIff(r, encode);
    FitsIff(r);
    FitsIff(ClipStderr(r));
    MarshalStderr(r, ClipStderr(r).stderr);
  }

  lemma LongIsNamed(r: Result, encode: Encoder)
    requires MAX_TEXT + 25 <= |r.stderr| <= MAX_LENGTH
    ensures Named(r, encode)
  {
    hide Marshal, Escape, TruncateText, ExceededLimit, Fit, Named;
    NamedIff(r, encode);
    FitsIff(r);
    if Fits(r) {
      NamedByMeasure(r, encode);
      ClipNeverCosts(r.stderr, MAX_TEXT);
    }
  }

  lemma ShortIsNamed(r: Result, encode: Encoder)
    requires |r.stderr| <= MAX_TEXT
    ensures Named(r, encode)
  {
    hide Fits, Named;
    NamedIff(r, encode);
    assert ClipStderr(r) == r;
  }

  // ---------------------------------------------------------------- results on the edge

  function Letters(n: nat): (s: Bytes)
    ensures |s| == n && forall i :: 0 <= i < n ==> s[i] == 'a'
  {
    seq(n, _ => 'a')
  }

  lemma LettersEscape(n: nat)
    ensures Escape(Letters(n)) == Letters(n)
  {
    UnescapedText(Letters(n));
  }

  lemma MarshalId(r: Result, id: Bytes)
    ensures |Marshal(r.(commandId := id))| == |Marshal(r.(commandId := ""))| + |Escape(id)|
  {
  }

  /** A result that fills the frame exactly, its stderr d bytes over the cap. */
  function OnTheEdge(d: nat): (r: Result) {
    var r := Result("", true, Stdout("{}", Some(Body(map[], map[]))), Letters(MAX_TEXT + d), 0);
    var n := RESULT_PAYLOAD_BUDGET - |Marshal(r)|;
    r.(commandId := Letters(if n < 0 then 0 else n))
  }

  lemma EdgeSize(d: nat)
    requires d <= 24
    ensures |Marshal(OnTheEdge(d))| == RESULT_PAYLOAD_BUDGET && Fits(OnTheEdge(d))
  {
    hide Marshal, Letters;
    var r := OnTheEdge(d).(commandId := "");
    MarshalSize(r);
    EscapeSize(r.stdout.text);
    EmptyEscape();
    ZeroDecimal();
    LettersEscape(MAX_TEXT + d);
    LettersEscape(|OnTheEdge(d).commandId|);
    MarshalId(r, OnTheEdge(d).commandId);
    FitsIff(OnTheEdge(d));
  }

  lemma ZeroDecimal()
    ensures |SignedDecimal(0)| <= 20
  {
  }

  lemma DecimalTwo(d: nat)
    requires d == 24
    ensures |Decimal(d)| == 2
  {
  }

  /** Up to 24 bytes over the cap the suffix outweighs what it replaces: a result that meets every limit is
      degraded all the same, with no limit to name. */
  lemma UnnamedLimit(d: nat, encode: Encoder)
    requires 1 <= d <= 24
    ensures Fits(OnTheEdge(d)) && ExceededLimit(OnTheEdge(d)) == NoLimit
    ensures Fit(OnTheEdge(d), encode).tier != AsGiven
  {
    hide Marshal, Escape, Letters, TruncateText, Fit, ExceededLimit, Decimal;
    var r := OnTheEdge(d);
    EdgeSize(d);
    var s := Letters(MAX_TEXT + d);
    assert r.stderr == s;
    ClipCost(s, MAX_TEXT);
    assert BackOff(s, MAX_TEXT) == MAX_TEXT;
    assert Unescaped(s[MAX_TEXT..]);
    UnescapedText(s[MAX_TEXT..]);
    if d == 24 { DecimalTwo(d); }
    NamedByMeasure(r, encode);
  }

  /** Every result with a stderr of n bytes names a real limit whenever it is degraded, exactly when n is
      within the cap or at least 25 bytes over it. */
  lemma NamedByLength(n: nat, encode: Encoder)
    requires n <= MAX_LENGTH
    ensures (forall r: Result :: |r.stderr| == n ==> Named(r, encode)) <==> n <= MAX_TEXT || n >= MAX_TEXT + 25
  {
    hide Named, Marshal, Letters;
    if n <= MAX_TEXT || n >= MAX_TEXT + 25 {
      forall r: Result | |r.stderr| == n ensures Named(r, encode) {
        if n <= MAX_TEXT { ShortIsNamed(r, encode); } else { LongIsNamed(r, encode); }
      }
    } else {
      EdgeUnnamed(n - MAX_TEXT, encode);
    }
  }

  lemma EdgeUnnamed(d: nat, encode: Encoder)
    requires 1 <= d <= 24
    ensures |OnTheEdge(d).stderr| == MAX_TEXT + d && !Named(OnTheEdge(d), encode)
  {
    hide Marshal, Fit, ExceededLimit;
    UnnamedLimit(d, encode);
  }
}
