/** The result around its body: which command it answers, what it says of the failure, and the numbers its
texts name. */
module ResultFields {
  import opened Options
  import opened Bytes
  import opened SortedKeys
  import opened ResultBounds
  import opened ResultContents

  // ---------------------------------------------------------------- the fields beside stdout

  /** `t` begins with `s` up to `cut`, the last rune boundary within the cap. */
  ghost predicate BeginsAt(s: Bytes, max: nat, t: Bytes, cut: nat) {
    && cut <= max < |s|
    && (cut == 0 || Utf8Start(s[cut]))
    && (forall j :: cut < j <= max ==> IsContinuation(s[j]))
    && (ValidUtf8(s) ==> max <= cut + 3)
    && s[..cut] <= t
  }

  /** `t` is `s` when that is short, and begins with it otherwise. */
  ghost predicate BeginsLike(s: Bytes, max: nat, t: Bytes) {
    if |s| <= max then t == s else exists cut: nat :: BeginsAt(s, max, t, cut)
  }

  lemma ShortenedBegins(s: Bytes, max: nat, t: Bytes)
    requires Shortened(s, max, t)
    ensures BeginsLike(s, max, t)
  {
    hide Renders, ValidUtf8;
    if |s| > max {
      var cut: nat, digits: Bytes :| CutOnRune(s, max, t, cut, digits);
      assert BeginsAt(s, max, t, cut);
    }
  }

  lemma {:induction false} BackOffAgrees(s: Bytes, t: Bytes, cut: nat)
    requires cut < |s| && cut < |t| && s[..cut + 1] == t[..cut + 1]
    ensures BackOff(s, cut) == BackOff(t, cut)
  {
    assert s[cut] == s[..cut + 1][cut] == t[cut];
    if cut > 0 && !Utf8Start(s[cut]) {
      assert s[..cut] == s[..cut + 1][..cut] == t[..cut];
      BackOffAgrees(s, t, cut - 1);
    }
  }

  /** A rune boundary is not backed over. */
  lemma {:induction false} BackOffStops(t: Bytes, cut: nat, c: nat)
    requires c <= cut < |t| && Utf8Start(t[c])
    ensures c <= BackOff(t, cut)
  {
    if cut > c && !Utf8Start(t[cut]) { BackOffStops(t, cut - 1, c); }
  }

  lemma ClipKeeps(t: Bytes, max: nat, c: nat)
    requires c <= |t| && (|t| > max ==> c <= BackOff(t, max))
    ensures t[..c] <= TruncateText(t, max).text
  {
    hide TruncationSuffix, BackOff;
  }

  lemma ClipBegins(s: Bytes, max: nat)
    ensures BeginsLike(s, max, TruncateText(s, max).text)
  {
    hide Shortened, TruncateText, BeginsLike;
    TruncateTextCut(s, max);
    ShortenedBegins(s, max, TruncateText(s, max).text);
  }

  /** Clipping twice keeps the head of the original. */
  lemma ClippedTwice(s: Bytes, wide: nat, narrow: nat)
    requires narrow <= wide
    ensures BeginsLike(s, narrow, TruncateText(TruncateText(s, wide).text, narrow).text)
  {
    hide ValidUtf8, BackOff, Decimal, BeginsLike;
    if |s| <= wide {
      ClipBegins(s, narrow);
    } else {
      var t, c := TruncateText(s, wide).text, BackOff(s, wide);
      assert t[..c] == s[..c] && t[c] == '\U{E2}';
      if c <= narrow {
        NarrowInside(s, wide, narrow);
      } else {
        assert s[..narrow + 1] == s[..c][..narrow + 1] == t[..narrow + 1];
        BackOffAgrees(s, t, narrow);
        ClipBegins(s, narrow);
        SameHead(s, t, narrow);
      }
    }
  }

  /** The wide cut already fell within the narrow cap. */
  lemma NarrowInside(s: Bytes, wide: nat, narrow: nat)
    requires narrow <= wide < |s| && BackOff(s, wide) <= narrow
    ensures BeginsLike(s, narrow, TruncateText(TruncateText(s, wide).text, narrow).text)
  {
    hide ValidUtf8, BackOff, Decimal;
    var t, c := TruncateText(s, wide).text, BackOff(s, wide);
    assert t[..c] == s[..c] && t[c] == '\U{E2}';
    if |t| > narrow { BackOffStops(t, narrow, c); }
    ClipKeeps(t, narrow, c);
    BackOffSkips(s, wide);
    if ValidUtf8(s) { BackOffNear(s, wide); }
    assert BeginsAt(s, narrow, TruncateText(t, narrow).text, c);
  }

  lemma SameHead(s: Bytes, t: Bytes, max: nat)
    requires max < |s| && max < |t| && s[..max + 1] == t[..max + 1] && BackOff(s, max) == BackOff(t, max)
    ensures BeginsLike(s, max, TruncateText(t, max).text)
  {
    hide ValidUtf8, BackOff, Decimal;
    var c := BackOff(s, max);
    assert s[..c] == s[..max + 1][..c] == t[..c];
    ClipKeeps(t, max, c);
    BackOffSkips(s, max);
    if ValidUtf8(s) { BackOffNear(s, max); }
    assert BeginsAt(s, max, TruncateText(t, max).text, c);
  }

  lemma SelectFields(fits: Result -> bool, r: Result, s1: Stage, s2: Stage, s3: Stage, s4: Stage,
                     last: Stdout, lastNote: Bytes, limit: Limit, log: seq<LogNote>, encode: Encoder)
    ensures var f := Select(fits, r, s1, s2, s3, s4, last, lastNote, limit, log, encode);
            && f.result.durationMs == r.durationMs && f.result.success == r.success
            && f.tier !in {AsGiven, Failed}
            && (f.tier != Minimal ==>
                  && f.result.commandId == r.commandId && f.result.stderr == r.stderr
                  && f.result.stdout.parsed.Some?
                  && f.result.stdout.text == encode(f.result.stdout.parsed.value.fields))
            && (f.tier == Minimal ==>
                  && f.result.commandId == TruncateText(r.commandId, 1024).text
                  && f.result.stderr == TruncateText(r.stderr, 1024).text
                  && f.result.stdout == last)
  {
    hide TruncateText;
  }

  /** What is left of the result's own fields, by tier. */
  ghost predicate FieldsKept(r: Result, d: Result, tier: Tier) {
    && d.durationMs == r.durationMs
    && (tier == AsGiven ==> d.stdout == r.stdout)
    && (tier !in {Minimal, Failed} ==> d.commandId == r.commandId && Shortened(r.stderr, 8192, d.stderr))
    && (tier in {Minimal, Failed} ==> Shortened(r.commandId, 1024, d.commandId))
    && (tier == Minimal ==> BeginsLike(r.stderr, 1024, d.stderr))
    && (tier != Failed ==> d.success == r.success)
    && (tier == Failed ==> !d.success && d.stdout.text == "")
  }

  lemma ClippedFields(r: Result)
    ensures var c := ClipStderr(r);
            && c == r.(stderr := c.stderr)
            && Shortened(r.stderr, 8192, c.stderr)
            && Shortened(r.commandId, 1024, TruncateText(r.commandId, 1024).text)
            && BeginsLike(r.stderr, 1024, TruncateText(c.stderr, 1024).text)
  {
    hide Shortened, BeginsLike, TruncateText;
    TruncateTextCut(r.stderr, 8192);
    TruncateTextCut(r.commandId, 1024);
    ClippedTwice(r.stderr, 8192, 1024);
  }

  /** The delivered result answers the command it was given for, takes as long, and its stderr is the given
      one under its cap or, in the last tier, begins like it; a body is delivered as its own encoding. */
  lemma ResultAnswers(r: Result, encode: Encoder)
    ensures FieldsKept(r, Fit(r, encode).result, Fit(r, encode).tier)
    ensures Fit(r, encode).tier in {IndexEmptied, BulkDropped, ManifestsDropped, ScalarsOnly} ==>
              var d := Fit(r, encode).result.stdout; d.parsed.Some? && d.text == encode(d.parsed.value.fields)
  {
    hide Select, Fits, StageIndex, StageBulk, StageBound, StageScalars, LastResort, LastResortNote, OversizeMessage,
    ExceededLimit, StderrLog, TruncateText, Shortened, BeginsLike;
    ClippedFields(r);
    var c, limit, log := ClipStderr(r), ExceededLimit(r), StderrLog(r);
    if !Fits(c) && c.stdout.parsed.Some? {
      var b := c.stdout.parsed.value;
      SelectFields(Fits, c, S1(b, limit), S2(b, limit), S3(b, limit), S4(b, limit),
                   LastResort(S4(b, limit).body, limit), LastResortNote(limit), limit, log, encode);
    }
  }

  // ---------------------------------------------------------------- the numbers the texts name

  /** The threshold that was crossed and what imposes it, as operators read it. */
  function LimitText(l: Limit): (s: Bytes) {
    match l
    case NoLimit => "0" + " byte " + ""
    case ServerResult => "4934464" + " byte " + "server result budget"
    case IpcFrame => "16711680" + " byte " + "agent IPC budget"
    case ResultText => "8192" + " byte " + "free-text field cap"
  }

  lemma {:induction false} ValueAppend(d: Bytes, c: char)
    requires IsDigits(d) && '0' <= c <= '9'
    ensures IsDigits(d + [c]) && Value(d + [c]) == 10 * Value(d) + (c as int - '0' as int)
  {
    assert (d + [c])[..|d|] == d;
  }

  lemma FourDigits(d: Bytes, n: nat)
    requires |d| == 4 && IsDigits(d)
    requires n == 1000 * (d[0] as int - 48) + 100 * (d[1] as int - 48) + 10 * (d[2] as int - 48) + (d[3] as int - 48)
    ensures Value(d) == n
  {
    ValueAppend("", d[0]);
    ValueAppend("" + [d[0]], d[1]);
    ValueAppend("" + [d[0]] + [d[1]], d[2]);
    ValueAppend("" + [d[0]] + [d[1]] + [d[2]], d[3]);
    assert d == "" + [d[0]] + [d[1]] + [d[2]] + [d[3]];
  }

  /** Four more digits behind some. */
  lemma FourMore(a: Bytes, d: Bytes)
    requires IsDigits(a) && |d| == 4 && IsDigits(d)
    ensures IsDigits(a + d) && Value(a + d) == 10000 * Value(a) + Value(d)
  {
    ValueAppend(a, d[0]);
    ValueAppend(a + [d[0]], d[1]);
    ValueAppend(a + [d[0]] + [d[1]], d[2]);
    ValueAppend(a + [d[0]] + [d[1]] + [d[2]], d[3]);
    assert a + d == a + [d[0]] + [d[1]] + [d[2]] + [d[3]];
    FourDigits(d, 1000 * (d[0] as int - 48) + 100 * (d[1] as int - 48) + 10 * (d[2] as int - 48) + (d[3] as int - 48));
  }

  lemma LeadReads()
    ensures IsDigits("493") && Value("493") == 493
  {
    ValueAppend("", '4');
    ValueAppend("4", '9');
    ValueAppend("49", '3');
    assert "" + ['4'] == "4" && "4" + ['9'] == "49" && "49" + ['3'] == "493";
  }

  lemma ServerBudgetReads()
    ensures Decimal(4934464) == "4934464"
  {
    hide Value;
    FourMore("493", "4464");
    LeadReads();
    FourDigits("4464", 4464);
    assert "493" + "4464" == "4934464";
    RendersOnce("4934464", 4934464);
  }

  lemma FrameBudgetReads()
    ensures Decimal(16711680) == "16711680"
  {
    FourMore("1671", "1680");
    FourDigits("1671", 1671);
    FourDigits("1680", 1680);
    assert "1671" + "1680" == "16711680";
    RendersOnce("16711680", 16711680);
  }

  lemma TextCapReads()
    ensures Decimal(8192) == "8192" && Decimal(0) == "0"
  {
    FourDigits("8192", 8192);
    RendersOnce("8192", 8192);
  }

  lemma DescribeReads(l: Limit)
    ensures l.Describe() == LimitText(l)
  {
    hide Decimal;
    ServerBudgetReads();
    FrameBudgetReads();
    TextCapReads();
  }

  /** The notes word for word: the count and the threshold are the real numbers. */
  lemma NotesRead(l: Limit, entries: nat, digits: Bytes, ks: set<Bytes>)
    requires Renders(digits, entries)
    ensures IndexNote(entries, l) ==
            "snapshot file index omitted " + "(" + (digits + " entries") + ")" +
            (": the result exceeded the " + LimitText(l) + "," +
             (" so per-file restore" + " browsing is unavailable" + " for this snapshot"))
    ensures FieldsNote(ks, l) ==
            "detail field(s) omitted " + "(" + JoinKeys(Sorted(ks)) + ")" + (": the result exceeded the " + LimitText(l))
    ensures LastResortNote(l) ==
            ("backup result exceeded the " + LimitText(l) + " and wa") + "s" +
            (" reduced to a terminal" + " status; detail was dropped")
  {
    hide Decimal, LimitText, Sorted, JoinKeys;
    DescribeReads(l);
    RendersOnce(digits, entries);
  }

  ghost predicate FailureText(stderr: Bytes, l: Limit, original: nat, digits: Bytes) {
    && Renders(digits, original)
    && stderr ==
       "backup helper result exceeded the " + LimitText(l) + " (" + digits +
       " bytes) and could not be summarised; the command may have succeeded but its output could not be delivered"
  }

  lemma OversizeReads(l: Limit, original: nat)
    ensures FailureText(OversizeMessage(l, original), l, original, Decimal(original))
  {
    hide Decimal, LimitText;
    DescribeReads(l);
    DecimalRenders(original);
  }

  /** An oversize failure says which limit was exceeded and how many bytes of stdout and clipped stderr went. */
  lemma FailureSays(r: Result, encode: Encoder) returns (clipped: Bytes, digits: Bytes)
    ensures Shortened(r.stderr, 8192, clipped)
    ensures var f := Fit(r, encode);
            f.tier == Failed ==> FailureText(f.result.stderr, ExceededLimit(r), |r.stdout.text| + |clipped|, digits)
  {
    hide FailureText, OversizeMessage, Shortened, FitObject, Fits, ExceededLimit, StderrLog, TruncateText;
    ClippedFields(r);
    var c := ClipStderr(r);
    clipped := c.stderr;
    digits := Decimal(|r.stdout.text| + |clipped|);
    OversizeReads(ExceededLimit(r), |r.stdout.text| + |clipped|);
    if !Fits(c) && c.stdout.parsed.Some? {
      ObjectNeverFails(c, c.stdout.parsed.value, ExceededLimit(r), StderrLog(r), encode);
    }
  }

  lemma ObjectNeverFails(r: Result, b: Body, limit: Limit, log: seq<LogNote>, encode: Encoder)
    ensures FitObject(r, b, limit, log, encode).tier != Failed
  {
    hide Select, Fits, StageIndex, StageBulk, StageBound, StageScalars, LastResort, LastResortNote;
    SelectFields(Fits, r, S1(b, limit), S2(b, limit), S3(b, limit), S4(b, limit),
                 LastResort(S4(b, limit).body, limit), LastResortNote(limit), limit, log, encode);
  }

  lemma SelectLimit(fits: Result -> bool, r: Result, s1: Stage, s2: Stage, s3: Stage, s4: Stage,
                    last: Stdout, lastNote: Bytes, limit: Limit, log: seq<LogNote>, encode: Encoder)
    ensures var f := Select(fits, r, s1, s2, s3, s4, last, lastNote, limit, log, encode);
            f.limit == if limit == NoLimit && f.log != [] then ResultText else limit
  {
    hide Carry, Shrunk;
  }

  /** The limit the log line names is the one the result as given exceeded, or the free-text cap when it
      exceeded none and something was dropped all the same. */
  lemma LimitAttributed(r: Result, encode: Encoder)
    ensures var f := Fit(r, encode);
            && (ExceededLimit(r) != NoLimit ==> f.limit == ExceededLimit(r))
            && (ExceededLimit(r) == NoLimit ==> f.limit == if f.log == [] then NoLimit else ResultText)
  {
    hide Select, Fits, StageIndex, StageBulk, StageBound, StageScalars, LastResort, LastResortNote, OversizeFailure,
    ExceededLimit, StderrLog, TruncateText;
    var c, limit, log := ClipStderr(r), ExceededLimit(r), StderrLog(r);
    if !Fits(c) && c.stdout.parsed.Some? {
      var b := c.stdout.parsed.value;
      SelectLimit(Fits, c, S1(b, limit), S2(b, limit), S3(b, limit), S4(b, limit),
                  LastResort(S4(b, limit).body, limit), LastResortNote(limit), limit, log, encode);
    }
  }
}
