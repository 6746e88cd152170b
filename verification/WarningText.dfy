/** The run's own warning text survives: what repeated appends keep of it, and the one text they lose. */
module WarningText {
  import opened Bytes
  import opened WarningNotes
  import opened NotePreservation

  /** What the clamp keeps of a warning: its neutralised text, cut on a rune boundary when over budget. */
  function Kept(w: Bytes): (k: Bytes)
    ensures |k| <= MAX_RUN_TEXT
  {
    var n := Neutralize(w);
    if |n| <= MAX_RUN_TEXT then n else n[..BackOff(n, MAX_RUN_TEXT)]
  }

  // ---------------------------------------------------------------- clipping again

  lemma {:induction false} BackOffAtLeast(s: Bytes, cut: nat, c: nat)
    requires c <= cut < |s| && Utf8Start(s[c])
    ensures BackOff(s, cut) >= c
  {
    if cut > c { BackOffAtLeast(s, cut - 1, c); }
  }

  /** Text that is `k`, or goes on behind it with a byte that starts a rune and does not end in the marker's head. */
  predicate Leads(k: Bytes, t: Bytes) {
    k <= t && (k == t || (Utf8Start(t[|k|]) && !EndsWith(t, MARKER_HEAD)))
  }

  lemma SuffixEnds(p: Bytes, d: nat)
    ensures !EndsWith(p + TruncationSuffix(d), MARKER_HEAD)
    ensures Utf8Start((p + TruncationSuffix(d))[|p|])
  {
    var t, tail := p + TruncationSuffix(d), TRUNCATION_TAIL;
    assert TRUNCATION_LEAD[0] == '\U{E2}';
    assert tail[|tail| - 1] == ')';
    assert t[|t| - 1] == ')';
    assert MARKER_HEAD[11] == ':';
    assert |t| >= 12 ==> t[|t| - 12..][11] == t[|t| - 1];
  }

  /** A cut at or behind `k`, with any suffix of the clamp, still has `k` in front. */
  lemma CutLeads(k: Bytes, t: Bytes, c: nat, d: nat)
    requires k <= t && |k| <= c < |t| && (|k| < c ==> Utf8Start(t[|k|]))
    ensures Leads(k, t[..c] + TruncationSuffix(d))
  {
    hide TruncationSuffix, EndsWith;
    SuffixEnds(t[..c], d);
    SuffixStarts(d);
  }

  lemma SuffixStarts(d: nat)
    ensures TruncationSuffix(d) != "" && Utf8Start(TruncationSuffix(d)[0])
  {
  }

  lemma ClipLeads(k: Bytes, t: Bytes)
    requires Leads(k, t) && |k| <= MAX_RUN_TEXT && LabelFree(t)
    ensures Leads(k, RunText(t)) && LabelFree(RunText(t))
  {
    hide LabelFree, TruncationSuffix, Neutralize, BackOff, EndsWith;
    NeutralizeLabelFree(t);
    RunTextIsLabelFree(t);
    if |t| > MAX_RUN_TEXT {
      BackOffAtLeast(t, MAX_RUN_TEXT, |k|);
      CutLeads(k, t, BackOff(t, MAX_RUN_TEXT), |t| - MAX_RUN_TEXT);
    }
  }

  lemma RunTextLeads(w: Bytes)
    ensures Leads(Kept(w), RunText(w)) && LabelFree(RunText(w))
  {
    hide LabelFree, TruncationSuffix, Neutralize, BackOff, EndsWith;
    var n := Neutralize(w);
    RunTextIsLabelFree(w);
    if |n| > MAX_RUN_TEXT {
      CutLeads(Kept(w), n, BackOff(n, MAX_RUN_TEXT), |n| - MAX_RUN_TEXT);
    }
  }

  // ---------------------------------------------------------------- the invariant

  /** `k` leads the text of `w`, or the split has moved the end of it, a marker's head, to the notes. */
  ghost predicate Keeps(w: Bytes, k: Bytes) {
    var p := Split(w);
    && LabelFree(p.text) && (p.text == "" ==> GoodNotes(p.notes))
    && (Leads(k, p.text) ||
        (p.text != "" && k == p.text + MARKER_HEAD && MARKER_REST <= p.notes && !EndsWith(p.text, MARKER_HEAD)))
  }

  lemma SplitStarts(w: Bytes)
    ensures Split(w).text <= w
    ensures Split(w).text != "" && Split(w).notes != "" ==> Split(w).text + MARKER + Split(w).notes == w
  {
    var i := Index(w, MARKER);
    if i >= 0 { assert w == w[..i] + w[i..i + |MARKER|] + w[i + |MARKER|..]; }
  }

  lemma KeepsPrefix(w: Bytes, k: Bytes)
    requires Keeps(w, k)
    ensures k <= w
  {
    SplitStarts(w);
    var p := Split(w);
    if !Leads(k, p.text) {
      assert MARKER == MARKER_HEAD + " ";
      assert w == k + " " + p.notes;
    }
  }

  /** One append keeps it, unless it is the marker's head alone. */
  lemma AppendKeeps(w: Bytes, k: Bytes, fragment: Bytes)
    requires Keeps(w, k) && k != MARKER_HEAD && |k| <= MAX_RUN_TEXT && GoodFragment(fragment)
    requires |AddNote(Split(w).notes, fragment)| <= MAX_NOTES
    ensures Keeps(AppendNote(w, fragment), k)
  {
    var p, n := Split(w), AddNote(Split(w).notes, fragment);
    FragmentStays(p.notes, fragment);
    if Leads(k, p.text) {
      ClipLeads(k, p.text);
      if p.text == "" { AddNoteIsGood(p.notes, fragment); }
      JoinKeeps(RunText(p.text), n, k);
    } else {
      NeutralizeLabelFree(p.text);
      assert RunText(p.text) == p.text;
      SplitMarked(p.text, n);
    }
  }

  lemma FragmentStays(notes: Bytes, fragment: Bytes)
    requires fragment != ""
    ensures AddNote(notes, fragment) != "" && notes <= AddNote(notes, fragment)
  {
  }

  lemma JoinKeeps(t: Bytes, n: Bytes, k: Bytes)
    requires Leads(k, t) && LabelFree(t) && n != "" && k != MARKER_HEAD && (t == "" ==> GoodNotes(n))
    ensures Keeps(Join(t, n), k)
  {
    if t == "" {
      SplitLabelled(n);
    } else {
      SplitMarked(t, n);
      if EndsWith(t, MARKER_HEAD) {
        var cut := |t| - 12;
        LabelFreePrefix(t, cut);
        assert t == t[..cut] + MARKER_HEAD;
        if EndsWith(t[..cut], MARKER_HEAD) { HeadTwice(t); }
      }
    }
  }

  lemma ComposeKeeps(w: Bytes)
    ensures Compose(w, "") == RunText(w) && Keeps(RunText(w), Kept(w))
  {
    ComposeNoNotes(w);
    RunTextLeads(w);
    SplitPlain(RunText(w));
    NoLetterNoLabel("");
  }

  // ---------------------------------------------------------------- the one text that is lost

  /** What has become, after n appends, of a warning of which the clamp kept `k`. */
  ghost predicate TextAfter(w: Bytes, k: Bytes, n: nat) {
    if k != MARKER_HEAD then Keeps(w, k)
    else if n == 0 then w == MARKER_HEAD
    else if n == 1 then MARKER_HEAD <= w && Split(w).text == "" && MARKER_REST <= Split(w).notes
    else Split(w).text == "bounded:"
  }

  lemma HeadKept(w: Bytes)
    requires ValidUtf8(w) && Kept(w) == MARKER_HEAD
    ensures RunText(w) == MARKER_HEAD
  {
    hide Neutralize, ValidUtf8, BackOff;
    var n := Neutralize(w);
    NeutralizeIsValid(w);
    if |n| > MAX_RUN_TEXT { BackOffNear(n, MAX_RUN_TEXT); }
  }

  lemma TextStarts(w: Bytes)
    requires ValidUtf8(w)
    ensures TextAfter(RunText(w), Kept(w), 0)
  {
    ComposeKeeps(w);
    if Kept(w) == MARKER_HEAD { HeadKept(w); }
  }

  lemma HeadAppend(fragment: Bytes)
    requires GoodFragment(fragment)
    ensures TextAfter(AppendNote(MARKER_HEAD, fragment), MARKER_HEAD, 1)
  {
    hide GoodNotes;
    MarkerHeadIsLabelFree();
    SplitPlain(MARKER_HEAD);
    var n := AddNote("", fragment);
    ShortNote(fragment);
    NeutralizeLabelFree(MARKER_HEAD);
    ComposeShort(MARKER_HEAD, n);
    SplitMarked(MARKER_HEAD, n);
    assert MARKER_HEAD[..0] == "";
  }

  lemma ShortNote(fragment: Bytes)
    requires GoodFragment(fragment)
    ensures 0 < |AddNote("", fragment)| <= MAX_NOTES
  {
    NoLetterNoLabel("");
    AddNoteIsGood("", fragment);
  }

  /** A second append reads the absorbed head back as notes and drops its first four bytes. */
  lemma HeadAppendTwice(w: Bytes, fragment: Bytes)
    requires TextAfter(w, MARKER_HEAD, 1) && |AddNote(Split(w).notes, fragment)| <= MAX_NOTES
    ensures TextAfter(AppendNote(w, fragment), MARKER_HEAD, 2)
  {
    var n := AddNote(Split(w).notes, fragment);
    assert MARKER_REST <= n;
    assert n == MARKER_REST + n[|MARKER_REST|..];
    NoLetterNoLabel("");
    ComposeShort("", n);
    SplitLabelledRest(n[|MARKER_REST|..]);
  }

  lemma BoundedAppend(w: Bytes, fragment: Bytes)
    requires Split(w).text == "bounded:" && fragment != "" && |AddNote(Split(w).notes, fragment)| <= MAX_NOTES
    ensures Split(AppendNote(w, fragment)).text == "bounded:"
  {
    var n := AddNote(Split(w).notes, fragment);
    FragmentStays(Split(w).notes, fragment);
    NoLetterNoLabelShort();
    ComposeShort("bounded:", n);
    SplitMarked("bounded:", n);
  }

  /** One more append. */
  lemma TextAppend(w: Bytes, k: Bytes, n: nat, fragment: Bytes)
    requires TextAfter(w, k, n) && |k| <= MAX_RUN_TEXT && GoodFragment(fragment)
    requires |AddNote(Split(w).notes, fragment)| <= MAX_NOTES
    ensures TextAfter(AppendNote(w, fragment), k, n + 1)
  {
    hide AppendNote, Keeps, GoodNotes, Split;
    if k != MARKER_HEAD {
      AppendKeeps(w, k, fragment);
    } else if n == 0 {
      HeadAppend(fragment);
    } else if n == 1 {
      HeadAppendTwice(w, fragment);
    } else {
      BoundedAppend(w, fragment);
    }
  }

  /** The kept text leads the warning, unless it is the marker's head alone and two notes were appended. */
  lemma TextMeans(w: Bytes, k: Bytes, n: nat)
    requires TextAfter(w, k, n)
    ensures k <= w <==> k != MARKER_HEAD || n <= 1
  {
    SplitStarts(w);
    if k != MARKER_HEAD {
      KeepsPrefix(w, k);
    } else if n > 1 {
      assert w[0] == 'b' && MARKER_HEAD[0] == ' ';
    }
  }

  /** A run warning that is the marker's head alone survives one note and is lost with the second. */
  lemma HeadLost(first: Bytes, second: Bytes)
    requires GoodFragment(first) && GoodFragment(second)
    ensures var once := AppendNote(Compose(MARKER_HEAD, ""), first);
            MARKER_HEAD <= once && !(MARKER_HEAD <= AppendNote(once, second))
  {
    hide GoodNotes, AppendNote, Split;
    MarkerHeadIsLabelFree();
    ComposeShort(MARKER_HEAD, "");
    HeadAppend(first);
    var once := AppendNote(MARKER_HEAD, first);
    TextMeans(once, MARKER_HEAD, 1);
    HeadRoom(first, second);
    HeadAppendTwice(once, second);
    TextMeans(AppendNote(once, second), MARKER_HEAD, 2);
  }

  lemma HeadRoom(first: Bytes, second: Bytes)
    requires GoodFragment(first) && GoodFragment(second)
    ensures |AddNote(Split(AppendNote(MARKER_HEAD, first)).notes, second)| <= MAX_NOTES
  {
    hide GoodNotes;
    MarkerHeadIsLabelFree();
    SplitPlain(MARKER_HEAD);
    var n := AddNote("", first);
    ShortNote(first);
    NeutralizeLabelFree(MARKER_HEAD);
    ComposeShort(MARKER_HEAD, n);
    SplitMarked(MARKER_HEAD, n);
    TruncateTextBound(first, MAX_NOTE);
    TruncateTextBound(second, MAX_NOTE);
  }
}
