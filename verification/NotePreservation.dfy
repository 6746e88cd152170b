/** Every bounding note reaches the delivered warning: what repeated appends keep. */
module NotePreservation {
  import opened Bytes
  import opened WarningNotes

  // ---------------------------------------------------------------- neutralising keeps UTF-8 valid

  lemma NeutralizeStep(s: Bytes)
    requires s != "" && s[0] != 'b'
    ensures Neutralize(s) == [s[0]] + Neutralize(s[1..])
  {
    if |s| < |LABEL| {
      assert s == [s[0]] + s[1..];
    } else {
      assert s[..|LABEL|][0] == s[0] && LABEL[0] == 'b';
    }
  }

  /** Bytes that cannot start a label are copied one by one. */
  lemma {:induction false} NeutralizeCopies(s: Bytes, k: nat)
    requires k <= |s| && forall j :: 0 <= j < k ==> s[j] != 'b'
    ensures Neutralize(s) == s[..k] + Neutralize(s[k..])
  {
    hide Neutralize;
    if k == 0 {
      assert s[k..] == s && s[..k] == "";
    } else {
      NeutralizeStep(s);
      NeutralizeCopies(s[1..], k - 1);
      assert s[..k] == [s[0]] + s[1..][..k - 1];
      assert s[1..][k - 1..] == s[k..];
    }
  }

  /** A rune that does not start a label is copied whole. */
  lemma NeutralizeCopiesRune(s: Bytes)
    requires RuneLen(s) > 0 && !(LABEL <= s)
    ensures Neutralize(s) == s[..RuneLen(s)] + Neutralize(s[RuneLen(s)..])
  {
    if s[0] != 'b' {
      NeutralizeCopies(s, RuneLen(s));
    } else if |s| < |LABEL| {
      assert s == s[..1] + s[1..];
    }
  }

  lemma {:induction false} ValidAfterAscii(s: Bytes, k: nat)
    requires ValidUtf8(s) && k <= |s| && IsAscii(s[..k])
    ensures ValidUtf8(s[k..])
  {
    if k == 0 {
      assert s[k..] == s;
    } else {
      assert s[0] == s[..k][0];
      assert s[1..][..k - 1] == s[..k][1..];
      ValidAfterAscii(s[1..], k - 1);
      assert s[1..][k - 1..] == s[k..];
    }
  }

  lemma NeutralizeLabel(s: Bytes)
    requires LABEL <= s
    ensures Neutralize(s) == NEUTRALIZED + Neutralize(s[|LABEL|..])
    ensures IsAscii(s[..|LABEL|])
  {
    assert s[..|LABEL|] == LABEL;
  }

  lemma ValidTail(s: Bytes)
    requires ValidUtf8(s) && s != ""
    ensures RuneLen(s) > 0 && ValidUtf8(s[RuneLen(s)..])
  {
    hide RuneLen;
  }

  lemma NothingNeutralized()
    ensures Neutralize("") == ""
  {
  }

  lemma {:induction false} NeutralizeIsValid(s: Bytes)
    requires ValidUtf8(s)
    ensures ValidUtf8(Neutralize(s))
    decreases |s|
  {
    hide Neutralize, RuneLen, ValidUtf8;
    if s == "" {
      NothingNeutralized();
    } else if LABEL <= s {
      NeutralizeLabel(s);
      ValidAfterAscii(s, |LABEL|);
      NeutralizeIsValid(s[|LABEL|..]);
      AsciiIsValid(NEUTRALIZED);
      ValidConcat(NEUTRALIZED, Neutralize(s[|LABEL|..]));
    } else {
      var k := RuneLen(s);
      ValidTail(s);
      NeutralizeIsValid(s[k..]);
      NeutralizeCopiesRune(s);
      RuneIsValid(s);
      ValidConcat(s[..k], Neutralize(s[k..]));
    }
  }

  lemma RuneIsValid(s: Bytes)
    requires RuneLen(s) > 0
    ensures ValidUtf8(s[..RuneLen(s)])
  {
    var k := RuneLen(s);
    assert RuneLen(s[..k]) == k;
    assert s[..k][k..] == "";
  }

  lemma JoinIsValid(t: Bytes, n: Bytes)
    requires ValidUtf8(t) && ValidUtf8(n)
    ensures ValidUtf8(Join(t, n))
  {
    ValidAround("", LABEL, n);
    ValidAround(t, MARKER, n);
    assert "" + LABEL + n == LABEL + n;
  }

  lemma ValidAround(a: Bytes, m: Bytes, b: Bytes)
    requires ValidUtf8(a) && IsAscii(m) && ValidUtf8(b)
    ensures ValidUtf8(a + m + b)
  {
    AsciiIsValid(m);
    ValidConcat(a, m);
    ValidConcat(a + m, b);
  }

  // ---------------------------------------------------------------- the invariant of a composed warning

  /** Text that can stand in front of the notes: valid, free of the label, within its budget. */
  ghost predicate GoodText(t: Bytes) {
    LabelFree(t) && ValidUtf8(t) && |t| <= MAX_RUN_TEXT + MAX_SUFFIX
  }

  /** Notes the tiers wrote. */
  ghost predicate GoodNotes(n: Bytes) {
    LabelFree(n) && ValidUtf8(n)
  }

  /** `w` reads back with the notes `n`, at worst behind the rest of a marker the run's text absorbed. */
  ghost predicate Carries(w: Bytes, n: Bytes) {
    && GoodText(Split(w).text)
    && (Split(w).notes == n ||
        (n != "" && Split(w).notes == MARKER_REST + n && !EndsWith(Split(w).text, MARKER_HEAD)))
  }

  /** A warning that carries `n`, ends with `n`, is valid and within the free-text cap. */
  ghost predicate Delivers(w: Bytes, n: Bytes) {
    Carries(w, n) && EndsWith(w, n) && ValidUtf8(w) && |w| <= MAX_TEXT
  }

  lemma RunTextIsGood(text: Bytes)
    requires ValidUtf8(text) && |text| <= MAX_LENGTH
    ensures GoodText(RunText(text))
  {
    hide Neutralize, LabelFree, ValidUtf8, GoodText, TruncateText;
    NeutralizeIsLabelFree(text);
    NeutralizeIsValid(text);
    NeutralizeLength(text);
    ClipIsGood(Neutralize(text));
  }

  lemma ClipIsGood(s: Bytes)
    requires LabelFree(s) && ValidUtf8(s) && |s| <= 2 * MAX_LENGTH
    ensures GoodText(TruncateText(s, MAX_RUN_TEXT).text)
  {
    ClipIsLabelFree(s, MAX_RUN_TEXT);
    TruncateTextValid(s, MAX_RUN_TEXT);
    TruncateTextBound(s, MAX_RUN_TEXT);
  }

  /** Re-clipping text that is already good keeps it good. */
  lemma GoodTextAgain(t: Bytes)
    requires GoodText(t)
    ensures GoodText(RunText(t))
  {
    RunTextIsGood(t);
  }

  /** The warning before any note: tier 2's clamp of the run's own text. */
  lemma BoundedTextDelivers(text: Bytes)
    requires ValidUtf8(text) && |text| <= MAX_LENGTH
    ensures Delivers(Compose(text, ""), "")
  {
    RunTextIsGood(text);
    PlainDelivers(RunText(text));
    ComposeNoNotes(text);
  }

  lemma ComposeNoNotes(text: Bytes)
    ensures Compose(text, "") == RunText(text)
  {
    assert NotesText("") == "";
  }

  lemma PlainDelivers(t: Bytes)
    requires GoodText(t)
    ensures Delivers(t, "")
  {
    SplitPlain(t);
  }

  lemma CutHeadIsGood(t: Bytes)
    requires GoodText(t) && EndsWith(t, MARKER_HEAD)
    ensures GoodText(t[..|t| - 12]) && !EndsWith(t[..|t| - 12], MARKER_HEAD)
  {
    var cut := |t| - 12;
    assert EndsWith(t[..cut], MARKER_HEAD) ==> At(t, LABEL, cut - 8) by {
      if EndsWith(t[..cut], MARKER_HEAD) { HeadTwice(t); }
    }
    LabelFreePrefix(t, cut);
    assert t[cut] == t[cut..][0] == ' ';
    ValidCut(t, cut);
  }

  /** Two heads in a row spell the label. */
  lemma HeadTwice(t: Bytes)
    requires EndsWith(t, MARKER_HEAD) && EndsWith(t[..|t| - 12], MARKER_HEAD)
    ensures At(t, LABEL, |t| - 20)
  {
    var cut := |t| - 12;
    assert t[cut - 8..cut] == t[..cut][cut - 12..][4..] == "bounded:";
    assert t[cut] == t[cut..][0] == ' ';
    assert t[cut - 8..cut + 1] == t[cut - 8..cut] + [t[cut]];
    assert LABEL == "bounded:" + [' '];
  }

  /** Joining good text with good notes reads back with those notes. */
  lemma JoinCarries(t: Bytes, n: Bytes)
    requires GoodText(t) && GoodNotes(n) && n != ""
    ensures Carries(Join(t, n), n)
  {
    if t == "" {
      SplitLabelled(n);
    } else {
      SplitMarked(t, n);
      if EndsWith(t, MARKER_HEAD) { CutHeadIsGood(t); }
    }
  }

  /** The same when the run's text has already absorbed a marker: the notes are still found. */
  lemma JoinCarriesRest(t: Bytes, n: Bytes)
    requires GoodText(t) && GoodNotes(n) && n != ""
    requires !EndsWith(t, MARKER_HEAD)
    ensures Carries(Join(t, MARKER_REST + n), n)
  {
    if t == "" {
      SplitLabelledRest(n);
      BoundedIsGood();
    } else {
      SplitMarked(t, MARKER_REST + n);
    }
  }

  lemma BoundedIsGood()
    ensures GoodText("bounded:")
  {
    NoLetterNoLabelShort();
    AsciiIsValid("bounded:");
  }

  /** A joined warning ends with its notes, is valid, and keeps to the free-text cap. */
  lemma JoinShape(t: Bytes, m: Bytes)
    requires GoodText(t) && ValidUtf8(m) && 0 < |m| <= MAX_NOTES
    ensures EndsWith(Join(t, m), m) && ValidUtf8(Join(t, m)) && |Join(t, m)| <= MAX_TEXT
  {
    JoinIsValid(t, m);
  }

  lemma EndsWithTrans(w: Bytes, m: Bytes, n: Bytes)
    requires EndsWith(w, m) && EndsWith(m, n)
    ensures EndsWith(w, n)
  {
    assert w[|w| - |n|..] == w[|w| - |m|..][|m| - |n|..];
  }

  /** One append after the boundary is settled: text `t`, notes `n`, possibly behind MARKER_REST. */
  lemma ComposeDelivers(t: Bytes, n: Bytes)
    requires GoodText(t) && GoodNotes(n)
    requires 0 < |n| <= MAX_NOTES
    ensures Delivers(Compose(t, n), n)
  {
    GoodTextAgain(t);
    JoinCarries(RunText(t), n);
    JoinShape(RunText(t), n);
  }

  lemma ComposeRestDelivers(t: Bytes, n: Bytes)
    requires GoodText(t) && GoodNotes(n) && !EndsWith(t, MARKER_HEAD)
    requires 0 < |n| && |MARKER_REST + n| <= MAX_NOTES
    ensures Delivers(Compose(t, MARKER_REST + n), n)
  {
    GoodTextAgain(t);
    ClippedHead(t);
    JoinRestDelivers(RunText(t), n);
    assert NotesText(MARKER_REST + n) == MARKER_REST + n;
  }

  lemma JoinRestDelivers(t: Bytes, n: Bytes)
    requires GoodText(t) && GoodNotes(n) && !EndsWith(t, MARKER_HEAD)
    requires 0 < |n| && |MARKER_REST + n| <= MAX_NOTES
    ensures Delivers(Join(t, MARKER_REST + n), n)
  {
    JoinCarriesRest(t, n);
    ValidRest(n);
    JoinShape(t, MARKER_REST + n);
    EndsWithTrans(Join(t, MARKER_REST + n), MARKER_REST + n, n);
  }

  lemma ValidRest(n: Bytes)
    requires ValidUtf8(n)
    ensures ValidUtf8(MARKER_REST + n)
  {
    ValidAround("", MARKER_REST, n);
    assert "" + MARKER_REST + n == MARKER_REST + n;
  }

  /** Text in front of an absorbed marker does not end in the marker's head a second time. */
  lemma ClippedHead(t: Bytes)
    requires GoodText(t) && !EndsWith(t, MARKER_HEAD)
    ensures !EndsWith(RunText(t), MARKER_HEAD)
  {
    NeutralizeLabelFree(t);
    if |t| > MAX_RUN_TEXT {
      var r := RunText(t);
      assert TRUNCATION_TAIL[|TRUNCATION_TAIL| - 1] == ')';
      assert r[|r| - 1] == ')';
      assert MARKER_HEAD[11] == ':';
      assert |r| >= 12 ==> r[|r| - 12..][11] == r[|r| - 1];
    }
  }

  // ---------------------------------------------------------------- appends

  lemma AddNoteIsGood(n: Bytes, fragment: Bytes)
    requires GoodNotes(n) && GoodNotes(fragment)
    requires 0 < |fragment| <= MAX_LENGTH
    ensures GoodNotes(AddNote(n, fragment))
    ensures |n| < |AddNote(n, fragment)| <= |n| + 2 + MAX_NOTE + MAX_SUFFIX
  {
    var f := TruncateText(fragment, MAX_NOTE).text;
    ClipIsLabelFree(fragment, MAX_NOTE);
    TruncateTextValid(fragment, MAX_NOTE);
    TruncateTextBound(fragment, MAX_NOTE);
    if n != "" {
      NoLetterNoLabel(" ");
      LabelAfterByte(' ', f);
      LabelAtStart(' ', f);
      ForeignByteSeparates(n, ';', " " + f, LABEL);
      assert n + "; " + f == n + [';'] + (" " + f);
      ValidAround(n, "; ", f);
    }
  }

  /** appendResultWarning keeps every note already there and adds its own behind them. */
  lemma AppendDelivers(w: Bytes, n: Bytes, fragment: Bytes)
    requires Carries(w, n) && GoodNotes(n) && GoodNotes(fragment)
    requires 0 < |fragment| <= MAX_LENGTH
    requires |AddNote(n, fragment)| + |MARKER_REST| <= MAX_NOTES
    ensures Delivers(AppendNote(w, fragment), AddNote(n, fragment))
  {
    var t, n' := Split(w).text, AddNote(n, fragment);
    AddNoteIsGood(n, fragment);
    if Split(w).notes == n {
      ComposeDelivers(t, n');
    } else {
      AddNoteBehind(MARKER_REST, n, fragment);
      ComposeRestDelivers(t, n');
    }
  }

  lemma AddNoteBehind(pre: Bytes, n: Bytes, fragment: Bytes)
    requires n != ""
    ensures AddNote(pre + n, fragment) == pre + AddNote(n, fragment)
  {
    var f := TruncateText(fragment, MAX_NOTE).text;
    assert pre + n + "; " + f == pre + (n + "; " + f);
  }

  /** The notes of a run of appends, in order, each clamped, joined by "; ". */
  function NotesOf(fragments: seq<Bytes>): (n: Bytes) {
    if fragments == [] then ""
    else AddNote(NotesOf(fragments[..|fragments| - 1]), fragments[|fragments| - 1])
  }

  /** The same notes read from the front: each within 512 bytes or clipped to them, with "; " between. */
  function NoteList(fragments: seq<Bytes>): (n: Bytes) {
    if fragments == [] then ""
    else if |fragments| == 1 then TruncateText(fragments[0], 512).text
    else TruncateText(fragments[0], 512).text + "; " + NoteList(fragments[1..])
  }

  lemma {:induction false} NoteListPush(fragments: seq<Bytes>, f: Bytes)
    requires fragments != []
    ensures NoteList(fragments + [f]) == NoteList(fragments) + "; " + TruncateText(f, 512).text
  {
    hide TruncateText;
    assert (fragments + [f])[1..] == fragments[1..] + [f];
    var head, last := TruncateText(fragments[0], 512).text, TruncateText(f, 512).text;
    if |fragments| > 1 {
      NoteListPush(fragments[1..], f);
      var middle := NoteList(fragments[1..]);
      assert head + "; " + (middle + "; " + last) == head + "; " + middle + "; " + last;
    } else {
      assert fragments[1..] + [f] == [f];
    }
  }

  /** The notes are the list of the fragments in order. */
  lemma {:induction false} NotesAreListed(fragments: seq<Bytes>)
    requires forall i :: 0 <= i < |fragments| ==> fragments[i] != ""
    ensures NotesOf(fragments) == NoteList(fragments)
    ensures fragments != [] ==> NotesOf(fragments) != ""
  {
    hide TruncateText;
    if fragments != [] {
      var before, last := fragments[..|fragments| - 1], fragments[|fragments| - 1];
      NotesAreListed(before);
      ClipNonEmpty(last, MAX_NOTE);
      assert fragments == before + [last];
      if before != [] { NoteListPush(before, last); }
    }
  }

  lemma ClipNonEmpty(f: Bytes, max: nat)
    requires f != ""
    ensures TruncateText(f, max).text != ""
  {
  }

  function AppendAll(w: Bytes, fragments: seq<Bytes>): (w': Bytes) {
    if fragments == [] then w
    else AppendNote(AppendAll(w, fragments[..|fragments| - 1]), fragments[|fragments| - 1])
  }

  ghost predicate GoodFragment(f: Bytes) {
    GoodNotes(f) && 0 < |f| <= MAX_LENGTH
  }

  lemma {:induction false} NotesOfIsGood(fragments: seq<Bytes>)
    requires forall i :: 0 <= i < |fragments| ==> GoodFragment(fragments[i])
    ensures GoodNotes(NotesOf(fragments))
    ensures |NotesOf(fragments)| <= |fragments| * (2 + MAX_NOTE + MAX_SUFFIX)
  {
    if fragments == [] {
      NoLetterNoLabel("");
    } else {
      NotesOfIsGood(fragments[..|fragments| - 1]);
      AddNoteIsGood(NotesOf(fragments[..|fragments| - 1]), fragments[|fragments| - 1]);
    }
  }

  /** No note is ever lost: whatever the run's own warning was, after clamping it and appending up to
      seven notes the warning ends with all of them, in order, and stays within the free-text cap. */
  lemma {:induction false} NotesSurvive(text: Bytes, fragments: seq<Bytes>)
    requires ValidUtf8(text) && |text| <= MAX_LENGTH
    requires |fragments| <= 7
    requires forall i :: 0 <= i < |fragments| ==> GoodFragment(fragments[i])
    ensures Delivers(AppendAll(Compose(text, ""), fragments), NotesOf(fragments))
    ensures NotesOf(fragments) == NoteList(fragments)
  {
    NotesAreListed(fragments);
    if fragments == [] {
      BoundedTextDelivers(text);
    } else {
      var before, last := fragments[..|fragments| - 1], fragments[|fragments| - 1];
      NotesSurvive(text, before);
      NotesOfIsGood(before);
      AddNoteIsGood(NotesOf(before), last);
      AppendDelivers(AppendAll(Compose(text, ""), before), NotesOf(before), last);
    }
  }
}
