/** The `warning` field of a degraded backup result: the run's own text, a marker, and the bounding notes.

Models composeResultWarning, splitResultWarning, neutralizeNoteMarker and appendResultWarning of
agent/cmd/breeze-backup/result_bounds.go.
*/
module WarningNotes {
  import opened Bytes

  const LABEL: Bytes := "bounded: "
  const MARKER: Bytes := " || bounded: "
  const NEUTRALIZED: Bytes := "bounded : "

  const MAX_TEXT: nat := 8 * 1024
  const MAX_NOTE: nat := 512
  const MAX_NOTES: nat := 4 * 1024
  const MAX_SUFFIX: nat := 48
  const MAX_RUN_TEXT: nat := MAX_TEXT - MAX_NOTES - 2 * MAX_SUFFIX - |MARKER|

  /** The marker without its last byte: the only run text that can pull the boundary forward. */
  const MARKER_HEAD: Bytes := " || bounded:"
  /** The marker without its first byte: what such text leaves in front of the notes. */
  const MARKER_REST: Bytes := "|| bounded: "

  ghost predicate LabelFree(s: Bytes) {
    !Contains(s, LABEL)
  }

  /** strings.ReplaceAll(s, "bounded: ", "bounded : "). */
  function Neutralize(s: Bytes): (r: Bytes) {
    if |s| < |LABEL| then s
    else if s[..|LABEL|] == LABEL then NEUTRALIZED + Neutralize(s[|LABEL|..])
    else [s[0]] + Neutralize(s[1..])
  }

  datatype Parts = Parts(text: Bytes, notes: Bytes)

  function Split(w: Bytes): (p: Parts) {
    var i := Index(w, MARKER);
    if i >= 0 then Parts(w[..i], w[i + |MARKER|..])
    else if LABEL <= w then Parts("", w[|LABEL|..])
    else Parts(w, "")
  }

  function RunText(text: Bytes): (t: Bytes) {
    TruncateText(Neutralize(text), MAX_RUN_TEXT).text
  }

  function NotesText(notes: Bytes): (n: Bytes) {
    TruncateText(notes, MAX_NOTES).text
  }

  function Join(text: Bytes, notes: Bytes): (w: Bytes) {
    if notes == "" then text
    else if text == "" then LABEL + notes
    else text + MARKER + notes
  }

  function Compose(text: Bytes, notes: Bytes): (w: Bytes) {
    Join(RunText(text), NotesText(notes))
  }

  /** One clamped note added behind the notes already there. */
  function AddNote(notes: Bytes, fragment: Bytes): (n: Bytes) {
    var f := TruncateText(fragment, MAX_NOTE).text;
    if notes == "" then f else notes + "; " + f
  }

  /** appendResultWarning on an already decoded warning. */
  function AppendNote(w: Bytes, fragment: Bytes): (w': Bytes) {
    Compose(Split(w).text, AddNote(Split(w).notes, fragment))
  }

  // ---------------------------------------------------------------- the label cannot survive in run text

  lemma NoLetterNoLabel(s: Bytes)
    requires 'o' !in s
    ensures LabelFree(s)
  {
    forall i: int | 0 <= i && i + |LABEL| <= |s|
      ensures !At(s, LABEL, i)
    {
      assert LABEL[1] == 'o';
      assert s[i..i + |LABEL|][1] == s[i + 1];
    }
  }

  lemma LabelFreePrefix(s: Bytes, k: nat)
    requires LabelFree(s) && k <= |s|
    ensures LabelFree(s[..k])
  {
    if Contains(s[..k], LABEL) { ContainsPrefix(s, k, LABEL); }
  }

  lemma LabelFreeSuffix(s: Bytes, k: nat)
    requires LabelFree(s) && k <= |s|
    ensures LabelFree(s[k..])
  {
    forall i: int | At(s[k..], LABEL, i)
      ensures At(s, LABEL, i + k)
    {
      assert s[k..][i..i + |LABEL|] == s[i + k..i + k + |LABEL|];
    }
  }

  /** Text in front of the first label is copied unchanged. */
  lemma {:induction false} NeutralizeKeepsStart(s: Bytes, p: Bytes)
    requires 'b' !in p && p <= Neutralize(s)
    ensures p <= s
  {
    if p != "" && |s| >= |LABEL| {
      assert p[0] == Neutralize(s)[0];
      assert s[..|LABEL|] != LABEL;
      assert Neutralize(s)[1..] == Neutralize(s[1..]);
      NeutralizeKeepsStart(s[1..], p[1..]);
      assert s == [s[0]] + s[1..];
      assert p == [p[0]] + p[1..];
    }
  }

  lemma LabelAfterByte(c: char, r: Bytes)
    requires LabelFree(r)
    ensures forall i: int :: At([c] + r, LABEL, i) ==> i == 0
  {
    forall i: int | At([c] + r, LABEL, i)
      ensures i == 0
    {
      if i > 0 {
        assert ([c] + r)[i..i + |LABEL|] == r[i - 1..i - 1 + |LABEL|];
        assert At(r, LABEL, i - 1);
      }
    }
  }

  lemma LabelAtStart(c: char, r: Bytes)
    ensures At([c] + r, LABEL, 0) <==> c == 'b' && LABEL[1..] <= r
  {
    var s := [c] + r;
    assert LABEL == ['b'] + LABEL[1..];
    if |s| >= |LABEL| {
      assert s[0..0 + |LABEL|] == [c] + r[..|LABEL| - 1];
    }
  }

  /** Prefixing the defanged label cannot form a label. */
  lemma LabelAfterNeutralized(r: Bytes)
    requires LabelFree(r)
    ensures LabelFree(NEUTRALIZED + r)
  {
    var s := NEUTRALIZED + r;
    forall i: int | At(s, LABEL, i)
      ensures i >= |NEUTRALIZED|
    {
      assert s[i] == s[i..i + |LABEL|][0] == 'b';
      assert s[i + 7] == s[i..i + |LABEL|][7] == ':';
    }
    forall i: int | At(s, LABEL, i)
      ensures At(r, LABEL, i - |NEUTRALIZED|)
    {
      assert s[i..i + |LABEL|] == r[i - |NEUTRALIZED|..i - |NEUTRALIZED| + |LABEL|];
    }
  }

  /** Neutralised text never holds the label, so it never holds the marker either. */
  lemma {:induction false} NeutralizeIsLabelFree(s: Bytes)
    ensures LabelFree(Neutralize(s))
  {
    if |s| < |LABEL| {
    } else if s[..|LABEL|] == LABEL {
      NeutralizeIsLabelFree(s[|LABEL|..]);
      LabelAfterNeutralized(Neutralize(s[|LABEL|..]));
    } else {
      var r := Neutralize(s[1..]);
      NeutralizeIsLabelFree(s[1..]);
      LabelAfterByte(s[0], r);
      LabelAtStart(s[0], r);
      assert LABEL[1..] <= r ==> LABEL[1..] <= s[1..] by {
        if LABEL[1..] <= r { NeutralizeKeepsStart(s[1..], LABEL[1..]); }
      }
      LabelAtStart(s[0], s[1..]);
      assert [s[0]] + s[1..] == s;
    }
  }

  lemma {:induction false} NeutralizeLabelFree(s: Bytes)
    requires LabelFree(s)
    ensures Neutralize(s) == s
  {
    if |s| >= |LABEL| {
      assert !At(s, LABEL, 0);
      LabelFreeSuffix(s, 1);
      NeutralizeLabelFree(s[1..]);
    }
  }

  /** The first label is replaced, what is in front of it copied, and what is behind it neutralised in turn. */
  lemma {:induction false} NeutralizeReplaces(p: Bytes, rest: Bytes)
    requires Index(p + "bounded: " + rest, "bounded: ") == |p|
    ensures Neutralize(p + "bounded: " + rest) == p + "bounded : " + Neutralize(rest)
  {
    var s := p + LABEL + rest;
    if p == "" {
      assert s[..|LABEL|] == LABEL && s[|LABEL|..] == rest;
    } else {
      assert s[1..] == p[1..] + LABEL + rest;
      assert s[..|LABEL|] == s[0..0 + |LABEL|];
      assert !At(s, LABEL, 0);
      FirstLabelBehind(s, |p|);
      NeutralizeReplaces(p[1..], rest);
    }
  }

  lemma FirstLabelBehind(s: Bytes, i: nat)
    requires Index(s, LABEL) == i > 0
    ensures Index(s[1..], LABEL) == i - 1
  {
    assert s[1..][i - 1..i - 1 + |LABEL|] == s[i..i + |LABEL|];
    assert At(s[1..], LABEL, i - 1);
    forall j: int | At(s[1..], LABEL, j) ensures At(s, LABEL, j + 1) {
      assert s[1..][j..j + |LABEL|] == s[j + 1..j + 1 + |LABEL|];
    }
  }

  lemma {:induction false} NeutralizeLength(s: Bytes)
    ensures |s| <= |Neutralize(s)| <= 2 * |s|
  {
    if |s| < |LABEL| {
    } else if s[..|LABEL|] == LABEL {
      NeutralizeLength(s[|LABEL|..]);
    } else {
      NeutralizeLength(s[1..]);
    }
  }

  /** Every label costs a byte. */
  lemma {:induction false} NeutralizeGrows(s: Bytes)
    requires !LabelFree(s)
    ensures |Neutralize(s)| > |s|
  {
    var i: int :| At(s, LABEL, i);
    if i == 0 {
      NeutralizeLength(s[|LABEL|..]);
    } else if s[..|LABEL|] == LABEL {
      NeutralizeLength(s[|LABEL|..]);
    } else {
      assert s[1..][i - 1..i - 1 + |LABEL|] == s[i..i + |LABEL|];
      assert At(s[1..], LABEL, i - 1);
      NeutralizeGrows(s[1..]);
    }
  }

  lemma ClipIsLabelFree(s: Bytes, max: nat)
    requires LabelFree(s)
    ensures LabelFree(TruncateText(s, max).text)
  {
    if |s| > max {
      var cut, dropped := BackOff(s, max), |s| - max;
      var rest := "\U{80}\U{A6} (+" + Decimal(dropped) + TRUNCATION_TAIL;
      assert TruncateText(s, max).text == s[..cut] + ['\U{E2}'] + rest;
      LabelFreePrefix(s, cut);
      NoLetterNoLabel(rest);
      ForeignByteSeparates(s[..cut], '\U{E2}', rest, LABEL);
    }
  }

  lemma RunTextIsLabelFree(text: Bytes)
    ensures LabelFree(RunText(text))
  {
    NeutralizeIsLabelFree(text);
    ClipIsLabelFree(Neutralize(text), MAX_RUN_TEXT);
  }

  // ---------------------------------------------------------------- where the marker is found

  lemma MarkerHoldsLabel(w: Bytes, i: int)
    requires At(w, MARKER, i)
    ensures At(w, LABEL, i + 4)
  {
    assert MARKER[4..] == LABEL;
    assert w[i + 4..i + 4 + |LABEL|] == w[i..i + |MARKER|][4..];
  }

  /** The marker's proper borders: it can start inside itself only at its last byte. */
  lemma MarkerBorder(d: nat)
    requires 0 < d < |MARKER|
    requires forall k :: 0 <= k < |MARKER| - d ==> MARKER[d + k] == MARKER[k]
    ensures d == 12
  {
    var k := 1;
    assert d < 12 ==> MARKER[d + k] == MARKER[k];
    k := 0;
    assert MARKER[d + k] == MARKER[k];
  }

  /** In front of the real boundary the marker occurs only where the text ends in its head. */
  lemma EarlierMarker(t: Bytes, n: Bytes, j: int)
    requires LabelFree(t)
    requires At(t + MARKER + n, MARKER, j) && j < |t|
    ensures j == |t| - 12 && EndsWith(t, MARKER_HEAD)
  {
    var w := t + MARKER + n;
    MarkerHoldsLabel(w, j);
    if j + |MARKER| <= |t| {
      assert w[j + 4..j + 4 + |LABEL|] == t[j + 4..j + 4 + |LABEL|];
      assert At(t, LABEL, j + 4);
    } else {
      var d := |t| - j;
      forall k | 0 <= k < |MARKER| - d
        ensures MARKER[d + k] == MARKER[k]
      {
        assert w[j..j + |MARKER|][d + k] == w[|t| + k] == MARKER[k];
      }
      MarkerBorder(d);
      HeadAtEnd(t, n, j);
    }
  }

  lemma HeadAtEnd(t: Bytes, n: Bytes, j: int)
    requires At(t + MARKER + n, MARKER, j) && j == |t| - 12
    ensures EndsWith(t, MARKER_HEAD)
  {
    var w := t + MARKER + n;
    assert w[j..j + |MARKER|][..12] == w[j..j + 12];
    assert w[j..j + 12] == t[j..];
    assert MARKER[..12] == MARKER_HEAD;
  }

  /** Reading back text + marker + notes. */
  lemma SplitMarked(t: Bytes, n: Bytes)
    requires LabelFree(t)
    ensures Split(t + MARKER + n) ==
            if EndsWith(t, MARKER_HEAD) then Parts(t[..|t| - 12], MARKER_REST + n) else Parts(t, n)
  {
    var w := t + MARKER + n;
    var i := FirstMarker(t, n);
    if EndsWith(t, MARKER_HEAD) {
      assert w[..i] == t[..|t| - 12];
      assert w[i + |MARKER|..] == MARKER_REST + n;
    } else {
      assert w[..i] == t;
      assert w[i + |MARKER|..] == n;
    }
  }

  lemma FirstMarker(t: Bytes, n: Bytes) returns (i: int)
    requires LabelFree(t)
    ensures i == Index(t + MARKER + n, MARKER)
    ensures i == if EndsWith(t, MARKER_HEAD) then |t| - 12 else |t|
  {
    var w := t + MARKER + n;
    i := Index(w, MARKER);
    assert w[|t|..|t| + |MARKER|] == MARKER;
    assert At(w, MARKER, |t|);
    if EndsWith(t, MARKER_HEAD) {
      var j := |t| - 12;
      assert w[j..j + |MARKER|] == t[j..] + MARKER[..1];
      assert MARKER_HEAD + MARKER[..1] == MARKER;
      assert At(w, MARKER, j);
    }
    if i < |t| { EarlierMarker(t, n, i); }
  }

  /** The label starts with a byte it does not hold again, so it cannot overlap itself. */
  lemma LabelThenNotes(n: Bytes, i: int)
    requires At(LABEL + n, LABEL, i)
    ensures i == 0 || At(n, LABEL, i - |LABEL|)
  {
    var w := LABEL + n;
    assert i == 0 || i >= |LABEL| by {
      assert w[i..i + |LABEL|][0] == w[i];
    }
    if i >= |LABEL| {
      assert w[i..i + |LABEL|] == n[i - |LABEL|..i];
    }
  }

  /** Reading back the all-notes form. */
  lemma SplitLabelled(n: Bytes)
    ensures !Contains(LABEL + n, MARKER) ==> Split(LABEL + n) == Parts("", n)
    ensures Contains(LABEL + n, MARKER) ==> Split(LABEL + n).text != ""
    ensures LabelFree(n) ==> !Contains(LABEL + n, MARKER)
  {
    var w := LABEL + n;
    var i := Index(w, MARKER);
    if i >= 0 {
      assert w[i] == w[i..i + |MARKER|][0] == ' ';
      assert w[..i] != "";
      MarkerHoldsLabel(w, i);
      LabelThenNotes(n, i + 4);
    } else {
      assert w[|LABEL|..] == n;
    }
  }

  /** The all-notes form whose notes begin with the rest of a marker reads back as text "bounded:". */
  lemma SplitLabelledRest(n: Bytes)
    ensures Split(LABEL + (MARKER_REST + n)) == Parts("bounded:", n)
  {
    var w := LABEL + (MARKER_REST + n);
    assert w == "bounded:" + MARKER + n;
    NoLetterNoLabelShort();
    SplitMarked("bounded:", n);
  }

  lemma NoLetterNoLabelShort()
    ensures LabelFree("bounded:")
  {
  }

  lemma SplitPlain(t: Bytes)
    requires LabelFree(t)
    ensures Split(t) == Parts(t, "")
  {
    var i := Index(t, MARKER);
    if i >= 0 {
      MarkerHoldsLabel(t, i);
    } else if LABEL <= t {
      LabelPrefixAt(t);
    }
  }

  lemma LabelPrefixAt(t: Bytes)
    requires LABEL <= t
    ensures At(t, LABEL, 0)
  {
    assert t[0..0 + |LABEL|] == LABEL;
  }

  /** splitResultWarning undoes composeResultWarning exactly when neither form is ambiguous: the text
      does not end in " || bounded:", and all-notes warnings hold no marker of their own. */
  lemma SplitComposeRoundTrip(text: Bytes, notes: Bytes)
    ensures var t, n := RunText(text), NotesText(notes);
            (Split(Compose(text, notes)) == Parts(t, n)) <==>
            (n == "" || (if t == "" then !Contains(LABEL + n, MARKER) else !EndsWith(t, MARKER_HEAD)))
  {
    var t, n := RunText(text), NotesText(notes);
    RunTextIsLabelFree(text);
    if n == "" {
      SplitPlain(t);
    } else if t == "" {
      SplitLabelled(n);
    } else {
      SplitMarked(t, n);
    }
  }

  /** Short text without the label is composed as it stands. */
  lemma ComposeShort(text: Bytes, notes: Bytes)
    requires LabelFree(text) && |text| <= MAX_RUN_TEXT && |notes| <= MAX_NOTES
    ensures Compose(text, notes) == Join(text, notes)
  {
    NeutralizeLabelFree(text);
  }

  lemma MarkerHeadIsLabelFree()
    ensures LabelFree(MARKER_HEAD)
  {
    forall i: int | At(MARKER_HEAD, LABEL, i)
      ensures MARKER_HEAD[i] == 'b' && i <= 3
    {
      assert MARKER_HEAD[i..i + |LABEL|][0] == MARKER_HEAD[i];
    }
  }

  /** The first exception is real: a run whose warning is " || bounded:" moves the boundary. */
  lemma RoundTripFails(note: Bytes)
    requires 0 < |note| <= MAX_NOTES
    ensures RunText(MARKER_HEAD) == MARKER_HEAD && NotesText(note) == note
    ensures Split(Compose(MARKER_HEAD, note)) == Parts("", MARKER_REST + note)
  {
    MarkerHeadIsLabelFree();
    NeutralizeLabelFree(MARKER_HEAD);
    ComposeShort(MARKER_HEAD, note);
    SplitMarked(MARKER_HEAD, note);
  }
}
