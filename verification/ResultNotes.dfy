/** The bounding notes of a degraded result: each one the tiers append is in the delivered warning. */
module ResultNotes {
  import opened Options
  import opened Bytes
  import opened WarningNotes
  import opened NotePreservation
  import opened WarningText
  import opened SortedKeys
  import opened ResultBounds
  import opened ResultDelivery
  import opened ResultContents
  import opened ResultDegrees
  import opened ResultFields

  // ---------------------------------------------------------------- the notes themselves

  lemma MissingByteNoLabel(s: Bytes, c: char)
    requires c in LABEL && c !in s
    ensures LabelFree(s)
  {
    forall i: int | 0 <= i && i + |LABEL| <= |s|
      ensures !At(s, LABEL, i)
    {
      var k :| 0 <= k < |LABEL| && LABEL[k] == c;
      assert s[i..i + |LABEL|][k] == s[i + k];
    }
  }

  ghost predicate GoodKeys(keys: set<Bytes>) {
    forall k :: k in keys ==> LabelFree(k) && ValidUtf8(k)
  }

  lemma {:induction false} JoinKeysGood(ks: seq<Bytes>)
    requires forall i :: 0 <= i < |ks| ==> LabelFree(ks[i]) && ValidUtf8(ks[i])
    ensures GoodNotes(JoinKeys(ks))
  {
    if ks == [] {
      NoLetterNoLabel("");
    } else if |ks| > 1 {
      var rest := JoinKeys(ks[1..]);
      JoinKeysGood(ks[1..]);
      LabelAfterByte(' ', rest);
      LabelAtStart(' ', rest);
      ForeignByteSeparates(ks[0], ',', [' '] + rest, LABEL);
      assert ks[0] + ", " + rest == ks[0] + [','] + ([' '] + rest);
      ValidAround(ks[0], ", ", rest);
    }
  }

  /** ASCII text without the letter o, so without the label. */
  predicate Plain(s: Bytes) {
    forall i :: 0 <= i < |s| ==> s[i] as int < 0x80 && s[i] != 'o'
  }

  lemma PlainConcat(a: Bytes, b: Bytes)
    requires Plain(a) && Plain(b)
    ensures Plain(a + b)
  {
  }

  lemma PlainIsGood(s: Bytes)
    requires Plain(s)
    ensures IsAscii(s) && LabelFree(s)
  {
    MissingByteNoLabel(s, 'o');
  }

  lemma LabelPlain(limit: Limit)
    ensures Plain(limit.Label())
  {
  }

  lemma DescribePlain(limit: Limit)
    ensures Plain(limit.Describe())
  {
    hide Plain, Decimal;
    LabelPlain(limit);
    var d, m := Decimal(limit.Budget()), " byte ";
    assert Plain(d) by { DecimalPlain(limit.Budget()); }
    assert Plain(m) by { BytePlain(m); }
    PlainConcat(d, m);
    PlainConcat(d + m, limit.Label());
  }

  lemma DecimalPlain(n: nat)
    ensures Plain(Decimal(n))
  {
    hide Decimal;
  }

  lemma BytePlain(m: Bytes)
    requires m == " byte "
    ensures Plain(m)
  {
  }

  lemma ExceededPlain(limit: Limit)
    ensures Plain(Exceeded(limit))
  {
    DescribePlain(limit);
    hide Decimal;
    LeadPlain(": the result exceeded the ", limit.Describe());
  }

  lemma LeadPlain(lead: Bytes, rest: Bytes)
    requires Plain(lead) && Plain(rest)
    ensures Plain(lead + rest)
  {
    PlainConcat(lead, rest);
  }

  /** Text around a middle part that is set off by parentheses. */
  lemma Parenthesised(a: Bytes, middle: Bytes, z: Bytes)
    requires GoodNotes(middle) && IsAscii(a) && LabelFree(a) && IsAscii(z) && LabelFree(z)
    ensures GoodNotes(a + "(" + middle + ")" + z)
  {
    hide LabelFree, ValidUtf8, IsAscii;
    ParenthesisedFree(a, middle, z);
    ParenthesisedValid(a, middle, z);
  }

  lemma ParenthesisedFree(a: Bytes, middle: Bytes, z: Bytes)
    requires LabelFree(a) && LabelFree(middle) && LabelFree(z)
    ensures LabelFree(a + "(" + middle + ")" + z)
  {
    hide Contains;
    ForeignByteSeparates(a, '(', middle, LABEL);
    ForeignByteSeparates(a + ['('] + middle, ')', z, LABEL);
  }

  lemma ParenthesisedValid(a: Bytes, middle: Bytes, z: Bytes)
    requires IsAscii(a) && ValidUtf8(middle) && IsAscii(z)
    ensures ValidUtf8(a + "(" + middle + ")" + z)
  {
    hide ValidUtf8;
    AsciiIsValid(a + "(");
    AsciiIsValid(")" + z);
    ValidConcat(a + "(", middle);
    ValidConcat(a + "(" + middle, ")" + z);
    assert a + "(" + middle + ")" + z == a + "(" + middle + (")" + z);
  }

  lemma FieldsNoteGood(ks: set<Bytes>, limit: Limit)
    requires GoodKeys(ks)
    ensures GoodNotes(FieldsNote(ks, limit))
  {
    hide GoodNotes, Exceeded, IsAscii;
    var a := "detail field(s) omitted ";
    ExceededPlain(limit);
    PlainIsGood(Exceeded(limit));
    FieldsLeadGood(a);
    JoinKeysGood(Sorted(ks));
    Parenthesised(a, JoinKeys(Sorted(ks)), Exceeded(limit));
  }

  lemma FieldsLeadGood(a: Bytes)
    requires a == "detail field(s) omitted "
    ensures LabelFree(a) && IsAscii(a)
  {
    MissingByteNoLabel(a, 'b');
  }

  lemma IndexNoteGood(entries: nat, limit: Limit)
    ensures GoodNotes(IndexNote(entries, limit))
  {
    hide GoodNotes, Exceeded;
    var a, n := "snapshot file index omitted ", Decimal(entries) + " entries";
    var z := " so per-file restore" + " browsing is unavailable" + " for this snapshot";
    ExceededPlain(limit);
    PlainIsGood(Exceeded(limit));
    IndexLeadGood(a);
    IndexCountGood(n, entries);
    IndexTailGood(z);
    ForeignByteSeparates(Exceeded(limit), ',', z, LABEL);
    Parenthesised(a, n, Exceeded(limit) + [','] + z);
  }

  lemma IndexLeadGood(a: Bytes)
    requires a == "snapshot file index omitted "
    ensures LabelFree(a) && IsAscii(a)
  {
    MissingByteNoLabel(a, 'b');
  }

  lemma IndexCountGood(n: Bytes, entries: nat)
    requires n == Decimal(entries) + " entries"
    ensures GoodNotes(n)
  {
    hide Decimal;
    MissingByteNoLabel(n, 'b');
    AsciiIsValid(n);
  }

  lemma IndexTailGood(z: Bytes)
    requires z == " so per-file restore" + " browsing is unavailable" + " for this snapshot"
    ensures LabelFree(z) && IsAscii(z)
  {
    MissingByteNoLabel(z, 'd');
  }

  lemma LastResortNoteGood(limit: Limit)
    ensures GoodNotes(LastResortNote(limit))
  {
    hide Decimal, Plain;
    var a, z := "backup result exceeded the " + limit.Describe() + " and wa",
                " reduced to a terminal" + " status; detail was dropped";
    DescribePlain(limit);
    LastResortLeadPlain(a, limit.Describe());
    PlainIsGood(a);
    LastResortTailGood(z);
    ForeignByteSeparates(a, 's', z, LABEL);
    AsciiIsValid(a + ['s'] + z);
  }

  lemma LastResortLeadPlain(a: Bytes, d: Bytes)
    requires Plain(d) && a == "backup result exceeded the " + d + " and wa"
    ensures Plain(a)
  {
  }

  lemma LastResortTailGood(z: Bytes)
    requires z == " reduced to a terminal" + " status; detail was dropped"
    ensures LabelFree(z) && IsAscii(z)
  {
    MissingByteNoLabel(z, 'b');
  }

  // ---------------------------------------------------------------- the warning along the tiers

  /** The warning is absent, null or a string. */
  predicate TextWarning(b: Body) {
    "warning" in b.fields ==> b.fields["warning"].AsString().Some?
  }

  ghost predicate GoodFragments(fs: seq<Bytes>) {
    forall i :: 0 <= i < |fs| ==> GoodFragment(fs[i])
  }

  /** A warning that delivers exactly the notes `fs` behind what is left of the kept text `k`. */
  ghost predicate Tells(w: Bytes, fs: seq<Bytes>, k: Bytes) {
    GoodFragments(fs) && Delivers(w, NotesOf(fs)) && TextAfter(w, k, |fs|) && |k| <= MAX_RUN_TEXT
  }

  /** The body's warning is text and tells that. */
  ghost predicate Noted(b: Body, fs: seq<Bytes>, k: Bytes) {
    TextWarning(b) && Tells(WarningOf(b), fs, k)
  }

  lemma WarningReadsBack(b: Body, w: Bytes)
    requires ValidUtf8(w)
    ensures WarningOf(WithWarning(b, w)) == w && TextWarning(WithWarning(b, w))
  {
    SanitizeValid(w);
  }

  lemma BoundWarningDelivers(b: Body)
    requires ValidUtf8(WarningOf(b)) && |WarningOf(b)| <= MAX_LENGTH
    ensures Delivers(WarningOf(BoundWarning(b)), "")
    ensures TextAfter(WarningOf(BoundWarning(b)), Kept(WarningOf(b)), 0)
    ensures TextWarning(b) ==> TextWarning(BoundWarning(b))
  {
    hide Compose, Delivers, WithWarning, TextAfter, RunText;
    BoundedTextDelivers(WarningOf(b));
    ComposeNoNotes(WarningOf(b));
    TextStarts(WarningOf(b));
    DeliversValid(Compose(WarningOf(b), ""), "");
    WarningReadsBack(b, Compose(WarningOf(b), ""));
    if "warning" !in b.fields { ComposeEmpty(); }
  }

  lemma ComposeEmpty()
    ensures Compose("", "") == ""
  {
    ComposeShort("", "");
  }

  lemma DeliversValid(w: Bytes, n: Bytes)
    requires Delivers(w, n)
    ensures ValidUtf8(w) && Carries(w, n) && |w| <= MAX_TEXT
  {
  }

  lemma NotesRoom(w: Bytes, fs: seq<Bytes>, f: Bytes)
    requires GoodFragments(fs) && Carries(w, NotesOf(fs)) && |fs| <= 6 && GoodFragment(f)
    ensures |AddNote(Split(w).notes, f)| <= MAX_NOTES
    ensures |AddNote(NotesOf(fs), f)| + |MARKER_REST| <= MAX_NOTES
  {
    hide NotesOf, Split, GoodNotes, GoodText, AddNote;
    NotesOfIsGood(fs);
    GoodFragmentParts(f);
    AddNoteIsGood(NotesOf(fs), f);
    if NotesOf(fs) != "" { AddNoteBehind(MARKER_REST, NotesOf(fs), f); }
  }

  /** One more note on the warning. */
  lemma AppendTells(w: Bytes, fs: seq<Bytes>, f: Bytes, k: Bytes)
    requires Tells(w, fs, k) && |fs| <= 6 && GoodFragment(f)
    ensures Tells(AppendNote(w, f), fs + [f], k)
  {
    hide Delivers, Carries, AppendNote, AddNote, GoodFragment, GoodNotes, TextAfter;
    DeliversValid(w, NotesOf(fs));
    NotesOfIsGood(fs);
    GoodFragmentParts(f);
    NotesRoom(w, fs, f);
    AppendDelivers(w, NotesOf(fs), f);
    TextAppend(w, k, |fs|, f);
    assert (fs + [f])[..|fs|] == fs;
  }

  /** And on the body. */
  lemma NoteFragmentNoted(b: Body, fs: seq<Bytes>, f: Bytes, k: Bytes)
    requires Tells(WarningOf(b), fs, k) && |fs| <= 6 && GoodFragment(f)
    ensures Noted(NoteFragment(b, f), fs + [f], k)
  {
    hide Delivers, AppendNote, WithWarning, WarningOf, GoodFragment, TextAfter, GoodFragments, NotesOf;
    AppendTells(WarningOf(b), fs, f, k);
    DeliversValid(AppendNote(WarningOf(b), f), NotesOf(fs + [f]));
    WarningReadsBack(b, AppendNote(WarningOf(b), f));
  }

  lemma GoodFragmentParts(f: Bytes)
    requires GoodFragment(f)
    ensures GoodNotes(f) && 0 < |f| <= MAX_LENGTH
  {
  }

  lemma StepNoted(b: Body, fs: seq<Bytes>, note: Option<Bytes>, k: Bytes)
    requires Noted(b, fs, k) && |fs| <= 6 && (note.Some? ==> GoodFragment(note.value))
    ensures note.None? ==> Noted(b, fs + Notes(note), k)
    ensures note.Some? ==> Noted(NoteFragment(b, note.value), fs + Notes(note), k)
  {
    hide Tells, NoteFragment, GoodFragment, TextWarning, WarningOf;
    if note.Some? {
      NoteFragmentNoted(b, fs, note.value, k);
    } else {
      assert fs + Notes(note) == fs;
    }
  }

  /** Changing members other than the warning keeps its notes. */
  lemma OtherMembersNoted(b: Body, b': Body, fs: seq<Bytes>, k: Bytes)
    requires Noted(b, fs, k)
    requires "warning" in b.fields <==> "warning" in b'.fields
    requires "warning" in b.fields ==> b'.fields["warning"] == b.fields["warning"]
    ensures Noted(b', fs, k)
  {
    hide Tells;
  }

  /** Emptying the index turns any warning into text, so only a body without one needs a text warning. */
  lemma IndexNoted(b: Body, limit: Limit)
    requires (TextWarning(b) || IndexEntries(b) > 0) && ValidUtf8(WarningOf(b)) && |WarningOf(b)| <= MAX_LENGTH
    requires IndexEntries(b) <= MAX_LENGTH
    ensures Noted(S1(b, limit).body, S1(b, limit).fragments, Kept(WarningOf(b)))
    ensures |S1(b, limit).fragments| <= 1
  {
    hide Delivers, NoteFragment, IndexNote, BoundWarning, GoodFragment, WarningOf, NotesOf, TextAfter, Kept;
    var b1 := BoundWarning(b);
    BoundWarningDelivers(b);
    BoundWarningSame(b, "snapshot");
    NoNotes();
    var n := IndexEntries(b1);
    if n > 0 {
      var b2 := b1.(fields := b1.fields["snapshot" := JObject(b1.fields["snapshot"].members["files" := JArray([])])]);
      SameWarning(b1, b2);
      IndexNoteFragment(n, limit);
      NoteFragmentNoted(b2, [], IndexNote(n, limit), Kept(WarningOf(b)));
      assert [] + [IndexNote(n, limit)] == Notes(Some(IndexNote(n, limit)));
    }
  }

  lemma NoNotes()
    ensures NotesOf([]) == ""
  {
  }

  lemma SameWarning(b: Body, b': Body)
    requires b'.raw == b.raw && ("warning" in b.fields <==> "warning" in b'.fields)
    requires "warning" in b.fields ==> b'.fields["warning"] == b.fields["warning"]
    ensures WarningOf(b') == WarningOf(b)
  {
  }

  lemma IndexNoteFragment(entries: nat, limit: Limit)
    requires entries <= MAX_LENGTH
    ensures GoodFragment(IndexNote(entries, limit))
  {
    hide IndexNote, GoodNotes;
    IndexNoteGood(entries, limit);
    IndexNoteLength(entries, limit);
  }

  lemma FieldsNoteFragment(ks: set<Bytes>, keys: set<Bytes>, limit: Limit)
    requires KeysSized(keys) && GoodKeys(keys) && ks <= keys
    ensures GoodFragment(FieldsNote(ks, limit))
  {
    hide FieldsNote, GoodNotes;
    FieldsNoteGood(ks, limit);
    FieldsNoteLength(ks, keys, limit);
  }

  lemma DropBulkNoted(b: Body, limit: Limit, keep: set<Bytes>, fs: seq<Bytes>, keys: set<Bytes>, k: Bytes)
    requires Noted(b, fs, k) && |fs| <= 6 && KeysSized(keys) && GoodKeys(keys) && ContainerKeys(b) <= keys
    ensures var d := DropBulk(b, limit, keep); Noted(d.body, fs + Notes(d.note), k)
  {
    hide NoteFragment, FieldsNote, Tells, GoodFragment, KeysSized, GoodKeys;
    var ks := BulkKeys(b, keep);
    assert ks <= ContainerKeys(b);
    if ks == {} {
      StepNoted(b, fs, None, k);
    } else {
      FieldsNoteFragment(ks, keys, limit);
      OtherMembersNoted(b, b.(fields := b.fields - ks), fs, k);
      StepNoted(b.(fields := b.fields - ks), fs, Some(FieldsNote(ks, limit)), k);
    }
  }

  lemma DropBoundNoted(b: Body, limit: Limit, fs: seq<Bytes>, keys: set<Bytes>, k: Bytes)
    requires Noted(b, fs, k) && |fs| <= 6 && KeysSized(keys) && GoodKeys(keys) && ContainerKeys(b) <= keys
    ensures var d := DropBound(b, limit); Noted(d.body, fs + Notes(d.note), k)
  {
    hide Noted, DropBulk, KeysSized, GoodKeys;
    DropBulkNoted(b, limit, {}, fs, keys, k);
    var d := DropBulk(b, limit, {});
    OtherMembersNoted(d.body, d.body.(fields := d.body.fields - {"attestation"}), fs + Notes(d.note), k);
  }

  lemma ScalarsNoted(b: Body, fs: seq<Bytes>, k: Bytes)
    requires Noted(b, fs, k)
    ensures Noted(Scalars(b), fs, k)
  {
    hide Delivers, TextAfter, GoodFragments;
    DeliversValid(WarningOf(b), NotesOf(fs));
    OtherMembersNoted(b, Scalars(b), fs, k);
  }

  lemma ReduceNoted(b: Body, limit: Limit, fs: seq<Bytes>, keys: set<Bytes>, k: Bytes)
    requires Noted(b, fs, k) && |fs| <= 6 && KeysSized(keys) && GoodKeys(keys) && ContainerKeys(b) <= keys
    ensures var d := Reduce(b, limit); Noted(d.body, fs + Notes(d.note), k)
  {
    hide Noted, NoteFragment, FieldsNote, Scalars, KeysSized, GoodKeys, GoodFragment;
    ScalarsNoted(b, fs, k);
    if ContainerKeys(b) == {} {
      StepNoted(Scalars(b), fs, None, k);
    } else {
      FieldsNoteFragment(ContainerKeys(b), keys, limit);
      StepNoted(Scalars(b), fs, Some(FieldsNote(ContainerKeys(b), limit)), k);
    }
  }

  /** No tier turns a scalar member into a container. */
  lemma ContainersShrink(b: Body, limit: Limit)
    ensures ContainerKeys(S1(b, limit).body) <= ContainerKeys(b)
    ensures ContainerKeys(S2(b, limit).body) <= ContainerKeys(b)
    ensures ContainerKeys(S3(b, limit).body) <= ContainerKeys(b)
  {
    hide BoundWarning, EmptyIndex, DropBulk;
    BoundWarningContainers(b);
    EmptyIndexContainers(BoundWarning(b), limit);
    DropBulkContainers(S1(b, limit).body, limit, ATTESTATION_BOUND);
    DropBulkContainers(S2(b, limit).body, limit, {});
  }

  lemma BoundWarningContainers(b: Body)
    ensures ContainerKeys(BoundWarning(b)) <= ContainerKeys(b)
  {
    hide Compose, WarningOf;
  }

  lemma EmptyIndexContainers(b: Body, limit: Limit)
    ensures ContainerKeys(EmptyIndex(b, limit).body) <= ContainerKeys(b)
  {
    hide AppendNote, IndexNote, WarningOf;
  }

  lemma DropBulkContainers(b: Body, limit: Limit, keep: set<Bytes>)
    ensures ContainerKeys(DropBulk(b, limit, keep).body) <= ContainerKeys(b)
  {
    hide AppendNote, FieldsNote, WarningOf;
  }

  lemma StagesNoted(b: Body, limit: Limit)
    requires (TextWarning(b) || IndexEntries(b) > 0) && ValidUtf8(WarningOf(b)) && ValuesSized(b)
    requires KeysSized(b.fields.Keys) && GoodKeys(b.fields.Keys) && IndexEntries(b) <= MAX_LENGTH
    ensures Noted(S1(b, limit).body, S1(b, limit).fragments, Kept(WarningOf(b)))
    ensures Noted(S2(b, limit).body, S2(b, limit).fragments, Kept(WarningOf(b)))
    ensures Noted(S3(b, limit).body, S3(b, limit).fragments, Kept(WarningOf(b)))
    ensures Noted(S4(b, limit).body, S4(b, limit).fragments, Kept(WarningOf(b))) && |S4(b, limit).fragments| <= 4
  {
    hide Noted, Kept, DropBulk, DropBound, Reduce, StageIndex, KeysSized, GoodKeys, S1;
    var keys, k := b.fields.Keys, Kept(WarningOf(b));
    ContainersShrink(b, limit);
    IndexNoted(b, limit);
    DropBulkNoted(S1(b, limit).body, limit, ATTESTATION_BOUND, S1(b, limit).fragments, keys, k);
    DropBoundNoted(S2(b, limit).body, limit, S2(b, limit).fragments, keys, k);
    ReduceNoted(S3(b, limit).body, limit, S3(b, limit).fragments, keys, k);
  }

  // ---------------------------------------------------------------- tier 4

  lemma {:induction false} DecodedLast(ps: seq<(Bytes, Bytes)>, k: Bytes, v: Bytes)
    requires forall i :: 0 <= i < |ps| ==> ps[i].0 != k
    ensures k in DecodePairs(ps + [(k, v)]) && DecodePairs(ps + [(k, v)])[k] == JString(Sanitize(v))
  {
    if ps != [] {
      assert (ps + [(k, v)])[1..] == ps[1..] + [(k, v)];
      DecodedLast(ps[1..], k, v);
    }
  }

  /** The minimal status object's warning is the one tier 4 appended to. */
  lemma LastResortWarning(b: Body, limit: Limit)
    requires ValidUtf8(AppendNote(WarningOf(b), LastResortNote(limit)))
    ensures LastResort(b, limit).parsed.Some?
    ensures var d := LastResort(b, limit).parsed.value;
            TextWarning(d) && WarningOf(d) == AppendNote(WarningOf(b), LastResortNote(limit))
  {
    hide AppendNote, LastResortNote, IdPairs, EncodePairs, Sanitize;
    var w := AppendNote(WarningOf(b), LastResortNote(limit));
    IdPairsKeys(b);
    DecodedLast(IdPairs(b), "warning", w);
    SanitizeValid(w);
  }

  lemma LastResortNoted(b: Body, limit: Limit, fs: seq<Bytes>, k: Bytes)
    requires Noted(b, fs, k) && |fs| <= 6
    ensures LastResort(b, limit).parsed.Some?
    ensures Noted(LastResort(b, limit).parsed.value, fs + [LastResortNote(limit)], k)
  {
    hide LastResort, Delivers, AppendNote, LastResortNote, WarningOf, GoodNotes, GoodFragment, GoodFragments, TextAfter, NotesOf;
    var f := LastResortNote(limit);
    LastResortNoteGood(limit);
    LastResortNoteLength(limit);
    GoodFragmentFrom(f);
    AppendTells(WarningOf(b), fs, f, k);
    DeliversValid(AppendNote(WarningOf(b), f), NotesOf(fs + [f]));
    LastResortWarning(b, limit);
  }

  lemma GoodFragmentFrom(f: Bytes)
    requires GoodNotes(f) && 0 < |f| <= MAX_LENGTH
    ensures GoodFragment(f)
  {
  }

  /** Every note appended by any tier, at most five, is in the delivered warning in full and in order, the
      warning keeps to the free-text cap, and the run's own text as the clamp kept it stands in front, exactly
      unless that is a bare " || bounded:" with two notes or more behind it. */
  lemma NotesDelivered(r: Result, encode: Encoder)
    requires GoSized(r) && r.stdout.parsed.Some?
    requires TextWarning(r.stdout.parsed.value) || IndexEntries(r.stdout.parsed.value) > 0
    requires ValidUtf8(WarningOf(r.stdout.parsed.value))
    requires GoodKeys(r.stdout.parsed.value.fields.Keys)
    ensures var f := Fit(r, encode);
            f.tier != AsGiven ==>
              && f.result.stdout.parsed.Some? && |f.fragments| <= 5
              && var w := WarningOf(f.result.stdout.parsed.value);
              && EndsWith(w, NoteList(f.fragments)) && |w| <= 8192
              && var k := Kept(WarningOf(r.stdout.parsed.value));
              (k <= w <==> k != MARKER_HEAD || |f.fragments| <= 1)
  {
    hide Fit, S1, S2, S3, S4, LastResort, Noted, Kept, GoSized, GoodKeys, WarningOf, TextWarning, ExceededLimit, NotesOf, NoteList,
    EndsWith, LastResortNote, ValidUtf8, ClipStderr;
    var b, limit := r.stdout.parsed.value, ExceededLimit(r);
    FitCases(r, encode);
    StagesNotedSized(r, limit);
    LastResortNoted(S4(b, limit).body, limit, S4(b, limit).fragments, Kept(WarningOf(b)));
    var f := Fit(r, encode);
    if f.tier != AsGiven { NotedMeans(f.result.stdout.parsed.value, f.fragments, Kept(WarningOf(b))); }
  }

  lemma StagesNotedSized(r: Result, limit: Limit)
    requires GoSized(r) && r.stdout.parsed.Some?
    requires TextWarning(r.stdout.parsed.value) || IndexEntries(r.stdout.parsed.value) > 0
    requires ValidUtf8(WarningOf(r.stdout.parsed.value))
    requires GoodKeys(r.stdout.parsed.value.fields.Keys)
    ensures var b := r.stdout.parsed.value;
            && Noted(S1(b, limit).body, S1(b, limit).fragments, Kept(WarningOf(b)))
            && Noted(S2(b, limit).body, S2(b, limit).fragments, Kept(WarningOf(b)))
            && Noted(S3(b, limit).body, S3(b, limit).fragments, Kept(WarningOf(b)))
            && Noted(S4(b, limit).body, S4(b, limit).fragments, Kept(WarningOf(b))) && |S4(b, limit).fragments| <= 4
            && |S1(b, limit).fragments| <= 4 && |S2(b, limit).fragments| <= 4 && |S3(b, limit).fragments| <= 4
  {
    hide Noted, Kept, KeysSized, GoodKeys, ValuesSized, WarningOf, DropBulk, DropBound, Reduce, StageIndex;
    StagesNoted(r.stdout.parsed.value, limit);
  }

  lemma NotedMeans(b: Body, fs: seq<Bytes>, k: Bytes)
    requires Noted(b, fs, k)
    ensures EndsWith(WarningOf(b), NoteList(fs)) && |WarningOf(b)| <= 8192
    ensures k <= WarningOf(b) <==> k != MARKER_HEAD || |fs| <= 1
  {
    hide Carries, TextAfter;
    TextMeans(WarningOf(b), k, |fs|);
    NotesAreListed(fs);
  }

  lemma IndexNoteFirst(r: Result, encode: Encoder)
    requires r.stdout.parsed.Some? && IndexEntries(r.stdout.parsed.value) > 0
    ensures var f := Fit(r, encode);
            f.tier != AsGiven ==>
              f.fragments != [] && f.fragments[0] == IndexNote(IndexEntries(r.stdout.parsed.value), ExceededLimit(r))
  {
    hide Fit, DropBulk, DropBound, Reduce, StageIndex, LastResort, IndexNote, LastResortNote;
    var b, limit := r.stdout.parsed.value, ExceededLimit(r);
    FitCases(r, encode);
    IndexSnapshot(b, limit);
  }

  // ---------------------------------------------------------------- what the delivered warning holds

  lemma ContainsInside(a: Bytes, m: Bytes, z: Bytes, pat: Bytes)
    requires Contains(m, pat)
    ensures Contains(a + m + z, pat)
  {
    var i :| At(m, pat, i);
    assert (a + m + z)[|a| + i..|a| + i + |pat|] == m[i..i + |pat|];
    assert At(a + m + z, pat, |a| + i);
  }

  lemma ContainsSelf(s: Bytes)
    ensures Contains(s, s)
  {
    assert At(s, s, 0);
  }

  lemma TailContains(w: Bytes, tail: Bytes, pat: Bytes)
    requires EndsWith(w, tail) && Contains(tail, pat)
    ensures Contains(w, pat)
  {
    hide Contains;
    ContainsInside(w[..|w| - |tail|], tail, "", pat);
    assert w == w[..|w| - |tail|] + tail + "";
  }

  /** Every note is in the list of notes. */
  lemma {:induction false} NoteListHolds(fs: seq<Bytes>, i: nat)
    requires i < |fs|
    ensures Contains(NoteList(fs), TruncateText(fs[i], 512).text)
  {
    hide Contains, TruncateText;
    var head := TruncateText(fs[0], 512).text;
    if |fs| == 1 {
      ContainsSelf(head);
    } else if i == 0 {
      ContainsSelf(head);
      ContainsInside("", head, "; " + NoteList(fs[1..]), head);
      assert NoteList(fs) == "" + head + ("; " + NoteList(fs[1..]));
    } else {
      NoteListHolds(fs[1..], i - 1);
      ContainsInside(head + "; ", NoteList(fs[1..]), "", TruncateText(fs[i], 512).text);
      assert NoteList(fs) == head + "; " + NoteList(fs[1..]) + "";
    }
  }

  /** A delivered note is in the warning, whole when it is no longer than 512 bytes. */
  lemma NoteInWarning(w: Bytes, fs: seq<Bytes>, note: Bytes)
    requires EndsWith(w, NoteList(fs)) && note in fs
    ensures exists t :: Shortened(note, 512, t) && Contains(w, t)
  {
    hide Contains, TruncateText, NoteList, EndsWith, Shortened;
    var i :| 0 <= i < |fs| && fs[i] == note;
    NoteListHolds(fs, i);
    TruncateTextCut(note, 512);
    TailContains(w, NoteList(fs), TruncateText(note, 512).text);
  }

  /** An emptied file index always says so in the delivered warning, with its count and limit, whatever the
      warning was before. */
  lemma EmptiedIndexIsNoted(r: Result, encode: Encoder, digits: Bytes)
    requires GoSized(r) && r.stdout.parsed.Some? && IndexEntries(r.stdout.parsed.value) > 0
    requires ValidUtf8(WarningOf(r.stdout.parsed.value)) && GoodKeys(r.stdout.parsed.value.fields.Keys)
    requires Renders(digits, IndexEntries(r.stdout.parsed.value))
    ensures var f := Fit(r, encode);
            f.tier != AsGiven ==>
              && f.result.stdout.parsed.Some?
              && Contains(WarningOf(f.result.stdout.parsed.value),
                   "snapshot file index omitted " + "(" + (digits + " entries") + ")" +
                   (": the result exceeded the " + LimitText(ExceededLimit(r)) + "," +
                    (" so per-file restore" + " browsing is unavailable" + " for this snapshot")))
  {
    hide Fit, GoodKeys, WarningOf, ExceededLimit, NoteList, EndsWith, ValidUtf8, IndexNote, Contains, KeysSized, ValuesSized,
    Renders, LimitText, Shortened;
    var n, limit := IndexEntries(r.stdout.parsed.value), ExceededLimit(r);
    NotesDelivered(r, encode);
    IndexNoteFirst(r, encode);
    IndexNoteLength(n, limit);
    NotesRead(limit, n, digits, {});
    var f := Fit(r, encode);
    if f.tier != AsGiven {
      ShortNoteInWarning(WarningOf(f.result.stdout.parsed.value), f.fragments, IndexNote(n, limit));
    }
  }

  lemma ShortNoteInWarning(w: Bytes, fs: seq<Bytes>, note: Bytes)
    requires EndsWith(w, NoteList(fs)) && note in fs && |note| <= 512
    ensures Contains(w, note)
  {
    hide Contains, NoteList, EndsWith;
    NoteInWarning(w, fs, note);
  }

  lemma {:induction false} JoinKeysHolds(ks: seq<Bytes>, k: Bytes)
    requires k in ks
    ensures Contains(JoinKeys(ks), k)
  {
    hide Contains;
    if |ks| == 1 {
      ContainsSelf(k);
    } else if ks[0] == k {
      ContainsSelf(k);
      ContainsInside("", k, ", " + JoinKeys(ks[1..]), k);
      assert JoinKeys(ks) == "" + k + (", " + JoinKeys(ks[1..]));
    } else {
      JoinKeysHolds(ks[1..], k);
      ContainsInside(ks[0] + ", ", JoinKeys(ks[1..]), "", k);
      assert JoinKeys(ks) == ks[0] + ", " + JoinKeys(ks[1..]) + "";
    }
  }

  /** Keys are listed in their order with ", " between. */
  lemma {:induction false} JoinKeysPush(ks: seq<Bytes>, k: Bytes)
    ensures JoinKeys([k]) == k
    ensures ks != [] ==> JoinKeys(ks + [k]) == JoinKeys(ks) + ", " + k
  {
    if |ks| == 1 {
      assert (ks + [k])[1..] == [k];
    } else if |ks| > 1 {
      JoinKeysPush(ks[1..], k);
      assert (ks + [k])[1..] == ks[1..] + [k];
      var middle := JoinKeys(ks[1..]);
      assert ks[0] + ", " + (middle + ", " + k) == ks[0] + ", " + middle + ", " + k;
    }
  }

  /** The note that members were left out, word for word. */
  ghost function OmittedText(ks: set<Bytes>, limit: Limit): (note: Bytes) {
    "detail field(s) omitted " + "(" + JoinKeys(Sorted(ks)) + ")" + (": the result exceeded the " + LimitText(limit))
  }

  lemma OmittedNames(ks: set<Bytes>, limit: Limit, k: Bytes)
    requires k in ks
    ensures FieldsNote(ks, limit) == OmittedText(ks, limit) && Contains(OmittedText(ks, limit), k)
  {
    hide Contains, JoinKeys, Sorted, LimitText, Decimal;
    DecimalRenders(0);
    NotesRead(limit, 0, Decimal(0), ks);
    var z := ")" + (": the result exceeded the " + LimitText(limit));
    JoinKeysHolds(Sorted(ks), k);
    ContainsInside("detail field(s) omitted " + "(", JoinKeys(Sorted(ks)), z, k);
    assert OmittedText(ks, limit) == "detail field(s) omitted " + "(" + JoinKeys(Sorted(ks)) + z;
  }

  /** One of the notes `fs` lists `k` among other members of the body. */
  ghost predicate Listing(b: Body, limit: Limit, fs: seq<Bytes>, k: Bytes, ks: set<Bytes>) {
    k in ks && ks <= b.fields.Keys && FieldsNote(ks, limit) in fs
  }

  lemma DropBulkListing(b: Body, s: Stage, limit: Limit, keep: set<Bytes>, k: Bytes)
    requires k in BulkKeys(s.body, keep) && ContainerKeys(s.body) <= b.fields.Keys
    ensures Listing(b, limit, s.fragments + Notes(DropBulk(s.body, limit, keep).note), k, BulkKeys(s.body, keep))
  {
    hide FieldsNote, NoteFragment;
    var ks := BulkKeys(s.body, keep);
    assert FieldsNote(ks, limit) in Notes(DropBulk(s.body, limit, keep).note);
  }

  lemma MoreListing(b: Body, limit: Limit, fs: seq<Bytes>, more: seq<Bytes>, k: Bytes)
    requires exists ks :: Listing(b, limit, fs, k, ks)
    ensures exists ks :: Listing(b, limit, fs + more, k, ks)
  {
    hide FieldsNote;
    var ks :| Listing(b, limit, fs, k, ks);
    assert Listing(b, limit, fs + more, k, ks);
  }

  lemma BulkListed(b: Body, limit: Limit, k: Bytes)
    requires k in b.fields && b.fields[k].Container?() && k != "snapshot" && k != "warning"
    ensures k !in S2(b, limit).body.fields ==> exists ks :: Listing(b, limit, S2(b, limit).fragments, k, ks)
  {
    hide S1, DropBulk, Listing;
    IndexSame(b, limit, k);
    ContainersShrink(b, limit);
    var s := S1(b, limit);
    DropBulkSame(s.body, limit, ATTESTATION_BOUND, k);
    if k in BulkKeys(s.body, ATTESTATION_BOUND) { DropBulkListing(b, s, limit, ATTESTATION_BOUND, k); }
  }

  lemma BoundListed(b: Body, limit: Limit, k: Bytes)
    requires k in b.fields && b.fields[k].Container?() && k != "snapshot" && k != "warning" && !LostWithManifest(b, k)
    ensures k !in S3(b, limit).body.fields ==> exists ks :: Listing(b, limit, S3(b, limit).fragments, k, ks)
  {
    hide S2, DropBulk, Listing, BulkManifest;
    BulkListed(b, limit, k);
    ContainersShrink(b, limit);
    DroppedManifests(b, limit);
    var s := S2(b, limit);
    DropBulkSame(s.body, limit, {}, k);
    if k in BulkKeys(s.body, {}) {
      DropBulkListing(b, s, limit, {}, k);
    } else if k !in s.body.fields {
      MoreListing(b, limit, s.fragments, Notes(DropBulk(s.body, limit, {}).note), k);
    }
  }

  lemma LastFragments(b: Body, limit: Limit)
    ensures S4(b, limit).fragments == S3(b, limit).fragments + Notes(Reduce(S3(b, limit).body, limit).note)
  {
    hide S3, Reduce;
  }

  lemma ScalarsListed(b: Body, limit: Limit, k: Bytes)
    requires k in b.fields && b.fields[k].Container?() && k != "snapshot" && k != "warning" && !LostWithManifest(b, k)
    ensures exists ks :: Listing(b, limit, S4(b, limit).fragments, k, ks)
  {
    hide S1, S2, S3, S4, Listing, LostWithManifest, Reduce, ManifestDue, BulkDue, ContainerKeys;
    BoundListed(b, limit, k);
    LastFragments(b, limit);
    var s := S3(b, limit);
    if k in s.body.fields {
      StillContainer(b, limit, k);
      ReduceListing(b, s, limit, k);
    } else {
      MoreListing(b, limit, s.fragments, Notes(Reduce(s.body, limit).note), k);
    }
  }

  lemma StillContainer(b: Body, limit: Limit, k: Bytes)
    requires k in b.fields && b.fields[k].Container?() && k != "snapshot" && k != "warning"
    requires k in S3(b, limit).body.fields
    ensures k in ContainerKeys(S3(b, limit).body) && ContainerKeys(S3(b, limit).body) <= b.fields.Keys
  {
    hide S1, S2, S3, ManifestDue, BulkDue;
    ContainersShrink(b, limit);
    BulkKept(b, limit, k);
  }

  lemma ReduceListing(b: Body, s: Stage, limit: Limit, k: Bytes)
    requires k in ContainerKeys(s.body) && ContainerKeys(s.body) <= b.fields.Keys
    ensures Listing(b, limit, s.fragments + Notes(Reduce(s.body, limit).note), k, ContainerKeys(s.body))
  {
    hide FieldsNote, NoteFragment, Scalars;
    var ks := ContainerKeys(s.body);
    assert FieldsNote(ks, limit) in Notes(Reduce(s.body, limit).note);
  }

  /** A container that did not make it was listed in a note. */
  lemma DroppedIsListed(r: Result, encode: Encoder, k: Bytes)
    requires r.stdout.parsed.Some? && k in r.stdout.parsed.value.fields && r.stdout.parsed.value.fields[k].Container?()
    requires k != "snapshot" && k != "warning" && !LostWithManifest(r.stdout.parsed.value, k)
    ensures var f := Fit(r, encode);
            f.result.stdout.parsed.Some? && k !in f.result.stdout.parsed.value.fields ==>
              exists ks :: Listing(r.stdout.parsed.value, ExceededLimit(r), f.fragments, k, ks)
  {
    hide Fit, S1, S2, S3, S4, LastResort, Listing, LastResortNote, LostWithManifest;
    var b, limit := r.stdout.parsed.value, ExceededLimit(r);
    FitCases(r, encode);
    IndexSame(b, limit, k);
    BulkListed(b, limit, k);
    BoundListed(b, limit, k);
    ScalarsListed(b, limit, k);
    MoreListing(b, limit, S4(b, limit).fragments, [LastResortNote(limit)], k);
  }

  /** The delivered warning `w` holds the note that lists `k`, clipped to 512 bytes if it must be. */
  ghost predicate Omits(w: Bytes, limit: Limit, k: Bytes, ks: set<Bytes>) {
    && k in ks
    && (exists t :: Shortened(OmittedText(ks, limit), 512, t) && Contains(w, t))
    && (|OmittedText(ks, limit)| <= 512 ==> Contains(w, k))
  }

  lemma ListingMeans(b: Body, w: Bytes, limit: Limit, fs: seq<Bytes>, k: Bytes, ks: set<Bytes>)
    requires Listing(b, limit, fs, k, ks) && EndsWith(w, NoteList(fs))
    ensures Omits(w, limit, k, ks)
  {
    hide NoteList, EndsWith, Shortened, Contains, OmittedText, FieldsNote;
    OmittedNames(ks, limit, k);
    var note := OmittedText(ks, limit);
    NoteInWarning(w, fs, note);
    if |note| <= 512 {
      ShortNoteInWarning(w, fs, note);
      ContainsTrans(w, note, k);
    }
  }

  lemma ContainsTrans(w: Bytes, m: Bytes, pat: Bytes)
    requires Contains(w, m) && Contains(m, pat)
    ensures Contains(w, pat)
  {
    var i :| At(w, m, i);
    ContainsInside(w[..i], m, w[i + |m|..], pat);
    assert w == w[..i] + m + w[i + |m|..];
  }

  /** Whatever container the tiers left out, the delivered warning says so and names it, with the limit that
      forced it, unless it is an attestation that went with its manifest. */
  lemma DroppedIsNamed(r: Result, encode: Encoder, k: Bytes)
    requires GoSized(r) && r.stdout.parsed.Some?
    requires TextWarning(r.stdout.parsed.value) || IndexEntries(r.stdout.parsed.value) > 0
    requires ValidUtf8(WarningOf(r.stdout.parsed.value))
    requires GoodKeys(r.stdout.parsed.value.fields.Keys)
    requires k in r.stdout.parsed.value.fields && r.stdout.parsed.value.fields[k].Container?()
    requires k != "snapshot" && k != "warning" && !LostWithManifest(r.stdout.parsed.value, k)
    ensures var d := Fit(r, encode).result.stdout.parsed;
            d.Some? && k !in d.value.fields ==> exists ks :: Omits(WarningOf(d.value), ExceededLimit(r), k, ks)
  {
    hide Fit, GoSized, GoodKeys, WarningOf, TextWarning, ExceededLimit, NoteList, EndsWith, ValidUtf8, Omits, Listing,
    LostWithManifest;
    NotesDelivered(r, encode);
    DroppedIsListed(r, encode, k);
    FitCases(r, encode);
    var f := Fit(r, encode);
    if f.result.stdout.parsed.Some? && k !in f.result.stdout.parsed.value.fields {
      var ks :| Listing(r.stdout.parsed.value, ExceededLimit(r), f.fragments, k, ks);
      ListingMeans(r.stdout.parsed.value, WarningOf(f.result.stdout.parsed.value), ExceededLimit(r), f.fragments, k, ks);
    }
  }

  // ---------------------------------------------------------------- the run's own warning

  /** The body's warning is the text `t`, or is another value written as `t`. */
  predicate WarnsWith(b: Body, t: Bytes) {
    && "warning" in b.fields
    && (b.fields["warning"] == JString(t) ||
        (!b.fields["warning"].JString? && !b.fields["warning"].JNull? && "warning" in b.raw && b.raw["warning"] == t))
  }

  lemma ShortTextKept(b: Body, t: Bytes)
    requires WarnsWith(b, t) && !Contains(t, "bounded: ") && |t| <= 3987
    ensures WarningOf(b) == t && Kept(WarningOf(b)) == t
  {
    NeutralizeLabelFree(t);
  }

  lemma LedWarning(b: Body, fs: seq<Bytes>, k: Bytes)
    requires Noted(b, fs, k) && k != "" && k != MARKER_HEAD
    ensures "warning" in b.fields && b.fields["warning"].JString? && k <= b.fields["warning"].s
    ensures |b.fields["warning"].s| <= 8192
  {
    hide Tells;
    NotedMeans(b, fs, k);
  }

  /** What the run itself warned of leads the delivered warning: a text of up to 3987 bytes without the note
      label comes first, word for word, in every tier, also when the warning was not a string; the bare marker
      head is the one exception. */
  lemma WarningLeads(r: Result, encode: Encoder, t: Bytes)
    requires GoSized(r) && r.stdout.parsed.Some?
    requires TextWarning(r.stdout.parsed.value) || IndexEntries(r.stdout.parsed.value) > 0
    requires GoodKeys(r.stdout.parsed.value.fields.Keys)
    requires WarnsWith(r.stdout.parsed.value, t) && ValidUtf8(t) && !Contains(t, "bounded: ")
    requires 0 < |t| <= 3987 && t != " || bounded:"
    ensures var f := Fit(r, encode);
            f.tier != AsGiven ==>
              && f.result.stdout.parsed.Some?
              && var d := f.result.stdout.parsed.value.fields;
              && "warning" in d && d["warning"].JString? && t <= d["warning"].s && |d["warning"].s| <= 8192
  {
    hide Fit, S1, S2, S3, S4, LastResort, Noted, Kept, GoSized, GoodKeys, WarningOf, TextWarning, ExceededLimit,
    LastResortNote, ValidUtf8, ClipStderr, Contains;
    var b, limit := r.stdout.parsed.value, ExceededLimit(r);
    ShortTextKept(b, t);
    FitCases(r, encode);
    StagesNotedSized(r, limit);
    LastResortNoted(S4(b, limit).body, limit, S4(b, limit).fragments, t);
    var f := Fit(r, encode);
    if f.tier != AsGiven { LedWarning(f.result.stdout.parsed.value, f.fragments, t); }
  }
}
