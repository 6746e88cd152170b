/** Results the helper can in fact produce, for which a promise of the bounding code fails. Every object is
    paired with the text it is decoded from, and re-encoded as json.Marshal writes it. */
module ResultWitnesses {
  import opened Options
  import opened Bytes
  import opened WarningNotes
  import opened NotePreservation
  import opened SortedKeys
  import opened ResultBounds
  import opened ResultDelivery
  import opened NamedLimit
  import opened ResultContents
  import opened ResultDegrees
  import opened JsonText

  ghost function Reported(n: nat, fields: map<Bytes, Json>): (r: Result) {
    Result("", true, Stdouted(n, fields), "", 0)
  }

  lemma EmptyStderr(n: nat, fields: map<Bytes, Json>)
    ensures ClipStderr(Reported(n, fields)) == Reported(n, fields)
  {
  }

  lemma TooLong(r: Result)
    requires |r.stdout.text| > SERVER_RESULT_BUDGET
    ensures !Fits(r) && ExceededLimit(r) == ServerResult
  {
  }

  /** A list with one string of n letters, and its text. */
  function Listed(n: nat): (v: Json) {
    JArray([JString(Letters(n))])
  }

  lemma ListedText(n: nat)
    ensures |Encode(Listed(n))| == n + 4
  {
    LettersEscape(n);
    var v, items := Listed(n), [JString(Letters(n))];
    assert items[1..] == [];
    assert EncodeItems(v, items) == Encode(items[0]) + "" + EncodeItems(v, items[1..]);
  }

  // ---------------------------------------------------------------- a lost attestation

  function Attested(): (fields: map<Bytes, Json>) {
    map["attestation" := JBool(true), "layoutManifest" := Listed(SERVER_RESULT_BUDGET)]
  }

  lemma AttestedSame(limit: Limit)
    ensures S1(Printed(Attested()), limit).body == Printed(Attested())
    ensures S2(Printed(Attested()), limit).body == Printed(Attested())
  {
    hide Encode, Listed;
    SameUntilManifests(Printed(Attested()), limit);
  }

  lemma NothingToEmpty(b: Body, limit: Limit)
    requires "warning" !in b.fields && "snapshot" !in b.fields
    ensures S1(b, limit).body == b
  {
    hide Compose, WarningOf, NoteFragment, IndexNote;
  }

  lemma NothingToDrop(b: Body, limit: Limit, keep: set<Bytes>)
    requires BulkKeys(b, keep) == {}
    ensures DropBulk(b, limit, keep).body == b
  {
    hide BulkKeys, NoteFragment, FieldsNote;
  }

  lemma BoundKeysStay(b: Body)
    requires b.fields.Keys == {"attestation", "layoutManifest"}
    ensures BulkKeys(b, ATTESTATION_BOUND) == {}
  {
    hide IsBulk;
    forall k | k in b.fields ensures k in ATTESTATION_BOUND {
      assert k in b.fields.Keys;
    }
  }

  /** Without warning, snapshot or any member that may go, nothing happens before the manifests are due. */
  lemma SameUntilManifests(b: Body, limit: Limit)
    requires b.fields.Keys == {"attestation", "layoutManifest"}
    ensures S1(b, limit).body == b && S2(b, limit).body == b
  {
    hide S1, DropBulk, BulkKeys;
    assert "warning" !in b.fields.Keys && "snapshot" !in b.fields.Keys;
    NothingToEmpty(b, limit);
    BoundKeysStay(b);
    NothingToDrop(b, limit, ATTESTATION_BOUND);
  }

  lemma ManifestIsBulk()
    ensures IsBulk(Printed(Attested()), "layoutManifest") && BulkAt(Printed(Attested()), "layoutManifest")
  {
    hide Encode, Letters;
    ListedText(SERVER_RESULT_BUDGET);
  }

  lemma AttestedBulk()
    ensures BulkKeys(Printed(Attested()), {}) == {"layoutManifest"}
  {
    hide Encode, Letters, IsBulk;
    var b := Printed(Attested());
    ManifestIsBulk();
    NotBulk(b, "attestation");
    forall k | k in BulkKeys(b, {}) ensures k == "layoutManifest" {
      assert k in Attested();
    }
  }

  /** Without manifest and attestation only the note is left. */
  lemma OnlyTheNote(b: Body, limit: Limit)
    requires BulkKeys(b, {}) == {"layoutManifest"} && b.fields.Keys == {"attestation", "layoutManifest"}
    ensures var d := DropBound(b, limit).body.fields;
            d.Keys == {"warning"} && d["warning"].JString? && |d["warning"].s| <= 3 * MAX_TEXT
  {
    hide BulkKeys, AppendNote, FieldsNote, Sanitize;
    var note := FieldsNote({"layoutManifest"}, limit);
    assert "layoutManifest" in BulkKeys(b, {}) * MANIFESTS;
    OneKeyNote("layoutManifest", limit);
    AppendLength("", note);
    SanitizeLength(AppendNote("", note));
    var left := b.(fields := b.fields - {"layoutManifest"});
    assert WarningOf(left) == "";
    assert NoteFragment(left, note).fields.Keys == {"attestation", "warning"};
  }

  lemma AttestedDropped(limit: Limit)
    ensures var d := S3(Printed(Attested()), limit).body.fields;
            d.Keys == {"warning"} && d["warning"].JString? && |d["warning"].s| <= 3 * MAX_TEXT
  {
    hide DropBound, S2, Listed, Encode, BulkKeys;
    AttestedSame(limit);
    AttestedBulk();
    OnlyTheNote(Printed(Attested()), limit);
  }

  lemma NotBulk(b: Body, k: Bytes)
    requires k in b.fields && !b.fields[k].Container?()
    ensures !IsBulk(b, k)
  {
  }

  lemma OneKeyNote(k: Bytes, limit: Limit)
    requires |k| <= 100
    ensures 0 < |FieldsNote({k}, limit)| <= MAX_LENGTH
  {
    hide Sorted;
    var ks := Sorted({k});
    assert |ks| == 1 && ks[0] in ks;
    DescribeLength(limit);
  }

  /** A run with a layout manifest too large for the server loses its boolean attestation with it. */
  lemma AttestationLost()
    ensures var r := Reported(0, Attested());
            && IsScalar(Printed(Attested()), "attestation") && !Exhausted(r, Compact)
            && var d := Fit(r, Compact).result.stdout.parsed;
            d.Some? && "attestation" !in d.value.fields
  {
    hide Fit, S1, S2, S3, S4, Letters, TruncateText, Compact, Encode, Fits, IsBulk, BulkAt, Listed;
    var r, fields := Reported(0, Attested()), Attested();
    var b, limit := Printed(fields), ExceededLimit(r);
    EmptyStderr(0, fields);
    ListedText(SERVER_RESULT_BUDGET);
    CompactLonger(fields, "layoutManifest");
    AttestedSame(limit);
    TooLong(r);
    TooLong(Carry(r, S1(b, limit), Compact));
    TooLong(Carry(r, S2(b, limit), Compact));
    AttestedDropped(limit);
    var d := S3(b, limit).body.fields;
    CompactOne(d, "warning", d["warning"].s);
    SmallFits(Carry(r, S3(b, limit), Compact));
    ManifestIsBulk();
    ScalarsSurvive(r, Compact, "attestation");
  }

  // ---------------------------------------------------------------- five notes

  function Sevens(n: nat): (s: Bytes)
    ensures |s| == n
  {
    seq(n, _ => '7')
  }

  /** One file, two bulk fields and a number that no tier clips. */
  function Everything(): (fields: map<Bytes, Json>) {
    map["snapshot" := JObject(map["files" := JArray([JString("f")])]),
        "errors" := Listed(BULK_THRESHOLD), "layoutManifest" := Listed(BULK_THRESHOLD),
        "size" := JNumber(Sevens(SERVER_RESULT_BUDGET + 1))]
  }

  lemma EverythingBulk()
    ensures IsBulk(Printed(Everything()), "errors") && IsBulk(Printed(Everything()), "layoutManifest")
  {
    hide Encode, Letters, Sevens;
    ListedText(BULK_THRESHOLD);
  }

  lemma NotesOnce(b: Body, limit: Limit, keep: set<Bytes>, k: Bytes)
    requires IsBulk(b, k) && k != "snapshot" && k !in keep
    ensures DropBulk(b, limit, keep).note.Some?
    ensures keep == {} ==> DropBound(b, limit).note.Some?
  {
    hide NoteFragment, FieldsNote;
    assert k in BulkKeys(b, keep);
  }

  lemma ReduceNotesOnce(b: Body, limit: Limit)
    requires SnapshotOf(b).Some?
    ensures Reduce(b, limit).note.Some?
  {
    hide NoteFragment, FieldsNote, Scalars;
    assert "snapshot" in ContainerKeys(b);
  }

  lemma EverythingNotes(b: Body, limit: Limit)
    requires SnapshotOf(b).Some? && IndexEntries(b) > 0 && IsBulk(b, "errors") && IsBulk(b, "layoutManifest")
    ensures |S4(b, limit).fragments| == 4
  {
    hide S1, DropBulk, DropBound, Reduce, IndexNote, SnapshotKept;
    IndexSnapshot(b, limit);
    IndexSame(b, limit, "errors");
    DropSnapshot(b, limit);
    BulkSame(b, limit, "layoutManifest");
    NotesOnce(S1(b, limit).body, limit, ATTESTATION_BOUND, "errors");
    NotesOnce(S2(b, limit).body, limit, {}, "layoutManifest");
    ReduceNotesOnce(S3(b, limit).body, limit);
  }

  /** A body with a number longer than the server takes fits in no tier but the last. */
  lemma NumberStays(b: Body, limit: Limit, k: Bytes, literal: Bytes)
    requires IsScalar(b, k) && k != "attestation" && b.fields[k] == JNumber(literal)
    ensures k in S1(b, limit).body.fields && S1(b, limit).body.fields[k] == JNumber(literal)
    ensures k in S2(b, limit).body.fields && S2(b, limit).body.fields[k] == JNumber(literal)
    ensures k in S3(b, limit).body.fields && S3(b, limit).body.fields[k] == JNumber(literal)
    ensures k in S4(b, limit).body.fields && S4(b, limit).body.fields[k] == JNumber(literal)
  {
    hide S1, S2, S3, S4, Reduce, ClipValue;
    IndexSame(b, limit, k);
    BulkSame(b, limit, k);
    BoundSame(b, limit, k);
    LastStage(b, limit);
    ScalarsKeep(S3(b, limit).body, limit, k);
    NonStringsUnclipped(b.fields[k]);
  }

  lemma NumberTooLong(r: Result, s: Stage, k: Bytes, literal: Bytes)
    requires k in s.body.fields && s.body.fields[k] == JNumber(literal) && |literal| > SERVER_RESULT_BUDGET
    ensures !Fits(Carry(r, s, Compact))
  {
    hide Compact, Fits;
    CompactLonger(s.body.fields, k);
    TooLong(Carry(r, s, Compact));
  }

  /** Five notes are in fact reached: one from each tier and one from each of its two bulk drops. */
  lemma FiveNotes()
    ensures |Fit(Reported(0, Everything()), Compact).fragments| == 5
  {
    hide Fit, S1, S2, S3, S4, Listed, Sevens, TruncateText, LastResort, Compact, Encode, Carry, Fits, IsBulk;
    var r, fields := Reported(0, Everything()), Everything();
    var b, limit, literal := Printed(fields), ExceededLimit(r), Sevens(SERVER_RESULT_BUDGET + 1);
    EmptyStderr(0, fields);
    NumberStays(b, limit, "size", literal);
    NumberTooLong(r, S1(b, limit), "size", literal);
    NumberTooLong(r, S2(b, limit), "size", literal);
    NumberTooLong(r, S3(b, limit), "size", literal);
    NumberTooLong(r, S4(b, limit), "size", literal);
    EverythingTooLong();
    NoFurtherThanNeeded(r, Compact);
    FitCases(r, Compact);
    EverythingBulk();
    EverythingNotes(b, limit);
  }

  lemma EverythingTooLong()
    ensures !Fits(Reported(0, Everything()))
  {
    hide Compact, Fits, Sevens, Listed;
    CompactLonger(Everything(), "size");
    TooLong(Reported(0, Everything()));
  }

  // ---------------------------------------------------------------- a warning clipped in silence

  /** Exactly as long as the budget allows, with one label that neutralising lengthens. */
  function Labelled(): (w: Bytes)
    ensures |w| == MAX_RUN_TEXT
  {
    Letters(MAX_RUN_TEXT - |LABEL|) + LABEL
  }

  lemma LabelledText()
    ensures ValidUtf8(Labelled())
    ensures |Neutralize(Labelled())| == MAX_RUN_TEXT + 1
    ensures |RunText(Labelled())| == MAX_RUN_TEXT + 24
  {
    hide Letters, ValidUtf8;
    var w, k := Labelled(), MAX_RUN_TEXT - |LABEL|;
    AsciiIsValid(w);
    NeutralizeCopies(w, k);
    assert w[k..] == LABEL;
    LabelNeutralized();
    var n := Neutralize(w);
    assert n == w[..k] + NEUTRALIZED;
    assert n[MAX_RUN_TEXT] == NEUTRALIZED[9] == ' ';
    assert BackOff(n, MAX_RUN_TEXT) == MAX_RUN_TEXT;
    OneByteSuffix();
  }

  lemma LabelNeutralized()
    ensures Neutralize(LABEL) == NEUTRALIZED
  {
    assert LABEL[..|LABEL|] == LABEL && LABEL[|LABEL|..] == "";
    assert NEUTRALIZED + "" == NEUTRALIZED;
  }

  lemma OneByteSuffix()
    ensures |TruncationSuffix(1)| == 24
  {
    SuffixEscape(1);
  }

  function Warned(): (fields: map<Bytes, Json>) {
    map["warning" := JString(Labelled())]
  }

  lemma WarnedStage(limit: Limit)
    ensures var s := S1(Printed(Warned()), limit);
            s.log == [] && s.body.fields.Keys == {"warning"} && s.body.fields["warning"] == JString(RunText(Labelled()))
  {
    hide Encode, RunText, Labelled, ValidUtf8, Sanitize;
    var w := Labelled();
    LabelledText();
    ComposeNoNotes(w);
    RunTextValid(w);
    SanitizeValid(RunText(w));
    assert TruncateText(w, MAX_RUN_TEXT).dropped == 0;
  }

  /** A result over the server's budget by white space alone comes out with its warning clipped, the last
      byte of the neutralised text replaced by a suffix, and nothing logged. */
  lemma ClippedInSilence()
    ensures var f := Fit(Reported(SERVER_RESULT_BUDGET, Warned()), Compact);
            && f.log == [] && f.result.stdout.parsed.Some?
            && var d := WarningOf(f.result.stdout.parsed.value);
            && d == RunText(Labelled()) && d != Neutralize(Labelled()) && d != Labelled()
            && TruncateText(Neutralize(Labelled()), MAX_RUN_TEXT).dropped == 1
  {
    hide Fit, S1, S2, S3, S4, Labelled, RunText, TruncateText, Compact, Encode, Fits, Neutralize, ValidUtf8, WarningOf;
    var r, b := Reported(SERVER_RESULT_BUDGET, Warned()), Printed(Warned());
    var limit := ExceededLimit(r);
    EmptyStderr(SERVER_RESULT_BUDGET, Warned());
    CompactLonger(Warned(), "warning");
    TooLong(r);
    WarnedStage(limit);
    LabelledText();
    var d := S1(b, limit).body.fields;
    CompactOne(d, "warning", RunText(Labelled()));
    SmallFits(Carry(r, S1(b, limit), Compact));
    NoFurtherThanNeeded(r, Compact);
    FitLog(r, Compact);
    NoStderr(SERVER_RESULT_BUDGET, Warned());
    OverByOne();
    WarningReads(S1(b, limit).body, RunText(Labelled()));
  }

  lemma NoStderr(n: nat, fields: map<Bytes, Json>)
    ensures StderrLog(Reported(n, fields)) == []
  {
  }

  lemma OverByOne()
    ensures TruncateText(Neutralize(Labelled()), MAX_RUN_TEXT).dropped == 1
  {
    hide Neutralize, Labelled;
    LabelledText();
  }

  lemma WarningReads(b: Body, w: Bytes)
    requires "warning" in b.fields && b.fields["warning"] == JString(w)
    ensures WarningOf(b) == w
  {
  }
}
