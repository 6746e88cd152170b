/** The result always lands: every delivery limit is met, whatever the command produced. */
module ResultDelivery {
  import opened Options
  import opened Bytes
  import opened WarningNotes
  import opened SortedKeys
  import opened ResultBounds

  // ---------------------------------------------------------------- marshalled size

  lemma MarshalSize(r: Result)
    ensures var n := |Escape(r.commandId)| + |Escape(r.stdout.text)| + |Escape(r.stderr)|;
            n < |Marshal(r)| <= n + 70 + |SignedDecimal(r.durationMs)|
  {
  }

  /** The length pre-check before marshalling changes no verdict: a result is deliverable exactly when
      stdout meets the server budget and the marshalled result meets the frame budget, and of the two it
      exceeds the first one is named. */
  lemma FitsIff(r: Result)
    ensures Fits(r) <==> |r.stdout.text| <= 4_934_464 && |Marshal(r)| <= 16_711_680
    ensures ExceededLimit(r) == ServerResult <==> |r.stdout.text| > 4_934_464
    ensures ExceededLimit(r) == IpcFrame <==> |r.stdout.text| <= 4_934_464 && |Marshal(r)| > 16_711_680
    ensures ExceededLimit(r) != ResultText
  {
    MarshalSize(r);
    EscapeSize(r.commandId);
    EscapeSize(r.stdout.text);
    EscapeSize(r.stderr);
  }

  /** Worst-case escaping: text fields this short always fit. */
  lemma SmallFits(r: Result)
    requires |r.stdout.text| + |r.stderr| + |r.commandId| <= 2_700_000
    requires |SignedDecimal(r.durationMs)| <= 20
    ensures Fits(r)
  {
    FitsIff(r);
    MarshalSize(r);
    EscapeSize(r.commandId);
    EscapeSize(r.stdout.text);
    EscapeSize(r.stderr);
  }

  // ---------------------------------------------------------------- Go lengths

  /** Every length is a Go int, so every string the result holds is at most this long. */
  ghost predicate KeysSized(keys: set<Bytes>) {
    forall ks: set<Bytes> {:trigger Sorted(ks)} :: ks <= keys ==> |JoinKeys(Sorted(ks))| <= MAX_LENGTH - 1000
  }

  ghost predicate ValuesSized(b: Body) {
    && (forall k :: k in b.fields && b.fields[k].JString? ==> |b.fields[k].s| <= MAX_LENGTH)
    && (("snapshot" in b.fields && b.fields["snapshot"].JObject? && "id" in b.fields["snapshot"].members &&
         b.fields["snapshot"].members["id"].JString?) ==> |b.fields["snapshot"].members["id"].s| <= MAX_LENGTH)
    && |WarningOf(b)| <= MAX_LENGTH
  }

  ghost predicate GoSized(r: Result) {
    && |r.commandId| <= MAX_LENGTH && |r.stderr| <= MAX_LENGTH && |r.stdout.text| <= MAX_LENGTH
    && |SignedDecimal(r.durationMs)| <= 20
    && (r.stdout.parsed.Some? ==>
          ValuesSized(r.stdout.parsed.value) && KeysSized(r.stdout.parsed.value.fields.Keys) &&
          IndexEntries(r.stdout.parsed.value) <= MAX_LENGTH)
  }

  lemma DescribeLength(limit: Limit)
    ensures |limit.Describe()| <= 60
  {
    LengthDigits(limit.Budget());
  }

  lemma IndexNoteLength(entries: nat, limit: Limit)
    requires entries <= MAX_LENGTH
    ensures 0 < |IndexNote(entries, limit)| <= 512
  {
    DescribeLength(limit);
    LengthDigits(entries);
  }

  lemma FieldsNoteLength(ks: set<Bytes>, keys: set<Bytes>, limit: Limit)
    requires KeysSized(keys) && ks <= keys
    ensures 0 < |FieldsNote(ks, limit)| <= MAX_LENGTH
  {
    DescribeLength(limit);
  }

  lemma LastResortNoteLength(limit: Limit)
    ensures 0 < |LastResortNote(limit)| <= 200
  {
    DescribeLength(limit);
  }

  // ---------------------------------------------------------------- the warning stays small

  lemma ComposeLength(text: Bytes, notes: Bytes)
    requires |text| <= MAX_LENGTH && |notes| <= 2 * MAX_LENGTH
    ensures |Compose(text, notes)| <= MAX_TEXT
  {
    NeutralizeLength(text);
    TruncateTextBound(Neutralize(text), MAX_RUN_TEXT);
    TruncateTextBound(notes, MAX_NOTES);
  }

  /** Whatever the warning was, an append leaves it within the free-text cap. */
  lemma AppendLength(w: Bytes, fragment: Bytes)
    requires |w| <= MAX_LENGTH && |fragment| <= MAX_LENGTH
    ensures |AppendNote(w, fragment)| <= MAX_TEXT
  {
    TruncateTextBound(fragment, MAX_NOTE);
    ComposeLength(Split(w).text, AddNote(Split(w).notes, fragment));
  }

  lemma {:induction false} SanitizeLength(s: Bytes)
    ensures |Sanitize(s)| <= 3 * |s|
  {
    if s != "" { SanitizeLength(s[if RuneLen(s) > 0 then RuneLen(s) else 1..]); }
  }

  /** What every tier keeps: sizes stay bounded and no container appears that was not there. */
  ghost predicate Sized(b: Body, keys: set<Bytes>) {
    ValuesSized(b) && ContainerKeys(b) <= keys
  }

  lemma WithWarningSized(b: Body, w: Bytes, keys: set<Bytes>)
    requires Sized(b, keys) && |w| <= MAX_TEXT
    ensures Sized(WithWarning(b, w), keys)
  {
    SanitizeLength(w);
  }

  lemma NoteFragmentSized(b: Body, fragment: Bytes, keys: set<Bytes>)
    requires Sized(b, keys) && |fragment| <= MAX_LENGTH
    ensures Sized(NoteFragment(b, fragment), keys)
  {
    AppendLength(WarningOf(b), fragment);
    WithWarningSized(b, AppendNote(WarningOf(b), fragment), keys);
  }

  lemma RemoveSized(b: Body, ks: set<Bytes>, keys: set<Bytes>)
    requires Sized(b, keys)
    ensures Sized(b.(fields := b.fields - ks), keys)
  {
  }

  lemma IndexSized(b: Body, limit: Limit, keys: set<Bytes>)
    requires Sized(b, keys) && KeysSized(keys) && IndexEntries(b) <= MAX_LENGTH
    ensures Sized(BoundWarning(b), keys) && IndexEntries(BoundWarning(b)) == IndexEntries(b)
    ensures Sized(EmptyIndex(BoundWarning(b), limit).body, keys)
  {
    ComposeLength(WarningOf(b), "");
    WithWarningSized(b, Compose(WarningOf(b), ""), keys);
    var b1 := BoundWarning(b);
    if IndexEntries(b1) > 0 {
      var b2 := b1.(fields := b1.fields["snapshot" := JObject(b1.fields["snapshot"].members["files" := JArray([])])]);
      assert Sized(b2, keys);
      IndexNoteLength(IndexEntries(b1), limit);
      NoteFragmentSized(b2, IndexNote(IndexEntries(b1), limit), keys);
    }
  }

  lemma DropBulkSized(b: Body, limit: Limit, keep: set<Bytes>, keys: set<Bytes>)
    requires Sized(b, keys) && KeysSized(keys)
    ensures Sized(DropBulk(b, limit, keep).body, keys)
  {
    var ks := BulkKeys(b, keep);
    assert ks <= ContainerKeys(b);
    FieldsNoteLength(ks, keys, limit);
    RemoveSized(b, ks, keys);
    NoteFragmentSized(b.(fields := b.fields - ks), FieldsNote(ks, limit), keys);
  }

  lemma DropBoundSized(b: Body, limit: Limit, keys: set<Bytes>)
    requires Sized(b, keys) && KeysSized(keys)
    ensures Sized(DropBound(b, limit).body, keys)
  {
    DropBulkSized(b, limit, {}, keys);
    RemoveSized(DropBulk(b, limit, {}).body, {"attestation"}, keys);
  }

  lemma ClipValueLength(v: Json)
    requires v.JString? ==> |v.s| <= MAX_LENGTH
    ensures ClipValue(v).JString? ==> |ClipValue(v).s| <= MAX_LENGTH
  {
    if v.JString? {
      TruncateTextBound(v.s, MAX_TEXT);
      SanitizeLength(TruncateText(v.s, MAX_TEXT).text);
    }
  }

  lemma ScalarsSized(b: Body, keys: set<Bytes>)
    requires Sized(b, keys)
    ensures Sized(Scalars(b), keys)
  {
    forall k | k in b.fields ensures ClipValue(b.fields[k]).JString? ==> |ClipValue(b.fields[k]).s| <= MAX_LENGTH {
      ClipValueLength(b.fields[k]);
    }
  }

  lemma ReduceSized(b: Body, limit: Limit, keys: set<Bytes>)
    requires Sized(b, keys) && KeysSized(keys)
    ensures Sized(Reduce(b, limit).body, keys)
  {
    ScalarsSized(b, keys);
    FieldsNoteLength(ContainerKeys(b), keys, limit);
    NoteFragmentSized(Scalars(b), FieldsNote(ContainerKeys(b), limit), keys);
  }

  // ---------------------------------------------------------------- tier 4 and the failure result

  ghost predicate PairsSmall(ps: seq<(Bytes, Bytes)>) {
    forall i :: 0 <= i < |ps| ==> |ps[i].0| <= 10 && |ps[i].1| <= MAX_TEXT
  }

  lemma {:induction false} EncodePairsLength(ps: seq<(Bytes, Bytes)>)
    requires PairsSmall(ps)
    ensures |EncodePairs(ps)| <= 50_000 * |ps|
  {
    if ps != [] {
      EscapeSize(ps[0].0);
      EscapeSize(ps[0].1);
      EncodePairsLength(ps[1..]);
    }
  }

  lemma ClippedFieldLength(b: Body, k: Bytes)
    requires ValuesSized(b)
    ensures ClippedField(b, k).Some? ==> |ClippedField(b, k).value| <= MAX_TEXT
  {
    if k in b.fields && b.fields[k].AsString().Some? {
      TruncateTextBound(b.fields[k].AsString().value, MAX_LAST_RESORT);
    }
  }

  lemma SnapshotIdLength(b: Body)
    requires ValuesSized(b)
    ensures SnapshotId(b).Some? ==> |SnapshotId(b).value| <= MAX_TEXT
  {
    if SnapshotId(b).Some? {
      TruncateTextBound(b.fields["snapshot"].members["id"].s, MAX_LAST_RESORT);
    }
  }

  lemma FourPairs(p1: seq<(Bytes, Bytes)>, p2: seq<(Bytes, Bytes)>, p3: seq<(Bytes, Bytes)>, p4: seq<(Bytes, Bytes)>)
    requires PairsSmall(p1) && PairsSmall(p2) && PairsSmall(p3) && PairsSmall(p4)
    requires |p1| <= 1 && |p2| <= 1 && |p3| <= 1 && |p4| <= 1
    ensures |p1 + p2 + p3 + p4| <= 4 && PairsSmall(p1 + p2 + p3 + p4)
  {
  }

  lemma PairSmall(k: Bytes, v: Option<Bytes>)
    requires |k| <= 10 && (v.Some? ==> |v.value| <= MAX_TEXT)
    ensures |Pair(k, v)| <= 1 && PairsSmall(Pair(k, v))
  {
  }

  lemma IdPairsSmall(b: Body)
    requires ValuesSized(b)
    ensures |IdPairs(b)| <= 4 && PairsSmall(IdPairs(b))
  {
    hide ClippedField, SnapshotId, ValuesSized, Pair, PairsSmall;
    ClippedFieldLength(b, "id");
    ClippedFieldLength(b, "jobId");
    ClippedFieldLength(b, "snapshotId");
    ClippedFieldLength(b, "status");
    SnapshotIdLength(b);
    PairSmall("id", ClippedField(b, "id"));
    PairSmall("jobId", ClippedField(b, "jobId"));
    PairSmall("snapshotId", if SnapshotId(b).Some? then SnapshotId(b) else ClippedField(b, "snapshotId"));
    PairSmall("status", ClippedField(b, "status"));
    FourPairs(Pair("id", ClippedField(b, "id")), Pair("jobId", ClippedField(b, "jobId")),
              Pair("snapshotId", if SnapshotId(b).Some? then SnapshotId(b) else ClippedField(b, "snapshotId")),
              Pair("status", ClippedField(b, "status")));
  }

  lemma MinimalPairsSmall(b: Body, w: Bytes)
    requires ValuesSized(b) && |w| <= MAX_TEXT
    ensures |MinimalPairs(b, w)| <= 5 && PairsSmall(MinimalPairs(b, w))
  {
    hide IdPairs, ValuesSized;
    IdPairsSmall(b);
  }

  lemma LastResortLength(b: Body, limit: Limit)
    requires ValuesSized(b)
    ensures |LastResort(b, limit).text| <= 250_002
  {
    LastResortNoteLength(limit);
    AppendLength(WarningOf(b), LastResortNote(limit));
    var w := AppendNote(WarningOf(b), LastResortNote(limit));
    MinimalPairsSmall(b, w);
    EncodePairsLength(MinimalPairs(b, w));
  }

  lemma LastResortFits(r: Result, b: Body, limit: Limit)
    requires ValuesSized(b)
    requires |r.stderr| <= MAX_LENGTH && |r.commandId| <= MAX_LENGTH && |SignedDecimal(r.durationMs)| <= 20
    ensures Fits(Shrunk(r, LastResort(b, limit)))
  {
    LastResortLength(b, limit);
    TruncateTextBound(r.stderr, MAX_LAST_RESORT);
    TruncateTextBound(r.commandId, MAX_LAST_RESORT);
    SmallFits(Shrunk(r, LastResort(b, limit)));
  }

  lemma OversizeFailureFits(r: Result, limit: Limit)
    requires |r.stdout.text| <= MAX_LENGTH && |r.stderr| <= MAX_LENGTH && |r.commandId| <= MAX_LENGTH
    requires |SignedDecimal(r.durationMs)| <= 20
    ensures Fits(OversizeFailure(r, limit))
  {
    OversizeMessageLength(limit, |r.stdout.text| + |r.stderr|);
    TruncateTextBound(r.commandId, MAX_LAST_RESORT);
    SmallFits(OversizeFailure(r, limit));
  }

  lemma OversizeMessageLength(limit: Limit, original: nat)
    requires original <= 2 * MAX_LENGTH
    ensures |OversizeMessage(limit, original)| <= 300
  {
    DescribeLength(limit);
    LengthDigits(original);
  }

  /** Sizes along the tiers. */
  lemma StagesSized(b: Body, limit: Limit)
    requires ValuesSized(b) && KeysSized(b.fields.Keys) && IndexEntries(b) <= MAX_LENGTH
    ensures ValuesSized(StageScalars(StageBound(StageBulk(StageIndex(b, limit), limit), limit), limit).body)
  {
    var keys := b.fields.Keys;
    IndexSized(b, limit, keys);
    var s1 := StageIndex(b, limit);
    DropBulkSized(s1.body, limit, ATTESTATION_BOUND, keys);
    var s2 := StageBulk(s1, limit);
    DropBoundSized(s2.body, limit, keys);
    ReduceSized(StageBound(s2, limit).body, limit, keys);
  }

  lemma SelectFits(fits: Result -> bool, r: Result, s1: Stage, s2: Stage, s3: Stage, s4: Stage,
                   last: Stdout, lastNote: Bytes, limit: Limit, log: seq<LogNote>, encode: Encoder)
    requires fits(Shrunk(r, last))
    ensures fits(Select(fits, r, s1, s2, s3, s4, last, lastNote, limit, log, encode).result)
  {
  }

  lemma FitObjectFits(r: Result, b: Body, limit: Limit, log: seq<LogNote>, encode: Encoder)
    requires ValuesSized(b) && KeysSized(b.fields.Keys) && IndexEntries(b) <= MAX_LENGTH
    requires |r.stderr| <= MAX_LENGTH && |r.commandId| <= MAX_LENGTH && |SignedDecimal(r.durationMs)| <= 20
    ensures Fits(FitObject(r, b, limit, log, encode).result)
  {
    var s1 := StageIndex(b, limit);
    var s2 := StageBulk(s1, limit);
    var s3 := StageBound(s2, limit);
    var s4 := StageScalars(s3, limit);
    StagesSized(b, limit);
    LastResortFits(r, s4.body, limit);
    SelectFits(Fits, r, s1, s2, s3, s4, LastResort(s4.body, limit), LastResortNote(limit), limit, log, encode);
  }

  lemma FitClippedFits(r: Result, limit: Limit, log: seq<LogNote>, encode: Encoder)
    requires GoSized(r)
    ensures Fits(FitClipped(r, limit, log, encode).result)
  {
    hide FitObject, Fits, OversizeFailure, KeysSized, ValuesSized;
    if !Fits(r) {
      if r.stdout.parsed.None? {
        OversizeFailureFits(r, limit);
      } else {
        FitObjectFits(r, r.stdout.parsed.value, limit, log, encode);
      }
    }
  }

  /** A terminal result always lands: for every command id, stdout and stderr the fitted result meets
      both delivery budgets. */
  lemma AlwaysFits(r: Result, encode: Encoder)
    requires GoSized(r)
    ensures Fits(Fit(r, encode).result)
  {
    TruncateTextBound(r.stderr, MAX_TEXT);
    FitClippedFits(ClipStderr(r), ExceededLimit(r), StderrLog(r), encode);
  }

  lemma SelectStatus(fits: Result -> bool, r: Result, s1: Stage, s2: Stage, s3: Stage, s4: Stage,
                     last: Stdout, lastNote: Bytes, limit: Limit, log: seq<LogNote>, encode: Encoder)
    ensures var f := Select(fits, r, s1, s2, s3, s4, last, lastNote, limit, log, encode);
            f.result.success == r.success && f.tier != Failed && f.tier != AsGiven
  {
  }

  lemma FitObjectStatus(r: Result, b: Body, limit: Limit, log: seq<LogNote>, encode: Encoder)
    ensures FitObject(r, b, limit, log, encode).result.success == r.success
    ensures FitObject(r, b, limit, log, encode).tier !in {Failed, AsGiven}
  {
    var s1 := StageIndex(b, limit);
    var s2 := StageBulk(s1, limit);
    var s3 := StageBound(s2, limit);
    var s4 := StageScalars(s3, limit);
    SelectStatus(Fits, r, s1, s2, s3, s4, LastResort(s4.body, limit), LastResortNote(limit), limit, log, encode);
  }

  lemma FitClippedStatus(r: Result, limit: Limit, log: seq<LogNote>, encode: Encoder)
    ensures var f := FitClipped(r, limit, log, encode);
            && (f.tier == Failed <==> !Fits(r) && r.stdout.parsed.None?)
            && (f.result.success <==> r.success && f.tier != Failed)
  {
    hide FitObject, Fits, OversizeMessage, TruncateText;
    if !Fits(r) && r.stdout.parsed.Some? {
      FitObjectStatus(r, r.stdout.parsed.value, limit, log, encode);
    }
  }

  /** The status is never turned into a success, and becomes a failure exactly when the result is
      still oversize with stderr clipped and stdout is not a JSON object. */
  lemma SuccessVerdict(r: Result, encode: Encoder)
    ensures Fit(r, encode).tier == Failed <==> !Fits(ClipStderr(r)) && r.stdout.parsed.None?
    ensures Fit(r, encode).result.success <==> r.success && Fit(r, encode).tier != Failed
  {
    FitClippedStatus(ClipStderr(r), ExceededLimit(r), StderrLog(r), encode);
  }

  /** The condition is on the whole result: a long command id alone fails a success with empty stdout. */
  lemma LongIdFails(id: Bytes, encode: Encoder)
    requires |id| > RESULT_PAYLOAD_BUDGET
    ensures !Fit(Result(id, true, Stdout("", None), "", 0), encode).result.success
  {
    var r := Result(id, true, Stdout("", None), "", 0);
    assert TruncateText("", MAX_TEXT) == Clipped("", 0);
    assert ClipStderr(r) == r;
    assert !Fits(r);
    SuccessVerdict(r, encode);
  }
}
