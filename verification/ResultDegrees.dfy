/** How far a result is degraded: no further than it must be, and what each tier leaves of the rest. */
module ResultDegrees {
  import opened Options
  import opened Bytes
  import opened WarningNotes
  import opened NotePreservation
  import opened SortedKeys
  import opened ResultBounds
  import opened ResultDelivery
  import opened ResultContents

  // ---------------------------------------------------------------- what is not logged did not happen

  lemma SelectLog(fits: Result -> bool, r: Result, s1: Stage, s2: Stage, s3: Stage, s4: Stage,
                  last: Stdout, lastNote: Bytes, limit: Limit, log: seq<LogNote>, encode: Encoder)
    ensures var f := Select(fits, r, s1, s2, s3, s4, last, lastNote, limit, log, encode);
            && f.tier !in {AsGiven, Failed}
            && (f.tier == IndexEmptied ==> f.log == log + s1.log && f.result == Carry(r, s1, encode))
            && (f.tier == BulkDropped ==> f.log == log + s2.log && f.result == Carry(r, s2, encode))
            && (f.tier == ManifestsDropped ==> f.log == log + s3.log && f.result == Carry(r, s3, encode))
            && (f.tier == ScalarsOnly ==> f.log == log + s4.log)
            && (f.tier == Minimal ==> f.log != [])
  {
    hide Carry, Shrunk;
  }

  lemma FitLog(r: Result, encode: Encoder)
    requires r.stdout.parsed.Some?
    ensures var f, c, log := Fit(r, encode), ClipStderr(r), StderrLog(r);
            var b, limit := r.stdout.parsed.value, ExceededLimit(r);
            && (f.tier == AsGiven ==> f.log == log && f.result == c)
            && (f.tier == IndexEmptied ==> f.log == log + S1(b, limit).log && f.result == Carry(c, S1(b, limit), encode))
            && (f.tier == BulkDropped ==> f.log == log + S2(b, limit).log && f.result == Carry(c, S2(b, limit), encode))
            && (f.tier == ManifestsDropped ==> f.log == log + S3(b, limit).log && f.result == Carry(c, S3(b, limit), encode))
            && (f.tier == ScalarsOnly ==> f.log == log + S4(b, limit).log)
            && (f.tier == Minimal ==> f.log != [])
  {
    hide Select, Fits, StageIndex, StageBulk, StageBound, StageScalars, LastResort, LastResortNote,
    ExceededLimit, StderrLog, TruncateText, Carry;
    var c, limit, log := ClipStderr(r), ExceededLimit(r), StderrLog(r);
    var b := c.stdout.parsed.value;
    SelectLog(Fits, c, S1(b, limit), S2(b, limit), S3(b, limit), S4(b, limit),
              LastResort(S4(b, limit).body, limit), LastResortNote(limit), limit, log, encode);
  }

  lemma SilentKeys(ks: set<Bytes>, attested: bool)
    ensures DropLog(Sorted(ks)) == [] ==> ks == {}
    ensures BoundLog(Sorted(ks), attested) == [] ==> ks == {}
  {
    hide Sorted;
  }

  lemma SilentIndex(b: Body, limit: Limit, k: Bytes)
    requires S1(b, limit).log == [] && k != "warning"
    ensures k in S1(b, limit).body.fields <==> k in b.fields
    ensures k in b.fields ==> Same(b, S1(b, limit).body, k)
  {
    hide NoteFragment, IndexNote, BoundWarning, BoundWarningDropped;
    BoundWarningSame(b, k);
  }

  lemma SilentStages(b: Body, limit: Limit)
    ensures S2(b, limit).log == [] ==> S1(b, limit).log == [] && S2(b, limit).body == S1(b, limit).body
    ensures S3(b, limit).log == [] ==> S2(b, limit).log == [] && S3(b, limit).body == S2(b, limit).body
    ensures S4(b, limit).log != []
  {
    hide S1, BulkKeys, FieldsNote, NoteFragment, Sorted;
    SilentKeys(BulkKeys(S1(b, limit).body, ATTESTATION_BOUND), false);
    SilentKeys(BulkKeys(S2(b, limit).body, {}), "attestation" in DropBulk(S2(b, limit).body, limit, {}).body.fields);
  }

  /** What is not logged: with an empty log the id, verdict, stderr and duration are as given, and so is
      every member of the body but the warning, which is as given or clamped. */
  lemma SilentIsLossless(r: Result, encode: Encoder, k: Bytes)
    requires r.stdout.parsed.Some? && k != "warning"
    ensures var f, b := Fit(r, encode), r.stdout.parsed.value;
            f.log == [] ==>
              && f.result == r.(stdout := f.result.stdout) && f.result.stdout.parsed.Some?
              && var d := f.result.stdout.parsed.value;
              && (k in d.fields <==> k in b.fields) && (k in b.fields ==> d.fields[k] == b.fields[k])
              && (ValidUtf8(WarningOf(b)) ==>
                    WarningOf(d) == if Fits(ClipStderr(r)) then WarningOf(b) else RunText(WarningOf(b)))
  {
    hide Fit, S1, S2, S3, S4, TruncateText, WarningOf, RunText, Fits, ValidUtf8;
    var b, limit := r.stdout.parsed.value, ExceededLimit(r);
    SilentWarning(r, encode);
    NoFurtherThanNeeded(r, encode);
    FitLog(r, encode);
    SilentStages(b, limit);
    if Fit(r, encode).log == [] {
      UnclippedStderr(r);
      if S1(b, limit).log == [] { SilentIndex(b, limit, k); }
    }
  }

  /** boundObjectWarning counts on the text before it is neutralised: what it reports is what is cut from
      the text it composes exactly when that holds no label or still fits its budget. */
  lemma CountIsRight(b: Body)
    requires "warning" in b.fields && Compose(WarningOf(b), "") != WarningOf(b)
    ensures var w := WarningOf(b);
            BoundWarningDropped(b) == TruncateText(Neutralize(w), MAX_RUN_TEXT).dropped <==>
            LabelFree(w) || |Neutralize(w)| <= MAX_RUN_TEXT
  {
    hide Neutralize, LabelFree, Compose, TruncationSuffix, BackOff;
    var w := WarningOf(b);
    NeutralizeLength(w);
    if LabelFree(w) { NeutralizeLabelFree(w); } else { NeutralizeGrows(w); }
  }

  /** What an empty log means for the warning: it is as given, or the clamp of a text within its budget,
      and then nothing is cut from it when it holds no label or stays within the budget neutralised. */
  lemma SilentWarning(r: Result, encode: Encoder)
    requires r.stdout.parsed.Some?
    ensures var f, b := Fit(r, encode), r.stdout.parsed.value;
            var w := WarningOf(b);
            f.log == [] && ValidUtf8(w) ==>
              && f.result.stdout.parsed.Some?
              && var d := f.result.stdout.parsed.value;
              && ("warning" in d.fields <==> "warning" in b.fields)
              && WarningOf(d) == (if Fits(ClipStderr(r)) then w else RunText(w))
              && (!Fits(ClipStderr(r)) ==> |w| <= MAX_RUN_TEXT || RunText(w) == w)
              && (LabelFree(w) || |Neutralize(w)| <= MAX_RUN_TEXT ==> WarningOf(d) == w || WarningOf(d) == Neutralize(w))
  {
    hide Fit, S1, S2, S3, S4, TruncateText, WarningOf, RunText, Fits, LabelFree, Neutralize, ValidUtf8;
    var b, limit := r.stdout.parsed.value, ExceededLimit(r);
    NoFurtherThanNeeded(r, encode);
    FitLog(r, encode);
    SilentStages(b, limit);
    if Fit(r, encode).log == [] && ValidUtf8(WarningOf(b)) {
      UnclippedStderr(r);
      if S1(b, limit).log == [] { SilentClamp(b, limit); }
      SilentText(WarningOf(b));
    }
  }

  lemma SilentClamp(b: Body, limit: Limit)
    requires S1(b, limit).log == [] && ValidUtf8(WarningOf(b))
    ensures var d := S1(b, limit).body;
            && ("warning" in d.fields <==> "warning" in b.fields)
            && WarningOf(d) == RunText(WarningOf(b))
            && (|WarningOf(b)| <= MAX_RUN_TEXT || RunText(WarningOf(b)) == WarningOf(b))
  {
    hide NoteFragment, IndexNote, RunText, Sanitize, ValidUtf8;
    var w := WarningOf(b);
    ComposeNoNotes(w);
    RunTextValid(w);
    SanitizeValid(RunText(w));
    if "warning" !in b.fields { EmptyRunText(); }
  }

  lemma EmptyRunText()
    ensures RunText("") == ""
  {
  }

  lemma RunTextValid(w: Bytes)
    requires ValidUtf8(w)
    ensures ValidUtf8(RunText(w))
  {
    NeutralizeIsValid(w);
    TruncateTextValid(Neutralize(w), MAX_RUN_TEXT);
  }

  lemma SilentText(w: Bytes)
    ensures LabelFree(w) && |w| <= MAX_RUN_TEXT ==> RunText(w) == w
    ensures |Neutralize(w)| <= MAX_RUN_TEXT ==> RunText(w) == Neutralize(w)
  {
    if LabelFree(w) { NeutralizeLabelFree(w); }
  }

  lemma UnclippedStderr(r: Result)
    requires StderrLog(r) == []
    ensures ClipStderr(r) == r
  {
  }

  /** A result that fits, with a stderr that needs no clipping, is returned as it is with nothing logged. */
  lemma FittingUntouched(r: Result, encode: Encoder)
    requires Fits(r) && |r.stderr| <= MAX_TEXT
    ensures Fit(r, encode).result == r && Fit(r, encode).log == [] && Fit(r, encode).limit == NoLimit
  {
    assert ClipStderr(r) == r && StderrLog(r) == [];
  }

  /** A result comes back as it was with nothing logged exactly when there was nothing to do. */
  lemma UntouchedIff(r: Result, encode: Encoder)
    requires GoSized(r)
    ensures Fit(r, encode).result == r && Fit(r, encode).log == [] <==> Fits(r) && |r.stderr| <= MAX_TEXT
  {
    hide Fit, Fits, GoSized;
    AlwaysFits(r, encode);
    LoggedStderr(r, encode);
    if Fits(r) && |r.stderr| <= MAX_TEXT { FittingUntouched(r, encode); }
  }

  lemma LoggedStderr(r: Result, encode: Encoder)
    ensures Fit(r, encode).log == [] ==> |r.stderr| <= MAX_TEXT
  {
    hide Fits, StageIndex, StageBulk, StageBound, StageScalars, LastResort, LastResortNote, OversizeFailure;
  }

  // ---------------------------------------------------------------- containers and new members

  /** Not even the emptied index fits: the bulk fields are due. */
  ghost predicate PastIndex(r: Result, encode: Encoder)
    requires r.stdout.parsed.Some?
  {
    !Fits(ClipStderr(r)) && !Fits(Carry(ClipStderr(r), S1(r.stdout.parsed.value, ExceededLimit(r)), encode))
  }

  /** A member of more than 4 KiB that no attestation is bound to. */
  predicate BulkDue(b: Body, k: Bytes) {
    k in b.raw && |b.raw[k]| > 4096 && k !in {"layoutManifest", "systemStateManifest", "attestation"}
  }

  /** Any member of more than 4 KiB, and the attestation that names such a manifest. */
  predicate ManifestDue(b: Body, k: Bytes) {
    (k in b.raw && |b.raw[k]| > 4096) || LostWithManifest(b, k)
  }

  lemma BulkKept(b: Body, limit: Limit, k: Bytes)
    requires k in b.fields && b.fields[k].Container?() && k != "snapshot" && k != "warning"
    ensures k in S2(b, limit).body.fields <==> !BulkDue(b, k)
    ensures k in S2(b, limit).body.fields ==> Same(b, S2(b, limit).body, k)
    ensures k in S3(b, limit).body.fields <==> !ManifestDue(b, k)
    ensures k in S3(b, limit).body.fields ==> Same(b, S3(b, limit).body, k)
  {
    hide S1, DropBulk;
    IndexSame(b, limit, k);
    BulkSame(b, limit, k);
    DropBulkSame(S1(b, limit).body, limit, ATTESTATION_BOUND, k);
    DropBulkSame(S2(b, limit).body, limit, {}, k);
    DroppedManifests(b, limit);
  }

  /** Unless not even its scalars fit, a top-level container other than the snapshot is delivered unchanged,
      exactly unless it is bulk and the emptied index does not fit, is a bulk manifest or an attestation beside
      one and the bulk drop does not fit either, or dropping the manifests does not fit. */
  lemma ContainersSurvive(r: Result, encode: Encoder, k: Bytes)
    requires r.stdout.parsed.Some? && k in r.stdout.parsed.value.fields
    requires r.stdout.parsed.value.fields[k].Container?() && k != "snapshot" && k != "warning"
    ensures var b, d := r.stdout.parsed.value, Fit(r, encode).result.stdout.parsed;
            !Exhausted(r, encode) ==>
            && d.Some?
            && (k in d.value.fields <==>
                  && !(BulkDue(b, k) && PastIndex(r, encode))
                  && !(ManifestDue(b, k) && PastBulk(r, encode))
                  && !PastManifests(r, encode))
            && (k in d.value.fields ==> d.value.fields[k] == b.fields[k])
  {
    hide Fit, S1, S2, S3, S4, Reduce, LostWithManifest, Fits;
    var b, limit := r.stdout.parsed.value, ExceededLimit(r);
    NoFurtherThanNeeded(r, encode);
    FitCases(r, encode);
    IndexSame(b, limit, k);
    BulkKept(b, limit, k);
    LastStage(b, limit);
    ScalarsKeep(S3(b, limit).body, limit, k);
  }

  /** No tier before the last adds a member other than the warning. */
  lemma NothingAdded(r: Result, encode: Encoder, k: Bytes)
    requires r.stdout.parsed.Some? && k !in r.stdout.parsed.value.fields && k != "warning"
    ensures var f := Fit(r, encode);
            f.tier != Minimal ==> f.result.stdout.parsed.Some? && k !in f.result.stdout.parsed.value.fields
  {
    hide Fit, S1, DropBulk, Reduce;
    var b, limit := r.stdout.parsed.value, ExceededLimit(r);
    FitCases(r, encode);
    IndexSame(b, limit, k);
    DropBulkSame(S1(b, limit).body, limit, ATTESTATION_BOUND, k);
    DropBulkSame(S2(b, limit).body, limit, {}, k);
    ScalarsKeep(S3(b, limit).body, limit, k);
  }

  // ---------------------------------------------------------------- the last resort

  lemma {:induction false} DecodeSkips(ps: seq<(Bytes, Bytes)>, qs: seq<(Bytes, Bytes)>, k: Bytes)
    requires forall i :: 0 <= i < |ps| ==> ps[i].0 != k
    ensures k in DecodePairs(ps + qs) <==> k in DecodePairs(qs)
    ensures k in DecodePairs(qs) ==> DecodePairs(ps + qs)[k] == DecodePairs(qs)[k]
  {
    if ps == [] {
      assert ps + qs == qs;
    } else {
      assert (ps + qs)[1..] == ps[1..] + qs;
      DecodeSkips(ps[1..], qs, k);
    }
  }

  lemma DecodeHead(k: Bytes, v: Bytes, qs: seq<(Bytes, Bytes)>)
    ensures k in DecodePairs([(k, v)] + qs) && DecodePairs([(k, v)] + qs)[k] == JString(Sanitize(v))
  {
    assert ([(k, v)] + qs)[1..] == qs;
  }

  /** A member found under its own key behind pairs with other keys. */
  lemma DecodeFinds(ps: seq<(Bytes, Bytes)>, k: Bytes, v: Bytes, qs: seq<(Bytes, Bytes)>)
    requires forall i :: 0 <= i < |ps| ==> ps[i].0 != k
    ensures k in DecodePairs(ps + ([(k, v)] + qs)) && DecodePairs(ps + ([(k, v)] + qs))[k] == JString(Sanitize(v))
  {
    DecodeHead(k, v, qs);
    DecodeSkips(ps, [(k, v)] + qs, k);
  }

  predicate ShortText(s: Bytes) {
    |s| <= MAX_LAST_RESORT && ValidUtf8(s)
  }

  lemma ShortClip(s: Bytes)
    requires ShortText(s)
    ensures TruncateText(s, MAX_LAST_RESORT).text == s && Sanitize(s) == s
    ensures ClipValue(JString(s)) == JString(s)
  {
    SanitizeValid(s);
  }

  ghost function LastFields(b: Body, limit: Limit): (m: map<Bytes, Json>) {
    LastResort(b, limit).parsed.value.fields
  }

  /** An identifying member that is a short string is in the minimal status as it was. */
  lemma MinimalMember(b: Body, limit: Limit, k: Bytes, s: Bytes)
    requires k in {"id", "jobId", "status"} && k in b.fields && b.fields[k] == JString(s) && ShortText(s)
    ensures k in LastFields(b, limit) && LastFields(b, limit)[k] == JString(s)
  {
    hide AppendNote, LastResortNote, EncodePairs, DecodePairs, SnapshotId, TruncateText, Sanitize, ValidUtf8, WarningOf;
    ShortClip(s);
    assert ClippedField(b, k) == Some(s);
    var w := [("warning", AppendNote(WarningOf(b), LastResortNote(limit)))];
    var p1, p2, p4 := Pair("id", ClippedField(b, "id")), Pair("jobId", ClippedField(b, "jobId")), Pair("status", ClippedField(b, "status"));
    var p3 := Pair("snapshotId", if SnapshotId(b).Some? then SnapshotId(b) else ClippedField(b, "snapshotId"));
    assert MinimalPairs(b, w[0].1) == p1 + p2 + p3 + p4 + w;
    Regroup(p1, p2, p3, p4, w);
    if k == "id" {
      DecodeFinds([], k, s, p2 + p3 + p4 + w);
    } else if k == "jobId" {
      DecodeFinds(p1, k, s, p3 + p4 + w);
    } else {
      DecodeFinds(p1 + p2 + p3, k, s, w);
    }
  }

  lemma Regroup(p1: seq<(Bytes, Bytes)>, p2: seq<(Bytes, Bytes)>, p3: seq<(Bytes, Bytes)>, p4: seq<(Bytes, Bytes)>,
                w: seq<(Bytes, Bytes)>)
    ensures p1 + p2 + p3 + p4 + w == [] + (p1 + (p2 + p3 + p4 + w))
    ensures p1 + p2 + p3 + p4 + w == p1 + (p2 + (p3 + p4 + w))
    ensures p1 + p2 + p3 + p4 + w == (p1 + p2) + (p3 + (p4 + w))
    ensures p1 + p2 + p3 + p4 + w == (p1 + p2 + p3) + (p4 + w)
  {
  }

  /** So is the snapshot's own id, under snapshotId. */
  lemma MinimalSnapshot(b: Body, limit: Limit, s: Bytes)
    requires SnapshotOf(b).Some? && "id" in SnapshotOf(b).value && SnapshotOf(b).value["id"] == JString(s)
    requires ShortText(s) && s != ""
    ensures "snapshotId" in LastFields(b, limit) && LastFields(b, limit)["snapshotId"] == JString(s)
  {
    hide AppendNote, LastResortNote, EncodePairs, DecodePairs, ClippedField, TruncateText, Sanitize, ValidUtf8, WarningOf;
    ShortClip(s);
    assert SnapshotId(b) == Some(s);
    var w := [("warning", AppendNote(WarningOf(b), LastResortNote(limit)))];
    var p1, p2, p4 := Pair("id", ClippedField(b, "id")), Pair("jobId", ClippedField(b, "jobId")), Pair("status", ClippedField(b, "status"));
    var p3 := Pair("snapshotId", SnapshotId(b));
    assert MinimalPairs(b, w[0].1) == p1 + p2 + p3 + p4 + w;
    Regroup(p1, p2, p3, p4, w);
    DecodeFinds(p1 + p2, "snapshotId", s, p4 + w);
  }

  lemma ReducedMember(b: Body, limit: Limit, k: Bytes, s: Bytes)
    requires k in {"id", "jobId", "status", "snapshotId"} && k in b.fields && b.fields[k] == JString(s) && ShortText(s)
    ensures k in S4(b, limit).body.fields && S4(b, limit).body.fields[k] == JString(s)
  {
    hide S3, Reduce, ClipValue, ValidUtf8;
    BoundSame(b, limit, k);
    ScalarsKeep(S3(b, limit).body, limit, k);
    ShortClip(s);
  }

  /** Without an id of the snapshot's own, a top-level snapshotId is. */
  lemma MinimalFallback(b: Body, limit: Limit, s: Bytes)
    requires SnapshotId(b).None? && "snapshotId" in b.fields && b.fields["snapshotId"] == JString(s) && ShortText(s)
    ensures "snapshotId" in LastFields(b, limit) && LastFields(b, limit)["snapshotId"] == JString(s)
  {
    hide AppendNote, LastResortNote, EncodePairs, DecodePairs, SnapshotId, TruncateText, Sanitize, ValidUtf8, WarningOf;
    ShortClip(s);
    assert ClippedField(b, "snapshotId") == Some(s);
    var w := [("warning", AppendNote(WarningOf(b), LastResortNote(limit)))];
    var p1, p2, p4 := Pair("id", ClippedField(b, "id")), Pair("jobId", ClippedField(b, "jobId")), Pair("status", ClippedField(b, "status"));
    var p3 := Pair("snapshotId", ClippedField(b, "snapshotId"));
    assert MinimalPairs(b, w[0].1) == p1 + p2 + p3 + p4 + w;
    Regroup(p1, p2, p3, p4, w);
    DecodeFinds(p1 + p2, "snapshotId", s, p4 + w);
  }

  /** The snapshot's own id, when it is a non-empty string. */
  ghost predicate OwnId(b: Body, s: Bytes) {
    SnapshotOf(b).Some? && "id" in SnapshotOf(b).value && SnapshotOf(b).value["id"] == JString(s) && s != ""
  }

  /** Up to the last tier the snapshot keeps its own id, and none gets one it did not have. */
  lemma OwnIdKept(b: Body, limit: Limit, s: Bytes)
    ensures OwnId(S4(b, limit).body, s) <==> OwnId(b, s)
  {
    hide S1, S2, S3, Reduce;
    IndexOwnId(b, limit, s);
    DropSnapshot(b, limit);
    LastStage(b, limit);
    if SnapshotOf(S3(b, limit).body).Some? {
      ReduceSnapshot(S3(b, limit).body, limit);
    } else {
      ReduceNoSnapshot(S3(b, limit).body, limit);
    }
  }

  lemma IndexOwnId(b: Body, limit: Limit, s: Bytes)
    ensures OwnId(S1(b, limit).body, s) <==> OwnId(b, s)
  {
    hide NoteFragment, IndexNote;
    var b1 := BoundWarning(b);
    BoundWarningSame(b, "snapshot");
    if IndexEntries(b1) > 0 {
      var b2 := b1.(fields := b1.fields["snapshot" := JObject(b1.fields["snapshot"].members["files" := JArray([])])]);
      NoteFragmentSame(b2, IndexNote(IndexEntries(b1), limit), "snapshot");
    }
  }

  lemma ReduceNoSnapshot(b: Body, limit: Limit)
    requires SnapshotOf(b).None?
    ensures SnapshotOf(Reduce(b, limit).body).None?
  {
    hide NoteFragment, FieldsNote, ClipValue;
    NoteFragmentSame(Scalars(b), FieldsNote(ContainerKeys(b), limit), "snapshot");
    NoScalarObject(b);
  }

  lemma NoScalarObject(b: Body)
    requires SnapshotOf(b).None?
    ensures SnapshotOf(Scalars(b)).None?
  {
  }

  lemma NoOwnId(b: Body)
    requires forall s :: !OwnId(b, s)
    ensures SnapshotId(b).None?
  {
    if SnapshotId(b).Some? { assert OwnId(b, b.fields["snapshot"].members["id"].s); }
  }

  /** Even a result reduced to its minimal status says which job and snapshot it is about and how it
      ended, when those were short strings; a top-level snapshotId stands in for a missing id of the snapshot. */
  lemma MinimalIdentifies(r: Result, encode: Encoder, k: Bytes, s: Bytes)
    requires r.stdout.parsed.Some? && ShortText(s)
    ensures var b, d := r.stdout.parsed.value, Fit(r, encode).result.stdout.parsed;
            Fit(r, encode).tier == Minimal ==>
            && d.Some?
            && (k in {"id", "jobId", "status"} && k in b.fields && b.fields[k] == JString(s) ==>
                  k in d.value.fields && d.value.fields[k] == JString(s))
            && (OwnId(b, s) ==> "snapshotId" in d.value.fields && d.value.fields["snapshotId"] == JString(s))
            && ((forall t :: !OwnId(b, t)) && "snapshotId" in b.fields && b.fields["snapshotId"] == JString(s) ==>
                  "snapshotId" in d.value.fields && d.value.fields["snapshotId"] == JString(s))
  {
    hide Fit, S4, LastResort, ShortText, S1, S2, S3, Identity, Reduce, OwnId;
    var b, limit := r.stdout.parsed.value, ExceededLimit(r);
    FitCases(r, encode);
    LastParses(S4(b, limit).body, limit);
    if k in {"id", "jobId", "status"} && k in b.fields && b.fields[k] == JString(s) {
      ReducedMember(b, limit, k, s);
      MinimalMember(S4(b, limit).body, limit, k, s);
    }
    OwnIdKept(b, limit, s);
    if OwnId(b, s) {
      OwnIdDelivered(S4(b, limit).body, limit, s);
    }
    if (forall t :: !OwnId(b, t)) && "snapshotId" in b.fields && b.fields["snapshotId"] == JString(s) {
      forall t ensures !OwnId(S4(b, limit).body, t) { OwnIdKept(b, limit, t); }
      NoOwnId(S4(b, limit).body);
      ReducedMember(b, limit, "snapshotId", s);
      MinimalFallback(S4(b, limit).body, limit, s);
    }
  }

  lemma OwnIdDelivered(b: Body, limit: Limit, s: Bytes)
    requires OwnId(b, s) && ShortText(s)
    ensures "snapshotId" in LastFields(b, limit) && LastFields(b, limit)["snapshotId"] == JString(s)
  {
    hide LastResort, ShortText;
    MinimalSnapshot(b, limit, s);
  }

  lemma LastParses(b: Body, limit: Limit)
    ensures LastResort(b, limit).parsed.Some?
  {
  }
}
