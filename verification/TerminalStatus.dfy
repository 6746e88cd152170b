/** The minimal status of the last tier, as the text that is sent. */
module TerminalStatus {
  import opened Options
  import opened Bytes
  import opened WarningNotes
  import opened NotePreservation
  import opened WarningText
  import opened SortedKeys
  import opened ResultBounds
  import opened ResultDelivery
  import opened ResultContents
  import opened ResultDegrees
  import opened ResultNotes
  import opened JsonText

  // ---------------------------------------------------------------- members in key order

  /** Every key so far sorts in front of `k`. */
  ghost predicate Under(ps: seq<(Bytes, Bytes)>, k: Bytes) {
    forall i :: 0 <= i < |ps| ==> Leq(ps[i].0, k) && ps[i].0 != k
  }

  lemma UnderNext(ps: seq<(Bytes, Bytes)>, k: Bytes, next: Bytes)
    requires Under(ps, k) && Leq(k, next) && k != next
    ensures Under(ps, next)
  {
    hide Leq;
    forall i | 0 <= i < |ps| ensures Leq(ps[i].0, next) && ps[i].0 != next {
      LeqTransitive(ps[i].0, k, next);
      LeqTotal(k, next);
    }
  }

  lemma OrderedPush(ps: seq<(Bytes, Bytes)>, k: Bytes, v: Option<Bytes>, next: Bytes)
    requires InKeyOrder(ps) && Under(ps, k) && (v.Some? ==> ValidUtf8(v.value)) && Leq(k, next) && k != next
    ensures InKeyOrder(ps + Pair(k, v)) && Under(ps + Pair(k, v), next)
  {
    hide Leq, ValidUtf8;
    UnderNext(ps, k, next);
    assert v.None? ==> ps + Pair(k, v) == ps;
  }

  lemma StatusOrder()
    ensures Leq("id", "jobId") && Leq("jobId", "snapshotId") && Leq("snapshotId", "status") && Leq("status", "warning")
    ensures Leq("warning", "x")
  {
    assert Leq("napshotId", "tatus");
  }

  /** The identifying strings of a body are valid text, as json.Unmarshal makes them. */
  ghost predicate ValidIds(b: Body) {
    && (forall k :: k in {"id", "jobId", "snapshotId", "status"} && k in b.fields && b.fields[k].JString? ==>
          ValidUtf8(b.fields[k].s))
    && (forall s :: OwnId(b, s) ==> ValidUtf8(s))
  }

  lemma IdsValid(b: Body, k: Bytes)
    requires ValidIds(b) && k in {"id", "jobId", "snapshotId", "status"}
    ensures ClippedField(b, k).Some? ==> ValidUtf8(ClippedField(b, k).value)
    ensures SnapshotId(b).Some? ==> ValidUtf8(SnapshotId(b).value)
  {
    hide ValidUtf8, TruncateText;
    if k in b.fields && b.fields[k].JString? { TruncateTextValid(b.fields[k].s, MAX_LAST_RESORT); }
    if SnapshotId(b).Some? {
      var s := b.fields["snapshot"].members["id"].s;
      assert OwnId(b, s);
      TruncateTextValid(s, MAX_LAST_RESORT);
    }
    NullIsValid();
  }

  lemma NullIsValid()
    ensures TruncateText("", MAX_LAST_RESORT).text == "" && ValidUtf8("")
  {
  }

  lemma MinimalInOrder(b: Body, w: Bytes)
    requires ValidIds(b) && ValidUtf8(w)
    ensures InKeyOrder(MinimalPairs(b, w))
  {
    hide ValidUtf8, ValidIds, ClippedField, SnapshotId, Leq, InKeyOrder, Under, Pair;
    IdsValid(b, "id");
    IdsValid(b, "jobId");
    IdsValid(b, "snapshotId");
    IdsValid(b, "status");
    StatusOrder();
    var id := if SnapshotId(b).Some? then SnapshotId(b) else ClippedField(b, "snapshotId");
    NoPairs("id");
    OrderedPush([], "id", ClippedField(b, "id"), "jobId");
    var p1 := [] + Pair("id", ClippedField(b, "id"));
    OrderedPush(p1, "jobId", ClippedField(b, "jobId"), "snapshotId");
    var p2 := p1 + Pair("jobId", ClippedField(b, "jobId"));
    OrderedPush(p2, "snapshotId", id, "status");
    var p3 := p2 + Pair("snapshotId", id);
    OrderedPush(p3, "status", ClippedField(b, "status"), "warning");
    var p4 := p3 + Pair("status", ClippedField(b, "status"));
    OrderedPush(p4, "warning", Some(w), "x");
    OnePair("warning", w);
    assert p4 == IdPairs(b) by { assert p1 == Pair("id", ClippedField(b, "id")); }
  }

  lemma NoPairs(k: Bytes)
    ensures InKeyOrder([]) && Under([], k)
  {
  }

  lemma OnePair(k: Bytes, v: Bytes)
    ensures Pair(k, Some(v)) == [(k, v)]
  {
  }

  /** The minimal status is sent as the JSON object it stands for, members in key order. */
  lemma LastResortIsJson(b: Body, limit: Limit)
    requires ValidIds(b) && ValidUtf8(AppendNote(WarningOf(b), LastResortNote(limit)))
    ensures LastResort(b, limit).parsed.Some?
    ensures LastResort(b, limit).text == Compact(LastResort(b, limit).parsed.value.fields)
  {
    hide ValidUtf8, ValidIds, AppendNote, LastResortNote, WarningOf, MinimalPairs, EncodePairs, DecodePairs, InKeyOrder, Compact;
    var w := AppendNote(WarningOf(b), LastResortNote(limit));
    MinimalInOrder(b, w);
    PairsAreCompact(MinimalPairs(b, w));
  }

  /** A string member of the last stage is one of the body's own, clipped. */
  lemma LastStageId(b: Body, limit: Limit, k: Bytes)
    requires ValidIds(b) && k in {"id", "jobId", "snapshotId", "status"}
    requires k in S4(b, limit).body.fields && S4(b, limit).body.fields[k].JString?
    ensures ValidUtf8(S4(b, limit).body.fields[k].s)
  {
    hide S1, S2, S3, S4, Reduce, ClipValue, ValidUtf8, BulkDue, ManifestDue, LostWithManifest;
    LastStage(b, limit);
    ScalarsKeep(S3(b, limit).body, limit, k);
    if k !in b.fields {
      NeverAdded(b, limit, k);
    } else if b.fields[k].Container?() {
      BulkKept(b, limit, k);
    } else {
      BoundSame(b, limit, k);
      ClipValid(b.fields[k]);
    }
  }

  lemma NeverAdded(b: Body, limit: Limit, k: Bytes)
    requires k !in b.fields && k != "warning"
    ensures k !in S3(b, limit).body.fields
  {
    hide S1, DropBulk;
    IndexSame(b, limit, k);
    DropBulkSame(S1(b, limit).body, limit, ATTESTATION_BOUND, k);
    DropBulkSame(S2(b, limit).body, limit, {}, k);
  }

  lemma ClipValid(v: Json)
    ensures ClipValue(v).JString? ==> v.JString? && (ValidUtf8(v.s) ==> ValidUtf8(ClipValue(v).s))
  {
    hide ValidUtf8, TruncateText, Sanitize;
    if v.JString? && ValidUtf8(v.s) {
      TruncateTextValid(v.s, MAX_TEXT);
      SanitizeValid(TruncateText(v.s, MAX_TEXT).text);
    }
  }

  lemma LastStageIds(b: Body, limit: Limit)
    requires ValidIds(b)
    ensures ValidIds(S4(b, limit).body)
  {
    hide S4, OwnId, ValidUtf8;
    var d := S4(b, limit).body;
    forall k | k in {"id", "jobId", "snapshotId", "status"} && k in d.fields && d.fields[k].JString?
      ensures ValidUtf8(d.fields[k].s)
    {
      LastStageId(b, limit, k);
    }
    forall s | OwnId(d, s) ensures ValidUtf8(s) { OwnIdKept(b, limit, s); }
  }

  lemma LastWarningValid(b: Body, limit: Limit, fs: seq<Bytes>, k: Bytes)
    requires Noted(b, fs, k) && |fs| <= 6
    ensures ValidUtf8(AppendNote(WarningOf(b), LastResortNote(limit)))
  {
    hide Delivers, AppendNote, LastResortNote, WarningOf, GoodNotes, GoodFragment, GoodFragments, TextAfter, NotesOf, ValidUtf8;
    var f := LastResortNote(limit);
    LastResortNoteGood(limit);
    LastResortNoteLength(limit);
    GoodFragmentFrom(f);
    AppendTells(WarningOf(b), fs, f, k);
    DeliversValid(AppendNote(WarningOf(b), f), NotesOf(fs + [f]));
  }

  /** A result that ends in the last tier is sent with a stdout that is the JSON text of its minimal status. */
  lemma MinimalIsJson(r: Result, encode: Encoder)
    requires GoSized(r) && r.stdout.parsed.Some?
    requires TextWarning(r.stdout.parsed.value) || IndexEntries(r.stdout.parsed.value) > 0
    requires ValidUtf8(WarningOf(r.stdout.parsed.value))
    requires GoodKeys(r.stdout.parsed.value.fields.Keys) && ValidIds(r.stdout.parsed.value)
    ensures var f := Fit(r, encode);
            f.tier == Minimal ==>
              f.result.stdout.parsed.Some? && f.result.stdout.text == Compact(f.result.stdout.parsed.value.fields)
  {
    hide Fit, S1, S2, S3, S4, LastResort, Noted, Kept, GoSized, GoodKeys, WarningOf, TextWarning, ExceededLimit,
    LastResortNote, ValidUtf8, ValidIds, Compact, AppendNote;
    var b, limit := r.stdout.parsed.value, ExceededLimit(r);
    FitCases(r, encode);
    StagesNotedSized(r, limit);
    LastStageIds(b, limit);
    LastWarningValid(S4(b, limit).body, limit, S4(b, limit).fragments, Kept(WarningOf(b)));
    LastResortIsJson(S4(b, limit).body, limit);
  }
}
