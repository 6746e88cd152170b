/** What a degraded result still says: its notes, its scalars, its snapshot and its attestation. */
module ResultContents {
  import opened Options
  import opened Bytes
  import opened WarningNotes
  import opened ResultBounds

  // ---------------------------------------------------------------- which stage was delivered

  /** The delivered object, notes and tier are those of one stage. */
  ghost predicate IsStage(f: Fitted, s: Stage) {
    f.result.stdout.parsed == Some(s.body) && f.fragments == s.fragments
  }

  lemma SelectCases(fits: Result -> bool, r: Result, s1: Stage, s2: Stage, s3: Stage, s4: Stage,
                    last: Stdout, lastNote: Bytes, limit: Limit, log: seq<LogNote>, encode: Encoder)
    ensures var f := Select(fits, r, s1, s2, s3, s4, last, lastNote, limit, log, encode);
            match f.tier
            case IndexEmptied => IsStage(f, s1)
            case BulkDropped => IsStage(f, s2)
            case ManifestsDropped => IsStage(f, s3)
            case ScalarsOnly => IsStage(f, s4)
            case Minimal => f.result.stdout == last && f.fragments == s4.fragments + [lastNote]
            case _ => false
  {
  }

  ghost function S1(b: Body, limit: Limit): (s: Stage) { StageIndex(b, limit) }
  ghost function S2(b: Body, limit: Limit): (s: Stage) { StageBulk(S1(b, limit), limit) }
  ghost function S3(b: Body, limit: Limit): (s: Stage) { StageBound(S2(b, limit), limit) }
  ghost function S4(b: Body, limit: Limit): (s: Stage) { StageScalars(S3(b, limit), limit) }

  /** Every outcome of fitBackupResult, by tier. */
  lemma FitCases(r: Result, encode: Encoder)
    ensures var f, limit := Fit(r, encode), ExceededLimit(r);
            match f.tier
            case AsGiven => f.result == ClipStderr(r)
            case Failed => r.stdout.parsed.None? && f.result.stdout.parsed.None?
            case IndexEmptied => r.stdout.parsed.Some? && IsStage(f, S1(r.stdout.parsed.value, limit))
            case BulkDropped => r.stdout.parsed.Some? && IsStage(f, S2(r.stdout.parsed.value, limit))
            case ManifestsDropped => r.stdout.parsed.Some? && IsStage(f, S3(r.stdout.parsed.value, limit))
            case ScalarsOnly => r.stdout.parsed.Some? && IsStage(f, S4(r.stdout.parsed.value, limit))
            case Minimal =>
              r.stdout.parsed.Some? &&
              f.result.stdout == LastResort(S4(r.stdout.parsed.value, limit).body, limit) &&
              f.fragments == S4(r.stdout.parsed.value, limit).fragments + [LastResortNote(limit)]
  {
    hide Select, Fits, StageIndex, StageBulk, StageBound, StageScalars, LastResort, LastResortNote, OversizeFailure,
    ExceededLimit, StderrLog, TruncateText;
    var c, limit, log := ClipStderr(r), ExceededLimit(r), StderrLog(r);
    if !Fits(c) {
      if c.stdout.parsed.Some? {
        var b := c.stdout.parsed.value;
        SelectCases(Fits, c, S1(b, limit), S2(b, limit), S3(b, limit), S4(b, limit),
                    LastResort(S4(b, limit).body, limit), LastResortNote(limit), limit, log, encode);
      } else {
        FailureHasNoObject(c, limit);
      }
    }
  }

  lemma FailureHasNoObject(r: Result, limit: Limit)
    ensures OversizeFailure(r, limit).stdout.parsed.None?
  {
  }

  // ---------------------------------------------------------------- how far it goes

  /** The clipped result does not fit, nor with its file index emptied, nor with its bulk fields dropped. */
  ghost predicate PastBulk(r: Result, encode: Encoder)
    requires r.stdout.parsed.Some?
  {
    var c, b, limit := ClipStderr(r), r.stdout.parsed.value, ExceededLimit(r);
    !Fits(c) && !Fits(Carry(c, S1(b, limit), encode)) && !Fits(Carry(c, S2(b, limit), encode))
  }

  /** Nor with its manifests dropped. */
  ghost predicate PastManifests(r: Result, encode: Encoder)
    requires r.stdout.parsed.Some?
  {
    PastBulk(r, encode) && !Fits(Carry(ClipStderr(r), S3(r.stdout.parsed.value, ExceededLimit(r)), encode))
  }

  /** Nor reduced to its scalars. */
  ghost predicate Exhausted(r: Result, encode: Encoder)
    requires r.stdout.parsed.Some?
  {
    PastManifests(r, encode) && !Fits(Carry(ClipStderr(r), S4(r.stdout.parsed.value, ExceededLimit(r)), encode))
  }

  lemma SelectFirst(fits: Result -> bool, r: Result, s1: Stage, s2: Stage, s3: Stage, s4: Stage,
                    last: Stdout, lastNote: Bytes, limit: Limit, log: seq<LogNote>, encode: Encoder)
    ensures var tier := Select(fits, r, s1, s2, s3, s4, last, lastNote, limit, log, encode).tier;
            var past1 := !fits(Carry(r, s1, encode));
            var past2 := past1 && !fits(Carry(r, s2, encode));
            var past3 := past2 && !fits(Carry(r, s3, encode));
            && tier !in {AsGiven, Failed}
            && (tier == IndexEmptied <==> !past1)
            && (tier in {ManifestsDropped, ScalarsOnly, Minimal} <==> past2)
            && (tier in {ScalarsOnly, Minimal} <==> past3)
            && (tier == Minimal <==> past3 && !fits(Carry(r, s4, encode)))
  {
    hide Carry;
  }

  /** Nothing is degraded that would have fitted: which tier delivers can be told before the call from
      what each earlier one would have produced. */
  lemma NoFurtherThanNeeded(r: Result, encode: Encoder)
    ensures Fit(r, encode).tier == AsGiven <==> Fits(ClipStderr(r))
    ensures r.stdout.parsed.Some? ==>
              && var tier, c := Fit(r, encode).tier, ClipStderr(r);
              && tier != Failed
              && (tier in {AsGiven, IndexEmptied} <==>
                    Fits(c) || Fits(Carry(c, S1(r.stdout.parsed.value, ExceededLimit(r)), encode)))
              && (tier in {ManifestsDropped, ScalarsOnly, Minimal} <==> PastBulk(r, encode))
              && (tier in {ScalarsOnly, Minimal} <==> PastManifests(r, encode))
              && (tier == Minimal <==> Exhausted(r, encode))
  {
    hide Select, Fits, StageIndex, StageBulk, StageBound, StageScalars, LastResort, LastResortNote, OversizeFailure,
    ExceededLimit, StderrLog, TruncateText, Carry;
    var c, limit, log := ClipStderr(r), ExceededLimit(r), StderrLog(r);
    if c.stdout.parsed.Some? {
      var b := c.stdout.parsed.value;
      SelectFirst(Fits, c, S1(b, limit), S2(b, limit), S3(b, limit), S4(b, limit),
                  LastResort(S4(b, limit).body, limit), LastResortNote(limit), limit, log, encode);
    }
  }

  // ---------------------------------------------------------------- scalars

  /** A scalar member other than the warning, and its value. */
  predicate IsScalar(b: Body, k: Bytes) {
    k in b.fields && k != "warning" && !b.fields[k].Container?()
  }

  predicate Same(b: Body, b': Body, k: Bytes) {
    k in b.fields && k in b'.fields && b'.fields[k] == b.fields[k]
  }

  lemma NoteFragmentSame(b: Body, fragment: Bytes, k: Bytes)
    requires k != "warning"
    ensures k in NoteFragment(b, fragment).fields <==> k in b.fields
    ensures k in b.fields ==> Same(b, NoteFragment(b, fragment), k)
    ensures NoteFragment(b, fragment).raw == b.raw
  {
  }

  lemma IndexSame(b: Body, limit: Limit, k: Bytes)
    requires k != "warning"
    ensures S1(b, limit).body.raw == b.raw
    ensures k in S1(b, limit).body.fields <==> k in b.fields
    ensures k in b.fields && k != "snapshot" ==> Same(b, S1(b, limit).body, k)
    ensures k in b.fields && !b.fields[k].Container?() ==> Same(b, S1(b, limit).body, k)
  {
    hide NoteFragment, IndexNote;
    var b1 := BoundWarning(b);
    BoundWarningSame(b, k);
    BoundWarningSame(b, "snapshot");
    if IndexEntries(b1) > 0 {
      var b2 := b1.(fields := b1.fields["snapshot" := JObject(b1.fields["snapshot"].members["files" := JArray([])])]);
      NoteFragmentSame(b2, IndexNote(IndexEntries(b1), limit), k);
    }
  }

  lemma BoundWarningSame(b: Body, k: Bytes)
    requires k != "warning"
    ensures BoundWarning(b).raw == b.raw
    ensures k in BoundWarning(b).fields <==> k in b.fields
    ensures k in b.fields ==> Same(b, BoundWarning(b), k)
  {
    hide Compose;
  }

  lemma DropBulkSame(b: Body, limit: Limit, keep: set<Bytes>, k: Bytes)
    requires k != "warning"
    ensures DropBulk(b, limit, keep).body.raw == b.raw
    ensures k in DropBulk(b, limit, keep).body.fields <==> k in b.fields && k !in BulkKeys(b, keep)
    ensures k in b.fields && k !in BulkKeys(b, keep) ==> Same(b, DropBulk(b, limit, keep).body, k)
  {
    hide NoteFragment, FieldsNote;
    var ks := BulkKeys(b, keep);
    NoteFragmentSame(b.(fields := b.fields - ks), FieldsNote(ks, limit), k);
  }

  /** A container of more than 4 KiB. */
  predicate BulkAt(b: Body, k: Bytes) {
    k in b.fields && (b.fields[k].JArray? || b.fields[k].JObject?) && k in b.raw && |b.raw[k]| > 4096
  }

  /** A control manifest large enough to be dropped as bulk. */
  predicate BulkManifest(b: Body) {
    BulkAt(b, "layoutManifest") || BulkAt(b, "systemStateManifest")
  }

  /** After the first bulk drop the attested keys are as they were. */
  lemma BulkSame(b: Body, limit: Limit, k: Bytes)
    requires k != "warning"
    ensures S2(b, limit).body.raw == b.raw
    ensures k in S2(b, limit).body.fields ==> k in b.fields
    ensures IsScalar(b, k) || k in ATTESTATION_BOUND ==>
              (k in b.fields ==> Same(b, S2(b, limit).body, k))
    ensures IsBulk(S2(b, limit).body, k) ==> k == "snapshot" || IsBulk(b, k)
    ensures k in ATTESTATION_BOUND ==> (IsBulk(S2(b, limit).body, k) <==> IsBulk(b, k))
  {
    hide StageIndex, DropBulk;
    IndexSame(b, limit, k);
    DropBulkSame(S1(b, limit).body, limit, ATTESTATION_BOUND, k);
  }

  lemma DroppedManifests(b: Body, limit: Limit)
    ensures BulkKeys(S2(b, limit).body, {}) * MANIFESTS != {} <==> BulkManifest(b)
  {
    hide S2;
    BulkSame(b, limit, "layoutManifest");
    BulkSame(b, limit, "systemStateManifest");
    var ks := BulkKeys(S2(b, limit).body, {});
    assert "layoutManifest" in ks * MANIFESTS <==> IsBulk(b, "layoutManifest");
    assert "systemStateManifest" in ks * MANIFESTS <==> IsBulk(b, "systemStateManifest");
  }

  /** Whether the second bulk drop takes `k` away as a scalar: only an attestation, with its manifest. */
  predicate LostWithManifest(b: Body, k: Bytes) {
    k == "attestation" && BulkManifest(b)
  }

  lemma BoundSame(b: Body, limit: Limit, k: Bytes)
    requires IsScalar(b, k)
    ensures k in S3(b, limit).body.fields <==> !LostWithManifest(b, k)
    ensures !LostWithManifest(b, k) ==> Same(b, S3(b, limit).body, k)
  {
    hide S2, DropBulk;
    BulkSame(b, limit, k);
    DropBulkSame(S2(b, limit).body, limit, {}, k);
    DroppedManifests(b, limit);
  }

  lemma ScalarsKeep(b: Body, limit: Limit, k: Bytes)
    requires k != "warning"
    ensures IsScalar(b, k) ==> k in Reduce(b, limit).body.fields &&
                               Reduce(b, limit).body.fields[k] == ClipValue(b.fields[k])
    ensures k !in b.fields ==> k !in Reduce(b, limit).body.fields
    ensures k in b.fields && b.fields[k].Container?() && k != "snapshot" ==> k !in Reduce(b, limit).body.fields
  {
    hide NoteFragment, FieldsNote, ClipValue;
    NoteFragmentSame(Scalars(b), FieldsNote(ContainerKeys(b), limit), k);
  }

  /** Every summary scalar the server persists survives unless even its scalars alone would not fit:
      numbers and booleans unchanged, strings unchanged or, past the manifests, clipped. The one exception
      is a scalar `attestation` beside a bulk control manifest, lost exactly when that has to be dropped. */
  lemma ScalarsSurvive(r: Result, encode: Encoder, k: Bytes)
    requires r.stdout.parsed.Some? && IsScalar(r.stdout.parsed.value, k)
    ensures var b, d := r.stdout.parsed.value, Fit(r, encode).result.stdout.parsed;
            !Exhausted(r, encode) ==>
            && d.Some?
            && (k in d.value.fields <==> !(LostWithManifest(b, k) && PastBulk(r, encode)))
            && (k in d.value.fields ==>
                  d.value.fields[k] == if PastManifests(r, encode) then ClipValue(b.fields[k]) else b.fields[k])
            && (k in d.value.fields && !b.fields[k].JString? ==> d.value.fields[k] == b.fields[k])
            && (k in d.value.fields && b.fields[k].JString? && ValidUtf8(b.fields[k].s) && PastManifests(r, encode) ==>
                  d.value.fields[k].JString? && Shortened(b.fields[k].s, 8192, d.value.fields[k].s))
  {
    hide Fit, S1, S2, S3, S4, DropBulk, Reduce, ClipValue, PastBulk, PastManifests, Exhausted, Shortened, ValidUtf8;
    var b, limit := r.stdout.parsed.value, ExceededLimit(r);
    NoFurtherThanNeeded(r, encode);
    FitCases(r, encode);
    IndexSame(b, limit, k);
    BulkSame(b, limit, k);
    BoundSame(b, limit, k);
    LastStage(b, limit);
    ScalarsKeep(S3(b, limit).body, limit, k);
    NonStringsUnclipped(b.fields[k]);
  }

  lemma LastStage(b: Body, limit: Limit)
    ensures S4(b, limit).body == Reduce(S3(b, limit).body, limit).body
  {
  }

  /** Only strings are ever clipped, and valid ones on a rune boundary within the free-text cap. */
  lemma NonStringsUnclipped(v: Json)
    ensures !v.JString? ==> ClipValue(v) == v
    ensures v.JString? && ValidUtf8(v.s) ==> ClipValue(v).JString? && Shortened(v.s, 8192, ClipValue(v).s)
  {
    hide Shortened, ValidUtf8, Sanitize, TruncateText;
    if v.JString? && ValidUtf8(v.s) {
      TruncateTextCut(v.s, 8192);
      TruncateTextValid(v.s, 8192);
      SanitizeValid(TruncateText(v.s, 8192).text);
      if |v.s| <= 8192 { ShortUncut(v.s, 8192); }
    }
  }

  lemma ShortUncut(s: Bytes, max: nat)
    requires |s| <= max
    ensures TruncateText(s, max).text == s
  {
  }

  // ---------------------------------------------------------------- the snapshot

  /** The object a body's snapshot member holds, if it holds one. */
  function SnapshotOf(b: Body): (m: Option<map<Bytes, Json>>) {
    if "snapshot" in b.fields && b.fields["snapshot"].JObject? then Some(b.fields["snapshot"].members) else None
  }

  /** Identity members kept; a file index that was an array is whole or empty, never partial. */
  predicate SnapshotKept(m: map<Bytes, Json>, d: map<Bytes, Json>) {
    && (forall k :: k in {"id", "timestamp", "size", "formatVersion", "baseSnapshotId"} && k in m ==> k in d && d[k] == m[k])
    && ("files" in m && m["files"].JArray? ==> "files" in d && (d["files"] == m["files"] || d["files"] == JArray([])))
  }

  /** The snapshot with a non-empty file index emptied. */
  function Emptied(m: map<Bytes, Json>): (d: map<Bytes, Json>) {
    if "files" in m && m["files"].JArray? && m["files"].items != [] then m["files" := JArray([])] else m
  }

  /** Nothing but identity members and an empty file index. */
  ghost predicate OnlyIdentity(d: map<Bytes, Json>) {
    && "files" in d && d["files"] == JArray([])
    && d.Keys <= {"id", "timestamp", "size", "formatVersion", "baseSnapshotId", "files"}
  }

  lemma IndexSnapshot(b: Body, limit: Limit)
    requires SnapshotOf(b).Some?
    ensures SnapshotOf(S1(b, limit).body) == Some(Emptied(SnapshotOf(b).value))
    ensures SnapshotOf(S1(b, limit).body).Some?
    ensures SnapshotKept(SnapshotOf(b).value, SnapshotOf(S1(b, limit).body).value)
    ensures IndexEntries(b) > 0 ==>
              S1(b, limit).fragments == [IndexNote(IndexEntries(b), limit)]
    ensures IndexEntries(S1(b, limit).body) == 0
  {
    hide NoteFragment, IndexNote;
    var b1 := BoundWarning(b);
    BoundWarningSame(b, "snapshot");
    assert IndexEntries(b1) == IndexEntries(b);
    if IndexEntries(b1) > 0 {
      var b2 := b1.(fields := b1.fields["snapshot" := JObject(b1.fields["snapshot"].members["files" := JArray([])])]);
      NoteFragmentSame(b2, IndexNote(IndexEntries(b1), limit), "snapshot");
    }
  }

  lemma DropSnapshot(b: Body, limit: Limit)
    ensures SnapshotOf(S2(b, limit).body) == SnapshotOf(S1(b, limit).body)
    ensures SnapshotOf(S3(b, limit).body) == SnapshotOf(S1(b, limit).body)
  {
    hide S1, DropBulk;
    DropBulkSame(S1(b, limit).body, limit, ATTESTATION_BOUND, "snapshot");
    DropBulkSame(S2(b, limit).body, limit, {}, "snapshot");
  }

  lemma ReduceSnapshot(b: Body, limit: Limit)
    requires SnapshotOf(b).Some?
    ensures SnapshotOf(Reduce(b, limit).body) == Some(Identity(SnapshotOf(b).value))
  {
    hide NoteFragment, FieldsNote, ClipValue;
    NoteFragmentSame(Scalars(b), FieldsNote(ContainerKeys(b), limit), "snapshot");
  }

  lemma IdentityKept(m: map<Bytes, Json>, d: map<Bytes, Json>)
    requires SnapshotKept(m, d)
    ensures SnapshotKept(m, Identity(d)) && OnlyIdentity(Identity(d))
  {
  }

  /** Through tiers 1 to 3 the restore point's identity survives and its file index is whole or empty: all but
      the index is kept while the scalars are not all that is left, and nothing else once they are. */
  lemma SnapshotSurvives(r: Result, encode: Encoder)
    requires r.stdout.parsed.Some? && SnapshotOf(r.stdout.parsed.value).Some?
    ensures var f := Fit(r, encode);
            f.tier != Minimal ==>
              && f.result.stdout.parsed.Some?
              && SnapshotOf(f.result.stdout.parsed.value).Some?
              && var m, d := SnapshotOf(r.stdout.parsed.value).value, SnapshotOf(f.result.stdout.parsed.value).value;
              && SnapshotKept(m, d)
              && (f.tier in {IndexEmptied, BulkDropped, ManifestsDropped} ==> d == Emptied(m))
              && (f.tier == ScalarsOnly ==> OnlyIdentity(d))
  {
    hide Fit, S1, S2, S3, Identity, Reduce, Emptied, OnlyIdentity;
    var b, limit := r.stdout.parsed.value, ExceededLimit(r);
    FitCases(r, encode);
    IndexSnapshot(b, limit);
    DropSnapshot(b, limit);
    ReduceSnapshot(S3(b, limit).body, limit);
    IdentityKept(SnapshotOf(b).value, SnapshotOf(S3(b, limit).body).value);
  }

  // ---------------------------------------------------------------- the attestation

  lemma AttestationBound(b: Body, limit: Limit, m: Bytes)
    requires m in MANIFESTS && m in b.fields && b.fields[m].Container?()
    requires "attestation" in b.fields && b.fields["attestation"].Container?()
    ensures Same(b, S1(b, limit).body, m) && Same(b, S2(b, limit).body, m)
    ensures "attestation" in S3(b, limit).body.fields ==> Same(b, S3(b, limit).body, m)
    ensures "attestation" !in S4(b, limit).body.fields
  {
    hide S1, S2, DropBulk, Reduce;
    IndexSame(b, limit, m);
    BulkSame(b, limit, m);
    BulkSame(b, limit, "attestation");
    DropBulkSame(S2(b, limit).body, limit, {}, m);
    DropBulkSame(S2(b, limit).body, limit, {}, "attestation");
    ScalarsKeep(S3(b, limit).body, limit, "attestation");
  }

  lemma {:induction false} DecodedKeys(ps: seq<(Bytes, Bytes)>, k: Bytes)
    requires forall i :: 0 <= i < |ps| ==> ps[i].0 != k
    ensures k !in DecodePairs(ps)
  {
    if ps != [] { DecodedKeys(ps[1..], k); }
  }

  lemma IdPairsKeys(b: Body)
    ensures forall i :: 0 <= i < |IdPairs(b)| ==> IdPairs(b)[i].0 in {"id", "jobId", "snapshotId", "status"}
  {
    hide ClippedField, SnapshotId;
  }

  lemma MinimalHasNoAttestation(b: Body, limit: Limit)
    ensures "attestation" !in LastResort(b, limit).parsed.value.fields
  {
    hide AppendNote, WarningOf, LastResortNote, IdPairs, DecodePairs, EncodePairs;
    IdPairsKeys(b);
    DecodedKeys(MinimalPairs(b, AppendNote(WarningOf(b), LastResortNote(limit))), "attestation");
  }

  /** An attestation is never delivered without the manifests it names: if the delivered body still has
      it, every control manifest the original carried as a container is delivered unchanged. */
  lemma AttestationSurvivesWhole(r: Result, encode: Encoder, m: Bytes)
    requires r.stdout.parsed.Some?
    requires m in {"layoutManifest", "systemStateManifest"}
    requires m in r.stdout.parsed.value.fields && r.stdout.parsed.value.fields[m].Container?()
    requires "attestation" in r.stdout.parsed.value.fields && r.stdout.parsed.value.fields["attestation"].Container?()
    ensures var d := Fit(r, encode).result.stdout.parsed;
            d.Some? && "attestation" in d.value.fields ==> Same(r.stdout.parsed.value, d.value, m)
  {
    hide Fit, S1, S2, S3, S4, LastResort;
    var b, limit := r.stdout.parsed.value, ExceededLimit(r);
    FitCases(r, encode);
    AttestationBound(b, limit, m);
    MinimalHasNoAttestation(S4(b, limit).body, limit);
  }
}
