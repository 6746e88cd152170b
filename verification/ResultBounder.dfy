/** The in-place form of the tiers, as the helper runs them, against the functions of ResultBounds. */
module ResultBounder {
  import opened Options
  import opened Bytes
  import opened WarningNotes
  import opened SortedKeys
  import opened NotePreservation
  import opened ResultBounds
  import opened ResultContents
  import opened ResultFields
  import opened ResultDegrees
  import opened ResultNotes

  lemma ListsNone()
    ensures Lists([], {})
  {
  }

  lemma ListsOneMore(found: seq<Bytes>, taken: set<Bytes>, k: Bytes)
    requires Lists(found, taken) && k !in taken
    ensures Lists(found + [k], taken + {k})
  {
  }

  lemma RemoveTwice(m: map<Bytes, Json>, s: set<Bytes>, k: Bytes)
    ensures m - s - {k} == m - (s + {k})
  {
  }

  /** b' differs from b at most in the members `ks`. */
  ghost predicate OthersSame(b: Body, b': Body, ks: set<Bytes>) {
    && b'.raw == b.raw
    && forall k :: k !in ks ==> (k in b'.fields <==> k in b.fields) && (k in b.fields ==> Same(b, b', k))
  }

  lemma BoundMeans(b: Body)
    ensures OthersSame(b, BoundWarning(b), {"warning"})
    ensures ValidUtf8(WarningOf(b)) && |WarningOf(b)| <= MAX_LENGTH ==> GoodText(WarningOf(BoundWarning(b)))
  {
    hide Compose, WithWarning, RunText, GoodText, BoundWarning;
    forall k | k != "warning" ensures (k in BoundWarning(b).fields <==> k in b.fields) && (k in b.fields ==> Same(b, BoundWarning(b), k)) {
      BoundWarningSame(b, k);
    }
    BoundWarningSame(b, "");
    if ValidUtf8(WarningOf(b)) && |WarningOf(b)| <= MAX_LENGTH { BoundTextGood(b); }
  }

  lemma BoundTextGood(b: Body)
    requires ValidUtf8(WarningOf(b)) && |WarningOf(b)| <= MAX_LENGTH
    ensures GoodText(WarningOf(BoundWarning(b)))
  {
    hide Compose, WithWarning, RunText;
    var w := WarningOf(b);
    RunTextIsGood(w);
    ComposeNoNotes(w);
    WarningReadsBack(b, RunText(w));
    if "warning" !in b.fields { ComposeEmpty(); }
  }

  /** The emptied index: no entries left, everything but it and the warning as it was. */
  lemma EmptyMeans(b: Body, limit: Limit)
    ensures var b' := EmptyIndex(b, limit).body;
            && IndexEntries(b') == 0
            && OthersSame(b, b', {"warning", "snapshot"})
            && (IndexEntries(b) == 0 ==> b' == b)
            && (IndexEntries(b) > 0 ==> SnapshotOf(b') == Some(SnapshotOf(b).value["files" := JArray([])]))
  {
    hide NoteFragment, IndexNote;
    if IndexEntries(b) > 0 {
      var emptied := b.(fields := b.fields["snapshot" := JObject(b.fields["snapshot"].members["files" := JArray([])])]);
      forall k | k != "warning"
        ensures k in NoteFragment(emptied, IndexNote(IndexEntries(b), limit)).fields <==> k in emptied.fields
        ensures k in emptied.fields ==> Same(emptied, NoteFragment(emptied, IndexNote(IndexEntries(b), limit)), k)
      {
        NoteFragmentSame(emptied, IndexNote(IndexEntries(b), limit), k);
      }
      NoteFragmentSame(emptied, IndexNote(IndexEntries(b), limit), "snapshot");
    }
  }

  /** The decoded stdout object, which the tiers change in place. */
  class StdoutObject {
    var fields: map<Bytes, Json>
    const raw: map<Bytes, Bytes>

    function View(): (b: Body)
      reads this
    {
      Body(fields, raw)
    }

    constructor (b: Body)
      ensures View() == b
    {
      fields, raw := b.fields, b.raw;
    }

    /** The run's own warning becomes label-free text within its budget; nothing else changes. */
    method BoundObjectWarning() returns (dropped: nat)
      modifies this
      ensures View() == BoundWarning(old(View()))
      ensures dropped == BoundWarningDropped(old(View()))
      ensures OthersSame(old(View()), View(), {"warning"})
      ensures ValidUtf8(WarningOf(old(View()))) && |WarningOf(old(View()))| <= MAX_LENGTH ==> GoodText(WarningOf(View()))
      ensures var w := WarningOf(old(View()));
              "warning" in old(fields) && Compose(w, "") != w ==>
                (dropped == TruncateText(Neutralize(w), MAX_RUN_TEXT).dropped <==>
                 LabelFree(w) || |Neutralize(w)| <= MAX_RUN_TEXT)
    {
      hide Compose, GoodText, LabelFree, Neutralize, OthersSame, Shortened;
      BoundMeans(View());
      if "warning" in fields && Compose(WarningOf(View()), "") != WarningOf(View()) { CountIsRight(View()); }
      dropped := 0;
      if "warning" in fields {
        var original := WarningOf(View());
        var composed := Compose(original, "");
        if composed != original {
          fields := fields["warning" := JString(Sanitize(composed))];
          var _, over := ClipText(original, MAX_RUN_TEXT);
          dropped := over;
        }
      }
    }

    /** obj["warning"] with one more note. */
    method AppendWarning(fragment: Bytes)
      modifies this
      ensures View() == NoteFragment(old(View()), fragment)
    {
      fields := fields["warning" := JString(Sanitize(AppendNote(WarningOf(View()), fragment)))];
    }

    /** No file entry is left; of the snapshot only the index changes, of the rest only the warning. */
    method EmptySnapshotFiles(limit: Limit) returns (entries: nat, ok: bool)
      modifies this
      ensures View() == EmptyIndex(old(View()), limit).body
      ensures entries == IndexEntries(old(View())) && (ok <==> entries > 0)
      ensures ok <==> EmptyIndex(old(View()), limit).note.Some?
      ensures IndexEntries(View()) == 0 && OthersSame(old(View()), View(), {"warning", "snapshot"})
      ensures !ok ==> View() == old(View())
      ensures ok ==> SnapshotOf(View()) == Some(SnapshotOf(old(View())).value["files" := JArray([])])
    {
      hide NoteFragment, IndexNote, OthersSame;
      EmptyMeans(View(), limit);
      entries := IndexEntries(View());
      ok := entries > 0;
      if ok {
        fields := fields["snapshot" := JObject(fields["snapshot"].members["files" := JArray([])])];
        AppendWarning(IndexNote(entries, limit));
      }
    }

    /** The deletion loop of dropBulkFields, over the map in any order. */
    method RemoveBulk(keep: set<Bytes>) returns (found: seq<Bytes>)
      modifies this
      ensures View() == old(View()).(fields := old(fields) - BulkKeys(old(View()), keep))
      ensures Lists(found, BulkKeys(old(View()), keep))
    {
      hide IsBulk, Lists;
      ListsNone();
      var all := View();
      ghost var ks := BulkKeys(all, keep);
      var todo := all.fields.Keys;
      found := [];
      ghost var taken: set<Bytes> := {};
      while todo != {}
        invariant todo <= all.fields.Keys
        invariant taken <= ks && taken !! todo && ks <= taken + todo
        invariant Lists(found, taken)
        invariant fields == all.fields - taken
        decreases |todo|
      {
        var k :| k in todo;
        todo := todo - {k};
        assert k in ks <==> k != "snapshot" && k !in keep && IsBulk(all, k);
        if k != "snapshot" && k !in keep && IsBulk(all, k) {
          RemoveTwice(all.fields, taken, k);
          ListsOneMore(found, taken, k);
          fields := fields - {k};
          found := found + [k];
          taken := taken + {k};
        }
      }
      assert taken == ks;
    }

    method DropBulkFields(limit: Limit, keep: set<Bytes>) returns (dropped: seq<Bytes>)
      modifies this
      ensures View() == DropBulk(old(View()), limit, keep).body
      ensures dropped == Sorted(BulkKeys(old(View()), keep))
    {
      hide NoteFragment, Exceeded, Sorted, IsBulk;
      ghost var ks := BulkKeys(View(), keep);
      var found := RemoveBulk(keep);
      dropped := SortStrings(found, ks);
      if dropped != [] {
        AppendWarning("detail field(s) omitted " + "(" + JoinKeys(dropped) + ")" + Exceeded(limit));
      }
    }
  }

  function KeptScalars(b: Body, done: set<Bytes>): (m: map<Bytes, Json>) {
    map k | k in b.fields && k in done && !b.fields[k].Container?() :: ClipValue(b.fields[k])
  }

  lemma SiftNone(b: Body)
    ensures KeptScalars(b, {}) == map[] && ContainerKeys(b) * {} == {}
  {
  }

  lemma SiftAll(b: Body)
    ensures ContainerKeys(b) * b.fields.Keys == ContainerKeys(b)
  {
  }

  lemma SiftOneMore(b: Body, done: set<Bytes>, k: Bytes)
    requires k in b.fields && k !in done
    ensures KeptScalars(b, done + {k}) ==
            if b.fields[k].Container?() then KeptScalars(b, done) else KeptScalars(b, done)[k := ClipValue(b.fields[k])]
    ensures ContainerKeys(b) * (done + {k}) ==
            if b.fields[k].Container?() then ContainerKeys(b) * done + {k} else ContainerKeys(b) * done
  {
    hide ClipValue;
  }

  lemma Visited(all: set<Bytes>, todo: set<Bytes>, k: Bytes)
    requires todo <= all && k in todo
    ensures all - (todo - {k}) == all - todo + {k}
  {
  }

  /** The loops of reduceToScalars over the decoded map: scalars kept and clipped, containers listed. */
  method SiftScalars(b: Body) returns (kept: map<Bytes, Json>, containers: seq<Bytes>)
    ensures kept == KeptScalars(b, b.fields.Keys)
    ensures Lists(containers, ContainerKeys(b))
  {
    hide ClipValue, Lists, KeptScalars, ContainerKeys;
    ListsNone();
    SiftNone(b);
    var todo := b.fields.Keys;
    ghost var done: set<Bytes> := {};
    containers, kept := [], map[];
    while todo != {}
      invariant todo <= b.fields.Keys && done == b.fields.Keys - todo
      invariant Lists(containers, ContainerKeys(b) * done)
      invariant kept == KeptScalars(b, done)
      decreases |todo|
    {
      var k :| k in todo;
      SiftOneMore(b, done, k);
      if b.fields[k].Container?() {
        ListsOneMore(containers, ContainerKeys(b) * done, k);
        containers := containers + [k];
      } else {
        kept := kept[k := ClipValue(b.fields[k])];
      }
      Visited(b.fields.Keys, todo, k);
      todo, done := todo - {k}, done + {k};
    }
    assert done == b.fields.Keys;
    SiftAll(b);
  }

  /** reduceToScalars on the object stdout decodes to. */
  method ReduceToScalars(b: Body, limit: Limit) returns (r: Body)
    ensures r == Reduce(b, limit).body
  {
    hide NoteFragment, Exceeded, Sorted, ClipValue, Identity;
    var kept, containers := SiftScalars(b);
    if "snapshot" in b.fields && b.fields["snapshot"].JObject? {
      kept := kept["snapshot" := JObject(Identity(b.fields["snapshot"].members))];
    }
    r := Body(kept, b.raw);
    assert r == Scalars(b);
    var sorted := SortStrings(containers, ContainerKeys(b));
    if sorted != [] {
      r := NoteFragment(r, "detail field(s) omitted " + "(" + JoinKeys(sorted) + ")" + Exceeded(limit));
    }
  }

  /** What one dropped key adds to the log. */
  function StepLog(k: Bytes, attested: bool): (log: seq<LogNote>) {
    if k in MANIFESTS && attested then [FieldDropped(k), AttestationDropped(k)] else [FieldDropped(k)]
  }

  lemma BoundLogNext(log: seq<LogNote>, keys: seq<Bytes>, i: nat, attested: bool)
    requires i < |keys|
    ensures log + BoundLog(keys[i..], attested)
         == (log + StepLog(keys[i], attested)) + BoundLog(keys[i + 1..], attested && keys[i] !in MANIFESTS)
  {
    assert keys[i..][1..] == keys[i + 1..];
    BoundLogStep(keys[i..], attested);
    var step, rest := StepLog(keys[i], attested), BoundLog(keys[i + 1..], attested && keys[i] !in MANIFESTS);
    assert log + (step + rest) == (log + step) + rest;
  }

  lemma BoundLogStep(keys: seq<Bytes>, attested: bool)
    requires keys != []
    ensures BoundLog(keys, attested) == StepLog(keys[0], attested) + BoundLog(keys[1..], attested && keys[0] !in MANIFESTS)
  {
  }

  ghost predicate NamesManifest(keys: seq<Bytes>) {
    exists i :: 0 <= i < |keys| && keys[i] in MANIFESTS
  }

  lemma NamesNext(keys: seq<Bytes>, i: nat)
    requires i < |keys|
    ensures !NamesManifest([])
    ensures NamesManifest(keys[..i + 1]) <==> NamesManifest(keys[..i]) || keys[i] in MANIFESTS
  {
    if keys[i] in MANIFESTS { assert keys[..i + 1][i] in MANIFESTS; }
    forall j | 0 <= j < i ensures keys[..i + 1][j] == keys[..i][j] {
    }
  }

  lemma NamesWhole(keys: seq<Bytes>)
    ensures NamesManifest(keys[..|keys|]) <==> NamesManifest(keys)
    ensures !NamesManifest(keys[..0])
  {
    assert keys[..|keys|] == keys;
  }

  /** What the loop has left after some keys. */
  function WithoutAttestation(fields: map<Bytes, Json>, lost: bool): (left: map<Bytes, Json>) {
    if lost then fields - {"attestation"} else fields
  }

  lemma NothingLost(fields: map<Bytes, Json>)
    ensures WithoutAttestation(fields, false) == fields
  {
  }

  lemma WhatIsLost(fields: map<Bytes, Json>, lost: bool)
    ensures WithoutAttestation(fields, lost) == if lost then fields - {"attestation"} else fields
  {
  }

  lemma AttestationLeft(fields: map<Bytes, Json>, lost: bool)
    ensures "attestation" in WithoutAttestation(fields, lost) <==> "attestation" in fields && !lost
    ensures WithoutAttestation(fields, lost) - {"attestation"} == WithoutAttestation(fields, true)
    ensures "attestation" !in WithoutAttestation(fields, lost) ==>
              WithoutAttestation(fields, lost) == WithoutAttestation(fields, true)
  {
  }

  /** The loop over the second bulk drop: the first manifest takes a present attestation with it. */
  method DropAttestation(obj: StdoutObject, dropped: seq<Bytes>) returns (log: seq<LogNote>)
    modifies obj
    ensures log == BoundLog(dropped, "attestation" in old(obj.fields))
    ensures obj.fields == if NamesManifest(dropped) then old(obj.fields) - {"attestation"} else old(obj.fields)
  {
    hide BoundLog, NamesManifest, WithoutAttestation;
    log := [];
    NamesWhole(dropped);
    ghost var fields, lost := obj.fields, false;
    NothingLost(fields);
    for i := 0 to |dropped|
      invariant lost == NamesManifest(dropped[..i]) && obj.fields == WithoutAttestation(fields, lost)
      invariant log + BoundLog(dropped[i..], "attestation" in obj.fields) == BoundLog(dropped, "attestation" in fields)
    {
      BoundLogNext(log, dropped, i, "attestation" in obj.fields);
      NamesNext(dropped, i);
      AttestationLeft(fields, lost);
      AttestationLeft(fields, true);
      ghost var before, attested := log, "attestation" in obj.fields;
      log := log + [FieldDropped(dropped[i])];
      if dropped[i] in MANIFESTS {
        lost := true;
        if "attestation" in obj.fields {
          obj.fields := obj.fields - {"attestation"};
          log := log + [AttestationDropped(dropped[i])];
        }
      }
      assert log == before + StepLog(dropped[i], attested);
    }
    WhatIsLost(fields, lost);
    assert dropped[|dropped|..] == [];
    BoundLogNone("attestation" in obj.fields);
  }

  lemma BoundLogNone(attested: bool)
    ensures BoundLog([], attested) == []
  {
  }

  /** fitBackupResult: tier after tier on one mutable object, stopping at the first that fits. */
  method FitBackupResult(given: Result, encode: Encoder)
    returns (fitted: Result, log: seq<LogNote>, limit: Limit)
    ensures fitted == Fit(given, encode).result
    ensures log == Fit(given, encode).log && limit == Fit(given, encode).limit
    ensures FieldsKept(given, fitted, Fit(given, encode).tier)
  {
    hide Fits, ExceededLimit, TruncateText, StageIndex, StageBulk, StageBound, StageScalars, LastResort,
    OversizeMessage, Shortened, FieldsKept;
    ResultAnswers(given, encode);
    var over := ExceededLimit(given);
    var stderr, cut := ClipText(given.stderr, MAX_TEXT);
    var result := given.(stderr := stderr);
    log := if cut > 0 then [StderrTruncated(cut)] else [];
    if Fits(result) {
      fitted, limit := result, Attributed(log, over);
      return;
    }
    if result.stdout.parsed.None? {
      log := log + [Unsummarised];
      var size := |result.stdout.text| + |result.stderr|;
      var id, _ := ClipText(result.commandId, MAX_LAST_RESORT);
      fitted := result.(commandId := id, success := false, stdout := Stdout("", None), stderr := OversizeMessage(over, size));
      limit := Attributed(log, over);
      return;
    }
    var b := result.stdout.parsed.value;
    var obj := new StdoutObject(b);
    ghost var s1 := StageIndex(b, over);
    var l1 := RunIndexTier(obj, over);
    var r1 := result.(stdout := Encoded(obj.View(), encode));
    if Fits(r1) {
      log := log + l1;
      fitted, limit := r1, Attributed(log, over);
      return;
    }
    ghost var s2 := StageBulk(s1, over);
    var l2 := RunBulkTier(obj, over, s1);
    var r2 := result.(stdout := Encoded(obj.View(), encode));
    if Fits(r2) {
      log := log + (l1 + l2);
      fitted, limit := r2, Attributed(log, over);
      return;
    }
    ghost var s3 := StageBound(s2, over);
    var l3 := RunBoundTier(obj, over, s2);
    var r3 := result.(stdout := Encoded(obj.View(), encode));
    if Fits(r3) {
      log := log + (l1 + l2 + l3);
      fitted, limit := r3, Attributed(log, over);
      return;
    }
    ghost var s4 := StageScalars(s3, over);
    var reduced := RunScalarsTier(obj, over, s3);
    var r4 := result.(stdout := Encoded(reduced, encode));
    log := log + (l1 + l2 + l3 + [ReducedToScalars]);
    if Fits(r4) {
      fitted, limit := r4, Attributed(log, over);
      return;
    }
    log := log + [MinimalStatus];
    var error, _ := ClipText(result.stderr, MAX_LAST_RESORT);
    var id, _ := ClipText(result.commandId, MAX_LAST_RESORT);
    fitted := result.(stdout := LastResort(reduced, over), stderr := error, commandId := id);
    limit := Attributed(log, over);
  }

  /** finishBounding's attribution. */
  function Attributed(log: seq<LogNote>, limit: Limit): (l: Limit) {
    if log != [] && limit == NoLimit then ResultText else limit
  }

  method RunIndexTier(obj: StdoutObject, limit: Limit) returns (log: seq<LogNote>)
    modifies obj
    ensures obj.View() == StageIndex(old(obj.View()), limit).body
    ensures log == StageIndex(old(obj.View()), limit).log
  {
    hide BoundWarning, BoundWarningDropped, EmptyIndex, IndexEntries;
    var over := obj.BoundObjectWarning();
    log := if over > 0 then [WarningTruncated(over)] else [];
    var entries, emptied := obj.EmptySnapshotFiles(limit);
    log := log + (if emptied then [IndexDropped(entries)] else []);
  }

  lemma {:induction false} DropLogOf(keys: seq<Bytes>)
    ensures |DropLog(keys)| == |keys|
    ensures forall i :: 0 <= i < |keys| ==> DropLog(keys)[i] == FieldDropped(keys[i])
  {
    if keys != [] { DropLogOf(keys[1..]); }
  }

  method RunBulkTier(obj: StdoutObject, limit: Limit, ghost s: Stage) returns (log: seq<LogNote>)
    requires obj.View() == s.body
    modifies obj
    ensures obj.View() == StageBulk(s, limit).body
    ensures s.log + log == StageBulk(s, limit).log
  {
    hide DropBulk, Sorted, BulkKeys;
    var dropped := obj.DropBulkFields(limit, ATTESTATION_BOUND);
    log := [];
    for i := 0 to |dropped|
      invariant |log| == i && forall j :: 0 <= j < i ==> log[j] == FieldDropped(dropped[j])
    {
      log := log + [FieldDropped(dropped[i])];
    }
    DropLogOf(dropped);
    assert log == DropLog(dropped);
  }

  method RunBoundTier(obj: StdoutObject, limit: Limit, ghost s: Stage) returns (log: seq<LogNote>)
    requires obj.View() == s.body
    modifies obj
    ensures obj.View() == StageBound(s, limit).body
    ensures s.log + log == StageBound(s, limit).log
  {
    hide DropBulk, Sorted, BulkKeys, BoundLog;
    var dropped := obj.DropBulkFields(limit, {});
    log := DropAttestation(obj, dropped);
    ghost var ks := BulkKeys(s.body, {});
    assert (exists i :: 0 <= i < |dropped| && dropped[i] in MANIFESTS) <==> ks * MANIFESTS != {} by {
      if ks * MANIFESTS != {} {
        var m :| m in ks * MANIFESTS;
        assert m in dropped;
      }
      if i :| 0 <= i < |dropped| && dropped[i] in MANIFESTS {
        assert dropped[i] in ks * MANIFESTS;
      }
    }
  }

  method RunScalarsTier(obj: StdoutObject, limit: Limit, ghost s: Stage) returns (reduced: Body)
    requires obj.View() == s.body
    ensures reduced == StageScalars(s, limit).body
    ensures s.log + [ReducedToScalars] == StageScalars(s, limit).log
  {
    hide Reduce;
    reduced := ReduceToScalars(obj.View(), limit);
  }
}
