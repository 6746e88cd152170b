/** The Hyper-V free-space preflight: needs summed per volume against what each volume has.

Models checkHypervSpace and preflightHypervRestore of agent/cmd/breeze-backup/exec_hyperv_preflight.go. How a
directory names its volume and how much space it reports are parameters; sums are 64-bit and wrap.
*/
module HypervPreflight {
  import opened Options
  import opened Sequences

  const WORD: int := 0x1_0000_0000_0000_0000
  const HEADROOM: int := 0x4000_0000

  /** Two's complement int64. */
  function Wrap(x: int): (r: int)
    ensures -WORD / 2 <= r < WORD / 2
  {
    var m := x % WORD;
    if m < WORD / 2 then m else m - WORD
  }

  lemma WrapAdd(x: int, y: int)
    ensures Wrap(Wrap(x) + y) == Wrap(x + y)
  {
    var q := if x % WORD < WORD / 2 then x / WORD else x / WORD + 1;
    assert Wrap(x) == x - WORD * q;
    ModShift(x + y, -q);
  }

  lemma ModShift(x: int, q: int)
    ensures (x + WORD * q) % WORD == x % WORD
  {
  }

  lemma WrapInRange(x: int)
    ensures -0x8000_0000_0000_0000 <= x < 0x8000_0000_0000_0000 <==> Wrap(x) == x
  {
  }

  /** Machine sums differ from the true ones by whole multiples of 2^64. */
  lemma WrapCongruent(x: int) returns (q: int)
    ensures -0x8000_0000_0000_0000 <= Wrap(x) < 0x8000_0000_0000_0000
    ensures x == Wrap(x) + 0x1_0000_0000_0000_0000 * q
  {
    q := if x % WORD < WORD / 2 then x / WORD else x / WORD + 1;
  }

  datatype Need = Need(dir: string, bytes: int, what: string)

  datatype Volume = Volume(dir: string, bytes: int, what: seq<string>)

  /** The volume that is too full. */
  datatype Refusal = Refusal(dir: string, required: int, free: int, what: seq<string>)

  type Naming = string -> string
  type Probe = string -> Option<int>

  // ---------------------------------------------------------------- what the needs add up to

  /** Volumes in order of first mention. */
  function Volumes(key: Naming, needs: seq<Need>): (order: seq<string>) {
    if needs == [] then []
    else
      var front, k := Volumes(key, needs[..|needs| - 1]), key(needs[|needs| - 1].dir);
      if k in front then front else front + [k]
  }

  function FirstDir(key: Naming, needs: seq<Need>, k: string): (dir: string) {
    if needs == [] then ""
    else if k in Volumes(key, needs[..|needs| - 1]) then FirstDir(key, needs[..|needs| - 1], k)
    else needs[|needs| - 1].dir
  }

  function Total(key: Naming, needs: seq<Need>, k: string): (bytes: int) {
    if needs == [] then 0
    else
      Total(key, needs[..|needs| - 1], k) + if key(needs[|needs| - 1].dir) == k then needs[|needs| - 1].bytes else 0
  }

  function Whats(key: Naming, needs: seq<Need>, k: string): (what: seq<string>) {
    if needs == [] then []
    else
      var front := Whats(key, needs[..|needs| - 1], k);
      if key(needs[|needs| - 1].dir) == k then front + [needs[|needs| - 1].what] else front
  }

  function Required(key: Naming, needs: seq<Need>, k: string): (bytes: int) {
    Wrap(Total(key, needs, k) + HEADROOM)
  }

  predicate Readable(key: Naming, free: Probe, needs: seq<Need>, k: string) {
    free(FirstDir(key, needs, k)).Some?
  }

  /** Unreadable, or at least the sum of its needs and the headroom. */
  predicate Roomy(key: Naming, free: Probe, needs: seq<Need>, k: string) {
    Readable(key, free, needs, k) ==> free(FirstDir(key, needs, k)).value >= Required(key, needs, k)
  }

  function Skipped(key: Naming, free: Probe, needs: seq<Need>, order: seq<string>): (dirs: seq<string>) {
    if order == [] then []
    else
      var front, k := Skipped(key, free, needs, order[..|order| - 1]), order[|order| - 1];
      if Readable(key, free, needs, k) then front else front + [FirstDir(key, needs, k)]
  }

  lemma Pushed(key: Naming, needs: seq<Need>, n: Need, k: string)
    ensures Volumes(key, needs + [n])
         == if key(n.dir) in Volumes(key, needs) then Volumes(key, needs) else Volumes(key, needs) + [key(n.dir)]
    ensures FirstDir(key, needs + [n], k) == if k in Volumes(key, needs) then FirstDir(key, needs, k) else n.dir
    ensures Total(key, needs + [n], k) == Total(key, needs, k) + if key(n.dir) == k then n.bytes else 0
    ensures Whats(key, needs + [n], k)
         == if key(n.dir) == k then Whats(key, needs, k) + [n.what] else Whats(key, needs, k)
  {
    assert (needs + [n])[..|needs|] == needs;
  }

  /** A volume is listed exactly when something is written to it; its directory is one of those. */
  lemma {:induction false} VolumesExact(key: Naming, needs: seq<Need>, k: string)
    ensures k in Volumes(key, needs) <==> exists i :: 0 <= i < |needs| && key(needs[i].dir) == k
    ensures k in Volumes(key, needs) ==> key(FirstDir(key, needs, k)) == k
    ensures k !in Volumes(key, needs) ==> Total(key, needs, k) == 0 && Whats(key, needs, k) == []
  {
    if needs != [] {
      var n := |needs| - 1;
      VolumesExact(key, needs[..n], k);
      assert key(needs[n].dir) == k || (k in Volumes(key, needs) <==> k in Volumes(key, needs[..n]));
    }
  }

  /** The i-th need is the first on its volume. */
  ghost predicate FirstMention(key: Naming, needs: seq<Need>, i: nat) {
    i < |needs| && forall j :: 0 <= j < i ==> key(needs[j].dir) != key(needs[i].dir)
  }

  /** `idx` lists the numbers in `s` in increasing order. */
  ghost predicate Picks(idx: seq<nat>, s: set<nat>) {
    && (forall a, b :: 0 <= a < b < |idx| ==> idx[a] < idx[b])
    && (forall i: nat :: i in idx <==> i in s)
  }

  lemma PicksNext(idx: seq<nat>, s: set<nat>, n: nat)
    requires Picks(idx, s) && forall i :: i in s ==> i < n
    ensures Picks(idx + [n], s + {n})
  {
    forall a | 0 <= a < |idx| ensures idx[a] < n { assert idx[a] in idx; }
  }

  /** The needs among the first n that mention their volume first. */
  ghost function FirstMentions(key: Naming, needs: seq<Need>, n: nat): (s: set<nat>) {
    set i: nat | i < n && FirstMention(key, needs, i)
  }

  lemma FirstMentionsNext(key: Naming, needs: seq<Need>, n: nat)
    ensures FirstMentions(key, needs, n + 1) ==
            if FirstMention(key, needs, n) then FirstMentions(key, needs, n) + {n} else FirstMentions(key, needs, n)
    ensures forall i :: i in FirstMentions(key, needs, n) ==> i < n
    ensures FirstMentions(key, needs, 0) == {}
  {
    hide FirstMention;
  }

  /** The volumes and directories of the needs picked. */
  ghost predicate Mentions(key: Naming, needs: seq<Need>, idx: seq<nat>, order: seq<string>, dirs: seq<string>) {
    && |order| == |dirs| == |idx|
    && forall m :: 0 <= m < |idx| ==> idx[m] < |needs| && order[m] == key(needs[idx[m]].dir) && dirs[m] == needs[idx[m]].dir
  }

  ghost function FirstDirs(key: Naming, needs: seq<Need>): (dirs: seq<string>) {
    seq(|Volumes(key, needs)|, m requires 0 <= m < |Volumes(key, needs)| => FirstDir(key, needs, Volumes(key, needs)[m]))
  }

  lemma FirstDirsNext(key: Naming, needs: seq<Need>, n: Need)
    ensures FirstDirs(key, needs + [n]) ==
            if key(n.dir) in Volumes(key, needs) then FirstDirs(key, needs) else FirstDirs(key, needs) + [n.dir]
  {
    hide Volumes, FirstDir;
    Pushed(key, needs, n, "");
    var order, order' := Volumes(key, needs), Volumes(key, needs + [n]);
    forall m | 0 <= m < |order'|
      ensures FirstDir(key, needs + [n], order'[m]) == if m < |order| then FirstDir(key, needs, order[m]) else n.dir
    {
      Pushed(key, needs, n, order'[m]);
    }
  }

  lemma MentionedBefore(key: Naming, needs: seq<Need>, n: nat)
    requires n < |needs|
    ensures key(needs[n].dir) in Volumes(key, needs[..n]) <==> !FirstMention(key, needs, n)
  {
    hide Volumes;
    VolumesExact(key, needs[..n], key(needs[n].dir));
    if !FirstMention(key, needs, n) {
      var j :| 0 <= j < n && key(needs[j].dir) == key(needs[n].dir);
      assert needs[..n][j] == needs[j];
    }
  }

  /** The listed volumes are those of the first mentions, in the order of these, each with the directory named
      there. */
  lemma {:induction false} VolumesInOrder(key: Naming, needs: seq<Need>, n: nat) returns (firsts: seq<nat>)
    requires n <= |needs|
    ensures Picks(firsts, FirstMentions(key, needs, n))
    ensures Mentions(key, needs, firsts, Volumes(key, needs[..n]), FirstDirs(key, needs[..n]))
  {
    hide Volumes, FirstDirs, FirstMention, FirstMentions, Picks;
    if n == 0 {
      firsts := [];
      assert needs[..n] == [];
      NoMentions(key);
      FirstMentionsNext(key, needs, 0);
      PicksNone();
    } else {
      var last := needs[n - 1];
      firsts := VolumesInOrder(key, needs, n - 1);
      assert needs[..n] == needs[..n - 1] + [last];
      Pushed(key, needs[..n - 1], last, "");
      FirstDirsNext(key, needs[..n - 1], last);
      MentionedBefore(key, needs, n - 1);
      FirstMentionsNext(key, needs, n - 1);
      if FirstMention(key, needs, n - 1) {
        PicksNext(firsts, FirstMentions(key, needs, n - 1), n - 1);
        firsts := firsts + [n - 1];
      }
    }
  }

  lemma PicksNone()
    ensures Picks([], {})
  {
  }

  lemma NoMentions(key: Naming)
    ensures Volumes(key, []) == [] && FirstDirs(key, []) == []
  {
  }

  ghost predicate Names(key: Naming, needs: seq<Need>, order: seq<string>, idx: seq<nat>, dirs: seq<string>) {
    && |dirs| == |idx|
    && forall m :: 0 <= m < |idx| ==> idx[m] < |order| && dirs[m] == FirstDir(key, needs, order[idx[m]])
  }

  /** The volumes among the first n whose free space cannot be read. */
  ghost function Unreadable(key: Naming, free: Probe, needs: seq<Need>, order: seq<string>, n: nat): (s: set<nat>) {
    set i: nat | i < n && i < |order| && free(FirstDir(key, needs, order[i])).None?
  }

  lemma UnreadableNext(key: Naming, free: Probe, needs: seq<Need>, order: seq<string>, n: nat)
    requires n < |order|
    ensures Unreadable(key, free, needs, order, n + 1) ==
            if free(FirstDir(key, needs, order[n])).None? then Unreadable(key, free, needs, order, n) + {n}
            else Unreadable(key, free, needs, order, n)
  {
    hide FirstDir;
  }

  lemma UnreadableBelow(key: Naming, free: Probe, needs: seq<Need>, order: seq<string>, n: nat)
    ensures forall i :: i in Unreadable(key, free, needs, order, n) ==> i < n
    ensures Unreadable(key, free, needs, order, 0) == {}
  {
    hide FirstDir;
  }

  /** The skipped directories are those of the unreadable volumes, in their order. */
  lemma {:induction false} SkippedMeans(key: Naming, free: Probe, needs: seq<Need>, order: seq<string>, n: nat)
    returns (idx: seq<nat>)
    requires n <= |order|
    ensures Picks(idx, Unreadable(key, free, needs, order, n))
    ensures Names(key, needs, order, idx, Skipped(key, free, needs, order[..n]))
  {
    hide FirstDir, Skipped, Unreadable, Picks;
    if n == 0 {
      idx := [];
      assert order[..n] == [];
      SkippedNone(key, free, needs);
      UnreadableBelow(key, free, needs, order, 0);
      PicksNone();
    } else {
      idx := SkippedMeans(key, free, needs, order, n - 1);
      SkippedNext(key, free, needs, order, n - 1);
      UnreadableNext(key, free, needs, order, n - 1);
      if free(FirstDir(key, needs, order[n - 1])).None? {
        UnreadableBelow(key, free, needs, order, n - 1);
        PicksNext(idx, Unreadable(key, free, needs, order, n - 1), n - 1);
        idx := idx + [n - 1];
      }
    }
  }

  // ---------------------------------------------------------------- the check

  ghost predicate Grouped(key: Naming, needs: seq<Need>, volumes: map<string, Volume>, k: string) {
    k in volumes && volumes[k] == Volume(FirstDir(key, needs, k), Wrap(Total(key, needs, k)), Whats(key, needs, k))
  }

  /** The first loop: one entry per volume, in order of first mention. */
  method Group(key: Naming, needs: seq<Need>) returns (order: seq<string>, volumes: map<string, Volume>)
    ensures order == Volumes(key, needs)
    ensures forall k :: k in order ==> Grouped(key, needs, volumes, k)
  {
    hide Volumes, FirstDir, Total, Whats, Wrap;
    order, volumes := [], map[];
    NoNeeds(key);
    for i := 0 to |needs|
      invariant order == Volumes(key, needs[..i])
      invariant forall k :: k in volumes <==> k in order
      invariant forall k :: k in order ==> Grouped(key, needs[..i], volumes, k)
    {
      var need := needs[i];
      var k := key(need.dir);
      ghost var before := volumes;
      if k !in volumes {
        volumes := volumes[k := Volume(need.dir, 0, [])];
        order := order + [k];
      }
      var v := volumes[k];
      volumes := volumes[k := v.(bytes := Wrap(v.bytes + need.bytes), what := v.what + [need.what])];
      assert needs[..i + 1] == needs[..i] + [need];
      GroupStep(key, needs[..i], need, before, volumes);
    }
    assert needs[..|needs|] == needs;
  }

  lemma NoNeeds(key: Naming)
    ensures Volumes(key, []) == []
  {
  }

  /** Adding one need to its volume regroups the needs so far. */
  lemma GroupStep(key: Naming, needs: seq<Need>, n: Need, before: map<string, Volume>, after: map<string, Volume>)
    requires forall k :: k in before <==> k in Volumes(key, needs)
    requires forall k :: k in before ==> Grouped(key, needs, before, k)
    requires var k := key(n.dir);
             var v := if k in before then before[k] else Volume(n.dir, 0, []);
             after == before[k := v.(bytes := Wrap(v.bytes + n.bytes), what := v.what + [n.what])]
    ensures Volumes(key, needs + [n])
         == if key(n.dir) in before then Volumes(key, needs) else Volumes(key, needs) + [key(n.dir)]
    ensures forall k :: k in after <==> k in Volumes(key, needs + [n])
    ensures forall k :: k in after ==> Grouped(key, needs + [n], after, k)
  {
    hide Volumes, FirstDir, Total, Whats, Wrap, Grouped;
    Pushed(key, needs, n, key(n.dir));
    forall k | k in after ensures Grouped(key, needs + [n], after, k) {
      if k == key(n.dir) {
        GroupedAdd(key, needs, n, before, after);
      } else {
        GroupedKeep(key, needs, n, before, after, k);
      }
    }
  }

  lemma GroupedKeep(key: Naming, needs: seq<Need>, n: Need, before: map<string, Volume>, after: map<string, Volume>,
                    k: string)
    requires k != key(n.dir) && k in Volumes(key, needs) && Grouped(key, needs, before, k)
    requires k in after && after[k] == before[k]
    ensures Grouped(key, needs + [n], after, k)
  {
    hide Volumes, FirstDir, Total, Whats, Wrap;
    Pushed(key, needs, n, k);
  }

  lemma GroupedAdd(key: Naming, needs: seq<Need>, n: Need, before: map<string, Volume>, after: map<string, Volume>)
    requires var k := key(n.dir);
             && (k in before <==> k in Volumes(key, needs))
             && (k in before ==> Grouped(key, needs, before, k))
             && k in after
             && var v := if k in before then before[k] else Volume(n.dir, 0, []);
             && after[k] == v.(bytes := Wrap(v.bytes + n.bytes), what := v.what + [n.what])
    ensures Grouped(key, needs + [n], after, key(n.dir))
  {
    hide Volumes, FirstDir, Total, Whats, Wrap;
    var k := key(n.dir);
    Pushed(key, needs, n, k);
    VolumesExact(key, needs, k);
    WrapAdd(Total(key, needs, k), n.bytes);
    WrapZero();
  }

  lemma WrapZero()
    ensures Wrap(0) == 0
  {
  }

  lemma SkippedNone(key: Naming, free: Probe, needs: seq<Need>)
    ensures Skipped(key, free, needs, []) == []
  {
  }

  lemma SkippedNext(key: Naming, free: Probe, needs: seq<Need>, order: seq<string>, i: nat)
    requires i < |order|
    ensures Skipped(key, free, needs, order[..i + 1])
         == if Readable(key, free, needs, order[i]) then Skipped(key, free, needs, order[..i])
            else Skipped(key, free, needs, order[..i]) + [FirstDir(key, needs, order[i])]
  {
    assert order[..i + 1][..i] == order[..i];
  }

  /** Refuses exactly when some readable volume lacks the sum of its needs plus headroom, naming the first
      such volume; the warnings are the unreadable volumes met until then, all of them on success. */
  method CheckSpace(key: Naming, free: Probe, needs: seq<Need>)
    returns (warnings: seq<string>, refusal: Option<Refusal>)
    ensures refusal.None? <==> forall k :: k in Volumes(key, needs) ==> Roomy(key, free, needs, k)
    ensures refusal.None? ==> warnings == Skipped(key, free, needs, Volumes(key, needs))
    ensures refusal.Some? ==>
              exists i :: 0 <= i < |Volumes(key, needs)| &&
                Refuses(key, free, needs, i, refusal.value) &&
                warnings == Skipped(key, free, needs, Volumes(key, needs)[..i])
  {
    hide Volumes, FirstDir, Total, Whats, Skipped, Wrap;
    var order, volumes := Group(key, needs);
    warnings := [];
    assert order[..0] == [];
    SkippedNone(key, free, needs);
    for i := 0 to |order|
      invariant warnings == Skipped(key, free, needs, order[..i])
      invariant forall j :: 0 <= j < i ==> Roomy(key, free, needs, order[j])
    {
      var k := order[i];
      assert Grouped(key, needs, volumes, k);
      SkippedNext(key, free, needs, order, i);
      var v := volumes[k];
      match free(v.dir)
      case None =>
        warnings := warnings + [v.dir];
      case Some(available) =>
        WrapAdd(Total(key, needs, k), HEADROOM);
        var required := Wrap(v.bytes + HEADROOM);
        if available < required {
          assert Refuses(key, free, needs, i, Refusal(v.dir, required, available, v.what));
          return warnings, Some(Refusal(v.dir, required, available, v.what));
        }
    }
    assert order[..|order|] == order;
    return warnings, None;
  }

  /** r is about the i-th volume, the first without room. */
  ghost predicate Refuses(key: Naming, free: Probe, needs: seq<Need>, i: int, r: Refusal)
    requires 0 <= i < |Volumes(key, needs)|
  {
    var k := Volumes(key, needs)[i];
    && !Roomy(key, free, needs, k)
    && (forall j :: 0 <= j < i ==> Roomy(key, free, needs, Volumes(key, needs)[j]))
    && r.dir == FirstDir(key, needs, k) && r.required == Required(key, needs, k)
    && free(r.dir) == Some(r.free) && r.what == Whats(key, needs, k)
  }

  // ---------------------------------------------------------------- order does not matter

  ghost predicate Accepted(key: Naming, free: Probe, needs: seq<Need>) {
    forall k :: k in Volumes(key, needs) ==> Roomy(key, free, needs, k)
  }

  /** What a directory reports is what its volume reports. */
  ghost predicate PerVolume(key: Naming, free: Probe) {
    forall a, b :: key(a) == key(b) ==> free(a) == free(b)
  }

  lemma TotalAround(key: Naming, a: seq<Need>, x: Need, b: seq<Need>, k: string)
    ensures Total(key, (a + [x]) + b, k) == Total(key, (a + b) + [x], k)
  {
    hide Total;
    TotalConcat(key, a + [x], b, k);
    TotalConcat(key, a, [x], k);
    TotalConcat(key, a + b, [x], k);
    TotalConcat(key, a, b, k);
  }

  lemma {:induction false} TotalOfMultiset(key: Naming, s: seq<Need>, t: seq<Need>, k: string)
    requires multiset(s) == multiset(t)
    ensures Total(key, s, k) == Total(key, t, k)
    decreases |s|
  {
    hide Total;
    if s == [] {
      assert |multiset(t)| == 0;
    } else {
      var front, x := s[..|s| - 1], s[|s| - 1];
      DropLast(s);
      var j := TakeOut(t, x);
      var rest := t[..j] + t[j + 1..];
      TotalOfMultiset(key, front, rest, k);
      TotalAround(key, t[..j], x, t[j + 1..], k);
      TotalConcat(key, front, [x], k);
      TotalConcat(key, rest, [x], k);
    }
  }

  lemma {:induction false} TotalConcat(key: Naming, s: seq<Need>, t: seq<Need>, k: string)
    ensures Total(key, s + t, k) == Total(key, s, k) + Total(key, t, k)
    decreases |t|
  {
    if t == [] {
      assert s + t == s;
    } else {
      assert (s + t)[..|s + t| - 1] == s + t[..|t| - 1];
      TotalConcat(key, s, t[..|t| - 1], k);
    }
  }

  lemma SameVolumes(key: Naming, s: seq<Need>, t: seq<Need>, k: string)
    requires multiset(s) == multiset(t) && k in Volumes(key, s)
    ensures k in Volumes(key, t)
  {
    VolumesExact(key, s, k);
    VolumesExact(key, t, k);
    var i :| 0 <= i < |s| && key(s[i].dir) == k;
    assert s[i] in multiset(t);
  }

  /** The verdict does not depend on the order of the needs when free space depends only on the volume. */
  lemma OrderIrrelevant(key: Naming, free: Probe, s: seq<Need>, t: seq<Need>)
    requires PerVolume(key, free) && multiset(s) == multiset(t)
    ensures Accepted(key, free, s) <==> Accepted(key, free, t)
  {
    if Accepted(key, free, s) { AcceptedEither(key, free, s, t); }
    if Accepted(key, free, t) { AcceptedEither(key, free, t, s); }
  }

  lemma AcceptedEither(key: Naming, free: Probe, s: seq<Need>, t: seq<Need>)
    requires PerVolume(key, free) && multiset(s) == multiset(t) && Accepted(key, free, s)
    ensures Accepted(key, free, t)
  {
    hide Volumes, Total, FirstDir, Wrap;
    forall k | k in Volumes(key, t) ensures Roomy(key, free, t, k) {
      SameVolumes(key, t, s, k);
      TotalOfMultiset(key, s, t, k);
      VolumesExact(key, s, k);
      VolumesExact(key, t, k);
      assert Roomy(key, free, s, k);
    }
  }

  // ---------------------------------------------------------------- the restore

  datatype Manifest = Manifest(id: string, size: int, files: seq<int>)

  /** Why a check was left out; Unread carries the directory. */
  datatype Warning = NoSize(id: string) | NoImportDir | Unread(dir: string)

  function SumSizes(files: seq<int>): (n: int) {
    if files == [] then 0 else SumSizes(files[..|files| - 1]) + files[|files| - 1]
  }

  lemma {:induction false} SumSizesAdds(a: seq<int>, b: seq<int>)
    ensures SumSizes(a + b) == SumSizes(a) + SumSizes(b)
    ensures |b| == 1 ==> SumSizes(b) == b[0]
    decreases |b|
  {
    if b == [] {
      assert a + b == a;
    } else {
      assert (a + b)[..|a + b| - 1] == a + b[..|b| - 1];
      SumSizesAdds(a, b[..|b| - 1]);
      assert |b| == 1 ==> SumSizes(b[..0]) == 0;
    }
  }

  /** The recorded size, or what the files and it add up to when none is recorded. */
  function RestoreSize(m: Manifest): (n: int) {
    if m.size > 0 then m.size else Wrap(m.size + SumSizes(m.files))
  }

  function RestoreNeeds(size: int, staging: string, target: Option<string>): (needs: seq<Need>) {
    [Need(staging, size, "download")] +
    if target.Some? then [Need(target.value, size, "Import-VM copy")] else []
  }

  function Unchecked(target: Option<string>): (warnings: seq<Warning>) {
    if target.Some? then [] else [NoImportDir]
  }

  function Unreads(dirs: seq<string>): (warnings: seq<Warning>) {
    seq(|dirs|, i requires 0 <= i < |dirs| => Unread(dirs[i]))
  }

  method SizeOf(m: Manifest) returns (size: int)
    requires -0x8000_0000_0000_0000 <= m.size < 0x8000_0000_0000_0000
    ensures size == RestoreSize(m)
    ensures m.size > 0 ==> size == m.size
    ensures m.size <= 0 && -0x8000_0000_0000_0000 <= m.size + SumSizes(m.files) < 0x8000_0000_0000_0000 ==>
              size == m.size + SumSizes(m.files)
  {
    WrapInRange(m.size + SumSizes(m.files));
    size := m.size;
    if size <= 0 {
      WrapInRange(size);
      for i := 0 to |m.files|
        invariant size == Wrap(m.size + SumSizes(m.files[..i]))
      {
        assert m.files[..i + 1][..i] == m.files[..i];
        WrapAdd(m.size + SumSizes(m.files[..i]), m.files[i]);
        size := Wrap(size + m.files[i]);
      }
      assert m.files[..|m.files|] == m.files;
    }
  }

  lemma AcceptedMeans(key: Naming, free: Probe, needs: seq<Need>)
    ensures Accepted(key, free, needs) <==> forall k :: k in Volumes(key, needs) ==> Roomy(key, free, needs, k)
  {
  }

  /** preflightHypervRestore: fails open wherever a check cannot be made, with a warning for each. */
  method PreflightRestore(key: Naming, free: Probe, manifest: Option<Manifest>, staging: string, target: Option<string>)
    returns (warnings: seq<Warning>, refusal: Option<Refusal>)
    requires manifest.Some? ==> -0x8000_0000_0000_0000 <= manifest.value.size < 0x8000_0000_0000_0000
    ensures manifest.None? ==> warnings == [] && refusal.None?
    ensures manifest.Some? && RestoreSize(manifest.value) <= 0 ==>
              warnings == [NoSize(manifest.value.id)] && refusal.None?
    ensures manifest.Some? && RestoreSize(manifest.value) > 0 ==>
              var needs := RestoreNeeds(RestoreSize(manifest.value), staging, target);
              && (refusal.None? <==> Accepted(key, free, needs))
              && (refusal.None? ==>
                    warnings == Unchecked(target) + Unreads(Skipped(key, free, needs, Volumes(key, needs))))
              && (refusal.Some? ==>
                    exists i :: 0 <= i < |Volumes(key, needs)| && Refuses(key, free, needs, i, refusal.value) &&
                      warnings == Unchecked(target) + Unreads(Skipped(key, free, needs, Volumes(key, needs)[..i])))
  {
    hide RestoreSize, Volumes, Skipped, Accepted, Refuses;
    if manifest.None? { return [], None; }
    var size := SizeOf(manifest.value);
    if size <= 0 { return [NoSize(manifest.value.id)], None; }
    var needs := [Need(staging, size, "download")];
    if target.None? {
      warnings := [NoImportDir];
    } else {
      warnings := [];
      needs := needs + [Need(target.value, size, "Import-VM copy")];
    }
    assert needs == RestoreNeeds(size, staging, target);
    var unread: seq<string>;
    unread, refusal := CheckSpace(key, free, needs);
    AcceptedMeans(key, free, needs);
    warnings := warnings + Unreads(unread);
  }

  lemma TwoNeeds(key: Naming, staging: string, target: string, size: int)
    ensures var needs := RestoreNeeds(size, staging, Some(target));
            && Volumes(key, needs) == (if key(staging) == key(target) then [key(staging)] else [key(staging), key(target)])
            && FirstDir(key, needs, key(staging)) == staging
            && (key(staging) != key(target) ==> FirstDir(key, needs, key(target)) == target)
            && Total(key, needs, key(target)) == (if key(staging) == key(target) then size + size else size)
            && (key(staging) != key(target) ==> Total(key, needs, key(staging)) == size)
  {
    var first, second := Need(staging, size, "download"), Need(target, size, "Import-VM copy");
    assert RestoreNeeds(size, staging, Some(target)) == ([] + [first]) + [second];
    Pushed(key, [], first, key(staging));
    Pushed(key, [] + [first], second, key(staging));
    Pushed(key, [], first, key(target));
    Pushed(key, [] + [first], second, key(target));
  }

  /** Staging and import on one readable volume: the restore goes ahead exactly when two copies and the
      headroom fit, on two volumes exactly when each is unreadable or has room for one copy and the headroom;
      in both cases as 64-bit sums, which are the true ones for every size that leaves them in range. */
  lemma RestoreCopies(key: Naming, free: Probe, staging: string, target: string, size: int)
    requires 0 < size
    ensures var needs := RestoreNeeds(size, staging, Some(target));
            if key(staging) == key(target) then
              Accepted(key, free, needs) <==> (free(staging).Some? ==> free(staging).value >= Wrap(2 * size + 0x4000_0000))
            else
              Accepted(key, free, needs) <==>
                && (free(staging).Some? ==> free(staging).value >= Wrap(size + 0x4000_0000))
                && (free(target).Some? ==> free(target).value >= Wrap(size + 0x4000_0000))
    ensures Wrap(2 * size + 0x4000_0000) == 2 * size + 0x4000_0000 <==> 2 * size + 0x4000_0000 < 0x8000_0000_0000_0000
    ensures Wrap(size + 0x4000_0000) == size + 0x4000_0000 <==> size + 0x4000_0000 < 0x8000_0000_0000_0000
  {
    hide Volumes, Total, FirstDir, Wrap;
    TwoNeeds(key, staging, target, size);
    WrapInRange(size + HEADROOM);
    WrapInRange(2 * size + HEADROOM);
    var needs := RestoreNeeds(size, staging, Some(target));
    assert Accepted(key, free, needs) <==> Roomy(key, free, needs, key(staging)) && Roomy(key, free, needs, key(target));
  }

  /** Sums that leave the 64-bit range break the promise: a restore of 2^62 bytes into a volume that holds
      both staging and import is accepted when the volume reports nothing free. */
  lemma WrappedSumAccepted(key: Naming, free: Probe, staging: string, target: string)
    requires key(staging) == key(target) && free(staging) == Some(0)
    ensures var needs := RestoreNeeds(0x4000_0000_0000_0000, staging, Some(target));
            Total(key, needs, key(staging)) == 0x8000_0000_0000_0000 && Accepted(key, free, needs)
  {
    hide Volumes, Total, FirstDir;
    TwoNeeds(key, staging, target, WORD / 4);
  }

  /** The promise without machine arithmetic: every readable volume holds its needs and the headroom. */
  ghost predicate Holds(key: Naming, free: Probe, needs: seq<Need>) {
    forall k :: k in Volumes(key, needs) && Readable(key, free, needs, k) ==>
      free(FirstDir(key, needs, k)).value >= Total(key, needs, k) + 0x4000_0000
  }

  ghost predicate Reports(free: Probe) {
    forall dir :: free(dir).Some? ==> 0 <= free(dir).value < 0x8000_0000_0000_0000
  }

  ghost predicate InRange(key: Naming, needs: seq<Need>) {
    forall k :: k in Volumes(key, needs) ==> Total(key, needs, k) + 0x4000_0000 < 0x8000_0000_0000_0000
  }

  lemma {:induction false} TotalNatural(key: Naming, needs: seq<Need>, k: string)
    requires forall i :: 0 <= i < |needs| ==> needs[i].bytes >= 0
    ensures Total(key, needs, k) >= 0
  {
    if needs != [] { TotalNatural(key, needs[..|needs| - 1], k); }
  }

  /** The check keeps its promise for every state of the disks exactly when each volume's needs and the
      headroom stay within 64 bits. */
  lemma PromiseIffInRange(key: Naming, needs: seq<Need>)
    requires forall i :: 0 <= i < |needs| ==> needs[i].bytes >= 0
    ensures (forall free: Probe :: Reports(free) ==> (Accepted(key, free, needs) <==> Holds(key, free, needs)))
            <==> InRange(key, needs)
  {
    hide Volumes, Total, FirstDir, Wrap;
    forall k ensures InRange(key, needs) && k in Volumes(key, needs) ==> Required(key, needs, k) == Total(key, needs, k) + HEADROOM {
      TotalNatural(key, needs, k);
      WrapInRange(Total(key, needs, k) + HEADROOM);
    }
    if InRange(key, needs) {
      forall free: Probe | Reports(free) ensures Accepted(key, free, needs) <==> Holds(key, free, needs) {
        assert forall k :: k in Volumes(key, needs) ==> Required(key, needs, k) == Total(key, needs, k) + HEADROOM;
      }
    } else {
      var k :| k in Volumes(key, needs) && Total(key, needs, k) + HEADROOM >= WORD / 2;
      var free: Probe := _ => Some(WORD / 2 - 1);
      assert Reports(free) && Readable(key, free, needs, k);
      assert Accepted(key, free, needs) && !Holds(key, free, needs);
    }
  }
}
