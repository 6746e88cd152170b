/** The soak's accepted-but-unpublished revisions: per-site sorted queues drained by polls.

Models track, the drain loop of latencyLoop and the final lost count of scripts/topology/ingest-soak.ts. A poll
may answer for any sites, in any order and with any high-water marks.
*/
module RevisionTracker {
  type Site = string

  datatype Entry = Entry(revision: int, at: int)

  /** What happened so far: an accepted revision, or one row of a poll. */
  datatype Event =
    | Tracked(site: Site, entry: Entry)
    | Polled(site: Site, through: int, now: int, steady: bool)

  // ---------------------------------------------------------------- queues

  predicate Sorted(q: seq<Entry>) {
    forall i, j :: 0 <= i < j < |q| ==> q[i].revision <= q[j].revision
  }

  /** Stable: after everything not greater. */
  function InsertAfter(q: seq<Entry>, e: Entry): (r: seq<Entry>)
    ensures |r| == |q| + 1
  {
    if q == [] || q[|q| - 1].revision <= e.revision then q + [e]
    else InsertAfter(q[..|q| - 1], e) + [q[|q| - 1]]
  }

  function StableSort(q: seq<Entry>): (r: seq<Entry>)
    ensures |r| == |q|
  {
    if q == [] then [] else InsertAfter(StableSort(q[..|q| - 1]), q[|q| - 1])
  }

  function After(q: seq<Entry>, through: int): (r: seq<Entry>) {
    if q == [] then []
    else
      var front := After(q[..|q| - 1], through);
      if q[|q| - 1].revision > through then front + [q[|q| - 1]] else front
  }

  function UpTo(q: seq<Entry>, through: int): (r: seq<Entry>) {
    if q == [] then []
    else
      var front := UpTo(q[..|q| - 1], through);
      if q[|q| - 1].revision <= through then front + [q[|q| - 1]] else front
  }

  function Lags(q: seq<Entry>, now: int): (r: seq<int>)
    ensures |r| == |q|
  {
    if q == [] then [] else Lags(q[..|q| - 1], now) + [now - q[|q| - 1].at]
  }

  lemma {:induction false} LagsEach(q: seq<Entry>, now: int)
    ensures forall i :: 0 <= i < |q| ==> Lags(q, now)[i] == now - q[i].at
  {
    if q != [] { LagsEach(q[..|q| - 1], now); }
  }

  /** Each of these follows the last entry. */
  lemma Pushed(q: seq<Entry>, l: Entry, e: Entry, through: int, now: int)
    ensures InsertAfter(q + [l], e) == if l.revision <= e.revision then q + [l] + [e] else InsertAfter(q, e) + [l]
    ensures StableSort(q + [l]) == InsertAfter(StableSort(q), l)
    ensures After(q + [l], through) == if l.revision > through then After(q, through) + [l] else After(q, through)
    ensures UpTo(q + [l], through) == if l.revision <= through then UpTo(q, through) + [l] else UpTo(q, through)
    ensures Lags(q + [l], now) == Lags(q, now) + [now - l.at]
  {
    assert (q + [l])[..|q|] == q;
  }

  lemma Nothing(e: Entry, through: int, now: int)
    ensures InsertAfter([], e) == [e] && StableSort([]) == []
    ensures After([], through) == [] && UpTo([], through) == [] && Lags([], now) == []
  {
  }

  lemma {:induction false} InsertSorted(q: seq<Entry>, e: Entry)
    requires Sorted(q)
    ensures Sorted(InsertAfter(q, e))
    ensures var r := InsertAfter(q, e);
            r[|q|].revision == if q != [] && q[|q| - 1].revision > e.revision then q[|q| - 1].revision else e.revision
  {
    if q != [] && q[|q| - 1].revision > e.revision {
      InsertSorted(q[..|q| - 1], e);
    }
  }

  lemma {:induction false} SortSorts(q: seq<Entry>)
    ensures Sorted(StableSort(q))
  {
    if q != [] {
      SortSorts(q[..|q| - 1]);
      InsertSorted(StableSort(q[..|q| - 1]), q[|q| - 1]);
    }
  }

  lemma InsertLast(q: seq<Entry>, e: Entry)
    requires q != [] ==> q[|q| - 1].revision <= e.revision
    ensures InsertAfter(q, e) == q + [e]
  {
  }

  /** Sorting after a push only inserts: the queue was sorted before. */
  lemma {:induction false} SortedStays(q: seq<Entry>)
    requires Sorted(q)
    ensures StableSort(q) == q
  {
    hide StableSort, InsertAfter;
    if q == [] {
      Nothing(Entry(0, 0), 0, 0);
    } else {
      var front, l := q[..|q| - 1], q[|q| - 1];
      assert q == front + [l];
      SortedStays(front);
      if |q| > 1 { assert q[|q| - 2].revision <= q[|q| - 1].revision; }
      Pushed(front, l, l, 0, 0);
      InsertLast(front, l);
    }
  }

  lemma SortPush(x: seq<Entry>, e: Entry)
    ensures StableSort(StableSort(x) + [e]) == StableSort(x + [e])
  {
    hide StableSort, InsertAfter;
    SortSorts(x);
    SortedStays(StableSort(x));
    Pushed(x, e, e, 0, 0);
    Pushed(StableSort(x), e, e, 0, 0);
  }

  // ---------------------------------------------------------------- draining

  /** Inserting and cutting at a mark commute. */
  lemma {:induction false} CutInsert(q: seq<Entry>, e: Entry, through: int)
    requires Sorted(q)
    ensures After(InsertAfter(q, e), through)
         == if e.revision > through then InsertAfter(After(q, through), e) else After(q, through)
    ensures UpTo(InsertAfter(q, e), through)
         == if e.revision <= through then InsertAfter(UpTo(q, through), e) else UpTo(q, through)
  {
    hide InsertAfter, After, UpTo;
    Nothing(e, through, 0);
    if q == [] {
      Pushed([], e, e, through, 0);
      assert [] + [e] == [e];
    } else {
      var q', l := q[..|q| - 1], q[|q| - 1];
      assert q == q' + [l];
      Pushed(q', l, e, through, 0);
      Pushed(q, e, e, through, 0);
      CutLast(q, through, e);
      CutInsert(q', e, through);
      Pushed(InsertAfter(q', e), l, e, through, 0);
      Pushed(After(q', through), l, e, through, 0);
      Pushed(UpTo(q', through), l, e, through, 0);
    }
  }

  /** What is cut from a sorted queue is extended at its end by what may follow the queue. */
  lemma {:induction false} CutLast(q: seq<Entry>, through: int, e: Entry)
    requires Sorted(q)
    ensures (forall i :: 0 <= i < |q| ==> q[i].revision <= e.revision) ==>
              && InsertAfter(After(q, through), e) == After(q, through) + [e]
              && InsertAfter(UpTo(q, through), e) == UpTo(q, through) + [e]
  {
    if q != [] {
      var q', l := q[..|q| - 1], q[|q| - 1];
      assert q[|q| - 1].revision == l.revision;
      CutLast(q', through, e);
    }
  }

  /** Cutting at a mark commutes with sorting. */
  lemma {:induction false} CutSort(x: seq<Entry>, through: int)
    ensures After(StableSort(x), through) == StableSort(After(x, through))
    ensures UpTo(StableSort(x), through) == StableSort(UpTo(x, through))
  {
    hide InsertAfter, After, UpTo, StableSort;
    if x == [] {
      Nothing(Entry(0, 0), through, 0);
    } else {
      var x', e := x[..|x| - 1], x[|x| - 1];
      assert x == x' + [e];
      CutSort(x', through);
      SortSorts(x');
      Pushed(x', e, e, through, 0);
      CutInsert(StableSort(x'), e, through);
      Pushed(After(x', through), e, e, through, 0);
      Pushed(UpTo(x', through), e, e, through, 0);
    }
  }

  lemma {:induction false} AllAfter(q: seq<Entry>, through: int)
    requires forall i :: 0 <= i < |q| ==> q[i].revision > through
    ensures After(q, through) == q && UpTo(q, through) == []
  {
    hide After, UpTo;
    if q == [] {
      Nothing(Entry(0, 0), through, 0);
    } else {
      var q', l := q[..|q| - 1], q[|q| - 1];
      AllAfter(q', through);
      Pushed(q', l, l, through, 0);
      assert q == q' + [l];
    }
  }

  lemma {:induction false} AllUpTo(q: seq<Entry>, through: int)
    requires forall i :: 0 <= i < |q| ==> q[i].revision <= through
    ensures After(q, through) == [] && UpTo(q, through) == q
  {
    hide After, UpTo;
    if q == [] {
      Nothing(Entry(0, 0), through, 0);
    } else {
      var q', l := q[..|q| - 1], q[|q| - 1];
      AllUpTo(q', through);
      Pushed(q', l, l, through, 0);
      assert q == q' + [l];
    }
  }

  lemma Associative(p: seq<Entry>, q: seq<Entry>, l: Entry)
    ensures (p + q) + [l] == p + (q + [l])
  {
  }

  lemma {:induction false} CutConcat(p: seq<Entry>, q: seq<Entry>, through: int)
    ensures After(p + q, through) == After(p, through) + After(q, through)
    ensures UpTo(p + q, through) == UpTo(p, through) + UpTo(q, through)
  {
    hide After, UpTo;
    if q == [] {
      Nothing(Entry(0, 0), through, 0);
      assert p + q == p;
    } else {
      var q', l := q[..|q| - 1], q[|q| - 1];
      assert q == q' + [l];
      Associative(p, q', l);
      CutConcat(p, q', through);
      Associative(After(p, through), After(q', through), l);
      Associative(UpTo(p, through), UpTo(q', through), l);
      Pushed(q', l, l, through, 0);
      Pushed(p + q', l, l, through, 0);
    }
  }

  /** What the drain loop leaves of a sorted queue is exactly what exceeds the mark. */
  lemma DrainSplits(popped: seq<Entry>, rest: seq<Entry>, through: int)
    requires Sorted(popped + rest)
    requires forall i :: 0 <= i < |popped| ==> popped[i].revision <= through
    requires rest != [] ==> rest[0].revision > through
    ensures rest == After(popped + rest, through) && popped == UpTo(popped + rest, through)
  {
    hide After, UpTo;
    var q := popped + rest;
    forall i | 0 <= i < |rest| ensures rest[i].revision > through {
      assert q[|popped|] == rest[0] && q[|popped| + i] == rest[i];
    }
    CutConcat(popped, rest, through);
    AllUpTo(popped, through);
    AllAfter(rest, through);
  }

  // ---------------------------------------------------------------- what the history says should be left

  predicate Covers(ev: Event, site: Site, e: Entry) {
    ev.Polled? && ev.site == site && e.revision <= ev.through
  }

  /** The first poll row from event i on that covers the entry; -1 if none does. */
  function FirstCover(h: seq<Event>, i: nat, site: Site, e: Entry): (j: int)
    ensures j == -1 || (i <= j < |h| && Covers(h[j], site, e))
    ensures j == -1 <==> forall k :: i <= k < |h| ==> !Covers(h[k], site, e)
    decreases |h| - i
  {
    if i >= |h| then -1 else if Covers(h[i], site, e) then i else FirstCover(h, i + 1, site, e)
  }

  lemma {:induction false} FirstCoverIsFirst(h: seq<Event>, i: nat, site: Site, e: Entry, k: nat)
    requires i <= k < |h| && Covers(h[k], site, e)
    ensures i <= FirstCover(h, i, site, e) <= k
    decreases |h| - i
  {
    if !Covers(h[i], site, e) { FirstCoverIsFirst(h, i + 1, site, e, k); }
  }

  /** The revisions accepted for a site among the first n events that no later poll row covers, in order. */
  function NeverCovered(h: seq<Event>, n: nat, site: Site): (r: seq<Entry>)
    requires n <= |h|
  {
    if n == 0 then []
    else
      var front := NeverCovered(h, n - 1, site);
      if h[n - 1].Tracked? && h[n - 1].site == site && FirstCover(h, n, site, h[n - 1].entry) == -1
      then front + [h[n - 1].entry] else front
  }

  /** For each accepted revision first covered by a steady-state poll, how long that took. */
  function PublishLags(h: seq<Event>, n: nat): (r: seq<int>)
    requires n <= |h|
  {
    if n == 0 then []
    else
      var front := PublishLags(h, n - 1);
      if h[n - 1].Tracked? then
        var j := FirstCover(h, n, h[n - 1].site, h[n - 1].entry);
        if j != -1 && h[j].steady then front + [h[j].now - h[n - 1].entry.at] else front
      else front
  }

  lemma {:induction false} FirstCoverAppend(h: seq<Event>, ev: Event, i: nat, site: Site, e: Entry)
    requires i <= |h|
    ensures FirstCover(h + [ev], i, site, e)
         == if FirstCover(h, i, site, e) != -1 then FirstCover(h, i, site, e)
            else if Covers(ev, site, e) then |h| else -1
    decreases |h| - i
  {
    if i < |h| {
      assert (h + [ev])[i] == h[i];
      FirstCoverAppend(h, ev, i + 1, site, e);
    } else {
      assert (h + [ev])[|h|] == ev;
      assert FirstCover(h + [ev], |h| + 1, site, e) == -1;
    }
  }

  lemma NeverStep(h: seq<Event>, n: nat, site: Site)
    requires 0 < n <= |h|
    ensures NeverCovered(h, n, site)
         == if h[n - 1].Tracked? && h[n - 1].site == site && FirstCover(h, n, site, h[n - 1].entry) == -1
            then NeverCovered(h, n - 1, site) + [h[n - 1].entry] else NeverCovered(h, n - 1, site)
  {
  }

  lemma AfterPush(left: seq<Entry>, e: Entry, through: int)
    ensures After([], through) == []
    ensures After(left + [e], through) == if e.revision > through then After(left, through) + [e] else After(left, through)
  {
    hide After;
    Nothing(e, through, 0);
    Pushed(left, e, e, through, 0);
  }

  /** A new event drops from what was left exactly what it covers. */
  lemma {:induction false} NeverCoveredAppend(h: seq<Event>, ev: Event, n: nat, site: Site)
    requires n <= |h|
    ensures NeverCovered(h + [ev], n, site)
         == if ev.Polled? && ev.site == site then After(NeverCovered(h, n, site), ev.through)
            else NeverCovered(h, n, site)
  {
    hide FirstCover, After, NeverCovered;
    var t := if ev.Polled? then ev.through else 0;
    if n == 0 {
      NeverNone(h, site);
      NeverNone(h + [ev], site);
      AfterPush([], Entry(0, 0), t);
    } else {
      NeverStep(h, n, site);
      NeverStep(h + [ev], n, site);
      assert (h + [ev])[n - 1] == h[n - 1];
      NeverCoveredAppend(h, ev, n - 1, site);
      if h[n - 1].Tracked? && h[n - 1].site == site {
        FirstCoverAppend(h, ev, n, site, h[n - 1].entry);
        AfterPush(NeverCovered(h, n - 1, site), h[n - 1].entry, t);
      }
    }
  }

  lemma NeverNone(h: seq<Event>, site: Site)
    ensures NeverCovered(h, 0, site) == []
  {
  }

  lemma NeverCoveredTracked(h: seq<Event>, site: Site, e: Entry, other: Site)
    ensures NeverCovered(h + [Tracked(site, e)], |h| + 1, other)
         == if other == site then NeverCovered(h, |h|, other) + [e] else NeverCovered(h, |h|, other)
  {
    var h' := h + [Tracked(site, e)];
    NeverCoveredAppend(h, Tracked(site, e), |h|, other);
    assert h'[|h|] == Tracked(site, e);
    assert FirstCover(h', |h| + 1, site, e) == -1;
  }

  lemma NeverCoveredPolled(h: seq<Event>, ev: Event, other: Site)
    requires ev.Polled?
    ensures NeverCovered(h + [ev], |h| + 1, other)
         == if other == ev.site then After(NeverCovered(h, |h|, other), ev.through) else NeverCovered(h, |h|, other)
  {
    NeverCoveredAppend(h, ev, |h|, other);
    assert (h + [ev])[|h|] == ev;
  }

  // ---------------------------------------------------------------- latencies

  lemma {:induction false} InsertLags(q: seq<Entry>, e: Entry, now: int)
    ensures multiset(Lags(InsertAfter(q, e), now)) == multiset(Lags(q, now)) + multiset{now - e.at}
  {
    hide InsertAfter, Lags;
    Nothing(e, 0, now);
    Pushed(q, e, e, 0, now);
    if q == [] {
      assert [] + [e] == [e];
    } else {
      var q', l := q[..|q| - 1], q[|q| - 1];
      assert q == q' + [l];
      InsertLags(q', e, now);
      Pushed(q', l, e, 0, now);
      Pushed(InsertAfter(q', e), l, e, 0, now);
    }
  }

  lemma {:induction false} SortLags(x: seq<Entry>, now: int)
    ensures multiset(Lags(StableSort(x), now)) == multiset(Lags(x, now))
  {
    hide InsertAfter, Lags, StableSort;
    if x == [] {
      Nothing(Entry(0, 0), 0, now);
    } else {
      var x', e := x[..|x| - 1], x[|x| - 1];
      assert x == x' + [e];
      SortLags(x', now);
      InsertLags(StableSort(x'), e, now);
      Pushed(x', e, e, 0, now);
    }
  }

  /** The lags a poll row adds for the revisions it is the first to cover. */
  function NewLags(left: seq<Entry>, ev: Event): (r: seq<int>) {
    if ev.Polled? && ev.steady then Lags(UpTo(left, ev.through), ev.now) else []
  }

  lemma NewLagsPush(left: seq<Entry>, e: Entry, ev: Event)
    ensures NewLags([], ev) == []
    ensures NewLags(left + [e], ev)
         == if ev.Polled? && ev.steady && e.revision <= ev.through then NewLags(left, ev) + [ev.now - e.at]
            else NewLags(left, ev)
  {
    hide Lags, UpTo;
    if ev.Polled? {
      Nothing(e, ev.through, ev.now);
      UpToPush(left, e, ev.through);
      PushedLags(UpTo(left, ev.through), e, ev.now);
    }
  }

  lemma UpToPush(left: seq<Entry>, e: Entry, through: int)
    ensures UpTo(left + [e], through) == if e.revision <= through then UpTo(left, through) + [e] else UpTo(left, through)
  {
    hide UpTo;
    Pushed(left, e, e, through, 0);
  }

  /** `whole` holds the same lags as `p` and `q` together. */
  ghost predicate Together(whole: seq<int>, p: seq<int>, q: seq<int>) {
    multiset(whole) == multiset(p) + multiset(q)
  }

  lemma Grow(whole: seq<int>, p: seq<int>, q: seq<int>, x: int)
    requires Together(whole, p, q)
    ensures Together(whole + [x], p + [x], q) && Together(whole + [x], p, q + [x])
  {
  }

  lemma LagsStep(h: seq<Event>, n: nat)
    requires 0 < n <= |h|
    ensures PublishLags(h, n)
         == if !h[n - 1].Tracked? then PublishLags(h, n - 1)
            else
              var j := FirstCover(h, n, h[n - 1].site, h[n - 1].entry);
              if j != -1 && h[j].steady then PublishLags(h, n - 1) + [h[j].now - h[n - 1].entry.at]
              else PublishLags(h, n - 1)
  {
  }

  /** A new event adds to the lags those of the revisions it is the first to cover. */
  lemma {:induction false} PublishLagsAppend(h: seq<Event>, ev: Event, n: nat)
    requires n <= |h|
    ensures Together(PublishLags(h + [ev], n), PublishLags(h, n), NewLags(NeverCovered(h, n, ev.site), ev))
  {
    hide FirstCover, NewLags, Together, PublishLags;
    NewLagsPush([], Entry(0, 0), ev);
    var h' := h + [ev];
    if n == 0 {
      NoLags(h, ev);
    } else {
      PublishLagsAppend(h, ev, n - 1);
      LagsStep(h, n);
      LagsStep(h', n);
      var k := h[n - 1];
      assert h'[n - 1] == k;
      if k.Tracked? {
        var left := NeverCovered(h, n - 1, ev.site);
        FirstCoverAppend(h, ev, n, k.site, k.entry);
        NewLagsPush(left, k.entry, ev);
        var j := FirstCover(h', n, k.site, k.entry);
        if j != -1 && h'[j].steady {
          Grow(PublishLags(h', n - 1), PublishLags(h, n - 1), NewLags(left, ev), h'[j].now - k.entry.at);
        }
      }
    }
  }

  lemma NoLags(h: seq<Event>, ev: Event)
    ensures Together(PublishLags(h + [ev], 0), PublishLags(h, 0), [])
  {
  }

  lemma PublishLagsNext(h: seq<Event>, ev: Event)
    ensures Together(PublishLags(h + [ev], |h| + 1), PublishLags(h, |h|), NewLags(NeverCovered(h, |h|, ev.site), ev))
  {
    hide NewLags, Together;
    PublishLagsAppend(h, ev, |h|);
    assert (h + [ev])[|h|] == ev;
    if ev.Tracked? { assert FirstCover(h + [ev], |h| + 1, ev.site, ev.entry) == -1; }
  }

  // ---------------------------------------------------------------- the tracker

  function Queue(pending: map<Site, seq<Entry>>, site: Site): (q: seq<Entry>) {
    if site in pending then pending[site] else []
  }

  /** Every site's queue is exactly its never-covered revisions in revision order, equal ones as accepted. */
  ghost predicate Exact(pending: map<Site, seq<Entry>>, h: seq<Event>) {
    && (forall site :: Queue(pending, site) == StableSort(NeverCovered(h, |h|, site)))
    && (forall site :: site in pending ==> pending[site] != [])
  }

  lemma TrackExact(pending: map<Site, seq<Entry>>, h: seq<Event>, site: Site, e: Entry)
    requires Exact(pending, h)
    ensures Exact(pending[site := StableSort(Queue(pending, site) + [e])], h + [Tracked(site, e)])
  {
    hide StableSort, NeverCovered;
    var after := pending[site := StableSort(Queue(pending, site) + [e])];
    forall s ensures Queue(after, s) == StableSort(NeverCovered(h + [Tracked(site, e)], |h| + 1, s)) {
      NeverCoveredTracked(h, site, e, s);
      SortPush(NeverCovered(h, |h|, s), e);
      assert Queue(pending, s) == StableSort(NeverCovered(h, |h|, s));
    }
  }

  lemma PollExact(pending: map<Site, seq<Entry>>, h: seq<Event>, ev: Event)
    requires Exact(pending, h) && ev.Polled?
    ensures var rest := After(Queue(pending, ev.site), ev.through);
            Exact(if rest == [] then pending - {ev.site} else pending[ev.site := rest], h + [ev])
  {
    hide StableSort, NeverCovered, After;
    var rest := After(Queue(pending, ev.site), ev.through);
    var after := if rest == [] then pending - {ev.site} else pending[ev.site := rest];
    forall s ensures Queue(after, s) == StableSort(NeverCovered(h + [ev], |h| + 1, s)) {
      NeverCoveredPolled(h, ev, s);
      CutSort(NeverCovered(h, |h|, s), ev.through);
      assert Queue(pending, s) == StableSort(NeverCovered(h, |h|, s));
    }
  }

  /** Accepted revisions of the sites in `sites` that no later poll row covers. */
  function LostCount(h: seq<Event>, n: nat, sites: set<Site>): (c: nat)
    requires n <= |h|
  {
    if n == 0 then 0
    else
      LostCount(h, n - 1, sites) +
      if h[n - 1].Tracked? && h[n - 1].site in sites && FirstCover(h, n, h[n - 1].site, h[n - 1].entry) == -1
      then 1 else 0
  }

  lemma {:induction false} LostAdds(h: seq<Event>, n: nat, sites: set<Site>, site: Site)
    requires n <= |h| && site !in sites
    ensures LostCount(h, n, sites + {site}) == LostCount(h, n, sites) + |NeverCovered(h, n, site)|
  {
    hide FirstCover;
    if n > 0 { LostAdds(h, n - 1, sites, site); }
  }

  lemma {:induction false} LostOnlyThere(h: seq<Event>, n: nat, sites: set<Site>, more: set<Site>)
    requires n <= |h| && sites <= more
    requires forall site :: site in more - sites ==> NeverCovered(h, n, site) == []
    ensures LostCount(h, n, more) == LostCount(h, n, sites)
  {
    hide FirstCover;
    if n > 0 {
      forall site | site in more - sites ensures NeverCovered(h, n - 1, site) == [] {
        assert NeverCovered(h, n, site) == [];
      }
      if h[n - 1].Tracked? && h[n - 1].site in more - sites { assert NeverCovered(h, n, h[n - 1].site) == []; }
      LostOnlyThere(h, n - 1, sites, more);
    }
  }

  function TrackedCount(h: seq<Event>, n: nat): (c: nat)
    requires n <= |h|
  {
    if n == 0 then 0 else TrackedCount(h, n - 1) + if h[n - 1].Tracked? then 1 else 0
  }

  /** Accepted revisions that a poll row outside steady state was the first to cover. */
  function UntimedCount(h: seq<Event>, n: nat): (c: nat)
    requires n <= |h|
  {
    if n == 0 then 0
    else
      UntimedCount(h, n - 1) +
      if h[n - 1].Tracked? then
        var j := FirstCover(h, n, h[n - 1].site, h[n - 1].entry);
        if j != -1 && !h[j].steady then 1 else 0
      else 0
  }

  /** In every history each accepted revision is timed once, covered untimed before steady state, or lost. */
  lemma {:induction false} TimedOrLost(h: seq<Event>, n: nat, sites: set<Site>)
    requires n <= |h|
    requires forall i :: 0 <= i < |h| && h[i].Tracked? ==> h[i].site in sites
    ensures |PublishLags(h, n)| + UntimedCount(h, n) + LostCount(h, n, sites) == TrackedCount(h, n)
  {
    hide FirstCover;
    if n > 0 { TimedOrLost(h, n - 1, sites); }
  }

  // ---------------------------------------------------------------- nothing is popped twice or invented

  function AcceptedAt(h: seq<Event>, n: nat, site: Site): (m: multiset<Entry>)
    requires n <= |h|
  {
    if n == 0 then multiset{}
    else
      var front := AcceptedAt(h, n - 1, site);
      if h[n - 1].Tracked? && h[n - 1].site == site then front + multiset{h[n - 1].entry} else front
  }

  function PoppedAt(popped: map<Site, multiset<Entry>>, site: Site): (m: multiset<Entry>) {
    if site in popped then popped[site] else multiset{}
  }

  /** What was accepted for a site is what was popped and what is pending, entry by entry. */
  ghost predicate Conserved(pending: map<Site, seq<Entry>>, popped: map<Site, multiset<Entry>>, h: seq<Event>) {
    forall site :: Balances(AcceptedAt(h, |h|, site), PoppedAt(popped, site), Queue(pending, site))
  }

  ghost predicate Balances(accepted: multiset<Entry>, popped: multiset<Entry>, queue: seq<Entry>) {
    accepted == popped + multiset(queue)
  }

  lemma BalanceTrack(accepted: multiset<Entry>, popped: multiset<Entry>, queue: seq<Entry>, e: Entry)
    requires Balances(accepted, popped, queue)
    ensures Balances(accepted + multiset{e}, popped, StableSort(queue + [e]))
  {
    SortPermutes(queue + [e]);
  }

  lemma BalancePoll(accepted: multiset<Entry>, popped: multiset<Entry>, gone: seq<Entry>, rest: seq<Entry>)
    requires Balances(accepted, popped, gone + rest)
    ensures Balances(accepted, popped + multiset(gone), rest)
  {
  }

  lemma {:induction false} AcceptedPrefix(h: seq<Event>, ev: Event, n: nat, site: Site)
    requires n <= |h|
    ensures AcceptedAt(h + [ev], n, site) == AcceptedAt(h, n, site)
  {
    if n > 0 { AcceptedPrefix(h, ev, n - 1, site); }
  }

  lemma AcceptedNext(h: seq<Event>, ev: Event, site: Site)
    ensures AcceptedAt(h + [ev], |h| + 1, site)
         == if ev.Tracked? && ev.site == site then AcceptedAt(h, |h|, site) + multiset{ev.entry} else AcceptedAt(h, |h|, site)
  {
    AcceptedPrefix(h, ev, |h|, site);
    assert (h + [ev])[|h|] == ev;
  }

  lemma {:induction false} InsertPermutes(q: seq<Entry>, e: Entry)
    ensures multiset(InsertAfter(q, e)) == multiset(q) + multiset{e}
  {
    if q != [] && q[|q| - 1].revision > e.revision {
      InsertPermutes(q[..|q| - 1], e);
      assert q == q[..|q| - 1] + [q[|q| - 1]];
    }
  }

  lemma {:induction false} SortPermutes(q: seq<Entry>)
    ensures multiset(StableSort(q)) == multiset(q)
  {
    if q != [] {
      SortPermutes(q[..|q| - 1]);
      InsertPermutes(StableSort(q[..|q| - 1]), q[|q| - 1]);
      assert q == q[..|q| - 1] + [q[|q| - 1]];
    }
  }

  lemma TrackConserves(pending: map<Site, seq<Entry>>, popped: map<Site, multiset<Entry>>, h: seq<Event>, site: Site, e: Entry)
    requires Conserved(pending, popped, h)
    ensures Conserved(pending[site := StableSort(Queue(pending, site) + [e])], popped, h + [Tracked(site, e)])
  {
    hide StableSort, AcceptedAt, Balances;
    var after := pending[site := StableSort(Queue(pending, site) + [e])];
    forall s ensures Balances(AcceptedAt(h + [Tracked(site, e)], |h| + 1, s), PoppedAt(popped, s), Queue(after, s)) {
      AcceptedNext(h, Tracked(site, e), s);
      assert Balances(AcceptedAt(h, |h|, s), PoppedAt(popped, s), Queue(pending, s));
      if s == site { BalanceTrack(AcceptedAt(h, |h|, s), PoppedAt(popped, s), Queue(pending, s), e); }
    }
  }

  /** A poll row moves what it pops from pending to popped, and nothing else. */
  lemma PollConserves(pending: map<Site, seq<Entry>>, popped: map<Site, multiset<Entry>>, h: seq<Event>, ev: Event,
                      gone: seq<Entry>, rest: seq<Entry>)
    requires Conserved(pending, popped, h) && ev.Polled? && gone + rest == Queue(pending, ev.site)
    ensures Conserved(if rest == [] then pending - {ev.site} else pending[ev.site := rest],
                      popped[ev.site := PoppedAt(popped, ev.site) + multiset(gone)], h + [ev])
  {
    hide AcceptedAt, Balances;
    var after := if rest == [] then pending - {ev.site} else pending[ev.site := rest];
    var popped' := popped[ev.site := PoppedAt(popped, ev.site) + multiset(gone)];
    forall s ensures Balances(AcceptedAt(h + [ev], |h| + 1, s), PoppedAt(popped', s), Queue(after, s)) {
      AcceptedNext(h, ev, s);
      assert Balances(AcceptedAt(h, |h|, s), PoppedAt(popped, s), Queue(pending, s));
      if s == ev.site { BalancePoll(AcceptedAt(h, |h|, s), PoppedAt(popped, s), gone, rest); }
    }
  }

  /** Queues and latencies are what the history says, and accepted is popped plus pending. */
  ghost predicate Tracks(pending: map<Site, seq<Entry>>, latencies: seq<int>, popped: map<Site, multiset<Entry>>,
                         h: seq<Event>)
  {
    && Exact(pending, h) && Conserved(pending, popped, h)
    && multiset(latencies) == multiset(PublishLags(h, |h|))
  }

  function Remaining(pending: map<Site, seq<Entry>>, site: Site, rest: seq<Entry>): (after: map<Site, seq<Entry>>) {
    if rest == [] then pending - {site} else pending[site := rest]
  }

  function Moved(popped: map<Site, multiset<Entry>>, site: Site, gone: seq<Entry>): (after: map<Site, multiset<Entry>>) {
    popped[site := PoppedAt(popped, site) + multiset(gone)]
  }

  /** What a poll row does to what was popped. */
  ghost predicate MovesUpTo(before: map<Site, multiset<Entry>>, after: map<Site, multiset<Entry>>, site: Site, through: int) {
    && (forall s :: s != site ==> PoppedAt(after, s) == PoppedAt(before, s))
    && PoppedUpTo(PoppedAt(before, site), PoppedAt(after, site), through)
  }

  lemma MovedUpTo(popped: map<Site, multiset<Entry>>, site: Site, gone: seq<Entry>, through: int)
    requires forall i :: 0 <= i < |gone| ==> gone[i].revision <= through
    ensures MovesUpTo(popped, Moved(popped, site, gone), site, through)
  {
    hide PoppedUpTo;
    PoppedGrows(PoppedAt(popped, site), gone, through);
  }

  lemma PollTracks(pending: map<Site, seq<Entry>>, latencies: seq<int>, popped: map<Site, multiset<Entry>>,
                   h: seq<Event>, ev: Event, gone: seq<Entry>, rest: seq<Entry>)
    requires Tracks(pending, latencies, popped, h) && ev.Polled?
    requires gone + rest == Queue(pending, ev.site) && rest == After(Queue(pending, ev.site), ev.through)
    ensures Tracks(Remaining(pending, ev.site, rest), latencies + NewLags(Queue(pending, ev.site), ev),
                   Moved(popped, ev.site, gone), h + [ev])
  {
    hide Exact, PublishLags, After, NewLags, Together, Conserved, PoppedAt, Queue;
    PollExact(pending, h, ev);
    PollLags(pending, h, ev);
    PollConserves(pending, popped, h, ev, gone, rest);
    Appended(PublishLags(h + [ev], |h| + 1), PublishLags(h, |h|), latencies, NewLags(Queue(pending, ev.site), ev));
  }

  /** `popped` grew by entries up to the mark. */
  ghost predicate PoppedUpTo(before: multiset<Entry>, after: multiset<Entry>, through: int) {
    before <= after && forall e :: e in after - before ==> e.revision <= through
  }

  lemma PoppedGrows(before: multiset<Entry>, gone: seq<Entry>, through: int)
    requires forall i :: 0 <= i < |gone| ==> gone[i].revision <= through
    ensures PoppedUpTo(before, before + multiset(gone), through)
  {
    forall e | e in before + multiset(gone) - before ensures e.revision <= through {
      assert e in multiset(gone);
      assert e in gone;
    }
  }

  lemma Shifted(popped: seq<Entry>, queue: seq<Entry>)
    requires queue != []
    ensures (popped + [queue[0]]) + queue[1..] == popped + queue
  {
  }

  lemma PushedLags(popped: seq<Entry>, e: Entry, now: int)
    ensures Lags(popped + [e], now) == Lags(popped, now) + [now - e.at]
  {
    hide Lags;
    Pushed(popped, e, e, 0, now);
  }

  /** The drain loop on one sorted queue. */
  method Drain(whole: seq<Entry>, through: int, now: int, steady: bool)
    returns (queue: seq<Entry>, lags: seq<int>, ghost popped: seq<Entry>)
    requires Sorted(whole)
    ensures queue == After(whole, through) && lags == NewLags(whole, Polled([], through, now, steady))
    ensures popped + queue == whole && forall i :: 0 <= i < |popped| ==> popped[i].revision <= through
    ensures forall i :: 0 <= i < |queue| ==> queue[i].revision > through
    ensures if steady then |lags| == |popped| && forall i :: 0 <= i < |lags| ==> lags[i] == now - popped[i].at
            else lags == []
  {
    hide After, UpTo, Lags, Sorted;
    queue, lags, popped := whole, [], [];
    Nothing(Entry(0, 0), 0, now);
    while |queue| > 0 && queue[0].revision <= through
      invariant popped + queue == whole
      invariant forall i :: 0 <= i < |popped| ==> popped[i].revision <= through
      invariant lags == if steady then Lags(popped, now) else []
    {
      var entry := queue[0];
      PushedLags(popped, entry, now);
      Shifted(popped, queue);
      queue := queue[1..];
      popped := popped + [entry];
      if steady { lags := lags + [now - entry.at]; }
    }
    LagsEach(popped, now);
    DrainSplits(popped, queue, through);
    RestExceeds(popped, queue, through);
  }

  class Tracker {
    var pending: map<Site, seq<Entry>>
    var latencies: seq<int>
    ghost var history: seq<Event>
    ghost var popped: map<Site, multiset<Entry>>

    ghost predicate Valid()
      reads this
    {
      Tracks(pending, latencies, popped, history)
    }

    constructor ()
      ensures Valid() && history == [] && popped == map[]
    {
      pending, latencies, history, popped := map[], [], [], map[];
    }

    method Track(site: Site, revision: int, at: int)
      requires Valid()
      modifies this
      ensures Valid() && history == old(history) + [Tracked(site, Entry(revision, at))]
      ensures latencies == old(latencies) && popped == old(popped)
    {
      hide Exact, PublishLags, StableSort, Conserved;
      TrackConserves(pending, popped, history, site, Entry(revision, at));
      var e := Entry(revision, at);
      TrackExact(pending, history, site, e);
      PublishLagsNext(history, Tracked(site, e));
      var queue := if site in pending then pending[site] else [];
      queue := queue + [e];
      queue := StableSort(queue);
      pending := pending[site := queue];
      history := history + [Tracked(site, e)];
    }

    /** One row of a poll: shift while covered, and drop the site once nothing is left. */
    method PollRow(site: Site, through: int, now: int, steady: bool)
      requires Valid()
      modifies this
      ensures Valid() && history == old(history) + [Polled(site, through, now, steady)]
      ensures site in pending ==> forall i :: 0 <= i < |pending[site]| ==> pending[site][i].revision > through
      ensures old(latencies) <= latencies && (!steady ==> latencies == old(latencies))
      ensures MovesUpTo(old(popped), popped, site, through)
    {
      hide Tracks, After, NewLags, MovesUpTo, Moved, Sorted, PoppedAt;
      ghost var ev := Polled(site, through, now, steady);
      TracksSorted(pending, latencies, popped, history, site);
      var queue := if site in pending then pending[site] else [];
      var rest, lags;
      ghost var gone;
      rest, lags, gone := Drain(queue, through, now, steady);
      PollTracks(pending, latencies, popped, history, ev, gone, rest);
      SameLags(queue, ev);
      MovedUpTo(popped, site, gone, through);
      latencies := latencies + lags;
      popped := Moved(popped, site, gone);
      if |rest| == 0 { pending := pending - {site}; } else { pending := pending[site := rest]; }
      history := history + [ev];
    }

    /** What is still queued when the soak ends is exactly what no poll covered. */
    method Lost() returns (lost: nat)
      requires Valid()
      ensures forall sites :: pending.Keys <= sites ==> lost == LostCount(history, |history|, sites)
    {
      hide StableSort, NeverCovered, LostCount;
      lost := 0;
      var left := pending.Keys;
      NoneLost(history, |history|);
      while left != {}
        invariant left <= pending.Keys && lost == LostCount(history, |history|, pending.Keys - left)
        decreases |left|
      {
        var site :| site in left;
        LostAdds(history, |history|, pending.Keys - left, site);
        assert Queue(pending, site) == StableSort(NeverCovered(history, |history|, site));
        assert pending.Keys - left + {site} == pending.Keys - (left - {site});
        lost := lost + |pending[site]|;
        left := left - {site};
      }
      assert pending.Keys - {} == pending.Keys;
      forall sites | pending.Keys <= sites ensures lost == LostCount(history, |history|, sites) {
        forall site | site in sites - pending.Keys ensures NeverCovered(history, |history|, site) == [] {
          assert Queue(pending, site) == StableSort(NeverCovered(history, |history|, site));
        }
        LostOnlyThere(history, |history|, pending.Keys, sites);
      }
    }
  }

  lemma {:induction false} NoneLost(h: seq<Event>, n: nat)
    requires n <= |h|
    ensures forall keys: set<Site> :: LostCount(h, n, keys - keys) == 0
  {
    if n > 0 { NoneLost(h, n - 1); }
  }

  lemma TracksSorted(pending: map<Site, seq<Entry>>, latencies: seq<int>, popped: map<Site, multiset<Entry>>,
                     h: seq<Event>, site: Site)
    requires Tracks(pending, latencies, popped, h)
    ensures Sorted(Queue(pending, site))
  {
    hide Exact, Conserved, PublishLags;
    QueueSorted(pending, h, site);
  }

  lemma SameLags(queue: seq<Entry>, ev: Event)
    requires ev.Polled?
    ensures NewLags(queue, ev) == NewLags(queue, Polled([], ev.through, ev.now, ev.steady))
    ensures !ev.steady ==> NewLags(queue, ev) == []
  {
  }

  lemma QueueSorted(pending: map<Site, seq<Entry>>, h: seq<Event>, site: Site)
    requires Exact(pending, h)
    ensures Sorted(Queue(pending, site))
  {
    hide StableSort, NeverCovered;
    SortSorts(NeverCovered(h, |h|, site));
  }

  lemma RestExceeds(popped: seq<Entry>, rest: seq<Entry>, through: int)
    requires Sorted(popped + rest) && (rest != [] ==> rest[0].revision > through)
    ensures forall i :: 0 <= i < |rest| ==> rest[i].revision > through
  {
    forall i | 0 <= i < |rest| ensures rest[i].revision > through {
      assert (popped + rest)[|popped|] == rest[0] && (popped + rest)[|popped| + i] == rest[i];
    }
  }

  /** The lags pushed while draining are those the history asks for. */
  lemma PollLags(pending: map<Site, seq<Entry>>, h: seq<Event>, ev: Event)
    requires Exact(pending, h) && ev.Polled?
    ensures Together(PublishLags(h + [ev], |h| + 1), PublishLags(h, |h|), NewLags(Queue(pending, ev.site), ev))
  {
    hide PublishLags, NeverCovered, UpTo, Lags, StableSort;
    var left := NeverCovered(h, |h|, ev.site);
    PublishLagsNext(h, ev);
    CutSort(left, ev.through);
    SortLags(UpTo(left, ev.through), ev.now);
    assert Queue(pending, ev.site) == StableSort(left);
  }

  lemma Appended(whole: seq<int>, p: seq<int>, p': seq<int>, q: seq<int>)
    requires Together(whole, p, q) && multiset(p) == multiset(p')
    ensures multiset(whole) == multiset(p' + q)
  {
  }
}
