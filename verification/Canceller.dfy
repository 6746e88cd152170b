/** activeCommandCanceller: three maps under one lock, re-entrant tracking, one owning cleanup per id.

Models agent/cmd/breeze-backup/main.go. Each function is one critical section or one step outside
the lock, so that interleavings of many handlers can be built from them.
*/
module Canceller {
  import opened Contexts

  type Id = string

  /** A cleanup closure: it first deletes the id from the maps, then cancels and closes. */
  datatype Phase = Live | Deleted | Finished

  /** One `track` call: the context it returned and its cleanup, which does nothing unless it owns. */
  datatype Tracker = Tracker(id: Id, ctx: nat, owns: bool, chan: nat, phase: Phase)

  /** `owners` is history: the track call that registered each tracked id. `chans` are the done
      channels, true once closed. */
  datatype State = State(
    ctxs: seq<Ctx>, chans: seq<bool>,
    cancels: map<Id, nat>, contexts: map<Id, nat>, done: map<Id, nat>,
    trackers: seq<Tracker>, owners: map<Id, nat>)

  const Init: State := State([], [], map[], map[], map[], [], map[])

  /** track. The new tracker is the last one. */
  function Track(s: State, id: Id): (s': State) {
    if id in s.contexts then
      s.(trackers := s.trackers + [Tracker(id, s.contexts[id], false, 0, Live)])
    else
      var c, ch := |s.ctxs|, |s.chans|;
      s.(ctxs := s.ctxs + [Ctx(-1, false)], chans := s.chans + [false],
         cancels := s.cancels[id := c], contexts := s.contexts[id := c], done := s.done[id := ch],
         trackers := s.trackers + [Tracker(id, c, true, ch, Live)], owners := s.owners[id := |s.trackers|])
  }

  /** The cleanup's critical section; a non-owning cleanup is over at once. */
  function DeleteMaps(s: State, i: nat): (s': State)
    requires i < |s.trackers|
  {
    var t := s.trackers[i];
    if t.owns then
      s.(cancels := s.cancels - {t.id}, contexts := s.contexts - {t.id}, done := s.done - {t.id},
         owners := s.owners - {t.id}, trackers := s.trackers[i := t.(phase := Deleted)])
    else s.(trackers := s.trackers[i := t.(phase := Finished)])
  }

  /** The cleanup after the lock: cancel(); close(done). */
  function CloseDone(s: State, i: nat): (s': State)
    requires i < |s.trackers|
  {
    var t := s.trackers[i];
    if t.ctx < |s.ctxs| && t.chan < |s.chans| then
      s.(ctxs := CancelCtx(s.ctxs, t.ctx), chans := s.chans[t.chan := true],
         trackers := s.trackers[i := t.(phase := Finished)])
    else s
  }

  function Derive(s: State, c: nat): (s': State) {
    s.(ctxs := s.ctxs + [Ctx(c, false)])
  }

  /** rebind: untracked ids are ignored. */
  function Rebind(s: State, id: Id, c: nat): (s': State) {
    if id in s.contexts then s.(contexts := s.contexts[id := c]) else s
  }

  function CancelOne(s: State, c: nat): (s': State) {
    if c < |s.ctxs| then s.(ctxs := CancelCtx(s.ctxs, c)) else s
  }

  // ---------------------------------------------------------------- invariants

  ghost predicate SameKeys(s: State) {
    s.cancels.Keys == s.contexts.Keys == s.done.Keys == s.owners.Keys
  }

  /** The maps hold what the owning track call registered, and its cleanup has not begun. */
  ghost predicate EntryOk(s: State, id: Id) {
    && id in s.owners && id in s.cancels && id in s.contexts && id in s.done
    && s.owners[id] < |s.trackers|
    && s.contexts[id] < |s.ctxs|
    && var t := s.trackers[s.owners[id]];
    && t.id == id && t.owns && t.phase == Live && t.ctx == s.cancels[id] && t.chan == s.done[id]
  }

  ghost predicate EntriesOk(s: State) {
    forall id :: id in s.owners ==> EntryOk(s, id)
  }

  /** An owning cleanup that has not begun is the one its id is registered under; the channel is closed
      and the context done exactly from the moment the cleanup is over. */
  ghost predicate TrackerOk(s: State, i: nat)
    requires i < |s.trackers|
  {
    var t := s.trackers[i];
    && t.ctx < |s.ctxs|
    && (t.phase == Deleted ==> t.owns)
    && (t.owns ==>
          && t.chan < |s.chans|
          && (t.phase == Live ==> t.id in s.owners && s.owners[t.id] == i)
          && (s.chans[t.chan] <==> t.phase == Finished)
          && (t.phase == Finished ==> IsDone(s.ctxs, t.ctx)))
  }

  ghost predicate TrackersOk(s: State) {
    forall i: nat :: i < |s.trackers| ==> TrackerOk(s, i)
  }

  ghost predicate ChannelsDistinct(s: State) {
    forall i, j :: 0 <= i < j < |s.trackers| && s.trackers[i].owns && s.trackers[j].owns ==>
      s.trackers[i].chan != s.trackers[j].chan
  }

  ghost predicate Valid(s: State) {
    Forest(s.ctxs) && SameKeys(s) && EntriesOk(s) && TrackersOk(s) && ChannelsDistinct(s)
  }

  lemma InitValid()
    ensures Valid(Init)
  {
  }

  lemma TrackValid(s: State, id: Id)
    requires Valid(s)
    ensures Valid(Track(s, id))
  {
    hide TrackersOk, EntriesOk;
    TrackEntries(s, id);
    TrackTrackers(s, id);
    assert TrackersOk(s);
    TrackDistinct(s, id);
  }

  lemma TrackDistinct(s: State, id: Id)
    requires TrackersOk(s) && ChannelsDistinct(s)
    ensures ChannelsDistinct(Track(s, id))
  {
    forall i: nat | i < |s.trackers| && s.trackers[i].owns ensures s.trackers[i].chan < |s.chans| {
      assert TrackerOk(s, i);
    }
  }

  lemma TrackEntries(s: State, id: Id)
    requires SameKeys(s) && EntriesOk(s)
    ensures EntriesOk(Track(s, id))
  {
    var s' := Track(s, id);
    forall k | k in s'.owners ensures EntryOk(s', k) {
      if k in s.owners { assert EntryOk(s, k); }
    }
  }

  lemma TrackTrackers(s: State, id: Id)
    requires Forest(s.ctxs) && SameKeys(s) && EntriesOk(s) && TrackersOk(s)
    ensures TrackersOk(Track(s, id)) && Forest(Track(s, id).ctxs)
  {
    var s' := Track(s, id);
    if id in s.contexts { assert EntryOk(s, id); }
    forall i: nat | i < |s'.trackers| ensures TrackerOk(s', i) {
      if i < |s.trackers| {
        assert TrackerOk(s, i);
        ExtendKeeps(s.ctxs, Ctx(-1, false), s.trackers[i].ctx);
      }
    }
  }

  lemma DeleteMapsValid(s: State, i: nat)
    requires Valid(s) && i < |s.trackers| && s.trackers[i].phase == Live
    ensures Valid(DeleteMaps(s, i))
  {
    var s' := DeleteMaps(s, i);
    assert TrackerOk(s, i);
    forall k | k in s'.owners ensures EntryOk(s', k) {
      assert EntryOk(s, k);
    }
    forall j: nat | j < |s'.trackers| ensures TrackerOk(s', j) {
      assert TrackerOk(s, j);
    }
  }

  lemma DeletedOwns(s: State, i: nat)
    requires Valid(s) && i < |s.trackers| && s.trackers[i].phase == Deleted
    ensures s.trackers[i].owns
  {
    assert TrackerOk(s, i);
  }

  lemma CloseDoneValid(s: State, i: nat)
    requires Valid(s) && i < |s.trackers| && s.trackers[i].phase == Deleted && s.trackers[i].owns
    ensures Valid(CloseDone(s, i))
  {
    var s', t := CloseDone(s, i), s.trackers[i];
    assert TrackerOk(s, i);
    forall k | k in s'.owners ensures EntryOk(s', k) {
      assert EntryOk(s, k);
    }
    forall j: nat | j < |s'.trackers| ensures TrackerOk(s', j) {
      assert TrackerOk(s, j);
      CancelReach(s.ctxs, t.ctx, s.trackers[j].ctx);
    }
  }

  lemma DeriveValid(s: State, c: nat)
    requires Valid(s) && c < |s.ctxs|
    ensures Valid(Derive(s, c))
  {
    var s' := Derive(s, c);
    forall k | k in s'.owners ensures EntryOk(s', k) {
      assert EntryOk(s, k);
    }
    forall j: nat | j < |s'.trackers| ensures TrackerOk(s', j) {
      assert TrackerOk(s, j);
      ExtendKeeps(s.ctxs, Ctx(c, false), s.trackers[j].ctx);
    }
  }

  lemma RebindValid(s: State, id: Id, c: nat)
    requires Valid(s) && c < |s.ctxs|
    ensures Valid(Rebind(s, id, c))
  {
    var s' := Rebind(s, id, c);
    forall k | k in s'.owners ensures EntryOk(s', k) {
      assert EntryOk(s, k);
    }
    forall j: nat | j < |s'.trackers| ensures TrackerOk(s', j) {
      assert TrackerOk(s, j);
    }
  }

  lemma CancelOneValid(s: State, c: nat)
    requires Valid(s)
    ensures Valid(CancelOne(s, c))
  {
    var s' := CancelOne(s, c);
    forall k | k in s'.owners ensures EntryOk(s', k) {
      assert EntryOk(s, k);
    }
    forall j: nat | j < |s'.trackers| ensures TrackerOk(s', j) {
      assert TrackerOk(s, j);
      if c < |s.ctxs| { CancelReach(s.ctxs, c, s.trackers[j].ctx); }
    }
  }
}
