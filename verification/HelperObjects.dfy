/** The canceller and the queue as objects: each method is proved against the transition it performs. */
module HelperObjects {
  import opened Contexts
  import opened HelperSystem
  import opened QueueSafety
  import C = Canceller

  lemma CancelsBound(s: C.State)
    requires C.Valid(s)
    ensures forall id :: id in s.cancels ==> s.cancels[id] < |s.ctxs|
  {
    forall id | id in s.cancels ensures s.cancels[id] < |s.ctxs| {
      assert C.EntryOk(s, id) && C.TrackerOk(s, s.owners[id]);
    }
  }

  /** Reached from a context registered under one of `ids`. */
  ghost predicate Under(forest: seq<Ctx>, cancels: map<Id, nat>, ids: set<Id>, x: int) {
    exists id :: id in ids && id in cancels && Descends(forest, x, cancels[id])
  }

  /** `now` is `forest` with the contexts registered under `ids` cancelled: exactly their descendants ended. */
  ghost predicate EndedUnder(forest: seq<Ctx>, cancels: map<Id, nat>, ids: set<Id>, now: seq<Ctx>) {
    && |now| == |forest|
    && (forall x: int :: IsDone(now, x) <==> IsDone(forest, x) || Under(forest, cancels, ids, x))
    && (forall x: int, e: int :: Descends(now, x, e) <==> Descends(forest, x, e))
  }

  lemma CancelNone(forest: seq<Ctx>, cancels: map<Id, nat>)
    ensures EndedUnder(forest, cancels, cancels.Keys - cancels.Keys, forest)
  {
    hide IsDone, Descends;
  }

  lemma CancelOneMore(forest: seq<Ctx>, cancels: map<Id, nat>, ids: set<Id>, now: seq<Ctx>, id: Id)
    requires EndedUnder(forest, cancels, ids, now) && id in cancels && cancels[id] < |forest|
    ensures EndedUnder(forest, cancels, ids + {id}, CancelCtx(now, cancels[id]))
  {
    hide IsDone, Descends;
    var now' := CancelCtx(now, cancels[id]);
    forall x: int, e: int ensures Descends(now', x, e) <==> Descends(forest, x, e) {
      CancelReach(now, cancels[id], x);
    }
    forall x: int ensures IsDone(now', x) <==> IsDone(forest, x) || Under(forest, cancels, ids + {id}, x) {
      CancelReach(now, cancels[id], x);
      assert Under(forest, cancels, ids + {id}, x) <==> Under(forest, cancels, ids, x) || Descends(forest, x, cancels[id]);
    }
  }

  /** The ticket's cleanup, between taking and leaving the queue lock. */
  lemma CleanupValue(s: State, t: nat)
    requires t < |s.tickets| && s.lock == -1 && s.tickets[t].tracker < |s.canc.trackers|
    ensures var k := s.tickets[t];
            var forgotten := C.DeleteMaps(s.canc, k.tracker);
            HandlerStep(HandlerStep(s, t, BeginRelease), t, EndRelease)
              == s.(canc := if s.canc.trackers[k.tracker].owns then C.CloseDone(forgotten, k.tracker) else forgotten,
                    entries := s.entries - {k.id}, tickets := s.tickets[t := k.(pc := Selecting)])
  {
    hide C.CloseDone;
  }

  lemma SelectValue(s: State, t: nat)
    requires t < |s.tickets|
    ensures PrevClosed(s.tickets, t) ==>
              HandlerStep(s, t, ParkedClose)
                == s.(tickets := s.tickets[t := s.tickets[t].(pc := Closed, closes := s.tickets[t].closes + 1)])
    ensures var k := s.tickets[t];
            HandlerStep(s, t, Select)
              == s.(tickets := s.tickets[t := if PrevClosed(s.tickets, t) then k.(pc := Closed, closes := k.closes + 1)
                                              else k.(pc := Parked)])
  {
  }

  lemma ParkedSafe(s: State, t: nat)
    requires t < |s.tickets| && s.tickets[t].pc == Parked && PrevClosed(s.tickets, t)
    ensures Safe(s) ==> Safe(HandlerStep(s, t, ParkedClose))
  {
    hide Safe, HandlerStep, PrevClosed;
    if Safe(s) { StepSafe(s, Handler(t, ParkedClose)); }
  }

  lemma EndsBelow(ctxs: seq<Ctx>, c: nat)
    requires c < |ctxs|
    ensures forall x: int :: IsDone(CancelCtx(ctxs, c), x) <==> IsDone(ctxs, x) || Descends(ctxs, x, c)
  {
    forall x: int ensures IsDone(CancelCtx(ctxs, c), x) <==> IsDone(ctxs, x) || Descends(ctxs, x, c) {
      CancelReach(ctxs, c, x);
    }
  }

  lemma FreshIsLive(ctxs: seq<Ctx>)
    ensures !IsDone(ctxs + [Ctx(-1, false)], |ctxs|)
  {
  }

  class ActiveCommandCanceller {
    var cancels: map<Id, nat>
    var contexts: map<Id, nat>
    var done: map<Id, nat>
    var ctxs: seq<Ctx>
    var chans: seq<bool>
    var trackers: seq<C.Tracker>
    ghost var owners: map<Id, nat>

    ghost function View(): C.State
      reads this
    {
      C.State(ctxs, chans, cancels, contexts, done, trackers, owners)
    }

    constructor ()
      ensures View() == C.Init
    {
      cancels, contexts, done, ctxs, chans, trackers, owners := map[], map[], map[], [], [], [], map[];
    }

    /** A second track of an id returns the context handed out for it with a cleanup that does nothing. */
    method Track(id: Id) returns (tracker: nat, ctx: nat)
      modifies this
      ensures View() == C.Track(old(View()), id)
      ensures tracker == old(|trackers|) && trackers[tracker].ctx == ctx
      ensures trackers[tracker].owns <==> id !in old(contexts)
      ensures id in old(contexts) ==>
                ctx == old(contexts)[id] && contexts == old(contexts) && cancels == old(cancels) && done == old(done)
      ensures id !in old(contexts) ==>
                && ctx == old(|ctxs|) && !IsDone(ctxs, ctx) && |chans| == old(|chans|) + 1 && !chans[old(|chans|)]
                && contexts == old(contexts)[id := ctx] && cancels == old(cancels)[id := ctx]
                && done == old(done)[id := old(|chans|)]
      ensures C.Valid(old(View())) ==> C.Valid(View())
    {
      ghost var before := View();
      FreshIsLive(ctxs);
      if C.Valid(before) { C.TrackValid(before, id); }
      hide IsDone, C.Valid;
      tracker := |trackers|;
      if id in contexts {
        ctx := contexts[id];
        trackers := trackers + [C.Tracker(id, ctx, false, 0, C.Live)];
      } else {
        ctx := |ctxs|;
        contexts := contexts[id := ctx];
        cancels := cancels[id := ctx];
        done := done[id := |chans|];
        owners := owners[id := tracker];
        trackers := trackers + [C.Tracker(id, ctx, true, |chans|, C.Live)];
        ctxs := ctxs + [Ctx(-1, false)];
        chans := chans + [false];
      }
    }

    /** The cleanup's critical section: an owning cleanup takes its id, and no other, out of every map, and
        nothing is cancelled or closed yet. */
    method Forget(i: nat)
      requires i < |trackers|
      modifies this
      ensures View() == C.DeleteMaps(old(View()), i)
      ensures ctxs == old(ctxs) && chans == old(chans)
      ensures var id := old(trackers[i]).id;
              if old(trackers[i]).owns then
                && id !in cancels && id !in contexts && id !in done
                && contexts == old(contexts) - {id} && cancels == old(cancels) - {id} && done == old(done) - {id}
              else contexts == old(contexts) && cancels == old(cancels) && done == old(done)
      ensures old(C.Valid(View()) && trackers[i].phase == C.Live) ==> C.Valid(View())
    {
      if C.Valid(View()) && trackers[i].phase == C.Live { C.DeleteMapsValid(View(), i); }
      hide C.Valid;
      var t := trackers[i];
      if t.owns {
        cancels := cancels - {t.id};
        contexts := contexts - {t.id};
        done := done - {t.id};
        owners := owners - {t.id};
        trackers := trackers[i := t.(phase := C.Deleted)];
      } else {
        trackers := trackers[i := t.(phase := C.Finished)];
      }
    }

    /** The rest of an owning cleanup: its channel is closed, exactly its context's descendants end, and
        the maps are not touched again. */
    method Close(i: nat)
      requires i < |trackers| && trackers[i].ctx < |ctxs| && trackers[i].chan < |chans|
      modifies this
      ensures View() == C.CloseDone(old(View()), i)
      ensures cancels == old(cancels) && contexts == old(contexts) && done == old(done)
      ensures |chans| == old(|chans|)
      ensures forall c :: 0 <= c < |chans| ==> (chans[c] <==> old(chans)[c] || c == old(trackers[i]).chan)
      ensures forall x: int :: IsDone(ctxs, x) <==> IsDone(old(ctxs), x) || Descends(old(ctxs), x, old(trackers[i]).ctx)
      ensures old(C.Valid(View()) && trackers[i].phase == C.Deleted) ==> C.Valid(View())
    {
      if C.Valid(View()) && trackers[i].phase == C.Deleted {
        C.DeletedOwns(View(), i);
        C.CloseDoneValid(View(), i);
      }
      EndsBelow(ctxs, trackers[i].ctx);
      hide C.Valid, IsDone, Descends;
      var t := trackers[i];
      ctxs := ctxs[t.ctx := ctxs[t.ctx].(cancelled := true)];
      chans := chans[t.chan := true];
      trackers := trackers[i := t.(phase := C.Finished)];
    }

    /** The context handed out from now on; which ids are tracked, and what cancel reaches, stays. */
    method Rebind(id: Id, ctx: nat)
      modifies this`contexts
      ensures View() == C.Rebind(old(View()), id, ctx)
      ensures contexts.Keys == old(contexts.Keys)
      ensures forall k :: k in contexts ==> contexts[k] == if k == id then ctx else old(contexts)[k]
      ensures old(C.Valid(View())) && ctx < |ctxs| ==> C.Valid(View())
    {
      if C.Valid(View()) && ctx < |ctxs| { C.RebindValid(View(), id, ctx); }
      hide C.Valid;
      if id !in contexts { return; }
      contexts := contexts[id := ctx];
    }

    /** Ends exactly what descends from the registered context, and reports whether there was one. */
    method Cancel(id: Id) returns (tracked: bool)
      requires C.Valid(View())
      modifies this`ctxs
      ensures tracked <==> id in cancels
      ensures !tracked ==> ctxs == old(ctxs)
      ensures tracked ==> View() == C.CancelOne(old(View()), cancels[id])
      ensures tracked ==> forall x: int ::
                IsDone(ctxs, x) <==> old(IsDone(ctxs, x)) || Descends(old(ctxs), x, cancels[id])
    {
      tracked := id in cancels;
      if tracked {
        CancelsBound(View());
        var c := cancels[id];
        EndsBelow(ctxs, c);
        ctxs := ctxs[c := ctxs[c].(cancelled := true)];
      }
    }

    /** Ends exactly what descends from some registered context; the maps stay as they are. */
    method CancelAll() returns (any: bool)
      requires C.Valid(View())
      modifies this`ctxs
      ensures any <==> |cancels| > 0
      ensures EndedUnder(old(ctxs), cancels, cancels.Keys, ctxs)
    {
      hide EndedUnder, C.Valid;
      ghost var before := ctxs;
      CancelsBound(View());
      CancelNone(ctxs, cancels);
      any := |cancels| > 0;
      var left := cancels.Keys;
      while left != {}
        invariant left <= cancels.Keys && |ctxs| == |before|
        invariant EndedUnder(before, cancels, cancels.Keys - left, ctxs)
        decreases |left|
      {
        var id :| id in left;
        CancelOneMore(before, cancels, cancels.Keys - left, ctxs, id);
        assert cancels.Keys - left + {id} == cancels.Keys - (left - {id});
        ctxs := CancelCtx(ctxs, cancels[id]);
        left := left - {id};
      }
      assert cancels.Keys - {} == cancels.Keys;
    }
  }

  class BackupExecutionQueue {
    const canceller: ActiveCommandCanceller
    var tail: int
    var entries: map<Id, nat>
    var lock: int
    var tickets: seq<Ticket>
    ghost var homes: seq<Home>
    ghost var stops: seq<Stop>

    ghost function View(): State
      reads this, canceller
    {
      State(canceller.View(), homes, entries, tail, lock, tickets, stops)
    }

    constructor (c: ActiveCommandCanceller)
      requires c.View() == C.Init
      ensures canceller == c && View() == Init
    {
      canceller, tail, entries, lock, tickets, homes, stops := c, -1, map[], -1, [], [], [];
    }

    /** A duplicate id is refused and changes nothing, in the queue or in the canceller. */
    method Enqueue(id: Id, async: bool, native: bool) returns (ticket: int)
      requires lock == -1
      modifies this, canceller
      ensures View() == Apply(old(View()), HelperSystem.Enqueue(id, async, native))
      ensures ticket == if id in old(entries) then -1 else old(|tickets|)
      ensures id in old(entries) ==> View() == old(View())
    {
      if id in entries { return -1; }
      var tracker, _ := canceller.Track(id);
      ticket := |tickets|;
      homes := homes + [ByTicket(ticket)];
      tickets := tickets + [Ticket(id, tail, tracker, async, native, if async then Ack else Announce,
                                   false, -1, -1, Off, 0, [])];
      entries := entries[id := ticket];
      tail := ticket;
    }

    /** ticket.cleanup, which runs under the queue lock. */
    method Cleanup(t: nat)
      requires lock == -1 && t < |tickets| && tickets[t].pc == Pc.Release
      requires C.Valid(canceller.View()) && tickets[t].tracker < |canceller.trackers|
      modifies this, canceller
      ensures View() == HandlerStep(HandlerStep(old(View()), t, BeginRelease), t, EndRelease)
      ensures lock == -1 && tickets == old(tickets)[t := old(tickets)[t].(pc := Selecting)]
    {
      hide HandlerStep;
      var k := tickets[t];
      CleanupValue(View(), t);
      assert C.TrackerOk(canceller.View(), k.tracker);
      canceller.Forget(k.tracker);
      if canceller.trackers[k.tracker].owns { canceller.Close(k.tracker); }
      entries := entries - {k.id};
      tickets := tickets[t := k.(pc := Selecting)];
    }

    /** release: the cleanup, then close at once or leave the close to a parked goroutine. */
    method Release(t: nat)
      requires lock == -1 && t < |tickets| && tickets[t].pc == Pc.Release
      requires C.Valid(canceller.View()) && tickets[t].tracker < |canceller.trackers|
      modifies this, canceller
      ensures View() == HandlerStep(HandlerStep(HandlerStep(old(View()), t, BeginRelease), t, EndRelease), t, Select)
      ensures tickets[t].pc == if PrevClosed(old(tickets), t) then Closed else Parked
    {
      hide HandlerStep;
      Cleanup(t);
      SelectValue(View(), t);
      var k := tickets[t];
      if PrevClosed(tickets, t) {
        tickets := tickets[t := k.(pc := Closed, closes := k.closes + 1)];
      } else {
        tickets := tickets[t := k.(pc := Parked)];
      }
    }

    /** The parked goroutine, once the predecessor is closed: one close of one channel, and the queue's
        order, index and lock invariants hold as before. */
    method CloseParked(t: nat)
      requires t < |tickets| && tickets[t].pc == Parked && PrevClosed(tickets, t)
      modifies this`tickets
      ensures View() == HandlerStep(old(View()), t, ParkedClose)
      ensures |tickets| == old(|tickets|) && tickets[t].pc == Closed && tickets[t].closes == old(tickets[t].closes) + 1
      ensures forall u :: 0 <= u < |tickets| && u != t ==> tickets[u] == old(tickets)[u]
      ensures old(Safe(View())) ==> Safe(View())
    {
      hide HandlerStep, Safe, PrevClosed;
      ParkedSafe(View(), t);
      SelectValue(View(), t);
      tickets := tickets[t := tickets[t].(pc := Closed, closes := tickets[t].closes + 1)];
    }
  }
}
