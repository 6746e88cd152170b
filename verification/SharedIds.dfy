/** Ids that several commands track: exactly which queued commands cancel and backup_stop can be trusted with. */
module SharedIds {
  import opened Contexts
  import opened HelperSystem
  import opened QueueSafety
  import opened MessageProtocol
  import opened CancelSafety
  import opened StopSafety
  import opened QueueProgress
  import C = Canceller

  // ---------------------------------------------------------------- whose tracker is whose

  /** A ticket's tracker names it, and so does the live one of its run(). */
  predicate HomeOk(s: State, i: nat)
    requires i < |s.homes|
  {
    match s.homes[i]
    case ByTicket(t) => t < |s.tickets| && s.tickets[t].tracker == i
    case ByInner(t) =>
      (i < |s.canc.trackers| && s.canc.trackers[i].phase == C.Live) ==>
        t < |s.tickets| && HasInner(s.tickets[t].pc) && s.tickets[t].inner == i
    case Other => true
  }

  ghost predicate HomesOk(s: State) {
    forall i: nat :: i < |s.homes| ==> HomeOk(s, i)
  }

  /** A handler leaves run() only once its own tracker's cleanup has begun. */
  lemma InnerStays(s: State, t: nat, op: Op)
    requires t < |s.tickets| && OpEnabled(s, t, op) && LogOk(s.tickets[t]) && TicketLinked(s, t)
    requires HasInner(s.tickets[t].pc)
    ensures var k, k' := s.tickets[t], NewTicket(s, t, op);
            CancOp(s, t, op).trackers[k.inner].phase == C.Live ==> HasInner(k'.pc) && k'.inner == k.inner
  {
    hide NewTicket, LogOk, PrevClosed, CtxDone, HoldsGuard, IsDone, PhaseOk, C.Track, C.Derive, C.Rebind;
    if op != DeleteInner && op != CloseInner { StaysInRun(s, t, op); }
  }

  lemma StaysInRun(s: State, t: nat, op: Op)
    requires t < |s.tickets| && OpEnabled(s, t, op) && LogOk(s.tickets[t])
    requires HasInner(s.tickets[t].pc) && op != DeleteInner && op != CloseInner
    ensures HasInner(NewTicket(s, t, op).pc) && NewTicket(s, t, op).inner == s.tickets[t].inner
  {
    hide LogOk, PrevClosed, CtxDone, HoldsGuard, Owns;
    BeatsInRun(s.tickets[t]);
  }

  lemma HandlerHomes(s: State, t: nat, op: Op)
    requires HomesOk(s) && LinksOk(s) && t < |s.tickets| && OpEnabled(s, t, op) && LogOk(s.tickets[t])
    ensures HomesOk(HandlerStep(s, t, op))
  {
    hide C.Valid, CancOp, NewTicket, LogOk, OpEnabled, PhaseOk;
    var s' := HandlerStep(s, t, op);
    OpTouches(s, t, op);
    OpEvolves(s, t, op);
    SameTracker(s, t, op);
    assert TicketLinked(s, t);
    forall i: nat | i < |s'.homes| ensures HomeOk(s', i) {
      if i < |s.homes| {
        assert HomeOk(s, i);
        assert TrackerEvolves(s.canc.trackers[i], s'.canc.trackers[i]);
        if s.homes[i] == ByInner(t) && HasInner(s.tickets[t].pc) && s.tickets[t].inner == i { InnerStays(s, t, op); }
      } else {
        NewInner(s, t);
      }
    }
  }

  lemma SameTracker(s: State, t: nat, op: Op)
    requires t < |s.tickets|
    ensures NewTicket(s, t, op).tracker == s.tickets[t].tracker && NewTicket(s, t, op).id == s.tickets[t].id
  {
  }

  lemma NewInner(s: State, t: nat)
    requires t < |s.tickets|
    ensures var k' := NewTicket(s, t, TrackAgain); HasInner(k'.pc) && k'.inner == |s.canc.trackers|
  {
  }

  lemma StepHomes(s: State, step: Step)
    requires HomesOk(s) && LinksOk(s) && LogsOk(s) && Enabled(s, step)
    ensures HomesOk(Apply(s, step))
  {
    hide C.Valid, LogOk, HandlerStep, OpEnabled, C.Track, C.DeleteMaps, C.CloseDone, C.CancelOne, PhaseOk, TicketLinked, Evolves;
    match step
    case Handler(t, op) => HandlerHomes(s, t, op);
    case Enqueue(id, async, native) => AdmitHomes(s, id, async, native);
    case _ => OtherHomes(s, step);
  }

  lemma AdmitHomes(s: State, id: Id, async: bool, native: bool)
    requires HomesOk(s) && LinksOk(s)
    ensures HomesOk(Admit(s, id, async, native))
  {
    hide C.Valid, C.Track, PhaseOk, TicketLinked;
    var s' := Admit(s, id, async, native);
    TrackEvolves(s.canc, id);
    forall i: nat | i < |s'.homes| ensures HomeOk(s', i) {
      if i < |s.homes| {
        assert HomeOk(s, i);
        if id !in s.entries { assert TrackerEvolves(s.canc.trackers[i], s'.canc.trackers[i]); }
      }
    }
  }

  lemma OtherHomes(s: State, step: Step)
    requires HomesOk(s) && LinksOk(s) && Enabled(s, step) && !step.Handler? && !step.Enqueue?
    ensures HomesOk(Apply(s, step))
  {
    hide C.Valid, C.Track, C.DeleteMaps, C.CloseDone, C.CancelOne, PhaseOk, TicketLinked;
    var s' := Apply(s, step);
    StepEvolves(s, step);
    forall i: nat | i < |s'.homes| ensures HomeOk(s', i) {
      if i < |s.homes| {
        assert HomeOk(s, i);
        assert TrackerEvolves(s.canc.trackers[i], s'.canc.trackers[i]);
      }
    }
  }

  // ---------------------------------------------------------------- what a stop has seen

  predicate NotFound(phase: StopPhase) {
    phase.Reported? && !phase.stopped
  }

  /** A queued command of the stop's id, admitted before the stop and owning the id, is the run the stop
      found or is past its terminal send. */
  predicate SeenTicket(s: State, p: Stop, t: nat)
    requires t < |s.tickets|
  {
    (t < p.seen && s.tickets[t].id == p.id && Owns(s, s.tickets[t].tracker)) ==>
      Past(s.tickets[t]) || (!NotFound(p.phase) && s.tickets[t].tracker == p.phase.victim)
  }

  ghost predicate StopSeen(s: State, n: nat)
    requires n < |s.stops|
  {
    s.stops[n].seen <= |s.tickets| && forall t: nat :: t < |s.tickets| ==> SeenTicket(s, s.stops[n], t)
  }

  ghost predicate SeensOk(s: State) {
    forall n: nat :: n < |s.stops| ==> StopSeen(s, n)
  }

  /** What no step changes about a ticket. */
  ghost predicate SameTicket(s: State, s': State, t: nat)
    requires t < |s.tickets|
  {
    && t < |s'.tickets|
    && s'.tickets[t].id == s.tickets[t].id && s'.tickets[t].tracker == s.tickets[t].tracker
    && (Owns(s', s.tickets[t].tracker) <==> Owns(s, s.tickets[t].tracker))
    && (Past(s.tickets[t]) ==> Past(s'.tickets[t]))
  }

  /** What no step changes about a stop. */
  predicate SameStop(s: State, s': State, n: nat)
    requires n < |s.stops|
  {
    && n < |s'.stops|
    && s'.stops[n].id == s.stops[n].id && s'.stops[n].seen == s.stops[n].seen
    && s'.stops[n].phase.victim == s.stops[n].phase.victim
    && (NotFound(s'.stops[n].phase) <==> NotFound(s.stops[n].phase))
  }

  lemma StepTicket(s: State, step: Step, t: nat)
    requires LinksOk(s) && LogsOk(s) && Enabled(s, step) && t < |s.tickets|
    ensures SameTicket(s, Apply(s, step), t)
  {
    hide C.Valid, LogOk, OpEnabled, NewTicket, CancOp, PhaseOk, Past, C.Track, C.DeleteMaps, C.CloseDone, C.CancelOne;
    StepEvolves(s, step);
    assert TicketLinked(s, t);
    assert TrackerEvolves(s.canc.trackers[s.tickets[t].tracker], Apply(s, step).canc.trackers[s.tickets[t].tracker]);
    if step.Handler? && step.t == t {
      SameTracker(s, t, step.op);
      if Past(s.tickets[t]) { PastIsQuiet(s, t, step.op); }
    }
  }

  lemma StepStop(s: State, step: Step, n: nat)
    requires Enabled(s, step) && n < |s.stops|
    ensures SameStop(s, Apply(s, step), n)
  {
    hide HandlerStep, Admit, OpEnabled;
    if step.Handler? || step.Enqueue? { SameStops(s, step); }
  }

  lemma BeginSeen(s: State, id: Id)
    requires LinksOk(s)
    ensures StopSeen(Apply(s, StopBegin(id)), |s.stops|)
  {
    hide IsDone;
    var s' := Apply(s, StopBegin(id));
    forall t: nat | t < |s'.tickets| ensures SeenTicket(s', s'.stops[|s.stops|], t) {
      assert TicketLinked(s, t);
      assert C.TrackerOk(s.canc, s.tickets[t].tracker);
    }
  }

  lemma StepSeens(s: State, step: Step)
    requires SeensOk(s) && LinksOk(s) && LogsOk(s) && Enabled(s, step)
    ensures SeensOk(Apply(s, step))
  {
    hide Apply, Enabled, LinksOk, LogsOk;
    var s' := Apply(s, step);
    if step.StopBegin? { BeginSeen(s, step.id); }
    StepGrows(s, step);
    forall n: nat | n < |s'.stops| ensures StopSeen(s', n) {
      if n < |s.stops| {
        assert StopSeen(s, n);
        StepStop(s, step, n);
        SeenFrame(s, step, n);
      }
    }
  }

  lemma StepGrows(s: State, step: Step)
    requires Enabled(s, step)
    ensures |s.tickets| <= |Apply(s, step).tickets|
    ensures |s.stops| <= |Apply(s, step).stops| <= |s.stops| + if step.StopBegin? then 1 else 0
  {
    hide NewTicket, CancOp, OpEnabled;
  }

  lemma SeenFrame(s: State, step: Step, n: nat)
    requires LinksOk(s) && LogsOk(s) && Enabled(s, step) && n < |s.stops| && StopSeen(s, n)
    requires SameStop(s, Apply(s, step), n) && |s.tickets| <= |Apply(s, step).tickets|
    ensures StopSeen(Apply(s, step), n)
  {
    hide Apply, Enabled, LinksOk, LogsOk, Past, Owns;
    var s' := Apply(s, step);
    forall t: nat | t < |s'.tickets| ensures SeenTicket(s', s'.stops[n], t) {
      if t < |s.tickets| {
        assert SeenTicket(s, s.stops[n], t);
        StepTicket(s, step, t);
      }
    }
  }

  // ---------------------------------------------------------------- every run

  /** Everything the system keeps, ownership included. */
  ghost predicate Shared(s: State) {
    All(s) && HomesOk(s) && SeensOk(s)
  }

  lemma StepShared(s: State, step: Step)
    requires Shared(s) && Enabled(s, step)
    ensures Shared(Apply(s, step))
  {
    hide HomesOk, SeensOk, Apply, Enabled, Safe, LogsOk, LinksOk, StopsOk, HandedOk;
    StepAll(s, step);
    StepHomes(s, step);
    StepSeens(s, step);
  }

  lemma {:induction false} RunShared(s: State, steps: seq<Step>)
    requires Shared(s) && Legal(s, steps)
    ensures Shared(Run(s, steps))
    decreases |steps|
  {
    hide Shared, Apply, Enabled;
    if steps != [] {
      StepShared(s, steps[0]);
      RunShared(Apply(s, steps[0]), steps[1..]);
    }
  }

  lemma Reachable(steps: seq<Step>)
    requires Legal(Init, steps)
    ensures Shared(Run(Init, steps))
  {
    hide All, Apply, Enabled;
    InitAll();
    RunShared(Init, steps);
  }

  lemma {:induction false} RunTicket(s: State, steps: seq<Step>, t: nat)
    requires All(s) && Legal(s, steps) && t < |s.tickets|
    ensures SameTicket(s, Run(s, steps), t)
    decreases |steps|
  {
    hide Apply, Enabled, Past, Owns, Safe, StopsOk, HandedOk, TicketLinked, C.Valid, LogOk;
    if steps != [] {
      StepTicket(s, steps[0], t);
      StepAll(s, steps[0]);
      RunTicket(Apply(s, steps[0]), steps[1..], t);
    }
  }

  lemma {:induction false} RunStop(s: State, steps: seq<Step>, n: nat)
    requires Legal(s, steps) && n < |s.stops|
    ensures SameStop(s, Run(s, steps), n)
    decreases |steps|
  {
    hide Apply, Enabled, NotFound;
    if steps != [] {
      StepStop(s, steps[0], n);
      RunStop(Apply(s, steps[0]), steps[1..], n);
    }
  }

  lemma {:induction false} RunConcat(s: State, a: seq<Step>, b: seq<Step>)
    ensures Legal(s, a) && Legal(Run(s, a), b) ==> Legal(s, a + b) && Run(s, a + b) == Run(Run(s, a), b)
    decreases |a|
  {
    hide Apply, Enabled;
    if a == [] {
      assert a + b == b;
    } else if Enabled(s, a[0]) {
      assert (a + b)[0] == a[0] && (a + b)[1..] == a[1..] + b;
      RunConcat(Apply(s, a[0]), a[1..], b);
    }
  }

  lemma RunOne(s: State, step: Step)
    requires Enabled(s, step)
    ensures Legal(s, [step]) && Run(s, [step]) == Apply(s, step)
  {
    hide Apply, Enabled;
    assert [step][1..] == [];
  }

  // ---------------------------------------------------------------- who owns an id

  /** The live owner of a tracked id is another command, the ticket of that id, or the ticket's own run(). */
  lemma OwnerOfId(s: State, id: Id)
    requires Shared(s) && id in s.canc.contexts
    ensures id in s.canc.owners && id in s.canc.cancels && id in s.canc.done
    ensures var v := s.canc.owners[id];
            && v < |s.canc.trackers| == |s.homes| && s.canc.trackers[v].id == id
            && s.canc.trackers[v].owns && s.canc.trackers[v].phase == C.Live
            && (s.homes[v] == Other ||
                (id in s.entries && s.entries[id] < |s.tickets| && s.tickets[s.entries[id]].id == id &&
                 var k := s.tickets[s.entries[id]];
                 k.tracker == v || (HasInner(k.pc) && k.inner == v)))
  {
    hide Safe, LogsOk, StopsOk, HandedOk, SeensOk, IsDone;
    assert C.EntryOk(s.canc, id);
    var v := s.canc.owners[id];
    assert HomeOk(s, v);
    match s.homes[v]
    case ByTicket(t) =>
      assert TicketLinked(s, t);
      Indexed(s, t);
    case ByInner(t) =>
      assert TicketLinked(s, t);
      Indexed(s, t);
    case Other =>
  }

  lemma Indexed(s: State, t: nat)
    requires Safe(s) && t < |s.tickets|
    ensures !s.tickets[t].pc.AfterRelease() ==> s.tickets[t].id in s.entries && s.entries[s.tickets[t].id] == t
  {
    assert IndexedOk(s, t);
  }

  // ---------------------------------------------------------------- cancel

  /** In every continuation of s in which ticket t has not sent its terminal, cancel reaches it. */
  ghost predicate AlwaysReached(s: State, t: nat) {
    forall more :: Legal(s, more) && t < |Run(s, more).tickets| && !Past(Run(s, more).tickets[t]) ==>
      CancelReaches(Run(s, more), t)
  }

  lemma OwningAlwaysReached(s: State, t: nat)
    requires Shared(s) && t < |s.tickets| && Owns(s, s.tickets[t].tracker)
    ensures AlwaysReached(s, t)
  {
    hide All, HomesOk, SeensOk, Apply, Enabled, CancelReaches, Past, Owns;
    forall more | Legal(s, more) && t < |Run(s, more).tickets| && !Past(Run(s, more).tickets[t])
      ensures CancelReaches(Run(s, more), t)
    {
      RunTicket(s, more, t);
      RunAll(s, more);
      HandedOutIsReached(Run(s, more), t);
    }
  }

  /** The new ticket of an admission. */
  lemma Admitted(s: State, id: Id, async: bool, native: bool)
    requires Shared(s) && s.lock == -1 && id !in s.entries
    ensures Enabled(s, Enqueue(id, async, native))
    ensures var s' := Apply(s, Enqueue(id, async, native));
            && |s'.tickets| == |s.tickets| + 1
            && s'.tickets[|s.tickets|].id == id && !Past(s'.tickets[|s.tickets|])
            && (Owns(s', s'.tickets[|s.tickets|].tracker) <==> id !in s.canc.contexts)
            && (id in s.canc.contexts ==>
                  s'.canc.owners == s.canc.owners && s.homes <= s'.homes && s.canc.trackers <= s'.canc.trackers)
  {
  }

  /** Another command's cleanup of a shared id leaves nothing for cancel to find. */
  lemma OwnerLeaves(s: State, id: Id, t: nat)
    requires C.Valid(s.canc) && t < |s.tickets| && s.tickets[t].id == id
    requires id in s.canc.owners && Enabled(s, OtherDelete(s.canc.owners[id]))
    ensures var s' := Apply(s, OtherDelete(s.canc.owners[id]));
            s'.tickets == s.tickets && !CancelReaches(s', t)
  {
    hide IsDone;
    assert C.EntryOk(s.canc, id);
  }

  /** A backup about to be admitted will be reached by every cancel of its id until its terminal send, in
      every continuation, exactly when no other command tracks the id. */
  lemma CancelReachesIff(steps: seq<Step>, id: Id, async: bool, native: bool)
    requires Legal(Init, steps) && Run(Init, steps).lock == -1 && id !in Run(Init, steps).entries
    ensures var s := Run(Init, steps);
            && Enabled(s, Enqueue(id, async, native))
            && (AlwaysReached(Apply(s, Enqueue(id, async, native)), |s.tickets|) <==> id !in s.canc.contexts)
  {
    hide Apply, Enabled, Shared, CancelReaches, Past, Owns, AlwaysReached;
    Reachable(steps);
    var s, t := Run(Init, steps), |Run(Init, steps).tickets|;
    Admitted(s, id, async, native);
    var s' := Apply(s, Enqueue(id, async, native));
    StepShared(s, Enqueue(id, async, native));
    if id in s.canc.contexts {
      SharedMissed(s, id, async, native);
    } else {
      OwningAlwaysReached(s', t);
    }
  }

  lemma SharedMissed(s: State, id: Id, async: bool, native: bool)
    requires Shared(s) && s.lock == -1 && id !in s.entries && id in s.canc.contexts
    ensures Enabled(s, Enqueue(id, async, native))
    ensures !AlwaysReached(Apply(s, Enqueue(id, async, native)), |s.tickets|)
  {
    hide Apply, Shared, CancelReaches, Past, Owns;
    Admitted(s, id, async, native);
    OwnerOfId(s, id);
    var s' := Apply(s, Enqueue(id, async, native));
    StepShared(s, Enqueue(id, async, native));
    SharedValid(s');
    var v := s.canc.owners[id];
    assert s'.canc.trackers[v] == s.canc.trackers[v] && s'.homes[v] == s.homes[v];
    OwnerLeaves(s', id, |s.tickets|);
    RunOne(s', OtherDelete(v));
    assert !CancelReaches(Run(s', [OtherDelete(v)]), |s.tickets|);
  }

  lemma SharedValid(s: State)
    requires Shared(s)
    ensures C.Valid(s.canc)
  {
  }

  // ---------------------------------------------------------------- backup_stop

  predicate SaysDrained(s: State, n: nat) {
    n < |s.stops| && s.stops[n].phase.Reported? && s.stops[n].phase.stopped && s.stops[n].phase.drained
  }

  lemma SeenIsPast(s: State, n: nat, t: nat)
    requires Shared(s) && SaysDrained(s, n) && t < s.stops[n].seen && t < |s.tickets|
    requires s.tickets[t].id == s.stops[n].id && Owns(s, s.tickets[t].tracker)
    ensures Past(s.tickets[t])
  {
    hide Safe, LogsOk, HandedOk, HomesOk, IsDone;
    assert StopSeen(s, n) && SeenTicket(s, s.stops[n], t);
    assert StopOk(s.canc, s.stops[n]) && TicketLinked(s, t);
  }

  /** What a stop's report says about the run it cancelled and about the queued commands of its id that
      were admitted before it and own the id. */
  ghost predicate StopPromise(s: State, p: Stop)
    requires p.phase.Reported?
  {
    var v := p.phase.victim;
    && v < |s.canc.trackers| && s.canc.trackers[v].id == p.id
    && IsDone(s.canc.ctxs, s.canc.trackers[v].ctx)
    && (p.phase.drained ==>
          && s.canc.trackers[v].phase != C.Live
          && forall t: nat :: t < |s.tickets| && (s.tickets[t].tracker == v || SeenOwning(s, p, t)) ==>
               Past(s.tickets[t]) && (s.tickets[t].log == [] || Follows(s.tickets[t], true)))
  }

  predicate SeenOwning(s: State, p: Stop, t: nat)
    requires t < |s.tickets|
  {
    t < p.seen && s.tickets[t].id == p.id && Owns(s, s.tickets[t].tracker)
  }

  lemma VictimIsPast(s: State, n: nat, t: nat)
    requires All(s) && SaysDrained(s, n) && t < |s.tickets| && s.tickets[t].tracker == s.stops[n].phase.victim
    ensures Past(s.tickets[t])
  {
    hide Safe, LogsOk, HandedOk, IsDone, C.Valid;
    assert StopOk(s.canc, s.stops[n]) && TicketLinked(s, t);
  }

  lemma PastSaid(s: State, t: nat)
    requires All(s) && t < |s.tickets| && Past(s.tickets[t])
    ensures s.tickets[t].log == [] || Follows(s.tickets[t], true)
  {
    hide Safe, LinksOk, StopsOk, HandedOk, Follows;
    LogMeans(s.tickets[t]);
  }

  lemma StopHit(s: State, n: nat)
    requires All(s) && n < |s.stops| && s.stops[n].phase.Reported? && s.stops[n].phase.stopped
    ensures var v := s.stops[n].phase.victim;
            && v < |s.canc.trackers| && s.canc.trackers[v].id == s.stops[n].id
            && IsDone(s.canc.ctxs, s.canc.trackers[v].ctx)
            && (s.stops[n].phase.drained ==> s.canc.trackers[v].phase != C.Live)
  {
    hide Safe, LogsOk, LinksOk, HandedOk, IsDone;
    assert StopOk(s.canc, s.stops[n]);
  }

  /** A targeted backup_stop that reports stopped has cancelled the run it found; when it also reports
      drained, that run has left the tracking maps even if its id was tracked again in between, and every
      queued command that was admitted under the id before the stop and owns it is past its terminal send. */
  lemma DrainedMeansGone(steps: seq<Step>, n: nat)
    requires Legal(Init, steps) && n < |Run(Init, steps).stops|
    requires Run(Init, steps).stops[n].phase.Reported? && Run(Init, steps).stops[n].phase.stopped
    ensures StopPromise(Run(Init, steps), Run(Init, steps).stops[n])
  {
    hide Apply, Enabled, All, HomesOk, SeensOk, IsDone, Past, Follows, Legal;
    Reachable(steps);
    var s := Run(Init, steps);
    var p := s.stops[n];
    StopHit(s, n);
    if p.phase.drained {
      forall t: nat | t < |s.tickets| && (s.tickets[t].tracker == p.phase.victim || SeenOwning(s, p, t))
        ensures Past(s.tickets[t]) && (s.tickets[t].log == [] || Follows(s.tickets[t], true))
      {
        if SeenOwning(s, p, t) { SeenIsPast(s, n, t); } else { VictimIsPast(s, n, t); }
        PastSaid(s, t);
      }
    }
  }

  /** In every continuation of s in which stop n reports stopped and drained, ticket t is past its terminal. */
  ghost predicate AlwaysDrained(s: State, n: nat, t: nat) {
    forall more :: Legal(s, more) && SaysDrained(Run(s, more), n) ==>
      t < |Run(s, more).tickets| && Past(Run(s, more).tickets[t])
  }

  lemma OwningAlwaysDrained(s: State, n: nat, t: nat)
    requires Shared(s) && n < |s.stops| && t < |s.tickets| && t < s.stops[n].seen
    requires s.tickets[t].id == s.stops[n].id && Owns(s, s.tickets[t].tracker)
    ensures AlwaysDrained(s, n, t)
  {
    hide All, HomesOk, SeensOk, Apply, Enabled, Past, Owns;
    forall more | Legal(s, more) && SaysDrained(Run(s, more), n)
      ensures t < |Run(s, more).tickets| && Past(Run(s, more).tickets[t])
    {
      RunTicket(s, more, t);
      RunStop(s, more, n);
      RunShared(s, more);
      SeenIsPast(Run(s, more), n, t);
    }
  }

  lemma NotFoundNeverDrains(s: State, n: nat, t: nat)
    requires n < |s.stops| && NotFound(s.stops[n].phase)
    ensures AlwaysDrained(s, n, t)
  {
    hide Apply, Enabled, Past;
    forall more | Legal(s, more) ensures !SaysDrained(Run(s, more), n) {
      RunStop(s, more, n);
    }
  }

  /** A stop on a tracked id, up to the call of its cancel. */
  lemma StopBegun(s: State, id: Id)
    requires Shared(s) && id in s.canc.contexts
    ensures var s1, n := Apply(s, StopBegin(id)), |s.stops|;
            && id in s.canc.owners && Enabled(s1, StopCancel(n))
            && var s2 := Apply(s1, StopCancel(n));
            && n < |s2.stops| && s2.stops[n].phase.Cancelled? && s2.stops[n].id == id
            && s1.tickets == s2.tickets == s.tickets && s2.homes == s.homes
            && s2.canc.trackers == s.canc.trackers && s2.canc.owners == s.canc.owners
            && s2.canc.done == s.canc.done
  {
    hide HomesOk, SeensOk, Safe, LogsOk, StopsOk, HandedOk, IsDone, TicketLinked;
    assert C.EntryOk(s.canc, id);
  }

  lemma LookFindsNone(s: State, n: nat)
    requires n < |s.stops| && s.stops[n].phase.Cancelled? && s.stops[n].id !in s.canc.done
    ensures Enabled(s, StopLook(n)) && SaysDrained(Apply(s, StopLook(n)), n)
    ensures Apply(s, StopLook(n)).tickets == s.tickets
  {
  }

  /** The id's other owner leaves between the stop's cancel and its look. */
  lemma OtherLeaves(s: State, n: nat, id: Id, t: nat)
    requires C.Valid(s.canc) && n < |s.stops| && s.stops[n].phase.Cancelled? && s.stops[n].id == id
    requires t < |s.tickets| && !Past(s.tickets[t])
    requires id in s.canc.owners && Enabled(s, OtherDelete(s.canc.owners[id]))
    ensures !AlwaysDrained(s, n, t)
  {
    hide IsDone, Past;
    assert C.EntryOk(s.canc, id);
    var v := s.canc.owners[id];
    var s1 := Apply(s, OtherDelete(v));
    LookFindsNone(s1, n);
    RunOne(s1, StopLook(n));
    RunOne(s, OtherDelete(v));
    RunConcat(s, [OtherDelete(v)], [StopLook(n)]);
    assert SaysDrained(Run(s, [OtherDelete(v)] + [StopLook(n)]), n);
  }

  /** A handler inside run() whose own tracker owns the id reaches that tracker's cleanup by its own steps. */
  lemma {:induction false} LeavesRun(s: State, t: nat) returns (steps: seq<Step>)
    requires All(s) && t < |s.tickets| && HasInner(s.tickets[t].pc) && s.tickets[t].pc != InnerClose
    requires Owns(s, s.tickets[t].inner)
    ensures Legal(s, steps) && Run(s, steps).stops == s.stops
    ensures t < |Run(s, steps).tickets| && Run(s, steps).tickets[t].pc == InnerClose
    ensures s.tickets[t].id !in Run(s, steps).canc.done
    decreases Weight(s.tickets[t])
  {
    hide All, Weight, NextOp, Progress, HasInner, LinkOk, LogOk, Apply, Enabled;
    var op := NextInRun(s, t);
    var step := Handler(t, op);
    SameStops(s, step);
    if op == DeleteInner {
      DeletesInner(s, t);
      RunOne(s, step);
      steps := [step];
    } else {
      InnerStep(s, t, op);
      var s' := Apply(s, step);
      StepAll(s, step);
      var rest := LeavesRun(s', t);
      RunOne(s, step);
      RunConcat(s, [step], rest);
      steps := [step] + rest;
    }
  }

  lemma NextInRun(s: State, t: nat) returns (op: Op)
    requires All(s) && t < |s.tickets| && HasInner(s.tickets[t].pc) && s.tickets[t].pc != InnerClose
    ensures Enabled(s, Handler(t, op)) && Progress(op) && op != CloseInner
    ensures op == DeleteInner <==> s.tickets[t].pc == InnerDelete
  {
    hide StopsOk, HandedOk, LinksOk, IndexOk, CtxDone, HoldsGuard, LogOk;
    assert LinkOk(s.tickets, t) && LogOk(s.tickets[t]);
    EarliestReady(s, t);
    op := NextOp(s, t);
  }

  lemma DeletesInner(s: State, t: nat)
    requires All(s) && Enabled(s, Handler(t, DeleteInner)) && Owns(s, s.tickets[t].inner)
    ensures var s' := Apply(s, Handler(t, DeleteInner));
            t < |s'.tickets| && s'.tickets[t].pc == InnerClose && s.tickets[t].id !in s'.canc.done
  {
    hide Safe, LogsOk, StopsOk, HandedOk, IsDone, C.Valid;
    assert TicketLinked(s, t);
  }

  lemma InnerStep(s: State, t: nat, op: Op)
    requires All(s) && Enabled(s, Handler(t, op)) && Progress(op) && HasInner(s.tickets[t].pc)
    requires s.tickets[t].pc != InnerClose && op != DeleteInner && op != CloseInner && Owns(s, s.tickets[t].inner)
    ensures var s' := Apply(s, Handler(t, op));
            && t < |s'.tickets| && HasInner(s'.tickets[t].pc) && s'.tickets[t].pc != InnerClose
            && s'.tickets[t].inner == s.tickets[t].inner && s'.tickets[t].id == s.tickets[t].id
            && Owns(s', s'.tickets[t].inner)
            && Weight(s'.tickets[t]) < Weight(s.tickets[t])
  {
    hide Safe, StopsOk, HandedOk, IsDone, C.Valid, LogOk, NewTicket, CancOp, Weight, Progress, HasInner, OpEnabled;
    assert TicketLinked(s, t) && LogOk(s.tickets[t]);
    StaysInRun(s, t, op);
    SameTracker(s, t, op);
    WeightDecreases(s, t, op);
    OpEvolves(s, t, op);
    NotClosing(s, t, op);
    assert TrackerEvolves(s.canc.trackers[s.tickets[t].inner], CancOp(s, t, op).trackers[s.tickets[t].inner]);
  }

  lemma NotClosing(s: State, t: nat, op: Op)
    requires t < |s.tickets| && s.tickets[t].pc != InnerClose && op != DeleteInner
    ensures NewTicket(s, t, op).pc != InnerClose
  {
    hide PrevClosed, Owns;
  }

  lemma InnerLeaves(s: State, n: nat, t: nat)
    requires All(s) && n < |s.stops| && s.stops[n].phase.Cancelled? && t < |s.tickets|
    requires s.stops[n].id == s.tickets[t].id
    requires HasInner(s.tickets[t].pc) && s.tickets[t].pc != InnerClose && Owns(s, s.tickets[t].inner)
    ensures !AlwaysDrained(s, n, t)
  {
    hide All, HasInner, Apply, Enabled;
    var steps := LeavesRun(s, t);
    var s1 := Run(s, steps);
    LookFindsNone(s1, n);
    RunOne(s1, StopLook(n));
    RunConcat(s, steps, [StopLook(n)]);
    assert SaysDrained(Run(s, steps + [StopLook(n)]), n);
    assert !Past(Run(s, steps + [StopLook(n)]).tickets[t]);
  }

  lemma BeginStops(s: State, id: Id)
    requires C.Valid(s.canc)
    ensures Enabled(s, StopBegin(id))
    ensures var s1, n := Apply(s, StopBegin(id)), |s.stops|;
            && s1.tickets == s.tickets && s1.canc == s.canc && n < |s1.stops|
            && s1.stops[n].id == id && s1.stops[n].seen == |s.tickets|
            && (NotFound(s1.stops[n].phase) <==> id !in s.canc.cancels)
  {
    hide IsDone;
  }

  lemma StopDecided(s: State, t: nat)
    requires Shared(s) && t < |s.tickets| && !Past(s.tickets[t])
    ensures Enabled(s, StopBegin(s.tickets[t].id))
    ensures AlwaysDrained(Apply(s, StopBegin(s.tickets[t].id)), |s.stops|, t)
            <==> Owns(s, s.tickets[t].tracker) || s.tickets[t].id !in s.canc.cancels
  {
    hide Apply, Enabled, Shared, Past, AlwaysDrained, NotFound;
    var id, n := s.tickets[t].id, |s.stops|;
    SharedValid(s);
    BeginStops(s, id);
    var s1 := Apply(s, StopBegin(id));
    StepShared(s, StopBegin(id));
    if Owns(s, s.tickets[t].tracker) {
      OwningAlwaysDrained(s1, n, t);
    } else if id !in s.canc.cancels {
      NotFoundNeverDrains(s1, n, t);
    } else {
      StopOvertaken(s, t);
    }
  }

  lemma StopOvertaken(s: State, t: nat)
    requires Shared(s) && t < |s.tickets| && !Past(s.tickets[t])
    requires !Owns(s, s.tickets[t].tracker) && s.tickets[t].id in s.canc.cancels
    ensures !AlwaysDrained(Apply(s, StopBegin(s.tickets[t].id)), |s.stops|, t)
  {
    hide Apply, Enabled, Shared, Past, AlwaysDrained, HasInner;
    var id, n := s.tickets[t].id, |s.stops|;
    SharedValid(s);
    BeginStops(s, id);
    StopBegun(s, id);
    OwnerOfId(s, id);
    UniqueTicket(s, t);
    var s1 := Apply(s, StopBegin(id));
    var s2 := Apply(s1, StopCancel(n));
    StepShared(s, StopBegin(id));
    StepShared(s1, StopCancel(n));
    OvertakenAfter(s2, n, t);
    StartedEarlier(s1, StopCancel(n), n, t);
  }

  /** From the stop's cancel on. */
  lemma OvertakenAfter(s: State, n: nat, t: nat)
    requires Shared(s) && t < |s.tickets| && !Past(s.tickets[t]) && n < |s.stops|
    requires s.stops[n].phase.Cancelled? && s.stops[n].id == s.tickets[t].id && s.tickets[t].id in s.canc.owners
    requires var v := s.canc.owners[s.tickets[t].id];
             && v < |s.canc.trackers| == |s.homes| && s.canc.trackers[v].owns && s.canc.trackers[v].phase == C.Live
             && (s.homes[v] == Other || (HasInner(s.tickets[t].pc) && s.tickets[t].inner == v))
    ensures !AlwaysDrained(s, n, t)
  {
    hide Apply, Shared, Past, AlwaysDrained, HasInner, OpEnabled;
    SharedValid(s);
    var v := s.canc.owners[s.tickets[t].id];
    if s.homes[v] == Other {
      OtherLeaves(s, n, s.tickets[t].id, t);
    } else {
      SharedLive(s, t);
      InnerLeaves(s, n, t);
    }
  }

  lemma UniqueTicket(s: State, t: nat)
    requires Shared(s) && t < |s.tickets| && !Past(s.tickets[t])
    ensures s.tickets[t].id in s.entries && s.entries[s.tickets[t].id] == t
  {
    hide LogsOk, LinksOk, StopsOk, HandedOk, HomesOk, SeensOk, ChainOk;
    Indexed(s, t);
  }

  /** A live tracker of run() is not yet in its cleanup. */
  lemma SharedLive(s: State, t: nat)
    requires Shared(s) && t < |s.tickets| && HasInner(s.tickets[t].pc)
    ensures All(s)
    ensures 0 <= s.tickets[t].inner < |s.canc.trackers|
    ensures s.canc.trackers[s.tickets[t].inner].phase == C.Live ==> s.tickets[t].pc != InnerClose
  {
    hide Safe, LogsOk, StopsOk, HandedOk, HomesOk, SeensOk, C.Valid;
    assert TicketLinked(s, t);
  }

  lemma StartedEarlier(s: State, step: Step, n: nat, t: nat)
    requires Enabled(s, step)
    ensures AlwaysDrained(s, n, t) ==> AlwaysDrained(Apply(s, step), n, t)
  {
    hide Apply, Enabled, Past, SaysDrained;
    var s' := Apply(s, step);
    RunOne(s, step);
    if AlwaysDrained(s, n, t) {
      forall more | Legal(s', more) && SaysDrained(Run(s', more), n)
        ensures t < |Run(s', more).tickets| && Past(Run(s', more).tickets[t])
      {
        RunConcat(s, [step], more);
        assert SaysDrained(Run(s, [step] + more), n);
      }
    }
  }

  /** A stop can be reported drained before an unfinished queued command of its id is done, exactly when
      that command does not own the id while something else, another command or its own run(), does. */
  lemma DrainedIff(steps: seq<Step>, t: nat)
    requires Legal(Init, steps) && t < |Run(Init, steps).tickets| && !Past(Run(Init, steps).tickets[t])
    ensures var s := Run(Init, steps);
            var id := s.tickets[t].id;
            && Enabled(s, StopBegin(id))
            && (AlwaysDrained(Apply(s, StopBegin(id)), |s.stops|, t)
                <==> Owns(s, s.tickets[t].tracker) || id !in s.canc.cancels)
  {
    hide Apply, Enabled, Shared, Past, Owns, AlwaysDrained, NotFound;
    Reachable(steps);
    StopDecided(Run(Init, steps), t);
  }
}
