/** Targeted backup_stop and rebinding over whole runs. */
module StopSafety {
  import opened Contexts
  import opened HelperSystem
  import opened QueueSafety
  import opened MessageProtocol
  import opened CancelSafety
  import C = Canceller

  // ---------------------------------------------------------------- how the canceller evolves

  /** Tracker identities never change, a begun cleanup stays begun, and what is done stays done. */
  ghost predicate Evolves(c: C.State, c': C.State) {
    && |c.trackers| <= |c'.trackers|
    && (forall i :: 0 <= i < |c.trackers| ==> TrackerEvolves(c.trackers[i], c'.trackers[i]))
    && (forall x: nat :: IsDone(c.ctxs, x) ==> IsDone(c'.ctxs, x))
  }

  predicate TrackerEvolves(r: C.Tracker, r': C.Tracker) {
    r'.id == r.id && r'.ctx == r.ctx && r'.owns == r.owns && r'.chan == r.chan &&
    (r.phase != C.Live ==> r'.phase != C.Live)
  }

  lemma ExtendEvolves(ctxs: seq<Ctx>, y: Ctx)
    ensures forall x: nat :: IsDone(ctxs, x) ==> IsDone(ctxs + [y], x)
  {
    forall x: nat | IsDone(ctxs, x) ensures IsDone(ctxs + [y], x) {
      ExtendKeeps(ctxs, y, x);
    }
  }

  lemma CancelEvolves(ctxs: seq<Ctx>, c: nat)
    requires c < |ctxs|
    ensures forall x: nat :: IsDone(ctxs, x) ==> IsDone(CancelCtx(ctxs, c), x)
  {
    forall x: nat | IsDone(ctxs, x) ensures IsDone(CancelCtx(ctxs, c), x) {
      CancelReach(ctxs, c, x);
    }
  }

  lemma TrackEvolves(c: C.State, id: Id)
    ensures Evolves(c, C.Track(c, id))
  {
    ExtendEvolves(c.ctxs, Ctx(-1, false));
  }

  lemma DeleteEvolves(c: C.State, i: nat)
    requires i < |c.trackers|
    ensures Evolves(c, C.DeleteMaps(c, i))
  {
  }

  lemma CloseEvolves(c: C.State, i: nat)
    requires i < |c.trackers|
    ensures Evolves(c, C.CloseDone(c, i))
  {
    if c.trackers[i].ctx < |c.ctxs| { CancelEvolves(c.ctxs, c.trackers[i].ctx); }
  }

  lemma CancelOneEvolves(c: C.State, x: nat)
    ensures Evolves(c, C.CancelOne(c, x))
  {
    if x < |c.ctxs| { CancelEvolves(c.ctxs, x); }
  }

  lemma OpEvolves(s: State, t: nat, op: Op)
    requires t < |s.tickets|
    ensures Evolves(s.canc, CancOp(s, t, op))
  {
    hide C.Track, C.DeleteMaps, C.CloseDone;
    var k := s.tickets[t];
    match op
    case TrackAgain => TrackEvolves(s.canc, k.id);
    case GuardOk => if 0 <= k.inner < |s.canc.trackers| { ExtendEvolves(s.canc.ctxs, Ctx(s.canc.trackers[k.inner].ctx, false)); }
    case DeleteInner => if 0 <= k.inner < |s.canc.trackers| { DeleteEvolves(s.canc, k.inner); }
    case CloseInner => if 0 <= k.inner < |s.canc.trackers| { CloseEvolves(s.canc, k.inner); }
    case BeginRelease => if k.tracker < |s.canc.trackers| { DeleteEvolves(s.canc, k.tracker); }
    case EndRelease => if Owns(s, k.tracker) { CloseEvolves(s.canc, k.tracker); }
    case _ =>
  }

  lemma StepEvolves(s: State, step: Step)
    requires Enabled(s, step)
    ensures Evolves(s.canc, Apply(s, step).canc)
  {
    hide C.Track, C.DeleteMaps, C.CloseDone, C.CancelOne, CancOp, OpEnabled;
    match step
    case Handler(t, op) => OpEvolves(s, t, op);
    case Enqueue(id, _, _) => TrackEvolves(s.canc, id);
    case OtherTrack(id) => TrackEvolves(s.canc, id);
    case OtherDelete(i) => DeleteEvolves(s.canc, i);
    case OtherClose(i) => CloseEvolves(s.canc, i);
    case CancelTracked(i) => CancelOneEvolves(s.canc, s.canc.trackers[i].ctx);
    case StopCancel(k) => CancelOneEvolves(s.canc, s.stops[k].phase.ctx);
    case _ =>
  }

  // ---------------------------------------------------------------- stops

  predicate OwnerOf(c: C.State, id: Id, v: nat) {
    v < |c.trackers| && c.trackers[v].owns && c.trackers[v].id == id
  }

  predicate Hit(c: C.State, id: Id, v: nat) {
    OwnerOf(c, id, v) && IsDone(c.ctxs, c.trackers[v].ctx)
  }

  predicate Gone(c: C.State, v: nat) {
    v < |c.trackers| && c.trackers[v].phase != C.Live
  }

  predicate StopOk(c: C.State, p: Stop) {
    match p.phase
    case Holding(v, x) => OwnerOf(c, p.id, v) && c.trackers[v].ctx == x
    case Cancelled(v) => Hit(c, p.id, v)
    case Draining(v, o, ch) =>
      Hit(c, p.id, v) && OwnerOf(c, p.id, o) && c.trackers[o].chan == ch && (o == v || Gone(c, v))
    case Reported(stopped, drained, v) =>
      (stopped ==> Hit(c, p.id, v) && (drained ==> Gone(c, v))) && (!stopped ==> drained)
  }

  ghost predicate StopsOk(s: State) {
    forall k: nat :: k < |s.stops| ==> StopOk(s.canc, s.stops[k])
  }

  lemma StopEvolves(c: C.State, c': C.State, p: Stop)
    requires StopOk(c, p) && Evolves(c, c')
    ensures StopOk(c', p)
  {
    hide IsDone;
    match p.phase
    case Holding(v, _) => assert TrackerEvolves(c.trackers[v], c'.trackers[v]);
    case Cancelled(v) => assert TrackerEvolves(c.trackers[v], c'.trackers[v]);
    case Draining(v, o, _) => assert TrackerEvolves(c.trackers[v], c'.trackers[v]) && TrackerEvolves(c.trackers[o], c'.trackers[o]);
    case Reported(stopped, _, v) =>
      if stopped { assert TrackerEvolves(c.trackers[v], c'.trackers[v]); }
  }

  lemma StopBeginOk(s: State, id: Id)
    requires C.Valid(s.canc)
    ensures |Apply(s, StopBegin(id)).stops| == |s.stops| + 1
    ensures StopOk(s.canc, Apply(s, StopBegin(id)).stops[|s.stops|])
  {
    if id in s.canc.owners { assert C.EntryOk(s.canc, id); }
  }

  lemma StopLookOk(s: State, k: nat)
    requires C.Valid(s.canc) && Enabled(s, StopLook(k)) && StopOk(s.canc, s.stops[k])
    ensures StopOk(s.canc, Apply(s, StopLook(k)).stops[k])
  {
    hide IsDone;
    var id, v := s.stops[k].id, s.stops[k].phase.victim;
    assert C.TrackerOk(s.canc, v);
    if id in s.canc.owners { assert C.EntryOk(s.canc, id); }
  }

  lemma StopDrainedOk(s: State, k: nat)
    requires C.Valid(s.canc) && Enabled(s, StopDrained(k)) && StopOk(s.canc, s.stops[k])
    ensures StopOk(s.canc, Apply(s, StopDrained(k)).stops[k])
  {
    hide IsDone;
    assert C.TrackerOk(s.canc, s.stops[k].phase.owner);
  }

  lemma StopCancelOk(s: State, k: nat)
    requires C.Valid(s.canc) && Enabled(s, StopCancel(k)) && StopOk(s.canc, s.stops[k])
    ensures StopOk(Apply(s, StopCancel(k)).canc, Apply(s, StopCancel(k)).stops[k])
  {
    var v := s.stops[k].phase.victim;
    assert C.TrackerOk(s.canc, v);
    CancelReach(s.canc.ctxs, s.canc.trackers[v].ctx, s.canc.trackers[v].ctx);
  }

  lemma StepStops(s: State, step: Step)
    requires StopsOk(s) && C.Valid(s.canc) && Enabled(s, step)
    ensures StopsOk(Apply(s, step))
  {
    hide C.Valid, StopOk, Evolves, HandlerStep, Admit, OpEnabled;
    var s' := Apply(s, step);
    StepEvolves(s, step);
    match step {
      case StopBegin(id) => StopBeginOk(s, id);
      case StopLook(k) => StopLookOk(s, k);
      case StopDrained(k) => StopDrainedOk(s, k);
      case StopCancel(k) => StopCancelOk(s, k);
      case StopTimeout(k) => StopTimeoutOk(s, k);
      case Handler(t, op) => SameStops(s, step);
      case Enqueue(_, _, _) => SameStops(s, step);
      case _ =>
    }
    forall j: nat | j < |s'.stops| ensures StopOk(s'.canc, s'.stops[j]) {
      if j < |s.stops| && s'.stops[j] == s.stops[j] {
        StopEvolves(s.canc, s'.canc, s.stops[j]);
      }
    }
  }

  lemma StopTimeoutOk(s: State, k: nat)
    requires Enabled(s, StopTimeout(k)) && StopOk(s.canc, s.stops[k])
    ensures StopOk(s.canc, Apply(s, StopTimeout(k)).stops[k])
  {
  }

  lemma SameStops(s: State, step: Step)
    requires Enabled(s, step) && (step.Handler? || step.Enqueue?)
    ensures Apply(s, step).stops == s.stops
  {
    hide CancOp, NewTicket;
  }

  // ---------------------------------------------------------------- what is handed out

  /** While a ticket owns its id's registration, the context handed out for that id, the one its handler
      runs under and the guard context all descend from the one that cancel reaches. */
  ghost predicate TicketHanded(s: State, t: nat)
    requires t < |s.tickets|
  {
    var k := s.tickets[t];
    (k.tracker < |s.canc.trackers| && s.canc.trackers[k.tracker].owns && s.canc.trackers[k.tracker].phase == C.Live) ==>
      var root := s.canc.trackers[k.tracker].ctx;
      && k.id in s.canc.contexts && Descends(s.canc.ctxs, s.canc.contexts[k.id], root)
      && (HasInner(k.pc) && 0 <= k.inner < |s.canc.trackers| ==>
            Descends(s.canc.ctxs, s.canc.trackers[k.inner].ctx, root))
      && (k.pc == Rebinding ==> Descends(s.canc.ctxs, k.guard, root))
  }

  ghost predicate HandedOk(s: State) {
    forall t: nat :: t < |s.tickets| ==> TicketHanded(s, t)
  }

  /** Contexts are only added or marked; parents never change. */
  ghost predicate Grows(ctxs: seq<Ctx>, ctxs': seq<Ctx>) {
    forall d, e :: Descends(ctxs, d, e) ==> Descends(ctxs', d, e)
  }

  lemma ExtendGrows(ctxs: seq<Ctx>, y: Ctx)
    ensures Grows(ctxs, ctxs + [y])
  {
    forall d, e | Descends(ctxs, d, e) ensures Descends(ctxs + [y], d, e) {
      ExtendKeeps(ctxs, y, d);
    }
  }

  lemma CancelGrows(ctxs: seq<Ctx>, c: nat)
    requires c < |ctxs|
    ensures Grows(ctxs, CancelCtx(ctxs, c))
  {
    forall d, e | Descends(ctxs, d, e) ensures Descends(CancelCtx(ctxs, c), d, e) {
      CancelReach(ctxs, c, d);
    }
  }

  /** A step that keeps the id's registration and what is handed out for it keeps the ticket's promise. */
  lemma HandedFrame(s: State, s': State, t: nat)
    requires t < |s.tickets| && t < |s'.tickets| && s'.tickets[t] == s.tickets[t]
    requires TicketHanded(s, t) && TicketLinked(s, t)
    requires Grows(s.canc.ctxs, s'.canc.ctxs) && Evolves(s.canc, s'.canc)
    requires var r := s.canc.trackers[s.tickets[t].tracker];
             r.owns && r.phase == C.Live ==>
               s.tickets[t].id in s'.canc.contexts && s'.canc.contexts[s.tickets[t].id] == s.canc.contexts[s.tickets[t].id]
    ensures TicketHanded(s', t)
  {
    hide IsDone, HasInner, PhaseOk;
    var k := s.tickets[t];
    assert TrackerEvolves(s.canc.trackers[k.tracker], s'.canc.trackers[k.tracker]);
    if HasInner(k.pc) { assert TrackerEvolves(s.canc.trackers[k.inner], s'.canc.trackers[k.inner]); }
  }

  /** Everything the system keeps. */
  ghost predicate All(s: State) {
    Safe(s) && LogsOk(s) && LinksOk(s) && StopsOk(s) && HandedOk(s)
  }

  /** A live owning cleanup is the only one registered for its id. */
  lemma SoleOwner(c: C.State, i: nat)
    requires C.Valid(c) && i < |c.trackers| && c.trackers[i].owns && c.trackers[i].phase == C.Live
    ensures c.trackers[i].id in c.contexts && c.contexts[c.trackers[i].id] < |c.ctxs|
    ensures forall j: nat ::
              (j < |c.trackers| && c.trackers[j].owns && c.trackers[j].phase == C.Live &&
               c.trackers[j].id == c.trackers[i].id) ==> j == i
  {
    hide IsDone;
    assert C.TrackerOk(c, i);
    assert C.EntryOk(c, c.trackers[i].id);
    forall j: nat | j < |c.trackers| && c.trackers[j].owns && c.trackers[j].phase == C.Live &&
                    c.trackers[j].id == c.trackers[i].id
      ensures j == i
    {
      assert C.TrackerOk(c, j);
    }
  }

  lemma TrackKeeps(c: C.State, id: Id)
    ensures forall k :: k in c.contexts ==> k in C.Track(c, id).contexts && C.Track(c, id).contexts[k] == c.contexts[k]
    ensures Grows(c.ctxs, C.Track(c, id).ctxs)
  {
    ExtendGrows(c.ctxs, Ctx(-1, false));
  }

  /** Deleting another registration keeps this one's. */
  lemma DeleteKeeps(c: C.State, i: nat, j: nat)
    requires C.Valid(c) && i < |c.trackers| && j < |c.trackers| && i != j && c.trackers[i].phase == C.Live
    requires c.trackers[j].owns && c.trackers[j].phase == C.Live
    ensures var id := c.trackers[j].id;
            id in c.contexts && id in C.DeleteMaps(c, i).contexts && C.DeleteMaps(c, i).contexts[id] == c.contexts[id]
  {
    SoleOwner(c, j);
  }

  lemma OpGrows(s: State, t: nat, op: Op)
    requires t < |s.tickets|
    ensures Grows(s.canc.ctxs, CancOp(s, t, op).ctxs)
  {
    hide C.Track, Grows;
    var k := s.tickets[t];
    GrowsRefl(s.canc.ctxs);
    match op
    case TrackAgain => TrackKeeps(s.canc, k.id);
    case GuardOk =>
      if 0 <= k.inner < |s.canc.trackers| { ExtendGrows(s.canc.ctxs, Ctx(s.canc.trackers[k.inner].ctx, false)); }
    case CloseInner => if 0 <= k.inner < |s.canc.trackers| { CloseGrows(s.canc, k.inner); }
    case EndRelease => if Owns(s, k.tracker) { CloseGrows(s.canc, k.tracker); }
    case _ =>
  }

  lemma GrowsRefl(ctxs: seq<Ctx>)
    ensures Grows(ctxs, ctxs)
  {
  }

  lemma CloseGrows(c: C.State, i: nat)
    requires i < |c.trackers|
    ensures Grows(c.ctxs, C.CloseDone(c, i).ctxs)
  {
    hide Grows;
    GrowsRefl(c.ctxs);
    if c.trackers[i].ctx < |c.ctxs| { CancelGrows(c.ctxs, c.trackers[i].ctx); }
  }

  /** A handler step keeps what is handed out for another ticket's id. */
  lemma OpKeepsContexts(s: State, t: nat, op: Op, u: nat)
    requires Safe(s) && LinksOk(s) && t < |s.tickets| && u < |s.tickets| && u != t && OpEnabled(s, t, op)
    requires TicketLinked(s, u)
    requires var r := s.canc.trackers[s.tickets[u].tracker]; r.owns && r.phase == C.Live
    ensures var id := s.tickets[u].id;
            id in s.canc.contexts && id in CancOp(s, t, op).contexts &&
            CancOp(s, t, op).contexts[id] == s.canc.contexts[id]
  {
    hide C.Valid, C.Track, C.DeleteMaps, ChainOk, IsDone, CtxDone, HoldsGuard;
    var k := s.tickets[t];
    var j := s.tickets[u].tracker;
    assert TicketLinked(s, t);
    SoleOwner(s.canc, j);
    match op
    case TrackAgain => TrackKeeps(s.canc, k.id);
    case DeleteInner => DeleteKeeps(s.canc, k.inner, j);
    case BeginRelease => DeleteKeeps(s.canc, k.tracker, j);
    case DoRebind =>
      assert IndexedOk(s, t) && IndexedOk(s, u);
    case _ =>
  }

  lemma OtherHanded(s: State, t: nat, op: Op, u: nat)
    requires All(s) && t < |s.tickets| && u < |s.tickets| && u != t && OpEnabled(s, t, op)
    ensures TicketHanded(HandlerStep(s, t, op), u)
  {
    hide Safe, StopsOk, C.Valid, CancOp, NewTicket, OpEnabled, Grows, Evolves, LogsOk;
    assert TicketLinked(s, u) && TicketHanded(s, u);
    OpGrows(s, t, op);
    OpEvolves(s, t, op);
    var r := s.canc.trackers[s.tickets[u].tracker];
    if r.owns && r.phase == C.Live { OpKeepsContexts(s, t, op, u); }
    HandedFrame(s, HandlerStep(s, t, op), u);
  }

  /** The handler's second track call returns the context handed out for its id. */
  lemma TrackAgainHanded(s: State, t: nat)
    requires All(s) && t < |s.tickets| && OpEnabled(s, t, TrackAgain)
    ensures TicketHanded(HandlerStep(s, t, TrackAgain), t)
  {
    hide Safe, StopsOk, C.Valid, LogsOk, Grows, IsDone;
    var k := s.tickets[t];
    assert TicketLinked(s, t) && TicketHanded(s, t);
    if Owns(s, k.tracker) { SoleOwner(s.canc, k.tracker); }
  }

  /** The guard context is derived from the one the handler tracked. */
  lemma GuardHanded(s: State, t: nat)
    requires All(s) && t < |s.tickets| && OpEnabled(s, t, GuardOk)
    ensures TicketHanded(HandlerStep(s, t, GuardOk), t)
  {
    hide Safe, StopsOk, C.Valid, LogsOk, IsDone;
    var k := s.tickets[t];
    assert TicketLinked(s, t) && TicketHanded(s, t);
    InnerCtx(s, t);
    var p := s.canc.trackers[k.inner].ctx;
    ExtendGrows(s.canc.ctxs, Ctx(p, false));
  }

  lemma RebindHanded(s: State, t: nat)
    requires All(s) && t < |s.tickets| && OpEnabled(s, t, DoRebind)
    ensures TicketHanded(HandlerStep(s, t, DoRebind), t)
  {
    hide Safe, StopsOk, C.Valid, LogsOk, IsDone, Grows;
    assert TicketLinked(s, t) && TicketHanded(s, t);
  }

  /** run()'s own cleanup never takes a ticket's registration away. */
  lemma InnerHanded(s: State, t: nat, op: Op)
    requires All(s) && t < |s.tickets| && OpEnabled(s, t, op) && (op == DeleteInner || op == CloseInner)
    ensures TicketHanded(HandlerStep(s, t, op), t)
  {
    hide Safe, StopsOk, C.Valid, LogsOk, IsDone, Grows, C.CloseDone;
    var k := s.tickets[t];
    assert TicketLinked(s, t) && TicketHanded(s, t);
    if op == CloseInner { CloseKeeps(s.canc, k.inner, k.tracker); }
    else if Owns(s, k.tracker) { DeleteKeeps(s.canc, k.inner, k.tracker); }
  }

  lemma CloseKeeps(c: C.State, i: nat, j: nat)
    requires i < |c.trackers| && j < |c.trackers| && i != j
    ensures C.CloseDone(c, i).contexts == c.contexts && C.CloseDone(c, i).trackers[j] == c.trackers[j]
    ensures |C.CloseDone(c, i).trackers| == |c.trackers|
    ensures forall d, e :: Descends(c.ctxs, d, e) ==> Descends(C.CloseDone(c, i).ctxs, d, e)
  {
    CloseGrows(c, i);
  }

  lemma ReleaseHanded(s: State, t: nat, op: Op)
    requires All(s) && t < |s.tickets| && OpEnabled(s, t, op) && (op == BeginRelease || op == EndRelease)
    ensures TicketHanded(HandlerStep(s, t, op), t)
  {
    hide Safe, StopsOk, C.Valid, LogsOk, IsDone, Grows;
    assert TicketLinked(s, t);
    TrackerBounds(s.canc, s.tickets[t].tracker);
  }

  lemma QuietHanded(s: State, t: nat, op: Op)
    requires All(s) && t < |s.tickets| && OpEnabled(s, t, op) && Quiet(op)
    ensures TicketHanded(HandlerStep(s, t, op), t)
  {
    hide Safe, StopsOk, LinksOk, LogOk, OpEnabled, NewTicket, CancOp, HasInner, Quiet;
    assert TicketHanded(s, t);
    QuietMoves(s, t, op);
  }

  lemma SelfHanded(s: State, t: nat, op: Op)
    requires All(s) && t < |s.tickets| && OpEnabled(s, t, op)
    ensures TicketHanded(HandlerStep(s, t, op), t)
  {
    hide All, OpEnabled, HandlerStep, TicketHanded;
    match op
    case TrackAgain => TrackAgainHanded(s, t);
    case GuardOk => GuardHanded(s, t);
    case DoRebind => RebindHanded(s, t);
    case DeleteInner => InnerHanded(s, t, op);
    case CloseInner => InnerHanded(s, t, op);
    case BeginRelease => ReleaseHanded(s, t, op);
    case EndRelease => ReleaseHanded(s, t, op);
    case _ => QuietHanded(s, t, op);
  }

  lemma AdmitHanded(s: State, id: Id, async: bool, native: bool)
    requires All(s)
    ensures HandedOk(Admit(s, id, async, native))
  {
    hide Safe, StopsOk, C.Valid, LogsOk, Grows, Evolves, IsDone, PhaseOk;
    if id in s.entries { return; }
    var s' := Admit(s, id, async, native);
    TrackKeeps(s.canc, id);
    TrackEvolves(s.canc, id);
    forall u: nat | u < |s'.tickets| ensures TicketHanded(s', u) {
      if u < |s.tickets| {
        assert TicketLinked(s, u) && TicketHanded(s, u);
        if Owns(s, s.tickets[u].tracker) && s.canc.trackers[s.tickets[u].tracker].phase == C.Live {
          SoleOwner(s.canc, s.tickets[u].tracker);
        }
        HandedFrame(s, s', u);
      }
    }
  }

  /** A ticket that owns its registration finds the same context handed out for its id. */
  ghost predicate KeepsHanded(s: State, c': C.State, u: nat)
    requires u < |s.tickets|
  {
    var k := s.tickets[u];
    (k.tracker < |s.canc.trackers| && s.canc.trackers[k.tracker].owns &&
     s.canc.trackers[k.tracker].phase == C.Live && k.id in s.canc.contexts) ==>
      k.id in c'.contexts && c'.contexts[k.id] == s.canc.contexts[k.id]
  }

  /** Steps that leave the tickets alone. */
  lemma OthersHanded(s: State, s': State)
    requires All(s) && s'.tickets == s.tickets
    requires Grows(s.canc.ctxs, s'.canc.ctxs) && Evolves(s.canc, s'.canc)
    requires forall u: nat :: u < |s.tickets| ==> KeepsHanded(s, s'.canc, u)
    ensures HandedOk(s')
  {
    hide Safe, StopsOk, C.Valid, LogsOk, Grows, Evolves, PhaseOk, HasInner;
    forall u: nat | u < |s'.tickets| ensures TicketHanded(s', u) {
      assert TicketLinked(s, u) && TicketHanded(s, u) && KeepsHanded(s, s'.canc, u);
      HandedFrame(s, s', u);
    }
  }

  lemma OtherDeleteHanded(s: State, i: nat)
    requires All(s) && Enabled(s, OtherDelete(i))
    ensures HandedOk(Apply(s, OtherDelete(i)))
  {
    hide Safe, StopsOk, C.Valid, LogsOk, Grows, Evolves, HandedOk, C.DeleteMaps;
    var s' := Apply(s, OtherDelete(i));
    DeleteEvolves(s.canc, i);
    DeleteSameCtxs(s.canc, i);
    GrowsRefl(s.canc.ctxs);
    forall u: nat | u < |s.tickets| ensures KeepsHanded(s, s'.canc, u) {
      assert TicketLinked(s, u);
      var j := s.tickets[u].tracker;
      if s.canc.trackers[j].owns && s.canc.trackers[j].phase == C.Live { DeleteKeeps(s.canc, i, j); }
    }
    OthersHanded(s, s');
  }

  lemma DeleteSameCtxs(c: C.State, i: nat)
    requires i < |c.trackers|
    ensures C.DeleteMaps(c, i).ctxs == c.ctxs
  {
  }

  lemma OtherTrackHanded(s: State, id: Id)
    requires All(s)
    ensures HandedOk(Apply(s, OtherTrack(id)))
  {
    hide All, Grows, Evolves, HandedOk, C.Track;
    TrackKeeps(s.canc, id);
    TrackEvolves(s.canc, id);
    OthersHanded(s, Apply(s, OtherTrack(id)));
  }

  /** Cancelling and closing change no map. */
  lemma CancelHanded(s: State, step: Step)
    requires All(s) && Enabled(s, step)
    requires !(step.Handler? || step.Enqueue? || step.OtherTrack? || step.OtherDelete?)
    ensures HandedOk(Apply(s, step))
  {
    hide All, Grows, Evolves, HandedOk, CancelCtx;
    StepEvolves(s, step);
    GrowsRefl(s.canc.ctxs);
    match step {
      case OtherClose(i) => CloseGrows(s.canc, i);
      case CancelTracked(i) =>
        if s.canc.trackers[i].ctx < |s.canc.ctxs| { CancelGrows(s.canc.ctxs, s.canc.trackers[i].ctx); }
      case StopCancel(k) =>
        if s.stops[k].phase.ctx < |s.canc.ctxs| { CancelGrows(s.canc.ctxs, s.stops[k].phase.ctx); }
      case _ =>
    }
    OthersHanded(s, Apply(s, step));
  }

  lemma StepHanded(s: State, step: Step)
    requires All(s) && Enabled(s, step)
    ensures HandedOk(Apply(s, step))
  {
    hide All, TicketHanded, HandlerStep, Admit, OpEnabled;
    match step
    case Handler(t, op) => HandlerHanded(s, t, op);
    case Enqueue(id, async, native) => AdmitHanded(s, id, async, native);
    case OtherTrack(id) => OtherTrackHanded(s, id);
    case OtherDelete(i) => OtherDeleteHanded(s, i);
    case _ => CancelHanded(s, step);
  }

  lemma HandlerHanded(s: State, t: nat, op: Op)
    requires All(s) && t < |s.tickets| && OpEnabled(s, t, op)
    ensures HandedOk(HandlerStep(s, t, op))
  {
    hide All, TicketHanded, NewTicket, CancOp, OpEnabled;
    var s' := HandlerStep(s, t, op);
    forall u: nat | u < |s'.tickets| ensures TicketHanded(s', u) {
      if u == t { SelfHanded(s, t, op); } else { OtherHanded(s, t, op, u); }
    }
  }

  // ---------------------------------------------------------------- every run

  lemma StepAll(s: State, step: Step)
    requires All(s) && Enabled(s, step)
    ensures All(Apply(s, step))
  {
    hide Safe, LogsOk, StopsOk, HandedOk, Apply, Enabled, C.Valid, TicketLinked;
    StepSafe(s, step);
    StepLogs(s, step);
    StepLinks(s, step);
    StepStops(s, step);
    StepHanded(s, step);
  }

  lemma InitAll()
    ensures All(Init)
  {
    InitSafe();
    C.InitValid();
  }

  lemma {:induction false} RunAll(s: State, steps: seq<Step>)
    requires All(s) && Legal(s, steps)
    ensures All(Run(s, steps))
    decreases |steps|
  {
    hide All, Apply, Enabled;
    if steps != [] {
      StepAll(s, steps[0]);
      RunAll(Apply(s, steps[0]), steps[1..]);
    }
  }

  // ---------------------------------------------------------------- what it means

  /** In every reachable state the three maps have the same keys, and each tracked id is registered by
      exactly one live owning cleanup. */
  lemma MapsAgree(steps: seq<Step>, id: Id)
    requires Legal(Init, steps)
    ensures var c := Run(Init, steps).canc;
            && c.cancels.Keys == c.contexts.Keys == c.done.Keys
            && (id in c.contexts <==> exists i: nat :: i < |c.trackers| && c.trackers[i].owns &&
                                        c.trackers[i].phase == C.Live && c.trackers[i].id == id)
            && forall i: nat, j: nat ::
                 (i < |c.trackers| && j < |c.trackers| && c.trackers[i].owns && c.trackers[j].owns &&
                  c.trackers[i].phase == C.Live && c.trackers[j].phase == C.Live &&
                  c.trackers[i].id == c.trackers[j].id) ==> i == j
  {
    hide Safe, LogsOk, StopsOk, HandedOk, Apply, Enabled, IsDone, TicketLinked;
    InitAll();
    RunAll(Init, steps);
    var c := Run(Init, steps).canc;
    if id in c.contexts { assert C.EntryOk(c, id); }
    forall i: nat | i < |c.trackers| && c.trackers[i].owns && c.trackers[i].phase == C.Live
      ensures c.trackers[i].id in c.owners && c.owners[c.trackers[i].id] == i
    {
      assert C.TrackerOk(c, i);
    }
  }

  /** Calling the registered cancel of ticket t's id ends the context handed out for the id, the one its
      handler waits under and the one its run() is under, and ends nothing that does not descend from it. */
  ghost predicate CancelReaches(s: State, t: nat)
    requires t < |s.tickets|
  {
    var k, c := s.tickets[t], s.canc;
    && k.tracker < |c.trackers|
    && (HasInner(k.pc) ==> 0 <= k.inner < |c.trackers|)
    && k.id in c.cancels && k.id in c.contexts && c.cancels[k.id] < |c.ctxs|
    && var after := C.CancelOne(c, c.cancels[k.id]).ctxs;
    && IsDone(after, c.contexts[k.id])
    && IsDone(after, c.trackers[k.tracker].ctx)
    && (HasInner(k.pc) ==> IsDone(after, c.trackers[k.inner].ctx))
    && forall x: int :: IsDone(after, x) ==> IsDone(c.ctxs, x) || Descends(c.ctxs, x, c.cancels[k.id])
  }

  lemma HandedOutIsReached(s: State, t: nat)
    requires All(s) && t < |s.tickets| && Owns(s, s.tickets[t].tracker) && !Past(s.tickets[t])
    ensures CancelReaches(s, t)
  {
    hide Safe, LogsOk, StopsOk, IsDone;
    var k := s.tickets[t];
    assert TicketLinked(s, t) && TicketHanded(s, t);
    assert C.TrackerOk(s.canc, k.tracker);
    assert C.EntryOk(s.canc, k.id);
    var root := s.canc.cancels[k.id];
    forall x: int
      ensures IsDone(CancelCtx(s.canc.ctxs, root), x) <==> IsDone(s.canc.ctxs, x) || Descends(s.canc.ctxs, x, root)
    {
      CancelReach(s.canc.ctxs, root, x);
    }
  }

  /** In every run, cancel(id) reaches the context currently handed out for a queued command's id,
      however often it was rebound. */
  lemma CancelReachesHandedOut(steps: seq<Step>, t: nat)
    requires Legal(Init, steps) && t < |Run(Init, steps).tickets|
    requires var s := Run(Init, steps); Owns(s, s.tickets[t].tracker) && !Past(s.tickets[t])
    ensures CancelReaches(Run(Init, steps), t)
  {
    hide Apply, Enabled, All;
    InitAll();
    RunAll(Init, steps);
    HandedOutIsReached(Run(Init, steps), t);
  }
}
