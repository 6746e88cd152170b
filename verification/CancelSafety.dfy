/** Cancelling over whole runs: what a cancel reaches and what a drained backup_stop promises. */
module CancelSafety {
  import opened Contexts
  import opened HelperSystem
  import opened MessageProtocol
  import C = Canceller

  // ---------------------------------------------------------------- tickets and their trackers

  /** The phase of the ticket's own cleanup follows the handler. */
  predicate PhaseOk(k: Ticket, r: C.Tracker) {
    if k.pc.AfterRelease() then r.phase == C.Finished
    else if k.pc == ReleaseClose then r.phase == if r.owns then C.Deleted else C.Finished
    else r.phase == C.Live
  }

  predicate HasInner(pc: Pc) {
    pc.Acquiring? || pc.Rebinding? || pc.Starting? || pc.Running? || pc.Joining? || pc.InnerDelete? || pc.InnerClose?
  }

  predicate TicketLinked(s: State, t: nat)
    requires t < |s.tickets|
  {
    var k := s.tickets[t];
    && k.tracker < |s.canc.trackers| == |s.homes|
    && s.homes[k.tracker] == ByTicket(t)
    && s.canc.trackers[k.tracker].id == k.id
    && PhaseOk(k, s.canc.trackers[k.tracker])
    && (HasInner(k.pc) ==>
          && 0 <= k.inner < |s.canc.trackers|
          && s.homes[k.inner] == ByInner(t)
          && s.canc.trackers[k.inner].id == k.id
          && (if k.pc == InnerClose then s.canc.trackers[k.inner].owns && s.canc.trackers[k.inner].phase == C.Deleted
              else s.canc.trackers[k.inner].phase == C.Live))
    && (k.pc == Rebinding ==> 0 <= k.guard < |s.canc.ctxs|)
  }

  ghost predicate LinksOk(s: State) {
    && C.Valid(s.canc)
    && |s.homes| == |s.canc.trackers|
    && forall t: nat :: t < |s.tickets| ==> TicketLinked(s, t)
  }

  // ---------------------------------------------------------------- the canceller stays valid

  lemma OpCanc(s: State, t: nat, op: Op)
    requires LinksOk(s) && t < |s.tickets| && OpEnabled(s, t, op)
    ensures C.Valid(CancOp(s, t, op))
  {
    hide C.Valid, C.Track, C.Derive, C.Rebind, C.DeleteMaps, C.CloseDone, IsDone;
    var k := s.tickets[t];
    assert TicketLinked(s, t);
    match op
    case TrackAgain => C.TrackValid(s.canc, k.id);
    case GuardOk =>
      InnerCtx(s, t);
      C.DeriveValid(s.canc, s.canc.trackers[k.inner].ctx);
    case DoRebind => C.RebindValid(s.canc, k.id, k.guard);
    case DeleteInner => C.DeleteMapsValid(s.canc, k.inner);
    case CloseInner => C.CloseDoneValid(s.canc, k.inner);
    case BeginRelease => C.DeleteMapsValid(s.canc, k.tracker);
    case EndRelease => if Owns(s, k.tracker) { C.CloseDoneValid(s.canc, k.tracker); }
    case _ =>
  }

  lemma InnerCtx(s: State, t: nat)
    requires LinksOk(s) && t < |s.tickets| && HasInner(s.tickets[t].pc)
    ensures 0 <= s.tickets[t].inner < |s.canc.trackers|
    ensures s.canc.trackers[s.tickets[t].inner].ctx < |s.canc.ctxs|
  {
    assert TicketLinked(s, t);
    assert C.TrackerOk(s.canc, s.tickets[t].inner);
  }

  // ---------------------------------------------------------------- links are kept

  /** A canceller step that touches at most tracker `i`, adds at most one, and removes nothing. */
  ghost predicate Touches(c: C.State, c': C.State, i: int) {
    && |c.trackers| <= |c'.trackers| && |c.ctxs| <= |c'.ctxs|
    && forall j :: 0 <= j < |c.trackers| && j != i ==> c'.trackers[j] == c.trackers[j]
  }

  /** Which tracker a handler step touches. */
  function Touched(k: Ticket, op: Op): (i: int) {
    match op
    case DeleteInner => k.inner
    case CloseInner => k.inner
    case BeginRelease => k.tracker
    case EndRelease => k.tracker
    case _ => -1
  }

  lemma OpTouches(s: State, t: nat, op: Op)
    requires t < |s.tickets|
    ensures Touches(s.canc, CancOp(s, t, op), Touched(s.tickets[t], op))
    ensures |CancOp(s, t, op).trackers| == |s.canc.trackers| + if op == TrackAgain then 1 else 0
  {
  }

  /** Other tickets' links survive a step on a tracker that is not theirs. */
  lemma OthersLinked(s: State, s': State, u: nat, i: int)
    requires u < |s.tickets| && u < |s'.tickets| && s'.tickets[u] == s.tickets[u]
    requires TicketLinked(s, u) && Touches(s.canc, s'.canc, i)
    requires |s'.homes| == |s'.canc.trackers| && s.homes <= s'.homes
    requires 0 <= i < |s.homes| ==> s.homes[i] != ByTicket(u) && s.homes[i] != ByInner(u)
    ensures TicketLinked(s', u)
  {
    hide PhaseOk, HasInner;
    var k := s.tickets[u];
    assert s'.homes[k.tracker] == s.homes[k.tracker];
    assert HasInner(k.pc) ==> s'.homes[k.inner] == s.homes[k.inner];
  }

  lemma TrackerBounds(c: C.State, i: nat)
    requires C.Valid(c) && i < |c.trackers|
    ensures c.trackers[i].ctx < |c.ctxs| && (c.trackers[i].owns ==> c.trackers[i].chan < |c.chans|)
  {
    assert C.TrackerOk(c, i);
  }

  /** Steps that leave the canceller alone. */
  predicate Quiet(op: Op) {
    !(op.TrackAgain? || op.GuardOk? || op.DoRebind? || op.DeleteInner? || op.CloseInner? || op.BeginRelease? || op.EndRelease?)
  }

  lemma QuietMoves(s: State, t: nat, op: Op)
    requires t < |s.tickets| && OpEnabled(s, t, op) && LogOk(s.tickets[t]) && Quiet(op)
    ensures CancOp(s, t, op) == s.canc
    ensures var k, k' := s.tickets[t], NewTicket(s, t, op);
            && k'.id == k.id && k'.tracker == k.tracker && k'.inner == k.inner && k'.guard == k.guard
            && (k'.pc.AfterRelease() <==> k.pc.AfterRelease())
            && (k'.pc == ReleaseClose <==> k.pc == ReleaseClose)
            && (HasInner(k'.pc) ==> HasInner(k.pc) && (k'.pc == InnerClose <==> k.pc == InnerClose))
            && (k'.pc == Rebinding ==> k.pc == Rebinding)
  {
    hide LogOk, PrevClosed, CtxDone, HoldsGuard;
    BeatsInRun(s.tickets[t]);
  }

  lemma QuietLinked(s: State, t: nat, op: Op)
    requires LinksOk(s) && t < |s.tickets| && OpEnabled(s, t, op) && LogOk(s.tickets[t]) && Quiet(op)
    ensures TicketLinked(HandlerStep(s, t, op), t)
  {
    hide C.Valid, LogOk, OpEnabled, NewTicket, CancOp, HasInner;
    assert TicketLinked(s, t);
    QuietMoves(s, t, op);
  }

  lemma TrackLinked(s: State, t: nat, op: Op)
    requires LinksOk(s) && t < |s.tickets| && OpEnabled(s, t, op) && op in {TrackAgain, GuardOk, DoRebind}
    ensures TicketLinked(HandlerStep(s, t, op), t)
  {
    hide C.Valid, IsDone, CtxDone, HoldsGuard;
    assert TicketLinked(s, t);
    if op == GuardOk { InnerCtx(s, t); }
  }

  lemma InnerLinked(s: State, t: nat, op: Op)
    requires LinksOk(s) && t < |s.tickets| && OpEnabled(s, t, op) && op in {DeleteInner, CloseInner}
    ensures TicketLinked(HandlerStep(s, t, op), t)
  {
    hide C.Valid, IsDone, CtxDone, HoldsGuard;
    assert TicketLinked(s, t);
  }

  lemma ReleaseLinked(s: State, t: nat, op: Op)
    requires LinksOk(s) && t < |s.tickets| && OpEnabled(s, t, op) && op in {BeginRelease, EndRelease}
    ensures TicketLinked(HandlerStep(s, t, op), t)
  {
    hide C.Valid, IsDone, CtxDone, HoldsGuard;
    assert TicketLinked(s, t);
    TrackerBounds(s.canc, s.tickets[t].tracker);
  }

  /** The moving ticket's own links. */
  lemma SelfLinked(s: State, t: nat, op: Op)
    requires LinksOk(s) && t < |s.tickets| && OpEnabled(s, t, op) && LogOk(s.tickets[t])
    ensures TicketLinked(HandlerStep(s, t, op), t)
  {
    hide LinksOk, LogOk, OpEnabled, HandlerStep, TicketLinked;
    match op
    case TrackAgain => TrackLinked(s, t, op);
    case GuardOk => TrackLinked(s, t, op);
    case DoRebind => TrackLinked(s, t, op);
    case DeleteInner => InnerLinked(s, t, op);
    case CloseInner => InnerLinked(s, t, op);
    case BeginRelease => ReleaseLinked(s, t, op);
    case EndRelease => ReleaseLinked(s, t, op);
    case _ => QuietLinked(s, t, op);
  }

  lemma BeatsInRun(k: Ticket)
    requires LogOk(k)
    ensures k.beat.On? ==> k.pc == Running || k.pc == Joining
  {
  }

  lemma HandlerLinks(s: State, t: nat, op: Op)
    requires LinksOk(s) && t < |s.tickets| && OpEnabled(s, t, op) && LogOk(s.tickets[t])
    ensures LinksOk(HandlerStep(s, t, op))
  {
    hide LogOk, OpEnabled, CancOp, NewTicket, TicketLinked, C.Valid;
    var s' := HandlerStep(s, t, op);
    OpCanc(s, t, op);
    OpTouches(s, t, op);
    SelfLinked(s, t, op);
    forall u: nat | u < |s'.tickets| ensures TicketLinked(s', u) {
      if u != t {
        TouchedHome(s, t, op, u);
        OthersLinked(s, s', u, Touched(s.tickets[t], op));
      }
    }
  }

  /** A handler step touches only its own ticket's trackers. */
  lemma TouchedHome(s: State, t: nat, op: Op, u: nat)
    requires LinksOk(s) && t < |s.tickets| && OpEnabled(s, t, op) && u != t
    ensures var i := Touched(s.tickets[t], op);
            0 <= i < |s.homes| ==> s.homes[i] != ByTicket(u) && s.homes[i] != ByInner(u)
  {
    hide C.Valid, PhaseOk;
    assert TicketLinked(s, t);
  }

  lemma AdmitLinks(s: State, id: Id, async: bool, native: bool)
    requires LinksOk(s)
    ensures LinksOk(Admit(s, id, async, native))
  {
    hide C.Valid;
    var s' := Admit(s, id, async, native);
    C.TrackValid(s.canc, id);
    forall u: nat | u < |s'.tickets| ensures TicketLinked(s', u) {
      if u < |s.tickets| {
        assert TicketLinked(s, u);
        OthersLinked(s, s', u, -1);
      }
    }
  }

  /** Steps of other commands and of stops: they change the canceller and no ticket. */
  lemma OtherLinks(s: State, s': State, i: int)
    requires LinksOk(s) && s'.tickets == s.tickets && C.Valid(s'.canc) && Touches(s.canc, s'.canc, i)
    requires |s'.homes| == |s'.canc.trackers| && s.homes <= s'.homes
    requires 0 <= i < |s.homes| ==> s.homes[i] == Other
    ensures LinksOk(s')
  {
    hide C.Valid, TicketLinked;
    forall u: nat | u < |s'.tickets| ensures TicketLinked(s', u) {
      OthersLinked(s, s', u, i);
    }
  }

  lemma StepLinks(s: State, step: Step)
    requires LinksOk(s) && LogsOk(s) && Enabled(s, step)
    ensures LinksOk(Apply(s, step))
  {
    hide C.Valid, LogOk, TicketLinked, HandlerStep, Admit, OpEnabled;
    match step
    case Handler(t, op) => HandlerLinks(s, t, op);
    case Enqueue(id, async, native) => AdmitLinks(s, id, async, native);
    case OtherTrack(id) =>
      C.TrackValid(s.canc, id);
      OtherLinks(s, Apply(s, step), -1);
    case OtherDelete(i) =>
      C.DeleteMapsValid(s.canc, i);
      OtherLinks(s, Apply(s, step), i);
    case OtherClose(i) =>
      C.DeletedOwns(s.canc, i);
      C.CloseDoneValid(s.canc, i);
      OtherLinks(s, Apply(s, step), i);
    case CancelTracked(i) =>
      C.CancelOneValid(s.canc, s.canc.trackers[i].ctx);
      OtherLinks(s, Apply(s, step), -1);
    case StopCancel(k) =>
      C.CancelOneValid(s.canc, s.stops[k].phase.ctx);
      OtherLinks(s, Apply(s, step), -1);
    case _ => OtherLinks(s, Apply(s, step), -1);
  }
}
