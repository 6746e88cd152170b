/** What a queued command's two waits answer, and when its heartbeat beats, in every run.

`ticket.wait` and `AcquireExecutionWithProgress` return nil exactly when the command was not cancelled; a
command cancelled while it waits never starts.
*/
module WaitAnswers {
  import opened Contexts
  import opened HelperSystem
  import opened MessageProtocol
  import opened StopSafety
  import C = Canceller

  /** The context the ticket was admitted with has ended. */
  predicate WaitCancelled(s: State, k: Ticket) {
    k.tracker < |s.canc.trackers| && IsDone(s.canc.ctxs, s.canc.trackers[k.tracker].ctx)
  }

  /** The context its run() tracked has ended. */
  predicate RunCancelled(s: State, k: Ticket) {
    0 <= k.inner < |s.canc.trackers| && IsDone(s.canc.ctxs, s.canc.trackers[k.inner].ctx)
  }

  /** run() is on its way out or gone. */
  predicate Leaving(k: Ticket) {
    k.pc == InnerDelete || k.pc == InnerClose || k.pc == Terminal || Past(k)
  }

  /** Which phases the answers allow. */
  predicate GrantOk(k: Ticket) {
    && (k.pc.BeforeGrant() ==> !k.granted)
    && (k.pc.InRun() ==> k.granted)
    && (StartingMsg in k.log ==> k.granted)
    && (k.pc == Running || k.pc == Joining ==> StartingMsg in k.log)
  }

  /** A command that ended without being granted, or without starting, was cancelled. */
  predicate CauseOk(s: State, k: Ticket) {
    && (!k.granted && k.log != [] && (k.pc == Terminal || Past(k)) ==> WaitCancelled(s, k))
    && (k.granted && StartingMsg !in k.log && Leaving(k) ==> RunCancelled(s, k))
  }

  /** The heartbeat runs exactly while a native command executes. */
  predicate BeatOk(k: Ticket) {
    && (k.beat != Off ==> k.native)
    && (k.native && (k.pc == Running || k.pc == Joining) ==> k.beat != Off)
    && (ExecutingMsg in k.log ==> k.native)
  }

  lemma CancelledStays(s: State, s': State, k: Ticket)
    requires Evolves(s.canc, s'.canc)
    ensures WaitCancelled(s, k) ==> WaitCancelled(s', k)
    ensures RunCancelled(s, k) ==> RunCancelled(s', k)
  {
    hide IsDone;
    if k.tracker < |s.canc.trackers| { assert TrackerEvolves(s.canc.trackers[k.tracker], s'.canc.trackers[k.tracker]); }
    if 0 <= k.inner < |s.canc.trackers| { assert TrackerEvolves(s.canc.trackers[k.inner], s'.canc.trackers[k.inner]); }
  }

  lemma OpBeat(s: State, t: nat, op: Op)
    requires t < |s.tickets| && OpEnabled(s, t, op) && LogOk(s.tickets[t]) && BeatOk(s.tickets[t])
    ensures BeatOk(NewTicket(s, t, op))
  {
    hide PrevClosed, CtxDone, HoldsGuard, Owns, ShapeOf, AckFirst;
  }

  lemma OpGrant(s: State, t: nat, op: Op)
    requires t < |s.tickets| && OpEnabled(s, t, op) && LogOk(s.tickets[t]) && GrantOk(s.tickets[t])
    ensures GrantOk(NewTicket(s, t, op))
  {
    hide PrevClosed, CtxDone, HoldsGuard, Owns, ShapeOf, AckFirst;
  }

  /** What a handler step makes of the reasons, before the contexts move on. */
  lemma OpCause(s: State, t: nat, op: Op)
    requires t < |s.tickets| && OpEnabled(s, t, op) && LogOk(s.tickets[t]) && GrantOk(s.tickets[t]) && CauseOk(s, s.tickets[t])
    ensures CauseOk(s, NewTicket(s, t, op))
  {
    hide PrevClosed, HoldsGuard, Owns, ShapeOf, AckFirst, IsDone;
    NonSilent(s.tickets[t].log);
  }

  ghost predicate AnswersOk(s: State) {
    forall t: nat :: t < |s.tickets| ==> GrantOk(s.tickets[t]) && BeatOk(s.tickets[t]) && CauseOk(s, s.tickets[t])
  }

  lemma CauseStays(s: State, s': State, k: Ticket)
    requires Evolves(s.canc, s'.canc) && CauseOk(s, k)
    ensures CauseOk(s', k)
  {
    hide Evolves, WaitCancelled, RunCancelled, Past;
    CancelledStays(s, s', k);
  }

  lemma FreshAnswers(s: State, k: Ticket)
    requires !k.granted && k.log == [] && k.beat == Off && (k.pc == Ack || k.pc == Announce)
    ensures GrantOk(k) && BeatOk(k) && CauseOk(s, k)
  {
  }

  lemma StepAnswers(s: State, step: Step)
    requires LogsOk(s) && AnswersOk(s) && Enabled(s, step)
    ensures AnswersOk(Apply(s, step))
  {
    hide LogOk, GrantOk, BeatOk, CauseOk, NewTicket, CancOp, OpEnabled, Evolves;
    var s' := Apply(s, step);
    StepEvolves(s, step);
    forall t: nat | t < |s'.tickets| ensures GrantOk(s'.tickets[t]) && BeatOk(s'.tickets[t]) && CauseOk(s', s'.tickets[t]) {
      if step.Handler? && step.t == t {
        OpGrant(s, t, step.op);
        OpBeat(s, t, step.op);
        OpCause(s, t, step.op);
        CauseStays(s, s', s'.tickets[t]);
      } else if t < |s.tickets| {
        CauseStays(s, s', s.tickets[t]);
      } else {
        FreshAnswers(s', s'.tickets[t]);
      }
    }
  }

  lemma {:induction false} RunAnswers(s: State, steps: seq<Step>)
    requires LogsOk(s) && AnswersOk(s) && Legal(s, steps)
    ensures LogsOk(Run(s, steps)) && AnswersOk(Run(s, steps))
    decreases |steps|
  {
    hide LogsOk, AnswersOk, Apply, Enabled;
    if steps != [] {
      StepLogs(s, steps[0]);
      StepAnswers(s, steps[0]);
      RunAnswers(Apply(s, steps[0]), steps[1..]);
    }
  }

  lemma ReachedAnswers(steps: seq<Step>)
    requires Legal(Init, steps)
    ensures LogsOk(Run(Init, steps)) && AnswersOk(Run(Init, steps))
  {
    hide Apply, Enabled;
    assert LogsOk(Init) && AnswersOk(Init);
    RunAnswers(Init, steps);
  }

  // ---------------------------------------------------------------- what the waits promise

  /** In every run: a command that answered at all but was never granted its turn had been cancelled; one that
      was granted it and ended without starting had its run cancelled; and only granted commands start. */
  lemma UnstartedWasCancelled(steps: seq<Step>, t: nat)
    requires Legal(Init, steps) && t < |Run(Init, steps).tickets|
    ensures var s, k := Run(Init, steps), Run(Init, steps).tickets[t];
            && (k.log != [] && !k.granted && (k.pc == Terminal || Past(k)) ==>
                  k.tracker < |s.canc.trackers| && IsDone(s.canc.ctxs, s.canc.trackers[k.tracker].ctx))
            && (k.granted && StartingMsg !in k.log && (k.pc == Terminal || Past(k)) ==>
                  0 <= k.inner < |s.canc.trackers| && IsDone(s.canc.ctxs, s.canc.trackers[k.inner].ctx))
            && (StartingMsg in k.log ==> k.granted)
  {
    hide Apply, Enabled, LogOk, BeatOk, IsDone;
    ReachedAnswers(steps);
  }

  /** In every run: only native commands have a heartbeat, and they have one from the start of their execution
      until it is joined. */
  lemma NativeBeats(steps: seq<Step>, t: nat)
    requires Legal(Init, steps) && t < |Run(Init, steps).tickets|
    ensures var k := Run(Init, steps).tickets[t];
            && (ExecutingMsg in k.log || k.beat != Off ==> k.native)
            && (k.native && (k.pc == Running || k.pc == Joining) ==> k.beat != Off)
  {
    hide Apply, Enabled, LogOk, GrantOk, CauseOk;
    ReachedAnswers(steps);
  }

  lemma WaitMoves(s: State, t: nat, op: Op)
    requires t < |s.tickets| && s.tickets[t].pc == Waiting && !s.tickets[t].granted && s.tickets[t].beat == Off
    requires OpEnabled(s, t, op)
    ensures var k' := NewTicket(s, t, op); k'.pc == Waiting || (k'.granted <==> !CtxDone(s, s.tickets[t].tracker))
  {
    hide CtxDone, HoldsGuard, PrevClosed;
  }

  /** The wait either goes on or answers nil exactly when the command is not cancelled. */
  lemma WaitAnswer(s: State, t: nat, op: Op)
    requires t < |s.tickets| && s.tickets[t].pc == Waiting && !s.tickets[t].granted && LogOk(s.tickets[t])
    requires s.tickets[t].tracker < |s.canc.trackers| && Enabled(s, Handler(t, op))
    ensures var k' := Apply(s, Handler(t, op)).tickets[t];
            k'.pc == Waiting || (k'.granted <==> !IsDone(s.canc.ctxs, s.canc.trackers[s.tickets[t].tracker].ctx))
  {
    hide IsDone, ShapeOf, CancOp, NewTicket, OpEnabled;
    WaitMoves(s, t, op);
  }

  // ---------------------------------------------------------------- cancelled before its turn

  /** Cancelled, and neither granted nor started. */
  predicate Refused(s: State, k: Ticket) {
    WaitCancelled(s, k) && !k.granted && StartingMsg !in k.log && !k.pc.InRun()
  }

  lemma OpRefused(s: State, t: nat, op: Op)
    requires t < |s.tickets| && OpEnabled(s, t, op) && LogOk(s.tickets[t]) && Refused(s, s.tickets[t])
    ensures Refused(s, NewTicket(s, t, op))
  {
    hide PrevClosed, HoldsGuard, Owns, ShapeOf, AckFirst, IsDone;
  }

  lemma StepRefused(s: State, step: Step, t: nat)
    requires LogsOk(s) && Enabled(s, step) && t < |s.tickets| && Refused(s, s.tickets[t])
    ensures t < |Apply(s, step).tickets| && Refused(Apply(s, step), Apply(s, step).tickets[t])
  {
    hide LogOk, NewTicket, CancOp, OpEnabled, Evolves, WaitCancelled;
    var s' := Apply(s, step);
    StepEvolves(s, step);
    if step.Handler? && step.t == t { OpRefused(s, t, step.op); }
    CancelledStays(s, s', s'.tickets[t]);
  }

  lemma {:induction false} RunRefused(s: State, steps: seq<Step>, t: nat)
    requires LogsOk(s) && Legal(s, steps) && t < |s.tickets| && Refused(s, s.tickets[t])
    ensures t < |Run(s, steps).tickets| && Refused(Run(s, steps), Run(s, steps).tickets[t])
    decreases |steps|
  {
    hide LogsOk, Refused, Apply, Enabled;
    if steps != [] {
      StepLogs(s, steps[0]);
      StepRefused(s, steps[0], t);
      RunRefused(Apply(s, steps[0]), steps[1..], t);
    }
  }

  /** A command cancelled before its turn is never granted it and never starts, however the run goes on. */
  lemma CancelledNeverStarts(steps: seq<Step>, t: nat, more: seq<Step>)
    requires Legal(Init, steps) && t < |Run(Init, steps).tickets|
    requires var s, k := Run(Init, steps), Run(Init, steps).tickets[t];
             && k.pc.BeforeGrant() && k.tracker < |s.canc.trackers|
             && IsDone(s.canc.ctxs, s.canc.trackers[k.tracker].ctx)
    requires Legal(Run(Init, steps), more)
    ensures t < |Run(Run(Init, steps), more).tickets|
    ensures var k := Run(Run(Init, steps), more).tickets[t];
            !k.granted && StartingMsg !in k.log
  {
    hide Apply, Enabled, LogOk, BeatOk, CauseOk, IsDone;
    ReachedAnswers(steps);
    RunRefused(Run(Init, steps), more, t);
  }

  // ---------------------------------------------------------------- cancelled while it acquires the guard

  /** Cancelled at the guard without holding it, or past it, and not started. */
  predicate TurnedAway(s: State, k: Ticket) {
    && RunCancelled(s, k) && !HoldsGuard(s, k.inner)
    && StartingMsg !in k.log && (k.pc == Acquiring || Leaving(k))
  }

  lemma GuardStays(s: State, s': State, i: int)
    requires Evolves(s.canc, s'.canc) && ParentsKept(s.canc.ctxs, s'.canc.ctxs) && 0 <= i < |s.canc.trackers|
    requires s.canc.trackers[i].ctx < |s.canc.ctxs|
    ensures HoldsGuard(s', i) <==> HoldsGuard(s, i)
  {
    hide IsDone;
    assert TrackerEvolves(s.canc.trackers[i], s'.canc.trackers[i]);
  }

  ghost predicate ParentsKept(ctxs: seq<Ctx>, ctxs': seq<Ctx>) {
    |ctxs| <= |ctxs'| && forall c :: 0 <= c < |ctxs| ==> ctxs'[c].parent == ctxs[c].parent
  }

  lemma CancParents(c: C.State, id: Id, i: nat, x: nat)
    ensures ParentsKept(c.ctxs, c.ctxs) && ParentsKept(c.ctxs, C.Track(c, id).ctxs)
    ensures ParentsKept(c.ctxs, C.CancelOne(c, x).ctxs)
    ensures i < |c.trackers| ==> ParentsKept(c.ctxs, C.DeleteMaps(c, i).ctxs) && ParentsKept(c.ctxs, C.CloseDone(c, i).ctxs)
  {
  }

  lemma OpParents(s: State, t: nat, op: Op)
    requires t < |s.tickets|
    ensures ParentsKept(s.canc.ctxs, CancOp(s, t, op).ctxs)
  {
    hide C.Track, C.CancelOne, C.DeleteMaps, C.CloseDone, HoldsGuard;
    var k := s.tickets[t];
    CancParents(s.canc, k.id, k.tracker, 0);
    if k.inner >= 0 { CancParents(s.canc, k.id, k.inner, 0); }
  }

  lemma StepParents(s: State, step: Step)
    requires Enabled(s, step)
    ensures ParentsKept(s.canc.ctxs, Apply(s, step).canc.ctxs)
  {
    hide C.Track, C.CancelOne, C.DeleteMaps, C.CloseDone, CancOp, OpEnabled, NewTicket, ParentsKept;
    match step
    case Handler(t, op) => OpParents(s, t, op);
    case Enqueue(id, _, _) => CancParents(s.canc, id, 0, 0);
    case OtherTrack(id) => CancParents(s.canc, id, 0, 0);
    case OtherDelete(i) => CancParents(s.canc, [], i, 0);
    case OtherClose(i) => CancParents(s.canc, [], i, 0);
    case CancelTracked(i) => CancParents(s.canc, [], 0, s.canc.trackers[i].ctx);
    case StopCancel(n) => CancParents(s.canc, [], 0, s.stops[n].phase.ctx);
    case _ => CancParents(s.canc, [], 0, 0);
  }

  lemma OpTurnedAway(s: State, t: nat, op: Op)
    requires t < |s.tickets| && OpEnabled(s, t, op) && LogOk(s.tickets[t]) && TurnedAway(s, s.tickets[t])
    ensures TurnedAway(s, NewTicket(s, t, op)) && NewTicket(s, t, op).inner == s.tickets[t].inner
  {
    hide PrevClosed, HoldsGuard, Owns, ShapeOf, AckFirst, IsDone;
  }

  lemma StepTurnedAway(s: State, step: Step, t: nat)
    requires LogsOk(s) && Enabled(s, step) && t < |s.tickets| && TurnedAway(s, s.tickets[t])
    ensures t < |Apply(s, step).tickets| && TurnedAway(Apply(s, step), Apply(s, step).tickets[t])
  {
    hide LogOk, NewTicket, CancOp, OpEnabled, Evolves, Leaving, ParentsKept, HoldsGuard, IsDone;
    var s' := Apply(s, step);
    StepEvolves(s, step);
    StepParents(s, step);
    if step.Handler? && step.t == t { OpTurnedAway(s, t, step.op); }
    DoneExists(s, s.tickets[t]);
    GuardStays(s, s', s.tickets[t].inner);
    CancelledStays(s, s', s'.tickets[t]);
  }

  lemma DoneExists(s: State, k: Ticket)
    requires RunCancelled(s, k)
    ensures s.canc.trackers[k.inner].ctx < |s.canc.ctxs|
  {
  }

  lemma {:induction false} RunTurnedAway(s: State, steps: seq<Step>, t: nat)
    requires LogsOk(s) && Legal(s, steps) && t < |s.tickets| && TurnedAway(s, s.tickets[t])
    ensures t < |Run(s, steps).tickets| && TurnedAway(Run(s, steps), Run(s, steps).tickets[t])
    decreases |steps|
  {
    hide LogsOk, TurnedAway, Apply, Enabled;
    if steps != [] {
      StepLogs(s, steps[0]);
      StepTurnedAway(s, steps[0], t);
      RunTurnedAway(Apply(s, steps[0]), steps[1..], t);
    }
  }

  lemma CancelledAtGuardNeverStarts(s: State, t: nat, more: seq<Step>)
    requires LogsOk(s) && t < |s.tickets| && s.tickets[t].pc == Acquiring
    requires RunCancelled(s, s.tickets[t]) && !HoldsGuard(s, s.tickets[t].inner) && Legal(s, more)
    ensures t < |Run(s, more).tickets| && StartingMsg !in Run(s, more).tickets[t].log
  {
    hide Apply, Enabled, IsDone, HoldsGuard, Legal, Run;
    NotBegun(s.tickets[t]);
    RunTurnedAway(s, more, t);
  }

  /** Under a context the guard derived earlier the guard lets the command pass, and it starts. */
  lemma PassesGuard(s: State, t: nat) returns (more: seq<Step>)
    requires t < |s.tickets| && s.tickets[t].pc == Acquiring && HoldsGuard(s, s.tickets[t].inner)
    ensures Legal(s, more) && t < |Run(s, more).tickets| && StartingMsg in Run(s, more).tickets[t].log
  {
    hide IsDone, CtxDone, HoldsGuard, C.Derive, C.Rebind;
    var a, b, c := Handler(t, GuardOk), Handler(t, DoRebind), Handler(t, SendStarting);
    more := [a, b, c];
    ThreeSteps(s, a, b, c);
  }

  lemma ThreeSteps(s: State, a: Step, b: Step, c: Step)
    requires Enabled(s, a) && Enabled(Apply(s, a), b) && Enabled(Apply(Apply(s, a), b), c)
    ensures Legal(s, [a, b, c]) && Run(s, [a, b, c]) == Apply(Apply(Apply(s, a), b), c)
  {
    hide Enabled, Apply;
    var s1, s2 := Apply(s, a), Apply(Apply(s, a), b);
    assert [a, b, c][1..] == [b, c] && [b, c][1..] == [c] && [c][1..] == [];
    assert Legal(s2, [c]) && Run(s2, [c]) == Apply(s2, c);
    assert Legal(s1, [b, c]) && Run(s1, [b, c]) == Apply(s2, c);
  }

  /** A command whose run is cancelled while it waits for the execution guard never starts, however the run goes
      on, exactly when its context was not derived by the guard before. */
  lemma CancelledAtGuardIff(steps: seq<Step>, t: nat)
    requires Legal(Init, steps) && t < |Run(Init, steps).tickets|
    requires var s, k := Run(Init, steps), Run(Init, steps).tickets[t];
             && k.pc == Acquiring && 0 <= k.inner < |s.canc.trackers|
             && IsDone(s.canc.ctxs, s.canc.trackers[k.inner].ctx)
    ensures var s, k := Run(Init, steps), Run(Init, steps).tickets[t];
            (forall more :: Legal(s, more) ==> t < |Run(s, more).tickets| && StartingMsg !in Run(s, more).tickets[t].log)
            <==> s.canc.ctxs[s.canc.trackers[k.inner].ctx].parent < 0
  {
    hide Apply, Enabled, BeatOk, CauseOk, IsDone, Legal, Run, LogOk;
    ReachedAnswers(steps);
    var s := Run(Init, steps);
    DoneExists(s, s.tickets[t]);
    if HoldsGuard(s, s.tickets[t].inner) {
      var more := PassesGuard(s, t);
      assert Legal(s, more);
    } else {
      forall more | Legal(s, more)
        ensures t < |Run(s, more).tickets| && StartingMsg !in Run(s, more).tickets[t].log
      {
        CancelledAtGuardNeverStarts(s, t, more);
      }
    }
  }

  lemma NotBegun(k: Ticket)
    requires LogOk(k) && k.pc == Acquiring
    ensures StartingMsg !in k.log
  {
    hide ShapeOf;
    InQueueNotStarted(k.log);
  }

  lemma {:induction false} InQueueNotStarted(log: seq<Msg>)
    ensures ShapeOf(log) in {Silent, Acked, InQueue} ==> StartingMsg !in log
  {
    if log != [] { InQueueNotStarted(log[..|log| - 1]); }
  }
}
