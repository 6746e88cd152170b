/** The queue never deadlocks: handlers that keep returning close every done channel, once each. */
module QueueProgress {
  import opened HelperSystem
  import opened QueueSafety
  import opened MessageProtocol
  import opened CancelSafety
  import opened StopSafety
  import C = Canceller

  /** Ticks only report liveness; every other handler step gets somewhere. */
  predicate Progress(op: Op) {
    !(op.WaitTick? || op.GuardTick? || op.BeatReceive?)
  }

  function PcWeight(pc: Pc): (n: nat) {
    match pc
    case Ack => 17 case Announce => 16 case Waiting => 15 case Retrack => 14
    case Acquiring => 13 case Rebinding => 12 case Starting => 11 case Running => 10 case Joining => 9
    case InnerDelete => 8 case InnerClose => 7 case Terminal => 6
    case Release => 5 case ReleaseClose => 4 case Selecting => 3 case Parked => 2 case Closed => 0
  }

  /** How far a ticket is from a closed done channel. */
  function Weight(k: Ticket): (n: nat) {
    3 * PcWeight(k.pc) + match k.beat case On(_, pending) => (if pending then 2 else 1) case _ => 0
  }

  function Measure(tickets: seq<Ticket>): (n: nat) {
    if tickets == [] then 0 else Measure(tickets[..|tickets| - 1]) + Weight(tickets[|tickets| - 1])
  }

  lemma {:induction false} MeasureUpdate(tickets: seq<Ticket>, t: nat, k: Ticket)
    requires t < |tickets|
    ensures Measure(tickets[t := k]) == Measure(tickets) - Weight(tickets[t]) + Weight(k)
  {
    var n := |tickets| - 1;
    if t == n {
      assert tickets[t := k][..n] == tickets[..n];
    } else {
      assert tickets[t := k][..n] == tickets[..n][t := k];
      MeasureUpdate(tickets[..n], t, k);
    }
  }

  lemma WeightDecreases(s: State, t: nat, op: Op)
    requires t < |s.tickets| && OpEnabled(s, t, op) && LogOk(s.tickets[t]) && Progress(op)
    ensures Weight(NewTicket(s, t, op)) < Weight(s.tickets[t])
  {
    hide CtxDone, HoldsGuard, ShapeOf, AckFirst;
  }

  /** Every release, close and other progress step lowers the measure. */
  lemma MeasureDecreases(s: State, t: nat, op: Op)
    requires LogsOk(s) && Enabled(s, Handler(t, op)) && Progress(op)
    ensures Measure(Apply(s, Handler(t, op)).tickets) < Measure(s.tickets)
  {
    hide CancOp, NewTicket, OpEnabled, LogOk, Weight, Progress;
    WeightDecreases(s, t, op);
    MeasureUpdate(s.tickets, t, NewTicket(s, t, op));
  }

  // ---------------------------------------------------------------- no deadlock

  ghost predicate AllClosed(tickets: seq<Ticket>) {
    forall t: nat :: t < |tickets| ==> tickets[t].pc == Closed
  }

  lemma {:induction false} Earliest(tickets: seq<Ticket>, t: nat) returns (e: nat)
    requires t < |tickets| && tickets[t].pc != Closed
    ensures e <= t && tickets[e].pc != Closed && (e == 0 || tickets[e - 1].pc == Closed)
  {
    if t == 0 || tickets[t - 1].pc == Closed { e := t; } else { e := Earliest(tickets, t - 1); }
  }

  /** What the earliest unclosed ticket can do next. */
  function NextOp(s: State, e: nat): (op: Op)
    requires e < |s.tickets|
  {
    var k := s.tickets[e];
    match k.pc
    case Ack => SendAck
    case Announce => SendQueued
    case Waiting => if CtxDone(s, k.tracker) then WaitFail else WaitGrant
    case Retrack => TrackAgain
    case Acquiring => if CtxDone(s, k.inner) && !HoldsGuard(s, k.inner) then GuardFail else GuardOk
    case Rebinding => DoRebind
    case Starting => SendStarting
    case Running => ExecReturn
    case Joining => if k.beat == Exited then Join else if k.beat.On? && k.beat.pending then BeatSend else BeatExit
    case InnerDelete => DeleteInner
    case InnerClose => CloseInner
    case Terminal => SendTerminal
    case Release => BeginRelease
    case ReleaseClose => EndRelease
    case Selecting => Select
    case Parked => ParkedClose
    case Closed => Select
  }

  lemma EarliestReady(s: State, e: nat)
    requires e < |s.tickets| && s.tickets[e].pc != Closed && LogOk(s.tickets[e])
    requires s.tickets[e].previous == e - 1 && (e == 0 || s.tickets[e - 1].pc == Closed)
    requires s.tickets[e].pc == Release ==> s.lock == -1
    ensures OpEnabled(s, e, NextOp(s, e)) && Progress(NextOp(s, e))
  {
    hide CtxDone, HoldsGuard, ShapeOf, AckFirst;
  }

  lemma LockHolder(s: State)
    requires Safe(s) && s.lock != -1
    ensures 0 <= s.lock < |s.tickets| && s.tickets[s.lock].pc == ReleaseClose
  {
    hide ChainOk;
    assert IndexedOk(s, s.lock);
  }

  /** In every reachable state with an unclosed done, the earliest such ticket can take its next step,
      or the ticket inside the queue lock it waits for can leave it. */
  lemma NoDeadlock(s: State, t: nat) returns (e: nat, op: Op)
    requires All(s) && t < |s.tickets| && s.tickets[t].pc != Closed
    ensures Enabled(s, Handler(e, op)) && Progress(op)
    ensures (s.tickets[e].pc != Closed && (e == 0 || s.tickets[e - 1].pc == Closed)) || s.lock == e
  {
    hide StopsOk, HandedOk, LinksOk, IndexOk, NextOp, LogOk, CtxDone, HoldsGuard;
    e := Earliest(s.tickets, t);
    assert LinkOk(s.tickets, e) && LogOk(s.tickets[e]);
    if s.tickets[e].pc == Release && s.lock != -1 {
      LockHolder(s);
      e := s.lock;
      op := EndRelease;
    } else {
      EarliestReady(s, e);
      op := NextOp(s, e);
    }
  }

  /** Progress steps only. */
  ghost predicate Driven(steps: seq<Step>) {
    forall i :: 0 <= i < |steps| ==> steps[i].Handler? && Progress(steps[i].op)
  }

  /** If the handlers keep going, every done closes: from any reachable state the handlers' own steps
      lead to one where all are closed, each exactly once, within the measure. */
  lemma {:induction false} Drains(s: State) returns (steps: seq<Step>)
    requires All(s)
    ensures Legal(s, steps) && Driven(steps) && |steps| <= Measure(s.tickets)
    ensures AllClosed(Run(s, steps).tickets)
    ensures forall t: nat :: t < |Run(s, steps).tickets| ==> Run(s, steps).tickets[t].closes == 1
    decreases Measure(s.tickets)
  {
    hide All, Apply, Enabled, Progress, LinkOk, OpEnabled;
    if AllClosed(s.tickets) {
      steps := [];
      ClosedOnce(s);
    } else {
      var t: nat :| t < |s.tickets| && s.tickets[t].pc != Closed;
      var e, op := NoDeadlock(s, t);
      StepAll(s, Handler(e, op));
      AllLogs(s);
      MeasureDecreases(s, e, op);
      var rest := Drains(Apply(s, Handler(e, op)));
      steps := [Handler(e, op)] + rest;
      assert steps[1..] == rest;
    }
  }

  lemma AllLogs(s: State)
    requires All(s)
    ensures LogsOk(s)
  {
  }

  lemma ClosedOnce(s: State)
    requires All(s)
    ensures forall t: nat :: t < |s.tickets| ==> s.tickets[t].closes == if s.tickets[t].pc == Closed then 1 else 0
  {
    hide LogsOk, LinksOk, StopsOk, HandedOk, IndexOk;
    forall t: nat | t < |s.tickets| ensures s.tickets[t].closes == if s.tickets[t].pc == Closed then 1 else 0 {
      assert LinkOk(s.tickets, t);
    }
  }

  /** Handler progress cannot go on forever, and where it can go no further everything is closed. */
  lemma {:induction false} ProgressEnds(s: State, steps: seq<Step>)
    requires All(s) && Legal(s, steps) && Driven(steps)
    ensures |steps| + Measure(Run(s, steps).tickets) <= Measure(s.tickets)
    ensures (forall t: nat, op: Op :: Enabled(Run(s, steps), Handler(t, op)) ==> !Progress(op)) ==>
              AllClosed(Run(s, steps).tickets)
    decreases |steps|
  {
    hide All, Apply, Enabled, Progress, OpEnabled;
    if steps == [] {
      if t: nat :| t < |s.tickets| && s.tickets[t].pc != Closed {
        var e, op := NoDeadlock(s, t);
      }
    } else {
      StepAll(s, steps[0]);
      AllLogs(s);
      MeasureDecreases(s, steps[0].t, steps[0].op);
      ProgressEnds(Apply(s, steps[0]), steps[1..]);
    }
  }

  // ---------------------------------------------------------------- every run

  /** The most a ticket can weigh: a fresh async one. */
  const FRESH: nat := 51

  /** What the environment adds to the measure in a run: admissions and the ticks heartbeats receive. */
  function Added(steps: seq<Step>): (n: nat) {
    if steps == [] then 0
    else
      Added(steps[1..]) +
      match steps[0]
      case Enqueue(_, _, _) => FRESH
      case Handler(_, op) => (if op == BeatReceive then 1 else 0)
      case _ => 0
  }

  function ProgressCount(steps: seq<Step>): (n: nat) {
    if steps == [] then 0
    else ProgressCount(steps[1..]) + if steps[0].Handler? && Progress(steps[0].op) then 1 else 0
  }

  lemma TickWeight(s: State, t: nat, op: Op)
    requires t < |s.tickets| && OpEnabled(s, t, op) && !Progress(op)
    ensures Weight(NewTicket(s, t, op)) <= Weight(s.tickets[t]) + if op == BeatReceive then 1 else 0
  {
    hide CtxDone, HoldsGuard, PrevClosed;
  }

  lemma MeasureAppend(tickets: seq<Ticket>, k: Ticket)
    ensures Measure(tickets + [k]) == Measure(tickets) + Weight(k)
  {
    assert (tickets + [k])[..|tickets|] == tickets;
  }

  lemma StepCost(s: State, step: Step)
    requires LogsOk(s) && Enabled(s, step)
    ensures Measure(Apply(s, step).tickets) + ProgressCount([step]) <= Measure(s.tickets) + Added([step])
  {
    hide LogOk, CancOp, NewTicket, OpEnabled, Weight, Progress, Measure;
    assert [step][1..] == [];
    match step
    case Handler(t, op) =>
      if Progress(op) {
        MeasureDecreases(s, t, op);
      } else {
        TickWeight(s, t, op);
        MeasureUpdate(s.tickets, t, NewTicket(s, t, op));
      }
    case Enqueue(id, async, native) =>
      if id !in s.entries {
        var k := Apply(s, step).tickets[|s.tickets|];
        MeasureAppend(s.tickets, k);
        FreshWeight(k);
      }
    case _ =>
  }

  lemma FreshWeight(k: Ticket)
    requires k.beat == Off
    ensures Weight(k) <= FRESH
  {
  }

  /** In every run, whatever else happens in between, the handlers' progress steps and what is left to do
      are bounded by what there was to do and what was admitted and ticked. */
  lemma {:induction false} ProgressBounded(s: State, steps: seq<Step>)
    requires LogsOk(s) && Legal(s, steps)
    ensures ProgressCount(steps) + Measure(Run(s, steps).tickets) <= Measure(s.tickets) + Added(steps)
    decreases |steps|
  {
    hide LogsOk, Apply, Enabled, Progress, Measure;
    if steps != [] {
      StepLogs(s, steps[0]);
      StepCost(s, steps[0]);
      assert [steps[0]][1..] == [];
      ProgressBounded(Apply(s, steps[0]), steps[1..]);
    }
  }

  /** No done channel is ever closed twice, in any run. */
  lemma NeverClosedTwice(steps: seq<Step>, t: nat)
    requires Legal(Init, steps) && t < |Run(Init, steps).tickets|
    ensures Run(Init, steps).tickets[t].closes <= 1
  {
    hide All, Apply, Enabled;
    InitAll();
    RunAll(Init, steps);
    ClosedOnce(Run(Init, steps));
  }

  /** A targeted stop that waits for a queued command can report drained as soon as that command is released. */
  lemma StopCanReport(steps: seq<Step>, n: nat, t: nat)
    requires Legal(Init, steps) && n < |Run(Init, steps).stops| && t < |Run(Init, steps).tickets|
    ensures var s := Run(Init, steps);
            s.stops[n].phase.Draining? && s.stops[n].phase.owner == s.tickets[t].tracker && s.tickets[t].pc.AfterRelease() ==>
              Enabled(s, StopDrained(n))
  {
    hide Apply, Legal, All;
    InitAll();
    RunAll(Init, steps);
    ReleasedChannel(Run(Init, steps), n, t);
  }

  lemma ReleasedChannel(s: State, n: nat, t: nat)
    requires All(s) && n < |s.stops| && t < |s.tickets|
    ensures s.stops[n].phase.Draining? && s.stops[n].phase.owner == s.tickets[t].tracker && s.tickets[t].pc.AfterRelease() ==>
              s.stops[n].phase.chan < |s.canc.chans| && s.canc.chans[s.stops[n].phase.chan]
  {
    hide Safe, LogsOk, HandedOk;
    assert TicketLinked(s, t) && StopOk(s.canc, s.stops[n]);
    assert C.TrackerOk(s.canc, s.tickets[t].tracker);
  }
}
