/** The backup helper's execution core as a transition system: the FIFO of tickets, their handlers and
heartbeats, the canceller, targeted stops and every other tracked command, in any interleaving.

Models agent/cmd/breeze-backup/execution_queue.go and the admission, handler and backup_stop parts of
agent/cmd/breeze-backup/main.go. Every step is a critical section, a channel operation or a send.
*/
module HelperSystem {
  import opened Contexts
  import C = Canceller

  type Id = C.Id

  datatype Msg = AckMsg | QueuedMsg | StartingMsg | ExecutingMsg | TerminalMsg

  /** Where a ticket's handler is; from Selecting on it has been released. */
  datatype Pc =
    | Ack            // about to acknowledge an async command
    | Announce       // about to send the first "queued"
    | Waiting        // in ticket.wait
    | Retrack        // wait returned nil
    | Acquiring      // in AcquireExecutionWithProgress
    | Rebinding      // guard held, about to rebind
    | Starting       // about to send "starting"
    | Running        // executeCommand in flight
    | Joining        // heartbeat stop closed, joining the sender
    | InnerDelete    // run()'s own deferred cleanup: its critical section ...
    | InnerClose     // ... and its cancel and close
    | Terminal       // about to send the terminal result
    | Release        // ticket.release about to run
    | ReleaseClose   // inside ticket.cleanup, holding the queue lock
    | Selecting      // about to choose between closing and parking
    | Parked         // a goroutine waits for previous, then closes
    | Closed         // done is closed
  {
    /** The wait has not returned. */
    predicate BeforeGrant() { Ack? || Announce? || Waiting? }

    /** The wait returned nil and run() is still in progress. */
    predicate InRun() {
      Retrack? || Acquiring? || Rebinding? || Starting? || Running? || Joining? || InnerDelete? || InnerClose?
    }

    /** The ticket's cleanup has run: its entry is gone and its id can be admitted again. */
    predicate AfterRelease() { Selecting? || Parked? || Closed? }
  }

  /** The heartbeat goroutine: whether stop is closed and whether a received tick is still to be sent. */
  datatype Beat = Off | On(stop: bool, pending: bool) | Exited

  datatype Ticket = Ticket(
    id: Id, previous: int, tracker: nat, async: bool, native: bool,
    pc: Pc, granted: bool, inner: int, guard: int, beat: Beat, closes: nat, log: seq<Msg>)

  /** Which call a canceller tracker belongs to. */
  datatype Home = ByTicket(t: nat) | ByInner(t: nat) | Other

  /** A targeted backup_stop; `victim` and `owner` are history: the track call whose cancel it read, and
      the one whose done channel it waits on. */
  datatype StopPhase =
    | Holding(victim: nat, ctx: nat)
    | Cancelled(victim: nat)
    | Draining(victim: nat, owner: nat, chan: nat)
    | Reported(stopped: bool, drained: bool, victim: nat)

  /** `seen` is history too: how many tickets had been admitted when it began. */
  datatype Stop = Stop(id: Id, seen: nat, phase: StopPhase)

  datatype State = State(
    canc: C.State, homes: seq<Home>,
    entries: map<Id, nat>, tail: int, lock: int, tickets: seq<Ticket>, stops: seq<Stop>)

  const Init: State := State(C.Init, [], map[], -1, -1, [], [])

  datatype Op =
    | SendAck | AckFails | SendQueued
    | WaitTick | WaitGrant | WaitFail
    | TrackAgain | GuardTick | GuardOk | GuardFail | DoRebind
    | SendStarting | ExecReturn | Join | BeatReceive | BeatSend | BeatExit
    | DeleteInner | CloseInner | SendTerminal
    | BeginRelease | EndRelease | Select | ParkedClose

  datatype Step =
    | Enqueue(id: Id, async: bool, native: bool)
    | OtherTrack(id: Id) | OtherDelete(i: nat) | OtherClose(i: nat)
    | CancelTracked(i: nat)
    | StopBegin(id: Id) | StopCancel(k: nat) | StopLook(k: nat) | StopDrained(k: nat) | StopTimeout(k: nat)
    | Handler(t: nat, op: Op)

  // ---------------------------------------------------------------- what a step needs

  predicate PrevClosed(tickets: seq<Ticket>, t: nat)
    requires t < |tickets|
  {
    var p := tickets[t].previous;
    p == -1 || (0 <= p < |tickets| && tickets[p].pc == Closed)
  }

  predicate CtxDone(s: State, i: int) {
    0 <= i < |s.canc.trackers| && IsDone(s.canc.ctxs, s.canc.trackers[i].ctx)
  }

  /** The tracked context carries the execution guard's key: only the guard derives one context from another. */
  predicate HoldsGuard(s: State, i: int) {
    && 0 <= i < |s.canc.trackers|
    && s.canc.trackers[i].ctx < |s.canc.ctxs| && s.canc.ctxs[s.canc.trackers[i].ctx].parent >= 0
  }

  predicate OpEnabled(s: State, t: nat, op: Op)
    requires t < |s.tickets|
  {
    var k := s.tickets[t];
    match op
    case SendAck => k.pc == Ack
    case AckFails => k.pc == Ack
    case SendQueued => k.pc == Announce
    case WaitTick => k.pc == Waiting
    case WaitGrant => k.pc == Waiting && PrevClosed(s.tickets, t) && !CtxDone(s, k.tracker)
    case WaitFail => k.pc == Waiting && CtxDone(s, k.tracker)
    case TrackAgain => k.pc == Retrack
    case GuardTick => k.pc == Acquiring && !HoldsGuard(s, k.inner)
    case GuardOk => k.pc == Acquiring && (HoldsGuard(s, k.inner) || !CtxDone(s, k.inner))
    case GuardFail => k.pc == Acquiring && !HoldsGuard(s, k.inner) && CtxDone(s, k.inner)
    case DoRebind => k.pc == Rebinding
    case SendStarting => k.pc == Starting
    case ExecReturn => k.pc == Running
    case Join => k.pc == Joining && k.beat == Exited
    case BeatReceive => k.beat.On? && !k.beat.pending
    case BeatSend => k.beat.On? && k.beat.pending
    case BeatExit => k.beat.On? && k.beat.stop && !k.beat.pending
    case DeleteInner => k.pc == InnerDelete
    case CloseInner => k.pc == InnerClose
    case SendTerminal => k.pc == Terminal
    case BeginRelease => k.pc == Release && s.lock == -1
    case EndRelease => k.pc == ReleaseClose
    case Select => k.pc == Selecting
    case ParkedClose => k.pc == Parked && PrevClosed(s.tickets, t)
  }

  predicate Enabled(s: State, step: Step) {
    match step
    case Enqueue(_, _, _) => s.lock == -1
    case OtherTrack(_) => true
    case OtherDelete(i) => i < |s.homes| && i < |s.canc.trackers| && s.homes[i] == Other && s.canc.trackers[i].phase == C.Live
    case OtherClose(i) => i < |s.homes| && i < |s.canc.trackers| && s.homes[i] == Other && s.canc.trackers[i].phase == C.Deleted
    case CancelTracked(i) => i < |s.canc.trackers| && s.canc.trackers[i].owns
    case StopBegin(_) => true
    case StopCancel(k) => k < |s.stops| && s.stops[k].phase.Holding?
    case StopLook(k) => k < |s.stops| && s.stops[k].phase.Cancelled?
    case StopDrained(k) =>
      && k < |s.stops| && s.stops[k].phase.Draining?
      && s.stops[k].phase.chan < |s.canc.chans| && s.canc.chans[s.stops[k].phase.chan]
    case StopTimeout(k) => k < |s.stops| && s.stops[k].phase.Draining?
    case Handler(t, op) => t < |s.tickets| && OpEnabled(s, t, op)
  }

  // ---------------------------------------------------------------- what a step does

  /** The handler's own progress. */
  function NewTicket(s: State, t: nat, op: Op): (k': Ticket)
    requires t < |s.tickets|
  {
    var k := s.tickets[t];
    match op
    case SendAck => k.(pc := Announce, log := k.log + [AckMsg])
    case AckFails => k.(pc := Release)
    case SendQueued => k.(pc := Waiting, log := k.log + [QueuedMsg])
    case WaitTick => k.(log := k.log + [QueuedMsg])
    case WaitGrant => k.(pc := Retrack, granted := true)
    case WaitFail => k.(pc := Terminal)
    case TrackAgain => k.(pc := Acquiring, inner := |s.canc.trackers|)
    case GuardTick => k.(log := k.log + [QueuedMsg])
    case GuardOk =>
      k.(pc := Rebinding, guard := if HoldsGuard(s, k.inner) then s.canc.trackers[k.inner].ctx else |s.canc.ctxs|)
    case GuardFail => k.(pc := InnerDelete)
    case DoRebind => k.(pc := Starting)
    case SendStarting => k.(pc := Running, log := k.log + [StartingMsg], beat := if k.native then On(false, false) else Off)
    case ExecReturn =>
      if k.beat.On? then k.(pc := Joining, beat := On(true, k.beat.pending)) else k.(pc := InnerDelete)
    case Join => k.(pc := InnerDelete)
    case BeatReceive => if k.beat.On? then k.(beat := On(k.beat.stop, true)) else k
    case BeatSend => if k.beat.On? then k.(beat := On(k.beat.stop, false), log := k.log + [ExecutingMsg]) else k
    case BeatExit => k.(beat := Exited)
    case DeleteInner => k.(pc := if Owns(s, k.inner) then InnerClose else Terminal)
    case CloseInner => k.(pc := Terminal)
    case SendTerminal => k.(pc := Release, log := k.log + [TerminalMsg])
    case BeginRelease => k.(pc := ReleaseClose)
    case EndRelease => k.(pc := Selecting)
    case Select => if PrevClosed(s.tickets, t) then k.(pc := Closed, closes := k.closes + 1) else k.(pc := Parked)
    case ParkedClose => k.(pc := Closed, closes := k.closes + 1)
  }

  predicate Owns(s: State, i: int) {
    0 <= i < |s.canc.trackers| && s.canc.trackers[i].owns
  }

  /** What a handler step does to the canceller. */
  function CancOp(s: State, t: nat, op: Op): (c': C.State)
    requires t < |s.tickets|
  {
    var k := s.tickets[t];
    match op
    case TrackAgain => C.Track(s.canc, k.id)
    case GuardOk =>
      if 0 <= k.inner < |s.canc.trackers| && !HoldsGuard(s, k.inner)
      then C.Derive(s.canc, s.canc.trackers[k.inner].ctx) else s.canc
    case DoRebind => if k.guard >= 0 then C.Rebind(s.canc, k.id, k.guard) else s.canc
    case DeleteInner => if 0 <= k.inner < |s.canc.trackers| then C.DeleteMaps(s.canc, k.inner) else s.canc
    case CloseInner => if 0 <= k.inner < |s.canc.trackers| then C.CloseDone(s.canc, k.inner) else s.canc
    case BeginRelease => if k.tracker < |s.canc.trackers| then C.DeleteMaps(s.canc, k.tracker) else s.canc
    case EndRelease => if Owns(s, k.tracker) then C.CloseDone(s.canc, k.tracker) else s.canc
    case _ => s.canc
  }

  function HandlerStep(s: State, t: nat, op: Op): (s': State)
    requires t < |s.tickets|
  {
    s.(canc := CancOp(s, t, op),
       homes := if op == TrackAgain then s.homes + [ByInner(t)] else s.homes,
       entries := if op == EndRelease then s.entries - {s.tickets[t].id} else s.entries,
       lock := if op == BeginRelease then t else if op == EndRelease then -1 else s.lock,
       tickets := s.tickets[t := NewTicket(s, t, op)])
  }

  /** enqueue: a duplicate id changes nothing; the receive loop only re-acknowledges it. */
  function Admit(s: State, id: Id, async: bool, native: bool): (s': State) {
    if id in s.entries then s
    else
      s.(canc := C.Track(s.canc, id), homes := s.homes + [ByTicket(|s.tickets|)],
         entries := s.entries[id := |s.tickets|], tail := |s.tickets|,
         tickets := s.tickets + [Ticket(id, s.tail, |s.canc.trackers|, async, native,
                                        if async then Ack else Announce, false, -1, -1, Off, 0, [])])
  }

  function StopStep(s: State, k: nat, phase: StopPhase): (s': State)
    requires k < |s.stops|
  {
    s.(stops := s.stops[k := s.stops[k].(phase := phase)])
  }

  /** executeCommand for a targeted stop: cancel reads the map, then calls the cancel func, then
      waitDone reads the done map, then waits on the channel. */
  function Apply(s: State, step: Step): (s': State)
    requires Enabled(s, step)
  {
    match step
    case Enqueue(id, async, native) => Admit(s, id, async, native)
    case OtherTrack(id) => s.(canc := C.Track(s.canc, id), homes := s.homes + [Other])
    case OtherDelete(i) => s.(canc := C.DeleteMaps(s.canc, i))
    case OtherClose(i) => s.(canc := C.CloseDone(s.canc, i))
    case CancelTracked(i) => s.(canc := C.CancelOne(s.canc, s.canc.trackers[i].ctx))
    case StopBegin(id) =>
      if id in s.canc.cancels && id in s.canc.owners
      then s.(stops := s.stops + [Stop(id, |s.tickets|, Holding(s.canc.owners[id], s.canc.cancels[id]))])
      else s.(stops := s.stops + [Stop(id, |s.tickets|, Reported(false, true, 0))])
    case StopCancel(k) =>
      StopStep(s.(canc := C.CancelOne(s.canc, s.stops[k].phase.ctx)), k, Cancelled(s.stops[k].phase.victim))
    case StopLook(k) =>
      var id, v := s.stops[k].id, s.stops[k].phase.victim;
      StopStep(s, k, if id in s.canc.done && id in s.canc.owners
                     then Draining(v, s.canc.owners[id], s.canc.done[id])
                     else Reported(true, true, v))
    case StopDrained(k) => StopStep(s, k, Reported(true, true, s.stops[k].phase.victim))
    case StopTimeout(k) => StopStep(s, k, Reported(true, false, s.stops[k].phase.victim))
    case Handler(t, op) => HandlerStep(s, t, op)
  }

  // ---------------------------------------------------------------- runs

  /** A sequence of steps each enabled where it is taken. */
  ghost predicate Legal(s: State, steps: seq<Step>)
    decreases |steps|
  {
    steps == [] || (Enabled(s, steps[0]) && Legal(Apply(s, steps[0]), steps[1..]))
  }

  ghost function Run(s: State, steps: seq<Step>): (s': State)
    requires Legal(s, steps)
    decreases |steps|
  {
    if steps == [] then s else Run(Apply(s, steps[0]), steps[1..])
  }
}
