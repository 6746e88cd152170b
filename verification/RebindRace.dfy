/** Why cancel and backup_stop are only promised for ids the queue itself tracks: legal runs, for every id,
    in which another command owns the id and either misses the queued backup. */
module RebindRace {
  import opened Contexts
  import opened HelperSystem
  import C = Canceller

  /** An id is tracked elsewhere when its backup is admitted; between the backup's guard acquisition and
      its rebind that owner finishes and a third command tracks the id afresh. */
  function Race(id: Id): (steps: seq<Step>) {
    [OtherTrack(id), Enqueue(id, true, false), Handler(0, SendAck), Handler(0, SendQueued), Handler(0, WaitGrant),
     Handler(0, TrackAgain), Handler(0, GuardOk), OtherDelete(0), OtherTrack(id), Handler(0, DoRebind)]
  }

  const TICKET: Ticket := Ticket([], -1, 1, true, false, Ack, false, -1, -1, Off, 0, [])

  function Before(id: Id, pc: Pc, granted: bool, log: seq<Msg>): (s: State) {
    State(
      C.State([Ctx(-1, false)], [false], map[id := 0], map[id := 0], map[id := 0],
              [C.Tracker(id, 0, true, 0, C.Live), C.Tracker(id, 0, false, 0, C.Live)], map[id := 0]),
      [Other, ByTicket(0)], map[id := 0], 0, -1, [TICKET.(id := id, pc := pc, granted := granted, log := log)], [])
  }

  function Guarded(id: Id): (s: State) {
    State(
      C.State([Ctx(-1, false), Ctx(0, false)], [false], map[id := 0], map[id := 0], map[id := 0],
              [C.Tracker(id, 0, true, 0, C.Live), C.Tracker(id, 0, false, 0, C.Live),
               C.Tracker(id, 0, false, 0, C.Live)], map[id := 0]),
      [Other, ByTicket(0), ByInner(0)], map[id := 0], 0, -1,
      [TICKET.(id := id, pc := Rebinding, granted := true, inner := 2, guard := 1, log := [AckMsg, QueuedMsg])], [])
  }

  function Missed(id: Id): (s: State) {
    State(
      C.State([Ctx(-1, false), Ctx(0, false), Ctx(-1, false)], [false, false],
              map[id := 2], map[id := 1], map[id := 1],
              [C.Tracker(id, 0, true, 0, C.Deleted), C.Tracker(id, 0, false, 0, C.Live),
               C.Tracker(id, 0, false, 0, C.Live), C.Tracker(id, 2, true, 1, C.Live)], map[id := 3]),
      [Other, ByTicket(0), ByInner(0), Other], map[id := 0], 0, -1,
      [TICKET.(id := id, pc := Starting, granted := true, inner := 2, guard := 1, log := [AckMsg, QueuedMsg])], [])
  }

  /** One more step in front of a run. */
  lemma Prepend(s: State, step: Step, next: State, rest: seq<Step>)
    requires Enabled(s, step) && Apply(s, step) == next && Legal(next, rest)
    ensures Legal(s, [step] + rest) && Run(s, [step] + rest) == Run(next, rest)
  {
    hide Enabled, Apply;
    assert ([step] + rest)[1..] == rest;
  }

  lemma Admission(id: Id)
    ensures Enabled(Init, OtherTrack(id))
    ensures var s1 := Apply(Init, OtherTrack(id));
            && Enabled(s1, Enqueue(id, true, false))
            && Apply(s1, Enqueue(id, true, false)) == Before(id, Ack, false, [])
  {
  }

  /** A step that only moves the ticket. */
  lemma Moves(id: Id, pc: Pc, log: seq<Msg>, op: Op, pc': Pc, granted': bool, log': seq<Msg>)
    requires var s := Before(id, pc, false, log);
             && OpEnabled(s, 0, op) && CancOp(s, 0, op) == s.canc
             && op != TrackAgain && op != BeginRelease && op != EndRelease
             && NewTicket(s, 0, op) == s.tickets[0].(pc := pc', granted := granted', log := log')
    ensures var s := Before(id, pc, false, log);
            Enabled(s, Handler(0, op)) && Apply(s, Handler(0, op)) == Before(id, pc', granted', log')
  {
    hide OpEnabled, CancOp, NewTicket;
    var s := Before(id, pc, false, log);
    assert s.tickets[0 := NewTicket(s, 0, op)] == Before(id, pc', granted', log').tickets;
  }

  lemma Queued(id: Id)
    ensures var s := Before(id, Ack, false, []);
            Enabled(s, Handler(0, SendAck)) && Apply(s, Handler(0, SendAck)) == Before(id, Announce, false, [AckMsg])
    ensures var s := Before(id, Announce, false, [AckMsg]);
            && Enabled(s, Handler(0, SendQueued))
            && Apply(s, Handler(0, SendQueued)) == Before(id, Waiting, false, [AckMsg, QueuedMsg])
    ensures var s := Before(id, Waiting, false, [AckMsg, QueuedMsg]);
            && Enabled(s, Handler(0, WaitGrant))
            && Apply(s, Handler(0, WaitGrant)) == Before(id, Retrack, true, [AckMsg, QueuedMsg])
  {
    hide Apply, Enabled;
    var none: seq<Msg> := [];
    assert none + [AckMsg] == [AckMsg] && [AckMsg] + [QueuedMsg] == [AckMsg, QueuedMsg];
    Moves(id, Ack, [], SendAck, Announce, false, [AckMsg]);
    Moves(id, Announce, [AckMsg], SendQueued, Waiting, false, [AckMsg, QueuedMsg]);
    Moves(id, Waiting, [AckMsg, QueuedMsg], WaitGrant, Retrack, true, [AckMsg, QueuedMsg]);
  }

  lemma Acquired(id: Id)
    ensures var s := Before(id, Retrack, true, [AckMsg, QueuedMsg]);
            && Enabled(s, Handler(0, TrackAgain))
            && var s1 := Apply(s, Handler(0, TrackAgain));
            && Enabled(s1, Handler(0, GuardOk)) && Apply(s1, Handler(0, GuardOk)) == Guarded(id)
  {
  }

  lemma Replaced(id: Id)
    ensures var s := Guarded(id);
            && Enabled(s, OtherDelete(0))
            && var s1 := Apply(s, OtherDelete(0));
            && Enabled(s1, OtherTrack(id))
            && var s2 := Apply(s1, OtherTrack(id));
            && Enabled(s2, Handler(0, DoRebind)) && Apply(s2, Handler(0, DoRebind)) == Missed(id)
  {
  }

  lemma RunMissed(id: Id)
    ensures Legal(Init, Race(id)) && Run(Init, Race(id)) == Missed(id)
  {
    hide Enabled, Apply, Before, Guarded, Missed;
    Admission(id);
    Queued(id);
    Acquired(id);
    Replaced(id);
    var steps := Race(id);
    var s5, s7 := Before(id, Retrack, true, [AckMsg, QueuedMsg]), Guarded(id);
    var s8 := Apply(s7, steps[7]);
    Prepend(Apply(s8, steps[8]), steps[9], Missed(id), []);
    Prepend(s8, steps[8], Apply(s8, steps[8]), [steps[9]]);
    Prepend(s7, steps[7], s8, steps[8..]);
    Prepend(Apply(s5, steps[5]), steps[6], s7, steps[7..]);
    Prepend(s5, steps[5], Apply(s5, steps[5]), steps[6..]);
    Prepend(Before(id, Waiting, false, [AckMsg, QueuedMsg]), steps[4], s5, steps[5..]);
    Prepend(Before(id, Announce, false, [AckMsg]), steps[3], Before(id, Waiting, false, [AckMsg, QueuedMsg]), steps[4..]);
    Prepend(Before(id, Ack, false, []), steps[2], Before(id, Announce, false, [AckMsg]), steps[3..]);
    Prepend(Apply(Init, steps[0]), steps[1], Before(id, Ack, false, []), steps[2..]);
    Prepend(Init, steps[0], Apply(Init, steps[0]), steps[1..]);
    assert [steps[0]] + steps[1..] == steps;
  }

  /** For every id there is a legal run after which the backup of that id is about to run, cancel(id)
      finds a registered cancel, and calling it leaves the context handed out for the id alive. */
  lemma CancelMissesSharedId(id: Id)
    ensures Legal(Init, Race(id))
    ensures var s := Run(Init, Race(id));
            && |s.tickets| == 1 && s.tickets[0].id == id && s.tickets[0].pc == Starting
            && !Owns(s, s.tickets[0].tracker)
            && id in s.canc.cancels && id in s.canc.contexts
            && !IsDone(C.CancelOne(s.canc, s.canc.cancels[id]).ctxs, s.canc.contexts[id])
  {
    hide Apply, Enabled, Race;
    RunMissed(id);
  }

  // ---------------------------------------------------------------- backup_stop

  /** The id's first owner leaves while a targeted stop is between its cancel and its drain. */
  function Overtaken(id: Id): (steps: seq<Step>) {
    [OtherTrack(id), Enqueue(id, true, false), StopBegin(id), StopCancel(0), OtherDelete(0), StopLook(0)]
  }

  lemma StopSteps(id: Id)
    ensures var s2 := Before(id, Ack, false, []);
            && Enabled(s2, StopBegin(id))
            && var s3 := Apply(s2, StopBegin(id));
            && Enabled(s3, StopCancel(0))
            && var s4 := Apply(s3, StopCancel(0));
            && s4.tickets == s2.tickets && s4.homes == s2.homes && s4.canc.trackers == s2.canc.trackers
            && s4.canc.done == s2.canc.done
            && |s4.stops| == 1 && s4.stops[0] == Stop(id, 1, Cancelled(0))
  {
  }

  lemma LeaveAndLook(id: Id, s: State)
    requires var b := Before(id, Ack, false, []);
             && s.tickets == b.tickets && s.homes == b.homes && s.canc.trackers == b.canc.trackers
             && s.canc.done == b.canc.done && |s.stops| == 1 && s.stops[0] == Stop(id, 1, Cancelled(0))
    ensures Enabled(s, OtherDelete(0))
    ensures var s5 := Apply(s, OtherDelete(0));
            && Enabled(s5, StopLook(0))
            && var s6 := Apply(s5, StopLook(0));
            s6.tickets == s.tickets && s6.stops == [Stop(id, 1, Reported(true, true, 0))]
  {
  }

  /** For every id there is a legal run after which a targeted stop has reported stopped and drained while
      a backup of that very id, admitted before the stop, has yet to send its first message. */
  lemma StopMissesSharedId(id: Id)
    ensures Legal(Init, Overtaken(id))
    ensures var s := Run(Init, Overtaken(id));
            && |s.stops| == 1 && s.stops[0] == Stop(id, 1, Reported(true, true, 0))
            && |s.tickets| == 1 && s.tickets[0].id == id && s.tickets[0].pc == Ack && s.tickets[0].log == []
  {
    hide Enabled, Apply;
    Admission(id);
    StopSteps(id);
    var steps, s2 := Overtaken(id), Before(id, Ack, false, []);
    var s4 := Apply(Apply(s2, steps[2]), steps[3]);
    LeaveAndLook(id, s4);
    var s5 := Apply(s4, steps[4]);
    Prepend(s5, steps[5], Apply(s5, steps[5]), []);
    Prepend(s4, steps[4], s5, [steps[5]]);
    Prepend(Apply(s2, steps[2]), steps[3], s4, [steps[4]] + [steps[5]]);
    Prepend(s2, steps[2], Apply(s2, steps[2]), [steps[3]] + ([steps[4]] + [steps[5]]));
    Prepend(Apply(Init, steps[0]), steps[1], s2, [steps[2]] + ([steps[3]] + ([steps[4]] + [steps[5]])));
    Prepend(Init, steps[0], Apply(Init, steps[0]), [steps[1]] + ([steps[2]] + ([steps[3]] + ([steps[4]] + [steps[5]]))));
    assert [steps[0]] + ([steps[1]] + ([steps[2]] + ([steps[3]] + ([steps[4]] + [steps[5]])))) == steps;
  }
}
