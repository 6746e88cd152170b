/** A backup that passes the execution guard although it was cancelled while it waited there.

AcquireExecutionWithProgress returns at once under a context that already carries its key. An id that another
command keeps tracked is handed out under the context an earlier backup of that id was rebound to, which does.
*/
module GuardBypass {
  import opened Contexts
  import opened HelperSystem
  import opened RebindRace
  import opened SharedIds
  import opened WaitAnswers
  import C = Canceller

  const SAID: seq<Msg> := [AckMsg, QueuedMsg]

  /** A backup of an id some other command tracks, up to holding the guard. */
  function ToGuard(id: Id): (steps: seq<Step>) {
    [OtherTrack(id), Enqueue(id, true, false), Handler(0, SendAck), Handler(0, SendQueued), Handler(0, WaitGrant),
     Handler(0, TrackAgain), Handler(0, GuardOk)]
  }

  lemma ReachGuard(id: Id)
    ensures Legal(Init, ToGuard(id)) && Run(Init, ToGuard(id)) == Guarded(id)
  {
    hide Enabled, Apply, Before, Guarded;
    Admission(id);
    Queued(id);
    Acquired(id);
    var steps := ToGuard(id);
    var s1, s5 := Apply(Init, steps[0]), Before(id, Retrack, true, SAID);
    NoSteps(Guarded(id));
    Prepend(Apply(s5, steps[5]), steps[6], Guarded(id), []);
    Prepend(s5, steps[5], Apply(s5, steps[5]), [steps[6]]);
    Prepend(Before(id, Waiting, false, SAID), steps[4], s5, [steps[5], steps[6]]);
    Prepend(Before(id, Announce, false, [AckMsg]), steps[3], Before(id, Waiting, false, SAID), steps[4..]);
    Prepend(Before(id, Ack, false, []), steps[2], Before(id, Announce, false, [AckMsg]), steps[3..]);
    Prepend(s1, steps[1], Before(id, Ack, false, []), steps[2..]);
    Prepend(Init, steps[0], s1, steps[1..]);
    assert steps == [steps[0]] + steps[1..];
  }

  lemma NoSteps(s: State)
    ensures Legal(s, []) && Run(s, []) == s
  {
  }

  // ---------------------------------------------------------------- the first backup runs and is released

  function First(id: Id, pc: Pc, log: seq<Msg>, outer: C.Phase, inner: C.Phase, entries: map<Id, nat>, lock: int,
                 closes: nat): (s: State)
  {
    State(
      C.State([Ctx(-1, false), Ctx(0, false)], [false], map[id := 0], map[id := 1], map[id := 0],
              [C.Tracker(id, 0, true, 0, C.Live), C.Tracker(id, 0, false, 0, outer), C.Tracker(id, 0, false, 0, inner)],
              map[id := 0]),
      [Other, ByTicket(0), ByInner(0)], entries, 0, lock,
      [TICKET.(id := id, pc := pc, granted := true, inner := 2, guard := 1, closes := closes, log := log)], [])
  }

  const RAN: seq<Msg> := SAID + [StartingMsg]
  const ENDED: seq<Msg> := RAN + [TerminalMsg]

  function Released(id: Id): (s: State) {
    First(id, Closed, ENDED, C.Finished, C.Finished, map[], -1, 1)
  }

  function Finishes(): (steps: seq<Step>) {
    [Handler(0, DoRebind), Handler(0, SendStarting), Handler(0, ExecReturn), Handler(0, DeleteInner),
     Handler(0, SendTerminal), Handler(0, BeginRelease), Handler(0, EndRelease), Handler(0, Select)]
  }

  lemma Executes(id: Id)
    ensures Enabled(Guarded(id), Handler(0, DoRebind))
    ensures Apply(Guarded(id), Handler(0, DoRebind)) == First(id, Starting, SAID, C.Live, C.Live, map[id := 0], -1, 0)
    ensures var s := First(id, Starting, SAID, C.Live, C.Live, map[id := 0], -1, 0);
            && Enabled(s, Handler(0, SendStarting))
            && Apply(s, Handler(0, SendStarting)) == First(id, Running, RAN, C.Live, C.Live, map[id := 0], -1, 0)
    ensures var s := First(id, Running, RAN, C.Live, C.Live, map[id := 0], -1, 0);
            && Enabled(s, Handler(0, ExecReturn))
            && Apply(s, Handler(0, ExecReturn)) == First(id, InnerDelete, RAN, C.Live, C.Live, map[id := 0], -1, 0)
  {
  }

  lemma Ends(id: Id)
    ensures var s := First(id, InnerDelete, RAN, C.Live, C.Live, map[id := 0], -1, 0);
            && Enabled(s, Handler(0, DeleteInner))
            && Apply(s, Handler(0, DeleteInner)) == First(id, Terminal, RAN, C.Live, C.Finished, map[id := 0], -1, 0)
    ensures var s := First(id, Terminal, RAN, C.Live, C.Finished, map[id := 0], -1, 0);
            && Enabled(s, Handler(0, SendTerminal))
            && Apply(s, Handler(0, SendTerminal)) == First(id, Release, ENDED, C.Live, C.Finished, map[id := 0], -1, 0)
    ensures var s := First(id, Release, ENDED, C.Live, C.Finished, map[id := 0], -1, 0);
            && Enabled(s, Handler(0, BeginRelease))
            && Apply(s, Handler(0, BeginRelease)) == First(id, ReleaseClose, ENDED, C.Finished, C.Finished, map[id := 0], 0, 0)
  {
  }

  lemma Leaves(id: Id)
    ensures var s := First(id, ReleaseClose, ENDED, C.Finished, C.Finished, map[id := 0], 0, 0);
            && Enabled(s, Handler(0, EndRelease))
            && Apply(s, Handler(0, EndRelease)) == First(id, Selecting, ENDED, C.Finished, C.Finished, map[], -1, 0)
    ensures var s := First(id, Selecting, ENDED, C.Finished, C.Finished, map[], -1, 0);
            Enabled(s, Handler(0, Select)) && Apply(s, Handler(0, Select)) == Released(id)
  {
    var one: map<Id, nat> := map[id := 0];
    assert one - {id} == map[];
  }

  lemma RunFinishes(id: Id)
    ensures Legal(Guarded(id), Finishes()) && Run(Guarded(id), Finishes()) == Released(id)
  {
    hide Enabled, Apply, First, Guarded, Released;
    Executes(id);
    Ends(id);
    Leaves(id);
    var steps := Finishes();
    NoSteps(Released(id));
    var e: map<Id, nat> := map[id := 0];
    Prepend(First(id, Selecting, ENDED, C.Finished, C.Finished, map[], -1, 0), steps[7], Released(id), []);
    Prepend(First(id, ReleaseClose, ENDED, C.Finished, C.Finished, e, 0, 0), steps[6],
            First(id, Selecting, ENDED, C.Finished, C.Finished, map[], -1, 0), [steps[7]]);
    Prepend(First(id, Release, ENDED, C.Live, C.Finished, e, -1, 0), steps[5],
            First(id, ReleaseClose, ENDED, C.Finished, C.Finished, e, 0, 0), [steps[6], steps[7]]);
    Prepend(First(id, Terminal, RAN, C.Live, C.Finished, e, -1, 0), steps[4],
            First(id, Release, ENDED, C.Live, C.Finished, e, -1, 0), steps[5..]);
    Prepend(First(id, InnerDelete, RAN, C.Live, C.Live, e, -1, 0), steps[3],
            First(id, Terminal, RAN, C.Live, C.Finished, e, -1, 0), steps[4..]);
    Prepend(First(id, Running, RAN, C.Live, C.Live, e, -1, 0), steps[2],
            First(id, InnerDelete, RAN, C.Live, C.Live, e, -1, 0), steps[3..]);
    Prepend(First(id, Starting, SAID, C.Live, C.Live, e, -1, 0), steps[1],
            First(id, Running, RAN, C.Live, C.Live, e, -1, 0), steps[2..]);
    Prepend(Guarded(id), steps[0], First(id, Starting, SAID, C.Live, C.Live, e, -1, 0), steps[1..]);
    assert steps == [steps[0]] + steps[1..];
  }

  // ---------------------------------------------------------------- the second one waits under its context

  function Second(id: Id, pc: Pc, granted: bool, log: seq<Msg>, again: bool, over: bool): (s: State) {
    var done := [C.Tracker(id, 0, true, 0, C.Live), C.Tracker(id, 0, false, 0, C.Finished),
                 C.Tracker(id, 0, false, 0, C.Finished), C.Tracker(id, 1, false, 0, C.Live)];
    var homes := [Other, ByTicket(0), ByInner(0), ByTicket(1)];
    State(
      C.State([Ctx(-1, over), Ctx(0, false)], [false], map[id := 0], map[id := 1], map[id := 0],
              if again then done + [C.Tracker(id, 1, false, 0, C.Live)] else done, map[id := 0]),
      if again then homes + [ByInner(1)] else homes, map[id := 1], 1, -1,
      [TICKET.(id := id, pc := Closed, granted := true, inner := 2, guard := 1, closes := 1, log := ENDED),
       Ticket(id, 0, 3, true, false, pc, granted, if again then 4 else -1, -1, Off, 0, log)], [])
  }

  function Again(id: Id): (steps: seq<Step>) {
    [Enqueue(id, true, false), Handler(1, SendAck), Handler(1, SendQueued), Handler(1, WaitGrant),
     Handler(1, TrackAgain), CancelTracked(0)]
  }

  lemma AdmittedAgain(id: Id)
    ensures Enabled(Released(id), Enqueue(id, true, false))
    ensures Apply(Released(id), Enqueue(id, true, false)) == Second(id, Ack, false, [], false, false)
    ensures var s := Second(id, Ack, false, [], false, false);
            && Enabled(s, Handler(1, SendAck))
            && Apply(s, Handler(1, SendAck)) == Second(id, Announce, false, [AckMsg], false, false)
  {
    var none: seq<Msg> := [];
    assert none + [AckMsg] == [AckMsg];
  }

  lemma QueuedAgain(id: Id)
    ensures var s := Second(id, Announce, false, [AckMsg], false, false);
            && Enabled(s, Handler(1, SendQueued))
            && Apply(s, Handler(1, SendQueued)) == Second(id, Waiting, false, SAID, false, false)
  {
    assert [AckMsg] + [QueuedMsg] == SAID;
  }

  lemma GrantedAgain(id: Id)
    ensures var s := Second(id, Waiting, false, SAID, false, false);
            && Enabled(s, Handler(1, WaitGrant))
            && Apply(s, Handler(1, WaitGrant)) == Second(id, Retrack, true, SAID, false, false)
  {
  }

  lemma CancelledThere(id: Id)
    ensures var s := Second(id, Retrack, true, SAID, false, false);
            && Enabled(s, Handler(1, TrackAgain))
            && Apply(s, Handler(1, TrackAgain)) == Second(id, Acquiring, true, SAID, true, false)
    ensures var s := Second(id, Acquiring, true, SAID, true, false);
            && Enabled(s, CancelTracked(0))
            && Apply(s, CancelTracked(0)) == Second(id, Acquiring, true, SAID, true, true)
  {
  }

  lemma RunAgain(id: Id)
    ensures Legal(Released(id), Again(id)) && Run(Released(id), Again(id)) == Second(id, Acquiring, true, SAID, true, true)
  {
    hide Enabled, Apply, Released, Second;
    AdmittedAgain(id);
    QueuedAgain(id);
    GrantedAgain(id);
    CancelledThere(id);
    var steps := Again(id);
    var last := Second(id, Acquiring, true, SAID, true, true);
    NoSteps(last);
    Prepend(Second(id, Acquiring, true, SAID, true, false), steps[5], last, []);
    Prepend(Second(id, Retrack, true, SAID, false, false), steps[4], Second(id, Acquiring, true, SAID, true, false), [steps[5]]);
    Prepend(Second(id, Waiting, false, SAID, false, false), steps[3], Second(id, Retrack, true, SAID, false, false), steps[4..]);
    Prepend(Second(id, Announce, false, [AckMsg], false, false), steps[2], Second(id, Waiting, false, SAID, false, false), steps[3..]);
    Prepend(Second(id, Ack, false, [], false, false), steps[1], Second(id, Announce, false, [AckMsg], false, false), steps[2..]);
    Prepend(Released(id), steps[0], Second(id, Ack, false, [], false, false), steps[1..]);
    assert steps == [steps[0]] + steps[1..];
  }

  /** For every id there is a legal run after which a backup waits at the guard with its context ended, and a
      continuation in which it starts all the same. */
  lemma CancelledPassesGuard(id: Id) returns (steps: seq<Step>, more: seq<Step>)
    ensures Legal(Init, steps)
    ensures var s := Run(Init, steps);
            && |s.tickets| == 2 && s.tickets[1].id == id && s.tickets[1].pc == Acquiring
            && 0 <= s.tickets[1].inner < |s.canc.trackers| && IsDone(s.canc.ctxs, s.canc.trackers[s.tickets[1].inner].ctx)
            && Legal(s, more) && |Run(s, more).tickets| > 1 && StartingMsg in Run(s, more).tickets[1].log
  {
    hide Legal, Run, Guarded, Released;
    ReachGuard(id);
    RunFinishes(id);
    RunAgain(id);
    RunConcat(Init, ToGuard(id), Finishes());
    RunConcat(Init, ToGuard(id) + Finishes(), Again(id));
    steps := ToGuard(id) + Finishes() + Again(id);
    var s := Second(id, Acquiring, true, SAID, true, true);
    assert IsDone(s.canc.ctxs, 0);
    more := PassesGuard(s, 1);
  }
}
