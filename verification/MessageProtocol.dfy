/** The messages of one queued command, in every run: ack, queued*, then starting and executing*, then one terminal. */
module MessageProtocol {
  import opened HelperSystem

  /** How far a handler's own messages have come. */
  datatype Shape = Silent | Acked | InQueue | Begun | Ended | Broken

  function Next(sh: Shape, m: Msg): (sh': Shape) {
    match (sh, m)
    case (Silent, AckMsg) => Acked
    case (Silent, QueuedMsg) => InQueue
    case (Acked, QueuedMsg) => InQueue
    case (InQueue, QueuedMsg) => InQueue
    case (InQueue, StartingMsg) => Begun
    case (InQueue, TerminalMsg) => Ended
    case (Begun, ExecutingMsg) => Begun
    case (Begun, TerminalMsg) => Ended
    case _ => Broken
  }

  function ShapeOf(log: seq<Msg>): (sh: Shape) {
    if log == [] then Silent else Next(ShapeOf(log[..|log| - 1]), log[|log| - 1])
  }

  lemma ShapeAppend(log: seq<Msg>, m: Msg)
    ensures ShapeOf(log + [m]) == Next(ShapeOf(log), m)
  {
    assert (log + [m])[..|log|] == log;
  }

  /** The first message is the ack exactly when the command was async. */
  predicate AckFirst(k: Ticket) {
    k.log != [] ==> (k.log[0] == AckMsg <==> k.async)
  }

  /** What the handler has said by the time it is at its program point, and what the heartbeat may do. */
  predicate SaidOk(k: Ticket) {
    match k.pc
    case Ack => k.log == [] && k.async && k.beat == Off
    case Announce => ShapeOf(k.log) == (if k.async then Acked else Silent) && k.beat == Off
    case Waiting => ShapeOf(k.log) == InQueue && k.beat == Off
    case Retrack => ShapeOf(k.log) == InQueue && k.beat == Off
    case Acquiring => ShapeOf(k.log) == InQueue && k.beat == Off
    case Rebinding => ShapeOf(k.log) == InQueue && k.beat == Off
    case Starting => ShapeOf(k.log) == InQueue && k.beat == Off
    case Running => ShapeOf(k.log) == Begun && k.beat != Exited && (k.beat.On? ==> !k.beat.stop)
    case Joining => ShapeOf(k.log) == Begun && k.beat != Off && (k.beat.On? ==> k.beat.stop)
    case InnerDelete => (ShapeOf(k.log) == InQueue || ShapeOf(k.log) == Begun) && !k.beat.On?
    case InnerClose => (ShapeOf(k.log) == InQueue || ShapeOf(k.log) == Begun) && !k.beat.On?
    case Terminal => (ShapeOf(k.log) == InQueue || ShapeOf(k.log) == Begun) && !k.beat.On?
    case _ => (ShapeOf(k.log) == Ended || (k.log == [] && k.async)) && !k.beat.On?
  }

  predicate LogOk(k: Ticket) {
    AckFirst(k) && SaidOk(k)
  }

  lemma OpAckFirst(s: State, t: nat, op: Op)
    requires t < |s.tickets| && OpEnabled(s, t, op) && LogOk(s.tickets[t])
    ensures AckFirst(NewTicket(s, t, op))
  {
    hide PrevClosed, CtxDone, HoldsGuard, Owns, ShapeOf;
    NonSilent(s.tickets[t].log);
    ShapeNone();
  }

  lemma OpLog(s: State, t: nat, op: Op)
    requires t < |s.tickets| && OpEnabled(s, t, op) && LogOk(s.tickets[t])
    ensures LogOk(NewTicket(s, t, op))
  {
    hide PrevClosed, CtxDone, HoldsGuard, Owns, ShapeOf, AckFirst;
    OpAckFirst(s, t, op);
    var k := s.tickets[t];
    NonSilent(k.log);
    ShapeNone();
    match op
    case SendAck => ShapeAppend(k.log, AckMsg);
    case SendQueued => ShapeAppend(k.log, QueuedMsg);
    case WaitTick => ShapeAppend(k.log, QueuedMsg);
    case GuardTick => ShapeAppend(k.log, QueuedMsg);
    case SendStarting => ShapeAppend(k.log, StartingMsg);
    case BeatSend => ShapeAppend(k.log, ExecutingMsg);
    case SendTerminal => ShapeAppend(k.log, TerminalMsg);
    case _ =>
  }

  lemma ShapeNone()
    ensures ShapeOf([]) == Silent
  {
  }

  lemma NonSilent(log: seq<Msg>)
    ensures log == [] <==> ShapeOf(log) == Silent
  {
  }

  ghost predicate LogsOk(s: State) {
    forall t: nat :: t < |s.tickets| ==> LogOk(s.tickets[t])
  }

  lemma StepLogs(s: State, step: Step)
    requires LogsOk(s) && Enabled(s, step)
    ensures LogsOk(Apply(s, step))
  {
    hide LogOk, NewTicket, CancOp, OpEnabled;
    match step
    case Handler(t, op) => OpLog(s, t, op);
    case Enqueue(id, async, native) =>
      FreshLog(Ticket(id, s.tail, |s.canc.trackers|, async, native,
                      if async then Ack else Announce, false, -1, -1, Off, 0, []));
    case _ =>
  }

  lemma FreshLog(k: Ticket)
    requires k.log == [] && k.beat == Off && k.pc == (if k.async then Ack else Announce)
    ensures LogOk(k)
  {
  }

  lemma {:induction false} RunLogs(s: State, steps: seq<Step>)
    requires LogsOk(s) && Legal(s, steps)
    ensures LogsOk(Run(s, steps))
    decreases |steps|
  {
    hide LogsOk, Apply, Enabled;
    if steps != [] {
      StepLogs(s, steps[0]);
      RunLogs(Apply(s, steps[0]), steps[1..]);
    }
  }

  // ---------------------------------------------------------------- what the shapes mean

  function Repeat(m: Msg, n: nat): (log: seq<Msg>) {
    seq(n, _ => m)
  }

  /** ack? queued^q (starting executing^e)? terminal? */
  function Conversation(ack: bool, q: nat, begun: bool, e: nat, ended: bool): (log: seq<Msg>) {
    (if ack then [AckMsg] else []) + Repeat(QueuedMsg, q) +
    (if begun then [StartingMsg] + Repeat(ExecutingMsg, e) else []) + (if ended then [TerminalMsg] else [])
  }

  lemma RepeatMore(m: Msg, n: nat)
    ensures Repeat(m, n) + [m] == Repeat(m, n + 1)
  {
  }

  lemma ConversationQueued(ack: bool, q: nat)
    ensures Conversation(ack, q, false, 0, false) + [QueuedMsg] == Conversation(ack, q + 1, false, 0, false)
  {
    RepeatMore(QueuedMsg, q);
  }

  lemma ConversationStarting(ack: bool, q: nat)
    ensures Conversation(ack, q, false, 0, false) + [StartingMsg] == Conversation(ack, q, true, 0, false)
  {
  }

  lemma ConversationExecuting(ack: bool, q: nat, e: nat)
    ensures Conversation(ack, q, true, e, false) + [ExecutingMsg] == Conversation(ack, q, true, e + 1, false)
  {
    RepeatMore(ExecutingMsg, e);
    var head := (if ack then [AckMsg] else []) + Repeat(QueuedMsg, q);
    assert head + ([StartingMsg] + Repeat(ExecutingMsg, e)) + [ExecutingMsg] ==
           head + ([StartingMsg] + (Repeat(ExecutingMsg, e) + [ExecutingMsg]));
  }

  lemma ConversationEnd(ack: bool, q: nat, begun: bool, e: nat)
    ensures Conversation(ack, q, begun, e, false) + [TerminalMsg] == Conversation(ack, q, begun, e, true)
  {
  }

  lemma ConversationStart()
    ensures Conversation(false, 0, false, 0, false) == [] && Conversation(true, 0, false, 0, false) == [AckMsg]
  {
  }

  lemma ConversationHead(ack: bool, q: nat, begun: bool, e: nat, ended: bool)
    ensures var log := Conversation(ack, q, begun, e, ended); log != [] ==> (ack <==> log[0] == AckMsg)
  {
  }

  /** A log is the conversation its shape promises. */
  lemma {:induction false} ShapeIsConversation(log: seq<Msg>) returns (ack: bool, q: nat, begun: bool, e: nat)
    requires ShapeOf(log) != Broken
    ensures log == Conversation(ack, q, begun, e, ShapeOf(log) == Ended)
    ensures ShapeOf(log) == Silent || ShapeOf(log) == Acked ==> q == 0 && !begun && e == 0 && (ack <==> ShapeOf(log) == Acked)
    ensures ShapeOf(log) == InQueue ==> q > 0 && !begun && e == 0
    ensures ShapeOf(log) == Begun ==> q > 0 && begun
    ensures ShapeOf(log) == Ended ==> q > 0
  {
    hide Conversation, ShapeOf;
    ConversationStart();
    ShapeNone();
    if log == [] {
      ack, q, begun, e := false, 0, false, 0;
    } else {
      var before, m := log[..|log| - 1], log[|log| - 1];
      assert log == before + [m];
      ShapeAppend(before, m);
      ack, q, begun, e := ShapeIsConversation(before);
      match m
      case AckMsg => ack := true;
      case QueuedMsg =>
        ConversationQueued(ack, q);
        q := q + 1;
      case StartingMsg =>
        ConversationStarting(ack, q);
        begun := true;
      case ExecutingMsg =>
        ConversationExecuting(ack, q, e);
        e := e + 1;
      case TerminalMsg =>
        ConversationEnd(ack, q, begun, e);
    }
  }

  /** The promised conversation of a ticket. */
  ghost predicate Follows(k: Ticket, ended: bool) {
    exists q: nat, begun: bool, e: nat :: q > 0 && k.log == Conversation(k.async, q, begun, e, ended)
  }

  lemma LogMeans(k: Ticket)
    requires LogOk(k)
    ensures (k.pc.AfterRelease() || k.pc == Release || k.pc == ReleaseClose) && k.log != [] ==> Follows(k, true)
    ensures k.pc.InRun() || k.pc == Waiting || k.pc == Terminal ==> Follows(k, false)
    ensures k.log == [] && (k.pc.AfterRelease() || k.pc == Release || k.pc == ReleaseClose) ==> k.async
  {
    hide Conversation;
    if ShapeOf(k.log) != Broken {
      var ack, q, begun, e := ShapeIsConversation(k.log);
      ConversationHead(ack, q, begun, e, ShapeOf(k.log) == Ended);
      if k.log != [] {
        assert k.log == Conversation(k.async, q, begun, e, ShapeOf(k.log) == Ended);
      }
    }
  }

  /** In every run, for every ticket: until its terminal send a handler has said ack, queued+ and, once
      begun, starting executing*; when it is released it has added exactly one terminal and no heartbeat
      follows it, unless its ack failed to send, in which case it has said nothing at all. */
  lemma ProtocolHolds(steps: seq<Step>, t: nat)
    requires Legal(Init, steps) && t < |Run(Init, steps).tickets|
    ensures var k := Run(Init, steps).tickets[t];
            && (k.pc.InRun() || k.pc == Waiting || k.pc == Terminal ==> Follows(k, false))
            && (k.pc.AfterRelease() ==> (k.log == [] && k.async) || Follows(k, true))
            && (k.pc == Release || k.pc.AfterRelease() ==> !k.beat.On?)
  {
    hide Apply, Enabled;
    assert LogsOk(Init);
    RunLogs(Init, steps);
    LogMeans(Run(Init, steps).tickets[t]);
  }

  // ---------------------------------------------------------------- nothing after the terminal

  /** The handler is past its terminal send. */
  predicate Past(k: Ticket) {
    k.pc == Release || k.pc == ReleaseClose || k.pc.AfterRelease()
  }

  lemma PastIsQuiet(s: State, t: nat, op: Op)
    requires t < |s.tickets| && OpEnabled(s, t, op) && LogOk(s.tickets[t]) && Past(s.tickets[t])
    ensures Past(NewTicket(s, t, op)) && NewTicket(s, t, op).log == s.tickets[t].log
  {
    hide PrevClosed, CtxDone, HoldsGuard, Owns, ShapeOf;
  }

  /** After the terminal send no message of that handler or its heartbeat ever follows, in any
      continuation: stop joins the sender first. */
  lemma {:induction false} TerminalIsLast(s: State, steps: seq<Step>, t: nat)
    requires LogsOk(s) && Legal(s, steps) && t < |s.tickets| && Past(s.tickets[t])
    ensures t < |Run(s, steps).tickets|
    ensures Past(Run(s, steps).tickets[t]) && Run(s, steps).tickets[t].log == s.tickets[t].log
    decreases |steps|
  {
    hide LogOk, NewTicket, OpEnabled, CancOp, Past;
    if steps != [] {
      var step := steps[0];
      StepLogs(s, step);
      if step.Handler? && step.t == t { PastIsQuiet(s, t, step.op); }
      TerminalIsLast(Apply(s, step), steps[1..], t);
    }
  }

  /** Whenever an async command's acknowledgement fails to send, that command says nothing in any
      continuation: no terminal message ever follows. */
  lemma FailedAckIsSilent(steps: seq<Step>, t: nat, more: seq<Step>)
    requires Legal(Init, steps) && t < |Run(Init, steps).tickets| && Run(Init, steps).tickets[t].pc == Ack
    ensures var s := Run(Init, steps);
            && Enabled(s, Handler(t, AckFails))
            && var s' := Apply(s, Handler(t, AckFails));
            (Legal(s', more) ==> t < |Run(s', more).tickets| && Run(s', more).tickets[t].log == [])
  {
    hide LogOk, CancOp, Legal;
    assert LogsOk(Init);
    RunLogs(Init, steps);
    var s := Run(Init, steps);
    var s' := Apply(s, Handler(t, AckFails));
    StepLogs(s, Handler(t, AckFails));
    AckIsSilent(s.tickets[t]);
    if Legal(s', more) { TerminalIsLast(s', more, t); }
  }

  lemma AckIsSilent(k: Ticket)
    requires LogOk(k) && k.pc == Ack
    ensures k.log == []
  {
  }
}
