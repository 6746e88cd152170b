/** The execution queue over whole runs: closing order, mutual exclusion, admission order, the admission index. */
module QueueSafety {
  import opened HelperSystem
  import C = Canceller

  /** Between wait returning nil and release. */
  predicate Inside(k: Ticket) {
    k.granted && !k.pc.AfterRelease()
  }

  // ---------------------------------------------------------------- the chain of done channels

  ghost predicate LinkOk(tickets: seq<Ticket>, t: nat)
    requires t < |tickets|
  {
    var k := tickets[t];
    && k.previous == t - 1
    && (k.pc == Closed || k.granted ==> t == 0 || tickets[t - 1].pc == Closed)
    && k.closes == (if k.pc == Closed then 1 else 0)
    && (k.pc.BeforeGrant() ==> !k.granted)
    && (k.pc.InRun() ==> k.granted)
  }

  ghost predicate ChainOk(tickets: seq<Ticket>) {
    forall t: nat :: t < |tickets| ==> LinkOk(tickets, t)
  }

  /** What one handler step can do to its ticket: closing and being granted need a closed predecessor,
      and a closed ticket stays closed. */
  lemma TicketMoves(s: State, t: nat, op: Op)
    requires t < |s.tickets| && LinkOk(s.tickets, t) && OpEnabled(s, t, op)
    ensures var k, k' := s.tickets[t], NewTicket(s, t, op);
            && k'.previous == k.previous && k'.id == k.id && k'.tracker == k.tracker
            && (k.pc == Closed ==> k'.pc == Closed)
            && (k'.pc == Closed || k'.granted ==> k.pc == Closed || k.granted || PrevClosed(s.tickets, t))
            && k'.closes == (if k'.pc == Closed then 1 else 0)
            && (k'.pc.BeforeGrant() ==> !k'.granted)
            && (k'.pc.InRun() ==> k'.granted)
  {
    hide CtxDone, HoldsGuard, Owns;
  }

  lemma HandlerChain(s: State, t: nat, op: Op)
    requires ChainOk(s.tickets) && t < |s.tickets| && OpEnabled(s, t, op)
    ensures ChainOk(HandlerStep(s, t, op).tickets)
  {
    hide CancOp, NewTicket, OpEnabled;
    var s' := HandlerStep(s, t, op);
    assert LinkOk(s.tickets, t);
    TicketMoves(s, t, op);
    forall u: nat | u < |s'.tickets| ensures LinkOk(s'.tickets, u) {
      assert LinkOk(s.tickets, u);
    }
  }

  lemma AdmitChain(s: State, id: Id, async: bool, native: bool)
    requires ChainOk(s.tickets) && s.tail == |s.tickets| - 1
    ensures ChainOk(Admit(s, id, async, native).tickets)
  {
    var s' := Admit(s, id, async, native);
    forall u: nat | u < |s'.tickets| ensures LinkOk(s'.tickets, u) {
      if u < |s.tickets| { assert LinkOk(s.tickets, u); }
    }
  }

  // ---------------------------------------------------------------- the admission index and its lock

  ghost predicate EntryOk(s: State, id: Id) {
    id in s.entries && s.entries[id] < |s.tickets| && s.tickets[s.entries[id]].id == id &&
    !s.tickets[s.entries[id]].pc.AfterRelease()
  }

  ghost predicate IndexedOk(s: State, t: nat)
    requires t < |s.tickets|
  {
    && (!s.tickets[t].pc.AfterRelease() ==> s.tickets[t].id in s.entries && s.entries[s.tickets[t].id] == t)
    && (s.tickets[t].pc == ReleaseClose <==> s.lock == t)
  }

  ghost predicate IndexOk(s: State) {
    && s.tail == |s.tickets| - 1
    && -1 <= s.lock < |s.tickets|
    && (forall id :: id in s.entries ==> EntryOk(s, id))
    && (forall t: nat :: t < |s.tickets| ==> IndexedOk(s, t))
  }

  lemma TicketReleases(s: State, t: nat, op: Op)
    requires t < |s.tickets| && OpEnabled(s, t, op)
    ensures var k, k' := s.tickets[t], NewTicket(s, t, op);
            && k'.id == k.id
            && (k'.pc.AfterRelease() <==> k.pc.AfterRelease() || op == EndRelease)
            && (k'.pc == ReleaseClose <==> op == BeginRelease || (k.pc == ReleaseClose && op != EndRelease))
            && (op == BeginRelease ==> s.lock == -1 && !k.pc.AfterRelease())
            && (op == EndRelease ==> k.pc == ReleaseClose)
  {
    hide PrevClosed, CtxDone, HoldsGuard, Owns;
  }

  lemma HandlerIndex(s: State, t: nat, op: Op)
    requires IndexOk(s) && t < |s.tickets| && OpEnabled(s, t, op)
    ensures IndexOk(HandlerStep(s, t, op))
  {
    hide CancOp, NewTicket, OpEnabled;
    var s' := HandlerStep(s, t, op);
    TicketReleases(s, t, op);
    assert !s.tickets[t].pc.AfterRelease() || op != EndRelease by { ClosingIsUnreleased(s.tickets[t]); }
    assert IndexedOk(s, t);
    forall id | id in s'.entries ensures EntryOk(s', id) {
      assert EntryOk(s, id);
    }
    forall u: nat | u < |s'.tickets| ensures IndexedOk(s', u) {
      assert IndexedOk(s, u);
    }
  }

  lemma ClosingIsUnreleased(k: Ticket)
    ensures k.pc == ReleaseClose ==> !k.pc.AfterRelease()
  {
  }

  lemma AdmitIndex(s: State, id: Id, async: bool, native: bool)
    requires IndexOk(s) && s.lock == -1
    ensures IndexOk(Admit(s, id, async, native))
  {
    hide C.Track;
    var s' := Admit(s, id, async, native);
    forall k | k in s'.entries ensures EntryOk(s', k) {
      if k in s.entries { assert EntryOk(s, k); }
    }
    forall u: nat | u < |s'.tickets| ensures IndexedOk(s', u) {
      if u < |s.tickets| { assert IndexedOk(s, u); }
    }
  }

  // ---------------------------------------------------------------- every run

  ghost predicate Safe(s: State) {
    ChainOk(s.tickets) && IndexOk(s)
  }

  lemma StepSafe(s: State, step: Step)
    requires Safe(s) && Enabled(s, step)
    ensures Safe(Apply(s, step))
  {
    hide ChainOk, LinkOk, HandlerStep, Admit, OpEnabled;
    match step
    case Handler(t, op) =>
      HandlerChain(s, t, op);
      HandlerIndex(s, t, op);
    case Enqueue(id, async, native) =>
      AdmitChain(s, id, async, native);
      AdmitIndex(s, id, async, native);
    case _ =>
      SameQueueIndex(s, Apply(s, step));
  }

  lemma SameQueueIndex(s: State, s': State)
    requires IndexOk(s)
    requires s'.tickets == s.tickets && s'.entries == s.entries && s'.lock == s.lock && s'.tail == s.tail
    ensures IndexOk(s')
  {
    forall id | id in s'.entries ensures EntryOk(s', id) { assert EntryOk(s, id); }
    forall u: nat | u < |s'.tickets| ensures IndexedOk(s', u) { assert IndexedOk(s, u); }
  }

  lemma {:induction false} RunSafe(s: State, steps: seq<Step>)
    requires Safe(s) && Legal(s, steps)
    ensures Safe(Run(s, steps))
    decreases |steps|
  {
    if steps != [] {
      StepSafe(s, steps[0]);
      RunSafe(Apply(s, steps[0]), steps[1..]);
    }
  }

  lemma InitSafe()
    ensures Safe(Init)
  {
  }

  // ---------------------------------------------------------------- what it means

  /** Closed channels form a prefix of the admission order. */
  lemma {:induction false} ClosedPrefix(tickets: seq<Ticket>, i: nat, j: nat)
    requires ChainOk(tickets) && i <= j < |tickets|
    requires tickets[j].pc == Closed
    ensures tickets[i].pc == Closed
    decreases j
  {
    assert LinkOk(tickets, j);
    if i < j { ClosedPrefix(tickets, i, j - 1); }
  }

  /** A closed done means every ticket admitted at or before it has been released; a granted ticket
      means every earlier one has been, so no two tickets are ever inside at once. */
  lemma ClosedMeansReleased(steps: seq<Step>, i: nat, j: nat)
    requires Legal(Init, steps) && i <= j < |Run(Init, steps).tickets|
    ensures var tickets := Run(Init, steps).tickets;
            && (tickets[j].pc == Closed ==> tickets[i].pc.AfterRelease())
            && (tickets[j].granted && i < j ==> tickets[i].pc.AfterRelease())
            && (Inside(tickets[i]) && Inside(tickets[j]) ==> i == j)
  {
    hide Apply, Enabled;
    InitSafe();
    RunSafe(Init, steps);
    var tickets := Run(Init, steps).tickets;
    assert LinkOk(tickets, j);
    if tickets[j].pc == Closed { ClosedPrefix(tickets, i, j); }
    if tickets[j].granted && i < j { ClosedPrefix(tickets, i, j - 1); }
  }

  /** Two live tickets never share an id, and the index holds exactly the ids of unreleased tickets. */
  lemma IndexExact(steps: seq<Step>, id: Id)
    requires Legal(Init, steps)
    ensures var s := Run(Init, steps);
            id in s.entries <==> exists t: nat :: t < |s.tickets| && s.tickets[t].id == id && !s.tickets[t].pc.AfterRelease()
    ensures var s := Run(Init, steps);
            forall i: nat, j: nat ::
              (i < |s.tickets| && j < |s.tickets| && s.tickets[i].id == s.tickets[j].id &&
               !s.tickets[i].pc.AfterRelease() && !s.tickets[j].pc.AfterRelease()) ==> i == j
  {
    hide Apply, Enabled;
    InitSafe();
    RunSafe(Init, steps);
    var s := Run(Init, steps);
    if id in s.entries { assert EntryOk(s, id); }
    forall t: nat | t < |s.tickets| && !s.tickets[t].pc.AfterRelease()
      ensures s.tickets[t].id in s.entries && s.entries[s.tickets[t].id] == t
    {
      assert IndexedOk(s, t);
    }
  }

  /** A duplicate admission changes nothing; once its ticket is released the id is admitted again, last
      in the queue, behind the ticket that was last before. */
  lemma Readmission(steps: seq<Step>, id: Id, async: bool, native: bool)
    requires Legal(Init, steps)
    ensures var s, s' := Run(Init, steps), Admit(Run(Init, steps), id, async, native);
            if exists t: nat :: t < |s.tickets| && s.tickets[t].id == id && !s.tickets[t].pc.AfterRelease()
            then s' == s
            else |s'.tickets| == |s.tickets| + 1 && s'.tickets[..|s.tickets|] == s.tickets &&
                 s'.tickets[|s.tickets|].id == id && s'.tickets[|s.tickets|].previous == |s.tickets| - 1
  {
    hide Apply, Enabled, ChainOk;
    InitSafe();
    RunSafe(Init, steps);
    IndexExact(steps, id);
  }

  // ---------------------------------------------------------------- the order of grants

  /** The tickets in the order their waits returned nil. */
  function Grants(steps: seq<Step>): (ts: seq<nat>) {
    if steps == [] then []
    else (if steps[0].Handler? && steps[0].op == WaitGrant then [steps[0].t] else []) + Grants(steps[1..])
  }

  /** What is granted stays granted, and a ticket still ungranted when a later one is granted never
      will be: it has been released. */
  lemma GrantedStays(s: State, step: Step, t: nat)
    requires Safe(s) && Enabled(s, step) && t < |s.tickets|
    ensures t < |Apply(s, step).tickets|
    ensures s.tickets[t].granted ==> Apply(s, step).tickets[t].granted
  {
    hide CancOp, ChainOk, IndexOk;
  }

  lemma GrantNow(s: State, t: nat)
    requires Safe(s) && Enabled(s, Handler(t, WaitGrant))
    ensures !s.tickets[t].granted
    ensures t < |Apply(s, Handler(t, WaitGrant)).tickets| && Apply(s, Handler(t, WaitGrant)).tickets[t].granted
  {
    hide IndexOk;
    assert LinkOk(s.tickets, t);
  }

  /** From a state in which `last` has been granted, every later grant is of a later ticket. */
  lemma {:induction false} GrantsAfter(s: State, steps: seq<Step>, last: nat, n: nat)
    requires Safe(s) && Legal(s, steps) && last < |s.tickets| && s.tickets[last].granted
    requires n < |Grants(steps)|
    ensures last < Grants(steps)[n]
    decreases |steps|
  {
    hide ChainOk, IndexOk, Apply, Enabled;
    var step := steps[0];
    var s' := Apply(s, step);
    StepSafe(s, step);
    GrantedStays(s, step, last);
    if step.Handler? && step.op == WaitGrant {
      LaterGrant(s, step.t, last);
      if n > 0 {
        assert Grants(steps)[n] == Grants(steps[1..])[n - 1];
        GrantsAfter(s', steps[1..], last, n - 1);
      }
    } else {
      assert Grants(steps) == Grants(steps[1..]);
      GrantsAfter(s', steps[1..], last, n);
    }
  }

  lemma LaterGrant(s: State, t: nat, last: nat)
    requires Safe(s) && Enabled(s, Handler(t, WaitGrant)) && last < |s.tickets| && s.tickets[last].granted
    ensures last < t
  {
    hide IndexOk;
    assert LinkOk(s.tickets, t) && LinkOk(s.tickets, last);
    if t < last { ClosedPrefix(s.tickets, t, last - 1); }
  }

  /** In every run, with any waiters cancelled in between, waits return nil in admission order. */
  lemma {:induction false} GrantsInOrder(s: State, steps: seq<Step>, m: nat, n: nat)
    requires Safe(s) && Legal(s, steps)
    requires m < n < |Grants(steps)|
    ensures Grants(steps)[m] < Grants(steps)[n]
    decreases |steps|
  {
    hide ChainOk, IndexOk, Apply, Enabled;
    var step := steps[0];
    var s' := Apply(s, step);
    StepSafe(s, step);
    if step.Handler? && step.op == WaitGrant {
      assert Grants(steps)[n] == Grants(steps[1..])[n - 1];
      if m > 0 {
        assert Grants(steps)[m] == Grants(steps[1..])[m - 1];
        GrantsInOrder(s', steps[1..], m - 1, n - 1);
      } else {
        GrantNow(s, step.t);
        GrantsAfter(s', steps[1..], step.t, n - 1);
      }
    } else {
      assert Grants(steps) == Grants(steps[1..]);
      GrantsInOrder(s', steps[1..], m, n);
    }
  }

  lemma GrantsInAdmissionOrder(steps: seq<Step>)
    requires Legal(Init, steps)
    ensures forall m: nat, n: nat :: m < n < |Grants(steps)| ==> Grants(steps)[m] < Grants(steps)[n]
  {
    hide Apply, Enabled, Legal, Grants;
    InitSafe();
    forall m: nat, n: nat | m < n < |Grants(steps)| ensures Grants(steps)[m] < Grants(steps)[n] {
      GrantsInOrder(Init, steps, m, n);
    }
  }
}
