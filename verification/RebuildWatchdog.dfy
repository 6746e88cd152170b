/** The bare-metal rebuild watchdog: how long each phase may be silent, and what it cancels over a whole run.

Models stallWindowFor and rebuildWatchdog of agent/cmd/breeze-backup/rebuild_budget.go. Times and durations are
nanoseconds as unbounded integers; the byte scaling is exact before it is truncated.
*/
module RebuildWatchdog {
  const SECOND: int := 1_000_000_000

  /** Startup is the empty phase; Tool stands for every phase that runs an external tool. */
  datatype Phase = Startup | Preflight | Restore | Tool(name: string)

  datatype Budget = Budget(ceiling: int, stallWindow: int, opaqueFloor: int, bytesPerSecond: int)

  function Scaled(bytes: int, perSecond: int): (ns: int)
    requires perSecond > 0
  {
    (bytes as real / perSecond as real * SECOND as real).Floor
  }

  /** stallWindowFor. */
  function Window(b: Budget, phase: Phase, bytes: int): (w: int) {
    if !phase.Tool? then b.stallWindow
    else
      var scaled := if b.bytesPerSecond > 0 && bytes > 0 then Scaled(bytes, b.bytesPerSecond) else b.opaqueFloor;
      var w := if scaled > b.opaqueFloor then scaled else b.opaqueFloor;
      if b.ceiling > 0 && w > b.ceiling then b.ceiling else w
  }

  lemma ScaledMonotone(x: int, y: int, perSecond: int)
    requires x <= y && perSecond > 0
    ensures Scaled(x, perSecond) <= Scaled(y, perSecond)
  {
    assert x as real / perSecond as real <= y as real / perSecond as real;
  }

  /** More downloaded bytes never shorten the window, and a tool phase never outlasts the ceiling. */
  lemma WindowMonotone(b: Budget, phase: Phase, x: int, y: int)
    requires x <= y
    ensures Window(b, phase, x) <= Window(b, phase, y)
    ensures phase.Tool? && b.ceiling > 0 ==> Window(b, phase, y) <= b.ceiling
  {
    hide Scaled;
    if b.bytesPerSecond > 0 { ScaledMonotone(x, y, b.bytesPerSecond); }
  }

  /** `w` is the floor or, when longer, the whole nanoseconds the downloaded bytes take at the given rate. */
  ghost predicate ToolWindow(b: Budget, bytes: int, w: int) {
    && w >= b.opaqueFloor
    && (if b.bytesPerSecond > 0 && bytes > 0
        then
          && w * b.bytesPerSecond > bytes * 1_000_000_000 - b.bytesPerSecond
          && (w == b.opaqueFloor || w * b.bytesPerSecond <= bytes * 1_000_000_000)
        else w == b.opaqueFloor)
  }

  function Times(x: real, y: real): (z: real) {
    x * y
  }

  lemma TimesOrder(x: real, y: real, rate: real)
    requires rate > 0.0
    ensures x <= y ==> Times(x, rate) <= Times(y, rate)
    ensures x < y ==> Times(x, rate) < Times(y, rate)
  {
  }

  lemma TimesNext(x: real, rate: real)
    ensures Times(x + 1.0, rate) == Times(x, rate) + rate
  {
  }

  lemma WholeTimes(n: int, m: int)
    ensures (n * m) as real == Times(n as real, m as real)
  {
  }

  lemma ScaledBack(a: real, rate: real, x: real)
    requires rate > 0.0 && x == a / rate * 1_000_000_000.0
    ensures Times(x, rate) == a * 1_000_000_000.0
  {
    var q := a / rate;
    assert q * rate == a;
    assert q * 1_000_000_000.0 * rate == q * rate * 1_000_000_000.0;
  }

  lemma FloorTimes(x: real, rate: real, n: int)
    requires rate > 0.0 && n == x.Floor
    ensures Times(n as real, rate) <= Times(x, rate) < Times(n as real, rate) + rate
  {
    hide Times;
    TimesOrder(n as real, x, rate);
    TimesOrder(x, n as real + 1.0, rate);
    TimesNext(n as real, rate);
  }

  /** The exact time the bytes take, before it is truncated. */
  lemma ScaledExact(bytes: int, rate: int) returns (x: real)
    requires rate > 0
    ensures Scaled(bytes, rate) == x.Floor && Times(x, rate as real) == bytes as real * 1_000_000_000.0
  {
    hide Times;
    x := bytes as real / rate as real * SECOND as real;
    ScaledBack(bytes as real, rate as real, x);
  }

  lemma ScaledMeans(bytes: int, rate: int)
    requires rate > 0
    ensures Scaled(bytes, rate) * rate <= bytes * 1_000_000_000 < Scaled(bytes, rate) * rate + rate
  {
    hide Scaled, Times;
    var n := Scaled(bytes, rate);
    var x := ScaledExact(bytes, rate);
    FloorTimes(x, rate as real, n);
    WholeTimes(n, rate);
  }

  lemma ScaledOver(b: Budget, bytes: int, w: int)
    requires b.bytesPerSecond > 0 && bytes > 0
    requires var s := Scaled(bytes, b.bytesPerSecond); w == if s > b.opaqueFloor then s else b.opaqueFloor
    ensures ToolWindow(b, bytes, w)
  {
    hide Scaled;
    var s, rate := Scaled(bytes, b.bytesPerSecond), b.bytesPerSecond;
    ScaledMeans(bytes, rate);
    if s < w { assert w * rate >= s * rate; }
  }

  /** How long a phase may be silent: streaming phases the stall window, tool phases the floor or the time their
      bytes take, capped by the ceiling. */
  lemma WindowMeans(b: Budget, phase: Phase, bytes: int) returns (w: int)
    ensures !phase.Tool? ==> Window(b, phase, bytes) == b.stallWindow
    ensures ToolWindow(b, bytes, w)
    ensures phase.Tool? ==> Window(b, phase, bytes) == if b.ceiling > 0 && w > b.ceiling then b.ceiling else w
  {
    hide Scaled, ToolWindow;
    if b.bytesPerSecond > 0 && bytes > 0 {
      var s := Scaled(bytes, b.bytesPerSecond);
      w := if s > b.opaqueFloor then s else b.opaqueFloor;
      ScaledOver(b, bytes, w);
    } else {
      w := b.opaqueFloor;
      FloorOnly(b, bytes);
    }
  }

  lemma FloorOnly(b: Budget, bytes: int)
    requires !(b.bytesPerSecond > 0 && bytes > 0)
    ensures ToolWindow(b, bytes, b.opaqueFloor)
  {
  }

  predicate Covering(b: Budget) {
    b.stallWindow <= b.opaqueFloor && (b.ceiling > 0 ==> b.stallWindow <= b.ceiling)
  }

  lemma CoveringWindow(b: Budget, phase: Phase, bytes: int)
    ensures Covering(b) ==> b.stallWindow <= Window(b, phase, bytes)
    ensures !Covering(b) ==> Window(b, Tool("convert"), 0) < b.stallWindow
  {
    hide Scaled;
  }

  // ---------------------------------------------------------------- runs

  /** Tick: fired at `fired`, read by the loop at `at`. */
  datatype Event =
    | Progress(at: int, phase: Phase)
    | Downloaded(at: int, n: int)
    | Tick(at: int, fired: int)
    | CeilingFired(at: int)
    | Stop(at: int)
  {
    predicate Activity() { Progress? || Downloaded? }
  }

  datatype Outcome = Watching | Ended | OverBudget(phase: Phase, limit: int) | Stalled(phase: Phase, idle: int, limit: int)

  function LastAt(start: int, events: seq<Event>): (t: int) {
    if events == [] then start
    else if events[|events| - 1].Activity() then events[|events| - 1].at
    else LastAt(start, events[..|events| - 1])
  }

  function PhaseAt(events: seq<Event>): (p: Phase) {
    if events == [] then Startup
    else if events[|events| - 1].Progress? then events[|events| - 1].phase
    else PhaseAt(events[..|events| - 1])
  }

  function BytesAt(events: seq<Event>): (n: int) {
    if events == [] then 0
    else BytesAt(events[..|events| - 1]) + if events[|events| - 1].Downloaded? then events[|events| - 1].n else 0
  }

  /** One turn of the select loop, given the watchdog's fields. */
  function Judge(b: Budget, phase: Phase, last: int, bytes: int, e: Event): (o: Outcome) {
    match e
    case Stop(_) => Ended
    case CeilingFired(_) => OverBudget(phase, b.ceiling)
    case Tick(_, fired) =>
      var idle, limit := fired - last, Window(b, phase, bytes);
      if idle > limit then Stalled(phase, idle, limit) else Watching
    case _ => Watching
  }

  function Verdict(b: Budget, start: int, events: seq<Event>, k: nat): (o: Outcome)
    requires k < |events|
  {
    Judge(b, PhaseAt(events[..k]), LastAt(start, events[..k]), BytesAt(events[..k]), events[k])
  }

  /** The first event that ends the watch decides; k is where to look from. */
  function Run(b: Budget, start: int, events: seq<Event>, k: nat): (o: Outcome)
    requires k <= |events|
    decreases |events| - k
  {
    if k == |events| then Watching
    else if Verdict(b, start, events, k) != Watching then Verdict(b, start, events, k)
    else Run(b, start, events, k + 1)
  }

  lemma {:induction false} RunFirst(b: Budget, start: int, events: seq<Event>, k: nat)
    requires k <= |events|
    ensures Run(b, start, events, k) == Watching
            <==> forall i :: k <= i < |events| ==> Verdict(b, start, events, i) == Watching
    ensures forall i :: k <= i < |events| && Verdict(b, start, events, i) != Watching &&
                        (forall j :: k <= j < i ==> Verdict(b, start, events, j) == Watching) ==>
              Run(b, start, events, k) == Verdict(b, start, events, i)
    decreases |events| - k
  {
    hide Verdict;
    if k < |events| { RunFirst(b, start, events, k + 1); }
  }

  lemma FirstDecides(b: Budget, start: int, events: seq<Event>, i: nat)
    requires i < |events| && Verdict(b, start, events, i) != Watching
    requires forall j :: 0 <= j < i ==> Verdict(b, start, events, j) == Watching
    ensures Run(b, start, events, 0) == Verdict(b, start, events, i)
  {
    hide Verdict, Run;
    RunFirst(b, start, events, 0);
  }

  /** Reports and downloaded bytes both count as activity; only reports change the phase. */
  lemma FieldsFollow(start: int, events: seq<Event>, e: Event)
    ensures LastAt(start, []) == start && PhaseAt([]) == Startup && BytesAt([]) == 0
    ensures LastAt(start, events + [e]) == if e.Progress? || e.Downloaded? then e.at else LastAt(start, events)
    ensures PhaseAt(events + [e]) == if e.Progress? then e.phase else PhaseAt(events)
    ensures BytesAt(events + [e]) == BytesAt(events) + if e.Downloaded? then e.n else 0
  {
    assert (events + [e])[..|events|] == events;
  }

  lemma VerdictPrefix(b: Budget, start: int, events: seq<Event>, more: seq<Event>, k: nat)
    requires k < |events|
    ensures Verdict(b, start, events + more, k) == Verdict(b, start, events, k)
  {
    assert (events + more)[..k] == events[..k];
  }

  /** While the watch goes on, the end of the run, the ceiling and a tick past the window end it, each with its
      own outcome, and nothing else does. */
  lemma RunStep(b: Budget, start: int, events: seq<Event>, e: Event)
    requires Run(b, start, events, 0) == Watching
    ensures Run(b, start, events + [e], 0) ==
            match e
            case Stop(_) => Ended
            case CeilingFired(_) => OverBudget(PhaseAt(events), b.ceiling)
            case Tick(_, fired) =>
              (var idle, limit := fired - LastAt(start, events), Window(b, PhaseAt(events), BytesAt(events));
               if idle > limit then Stalled(PhaseAt(events), idle, limit) else Watching)
            case Progress(_, _) => Watching
            case Downloaded(_, _) => Watching
  {
    hide Window, LastAt, PhaseAt, BytesAt, Run;
    var n, all := |events|, events + [e];
    RunFirst(b, start, events, 0);
    RunFirst(b, start, all, 0);
    forall j | 0 <= j < n ensures Verdict(b, start, all, j) == Watching {
      VerdictPrefix(b, start, events, [e], j);
      assert Verdict(b, start, events, j) == Watching;
    }
    assert all[..n] == events && all[n] == e;
    if Verdict(b, start, all, n) != Watching { FirstDecides(b, start, all, n); }
  }

  /** Once the watch is over, nothing that comes later changes its outcome. */
  lemma {:induction false} RunSettled(b: Budget, start: int, events: seq<Event>, more: seq<Event>, k: nat)
    requires k <= |events| && Run(b, start, events, k) != Watching
    ensures Run(b, start, events + more, k) == Run(b, start, events, k)
    decreases |events| - k
  {
    hide Verdict;
    VerdictPrefix(b, start, events, more, k);
    if Verdict(b, start, events, k) == Watching { RunSettled(b, start, events, more, k + 1); }
  }

  // ---------------------------------------------------------------- a run that keeps reporting

  /** Events in time order up to `end`, ticks read no earlier than fired, and no two reports, nor the last
      one and the end, more than `gap` apart. */
  ghost predicate Lively(start: int, events: seq<Event>, end: int, gap: int) {
    && (forall i, j :: 0 <= i < j < |events| ==> events[i].at <= events[j].at)
    && (forall i :: 0 <= i < |events| ==> start <= events[i].at <= end && (events[i].Tick? ==> events[i].fired <= events[i].at))
    && (forall i :: 0 <= i < |events| && (events[i].Progress? || events[i].Downloaded?) ==>
          events[i].at - LastAt(start, events[..i]) <= gap)
    && end - LastAt(start, events) <= gap
  }

  /** Whatever is read is read within `gap` of the last report before it. */
  lemma {:induction false} ReadWithinGap(start: int, events: seq<Event>, end: int, gap: int, k: nat, j: nat)
    requires Lively(start, events, end, gap) && k <= j <= |events| && k < |events|
    requires LastAt(start, events[..j]) == LastAt(start, events[..k])
    ensures events[k].at - LastAt(start, events[..k]) <= gap
    decreases |events| - j
  {
    if j == |events| {
      assert events[..j] == events;
    } else if events[j].Activity() {
      assert k < j ==> events[k].at <= events[j].at;
    } else {
      assert events[..j + 1][..j] == events[..j];
      ReadWithinGap(start, events, end, gap, k, j + 1);
    }
  }

  lemma LivelyNeverStalls(b: Budget, start: int, events: seq<Event>, end: int)
    requires Lively(start, events, end, b.stallWindow) && Covering(b)
    ensures !Run(b, start, events, 0).Stalled?
  {
    hide Window, Lively, Covering;
    RunFirst(b, start, events, 0);
    forall k | 0 <= k < |events| ensures !Verdict(b, start, events, k).Stalled? {
      ReadWithinGap(start, events, end, b.stallWindow, k, k);
      CoveringWindow(b, PhaseAt(events[..k]), BytesAt(events[..k]));
      FiredBeforeRead(start, events, end, b.stallWindow, k);
    }
    FromVerdict(b, start, events, 0);
  }

  lemma FiredBeforeRead(start: int, events: seq<Event>, end: int, gap: int, k: nat)
    requires Lively(start, events, end, gap) && k < |events|
    ensures events[k].Tick? ==> events[k].fired <= events[k].at
  {
  }

  lemma {:induction false} FromVerdict(b: Budget, start: int, events: seq<Event>, k: nat)
    requires k <= |events|
    ensures Run(b, start, events, k) == Watching ||
            exists i :: k <= i < |events| && Run(b, start, events, k) == Verdict(b, start, events, i)
    decreases |events| - k
  {
    hide Verdict;
    if k < |events| { FromVerdict(b, start, events, k + 1); }
  }

  /** A run of one quiet conversion, read once when the stall window is over. */
  function Quiet(w: int): (events: seq<Event>) {
    [Progress(0, Tool("convert")), Tick(w, w)]
  }

  lemma QuietStalls(b: Budget)
    requires b.stallWindow >= 0 && !Covering(b)
    ensures Lively(0, Quiet(b.stallWindow), b.stallWindow, b.stallWindow)
    ensures Run(b, 0, Quiet(b.stallWindow), 0).Stalled?
  {
    hide Window;
    var events := Quiet(b.stallWindow);
    CoveringWindow(b, Tool("convert"), 0);
    assert events[..0] == [] && events[..1] == [Progress(0, Tool("convert"))];
    assert events == [Progress(0, Tool("convert"))] + [events[1]];
    assert events[..|events| - 1] == events[..1];
    assert [Progress(0, Tool("convert"))][..0] == [];
    assert LastAt(0, events[..1]) == 0 && LastAt(0, events) == 0;
    assert PhaseAt(events[..1]) == Tool("convert") && BytesAt(events[..1]) == 0;
    assert Verdict(b, 0, events, 0) == Watching;
    assert Verdict(b, 0, events, 1).Stalled?;
  }

  /** No run whose reports are never more than the stall window apart is ever called stalled, in any phase,
      exactly when the window is no longer than the tool floor and the ceiling. */
  lemma NeverStalledIff(b: Budget)
    requires b.stallWindow >= 0
    ensures (forall start, events, end :: Lively(start, events, end, b.stallWindow) ==> !Run(b, start, events, 0).Stalled?)
            <==> Covering(b)
  {
    hide Run, Lively, Covering;
    if Covering(b) {
      forall start, events, end | Lively(start, events, end, b.stallWindow)
        ensures !Run(b, start, events, 0).Stalled?
      {
        LivelyNeverStalls(b, start, events, end);
      }
    } else {
      QuietStalls(b);
    }
  }

  // ---------------------------------------------------------------- a run that goes silent

  lemma {:induction false} SilentKeeps(start: int, events: seq<Event>, k: nat, i: nat)
    requires k <= i <= |events| && forall j :: k <= j < i ==> events[j].Tick?
    ensures LastAt(start, events[..i]) == LastAt(start, events[..k])
    ensures PhaseAt(events[..i]) == PhaseAt(events[..k]) && BytesAt(events[..i]) == BytesAt(events[..k])
  {
    if k < i {
      assert events[..i][..i - 1] == events[..i - 1];
      SilentKeeps(start, events, k, i - 1);
    }
  }

  /** From event k on only ticks arrive: the first one past the window of the last report cancels the run
      as stalled, with that phase and window, and none before it does. */
  lemma SilentIsStopped(b: Budget, start: int, events: seq<Event>, k: nat, i: nat)
    requires k <= i < |events|
    requires Run(b, start, events[..k], 0) == Watching
    requires forall j :: k <= j <= i ==> events[j].Tick?
    requires var limit := Window(b, PhaseAt(events[..k]), BytesAt(events[..k]));
             && events[i].fired - LastAt(start, events[..k]) > limit
             && forall j :: k <= j < i ==> events[j].fired - LastAt(start, events[..k]) <= limit
    ensures var limit := Window(b, PhaseAt(events[..k]), BytesAt(events[..k]));
            Run(b, start, events, 0) == Stalled(PhaseAt(events[..k]), events[i].fired - LastAt(start, events[..k]), limit)
    ensures forall j :: k <= j <= i ==> Run(b, start, events[..j], 0) == Watching
  {
    hide Window, LastAt, PhaseAt, BytesAt, Run;
    RunFirst(b, start, events[..k], 0);
    forall j | 0 <= j < i ensures Verdict(b, start, events, j) == Watching {
      if j < k {
        assert events[..k][..j] == events[..j];
        assert Verdict(b, start, events[..k], j) == Watching;
      } else {
        SilentKeeps(start, events, k, j);
      }
    }
    SilentKeeps(start, events, k, i);
    assert Verdict(b, start, events, i)
        == Stalled(PhaseAt(events[..k]), events[i].fired - LastAt(start, events[..k]),
                   Window(b, PhaseAt(events[..k]), BytesAt(events[..k])));
    FirstDecides(b, start, events, i);
    forall j | k <= j <= i ensures Run(b, start, events[..j], 0) == Watching {
      PrefixWatching(b, start, events, j);
    }
  }

  lemma PrefixWatching(b: Budget, start: int, events: seq<Event>, j: nat)
    requires j <= |events| && forall m :: 0 <= m < j ==> Verdict(b, start, events, m) == Watching
    ensures Run(b, start, events[..j], 0) == Watching
  {
    hide Window, Run;
    RunFirst(b, start, events[..j], 0);
    forall m | 0 <= m < j ensures Verdict(b, start, events[..j], m) == Watching {
      assert events[..j][..m] == events[..m];
      assert Verdict(b, start, events, m) == Watching;
    }
  }

  // ---------------------------------------------------------------- the object

  class Watchdog {
    const budget: Budget
    var phase: Phase
    var last: int
    var bytes: int
    ghost const start: int
    ghost var history: seq<Event>

    /** The fields say what the history says. */
    ghost predicate Valid()
      reads this
    {
      phase == PhaseAt(history) && last == LastAt(start, history) && bytes == BytesAt(history)
    }

    constructor (b: Budget, now: int)
      ensures Valid() && budget == b && start == now && history == []
    {
      budget, phase, last, bytes, start, history := b, Startup, now, 0, now, [];
    }

    method Report(p: Phase, now: int)
      requires Valid()
      modifies this
      ensures Valid() && history == old(history) + [Progress(now, p)]
    {
      phase, last := p, now;
      history := history + [Progress(now, p)];
      assert history[..|history| - 1] == old(history);
    }

    method Download(n: int, now: int)
      requires Valid()
      modifies this
      ensures Valid() && history == old(history) + [Downloaded(now, n)]
    {
      bytes := bytes + n;
      last := now;
      history := history + [Downloaded(now, n)];
      assert history[..|history| - 1] == old(history);
    }

    /** What one received case of the select does. */
    method Turn(e: Event) returns (o: Outcome)
      requires Valid() && !e.Activity()
      modifies this`history
      ensures Valid() && history == old(history) + [e]
      ensures o == Verdict(budget, start, history, |history| - 1)
    {
      history := history + [e];
      assert history[..|history| - 1] == old(history);
      match e
      case Stop(_) => o := Ended;
      case CeilingFired(_) => o := OverBudget(phase, budget.ceiling);
      case Tick(_, fired) =>
        var idle, limit := fired - last, Window(budget, phase, bytes);
        o := if idle > limit then Stalled(phase, idle, limit) else Watching;
    }
  }

  /** watch, fed by the reports and the channels in the order they come in. */
  method Watch(b: Budget, start: int, events: seq<Event>) returns (o: Outcome)
    ensures o == Run(b, start, events, 0)
  {
    var w := new Watchdog(b, start);
    o := Watching;
    for i := 0 to |events|
      invariant w.Valid() && w.history == events[..i] && w.start == start && w.budget == b && fresh(w)
      invariant Run(b, start, events, 0) == Run(b, start, events, i)
    {
      match events[i]
      case Progress(at, p) => w.Report(p, at);
      case Downloaded(at, n) => w.Download(n, at);
      case e =>
        var turn := w.Turn(e);
        assert events[..i + 1][..i] == events[..i] && events[..i + 1][i] == events[i];
        if turn != Watching { return turn; }
    }
  }
}
