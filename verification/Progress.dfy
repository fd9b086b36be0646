/** How many activity calls a run can make: paid for by signals, or bounded outright when the graph has no cycle. */
module Progress {
  import opened Basics
  import opened StepGraph
  import opened Signals
  import opened Machine
  import opened StatusLanguage
  import opened Threading
  import opened Schedule

  // ---------------------------------------------------------------- calls between two messages

  /** The ungated steps called since the last message was taken, after the last gated call. */
  function FreeTail(g: Graph, calls: seq<Call>, paid: nat): seq<string> {
    if |calls| == 0 then []
    else
      var k := calls[|calls| - 1];
      if k.paid == paid && !At(g, k.at).Gated() then FreeTail(g, calls[..|calls| - 1], paid) + [k.at] else []
  }

  function Tail(c: Config, f: Flow): seq<string> { FreeTail(c.graph, f.log.calls, |f.log.taken|) }

  predicate EndsWith(xs: seq<string>, x: string) { |xs| > 0 && xs[|xs| - 1] == x }

  /** The tail of free calls is a walk over free steps, and the phase continues it. */
  ghost predicate TailInv(c: Config, f: Flow) {
    var t := Tail(c, f);
    && Walk(FreeEdges(c.graph), t)
    && (forall i :: 0 <= i < |t| ==> t[i] in FreeSteps(c.graph))
    && (forall k :: k in f.log.calls ==> k.paid <= |f.log.taken|)
    && match f.phase
       case AtStep(at, _) => !At(c.graph, at).Gated() && |t| > 0 ==> (t[|t| - 1], at) in FreeEdges(c.graph)
       case Parked(at, _) => At(c.graph, at).Gated()
       case InFlight(at, _) => if At(c.graph, at).Gated() then t == [] else EndsWith(t, at)
       case Approving(at) => At(c.graph, at).Gated()
       case Returned(at) => if At(c.graph, at).Gated() then t == [] else EndsWith(t, at)
       case _ => true
  }

  function Paid(n: nat, free: nat): nat { n * (free + 1) }

  lemma PaidNext(n: nat, free: nat)
    ensures Paid(n + 1, free) == Paid(n, free) + free + 1
    ensures Paid(n, free) + free == n + (n + 1) * free
  {
  }

  ghost predicate ProgressInv(c: Config, f: Flow) {
    && TailInv(c, f)
    && |f.log.calls| <= Paid(|f.log.taken|, |FreeSteps(c.graph)|) + |Tail(c, f)|
  }

  lemma TailIsShort(c: Config, f: Flow)
    requires Acyclic(FreeEdges(c.graph)) && TailInv(c, f)
    ensures |Tail(c, f)| <= |FreeSteps(c.graph)|
  {
    AcyclicWalkIsDistinct(FreeEdges(c.graph), Tail(c, f));
    DistinctFits(Tail(c, f), FreeSteps(c.graph));
  }

  lemma {:induction false} FreeTailSnoc(g: Graph, calls: seq<Call>, k: Call, paid: nat)
    ensures FreeTail(g, calls + [k], paid)
            == if k.paid == paid && !At(g, k.at).Gated() then FreeTail(g, calls, paid) + [k.at] else []
  {
    assert (calls + [k])[..|calls|] == calls;
  }

  lemma {:induction false} NewPaymentEmptiesTail(g: Graph, calls: seq<Call>, paid: nat)
    requires forall k :: k in calls ==> k.paid < paid
    ensures FreeTail(g, calls, paid) == []
  {
    if |calls| > 0 { assert calls[|calls| - 1] in calls; }
  }

  /** Taking a message pays for the calls since the last one and for one gated call. */
  lemma TakingPays(c: Config, f: Flow, f': Flow)
    requires Acyclic(FreeEdges(c.graph)) && ProgressInv(c, f)
    requires |f'.log.taken| == |f.log.taken| + 1
    requires || f'.log.calls == f.log.calls
             || exists k :: f'.log.calls == f.log.calls + [k] && k.paid == |f'.log.taken| && At(c.graph, k.at).Gated()
    requires f'.phase.Raised? || ((f'.phase.InFlight? || f'.phase.Returned?) && At(c.graph, f'.phase.at).Gated())
    ensures ProgressInv(c, f')
  {
    TailIsShort(c, f);
    PaidNext(|f.log.taken|, |FreeSteps(c.graph)|);
    NewPaymentEmptiesTail(c.graph, f.log.calls, |f'.log.taken|);
    if f'.log.calls != f.log.calls {
      var k :| f'.log.calls == f.log.calls + [k] && k.paid == |f'.log.taken| && At(c.graph, k.at).Gated();
      FreeTailSnoc(c.graph, f.log.calls, k, |f'.log.taken|);
    }
  }

  lemma EntryKeepsProgress(c: Config, f: Flow)
    requires ProgressInv(c, f) && f.phase.AtStep? && f.phase.at in c.graph
    ensures ProgressInv(c, OnEntry(c, f, f.phase.at, f.phase.failures))
  {
    var at := f.phase.at;
    var f' := OnEntry(c, f, at, f.phase.failures);
    if !At(c.graph, at).Gated() {
      var k := f'.log.calls[|f.log.calls|];
      assert f'.log.calls == f.log.calls + [k];
      FreeTailSnoc(c.graph, f.log.calls, k, |f.log.taken|);
    }
  }

  lemma MessageKeepsProgress(c: Config, f: Flow, p: Payload)
    requires Acyclic(FreeEdges(c.graph)) && ProgressInv(c, f) && f.phase.Parked?
    ensures ProgressInv(c, OnMessage(c, f, f.phase.at, f.phase.failures, p))
  {
    assert At(c.graph, f.phase.at).Gated();
    hide ProgressInv;
    var f' := OnMessage(c, f, f.phase.at, f.phase.failures, p);
    assert f'.log.calls != f.log.calls ==> f'.log.calls == f.log.calls + [f'.log.calls[|f.log.calls|]];
    TakingPays(c, f, f');
  }

  lemma ApprovalKeepsProgress(c: Config, f: Flow, p: Payload)
    requires Acyclic(FreeEdges(c.graph)) && ProgressInv(c, f) && f.phase.Approving?
    ensures ProgressInv(c, OnApproval(c, f, f.phase.at, p))
  {
    assert At(c.graph, f.phase.at).Gated();
    hide ProgressInv;
    TakingPays(c, f, OnApproval(c, f, f.phase.at, p));
  }

  /** Steps that neither call nor take only have to keep the tail in step with the phase. */
  lemma ReplyKeepsProgress(c: Config, f: Flow)
    requires ProgressInv(c, f) && f.phase.InFlight?
    ensures ProgressInv(c, OnReply(c, f, f.phase.at, f.phase.failures))
  {
  }

  lemma ReturnKeepsProgress(c: Config, f: Flow)
    requires ProgressInv(c, f) && f.phase.Returned? && f.phase.at in c.graph
    ensures ProgressInv(c, OnReturn(c, f, f.phase.at))
  {
    var f' := OnReturn(c, f, f.phase.at);
    assert f'.log.calls == f.log.calls && f'.log.taken == f.log.taken;
    if f'.phase.AtStep? && !At(c.graph, f'.phase.at).Gated() && !At(c.graph, f.phase.at).Gated() {
      assert (f.phase.at, f'.phase.at) in FreeEdges(c.graph);
    }
  }

  lemma EndingKeepsProgress(c: Config, f: Flow, f': Flow)
    requires ProgressInv(c, f)
    requires f'.log.calls == f.log.calls && f'.log.taken == f.log.taken
    requires f'.phase == f.phase || f'.phase.Raised? || f'.phase.Ended?
    ensures ProgressInv(c, f')
  {
  }

  lemma StepKeepsProgress(c: Config, s: System, e: Event)
    requires Acyclic(FreeEdges(c.graph)) && WalkInv(c, s.flow) && ProgressInv(c, s.flow)
    ensures ProgressInv(c, Step(c, s, e).flow)
  {
    hide ProgressInv, OnEntry, OnMessage, OnReply, OnApproval, OnReturn;
    var f, f' := s.flow, Step(c, s, e).flow;
    if !e.Tick? {
      EndingKeepsProgress(c, f, f');
    } else {
      var p := NextMessage(c, f, s.arrived);
      match f.phase
      case AtStep(_, _) => EntryKeepsProgress(c, f);
      case Parked(_, _) => if p.Some? { MessageKeepsProgress(c, f, p.value); }
      case InFlight(_, _) => ReplyKeepsProgress(c, f);
      case Approving(_) => if p.Some? { ApprovalKeepsProgress(c, f, p.value); }
      case Returned(_) => ReturnKeepsProgress(c, f);
      case Raised(_) => EndingKeepsProgress(c, f, f');
      case Ended(_) =>
      case Aborted =>
    }
  }

  lemma StartKeepsProgress(c: Config, d: Option<Data>)
    ensures ProgressInv(c, Start(c, d, PENDING))
  {
  }

  lemma {:induction false} RunKeepsProgress(c: Config, d: Option<Data>, events: seq<Event>)
    requires Acyclic(FreeEdges(c.graph))
    ensures ProgressInv(c, Run(c, d, events).flow)
    decreases |events|
  {
    hide ProgressInv, Step, Start;
    if |events| == 0 {
      StartKeepsProgress(c, d);
    } else {
      var before := events[..|events| - 1];
      RunKeepsProgress(c, d, before);
      RunKeepsWalk(c, d, before);
      StepKeepsProgress(c, Run(c, d, before), events[|events| - 1]);
    }
  }

  lemma ProgressPays(c: Config, f: Flow)
    requires Acyclic(FreeEdges(c.graph)) && ProgressInv(c, f)
    ensures |f.log.calls| <= |f.log.taken| + (|f.log.taken| + 1) * |FreeSteps(c.graph)|
  {
    TailIsShort(c, f);
    PaidNext(|f.log.taken|, |FreeSteps(c.graph)|);
  }

  /** Progress is paid for by signals: if every cycle passes a gated step, a run that took n messages has made at most
      n + (n + 1) * N calls, N being the number of ungated steps. */
  lemma {:induction false} CallsArePaidFor(c: Config, d: Option<Data>, events: seq<Event>)
    requires CyclesAreGated(c.graph)
    ensures var log := Run(c, d, events).flow.log;
            |log.calls| <= |log.taken| + (|log.taken| + 1) * |FreeSteps(c.graph)|
  {
    hide Run, CyclesAreGated, Acyclic, ProgressInv, FreeEdges, FreeSteps;
    GatedCyclesLeaveFreeEdgesAcyclic(c.graph);
    RunKeepsProgress(c, d, events);
    ProgressPays(c, Run(c, d, events).flow);
  }

  // ---------------------------------------------------------------- coming to rest

  /** How far into its call a flow is. Every call takes at most five moves from one step to the next. */
  function Lead(f: Flow): int {
    match f.phase
    case AtStep(_, _) => 0
    case Parked(_, _) => 1
    case InFlight(_, _) => -3
    case Approving(_) => -2
    case Returned(_) => -1
    case Raised(_) => 2
    case Ended(_) => 3
    case Aborted => 0
  }

  lemma AdvancePaysForMove(c: Config, f: Flow, arrived: seq<Signal>)
    requires Enabled(c, f, arrived)
    ensures 5 * |f.log.calls| + Lead(f) + 1
            <= 5 * |Advance(c, f, arrived).log.calls| + Lead(Advance(c, f, arrived))
  {
  }

  /** Nothing that happens takes a flow back: arrivals, timers and cancellations included. */
  lemma StepPaysForMove(c: Config, s: System, e: Event)
    ensures 5 * |s.flow.log.calls| + Lead(s.flow) + Moved(c, s, e)
            <= 5 * |Step(c, s, e).flow.log.calls| + Lead(Step(c, s, e).flow)
  {
    hide Advance, Enabled, NextMessage, OptionsAt, AttrAt;
    if e.Tick? {
      if Enabled(c, s.flow, s.arrived) {
        AdvancePaysForMove(c, s.flow, s.arrived);
      } else {
        DisabledStays(c, s.flow, s.arrived);
      }
    }
  }

  lemma StartLeads(c: Config, d: Option<Data>)
    ensures Lead(Start(c, d, PENDING)) >= 0
  {
  }

  lemma {:induction false} CallsPayForMoves(c: Config, d: Option<Data>, events: seq<Event>)
    ensures Moves(c, d, events) <= 5 * |Run(c, d, events).flow.log.calls| + Lead(Run(c, d, events).flow)
    decreases |events|
  {
    hide Step, Start, Moved, Lead;
    if |events| == 0 {
      StartLeads(c, d);
    } else {
      var before := events[..|events| - 1];
      CallsPayForMoves(c, d, before);
      StepPaysForMove(c, Run(c, d, before), events[|events| - 1]);
    }
  }

  lemma {:induction false} SomewhereOn(ss: seq<Signal>, ch: string) returns (i: nat)
    requires |On(ss, ch)| > 0
    ensures i < |ss| && ss[i].channel == ch
    decreases |ss|
  {
    if ss[|ss| - 1].channel == ch { i := |ss| - 1; } else { i := SomewhereOn(ss[..|ss| - 1], ch); }
  }

  lemma {:induction false} OneInTheMiddle(a: seq<Signal>, s: Signal, b: seq<Signal>, ch: string)
    ensures |On((a + [s]) + b, ch)| == |On(a + b, ch)| + if s.channel == ch then 1 else 0
  {
    hide On;
    OnAppend(a, b, ch);
    OnAppend(a + [s], b, ch);
    OnSnoc(a, s, ch);
  }

  lemma {:induction false} RemovingOne(ss: seq<Signal>, i: nat, ch: string)
    requires i < |ss|
    ensures |On(ss, ch)| == |On(ss[..i] + ss[i + 1..], ch)| + if ss[i].channel == ch then 1 else 0
  {
    hide On;
    OneInTheMiddle(ss[..i], ss[i], ss[i + 1..], ch);
    assert ss == (ss[..i] + [ss[i]]) + ss[i + 1..];
  }

  /** A list with no more messages than another on any channel is no longer than it. */
  lemma {:induction false} NoMoreOnAnyChannel(few: seq<Signal>, many: seq<Signal>)
    requires forall ch :: |On(few, ch)| <= |On(many, ch)|
    ensures |few| <= |many|
    decreases |few|
  {
    if |few| > 0 {
      hide On;
      var rest, s := few[..|few| - 1], few[|few| - 1];
      assert few == rest + [s];
      OnSnoc(rest, s, s.channel);
      assert |On(few, s.channel)| <= |On(many, s.channel)|;
      var i := SomewhereOn(many, s.channel);
      var less := many[..i] + many[i + 1..];
      forall ch ensures |On(rest, ch)| <= |On(less, ch)| {
        OnSnoc(rest, s, ch);
        RemovingOne(many, i, ch);
        assert |On(few, ch)| <= |On(many, ch)|;
      }
      NoMoreOnAnyChannel(rest, less);
    }
  }

  lemma {:induction false} TakenAreArrived(c: Config, d: Option<Data>, events: seq<Event>)
    ensures |Run(c, d, events).flow.log.taken| <= |Run(c, d, events).arrived|
  {
    var s := Run(c, d, events);
    hide Run;
    RunConserves(c, d, events);
    var taken := SignalsOf(s.flow.log.taken);
    forall ch ensures |On(taken, ch)| <= |On(s.arrived, ch)| {
      assert On(taken, ch) + Queued(s.arrived, taken, ch) == On(s.arrived, ch);
    }
    NoMoreOnAnyChannel(taken, s.arrived);
  }

  lemma MorePaidMore(m: nat, n: nat, free: nat)
    requires m <= n
    ensures m + (m + 1) * free <= n + (n + 1) * free
  {
  }

  function MoveBound(signals: nat, free: nat): nat { 5 * (signals + (signals + 1) * free) + 3 }

  lemma LeadIsShort(f: Flow)
    ensures Lead(f) <= 3
  {
  }

  /** With every cycle gated, a run that took n messages has moved at most 5 * (n + (n + 1) * N) + 3 times, whatever
      arrived, timed out or was cancelled in between. */
  lemma {:induction false} MovesArePaidFor(c: Config, d: Option<Data>, events: seq<Event>)
    requires CyclesAreGated(c.graph)
    ensures Moves(c, d, events) <= MoveBound(|Run(c, d, events).flow.log.taken|, |FreeSteps(c.graph)|)
  {
    hide Run, Moves, CyclesAreGated, FreeSteps, Lead;
    CallsPayForMoves(c, d, events);
    CallsArePaidFor(c, d, events);
    LeadIsShort(Run(c, d, events).flow);
  }

  /** So m signals let any run move at most 5 * (m + (m + 1) * N) + 3 times. */
  lemma {:induction false} SignalsPayForRuns(c: Config, d: Option<Data>, events: seq<Event>)
    requires CyclesAreGated(c.graph)
    ensures Moves(c, d, events) <= MoveBound(|Arrivals(events)|, |FreeSteps(c.graph)|)
  {
    hide Run, Moves, CyclesAreGated, FreeSteps;
    MovesArePaidFor(c, d, events);
    RunArrived(c, d, events);
    TakenAreArrived(c, d, events);
    MorePaidMore(|Run(c, d, events).flow.log.taken|, |Arrivals(events)|, |FreeSteps(c.graph)|);
  }

  function Ticks(n: nat): seq<Event> { if n == 0 then [] else Ticks(n - 1) + [Tick] }

  /** The machine left to itself after a run. */
  function Later(c: Config, d: Option<Data>, events: seq<Event>, n: nat): System { Run(c, d, events + Ticks(n)) }

  lemma {:induction false} EnabledTicksMove(c: Config, d: Option<Data>, events: seq<Event>, n: nat)
    requires forall k :: 0 <= k < n ==> !AtRest(c, Later(c, d, events, k))
    ensures Moves(c, d, events + Ticks(n)) == Moves(c, d, events) + n
    ensures Arrivals(events + Ticks(n)) == Arrivals(events)
  {
    hide Run, Enabled;
    if n == 0 {
      assert events + Ticks(0) == events;
    } else {
      EnabledTicksMove(c, d, events, n - 1);
      assert !AtRest(c, Later(c, d, events, n - 1));
      var before := events + Ticks(n - 1);
      assert events + Ticks(n) == before + [Tick];
      ArrivalsSnoc(before, Tick);
      MovesSnoc(c, d, before, Tick);
    }
  }

  lemma {:induction false} MovesSnoc(c: Config, d: Option<Data>, events: seq<Event>, e: Event)
    ensures Moves(c, d, events + [e]) == Moves(c, d, events) + Moved(c, Run(c, d, events), e)
  {
    hide Run, Moved;
    assert (events + [e])[..|events|] == events;
  }

  ghost predicate RestsWithin(c: Config, d: Option<Data>, events: seq<Event>, bound: nat) {
    exists n: nat :: n <= bound && AtRest(c, Later(c, d, events, n))
  }

  /** So every run ends or parks: after any events, within the moves its signals pay for, nothing is enabled any
      more. */
  lemma {:induction false} EveryRunComesToRest(c: Config, d: Option<Data>, events: seq<Event>)
    requires CyclesAreGated(c.graph)
    ensures RestsWithin(c, d, events, MoveBound(|Arrivals(events)|, |FreeSteps(c.graph)|))
  {
    hide Run, Later, Moves, Arrivals, AtRest, CyclesAreGated, FreeSteps, MoveBound, Ticks;
    var bound := MoveBound(|Arrivals(events)|, |FreeSteps(c.graph)|);
    if !RestsWithin(c, d, events, bound) {
      EnabledTicksMove(c, d, events, bound + 1);
      SignalsPayForRuns(c, d, events + Ticks(bound + 1));
    }
  }

  // ---------------------------------------------------------------- no cycle at all

  function Budget(c: Config, at: string): nat {
    LimitIsPositive(c, at);
    if At(c.graph, at).Gated() then OptionsAt(c, at).maxCorrectionAttempts + 1 else 1
  }

  function NamesOf(visits: seq<Visit>): (names: seq<string>)
    ensures |names| == |visits|
  {
    seq(|visits|, i requires 0 <= i < |visits| => visits[i].at)
  }

  function SumOfBudgets(c: Config, names: seq<string>): nat {
    if |names| == 0 then 0 else SumOfBudgets(c, names[..|names| - 1]) + Budget(c, names[|names| - 1])
  }

  lemma {:induction false} CallsBeforeVisit(c: Config, d: Option<Data>, f: Flow, v: nat)
    requires DataInv(c, d, f) && v < |f.log.visits|
    ensures f.log.visits[v].first <= SumOfBudgets(c, NamesOf(f.log.visits)[..v])
  {
    if v > 0 {
      CallsBeforeVisit(c, d, f, v - 1);
      assert VisitOk(c, f.log, v);
      assert CallOk(c, f.log, f.log.visits[v].first - 1);
      assert NamesOf(f.log.visits)[..v][..v - 1] == NamesOf(f.log.visits)[..v - 1];
    }
  }

  lemma VisitsWalk(c: Config, f: Flow)
    requires WalkInv(c, f)
    ensures Walk(EdgesOf(c.graph), NamesOf(f.log.visits))
  {
    var names := NamesOf(f.log.visits);
    forall i | 0 < i < |names| ensures (names[i - 1], names[i]) in EdgesOf(c.graph) {
      assert Hop(c, f.log.visits[i - 1], f.log.visits[i]);
    }
  }

  lemma {:induction false} CallsWithinBudgets(c: Config, d: Option<Data>, f: Flow)
    requires DataInv(c, d, f)
    ensures |f.log.calls| <= SumOfBudgets(c, NamesOf(f.log.visits))
  {
    var names := NamesOf(f.log.visits);
    var last := |names| - 1;
    if |names| > 0 {
      CallsBeforeVisit(c, d, f, last);
      hide SumOfBudgets;
      assert names[..|names|] == names;
      SumSnoc(c, names);
      if f.log.visits[last].first < |f.log.calls| { assert CallOk(c, f.log, |f.log.calls| - 1); }
    }
  }

  lemma {:induction false} SumSnoc(c: Config, names: seq<string>)
    requires |names| > 0
    ensures SumOfBudgets(c, names) == SumOfBudgets(c, names[..|names| - 1]) + Budget(c, names[|names| - 1])
  {
  }

  /** On a graph without cycles a run visits each step at most once and makes at most the sum of the budgets of the
      visited steps in calls: one for an ungated step, limit + 1 for a gated one. */
  lemma {:induction false} AcyclicRunIsBounded(c: Config, d: Option<Data>, events: seq<Event>)
    requires Acyclic(EdgesOf(c.graph))
    ensures var log := Run(c, d, events).flow.log;
            && Distinct(NamesOf(log.visits))
            && (forall i :: 0 <= i < |log.visits| ==> log.visits[i].at in c.graph)
            && |log.visits| <= |c.graph|
            && |log.calls| <= SumOfBudgets(c, NamesOf(log.visits))
  {
    hide Run, CallOk, VisitOk, PhaseOk;
    RunKeepsData(c, d, events);
    var f := Run(c, d, events).flow;
    VisitsWalk(c, f);
    AcyclicWalkIsDistinct(EdgesOf(c.graph), NamesOf(f.log.visits));
    DistinctFits(NamesOf(f.log.visits), c.graph.Keys);
    CallsWithinBudgets(c, d, f);
  }
}
