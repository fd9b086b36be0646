/** When a run completes, exactly, and which steps some run can reach. */
module Completion {
  import opened Basics
  import opened StepGraph
  import opened Registration
  import opened Signals
  import opened Machine
  import opened StatusLanguage
  import opened Threading
  import opened Approvals
  import opened Progress

  // ---------------------------------------------------------------- completion

  /** No step ran because the first one is unknown; or the last call belongs to the last visit, it succeeded, and the
      approval that visit needed was granted. */
  ghost predicate Accomplished(c: Config, f: Flow) {
    var n, cur := |f.log.calls|, CurrentVisit(f.log);
    if |f.log.visits| == 0 then c.first !in c.graph
    else && n > 0
         && f.log.calls[n - 1].visit == cur
         && Reply(c, f.log, n - 1).Done?
         && Granted(c, f.log, cur)
  }

  /** An ended run is COMPLETED if and only if its last visit succeeded and was granted, or there was no step to visit.
      Where the data points does not matter: a name that is not listed ends the walk, it does not fail it. */
  lemma {:induction false} CompletionIsExact(c: Config, d: Option<Data>, events: seq<Event>)
    requires Run(c, d, events).flow.phase.Ended?
    ensures Run(c, d, events).flow.status == COMPLETED <==> Accomplished(c, Run(c, d, events).flow)
  {
    hide Run, DataInv, ApprovalInv;
    RunKeepsData(c, d, events);
    RunKeepsApprovals(c, d, events);
    RunKeepsStatus(c, d, events);
    EndIsExact(c, d, Run(c, d, events).flow);
  }

  lemma EndIsExact(c: Config, d: Option<Data>, f: Flow)
    requires DataInv(c, d, f) && ApprovalInv(c, f) && StatusInv(c, f) && f.phase.Ended?
    ensures f.status == COMPLETED <==> Accomplished(c, f)
  {
    hide CallOk, VisitOk, WalkInv, Corrections, Corrected, ApprovalsOf, NeedsApproval, FromItsStep, Absorb, Branch;
    if |f.log.visits| > 0 { assert CurrentOk(c, f); }
  }

  // ---------------------------------------------------------------- walks that run

  /** Activities that send the data along a walk and always succeed, corrections that change nothing, and approvals
      that say yes. */
  function Guide(env: Env, x: Data, xs: seq<string>): Env {
    env.(act := (n: nat, fn, d) => Done(env.setActivity(x, if n + 1 < |xs| then xs[n + 1] else "")),
         unmarshal := (d, bytes) => Unmarshalled(true, d),
         marshal := v => Some(""),
         approves := p => true,
         upsertOk := n => true,
         queryOk := true)
  }

  ghost predicate Guided(c: Config, env: Env, x: Data, xs: seq<string>) {
    Lawful(env) && c.env == Guide(env, x, xs) && Path(c.graph, c.first, xs)
  }

  /** Names from the first step on, each listed by the one before and registered. */
  ghost predicate Path(g: Graph, first: string, xs: seq<string>) {
    && |xs| > 0
    && xs[0] == first
    && first in g
    && Walk(EdgesOf(g), xs)
    && forall i :: 0 < i < |xs| ==> xs[i] != ""
  }

  /** The run is at the k-th name of the walk, with so many calls made. */
  ghost predicate Along(f: Flow, xs: seq<string>, k: nat, calls: int) {
    && 0 < k <= |xs|
    && InVisit(f)
    && f.phase.at == xs[k - 1]
    && NamesOf(f.log.visits) == xs[..k]
    && |f.log.calls| == calls
    && f.data.Some?
  }

  lemma {:induction false} StartsAlong(c: Config, env: Env, x: Data, xs: seq<string>)
    requires Guided(c, env, x, xs)
    ensures var f := Run(c, Some(x), []).flow; Along(f, xs, 1, 0) && f.phase.AtStep? && f.phase.failures == 0
  {
    assert NamesOf([Visit(c.first, Some(x), 0)]) == xs[..1];
  }

  /** A message on the channel a run waits on lets it move. */
  lemma {:induction false} ArrivalEnables(c: Config, d: Option<Data>, events: seq<Event>, s: Signal)
    requires WaitsOn(c, Run(c, d, events).flow) == Some(s.channel)
    ensures var f := Run(c, d, events).flow;
            Run(c, d, events + [Arrive(s)]).flow == f
            && NextMessage(c, f, Run(c, d, events + [Arrive(s)]).arrived).Some?
  {
    hide Run;
    RunSnoc(c, d, events, Arrive(s));
    RunConserves(c, d, events);
    var r := Run(c, d, events);
    var taken := SignalsOf(r.flow.log.taken);
    assert On(taken, s.channel) + Queued(r.arrived, taken, s.channel) == On(r.arrived, s.channel);
    OnSnoc(r.arrived, s, s.channel);
  }

  lemma GuidedMessage(c: Config, env: Env, x: Data, xs: seq<string>, f: Flow, k: nat, p: Payload)
    requires Guided(c, env, x, xs) && Along(f, xs, k, k - 1) && f.phase.Parked?
    ensures var f' := OnMessage(c, f, f.phase.at, f.phase.failures, p); Along(f', xs, k, k) && f'.phase.InFlight?
  {
    hide Path, Lawful;
  }

  lemma GuidedReply(c: Config, env: Env, x: Data, xs: seq<string>, f: Flow, k: nat)
    requires Guided(c, env, x, xs) && Along(f, xs, k, k) && f.phase.InFlight? && k < |xs|
    ensures var f' := OnReply(c, f, f.phase.at, f.phase.failures);
            && Along(f', xs, k, k)
            && c.env.getActivity(f'.data.value) == xs[k]
            && (f'.phase.Returned? || (f'.phase.Approving? && NeedsApproval(c, f.phase.at)))
  {
    hide Path;
  }

  lemma GuidedApproval(c: Config, env: Env, x: Data, xs: seq<string>, f: Flow, k: nat, p: Payload)
    requires Guided(c, env, x, xs) && Along(f, xs, k, k) && f.phase.Approving? && k < |xs|
    requires c.env.getActivity(f.data.value) == xs[k]
    ensures var f' := OnApproval(c, f, f.phase.at, p);
            Along(f', xs, k, k) && f'.phase.Returned? && c.env.getActivity(f'.data.value) == xs[k]
  {
    hide Path;
  }

  lemma GuidedReturn(c: Config, env: Env, x: Data, xs: seq<string>, f: Flow, k: nat)
    requires Guided(c, env, x, xs) && Along(f, xs, k, k) && f.phase.Returned? && k < |xs|
    requires c.env.getActivity(f.data.value) == xs[k]
    ensures var f' := OnReturn(c, f, f.phase.at);
            Along(f', xs, k + 1, k) && f'.phase.AtStep? && f'.phase.failures == 0
  {
    assert (xs[k - 1], xs[k]) in EdgesOf(c.graph);
    assert NamesOf(f.log.visits + [Visit(xs[k], f.data, |f.log.calls|)]) == xs[..k] + [xs[k]] == xs[..k + 1];
  }

  lemma {:induction false} TickAdvances(c: Config, d: Option<Data>, events: seq<Event>)
    ensures var s := Run(c, d, events); Run(c, d, events + [Tick]).flow == Advance(c, s.flow, s.arrived)
  {
    hide Run, Advance;
    RunSnoc(c, d, events, Tick);
  }

  /** From a step to its call in flight, a correction being sent if the step waits for one. */
  lemma {:induction false} CallNext(c: Config, env: Env, x: Data, xs: seq<string>, events: seq<Event>, k: nat)
    returns (more: seq<Event>)
    requires Guided(c, env, x, xs)
    requires var f := Run(c, Some(x), events).flow; Along(f, xs, k, k - 1) && f.phase.AtStep?
    ensures var f := Run(c, Some(x), more).flow; Along(f, xs, k, k) && f.phase.InFlight?
  {
    hide Run, Guided, OnMessage;
    var d, at := Some(x), xs[k - 1];
    TickAdvances(c, d, events);
    more := events + [Tick];
    if At(c.graph, at).Gated() {
      var s := Signal(At(c.graph, at).signalEvent, RawMessage(""));
      ArrivalEnables(c, d, more, s);
      more := more + [Arrive(s)];
      TickAdvances(c, d, more);
      var r := Run(c, d, more);
      GuidedMessage(c, env, x, xs, r.flow, k, NextMessage(c, r.flow, r.arrived).value);
      more := more + [Tick];
    }
  }

  /** From the call in flight to the next step of the walk, an approval being sent if one is needed. */
  lemma {:induction false} HopNext(c: Config, env: Env, x: Data, xs: seq<string>, events: seq<Event>, k: nat)
    returns (more: seq<Event>)
    requires Guided(c, env, x, xs) && k < |xs|
    requires var f := Run(c, Some(x), events).flow; Along(f, xs, k, k) && f.phase.InFlight?
    ensures var f := Run(c, Some(x), more).flow; Along(f, xs, k + 1, k) && f.phase.AtStep?
  {
    hide Run, Guided, OnReply, OnApproval, OnReturn, NamesOf;
    var d, at := Some(x), xs[k - 1];
    TickAdvances(c, d, events);
    GuidedReply(c, env, x, xs, Run(c, d, events).flow, k);
    more := events + [Tick];
    if Run(c, d, more).flow.phase.Approving? {
      var s := Signal(OptionsAt(c, at).approvalSignal, RawMessage(""));
      ArrivalEnables(c, d, more, s);
      more := more + [Arrive(s)];
      TickAdvances(c, d, more);
      var r := Run(c, d, more);
      GuidedApproval(c, env, x, xs, r.flow, k, NextMessage(c, r.flow, r.arrived).value);
      more := more + [Tick];
    }
    TickAdvances(c, d, more);
    GuidedReturn(c, env, x, xs, Run(c, d, more).flow, k);
    more := more + [Tick];
  }

  /** Every walk of listed names from the first step, through gated steps and needed approvals, cyclic or not, is the
      walk of some run. */
  lemma {:induction false} EveryWalkRuns(c: Config, env: Env, x: Data, xs: seq<string>, k: nat)
    returns (events: seq<Event>)
    requires Guided(c, env, x, xs) && 0 < k <= |xs|
    ensures var f := Run(c, Some(x), events).flow; Along(f, xs, k, k - 1) && f.phase.AtStep?
    decreases k
  {
    hide Run, Guided, Along;
    if k == 1 {
      events := [];
      StartsAlong(c, env, x, xs);
    } else {
      events := EveryWalkRuns(c, env, x, xs, k - 1);
      events := CallNext(c, env, x, xs, events, k - 1);
      events := HopNext(c, env, x, xs, events, k - 1);
    }
  }

  // ---------------------------------------------------------------- the steps that run

  /** Some run on this graph visits this step. */
  ghost predicate CanRun(g: Graph, first: string, name: string) {
    exists c: Config, d: Option<Data>, events: seq<Event>, v: nat :: Visits(c, d, events, v, g, first, name)
  }

  ghost predicate Visits(
    c: Config, d: Option<Data>, events: seq<Event>, v: nat, g: Graph, first: string, name: string)
  {
    && c.graph == g && c.first == first
    && v < |Run(c, d, events).flow.log.visits|
    && Run(c, d, events).flow.log.visits[v].at == name
  }

  ghost predicate Leads(g: Graph, first: string, name: string) {
    exists xs :: Path(g, first, xs) && xs[|xs| - 1] == name
  }

  lemma {:induction false} VisitsArePaths(c: Config, d: Option<Data>, events: seq<Event>, v: nat)
    requires v < |Run(c, d, events).flow.log.visits|
    ensures Path(c.graph, c.first, NamesOf(Run(c, d, events).flow.log.visits)[..v + 1])
  {
    RunKeepsWalk(c, d, events);
    var f := Run(c, d, events).flow;
    hide Run;
    var xs := NamesOf(f.log.visits)[..v + 1];
    VisitsWalk(c, f);
    assert Walk(EdgesOf(c.graph), xs);
    forall i | 0 < i < |xs| ensures xs[i] != "" { assert Hop(c, f.log.visits[i - 1], f.log.visits[i]); }
  }

  /** A step runs in some run if and only if a walk of listed, registered names leads to it from the first step. The
      order of registration has no part in it beyond naming the first. */
  lemma StepsThatRun(g: Graph, first: string, name: string, env: Env, x: Data)
    requires Lawful(env)
    ensures CanRun(g, first, name) <==> Leads(g, first, name)
  {
    if CanRun(g, first, name) {
      hide Run, Path;
      var c: Config, d: Option<Data>, events: seq<Event>, v: nat :| Visits(c, d, events, v, g, first, name);
      VisitsArePaths(c, d, events, v);
      var xs := NamesOf(Run(c, d, events).flow.log.visits)[..v + 1];
      assert xs[|xs| - 1] == name;
    }
    if Leads(g, first, name) {
      var xs :| Path(g, first, xs) && xs[|xs| - 1] == name;
      PathsRun(g, first, name, env, x, xs);
    }
  }

  lemma {:induction false} PathsRun(g: Graph, first: string, name: string, env: Env, x: Data, xs: seq<string>)
    requires Lawful(env) && Path(g, first, xs) && xs[|xs| - 1] == name
    ensures CanRun(g, first, name)
  {
    var c := Config(Guide(env, x, xs), g, first, "");
    assert |xs| > 0;
    hide Run, Guide, Path;
    var events := EveryWalkRuns(c, env, x, xs, |xs|);
    var vs := Run(c, Some(x), events).flow.log.visits;
    assert NamesOf(vs)[|xs| - 1] == name;
    assert Visits(c, Some(x), events, |xs| - 1, g, first, name);
  }

  // ---------------------------------------------------------------- two inputs

  /** "a" lists "b", both are registered, and the activity of "a" names "c": the run is COMPLETED after "a". */
  lemma {:induction false} UnlistedNameCompletes(fn: ActivityFn, env: Env, x: Data)
    requires Lawful(env)
    ensures var g := RegisterAll([Transition("a", "", fn, ["b"]), Transition("b", "", fn, [])]).graph;
            var f := Run(Config(Guide(env, x, ["a", "c"]), g, "a", ""), Some(x), [Tick, Tick, Tick]).flow;
            && "c" !in g
            && EndedWell(f) && f.status == COMPLETED
            && NamesOf(f.log.visits) == ["a"]
  {
    var a, b := Transition("a", "", fn, ["b"]), Transition("b", "", fn, []);
    TwoSteps(a, b);
    LeavesUnlisted(Config(Guide(env, x, ["a", "c"]), RegisterAll([a, b]).graph, "a", ""), env, x);
  }

  /** A fail-fast "a" that lists only "b", and an activity after which the data names "c". */
  ghost predicate NamesElsewhere(c: Config, env: Env, x: Data) {
    && Lawful(env) && c.env == Guide(env, x, ["a", "c"]) && c.first == "a" && c.attr == ""
    && "a" in c.graph && c.graph["a"].nextActivities == ["b"] && !c.graph["a"].Gated()
  }

  lemma ThreeMoves(c: Config, env: Env, x: Data, f: Flow, a: seq<Signal>, a': seq<Signal>, a'': seq<Signal>)
    requires NamesElsewhere(c, env, x) && f == Start(c, Some(x), PENDING)
    ensures var f' := Advance(c, Advance(c, Advance(c, f, a), a'), a'');
            EndedWell(f') && f'.status == COMPLETED && |f'.log.visits| == 1 && f'.log.visits[0].at == "a"
  {
    assert At(c.graph, "a") == c.graph["a"];
    assert c.env.getActivity(env.setActivity(x, "c")) == "c";
    hide Lawful, OptionsAt, At;
  }

  lemma {:induction false} LeavesUnlisted(c: Config, env: Env, x: Data)
    requires NamesElsewhere(c, env, x)
    ensures var f := Run(c, Some(x), [Tick, Tick, Tick]).flow;
            EndedWell(f) && f.status == COMPLETED && NamesOf(f.log.visits) == ["a"]
  {
    var d := Some(x);
    hide Start, Advance, NamesElsewhere;
    assert Run(c, d, []).flow == Start(c, d, PENDING);
    hide Run, NamesOf;
    TickAdvances(c, d, []);
    TickAdvances(c, d, [Tick]);
    TickAdvances(c, d, [Tick, Tick]);
    assert [] + [Tick] == [Tick] && [Tick] + [Tick] == [Tick, Tick] && [Tick, Tick] + [Tick] == [Tick, Tick, Tick];
    ThreeMoves(c, env, x, Run(c, d, []).flow, Run(c, d, []).arrived, Run(c, d, [Tick]).arrived,
               Run(c, d, [Tick, Tick]).arrived);
    OneName(Run(c, d, [Tick, Tick, Tick]).flow.log.visits);
  }

  lemma OneName(visits: seq<Visit>)
    requires |visits| == 1
    ensures NamesOf(visits) == [visits[0].at]
  {
  }

  lemma {:induction false} RegisterSnoc(steps: seq<Transition>, s: Transition)
    ensures RegisterAll(steps + [s]) == Register(RegisterAll(steps), s)
  {
    assert (steps + [s])[..|steps|] == steps;
  }

  lemma NoSteps()
    ensures RegisterAll([]) == EMPTY
  {
  }

  lemma {:induction false} NoNext(g: Graph)
    ensures WithPlaceholders(g, []) == g
  {
  }

  lemma {:induction false} OneNext(g: Graph, name: string)
    ensures WithPlaceholders(g, [name]) == if name in g then g else g[name := PLACEHOLDER]
  {
    assert [name][..0] == [];
  }

  lemma TwoSteps(a: Transition, b: Transition)
    requires a.name == "a" && b.name == "b" && a.nextActivities == ["b"] && b.nextActivities == []
    ensures var g := RegisterAll([a, b]).graph; g.Keys == {"a", "b"} && g["a"] == a.Record() && g["b"] == b.Record()
  {
    NoSteps();
    hide RegisterAll, WithPlaceholders;
    RegisterSnoc([], a);
    RegisterSnoc([a], b);
    assert [] + [a] == [a] && [a] + [b] == [a, b];
    OneNext(map["a" := a.Record()], "b");
    NoNext(map["a" := a.Record(), "b" := b.Record()]);
    assert RegisterAll([a]).graph == map["a" := a.Record(), "b" := PLACEHOLDER];
    assert RegisterAll([a]).graph["b" := b.Record()] == map["a" := a.Record(), "b" := b.Record()];
  }

  /** "a", "b" and "c" are registered in this order; a run visits "a", "c", "b". */
  lemma {:induction false} OrderIsNotRegistration(fn: ActivityFn, env: Env, x: Data) returns (events: seq<Event>)
    requires Lawful(env)
    ensures var r := RegisterAll([Transition("a", "", fn, ["c"]), Transition("b", "", fn, []),
                                  Transition("c", "", fn, ["b"])]);
            var xs := ["a", "c", "b"];
            NamesOf(Run(Config(Guide(env, x, xs), r.graph, r.first, ""), Some(x), events).flow.log.visits) == xs
  {
    var a, b, t := Transition("a", "", fn, ["c"]), Transition("b", "", fn, []), Transition("c", "", fn, ["b"]);
    var xs := ["a", "c", "b"];
    var r := RegisterAll([a, b, t]);
    ThreeSteps(a, b, t);
    var c := Config(Guide(env, x, xs), r.graph, r.first, "");
    hide RegisterAll, Run, Guide;
    assert Path(r.graph, r.first, xs);
    events := EveryWalkRuns(c, env, x, xs, 3);
    assert xs[..3] == xs;
  }

  lemma ThreeSteps(a: Transition, b: Transition, t: Transition)
    requires a.name == "a" && b.name == "b" && t.name == "c"
    requires a.nextActivities == ["c"] && b.nextActivities == [] && t.nextActivities == ["b"]
    ensures var r := RegisterAll([a, b, t]);
            && r.first == "a"
            && r.graph.Keys == {"a", "b", "c"}
            && r.graph["a"] == a.Record() && r.graph["b"] == b.Record() && r.graph["c"] == t.Record()
  {
    RegisterSnoc([], a);
    RegisterSnoc([a], b);
    RegisterSnoc([a, b], t);
    assert [] + [a] == [a] && [a] + [b] == [a, b] && [a, b] + [t] == [a, b, t];
    OneNext(map["a" := a.Record()], "c");
    OneNext(RegisterAll([a, b]).graph["c" := t.Record()], "b");
  }
}
