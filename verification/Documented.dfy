/** What the documentation promises about order, the correction signal, the budget and the status: exactly when the
    code keeps it, and runs on which it does not. */
module Documented {
  import opened Basics
  import opened StepGraph
  import opened Registration
  import opened Signals
  import opened Machine
  import opened StatusLanguage
  import opened StatusWords
  import opened Threading
  import opened Approvals
  import opened Progress
  import opened Completion
  import opened Effects

  // ---------------------------------------------------------------- registration order

  function Registrations(steps: seq<Transition>): (names: seq<string>)
    ensures |names| == |steps|
  {
    seq(|steps|, i requires 0 <= i < |steps| => steps[i].name)
  }

  /** From the first step to the k-th, each step lists the one registered right after it. */
  ghost predicate Chained(steps: seq<Transition>, k: nat) {
    k < |steps|
    && forall i :: 0 < i <= k ==> steps[i].name != "" && steps[i].name in steps[i - 1].nextActivities
  }

  /** No other name is listed than that of the step registered right after. */
  ghost predicate ListsOnlyNext(steps: seq<Transition>, k: nat)
    requires k < |steps|
  {
    forall n :: n in steps[k].nextActivities && n != "" ==> k + 1 < |steps| && n == steps[k + 1].name
  }

  /** What a caller can check before the run: as far as the chain of neighbours goes, no step lists anything else. */
  ghost predicate ChainOnly(steps: seq<Transition>) {
    forall k: nat :: Chained(steps, k) ==> ListsOnlyNext(steps, k)
  }

  ghost predicate OnSteps(steps: seq<Transition>, c: Config) {
    c.graph == RegisterAll(steps).graph && c.first == RegisterAll(steps).first
  }

  /** The run visits the steps in the order of their registration, from the first on. */
  ghost predicate InOrder(steps: seq<Transition>, c: Config, d: Option<Data>, events: seq<Event>) {
    NamesOf(Run(c, d, events).flow.log.visits) <= Registrations(steps)
  }

  ghost predicate AlwaysInOrder(steps: seq<Transition>) {
    forall c: Config, d: Option<Data>, events: seq<Event> ::
      OnSteps(steps, c) && Lawful(c.env) ==> InOrder(steps, c, d, events)
  }

  lemma {:induction false} LastOfDistinct(steps: seq<Transition>, i: nat)
    requires DistinctNames(steps) && i < |steps|
    ensures Last(steps, steps[i].name) == Some(steps[i])
    decreases |steps|
  {
    var before, last := steps[..|steps| - 1], steps[|steps| - 1];
    if i < |steps| - 1 {
      assert steps[i].name != last.name;
      assert forall j, k :: 0 <= j < k < |before| ==> before[j].name != before[k].name;
      LastOfDistinct(before, i);
    }
  }

  lemma {:induction false} StepAt(steps: seq<Transition>, i: nat)
    requires DistinctNames(steps) && i < |steps|
    ensures var g := RegisterAll(steps).graph;
            steps[i].name in g && g[steps[i].name].nextActivities == steps[i].nextActivities
  {
    RegistrationIsDescribed(steps);
    LastOfDistinct(steps, i);
    LastIsLast(steps, steps[i].name);
    hide RegisterAll, Last;
    assert DescribesAt(steps, RegisterAll(steps).graph, steps[i].name);
  }

  /** On such steps every path follows the chain. */
  lemma {:induction false} PathsFollowChain(steps: seq<Transition>, xs: seq<string>, k: nat)
    requires DistinctNames(steps) && ChainOnly(steps)
    requires Path(RegisterAll(steps).graph, RegisterAll(steps).first, xs) && k < |xs|
    ensures Chained(steps, k) && xs[..k + 1] == Registrations(steps)[..k + 1]
    decreases k
  {
    hide RegisterAll;
    var g := RegisterAll(steps).graph;
    if k == 0 {
      FirstIsFirst(steps, xs[0]);
      assert xs[..1] == [xs[0]] && Registrations(steps)[..1] == [steps[0].name];
    } else {
      PathsFollowChain(steps, xs, k - 1);
      assert xs[k - 1] == xs[..k][k - 1] == Registrations(steps)[..k][k - 1] == steps[k - 1].name;
      StepAt(steps, k - 1);
      assert (xs[k - 1], xs[k]) in EdgesOf(g);
      assert ListsOnlyNext(steps, k - 1);
      assert xs[k] == steps[k].name;
      assert xs[..k + 1] == xs[..k] + [xs[k]];
      assert Registrations(steps)[..k + 1] == Registrations(steps)[..k] + [steps[k].name];
    }
  }

  lemma {:induction false} FirstIsFirst(steps: seq<Transition>, name: string)
    requires name == RegisterAll(steps).first && name in RegisterAll(steps).graph
    ensures |steps| > 0 && name == steps[0].name
  {
    RegistrationIsDescribed(steps);
    hide RegisterAll;
    assert DescribesAt(steps, RegisterAll(steps).graph, name);
  }

  /** On such steps every run, in every environment, is in order. */
  lemma {:induction false} ChainKeepsOrder(steps: seq<Transition>, c: Config, d: Option<Data>, events: seq<Event>)
    requires DistinctNames(steps) && ChainOnly(steps) && OnSteps(steps, c)
    ensures InOrder(steps, c, d, events)
  {
    hide Run, RegisterAll, ChainOnly, DistinctNames, Path;
    var xs := NamesOf(Run(c, d, events).flow.log.visits);
    if |xs| > 0 {
      VisitsArePaths(c, d, events, |xs| - 1);
      assert xs[..|xs|] == xs;
      PathsFollowChain(steps, xs, |xs| - 1);
    }
  }

  /** The chain up to the k-th step, and from there to a name that is listed too. */
  function Detour(steps: seq<Transition>, k: nat, name: string): seq<string>
    requires k < |steps|
  {
    Registrations(steps)[..k + 1] + [name]
  }

  lemma {:induction false} DetourIsPath(steps: seq<Transition>, k: nat, name: string)
    requires DistinctNames(steps) && Chained(steps, k) && name in steps[k].nextActivities && name != ""
    ensures Path(RegisterAll(steps).graph, RegisterAll(steps).first, Detour(steps, k, name))
  {
    RegistrationIsDescribed(steps);
    hide RegisterAll, Last, Expected;
    var g, xs := RegisterAll(steps).graph, Detour(steps, k, name);
    StepAt(steps, 0);
    forall i | 0 < i < |xs| ensures (xs[i - 1], xs[i]) in EdgesOf(g) {
      StepAt(steps, i - 1);
      assert steps[i - 1] in steps && Listed(steps, xs[i]);
      assert DescribesAt(steps, g, xs[i]);
    }
  }

  /** Otherwise some lawful run leaves the order. */
  lemma {:induction false} DetourLeavesOrder(steps: seq<Transition>, k: nat, name: string, env: Env, x: Data)
    returns (c: Config, events: seq<Event>)
    requires Lawful(env) && DistinctNames(steps) && Chained(steps, k)
    requires name in steps[k].nextActivities && name != "" && (k + 1 < |steps| ==> name != steps[k + 1].name)
    ensures OnSteps(steps, c) && Lawful(c.env) && !InOrder(steps, c, Some(x), events)
  {
    hide Run, RegisterAll, Path, DistinctNames;
    var xs := Detour(steps, k, name);
    DetourIsPath(steps, k, name);
    c := Config(Guide(env, x, xs), RegisterAll(steps).graph, RegisterAll(steps).first, "");
    GuideIsLawful(env, x, xs);
    hide Guide;
    events := EveryWalkRuns(c, env, x, xs, |xs|);
    assert xs[..|xs|] == xs;
    assert xs[k + 1] == name;
    assert k + 1 < |steps| ==> Registrations(steps)[k + 1] == steps[k + 1].name;
  }

  lemma GuideIsLawful(env: Env, x: Data, xs: seq<string>)
    requires Lawful(env)
    ensures Lawful(Guide(env, x, xs))
  {
  }

  /** Activities run in registration order, in every run, if and only if no step that the chain of neighbours reaches
      lists any other name than its neighbour's. */
  lemma OrderIsExact(steps: seq<Transition>, env: Env, x: Data)
    requires DistinctNames(steps) && Lawful(env)
    ensures AlwaysInOrder(steps) <==> ChainOnly(steps)
  {
    hide InOrder, OnSteps, DistinctNames, Lawful;
    if ChainOnly(steps) {
      forall c: Config, d: Option<Data>, events: seq<Event> | OnSteps(steps, c) ensures InOrder(steps, c, d, events) {
        ChainKeepsOrder(steps, c, d, events);
      }
    } else {
      var k: nat :| Chained(steps, k) && !ListsOnlyNext(steps, k);
      var n :| n in steps[k].nextActivities && n != "" && !(k + 1 < |steps| && n == steps[k + 1].name);
      var c, events := DetourLeavesOrder(steps, k, n, env, x);
      assert !InOrder(steps, c, Some(x), events);
    }
  }

  // ---------------------------------------------------------------- the correction signal

  /** A step that waits wakes on its correction signal if and only if that is its signal event. */
  lemma {:induction false} CorrectionSignalIsExact(c: Config, d: Option<Data>, events: seq<Event>, p: Payload)
    requires var s := Run(c, d, events); s.flow.phase.Parked? && !Enabled(c, s.flow, s.arrived)
    ensures var s := Run(c, d, events); var at := s.flow.phase.at;
            Enabled(c, s.flow, s.arrived + [Signal(OptionsAt(c, at).correctionSignal, p)])
            <==> OptionsAt(c, at).correctionSignal == At(c.graph, at).signalEvent
  {
    var s := Run(c, d, events);
    RestIsExplained(c, d, events, Signal(OptionsAt(c, s.flow.phase.at).correctionSignal, p));
  }

  /** A step on "go" whose correction signal is "fix". */
  function GoOrFix(fn: ActivityFn): Graph {
    map["a" := Info("a", "go", Some(fn), [], Some(NO_OPTIONS.(correctionSignal := "fix")))]
  }

  lemma ParksOnGo(c: Config, fn: ActivityFn, d: Option<Data>, arrived: seq<Signal>)
    requires c.graph == GoOrFix(fn) && c.first == "a" && c.attr == "" && c.env.queryOk
    ensures var f := Advance(c, Start(c, d, PENDING), arrived);
            f.phase.Parked? && f.phase.at == "a" && f.log.taken == [] && WaitsOn(c, f) == Some("go")
  {
    assert At(c.graph, "a").signalEvent == "go";
    hide OptionsAt, GoOrFix;
  }

  /** It stays parked when "fix" arrives, and moves on "go". */
  lemma {:induction false} FixDoesNotWake(fn: ActivityFn, env: Env, x: Data, p: Payload)
    requires env.queryOk
    ensures var c := Config(env, GoOrFix(fn), "a", "");
            var s := Run(c, Some(x), [Tick, Arrive(Signal("fix", p))]);
            && s.flow.phase.Parked? && s.flow.phase.at == "a"
            && !Enabled(c, s.flow, s.arrived)
            && Enabled(c, s.flow, s.arrived + [Signal("go", p)])
  {
    var c := Config(env, GoOrFix(fn), "a", "");
    var d, fix := Some(x), Signal("fix", p);
    hide Start, GoOrFix;
    assert Run(c, d, []).flow == Start(c, d, PENDING);
    hide Run, Advance;
    ParksOnGo(c, fn, d, Run(c, d, []).arrived);
    TickAdvances(c, d, []);
    RunSnoc(c, d, [Tick], Arrive(fix));
    assert [] + [Tick] == [Tick] && [Tick] + [Arrive(fix)] == [Tick, Arrive(fix)];
    RunArrived(c, d, [Tick, Arrive(fix)]);
    FixArrives(fix);
    var s := Run(c, d, [Tick, Arrive(fix)]);
    assert WaitsOn(c, s.flow) == Some("go") && SignalsOf(s.flow.log.taken) == [];
    OnSnoc([fix], Signal("go", p), "go");
  }

  lemma FixArrives(fix: Signal)
    requires fix.channel == "fix"
    ensures Arrivals([Tick, Arrive(fix)]) == [fix] && On([fix], "go") == [] && On([], "go") == []
  {
    ArrivalsSnoc([Tick], Arrive(fix));
    ArrivalsSnoc([], Tick);
    assert [] + [Tick] == [Tick] && [Tick] + [Arrive(fix)] == [Tick, Arrive(fix)];
    OnSnoc([], fix, "go");
    assert [] + [fix] == [fix];
  }

  // ---------------------------------------------------------------- what registration can set up

  /** The options of a step that registration put into the map. */
  ghost predicate Plain(i: Info) {
    var o := i.Effective();
    && o.approvalSignal == "" && o.waitTimeout == 0 && o.statusSearchAttribute == ""
    && o.maxCorrectionAttempts == DEFAULT_MAX_CORRECTION_ATTEMPTS
    && (i.Gated() ==> o.correctionSignal == i.signalEvent)
    && !StepGraph.Names(i)
  }

  lemma RecordIsPlain(s: Transition)
    ensures Plain(s.Record())
  {
  }

  lemma PlaceholderIsPlain()
    ensures Plain(PLACEHOLDER)
  {
  }

  /** Registration alone leaves every step without approval, timeout and attribute, with a limit of 5, and with its
      signal event as its correction signal. */
  lemma {:induction false} RegisteredStepsArePlain(steps: seq<Transition>, name: string)
    ensures Plain(At(RegisterAll(steps).graph, name))
  {
    RegistrationIsDescribed(steps);
    hide RegisterAll, Plain, Last;
    assert DescribesAt(steps, RegisterAll(steps).graph, name);
    PlaceholderIsPlain();
    if Last(steps, name).Some? { RecordIsPlain(Last(steps, name).value); }
  }

  /** A registered step that waits wakes on a message if and only if the message is on the signal event it was last
      registered with. */
  lemma {:induction false} RegisteredSignalWakes(steps: seq<Transition>, c: Config, d: Option<Data>,
                                                 events: seq<Event>, signal: Signal)
    requires c.graph == RegisterAll(steps).graph
    requires var s := Run(c, d, events); s.flow.phase.Parked? && !Enabled(c, s.flow, s.arrived)
    ensures var s := Run(c, d, events); var last := Last(steps, s.flow.phase.at);
            && last.Some? && last.value.signalEvent != ""
            && (Enabled(c, s.flow, s.arrived + [signal]) <==> signal.channel == last.value.signalEvent)
  {
    hide Run, RegisterAll, Enabled, Last;
    RestIsExplained(c, d, events, signal);
    RunKeepsWalk(c, d, events);
    RunKeepsStatus(c, d, events);
    WalkIsInGraph(c, Run(c, d, events).flow);
    RegistrationByField(steps, Run(c, d, events).flow.phase.at);
  }

  ghost predicate AllPlain(c: Config) {
    c.attr == "" && forall at :: Plain(At(c.graph, at))
  }

  predicate AsksNothing(s: Status) { s != AWAITING_APPROVAL && s != REJECTED }

  ghost predicate PlainInv(f: Flow) {
    && !f.phase.Approving?
    && AsksNothing(f.status)
    && (forall s :: s in f.log.writes ==> AsksNothing(s))
    && f.log.upserts == []
  }

  /** At most one status is written, an undemanding one, and none is upserted. */
  predicate PlainStep(f: Flow, f': Flow) {
    && !f'.phase.Approving?
    && f'.log.upserts == f.log.upserts
    && (|| (f'.status == f.status && f'.log.writes == f.log.writes)
        || (AsksNothing(f'.status) && f'.log.writes == f.log.writes + [f'.status]))
  }

  lemma AdvancePlainly(c: Config, f: Flow, arrived: seq<Signal>)
    requires AllPlain(c) && !f.phase.Approving?
    ensures PlainStep(f, Advance(c, f, arrived))
  {
    if InVisit(f) { assert Plain(At(c.graph, f.phase.at)); }
    hide AllPlain, NextMessage, Prepare, Outcome, Branch, NextStep, At, Info.Effective;
  }

  lemma EndWaitPlainly(c: Config, f: Flow, arrived: seq<Signal>, timer: bool)
    requires AllPlain(c) && !f.phase.Approving?
    ensures PlainStep(f, EndWait(c, f, arrived, timer))
  {
    if InVisit(f) { assert Plain(At(c.graph, f.phase.at)); }
    hide AllPlain, NextMessage, At, Info.Effective;
  }

  lemma StepPlainly(c: Config, s: System, e: Event)
    requires AllPlain(c) && PlainInv(s.flow)
    ensures PlainInv(Step(c, s, e).flow)
  {
    hide AllPlain, Advance, EndWait;
    match e
    case Arrive(_) =>
    case Tick => AdvancePlainly(c, s.flow, s.arrived);
    case Expire => EndWaitPlainly(c, s.flow, s.arrived, true);
    case Interrupt => EndWaitPlainly(c, s.flow, s.arrived, false);
  }

  lemma StartPlainly(c: Config, d: Option<Data>)
    requires AllPlain(c)
    ensures PlainInv(Start(c, d, PENDING))
  {
    hide Plain;
  }

  lemma {:induction false} RunPlainly(c: Config, d: Option<Data>, events: seq<Event>)
    requires AllPlain(c)
    ensures PlainInv(Run(c, d, events).flow)
    decreases |events|
  {
    hide AllPlain, PlainInv, Step, Start;
    if |events| == 0 {
      StartPlainly(c, d);
    } else {
      RunPlainly(c, d, events[..|events| - 1]);
      StepPlainly(c, Run(c, d, events[..|events| - 1]), events[|events| - 1]);
    }
  }

  /** So on what registration alone builds no run asks for an approval, is rejected, waits with a timer or upserts. */
  lemma {:induction false} RegisteredRunsArePlain(steps: seq<Transition>, c: Config, d: Option<Data>,
                                                  events: seq<Event>)
    requires c.graph == RegisterAll(steps).graph && AttrChoice(c.graph, c.attr)
    ensures c.attr == "" && Untimed(c.graph)
    ensures var f := Run(c, d, events).flow;
            && AsksNothing(f.status)
            && (forall s :: s in f.log.writes ==> AsksNothing(s))
            && f.log.upserts == []
  {
    hide Run, RegisterAll;
    forall at ensures Plain(At(c.graph, at)) { RegisteredStepsArePlain(steps, at); }
    forall k | k in c.graph ensures !StepGraph.Names(c.graph[k]) && c.graph[k].Effective().waitTimeout == 0 {
      assert Plain(At(c.graph, k));
    }
    RunPlainly(c, d, events);
  }

  // ---------------------------------------------------------------- the budget

  ghost predicate AlwaysFails(c: Config) {
    && (c.attr == "" || c.env.upsertOk(0)) && c.env.queryOk
    && c.first in c.graph && At(c.graph, c.first).Gated()
    && (forall n, fn, d :: c.env.act(n, fn, d).Failed?)
    && (forall x, p :: Prepare(c.env, Some(x), p).Ready?)
  }

  /** The first step after so many failed attempts. */
  ghost predicate Tried(c: Config, f: Flow, k: nat) {
    && |f.log.calls| == k
    && f.data.Some?
    && if k <= OptionsAt(c, c.first).maxCorrectionAttempts
       then f.phase.AtStep? && f.phase.at == c.first && f.phase.failures == k
       else f.phase.Raised? && f.phase.cause == Exhausted
  }

  lemma StartsTrying(c: Config, x: Data)
    requires AlwaysFails(c)
    ensures Tried(c, Start(c, Some(x), PENDING), 0)
  {
    LimitIsPositive(c, c.first);
    hide OptionsAt, At;
  }

  lemma UsableMessage(c: Config, f: Flow, k: nat, p: Payload)
    requires AlwaysFails(c) && f.phase.Parked? && f.data.Some? && |f.log.calls| == k
    ensures var f' := OnMessage(c, f, f.phase.at, f.phase.failures, p);
            && f'.phase.InFlight? && f'.phase.at == f.phase.at && f'.phase.failures == f.phase.failures
            && |f'.log.calls| == k + 1 && f'.data.Some?
  {
    assert Prepare(c.env, Some(f.data.value), p).Ready?;
  }

  lemma FailingReply(c: Config, f: Flow, k: nat)
    requires AlwaysFails(c) && f.phase.InFlight? && f.phase.at == c.first && f.phase.failures == k
    requires |f.log.calls| == k + 1 && f.data.Some? && k <= OptionsAt(c, c.first).maxCorrectionAttempts
    ensures Tried(c, OnReply(c, f, c.first, k), k + 1)
  {
    assert Outcome(c, f, c.first).Failed?;
    hide OptionsAt, At, AttrAt;
  }

  lemma {:induction false} TriesAgain(c: Config, x: Data, events: seq<Event>, k: nat) returns (more: seq<Event>)
    requires AlwaysFails(c) && k <= OptionsAt(c, c.first).maxCorrectionAttempts
    requires Tried(c, Run(c, Some(x), events).flow, k)
    ensures Tried(c, Run(c, Some(x), more).flow, k + 1)
  {
    hide Run, OnMessage, OnReply, OptionsAt;
    var d, s := Some(x), Signal(At(c.graph, c.first).signalEvent, RawMessage(""));
    TickAdvances(c, d, events);
    more := events + [Tick];
    ArrivalEnables(c, d, more, s);
    more := more + [Arrive(s)];
    TickAdvances(c, d, more);
    var r := Run(c, d, more);
    UsableMessage(c, r.flow, k, NextMessage(c, r.flow, r.arrived).value);
    more := more + [Tick];
    TickAdvances(c, d, more);
    FailingReply(c, Run(c, d, more).flow, k);
    more := more + [Tick];
  }

  lemma {:induction false} TriesOn(c: Config, x: Data, k: nat) returns (events: seq<Event>)
    requires AlwaysFails(c) && k <= OptionsAt(c, c.first).maxCorrectionAttempts + 1
    ensures Tried(c, Run(c, Some(x), events).flow, k)
    decreases k
  {
    hide AlwaysFails, Tried, OptionsAt, Start;
    if k == 0 {
      events := [];
      StartsTrying(c, x);
    } else {
      events := TriesOn(c, x, k - 1);
      events := TriesAgain(c, x, events, k - 1);
    }
  }

  /** If every call fails and every message can be applied, some run fails as exhausted, after exactly one call more
      than the limit. */
  lemma {:induction false} BudgetIsSpent(c: Config, x: Data) returns (events: seq<Event>)
    requires AlwaysFails(c)
    ensures var f := Run(c, Some(x), events).flow;
            && f.phase.Ended? && f.phase.error == Some(Exhausted) && f.status == FAILED
            && |f.log.calls| == OptionsAt(c, c.first).maxCorrectionAttempts + 1
  {
    LimitIsPositive(c, c.first);
    var limit := OptionsAt(c, c.first).maxCorrectionAttempts;
    hide Run, AlwaysFails, OptionsAt;
    events := TriesOn(c, x, limit + 1);
    RunKeepsStatus(c, Some(x), events);
    TickAdvances(c, Some(x), events);
    events := events + [Tick];
    RunKeepsStatus(c, Some(x), events);
  }

  function Failing(env: Env): Env {
    env.(act := (n, fn, d) => ActResult.Failed,
         unmarshal := (d, bytes) => Unmarshalled(true, d),
         marshal := v => Some(""),
         upsertOk := n => true,
         queryOk := true)
  }

  /** A step registered on "go" with the default limit of 5 is called six times. */
  lemma {:induction false} SixAttempts(fn: ActivityFn, env: Env, x: Data) returns (events: seq<Event>)
    ensures var r := RegisterAll([Transition("a", "go", fn, [])]);
            var f := Run(Config(Failing(env), r.graph, r.first, ""), Some(x), events).flow;
            f.phase.Ended? && f.phase.error == Some(Exhausted) && |f.log.calls| == 6
  {
    var a := Transition("a", "go", fn, []);
    var r := RegisterAll([a]);
    RegisterSnoc([], a);
    assert [] + [a] == [a];
    assert r.first == "a" && r.graph == map["a" := a.Record()];
    var c := Config(Failing(env), r.graph, r.first, "");
    RecordIsPlain(a);
    hide Run, RegisterAll;
    events := BudgetIsSpent(c, x);
  }

  // ---------------------------------------------------------------- a status that remains

  /** "a" waits for "go" and for an approval if one is named; "b" after it fails fast. */
  function GatedThenFree(fn: ActivityFn, approval: string): Graph {
    map["a" := Info("a", "go", Some(fn), ["b"], Some(NO_OPTIONS.(approvalSignal := approval))),
        "b" := Info("b", "", Some(fn), [], None)]
  }

  /** While the call of a fail-fast second step is in flight the status is still what the first step last wrote. */
  lemma {:induction false} SecondStepKeepsStatus(c: Config, d: Option<Data>, events: seq<Event>)
    requires var f := Run(c, d, events).flow;
             && |f.log.visits| == 2 && |f.log.calls| == 2 && f.phase.InFlight? && !At(c.graph, f.phase.at).Gated()
             && At(c.graph, f.log.visits[0].at).Gated()
    ensures var f := Run(c, d, events).flow;
            f.status == if NeedsApproval(c, f.log.visits[0].at) then AWAITING_APPROVAL else EXECUTING
  {
    RunKeepsData(c, d, events);
    RunKeepsStatus(c, d, events);
    WritesFollowCalls(c, d, events);
    var f := Run(c, d, events).flow;
    hide Run, Corrections, Corrected, NeedsApproval, At;
    assert CallOk(c, f.log, 0) && VisitOk(c, f.log, 1);
    NextCallWord(c, f.log, 0);
  }

  /** The status that remains: a run in which AWAITING_APPROVAL, or EXECUTING, is the status of a fail-fast step. */
  lemma {:induction false} OldStatusRemains(fn: ActivityFn, approval: string, env: Env, x: Data)
    returns (events: seq<Event>)
    requires Lawful(env)
    ensures var c := Config(Guide(env, x, ["a", "b"]), GatedThenFree(fn, approval), "a", "");
            var f := Run(c, Some(x), events).flow;
            && f.phase.InFlight? && f.phase.at == "b" && !At(c.graph, "b").Gated()
            && f.status == if approval != "" then AWAITING_APPROVAL else EXECUTING
  {
    var xs := ["a", "b"];
    var c := Config(Guide(env, x, xs), GatedThenFree(fn, approval), "a", "");
    assert ("a", "b") in EdgesOf(c.graph);
    assert Guided(c, env, x, xs);
    assert At(c.graph, "a").Gated() && !At(c.graph, "b").Gated() && (NeedsApproval(c, "a") <==> approval != "");
    hide Run, Guided, GatedThenFree, NeedsApproval, At, Guide;
    events := EveryWalkRuns(c, env, x, xs, 2);
    events := CallNext(c, env, x, xs, events, 2);
    var f := Run(c, Some(x), events).flow;
    assert NamesOf(f.log.visits)[0] == "a";
    SecondStepKeepsStatus(c, Some(x), events);
  }
}
