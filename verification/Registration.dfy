/** What a sequence of registrations builds, and what it means for the runs that walk it. */
module Registration {
  import opened Basics
  import opened StepGraph
  import opened Signals
  import opened Machine
  import opened Threading

  datatype Transition = Transition(
    name: string, signalEvent: string, activityFn: ActivityFn, nextActivities: seq<string>)
  {
    function Record(): Info {
      Info(name, signalEvent, Some(activityFn), nextActivities,
                if signalEvent != "" then Some(NO_OPTIONS.(correctionSignal := signalEvent).WithDefaults()) else None)
    }
  }

  datatype Registry = Registry(graph: Graph, first: string)

  const EMPTY := Registry(map[], "")

  function WithPlaceholders(g: Graph, names: seq<string>): Graph {
    if |names| == 0 then g
    else
      var h := WithPlaceholders(g, names[..|names| - 1]);
      var n := names[|names| - 1];
      if n in h then h else h[n := PLACEHOLDER]
  }

  /** One registration: the step replaces what its name held, and unknown next steps get a placeholder. */
  function Register(r: Registry, s: Transition): Registry {
    Registry(WithPlaceholders(r.graph[s.name := s.Record()], s.nextActivities),
             if |r.graph| == 0 then s.name else r.first)
  }

  function RegisterAll(steps: seq<Transition>): Registry {
    if |steps| == 0 then EMPTY else Register(RegisterAll(steps[..|steps| - 1]), steps[|steps| - 1])
  }

  ghost predicate Registered(steps: seq<Transition>, name: string) { exists s :: s in steps && s.name == name }

  ghost predicate Listed(steps: seq<Transition>, name: string) { exists s :: s in steps && name in s.nextActivities }

  /** The last registration of a name. */
  function Last(steps: seq<Transition>, name: string): Option<Transition> {
    if |steps| == 0 then None
    else if steps[|steps| - 1].name == name then Some(steps[|steps| - 1])
    else Last(steps[..|steps| - 1], name)
  }

  lemma {:induction false} LastIsLast(steps: seq<Transition>, name: string)
    ensures Last(steps, name).Some? <==> Registered(steps, name)
    ensures Last(steps, name).Some? ==> Last(steps, name).value in steps && Last(steps, name).value.name == name
    decreases |steps|
  {
    if |steps| > 0 {
      var before := steps[..|steps| - 1];
      LastIsLast(before, name);
      assert steps == before + [steps[|steps| - 1]];
      if steps[|steps| - 1].name != name && Registered(steps, name) {
        var s :| s in steps && s.name == name;
        assert s in before;
      }
    }
  }

  lemma {:induction false} PlaceholdersFillGaps(g: Graph, names: seq<string>)
    ensures WithPlaceholders(g, names).Keys == g.Keys + (set n | n in names)
    ensures forall k :: k in WithPlaceholders(g, names)
                        ==> WithPlaceholders(g, names)[k] == if k in g then g[k] else PLACEHOLDER
    decreases |names|
  {
    if |names| > 0 {
      PlaceholdersFillGaps(g, names[..|names| - 1]);
      assert names == names[..|names| - 1] + [names[|names| - 1]];
    }
  }

  function Expected(steps: seq<Transition>, name: string): Info {
    match Last(steps, name)
    case Some(s) => s.Record()
    case None => PLACEHOLDER
  }

  ghost predicate DescribesAt(steps: seq<Transition>, g: Graph, k: string) {
    && (k in g <==> Registered(steps, k) || Listed(steps, k))
    && (k in g ==> g[k] == Expected(steps, k))
  }

  ghost predicate Describes(steps: seq<Transition>, r: Registry) {
    && (forall k :: DescribesAt(steps, r.graph, k))
    && (|steps| > 0 ==> r.first == steps[0].name && r.first in r.graph)
  }

  lemma OneMoreName(steps: seq<Transition>, s: Transition, k: string)
    ensures Registered(steps + [s], k) <==> Registered(steps, k) || k == s.name
    ensures Listed(steps + [s], k) <==> Listed(steps, k) || k in s.nextActivities
    ensures Expected(steps + [s], k) == if s.name == k then s.Record() else Expected(steps, k)
    ensures !Registered(steps, k) ==> Expected(steps, k) == PLACEHOLDER
  {
    var all := steps + [s];
    assert all[..|steps|] == steps;
    assert s in all;
    if Registered(steps, k) { var t :| t in steps && t.name == k; assert t in all; }
    if Listed(steps, k) { var t :| t in steps && k in t.nextActivities; assert t in all; }
    LastIsLast(steps, k);
  }

  lemma RegisterDescribesAt(steps: seq<Transition>, r: Registry, s: Transition, k: string)
    requires DescribesAt(steps, r.graph, k)
    ensures DescribesAt(steps + [s], Register(r, s).graph, k)
  {
    OneMoreName(steps, s, k);
    PlaceholdersFillGaps(r.graph[s.name := s.Record()], s.nextActivities);
    hide Registered, Listed, Expected, WithPlaceholders;
  }

  lemma RegisterDescribes(steps: seq<Transition>, r: Registry, s: Transition)
    requires Describes(steps, r)
    requires |steps| == 0 ==> r == EMPTY
    ensures Describes(steps + [s], Register(r, s))
  {
    PlaceholdersFillGaps(r.graph[s.name := s.Record()], s.nextActivities);
    hide DescribesAt, WithPlaceholders;
    forall k ensures DescribesAt(steps + [s], Register(r, s).graph, k) {
      assert DescribesAt(steps, r.graph, k);
      RegisterDescribesAt(steps, r, s, k);
    }
  }

  /** After any registrations the keys are the registered and the listed names, each value is the last registration of
      its name or a placeholder, and the first step is the first registered one. */
  lemma {:induction false} RegistrationIsDescribed(steps: seq<Transition>)
    ensures Describes(steps, RegisterAll(steps))
    decreases |steps|
  {
    if |steps| > 0 {
      hide Describes;
      var before := steps[..|steps| - 1];
      RegistrationIsDescribed(before);
      RegisterDescribes(before, RegisterAll(before), steps[|steps| - 1]);
      assert steps == before + [steps[|steps| - 1]];
    }
  }

  /** The value of a registered name, field by field, is its last registration; that of a name that was only listed
      holds nothing. */
  lemma {:induction false} RegistrationByField(steps: seq<Transition>, k: string)
    requires k in RegisterAll(steps).graph
    ensures var i := RegisterAll(steps).graph[k];
            match Last(steps, k)
            case Some(s) =>
              && s.name == k && i.activityName == k
              && i.signalEvent == s.signalEvent
              && i.activityFn == Some(s.activityFn)
              && i.nextActivities == s.nextActivities
              && i.resumable == if s.signalEvent == "" then None else Some(Options(s.signalEvent, "", 5, 3, "", 0))
            case None =>
              && Listed(steps, k)
              && i.activityName == "" && i.signalEvent == "" && i.activityFn == None && i.nextActivities == []
              && i.resumable == None
  {
    RegistrationIsDescribed(steps);
    LastIsLast(steps, k);
    hide RegisterAll, Last;
    assert DescribesAt(steps, RegisterAll(steps).graph, k);
  }

  ghost predicate DistinctNames(steps: seq<Transition>) {
    forall i, j :: 0 <= i < j < |steps| ==> steps[i].name != steps[j].name
  }

  ghost predicate SameMembers(steps: seq<Transition>, steps': seq<Transition>) {
    forall s :: s in steps <==> s in steps'
  }

  lemma SameMembersSameNames(steps: seq<Transition>, steps': seq<Transition>, name: string)
    requires SameMembers(steps, steps')
    ensures Registered(steps, name) ==> Registered(steps', name)
    ensures Listed(steps, name) ==> Listed(steps', name)
  {
  }

  lemma {:induction false} SameMembersSameLast(steps: seq<Transition>, steps': seq<Transition>, name: string)
    requires DistinctNames(steps) && SameMembers(steps, steps')
    ensures Last(steps, name) == Last(steps', name)
  {
    LastIsLast(steps, name);
    LastIsLast(steps', name);
    SameMembersSameNames(steps, steps', name);
    SameMembersSameNames(steps', steps, name);
    if Last(steps, name).Some? {
      var i :| 0 <= i < |steps| && steps[i] == Last(steps, name).value;
      var j :| 0 <= j < |steps| && steps[j] == Last(steps', name).value;
      assert i == j;
    }
  }

  /** Registering distinct names in another order, the first one kept, builds the same map. */
  lemma {:induction false} OrderDoesNotMatter(steps: seq<Transition>, steps': seq<Transition>)
    requires DistinctNames(steps) && multiset(steps) == multiset(steps')
    requires |steps| > 0 && |steps'| > 0 && steps[0] == steps'[0]
    ensures RegisterAll(steps) == RegisterAll(steps')
  {
    assert SameMembers(steps, steps') by {
      forall s ensures s in steps <==> s in steps' {
        assert s in multiset(steps) <==> s in steps;
        assert s in multiset(steps') <==> s in steps';
      }
    }
    var g, g' := RegisterAll(steps).graph, RegisterAll(steps').graph;
    assert RegisterAll(steps).first == RegisterAll(steps').first by {
      RegistrationIsDescribed(steps);
      RegistrationIsDescribed(steps');
    }
    hide RegisterAll, SameMembers, DistinctNames;
    forall k
      ensures k in g <==> k in g'
      ensures k in g ==> g[k] == g'[k]
    {
      SameAtKey(steps, steps', k);
    }
    assert g == g';
  }

  lemma {:induction false} SameAtKey(steps: seq<Transition>, steps': seq<Transition>, k: string)
    requires DistinctNames(steps) && SameMembers(steps, steps')
    ensures k in RegisterAll(steps).graph <==> k in RegisterAll(steps').graph
    ensures k in RegisterAll(steps).graph ==> RegisterAll(steps).graph[k] == RegisterAll(steps').graph[k]
  {
    SameMembersIsSymmetric(steps, steps');
    SameMembersSameNames(steps, steps', k);
    SameMembersSameNames(steps', steps, k);
    SameMembersSameLast(steps, steps', k);
    RegistrationIsDescribed(steps);
    RegistrationIsDescribed(steps');
    hide RegisterAll, Last, Registered, Listed, SameMembers, DistinctNames;
    assert DescribesAt(steps, RegisterAll(steps).graph, k) && DescribesAt(steps', RegisterAll(steps').graph, k);
    assert Expected(steps, k) == Expected(steps', k);
  }

  lemma SameMembersIsSymmetric(steps: seq<Transition>, steps': seq<Transition>)
    requires SameMembers(steps, steps')
    ensures SameMembers(steps', steps)
  {
  }

  /** A registered gated step is already settled: a visit changes nothing in the map. */
  lemma RegisteredIsSettled(s: Transition)
    requires s.Record().Gated()
    ensures s.Record().Settled() == s.Record()
  {
  }

  /** If every listed next step was registered, no run calls a step without an activity. */
  lemma {:induction false} NoPlaceholderIsReached(
    steps: seq<Transition>, c: Config, d: Option<Data>, events: seq<Event>, v: nat)
    requires forall k :: Listed(steps, k) ==> Registered(steps, k)
    requires c.graph == RegisterAll(steps).graph
    requires v < |Run(c, d, events).flow.log.visits|
    ensures At(c.graph, Run(c, d, events).flow.log.visits[v].at).activityFn.Some?
  {
    WalkFollowsData(c, d, events, v);
    RegistrationIsDescribed(steps);
    var name := Run(c, d, events).flow.log.visits[v].at;
    LastIsLast(steps, name);
    assert DescribesAt(steps, c.graph, name);
  }

  /** Steps do not run in registration order: a step that is not the first and that no step lists never runs. */
  lemma {:induction false} UnlistedStepNeverRuns(
    steps: seq<Transition>, c: Config, d: Option<Data>, events: seq<Event>, v: nat)
    requires c.graph == RegisterAll(steps).graph && c.first == RegisterAll(steps).first
    requires v < |Run(c, d, events).flow.log.visits|
    ensures var name := Run(c, d, events).flow.log.visits[v].at;
            |steps| > 0 && (name == steps[0].name || Listed(steps, name))
  {
    RegistrationIsDescribed(steps);
    WalkFollowsData(c, d, events, v);
    var vs := Run(c, d, events).flow.log.visits;
    hide Run, RegisterAll, Expected;
    assert DescribesAt(steps, c.graph, vs[v].at);
    if v > 0 {
      WalkFollowsData(c, d, events, v);
      var before := vs[v - 1].at;
      assert (before, vs[v].at) in EdgesOf(c.graph);
      assert DescribesAt(steps, c.graph, before);
      ExpectedLists(steps, before, vs[v].at);
    }
  }

  lemma ExpectedLists(steps: seq<Transition>, name: string, next: string)
    requires next in Expected(steps, name).nextActivities
    ensures Listed(steps, next)
  {
    LastIsLast(steps, name);
  }
}
