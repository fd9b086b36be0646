/** Two calls of Execute: on two instances under different schedules, and twice on one instance. */
module Clients {
  import opened Basics
  import opened StepGraph
  import opened Signals
  import opened Channels
  import opened Machine
  import opened Schedule
  import opened Rerun
  import opened Engine

  lemma {:induction false} PaddedIsCalm(g: Graph, seen: seq<Event>, events: seq<Event>)
    requires Padded(seen, events) && Calm(g, seen)
    ensures Calm(g, events)
    decreases |events|
  {
    if |events| > 0 {
      var before, last := events[..|events| - 1], events[|events| - 1];
      assert events == before + [last];
      if last == Tick && Padded(seen, before) {
        PaddedIsCalm(g, seen, before);
      } else {
        assert last in seen;
        PaddedIsCalm(g, seen[..|seen| - 1], before);
      }
    }
  }

  /** What has arrived is what the story told so far; the rest is in the script. */
  lemma ArrivedSoFar(g: Graph, ctx: Context)
    requires ctx.Valid()
    ensures Arrivals(ctx.story) == Arrivals(ctx.events) + Arrivals(ctx.script)
    ensures Calm(g, ctx.story) ==> Calm(g, ctx.events)
  {
    PaddedKeepsArrivals(ctx.seen, ctx.events);
    ArrivalsAppend(ctx.seen, ctx.script);
    if Calm(g, ctx.story) {
      forall e | e in ctx.seen ensures Quiet(g, e) { assert e in ctx.story; }
      PaddedIsCalm(g, ctx.seen, ctx.events);
    }
  }

  /** Both stories bring the same messages to every channel in the same order, and nothing that could end a wait. */
  ghost predicate SameMessages(g: Graph, story: seq<Event>, story': seq<Event>) {
    && Calm(g, story) && Calm(g, story')
    && forall ch :: On(Arrivals(story), ch) == On(Arrivals(story'), ch)
  }

  /** Where Execute stops, unless a call never returns, nothing more can happen even on all messages of the story. */
  lemma {:induction false} StopsForGood(c: Config, d: Option<Data>, ctx: Context, f: Flow)
    requires Runs(c, d, ctx, f) && Calm(c.graph, ctx.story)
    requires Over(f) || (ctx.script == [] && !Enabled(c, f, Arrivals(ctx.events)))
    ensures Run(c, d, ctx.events) == System(f, Arrivals(ctx.events))
    ensures Calm(c.graph, ctx.events)
    ensures ChannelPrefix(Arrivals(ctx.events), Arrivals(ctx.story))
    ensures !Enabled(c, f, Arrivals(ctx.story))
  {
    ArrivedSoFar(c.graph, ctx);
    hide Run, Context.Valid, On;
    forall ch ensures On(Arrivals(ctx.events), ch) <= On(Arrivals(ctx.story), ch) {
      OnAppend(Arrivals(ctx.events), Arrivals(ctx.script), ch);
    }
    if !Over(f) { assert Arrivals(ctx.events) + [] == Arrivals(ctx.events); }
  }

  lemma {:induction false} EnabledByChannel(c: Config, f: Flow, a: seq<Signal>, b: seq<Signal>)
    requires forall ch :: On(a, ch) == On(b, ch)
    ensures Enabled(c, f, a) <==> Enabled(c, f, b)
    ensures forall few :: ChannelPrefix(few, a) <==> ChannelPrefix(few, b)
  {
  }

  lemma {:induction false} SameStop(c: Config, d: Option<Data>, ctx: Context, ctx': Context, f: Flow, f': Flow)
    requires Runs(c, d, ctx, f) && Runs(c, d, ctx', f') && SameMessages(c.graph, ctx.story, ctx'.story)
    requires Over(f) || (ctx.script == [] && !Enabled(c, f, Arrivals(ctx.events)))
    requires Over(f') || (ctx'.script == [] && !Enabled(c, f', Arrivals(ctx'.events)))
    ensures f == f'
  {
    hide Run, Enabled, Calm, ChannelPrefix, On, Arrivals, Context.Valid;
    StopsForGood(c, d, ctx, f);
    StopsForGood(c, d, ctx', f');
    EnabledByChannel(c, f', Arrivals(ctx.story), Arrivals(ctx'.story));
    RestIsUnique(c, d, ctx.events, ctx'.events, Arrivals(ctx.story));
  }

  /** Nothing has been taken and, until Execute is called, signals can only have been buffered. */
  ghost predicate Before(ctx: Context)
    reads ctx
  {
    ctx.Valid() && ctx.taken == [] && forall i :: 0 <= i < |ctx.events| ==> ctx.events[i].Arrive?
  }

  /** Schedule independence of the code: two instances with the same steps, run on the same data, see the same messages
      on every channel but in different interleavings, with different delays and replies at different times. Unless a
      call never returns, they return the same, with the same status, calls, writes and data. */
  method TwoSchedules(w: WorkflowExecutionData, w': WorkflowExecutionData, ctx: Context, ctx': Context,
                      cell: DataCell?, cell': DataCell?)
    returns (r: Result, r': Result, ghost phase: Phase, ghost phase': Phase)
    requires w != w' && ctx != ctx' && (cell != null ==> cell != cell')
    requires w.env == w'.env && w.activity == w'.activity && w.firstActivity == w'.firstActivity
    requires Load(cell) == Load(cell')
    requires OneChoice(w.activity)
    requires Before(ctx) && Before(ctx')
    requires SameMessages(w.activity, ctx.story, ctx'.story)
    modifies ctx, cell, w`status, w`log, w`activity, ctx', cell', w'`status, w'`log, w'`activity
    ensures !phase.InFlight? && !phase'.InFlight? ==>
              && r == r' && phase == phase'
              && w.status == w'.status && w.log == w'.log && Load(cell) == Load(cell')
    ensures r == Reported(phase) && r' == Reported(phase')
  {
    hide Run, Enabled, AttrChoice, OneChoice, SameSteps, Context.Valid, SameMessages, StatusMatches, Reported;
    ghost var g, first, d := w.activity, w.firstActivity, Load(cell);
    var attr, attr';
    r, attr, phase := w.Execute(ctx, cell);
    ghost var c := Config(w.env, g, first, attr);
    ghost var f := w.FlowAt(phase, cell);
    assert Runs(c, d, ctx, f);
    r', attr', phase' := w'.Execute(ctx', cell');
    ChoiceIsOne(g, attr, attr');
    ghost var f' := w'.FlowAt(phase', cell');
    assert f == w.FlowAt(phase, cell) && Runs(c, d, ctx, f) && Runs(c, d, ctx', f');
    if !phase.InFlight? && !phase'.InFlight? {
      StoppedPhases(r, phase);
      StoppedPhases(r', phase');
      SameStop(c, d, ctx, ctx', f, f');
    }
  }

  lemma StoppedPhases(r: Result, phase: Phase)
    requires r == Reported(phase)
    ensures !r.Running? ==> phase.Ended? || phase.Aborted?
  {
  }

  /** Execute twice on one instance. The second call searches the map anew and finds steps that the first one settled
      and the status it left; it still is a run that a fresh instance could make on the same events. */
  method RunTwice(w: WorkflowExecutionData, ctx: Context, ctx': Context, cell: DataCell?, cell': DataCell?)
    returns (r: Result, attr: string, ghost phase: Phase)
    requires ctx != ctx' && (cell != null ==> cell != cell')
    requires Before(ctx) && Before(ctx')
    modifies ctx, cell, ctx', cell', w`status, w`log, w`activity
    ensures AttrChoice(old(w.activity), attr) && SameSteps(old(w.activity), w.activity)
    ensures var c := Config(w.env, old(w.activity), old(w.firstActivity), attr);
            Runs(c, old(Load(cell')), ctx', w.FlowAt(phase, cell'))
    ensures OneChoice(old(w.activity)) ==> forall a :: AttrChoice(old(w.activity), a) ==> a == attr
    ensures r == Reported(phase) && StatusMatches(r, w.status)
  {
    hide Run, Start, AttrChoice, OneChoice, SameSteps, Context.Valid, StatusMatches, Reported;
    ghost var g, d := w.activity, Load(cell');
    var first, firstAttr, firstPhase := w.Execute(ctx, cell);
    ghost var g', before := w.activity, w.status;
    r, attr, phase := w.Execute(ctx', cell');
    SameStepsIsTransitive(g, g', w.activity);
    ghost var c, c' := Config(w.env, g, w.firstActivity, firstAttr), Config(w.env, g', w.firstActivity, attr);
    RerunIsIndependent(c, c', d, before, ctx'.events);
    assert c.(attr := attr) == Config(w.env, g, w.firstActivity, attr);
    forall a | OneChoice(g) && AttrChoice(g, a) ensures a == attr { ChoiceIsOne(g, a, attr); }
  }
}
