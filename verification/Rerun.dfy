/** What earlier runs on the same instance leave behind does not matter, and how the search attribute follows Status. */
module Rerun {
  import opened Basics
  import opened StepGraph
  import opened Signals
  import opened Machine
  import opened StatusLanguage
  import opened Threading

  // ---------------------------------------------------------------- re-runs

  /** The same environment and steps, up to options that an earlier run settled. */
  ghost predicate SameConfig(c: Config, c': Config) {
    c'.env == c.env && c'.first == c.first && c'.attr == c.attr && SameSteps(c.graph, c'.graph)
  }

  /** A run of Execute with these fields, whichever attribute its search of the map finds. */
  ghost predicate Possible(c: Config) { AttrChoice(c.graph, c.attr) }

  lemma SameAt(c: Config, c': Config, at: string)
    requires SameConfig(c, c')
    ensures At(c'.graph, at).signalEvent == At(c.graph, at).signalEvent
    ensures At(c'.graph, at).activityFn == At(c.graph, at).activityFn
    ensures At(c'.graph, at).nextActivities == At(c.graph, at).nextActivities
    ensures OptionsAt(c', at) == OptionsAt(c, at)
    ensures at in c'.graph <==> at in c.graph
  {
    if at in c.graph { SettledIsSettled(c.graph[at]); }
  }

  lemma SameAdvance(c: Config, c': Config, f: Flow, arrived: seq<Signal>)
    requires SameConfig(c, c')
    ensures Advance(c', f, arrived) == Advance(c, f, arrived)
  {
    hide Prepare, Took, SetStatus, Branch, OptionsAt, At;
    match f.phase
    case AtStep(at, _) => SameAt(c, c', at);
    case Parked(at, _) => SameAt(c, c', at);
    case InFlight(at, _) => SameAt(c, c', at);
    case Approving(at) => SameAt(c, c', at);
    case Returned(at) =>
      SameAt(c, c', at);
      if NextStep(c, at, f.data).Some? { SameAt(c, c', NextStep(c, at, f.data).value); }
    case Raised(_) =>
    case Ended(_) =>
    case Aborted =>
  }

  lemma SameEndWait(c: Config, c': Config, f: Flow, arrived: seq<Signal>, timer: bool)
    requires SameConfig(c, c')
    ensures EndWait(c', f, arrived, timer) == EndWait(c, f, arrived, timer)
  {
    match f.phase
    case Parked(at, _) => SameAt(c, c', at);
    case Approving(at) => SameAt(c, c', at);
    case _ =>
  }

  lemma SameStart(c: Config, c': Config, d: Option<Data>, before: Status)
    requires SameConfig(c, c')
    ensures Start(c', d, before) == Start(c, d, PENDING)
  {
    SameAt(c, c', c.first);
  }

  lemma {:induction false} SameRuns(c: Config, c': Config, d: Option<Data>, events: seq<Event>)
    requires SameConfig(c, c')
    ensures Run(c', d, events) == Run(c, d, events)
    decreases |events|
  {
    SameStart(c, c', d, PENDING);
    if |events| > 0 {
      hide Advance, EndWait, Start;
      var s := Run(c, d, events[..|events| - 1]);
      SameRuns(c, c', d, events[..|events| - 1]);
      SameAdvance(c, c', s.flow, s.arrived);
      SameEndWait(c, c', s.flow, s.arrived, true);
      SameEndWait(c, c', s.flow, s.arrived, false);
    }
  }

  /** An earlier run leaves the same steps, some of them settled, and any status. A run on such an instance, searching
      the map anew in any order, is step for step a run that a fresh instance could make; if all named attributes agree
      it is the only one. */
  lemma {:induction false} RerunIsIndependent(c: Config, c': Config, d: Option<Data>, before: Status,
                                              events: seq<Event>)
    requires Possible(c) && Possible(c')
    requires c'.env == c.env && c'.first == c.first && SameSteps(c.graph, c'.graph)
    ensures var anew := c.(attr := c'.attr);
            && Possible(anew)
            && Run(c', d, events) == Run(anew, d, events)
            && Start(c', d, before) == Start(anew, d, PENDING)
    ensures OneChoice(c.graph) ==> c'.attr == c.attr && Run(c', d, events) == Run(c, d, events)
  {
    hide Run, Start;
    var anew := c.(attr := c'.attr);
    SameStepsChooseSameAttr(c.graph, c'.graph, c'.attr);
    SameRuns(anew, c', d, events);
    SameStart(anew, c', d, before);
    if OneChoice(c.graph) { ChoiceIsOne(c.graph, c.attr, c'.attr); }
    assert c'.attr == c.attr ==> anew == c;
  }

  // ---------------------------------------------------------------- the search attribute

  /** Every upsert of a run succeeds and every status of a gated step goes to the attribute Execute uses. */
  ghost predicate Mirrors(c: Config) {
    && c.attr != ""
    && (forall k :: k in c.graph && c.graph[k].Gated() ==> AttrAt(c, k) == c.attr)
    && (forall n: nat :: c.env.upsertOk(n))
  }

  /** The upserts so far are the status writes so far, one for one. */
  ghost predicate Mirrored(c: Config, log: Log) {
    && |log.upserts| == |log.writes|
    && forall i :: 0 <= i < |log.writes| ==> log.upserts[i] == Upsert(c.attr, log.writes[i], true)
  }

  /** Nothing is written, or the new status is written and upserted to the attribute of the run. */
  predicate WritesBoth(c: Config, f: Flow, f': Flow) {
    || (f'.status == f.status && f'.log.writes == f.log.writes && f'.log.upserts == f.log.upserts)
    || (&& f'.log.writes == f.log.writes + [f'.status]
        && f'.log.upserts == f.log.upserts + [Upsert(c.attr, f'.status, true)])
  }

  lemma AttributeAt(c: Config, at: string)
    requires Mirrors(c)
    ensures At(c.graph, at).Gated() ==> AttrAt(c, at) == c.attr
  {
  }

  lemma AdvanceWritesBoth(c: Config, f: Flow, arrived: seq<Signal>)
    requires Mirrors(c)
    requires f.phase.Parked? || f.phase.Approving? ==> At(c.graph, f.phase.at).Gated()
    ensures WritesBoth(c, f, Advance(c, f, arrived))
  {
    assert forall n: nat :: c.env.upsertOk(n);
    hide Mirrors, At, OptionsAt, AttrAt, Info.Gated, NextMessage, Prepare, Outcome, Branch, Absorb, NextStep;
    match f.phase
    case AtStep(at, _) => AttributeAt(c, at);
    case Parked(at, _) => AttributeAt(c, at);
    case InFlight(at, _) => AttributeAt(c, at);
    case Approving(at) => AttributeAt(c, at);
    case Returned(at) =>
    case Raised(_) =>
    case Ended(_) =>
    case Aborted =>
  }

  lemma EndWaitWritesBoth(c: Config, f: Flow, arrived: seq<Signal>, timer: bool)
    requires Mirrors(c)
    requires f.phase.Parked? || f.phase.Approving? ==> At(c.graph, f.phase.at).Gated()
    ensures WritesBoth(c, f, EndWait(c, f, arrived, timer))
  {
  }

  lemma StepMirrors(c: Config, s: System, e: Event)
    requires Mirrors(c) && Mirrored(c, s.flow.log)
    requires s.flow.phase.Parked? || s.flow.phase.Approving? ==> At(c.graph, s.flow.phase.at).Gated()
    ensures Mirrored(c, Step(c, s, e).flow.log)
  {
    hide Advance, EndWait;
    match e
    case Arrive(_) =>
    case Tick => AdvanceWritesBoth(c, s.flow, s.arrived);
    case Expire => EndWaitWritesBoth(c, s.flow, s.arrived, true);
    case Interrupt => EndWaitWritesBoth(c, s.flow, s.arrived, false);
  }

  /** The search attribute follows Status: if every gated step names the attribute of the run and upserts succeed, the
      upserts are the status writes one for one, so the last upserted value is always Status. */
  lemma {:induction false} AttributeMirrorsStatus(c: Config, d: Option<Data>, events: seq<Event>)
    requires Mirrors(c)
    ensures var f := Run(c, d, events).flow;
            && Mirrored(c, f.log)
            && |f.log.upserts| > 0
            && f.log.upserts[|f.log.upserts| - 1] == Upsert(c.attr, f.status, true)
    decreases |events|
  {
    hide Step, Start, Mirrors, Mirrored, DataInv, StatusInv;
    if |events| == 0 {
      StartMirrors(c, d);
    } else {
      var before := events[..|events| - 1];
      AttributeMirrorsStatus(c, d, before);
      RunKeepsData(c, d, before);
      WaitersAreGated(c, d, Run(c, d, before).flow);
      StepMirrors(c, Run(c, d, before), events[|events| - 1]);
    }
    hide Run;
    RunKeepsStatus(c, d, events);
    LastIsMirrored(c, Run(c, d, events).flow);
  }

  lemma StartMirrors(c: Config, d: Option<Data>)
    requires Mirrors(c)
    ensures Mirrored(c, Start(c, d, PENDING).log)
  {
  }

  lemma WaitersAreGated(c: Config, d: Option<Data>, f: Flow)
    requires DataInv(c, d, f)
    ensures f.phase.Parked? || f.phase.Approving? ==> At(c.graph, f.phase.at).Gated()
  {
    hide CallOk, VisitOk, WalkInv;
  }

  lemma LastIsMirrored(c: Config, f: Flow)
    requires Mirrored(c, f.log) && StatusInv(c, f)
    ensures |f.log.upserts| > 0 && f.log.upserts[|f.log.upserts| - 1] == Upsert(c.attr, f.status, true)
  {
  }

  /** With one attribute named throughout, and by every gated step, the search over the unordered map can only find
      it, and what Execute finds is the attribute that follows Status. */
  lemma {:induction false} AgreedAttributeIsMirrored(c: Config, d: Option<Data>, events: seq<Event>, a: string)
    requires Possible(c) && OneAttribute(c.graph, a)
    requires forall k :: k in c.graph && c.graph[k].Gated() ==> StepGraph.Names(c.graph[k])
    requires forall n: nat :: c.env.upsertOk(n)
    ensures c.attr == a
    ensures var f := Run(c, d, events).flow;
            && Mirrored(c, f.log)
            && |f.log.upserts| > 0
            && f.log.upserts[|f.log.upserts| - 1] == Upsert(a, f.status, true)
  {
    AttrChoiceIsDetermined(c.graph, c.attr, a);
    AttributeMirrorsStatus(c, d, events);
  }
}
