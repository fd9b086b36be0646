/** What a run does to its data and its waits, said over the environment and the step records alone. */
module Effects {
  import opened Basics
  import opened StepGraph
  import opened Signals
  import opened Machine
  import opened StatusLanguage
  import opened Threading
  import opened Approvals
  import opened Completion

  // ---------------------------------------------------------------- options

  /** What a step sets is what its visits use; what it leaves unset has the documented default. */
  lemma EffectiveIsOwn(i: Info)
    ensures var e := i.Effective();
            if i.resumable.Some? then
              var o := i.resumable.value;
              && e.approvalSignal == o.approvalSignal
              && e.waitTimeout == o.waitTimeout
              && e.statusSearchAttribute == o.statusSearchAttribute
              && e.maxCorrectionAttempts == (if o.maxCorrectionAttempts > 0 then o.maxCorrectionAttempts else 5)
              && e.activityRetryAttempts == (if o.activityRetryAttempts > 0 then o.activityRetryAttempts else 3)
              && e.correctionSignal == (if o.correctionSignal != "" then o.correctionSignal
                                        else if i.signalEvent != "" then i.signalEvent else "retryWithCorrection")
            else
              && e.approvalSignal == "" && e.waitTimeout == 0 && e.statusSearchAttribute == ""
              && e.maxCorrectionAttempts == 5 && e.activityRetryAttempts == 3
              && e.correctionSignal == if i.signalEvent != "" then i.signalEvent else "retryWithCorrection"
  {
  }

  // ---------------------------------------------------------------- correction messages

  /** Bytes that are neither absent nor null have to be applied. */
  predicate Demands(b: string) { b != "" && b != "null" }

  /** What an attempt finds: the data of the visit, or of the attempt before it. */
  function Found(log: Log, i: nat): Option<Data>
    requires i < |log.calls| && log.calls[i].visit < |log.visits|
  {
    if log.calls[i].attempt > 1 && i > 0 then log.calls[i - 1].input else log.visits[log.calls[i].visit].entry
  }

  lemma PreparedBy(env: Env, d: Option<Data>, p: Payload)
    ensures Prepare(env, d, p).Unencodable? <==> p.Value? && env.marshal(p.value).None?
    ensures forall b :: Says(env, p, b) && Demands(b) ==>
              if d.None? then Prepare(env, d, p) == Inapplicable(None)
              else
                var u := env.unmarshal(d.value, b);
                Prepare(env, d, p) == if u.ok then Ready(Some(u.data)) else Inapplicable(Some(u.data))
    ensures forall b :: Says(env, p, b) && !Demands(b) ==> Prepare(env, d, p) == Ready(d)
  {
  }

  /** Each attempt of a gated visit runs on what it found with its own message applied by Unmarshal, as the bytes the
      message carries; empty and null bytes change nothing. */
  lemma {:induction false} AttemptAppliesItsMessage(c: Config, d: Option<Data>, events: seq<Event>, i: nat, b: string)
    requires i < |Run(c, d, events).flow.log.calls|
    ensures var log := Run(c, d, events).flow.log; var k := log.calls[i];
            && k.at in c.graph && k.visit < |log.visits|
            && (c.graph[k.at].signalEvent != "" ==>
                  && 0 < k.attempt <= |Corrections(log.taken, k.visit)|
                  && var p := Corrections(log.taken, k.visit)[k.attempt - 1];
                     var x := Found(log, i);
                     && (p.Value? ==> c.env.marshal(p.value).Some?)
                     && (Says(c.env, p, b) && Demands(b) ==>
                           && x.Some? && c.env.unmarshal(x.value, b).ok
                           && k.input == Some(c.env.unmarshal(x.value, b).data))
                     && (Says(c.env, p, b) && !Demands(b) ==> k.input == x))
  {
    RunKeepsData(c, d, events);
    var f := Run(c, d, events).flow;
    hide Run, PhaseOk, OptionsAt;
    assert CallOk(c, f.log, i);
    var k := f.log.calls[i];
    assert f.log.visits[k.visit].at in c.graph;
    if c.graph[k.at].signalEvent != "" {
      var ps := Corrections(f.log.taken, k.visit);
      var entry := f.log.visits[k.visit].entry;
      if k.attempt > 1 { assert CallOk(c, f.log, i - 1); }
      FoundIsFold(c, f.log, i);
      PreparedBy(c.env, Found(f.log, i), ps[k.attempt - 1]);
      assert ps[..k.attempt][..k.attempt - 1] == ps[..k.attempt - 1];
      LastIsPrepared(c.env, entry, ps[..k.attempt]);
    }
  }

  lemma FoundIsFold(c: Config, log: Log, i: nat)
    requires i < |log.calls| && CallOk(c, log, i) && At(c.graph, log.calls[i].at).Gated()
    requires log.calls[i].attempt > 1 ==> i > 0 && CallOk(c, log, i - 1)
    ensures var k := log.calls[i];
            Found(log, i)
            == Corrected(c.env, log.visits[k.visit].entry, Corrections(log.taken, k.visit)[..k.attempt - 1])
  {
    hide Corrections, Usable, OptionsAt, Reply;
    var k := log.calls[i];
    if k.attempt == 1 { assert Corrections(log.taken, k.visit)[..0] == []; }
  }

  lemma {:induction false} LastIsPrepared(env: Env, entry: Option<Data>, ps: seq<Payload>)
    requires |ps| > 0 && Usable(env, entry, ps, |ps|)
    ensures Prepare(env, Corrected(env, entry, ps[..|ps| - 1]), ps[|ps| - 1]) == Ready(Corrected(env, entry, ps))
  {
  }

  /** The message a waiting run would take, if there is one: the first on its channel that has not been taken. */
  predicate IsNext(s: System, ch: string, p: Payload) {
    var n := |On(SignalsOf(s.flow.log.taken), ch)|;
    n < |On(s.arrived, ch)| && On(s.arrived, ch)[n] == p
  }

  predicate NoneNext(s: System, ch: string) { |On(s.arrived, ch)| <= |On(SignalsOf(s.flow.log.taken), ch)| }

  /** A correction that cannot be used: a value that cannot be marshalled, or bytes to apply where there is no data or
      Unmarshal fails. */
  ghost predicate Refuses(env: Env, d: Option<Data>, p: Payload) {
    || (p.Value? && env.marshal(p.value).None?)
    || exists b :: Says(env, p, b) && Demands(b) && (d.None? || !env.unmarshal(d.value, b).ok)
  }

  lemma RefusalIsExact(env: Env, d: Option<Data>, p: Payload)
    ensures Refuses(env, d, p) <==> !Prepare(env, d, p).Ready?
  {
    PreparedBy(env, d, p);
    if !(p.Value? && env.marshal(p.value).None?) {
      var b := match p case RawMessage(x) => x case ByteSlice(x) => x case Value(v) => env.marshal(v).value;
      assert Says(env, p, b);
    }
  }

  /** A parked run takes the next message of its signal event. If the message cannot be used the run ends FAILED
      without another call, and otherwise the activity is called. */
  lemma {:induction false} UnusableMessageFails(c: Config, d: Option<Data>, events: seq<Event>, p: Payload)
    requires var s := Run(c, d, events);
             && s.flow.phase.Parked? && s.flow.phase.at in c.graph
             && IsNext(s, c.graph[s.flow.phase.at].signalEvent, p)
    ensures var f := Run(c, d, events).flow;
            var f' := Run(c, d, events + [Tick]).flow;
            var f'' := Run(c, d, events + [Tick] + [Tick]).flow;
            && |f'.log.taken| == |f.log.taken| + 1
            && f'.log.taken[|f.log.taken|].signal == Signal(c.graph[f.phase.at].signalEvent, p)
            && (if Refuses(c.env, f.data, p)
                then f''.phase.Ended? && f''.phase.error.Some? && f''.status == FAILED && f''.log.calls == f.log.calls
                else f'.phase.InFlight? && |f'.log.calls| == |f.log.calls| + 1)
  {
    hide Run, Refuses, On;
    TickAdvances(c, d, events);
    TickAdvances(c, d, events + [Tick]);
    RunKeepsStatus(c, d, events + [Tick]);
    var s := Run(c, d, events);
    RefusalIsExact(c.env, s.flow.data, p);
    TakingEndsOrCalls(c, s, p);
    ErrorEnds(c, Run(c, d, events + [Tick]).flow, Run(c, d, events + [Tick]).arrived);
  }

  lemma TakingEndsOrCalls(c: Config, s: System, p: Payload)
    requires s.flow.phase.Parked? && s.flow.phase.at in c.graph
    requires IsNext(s, c.graph[s.flow.phase.at].signalEvent, p)
    ensures var f, f' := s.flow, Advance(c, s.flow, s.arrived);
            && f'.log.taken == f.log.taken + [Receipt(Signal(c.graph[f.phase.at].signalEvent, p), Correction,
                                                      CurrentVisit(f.log))]
            && (if Prepare(c.env, f.data, p).Ready? then f'.phase.InFlight? && |f'.log.calls| == |f.log.calls| + 1
                else f'.phase.Raised? && f'.phase.cause != Rejected && f'.log.calls == f.log.calls)
  {
    hide On, Prepare, OptionsAt, AttrAt;
  }

  lemma ErrorEnds(c: Config, f: Flow, arrived: seq<Signal>)
    requires f.phase.Raised? && f.phase.cause != Rejected ==> f.status != REJECTED && f.status != COMPLETED
    ensures f.phase.Raised? && f.phase.cause != Rejected ==>
              var f' := Advance(c, f, arrived);
              && f'.phase.Ended? && f'.phase.error.Some? && f'.status == FAILED && f'.log.calls == f.log.calls
  {
  }

  // ---------------------------------------------------------------- results

  /** What the step that made the i-th call passes on. */
  predicate PassesOn(c: Config, log: Log, i: nat, out: Data, d: Option<Data>)
    requires i < |log.calls| && log.calls[i].at in c.graph
  {
    var name := c.env.getActivity(out);
    if log.calls[i].input.None? then d.None?
    else if name != "" && name in c.graph[log.calls[i].at].nextActivities then d == Some(c.env.setActivity(out, name))
    else d == Some(out)
  }

  predicate Returned(c: Config, log: Log, i: nat, out: Data)
    requires i < |log.calls| && log.calls[i].at in c.graph
  {
    c.env.act(i, c.graph[log.calls[i].at].activityFn, log.calls[i].input) == Done(out)
  }

  lemma YieldsPassesOn(c: Config, log: Log, i: nat, d: Option<Data>)
    requires i < |log.calls| && log.calls[i].at in c.graph && Yields(c, log, i, d)
    ensures var out := Reply(c, log, i).out; Returned(c, log, i, out) && PassesOn(c, log, i, out, d)
  {
  }

  /** What the activity of a step returns is what the next step starts from, with the name of that step set; a step
      without data leads nowhere. */
  lemma {:induction false} ResultsArePassedOn(c: Config, d: Option<Data>, events: seq<Event>, v: nat)
    returns (i: nat, out: Data)
    requires 0 < v < |Run(c, d, events).flow.log.visits|
    ensures var log := Run(c, d, events).flow.log;
            && i < |log.calls| && log.calls[i].visit == v - 1 && log.calls[i].at in c.graph
            && log.visits[v].first == i + 1
            && Returned(c, log, i, out) && log.calls[i].input.Some?
            && log.visits[v].entry == Some(c.env.setActivity(out, c.env.getActivity(out)))
            && c.env.getActivity(out) in c.graph[log.calls[i].at].nextActivities
  {
    RunKeepsData(c, d, events);
    var f := Run(c, d, events).flow;
    hide Run, PhaseOk, Usable, Corrected, OptionsAt;
    assert VisitOk(c, f.log, v) && Hop(c, f.log.visits[v - 1], f.log.visits[v]);
    i := f.log.visits[v].first - 1;
    assert CallOk(c, f.log, i);
    assert f.log.visits[v - 1].at in c.graph;
    out := Reply(c, f.log, i).out;
    NamedIsListed(c, f.log, i, f.log.visits[v]);
  }

  /** The name the data holds after branching was in the result already, or the step does not list it. */
  lemma NamedIsListed(c: Config, log: Log, i: nat, to: Visit)
    requires i < |log.calls| && log.calls[i].at in c.graph && Yields(c, log, i, to.entry)
    requires to.entry.Some? && to.at != "" && c.env.getActivity(to.entry.value) == to.at
    requires to.at in c.graph[log.calls[i].at].nextActivities
    ensures var out := Reply(c, log, i).out;
            && Returned(c, log, i, out) && log.calls[i].input.Some?
            && to.entry == Some(c.env.setActivity(out, c.env.getActivity(out)))
            && c.env.getActivity(out) in c.graph[log.calls[i].at].nextActivities
  {
  }

  /** The data is what the last activity returned, branched on if the run completed. */
  ghost predicate Leaves(c: Config, f: Flow, out: Data) {
    var i := |f.log.calls| - 1;
    && i >= 0 && f.log.calls[i].at in c.graph
    && Returned(c, f.log, i, out)
    && if EndedWell(f) then PassesOn(c, f.log, i, out, f.data)
       else f.data == if f.log.calls[i].input.None? then None else Some(out)
  }

  predicate StoppedAsking(f: Flow) { Stopped(f, Rejected) || Stopped(f, ApprovalTimeout) || Stopped(f, ApprovalEnded) }

  /** The data a completed run leaves is what its last activity returned, branched on if it names a listed step; where
      a result waited for an approval in vain it stays as returned. */
  lemma {:induction false} FinalResult(c: Config, d: Option<Data>, events: seq<Event>)
    requires var f := Run(c, d, events).flow; (EndedWell(f) && |f.log.visits| > 0) || StoppedAsking(f)
    ensures exists out :: Leaves(c, Run(c, d, events).flow, out)
  {
    RunKeepsData(c, d, events);
    var f := Run(c, d, events).flow;
    hide Run, Corrected, Usable, OptionsAt, VisitOk, Branch, Absorb;
    var i := |f.log.calls| - 1;
    assert i >= 0;
    assert CallOk(c, f.log, i);
    LastResultIsLeft(c, f);
  }

  lemma LastResultIsLeft(c: Config, f: Flow)
    requires |f.log.calls| > 0 && f.log.calls[|f.log.calls| - 1].at in c.graph
    requires Reply(c, f.log, |f.log.calls| - 1).Done?
    requires if EndedWell(f) then Yields(c, f.log, |f.log.calls| - 1, f.data)
             else f.data == Absorb(f.log.calls[|f.log.calls| - 1].input, Reply(c, f.log, |f.log.calls| - 1).out)
    ensures Leaves(c, f, Reply(c, f.log, |f.log.calls| - 1).out)
  {
  }

  // ---------------------------------------------------------------- how waits end

  function TimeoutOf(i: Info): int { if i.resumable.Some? then i.resumable.value.waitTimeout else 0 }

  /** A timer ends a wait if and only if the step sets a timeout and the channel is empty; a cancellation ends it if and
      only if the channel is empty. A correction wait that ends is FAILED at once. An approval wait that times out is
      FAILED; one that is cancelled writes nothing itself. */
  lemma {:induction false} WaitsEndExactly(c: Config, d: Option<Data>, events: seq<Event>, ch: string)
    requires WaitsOn(c, Run(c, d, events).flow) == Some(ch)
    ensures var s := Run(c, d, events); var f := s.flow;
            var timed, cut := Run(c, d, events + [Expire]).flow, Run(c, d, events + [Interrupt]).flow;
            && f.phase.at in c.graph
            && (timed != f <==> NoneNext(s, ch) && TimeoutOf(c.graph[f.phase.at]) > 0)
            && (cut != f <==> NoneNext(s, ch))
            && (timed != f ==> timed.status == FAILED && timed.phase.Raised?
                               && timed.phase.cause == if f.phase.Parked? then WaitEnded else ApprovalTimeout)
            && (cut != f && f.phase.Parked? ==>
                  cut.status == FAILED && cut.phase.Raised? && cut.phase.cause == WaitEnded)
            && (cut != f && f.phase.Approving? ==>
                  cut.status == f.status && cut.phase.Raised? && cut.phase.cause == ApprovalEnded)
  {
    hide Run, On;
    RunSnoc(c, d, events, Expire);
    RunSnoc(c, d, events, Interrupt);
    RunKeepsWalk(c, d, events);
    var s := Run(c, d, events);
    WalkIsInGraph(c, s.flow);
    EffectiveIsOwn(c.graph[s.flow.phase.at]);
    hide Info.Effective, AttrAt;
  }

  lemma WalkIsInGraph(c: Config, f: Flow)
    requires WalkInv(c, f) && InVisit(f)
    ensures f.phase.at in c.graph
  {
    assert f.log.visits[|f.log.visits| - 1].at in c.graph;
  }
}
