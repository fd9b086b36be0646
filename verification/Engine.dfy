/** The engine as the code writes it: an object whose methods update fields in nested loops. Every method is proved
    to take exactly the steps of the state machine. */
module Engine {
  import opened Basics
  import opened StepGraph
  import opened Registration
  import opened Signals
  import opened Channels
  import opened Machine
  import opened StatusLanguage

  /** The mutable ExecutionData a caller passes by reference; a null reference is nil. */
  class DataCell {
    var value: Data
    constructor (value: Data) ensures this.value == value { this.value := value; }
  }

  ghost function Load(cell: DataCell?): Option<Data>
    reads cell
  {
    if cell == null then None else Some(cell.value)
  }

  /** How a wait ended, if it did. */
  datatype Awaited = Got(payload: Payload) | TimedOut | Interrupted | StillWaiting

  datatype PayloadResult = Bytes(bytes: string) | WaitError(cause: Cause) | Waiting

  datatype StepResult = Ok | Error(cause: Cause) | Unfinished

  /** What Execute returned, or that the run is still going on when nothing more happens. */
  datatype Result = Nil | Err(cause: Cause) | NotStarted | Running

  /** The machine has reached `f` on the events the context has seen. */
  ghost predicate Runs(c: Config, d: Option<Data>, ctx: Context, f: Flow)
    reads ctx
  {
    ctx.Valid() && Run(c, d, ctx.events) == System(f, Arrivals(ctx.events))
  }

  function Timeout(c: Config, f: Flow): int {
    if f.phase.Parked? || f.phase.Approving? then OptionsAt(c, f.phase.at).waitTimeout else 0
  }

  /** A step of the workflow itself, between two blocking points. */
  ghost method MoveOn(ctx: Context, c: Config, d: Option<Data>, f: Flow)
    requires Runs(c, d, ctx, f)
    modifies ctx`events
    ensures Runs(c, d, ctx, Advance(c, f, Arrivals(ctx.events)))
    ensures Arrivals(ctx.events) == old(Arrivals(ctx.events))
  {
    hide Run, Advance, Arrivals, Context.Valid;
    RunSnoc(c, d, ctx.events, Tick);
    ctx.MoveOn();
  }

  /** Await and AwaitWithTimeout around ReceiveAsync: the message wins over a timer and over cancellation. */
  method AwaitSignal(ctx: Context, channel: string, timeout: int, ghost c: Config, ghost d: Option<Data>, ghost f: Flow)
    returns (r: Awaited)
    requires Runs(c, d, ctx, f) && ctx.taken == SignalsOf(f.log.taken)
    requires WaitsOn(c, f) == Some(channel) && Timeout(c, f) == timeout
    modifies ctx
    ensures |ctx.script| <= old(|ctx.script|)
    ensures r.Got? ==>
              && Runs(c, d, ctx, f)
              && NextMessage(c, f, Arrivals(ctx.events)) == Some(r.payload)
              && ctx.taken == old(ctx.taken) + [Signal(channel, r.payload)]
    ensures !r.Got? ==> ctx.taken == old(ctx.taken) && NextMessage(c, f, Arrivals(ctx.events)).None?
    ensures r.TimedOut? ==> timeout > 0 && Runs(c, d, ctx, EndWait(c, f, Arrivals(ctx.events), true))
    ensures r.Interrupted? ==> Runs(c, d, ctx, EndWait(c, f, Arrivals(ctx.events), false))
    ensures r.StillWaiting? ==> Runs(c, d, ctx, f) && ctx.script == []
  {
    hide Run, Advance, EndWait, Arrivals, Context.Valid, Head, On;
    while true
      invariant Runs(c, d, ctx, f) && ctx.taken == old(ctx.taken) && |ctx.script| <= old(|ctx.script|)
      decreases |ctx.script|
    {
      var p := ctx.ReceiveAsync(channel);
      if p.Some? { return Got(p.value); }
      if ctx.script == [] { return StillWaiting; }
      ghost var before := ctx.events;
      var e := ctx.Observe();
      RunSnoc(c, d, before, e);
      ArrivalsSnoc(before, e);
      match e {
        case Arrive(_) =>
        case Tick => NothingToTake(c, f, Arrivals(before));
        case Expire =>
          if timeout > 0 { return TimedOut; }
          NoTimer(c, f, Arrivals(before));
        case Interrupt => return Interrupted;
      }
    }
  }

  lemma NothingToTake(c: Config, f: Flow, arrived: seq<Signal>)
    requires WaitsOn(c, f).Some? && NextMessage(c, f, arrived).None?
    ensures Advance(c, f, arrived) == f
  {
  }

  lemma NoTimer(c: Config, f: Flow, arrived: seq<Signal>)
    requires Timeout(c, f) <= 0
    ensures EndWait(c, f, arrived, true) == f
  {
  }

  /** Future.Get: signals that arrive meanwhile are buffered. */
  method AwaitReply(ctx: Context, ghost c: Config, ghost d: Option<Data>, ghost f: Flow) returns (replied: bool)
    requires Runs(c, d, ctx, f) && f.phase.InFlight?
    modifies ctx
    ensures ctx.taken == old(ctx.taken)
    ensures replied ==> |ctx.script| < old(|ctx.script|) && Runs(c, d, ctx, OnReply(c, f, f.phase.at, f.phase.failures))
    ensures !replied ==> Runs(c, d, ctx, f) && ctx.script == []
  {
    hide Run, OnReply, Arrivals, Context.Valid;
    replied := false;
    while ctx.script != [] && !replied
      invariant ctx.taken == old(ctx.taken) && |ctx.script| <= old(|ctx.script|)
      invariant if replied then |ctx.script| < old(|ctx.script|)
                                && Runs(c, d, ctx, OnReply(c, f, f.phase.at, f.phase.failures))
                else Runs(c, d, ctx, f)
      decreases |ctx.script|
    {
      ghost var before := ctx.events;
      var e := ctx.Observe();
      RunSnoc(c, d, before, e);
      ArrivalsSnoc(before, e);
      replied := e.Tick?;
    }
  }

  class WorkflowExecutionData {
    const env: Env
    var status: Status
    var activity: Graph
    var firstActivity: string
    var log: Log                     // what the current run has done

    constructor (env: Env)
      ensures this.env == env && Registry(activity, firstActivity) == EMPTY
    {
      this.env, this.status, this.log := env, PENDING, EMPTY_LOG;
      this.activity, this.firstActivity := map[], "";
    }

    /** The state of the machine that the fields stand for, given where in the code the run is. */
    ghost function FlowAt(phase: Phase, cell: DataCell?): Flow
      reads this, cell
    {
      Flow(phase, status, Load(cell), log)
    }

    /** The run is the machine's run, on the steps it started with. */
    ghost predicate Tracks(c: Config, d: Option<Data>, ctx: Context, phase: Phase, cell: DataCell?)
      reads this, ctx, cell
    {
      && Runs(c, d, ctx, FlowAt(phase, cell))
      && Linked(c, ctx)
    }

    ghost predicate Linked(c: Config, ctx: Context)
      reads this, ctx
    {
      c.env == env && SameSteps(c.graph, activity) && ctx.taken == SignalsOf(log.taken)
    }

    /** Nothing more will happen: a call has not returned, or the channel the run waits on is empty. */
    ghost predicate Waits(c: Config, ctx: Context, phase: Phase, cell: DataCell?)
      reads this, ctx, cell
    {
      && ctx.script == []
      && (phase.Parked? || phase.InFlight? || phase.Approving?)
      && (phase.InFlight? || !Enabled(c, FlowAt(phase, cell), Arrivals(ctx.events)))
    }

    // -------------------------------------------------------------- registration

    method AddTransitionActivityWithOptions(name: string, signalEvent: string, activityFn: ActivityFn,
                                            nextActivities: seq<string>)
      modifies this`activity, this`firstActivity
      ensures Registry(activity, firstActivity)
              == Register(old(Registry(activity, firstActivity)),
                          Transition(name, signalEvent, activityFn, nextActivities))
      ensures name in activity
      ensures activity[name].activityName == name && activity[name].signalEvent == signalEvent
      ensures activity[name].activityFn == Some(activityFn) && activity[name].nextActivities == nextActivities
      ensures activity[name].resumable
              == if signalEvent == "" then None else Some(Options(signalEvent, "", 5, 3, "", 0))
      ensures forall k :: k in old(activity) && k != name ==> k in activity && activity[k] == old(activity[k])
      ensures forall k :: k in nextActivities ==> k in activity
    {
      if |activity| == 0 {
        firstActivity := name;
      }
      var info := Info(name, signalEvent, Some(activityFn), nextActivities, None);
      if signalEvent != "" {
        var resumable := NO_OPTIONS.(correctionSignal := signalEvent).WithDefaults();
        info := info.(resumable := Some(resumable));
      }
      assert info == Transition(name, signalEvent, activityFn, nextActivities).Record();
      activity := activity[name := info];
      ghost var g := activity;
      for i := 0 to |nextActivities|
        invariant activity == WithPlaceholders(g, nextActivities[..i])
        invariant firstActivity == if |old(activity)| == 0 then name else old(firstActivity)
      {
        assert nextActivities[..i + 1][..i] == nextActivities[..i];
        if nextActivities[i] !in activity {
          activity := activity[nextActivities[i] := PLACEHOLDER];
        }
      }
      assert nextActivities[..|nextActivities|] == nextActivities;
      PlaceholdersFillGaps(g, nextActivities);
    }

    // -------------------------------------------------------------- status

    /** The map is searched in no particular order. */
    method StatusSearchAttribute() returns (attr: string)
      ensures AttrChoice(activity, attr)
    {
      var keys := activity.Keys;
      while keys != {}
        invariant keys <= activity.Keys
        invariant forall k :: k in activity && k !in keys ==> !Names(activity[k])
        decreases keys
      {
        var k :| k in keys;
        var info := activity[k];
        if info.resumable.Some? && info.resumable.value.statusSearchAttribute != "" {
          return info.resumable.value.statusSearchAttribute;
        }
        keys := keys - {k};
      }
      return "";
    }

    method SetExecutionStatus(status: Status, attr: string) returns (ok: bool)
      modifies this`status, this`log
      ensures this.status == status && log == Wrote(env, old(log), status, attr)
      ensures log.taken == old(log.taken)
      ensures ok == (attr == "" || env.upsertOk(|old(log).upserts|))
    {
      this.status := status;
      log := log.(writes := log.writes + [status]);
      if attr == "" { return true; }
      ok := env.upsertOk(|log.upserts|);
      log := log.(upserts := log.upserts + [Upsert(attr, status, ok)]);
    }

    // -------------------------------------------------------------- activities

    /** ExecuteActivity: the call is on its way with the data as it is now. */
    method StartActivity(at: string, failures: nat, cell: DataCell?, ghost phase: Phase)
      modifies this`log
      ensures FlowAt(InFlight(at, failures), cell) == StartCall(old(FlowAt(phase, cell)), at, failures)
      ensures log.taken == old(log.taken)
    {
      log := log.(calls := log.calls + [Call(CurrentVisit(log), at, failures + 1, Loaded(cell), |log.taken|)]);
    }

    function Loaded(cell: DataCell?): (d: Option<Data>)
      reads cell
      ensures d == Load(cell)
    {
      if cell == null then None else Some(cell.value)
    }

    /** The result of the last call, written over the data when the activity succeeded. */
    method GetReply(activityFn: Option<ActivityFn>, cell: DataCell?) returns (ok: bool)
      requires |log.calls| > 0
      modifies cell
      ensures var r := env.act(|log.calls| - 1, activityFn, old(Load(cell)));
              && ok == r.Done?
              && Load(cell) == if r.Done? then Absorb(old(Load(cell)), r.out) else old(Load(cell))
    {
      var r := env.act(|log.calls| - 1, activityFn, Loaded(cell));
      if r.Done? && cell != null { cell.value := r.out; }
      ok := r.Done?;
    }

    method ApplyCorrection(cell: DataCell?, bytes: string) returns (ok: bool)
      modifies cell
      ensures (ok, Load(cell)) == Correct(env, old(Load(cell)), bytes)
    {
      if cell == null { return false; }
      var u := env.unmarshal(cell.value, bytes);
      cell.value := u.data;
      ok := u.ok;
    }

    /** applyBranch scans the next steps for the name the data holds. */
    method ApplyBranch(nextActivities: seq<string>, cell: DataCell?)
      modifies cell
      ensures Load(cell) == Branch(env, nextActivities, old(Load(cell)))
    {
      if cell == null || env.getActivity(cell.value) == "" { return; }
      for i := 0 to |nextActivities|
        invariant cell.value == old(cell.value)
        invariant env.getActivity(cell.value) !in nextActivities[..i]
      {
        if env.getActivity(cell.value) == nextActivities[i] {
          cell.value := env.setActivity(cell.value, nextActivities[i]);
          return;
        }
      }
    }

    method GetNextActivity(nextActivities: seq<string>, name: string) returns (next: Option<string>)
      ensures next == if name in nextActivities && name in activity then Some(name) else None
    {
      for i := 0 to |nextActivities|
        invariant name !in nextActivities[..i]
      {
        if nextActivities[i] == name {
          return if name in activity then Some(name) else None;
        }
      }
      next := None;
    }

    // -------------------------------------------------------------- the gated step

    /** waitForSignalPayload: a message from the step's own signal event, encoded. */
    method WaitForSignalPayload(ctx: Context, channel: string, timeout: int, cell: DataCell?,
                                ghost c: Config, ghost d: Option<Data>, ghost at: string, ghost failures: nat)
      returns (r: PayloadResult, ghost p: Option<Payload>)
      requires Tracks(c, d, ctx, Parked(at, failures), cell)
      requires channel == At(c.graph, at).signalEvent && timeout == OptionsAt(c, at).waitTimeout
      modifies ctx, this`log
      ensures |ctx.script| <= old(|ctx.script|) && Linked(c, ctx)
      ensures r.Waiting? ==> Tracks(c, d, ctx, Parked(at, failures), cell) && Waits(c, ctx, Parked(at, failures), cell)
      ensures r.WaitError? ==> r.cause == WaitEnded || r.cause == BadPayload
      ensures r.WaitError? && r.cause == BadPayload ==> p.Some? && p.value.Value? && env.marshal(p.value.value).None?
      ensures r.WaitError? ==> Runs(c, d, ctx, SetStatus(env, FlowAt(Raised(r.cause), cell), FAILED, AttrAt(c, at)))
      ensures r.Bytes? ==>
                && p.Some? && Says(env, p.value, r.bytes) && Encode(env, p.value) == Some(r.bytes)
                && log == Took(old(log), channel, p.value, Correction)
                && Runs(c, d, ctx, OnMessage(c, old(FlowAt(Parked(at, failures), cell)), at, failures, p.value))
    {
      hide Run, Head, On, Arrivals, Context.Valid, SameSteps, Concluded;
      ghost var f := FlowAt(Parked(at, failures), cell);
      p := None;
      var awaited := AwaitSignal(ctx, channel, timeout, c, d, f);
      match awaited {
        case StillWaiting => r := Waiting;
        case TimedOut => r := WaitError(WaitEnded);
        case Interrupted => r := WaitError(WaitEnded);
        case Got(payload) =>
          MoveOn(ctx, c, d, f);
          SignalsOfSnoc(log.taken, Receipt(Signal(channel, payload), Correction, CurrentVisit(log)));
          log := Took(log, channel, payload, Correction);
          p := Some(payload);
          var encoded := Encode(env, payload);
          r := if encoded.Some? then Bytes(encoded.value) else WaitError(BadPayload);
      }
    }

    method WaitForApproval(ctx: Context, opts: Options, nextActivities: seq<string>, cell: DataCell?,
                           ghost c: Config, ghost d: Option<Data>, ghost at: string)
      returns (r: StepResult)
      requires Linked(c, ctx) && opts == OptionsAt(c, at) && nextActivities == At(c.graph, at).nextActivities
      requires Runs(c, d, ctx, SetStatus(env, FlowAt(Approving(at), cell), AWAITING_APPROVAL, AttrAt(c, at)))
      modifies ctx, this`status, this`log
      ensures |ctx.script| <= old(|ctx.script|) && Linked(c, ctx)
      ensures r.Unfinished? ==> Tracks(c, d, ctx, Approving(at), cell) && Waits(c, ctx, Approving(at), cell)
      ensures r.Error? ==> Tracks(c, d, ctx, Raised(r.cause), cell)
      ensures r.Ok? ==> Runs(c, d, ctx, FlowAt(Returned(at), cell).(data := Branch(env, nextActivities, Load(cell))))
    {
      hide Run, Head, On, Arrivals, Context.Valid, SameSteps, Concluded;
      var _ := SetExecutionStatus(AWAITING_APPROVAL, opts.statusSearchAttribute);
      ghost var f := FlowAt(Approving(at), cell);
      var awaited := AwaitSignal(ctx, opts.approvalSignal, opts.waitTimeout, c, d, f);
      match awaited {
        case StillWaiting => r := Unfinished;
        case Interrupted => r := Error(ApprovalEnded);
        case TimedOut =>
          var _ := SetExecutionStatus(FAILED, opts.statusSearchAttribute);
          r := Error(ApprovalTimeout);
        case Got(payload) =>
          MoveOn(ctx, c, d, f);
          SignalsOfSnoc(log.taken, Receipt(Signal(opts.approvalSignal, payload), Approval, CurrentVisit(log)));
          log := Took(log, opts.approvalSignal, payload, Approval);
          if env.approves(payload) {
            r := Ok;
          } else {
            var _ := SetExecutionStatus(REJECTED, opts.statusSearchAttribute);
            r := Error(Rejected);
          }
      }
    }

    /** The options of a visit are written back before it starts; later visits see the same steps. */
    method SettleOptions(at: string, ghost g: Graph) returns (opts: Options)
      requires at in activity && SameSteps(g, activity) && activity[at].Gated()
      modifies this`activity
      ensures SameSteps(g, activity)
      ensures opts == At(g, at).Effective()
      ensures activity == old(activity)[at := old(activity)[at].Settled()]
    {
      var info := activity[at];
      opts := if info.resumable.Some? then info.resumable.value else NO_OPTIONS;
      if opts.correctionSignal == "" {
        opts := opts.(correctionSignal := info.signalEvent);
      }
      opts := opts.WithDefaults();
      SettledIsSettled(g[at]);
      activity := activity[at := info.(resumable := Some(opts))];
    }

    /** ExecuteActivity and Future.Get: on a reply the machine has moved on to what the caller does next. */
    method CallActivity(ctx: Context, at: string, info: Info, cell: DataCell?, failures: nat,
                        ghost c: Config, ghost d: Option<Data>)
      returns (replied: bool, ok: bool)
      requires Linked(c, ctx) && Runs(c, d, ctx, StartCall(FlowAt(InFlight(at, failures), cell), at, failures))
      requires info.activityFn == At(c.graph, at).activityFn
      modifies ctx, cell, this`log
      ensures Linked(c, ctx)
      ensures log == old(StartCall(FlowAt(InFlight(at, failures), cell), at, failures)).log
      ensures !replied ==> ctx.script == [] && Tracks(c, d, ctx, InFlight(at, failures), cell)
      ensures replied ==> |ctx.script| < old(|ctx.script|)
      ensures replied && ok ==> Runs(c, d, ctx, AfterSuccess(c, FlowAt(InFlight(at, failures), cell), at))
      ensures replied && !ok ==> Runs(c, d, ctx, AfterFailure(c, FlowAt(InFlight(at, failures), cell), at, failures))
    {
      hide Run, Arrivals, Context.Valid, SameSteps, At, Branch, CurrentVisit, Wrote, SetStatus;
      StartActivity(at, failures, cell, InFlight(at, failures));
      replied := AwaitReply(ctx, c, d, FlowAt(InFlight(at, failures), cell));
      ok := false;
      if replied { ok := GetReply(info.activityFn, cell); }
    }

    /** The body of the retry loop: park, apply the correction, run the activity. */
    method Attempt(ctx: Context, at: string, info: Info, opts: Options, cell: DataCell?, failures: nat,
                   ghost c: Config, ghost d: Option<Data>)
      returns (left: Option<StepResult>, ok: bool, ghost phase: Phase)
      requires Tracks(c, d, ctx, AtStep(at, failures), cell)
      requires opts == OptionsAt(c, at) && At(c.graph, at).Gated()
      requires info.signalEvent == At(c.graph, at).signalEvent && info.activityFn == At(c.graph, at).activityFn
      modifies ctx, cell, this`status, this`log
      ensures Linked(c, ctx)
      ensures left.Some? ==>
                && Tracks(c, d, ctx, phase, cell)
                && (left.value.Error? ==> phase == Raised(left.value.cause))
                && (left.value.Unfinished? ==> Waits(c, ctx, phase, cell) && (phase.Parked? || phase.InFlight?))
                && !left.value.Ok?
      ensures left.None? ==> |ctx.script| < old(|ctx.script|)
      ensures left.None? && ok ==> Runs(c, d, ctx, AfterSuccess(c, FlowAt(phase, cell), at))
      ensures left.None? && !ok ==> Runs(c, d, ctx, AfterFailure(c, FlowAt(phase, cell), at, failures))
    {
      hide Run, Arrivals, Context.Valid, SameSteps, At, Branch, CurrentVisit, Wrote, AfterSuccess, AfterFailure,
           Enabled;
      ok, left := false, None;
      MoveOn(ctx, c, d, FlowAt(AtStep(at, failures), cell));
      var _ := SetExecutionStatus(AWAITING_CORRECTION, opts.statusSearchAttribute);
      var waited, p := WaitForSignalPayload(ctx, info.signalEvent, opts.waitTimeout, cell, c, d, at, failures);
      if waited.Waiting? { return Some(Unfinished), false, Parked(at, failures); }
      if waited.WaitError? {
        var _ := SetExecutionStatus(FAILED, opts.statusSearchAttribute);
        return Some(Error(waited.cause)), false, Raised(waited.cause);
      }
      if |waited.bytes| > 0 && waited.bytes != "null" {
        var applied := ApplyCorrection(cell, waited.bytes);
        if !applied { return Some(Error(BadCorrection)), false, Raised(BadCorrection); }
      }
      var _ := SetExecutionStatus(EXECUTING, opts.statusSearchAttribute);
      var replied;
      replied, ok := CallActivity(ctx, at, info, cell, failures, c, d);
      phase := InFlight(at, failures);
      if !replied { left := Some(Unfinished); }
    }

    method RunResumableActivity(ctx: Context, at: string, cell: DataCell?, ghost c: Config, ghost d: Option<Data>)
      returns (r: StepResult, ghost phase: Phase)
      requires Tracks(c, d, ctx, AtStep(at, 0), cell)
      requires at in activity && activity[at].Gated()
      modifies ctx, cell, this`status, this`log, this`activity
      ensures Tracks(c, d, ctx, phase, cell)
      ensures r.Ok? ==> phase == Returned(at) && |ctx.script| < old(|ctx.script|)
      ensures r.Error? ==> phase == Raised(r.cause)
      ensures r.Unfinished? ==> Waits(c, ctx, phase, cell)
    {
      hide Run, Arrivals, Context.Valid, SameSteps, At, CurrentVisit, Wrote, AfterSuccess,
           Info.Gated, Info.Effective, Info.Settled;
      var info := activity[at];
      SameInfo(c.graph, activity, at);
      var opts := SettleOptions(at, c.graph);
      var correctionCount := 0;
      while true
        invariant Tracks(c, d, ctx, AtStep(at, correctionCount), cell)
        invariant |ctx.script| <= old(|ctx.script|)
        decreases |ctx.script|
      {
        var left, ok;
        left, ok, phase := Attempt(ctx, at, info, opts, cell, correctionCount, c, d);
        if left.Some? { r := left.value; return; }
        if ok { break; }
        correctionCount := correctionCount + 1;
        if correctionCount > opts.maxCorrectionAttempts {
          var _ := SetExecutionStatus(FAILED, opts.statusSearchAttribute);
          return Error(Exhausted), Raised(Exhausted);
        }
      }
      r, phase := ApproveAndBranch(ctx, at, info.nextActivities, opts, cell, c, d, phase);
    }

    /** After the retry loop: an optional approval, then applyBranch. */
    method ApproveAndBranch(ctx: Context, at: string, nextActivities: seq<string>, opts: Options, cell: DataCell?,
                            ghost c: Config, ghost d: Option<Data>, ghost before: Phase)
      returns (r: StepResult, ghost phase: Phase)
      requires Linked(c, ctx) && Runs(c, d, ctx, AfterSuccess(c, FlowAt(before, cell), at))
      requires opts == OptionsAt(c, at) && At(c.graph, at).Gated()
      requires nextActivities == At(c.graph, at).nextActivities
      modifies ctx, cell, this`status, this`log
      ensures Tracks(c, d, ctx, phase, cell) && |ctx.script| <= old(|ctx.script|)
      ensures r.Ok? ==> phase == Returned(at)
      ensures r.Error? ==> phase == Raised(r.cause)
      ensures r.Unfinished? ==> Waits(c, ctx, phase, cell) && phase == Approving(at)
    {
      hide Run, Arrivals, Context.Valid, SameSteps, At, Branch, CurrentVisit, Wrote;
      if opts.approvalSignal != "" {
        r := WaitForApproval(ctx, opts, nextActivities, cell, c, d, at);
        if r.Unfinished? { phase := Approving(at); return; }
        if r.Error? { phase := Raised(r.cause); return; }
      }
      ApplyBranch(nextActivities, cell);
      return Ok, Returned(at);
    }

    // -------------------------------------------------------------- the walk

    method RunActivity(ctx: Context, at: string, cell: DataCell?, ghost c: Config, ghost d: Option<Data>)
      returns (r: StepResult, ghost phase: Phase)
      requires Tracks(c, d, ctx, AtStep(at, 0), cell)
      requires at in activity
      modifies ctx, cell, this`status, this`log, this`activity
      ensures Tracks(c, d, ctx, phase, cell)
      ensures r.Ok? ==> phase == Returned(at) && |ctx.script| < old(|ctx.script|)
      ensures r.Error? ==> phase == Raised(r.cause)
      ensures r.Unfinished? ==> Waits(c, ctx, phase, cell)
    {
      var info := activity[at];
      SameInfo(c.graph, activity, at);
      if info.Gated() {
        r, phase := RunResumableActivity(ctx, at, cell, c, d);
        return;
      }
      hide Run, Arrivals, Context.Valid, SameSteps, At, CurrentVisit, Wrote, Info.Gated, Info.Effective, StartCall;
      MoveOn(ctx, c, d, FlowAt(AtStep(at, 0), cell));
      StartIgnoresPhase(FlowAt(AtStep(at, 0), cell), FlowAt(InFlight(at, 0), cell), at);
      var replied, ok := CallActivity(ctx, at, info, cell, 0, c, d);
      if !replied { return Unfinished, InFlight(at, 0); }
      if !ok { return Error(ActivityFailed), Raised(ActivityFailed); }
      ApplyBranch(info.nextActivities, cell);
      return Ok, Returned(at);
    }

    /** Execute enters a step of the graph. */
    method Enters(at: string, cell: DataCell?, ghost phase: Phase)
      modifies this`log
      ensures log.taken == old(log.taken)
      ensures FlowAt(AtStep(at, 0), cell)
              == old(FlowAt(phase, cell)).(phase := AtStep(at, 0),
                                           log := old(log).(visits := old(log).visits
                                                            + [Visit(at, Load(cell), |old(log).calls|)]))
    {
      log := log.(visits := log.visits + [Visit(at, Loaded(cell), |log.calls|)]);
    }

    /** The step returned an error: Execute writes FAILED unless the step already wrote a final status. */
    method FailRun(ctx: Context, ghost cause: Cause, attr: string, cell: DataCell?,
                   ghost c: Config, ghost d: Option<Data>)
      requires Tracks(c, d, ctx, Raised(cause), cell) && attr == c.attr
      modifies ctx`events, this`status, this`log
      ensures Tracks(c, d, ctx, Ended(Some(cause)), cell)
    {
      hide Run, Arrivals, Context.Valid, SameSteps, Wrote, Advance;
      MoveOn(ctx, c, d, FlowAt(Raised(cause), cell));
      AdvanceLeavesStep(c, FlowAt(Raised(cause), cell), Arrivals(ctx.events));
      if status != FAILED && status != REJECTED {
        var _ := SetExecutionStatus(FAILED, attr);
      }
    }

    /** The step returned nil: the next step of Execute's loop, if the data names one this step lists. */
    method Leave(ctx: Context, at: string, cell: DataCell?, ghost c: Config, ghost d: Option<Data>)
      returns (next: Option<string>)
      requires Tracks(c, d, ctx, Returned(at), cell) && at in activity
      modifies ctx`events, this`log
      ensures next.Some? ==> next.value in activity && Tracks(c, d, ctx, AtStep(next.value, 0), cell)
      ensures next.None? ==> Linked(c, ctx) && Runs(c, d, ctx, Finish(c, FlowAt(Aborted, cell)))
    {
      hide Run, Arrivals, Context.Valid, At, Wrote, Advance, Info.Settled;
      SameInfo(c.graph, activity, at);
      MoveOn(ctx, c, d, FlowAt(Returned(at), cell));
      AdvanceLeavesStep(c, FlowAt(Returned(at), cell), Arrivals(ctx.events));
      var info := activity[at];
      if |info.nextActivities| == 0 || cell == null || env.getActivity(cell.value) == "" { return None; }
      next := GetNextActivity(info.nextActivities, env.getActivity(cell.value));
      if next.Some? { Enters(next.value, cell, Returned(at)); }
    }

    /** Execute up to its loop. Only a failed upsert of PENDING or a failed query registration ends it here. */
    method Begin(attr: string, cell: DataCell?, ghost c: Config) returns (started: bool, curr: Option<string>)
      requires c.env == env && c.graph == activity && c.first == firstActivity && c.attr == attr
      modifies this`status, this`log
      ensures log.taken == []
      ensures started <==> (attr == "" || env.upsertOk(0)) && env.queryOk
      ensures !started ==> Start(c, Load(cell), PENDING) == FlowAt(Aborted, cell)
      ensures started ==> Start(c, Load(cell), PENDING)
                          == if curr.Some? then FlowAt(AtStep(curr.value, 0), cell)
                             else Finish(c, FlowAt(Aborted, cell))
      ensures curr.Some? ==> curr.value in activity
    {
      StartOverwrites(c, Load(cell), status);
      log, curr := EMPTY_LOG, None;
      var upserted := SetExecutionStatus(PENDING, attr);
      started := upserted && env.queryOk;
      if started && firstActivity in activity {
        curr := Some(firstActivity);
        Enters(firstActivity, cell, Aborted);
      }
    }

    method FinishRun(attr: string, cell: DataCell?, ghost c: Config)
      requires c.env == env && c.attr == attr
      modifies this`status, this`log
      ensures FlowAt(Ended(None), cell) == Finish(c, old(FlowAt(Aborted, cell)))
      ensures log.taken == old(log.taken)
    {
      if status != FAILED && status != REJECTED {
        var _ := SetExecutionStatus(COMPLETED, attr);
      }
    }

    /** The loop of Execute and what follows it. */
    method WalkFrom(ctx: Context, start: Option<string>, attr: string, cell: DataCell?,
                    ghost c: Config, ghost d: Option<Data>)
      returns (r: Result, ghost phase: Phase)
      requires Linked(c, ctx) && attr == c.attr
      requires start.Some? ==> start.value in activity && Tracks(c, d, ctx, AtStep(start.value, 0), cell)
      requires start.None? ==> Runs(c, d, ctx, Finish(c, FlowAt(Aborted, cell)))
      modifies ctx, cell, this`status, this`log, this`activity
      ensures Tracks(c, d, ctx, phase, cell) && r == Reported(phase)
      ensures r.Running? ==> Waits(c, ctx, phase, cell)
      ensures !r.Running? ==> phase.Ended?
    {
      hide Run, Arrivals, Context.Valid, At, Wrote, Advance, Finish, SameSteps, StatusMatches;
      var curr := start;
      while curr.Some?
        invariant Linked(c, ctx)
        invariant curr.Some? ==> curr.value in activity && Tracks(c, d, ctx, AtStep(curr.value, 0), cell)
        invariant curr.None? ==> Runs(c, d, ctx, Finish(c, FlowAt(Aborted, cell)))
        decreases |ctx.script|, curr.Some?
      {
        var at := curr.value;
        SameStepsSameKeys(c.graph, activity, at);
        var ran;
        ran, phase := RunActivity(ctx, at, cell, c, d);
        if ran.Unfinished? { return Running, phase; }
        if ran.Error? {
          FailRun(ctx, ran.cause, attr, cell, c, d);
          return Err(ran.cause), Ended(Some(ran.cause));
        }
        SameStepsSameKeys(c.graph, activity, at);
        curr := Leave(ctx, at, cell, c, d);
      }
      FinishRun(attr, cell, c);
      return Nil, Ended(None);
    }

    /** Execute: the run of the machine on whatever the context has observed, from the first step to the end of the
        walk, to an error, or to a wait that nothing ends. */
    method Execute(ctx: Context, cell: DataCell?) returns (r: Result, attr: string, ghost phase: Phase)
      requires ctx.Valid() && ctx.taken == []
      requires forall i :: 0 <= i < |ctx.events| ==> ctx.events[i].Arrive?
      modifies ctx, cell, this`status, this`log, this`activity
      ensures AttrChoice(old(activity), attr) && SameSteps(old(activity), activity)
      ensures var c := Config(env, old(activity), old(firstActivity), attr);
              Tracks(c, old(Load(cell)), ctx, phase, cell)
      ensures r == Reported(phase)
      ensures r.Running? ==> Waits(Config(env, old(activity), old(firstActivity), attr), ctx, phase, cell)
      ensures StatusMatches(r, status)
      ensures r.NotStarted? <==> (attr != "" && !env.upsertOk(0)) || !env.queryOk
      ensures r.NotStarted? ==> log.visits == [] && log.calls == [] && ctx.taken == [] && Load(cell) == old(Load(cell))
    {
      attr := StatusSearchAttribute();
      ghost var c, d := Config(env, activity, firstActivity, attr), Load(cell);
      BufferedBeforeStart(c, d, ctx.events);
      SameStepsIsReflexive(activity);
      hide Run, Arrivals, Context.Valid, AttrChoice, Finish, Start, SameSteps, StatusMatches, Reported;
      var started, curr := Begin(attr, cell, c);
      if started {
        r, phase := WalkFrom(ctx, curr, attr, cell, c, d);
      } else {
        r, phase := NotStarted, Aborted;
        ReportAborted();
      }
      StatusAgrees(c, d, ctx, FlowAt(phase, cell));
      AbortAgrees(c, d, ctx, FlowAt(phase, cell), r);
    }
  }

  lemma AbortAgrees(c: Config, d: Option<Data>, ctx: Context, f: Flow, r: Result)
    requires Runs(c, d, ctx, f) && r == Reported(f.phase)
    ensures r.NotStarted? <==> CannotStart(c)
    ensures r.NotStarted? ==> f.log.visits == [] && f.log.calls == [] && f.log.taken == [] && f.data == d
  {
    hide Run;
    AbortIsExact(c, d, ctx.events);
  }

  lemma ReportAborted()
    ensures Reported(Aborted) == NotStarted
  {
  }

  /** What Execute returns in each phase it can stop in. */
  function Reported(phase: Phase): Result {
    match phase
    case Ended(error) => (match error case None => Nil case Some(cause) => Err(cause))
    case Aborted => NotStarted
    case _ => Running
  }

  /** nil goes with COMPLETED and with nothing else, an error with FAILED or REJECTED, and an aborted start leaves
      PENDING. */
  predicate StatusMatches(r: Result, status: Status) {
    && (r.Nil? <==> status == COMPLETED)
    && (r.Err? <==> status == FAILED || status == REJECTED)
    && (r.NotStarted? ==> status == PENDING)
  }

  lemma StatusAgrees(c: Config, d: Option<Data>, ctx: Context, f: Flow)
    requires Runs(c, d, ctx, f)
    requires f.phase.Ended? || f.phase.Aborted? || f.phase.Parked? || f.phase.InFlight? || f.phase.Approving?
    ensures StatusMatches(Reported(f.phase), f.status)
  {
    hide Run;
    RunKeepsStatus(c, d, ctx.events);
  }

  /** The status left by an earlier run is overwritten. */
  lemma StartOverwrites(c: Config, d: Option<Data>, before: Status)
    ensures Start(c, d, before) == Start(c, d, PENDING)
  {
  }

  lemma AdvanceLeavesStep(c: Config, f: Flow, arrived: seq<Signal>)
    ensures f.phase.Returned? ==> Advance(c, f, arrived) == OnReturn(c, f, f.phase.at)
    ensures f.phase.Raised? ==> Advance(c, f, arrived) == OnError(c, f, f.phase.cause)
  {
  }

  lemma StartIgnoresPhase(f: Flow, f': Flow, at: string)
    requires f' == f.(phase := f'.phase)
    ensures StartCall(f, at, 0) == StartCall(f', at, 0)
  {
  }

  lemma SameStepsSameKeys(g: Graph, g': Graph, at: string)
    requires SameSteps(g, g')
    ensures at in g' <==> at in g
  {
  }

  lemma SameInfo(g: Graph, g': Graph, at: string)
    requires SameSteps(g, g') && at in g'
    ensures At(g, at).signalEvent == g'[at].signalEvent && At(g, at).Gated() == g'[at].Gated()
    ensures At(g, at).activityFn == g'[at].activityFn
    ensures At(g, at).nextActivities == g'[at].nextActivities
  {
  }
}
