/** The pipeline engine as a state machine. Its state is what Execute holds at a blocking point or at the border
    between Execute and the functions it calls; its events are arriving signals, progress, timers and cancellation. */
module Machine {
  import opened Basics
  import opened StepGraph
  import opened Signals

  type Data(==, !new)

  datatype ActResult = Done(out: Data) | Failed

  datatype Unmarshalled = Unmarshalled(ok: bool, data: Data)

  /** Everything the engine asks of the outside. `act` is told how many calls came before; `upsertOk` how many
      upserts did. A nil ExecutionData is `None`. */
  datatype Env = Env(
    act: (nat, Option<ActivityFn>, Option<Data>) -> ActResult,
    getActivity: Data -> string,
    setActivity: (Data, string) -> Data,
    unmarshal: (Data, string) -> Unmarshalled,
    marshal: JsonValue -> Option<string>,
    approves: Payload -> bool,
    upsertOk: nat -> bool,
    queryOk: bool)

  /** GetActivity returns what SetActivity stored. */
  ghost predicate Lawful(env: Env) {
    forall d, name :: env.getActivity(env.setActivity(d, name)) == name
  }

  datatype Status = PENDING | EXECUTING | AWAITING_CORRECTION | AWAITING_APPROVAL | FAILED | COMPLETED | REJECTED

  datatype Cause =
    | ActivityFailed | WaitEnded | BadPayload | BadCorrection | Exhausted | ApprovalTimeout | ApprovalEnded | Rejected

  datatype Phase =
    | AtStep(at: string, failures: nat)    // about to run the step, or to run it again after `failures` failures
    | Parked(at: string, failures: nat)    // waiting for the step's signal event
    | InFlight(at: string, failures: nat)  // the activity is running
    | Approving(at: string)                // waiting for the approval signal
    | Returned(at: string)                 // the step returned nil
    | Raised(cause: Cause)                 // the step returned an error
    | Ended(error: Option<Cause>)          // Execute returned
    | Aborted                              // Execute returned before the first step: upsert or query failed

  datatype Use = Correction | Approval

  datatype Receipt = Receipt(signal: Signal, use: Use, visit: nat)

  /** The `attempt`-th call of a visit; `paid` messages had been taken by then. */
  datatype Call = Call(visit: nat, at: string, attempt: nat, input: Option<Data>, paid: nat)

  /** A visit of a step: the data it starts from and the number of calls made before it. */
  datatype Visit = Visit(at: string, entry: Option<Data>, first: nat)

  datatype Upsert = Upsert(attr: string, status: Status, ok: bool)

  datatype Log = Log(
    writes: seq<Status>,
    upserts: seq<Upsert>,
    visits: seq<Visit>,
    calls: seq<Call>,
    taken: seq<Receipt>)

  const EMPTY_LOG := Log([], [], [], [], [])

  datatype Flow = Flow(phase: Phase, status: Status, data: Option<Data>, log: Log)

  datatype System = System(flow: Flow, arrived: seq<Signal>)

  datatype Config = Config(env: Env, graph: Graph, first: string, attr: string)

  // ---------------------------------------------------------------- logging

  function SignalsOf(receipts: seq<Receipt>): (ss: seq<Signal>)
    ensures |ss| == |receipts|
  {
    seq(|receipts|, i requires 0 <= i < |receipts| => receipts[i].signal)
  }

  function Wrote(env: Env, log: Log, status: Status, attr: string): Log {
    log.(writes := log.writes + [status],
         upserts := if attr == "" then log.upserts
                    else log.upserts + [Upsert(attr, status, env.upsertOk(|log.upserts|))])
  }

  function SetStatus(env: Env, f: Flow, status: Status, attr: string): Flow {
    f.(status := status, log := Wrote(env, f.log, status, attr))
  }

  function CurrentVisit(log: Log): nat { if |log.visits| == 0 then 0 else |log.visits| - 1 }

  function Took(log: Log, channel: string, p: Payload, use: Use): Log {
    log.(taken := log.taken + [Receipt(Signal(channel, p), use, CurrentVisit(log))])
  }

  // ---------------------------------------------------------------- data

  function Encode(env: Env, p: Payload): Option<string> {
    match p
    case RawMessage(bytes) => Some(bytes)
    case ByteSlice(bytes) => Some(bytes)
    case Value(v) => env.marshal(v)
  }

  /** The bytes a message carries: raw ones as they are, any other value marshalled. */
  predicate Says(env: Env, p: Payload, b: string) {
    match p
    case RawMessage(bytes) => b == bytes
    case ByteSlice(bytes) => b == bytes
    case Value(v) => env.marshal(v) == Some(b)
  }

  predicate Applies(bytes: string) { |bytes| > 0 && bytes != "null" }

  /** applyCorrection: nil data is an error; a failing Unmarshal may have changed the data. */
  function Correct(env: Env, d: Option<Data>, bytes: string): (bool, Option<Data>) {
    match d
    case None => (false, None)
    case Some(x) => var u := env.unmarshal(x, bytes); (u.ok, Some(u.data))
  }

  datatype Prepared = Unencodable | Inapplicable(data: Option<Data>) | Ready(data: Option<Data>)

  /** A correction message before its attempt: encoded, and applied unless it is empty or "null". */
  function Prepare(env: Env, d: Option<Data>, p: Payload): Prepared {
    match Encode(env, p)
    case None => Unencodable
    case Some(bytes) =>
      if !Applies(bytes) then Ready(d)
      else
        var (ok, x) := Correct(env, d, bytes);
        if ok then Ready(x) else Inapplicable(x)
  }

  /** The activity result overwrites the data it was called with. */
  function Absorb(d: Option<Data>, out: Data): Option<Data> { if d.None? then None else Some(out) }

  function Branch(env: Env, next: seq<string>, d: Option<Data>): Option<Data> {
    match d
    case None => None
    case Some(x) =>
      var name := env.getActivity(x);
      if name != "" && name in next then Some(env.setActivity(x, name)) else d
  }

  // ---------------------------------------------------------------- progress

  function OptionsAt(c: Config, at: string): Options { At(c.graph, at).Effective() }

  function AttrAt(c: Config, at: string): string { OptionsAt(c, at).statusSearchAttribute }

  function StartCall(f: Flow, at: string, failures: nat): Flow {
    f.(phase := InFlight(at, failures),
       log := f.log.(calls := f.log.calls
                              + [Call(CurrentVisit(f.log), at, failures + 1, f.data, |f.log.taken|)]))
  }

  function OnEntry(c: Config, f: Flow, at: string, failures: nat): Flow {
    if At(c.graph, at).Gated()
    then SetStatus(c.env, f, AWAITING_CORRECTION, AttrAt(c, at)).(phase := Parked(at, failures))
    else StartCall(f, at, failures)
  }

  function OnMessage(c: Config, f: Flow, at: string, failures: nat, p: Payload): Flow {
    var g := f.(log := Took(f.log, At(c.graph, at).signalEvent, p, Correction));
    match Prepare(c.env, f.data, p)
    case Unencodable => SetStatus(c.env, g, FAILED, AttrAt(c, at)).(phase := Raised(BadPayload))
    case Inapplicable(d) => g.(data := d, phase := Raised(BadCorrection))
    case Ready(d) => StartCall(SetStatus(c.env, g.(data := d), EXECUTING, AttrAt(c, at)), at, failures)
  }

  /** What the call in flight returns. */
  function Outcome(c: Config, f: Flow, at: string): ActResult {
    c.env.act(if |f.log.calls| == 0 then 0 else |f.log.calls| - 1, At(c.graph, at).activityFn, f.data)
  }

  predicate NeedsApproval(c: Config, at: string) { At(c.graph, at).Gated() && OptionsAt(c, at).approvalSignal != "" }

  /** The call of a step has succeeded, on data that has absorbed its result. */
  function AfterSuccess(c: Config, f: Flow, at: string): Flow {
    if NeedsApproval(c, at) then SetStatus(c.env, f, AWAITING_APPROVAL, AttrAt(c, at)).(phase := Approving(at))
    else f.(data := Branch(c.env, At(c.graph, at).nextActivities, f.data), phase := Returned(at))
  }

  /** The call of a step has failed for the (failures + 1)-th time in its visit. */
  function AfterFailure(c: Config, f: Flow, at: string, failures: nat): Flow {
    if !At(c.graph, at).Gated() then f.(phase := Raised(ActivityFailed))
    else if failures + 1 > OptionsAt(c, at).maxCorrectionAttempts
    then SetStatus(c.env, f, FAILED, AttrAt(c, at)).(phase := Raised(Exhausted))
    else f.(phase := AtStep(at, failures + 1))
  }

  function OnReply(c: Config, f: Flow, at: string, failures: nat): Flow {
    match Outcome(c, f, at)
    case Done(out) => AfterSuccess(c, f.(data := Absorb(f.data, out)), at)
    case Failed => AfterFailure(c, f, at, failures)
  }

  function OnApproval(c: Config, f: Flow, at: string, p: Payload): Flow {
    var g := f.(log := Took(f.log, OptionsAt(c, at).approvalSignal, p, Approval));
    if c.env.approves(p)
    then g.(data := Branch(c.env, At(c.graph, at).nextActivities, f.data), phase := Returned(at))
    else SetStatus(c.env, g, REJECTED, AttrAt(c, at)).(phase := Raised(Rejected))
  }

  predicate Concluded(status: Status) { status == FAILED || status == REJECTED }

  /** The loop of Execute ends without an error. */
  function Finish(c: Config, f: Flow): Flow {
    (if Concluded(f.status) then f else SetStatus(c.env, f, COMPLETED, c.attr)).(phase := Ended(None))
  }

  function Enter(c: Config, f: Flow, at: string): Flow {
    if at in c.graph
    then f.(phase := AtStep(at, 0), log := f.log.(visits := f.log.visits + [Visit(at, f.data, |f.log.calls|)]))
    else Finish(c, f)
  }

  /** The step Execute goes to next, if any. An absent and an empty next list both end the walk. */
  function NextStep(c: Config, at: string, d: Option<Data>): Option<string> {
    match d
    case None => None
    case Some(x) =>
      var name := c.env.getActivity(x);
      if name != "" && name in At(c.graph, at).nextActivities then Some(name) else None
  }

  function OnReturn(c: Config, f: Flow, at: string): Flow {
    match NextStep(c, at, f.data)
    case None => Finish(c, f)
    case Some(next) => Enter(c, f, next)
  }

  function OnError(c: Config, f: Flow, cause: Cause): Flow {
    (if Concluded(f.status) then f else SetStatus(c.env, f, FAILED, c.attr)).(phase := Ended(Some(cause)))
  }

  // ---------------------------------------------------------------- steps

  /** The channel a flow is waiting on. */
  function WaitsOn(c: Config, f: Flow): Option<string> {
    match f.phase
    case Parked(at, _) => Some(At(c.graph, at).signalEvent)
    case Approving(at) => Some(OptionsAt(c, at).approvalSignal)
    case _ => None
  }

  function NextMessage(c: Config, f: Flow, arrived: seq<Signal>): Option<Payload> {
    match WaitsOn(c, f)
    case None => None
    case Some(ch) => Head(arrived, SignalsOf(f.log.taken), ch)
  }

  predicate Over(f: Flow) { f.phase.Ended? || f.phase.Aborted? }

  /** The workflow can move without anything new from outside; an activity in flight counts as moving. */
  predicate Enabled(c: Config, f: Flow, arrived: seq<Signal>) {
    !Over(f) && (WaitsOn(c, f).Some? ==> NextMessage(c, f, arrived).Some?)
  }

  function Advance(c: Config, f: Flow, arrived: seq<Signal>): Flow {
    match f.phase
    case AtStep(at, n) => OnEntry(c, f, at, n)
    case Parked(at, n) =>
      (match NextMessage(c, f, arrived) case None => f case Some(p) => OnMessage(c, f, at, n, p))
    case InFlight(at, n) => OnReply(c, f, at, n)
    case Approving(at) =>
      (match NextMessage(c, f, arrived) case None => f case Some(p) => OnApproval(c, f, at, p))
    case Returned(at) => OnReturn(c, f, at)
    case Raised(cause) => OnError(c, f, cause)
    case Ended(_) => f
    case Aborted => f
  }

  /** A timer or a cancellation ends a wait only while its channel is empty. */
  function EndWait(c: Config, f: Flow, arrived: seq<Signal>, timer: bool): Flow {
    if NextMessage(c, f, arrived).Some? then f
    else
      match f.phase
      case Parked(at, _) =>
        if timer && OptionsAt(c, at).waitTimeout <= 0 then f
        else SetStatus(c.env, f, FAILED, AttrAt(c, at)).(phase := Raised(WaitEnded))
      case Approving(at) =>
        if !timer then f.(phase := Raised(ApprovalEnded))
        else if OptionsAt(c, at).waitTimeout <= 0 then f
        else SetStatus(c.env, f, FAILED, AttrAt(c, at)).(phase := Raised(ApprovalTimeout))
      case _ => f
  }

  function Step(c: Config, s: System, e: Event): System {
    match e
    case Arrive(signal) => s.(arrived := s.arrived + [signal])
    case Tick => s.(flow := Advance(c, s.flow, s.arrived))
    case Expire => s.(flow := EndWait(c, s.flow, s.arrived, true))
    case Interrupt => s.(flow := EndWait(c, s.flow, s.arrived, false))
  }

  /** The two ways in which Execute returns before its first step. */
  predicate CannotStart(c: Config) { (c.attr != "" && !c.env.upsertOk(0)) || !c.env.queryOk }

  /** Execute up to the head of its loop. The status left by an earlier run is overwritten. */
  function Start(c: Config, d: Option<Data>, before: Status): Flow {
    var f := SetStatus(c.env, Flow(Aborted, before, d, EMPTY_LOG), PENDING, c.attr);
    if (c.attr != "" && !c.env.upsertOk(0)) || !c.env.queryOk then f else Enter(c, f, c.first)
  }

  /** The state after a run. */
  function Run(c: Config, d: Option<Data>, events: seq<Event>): System {
    if |events| == 0 then System(Start(c, d, PENDING), [])
    else Step(c, Run(c, d, events[..|events| - 1]), events[|events| - 1])
  }

  lemma {:induction false} RunSnoc(c: Config, d: Option<Data>, events: seq<Event>, e: Event)
    ensures Run(c, d, events + [e]) == Step(c, Run(c, d, events), e)
  {
    assert (events + [e])[..|events|] == events;
  }

  lemma {:induction false} RunArrived(c: Config, d: Option<Data>, events: seq<Event>)
    ensures Run(c, d, events).arrived == Arrivals(events)
    decreases |events|
  {
    if |events| > 0 { RunArrived(c, d, events[..|events| - 1]); }
  }

  /** Before Execute begins, signals can only have been buffered. */
  lemma {:induction false} BufferedBeforeStart(c: Config, d: Option<Data>, events: seq<Event>)
    requires forall i :: 0 <= i < |events| ==> events[i].Arrive?
    ensures Run(c, d, events) == System(Start(c, d, PENDING), Arrivals(events))
    decreases |events|
  {
    hide Start;
    if |events| > 0 { BufferedBeforeStart(c, d, events[..|events| - 1]); }
  }
}
