/** The status writes of a run, how they agree with its outcome, and what a run that rests is waiting for. */
module StatusLanguage {
  import opened Basics
  import opened StepGraph
  import opened Signals
  import opened Machine

  predicate Terminal(s: Status) { s == COMPLETED || s == FAILED || s == REJECTED }

  /** The status automaton: a gated attempt is AWAITING_CORRECTION then EXECUTING, an approval wait follows a
      successful one, and nothing follows a terminal status. */
  predicate Follows(s: Status, t: Status) {
    match s
    case PENDING => t == AWAITING_CORRECTION || t == COMPLETED || t == FAILED
    case AWAITING_CORRECTION => t == EXECUTING || t == FAILED
    case EXECUTING => t == AWAITING_CORRECTION || t == AWAITING_APPROVAL || t == COMPLETED || t == FAILED
    case AWAITING_APPROVAL => t == AWAITING_CORRECTION || Terminal(t)
    case _ => false
  }

  ghost predicate InLanguage(writes: seq<Status>) {
    && |writes| > 0
    && writes[0] == PENDING
    && forall i :: 0 < i < |writes| ==> Follows(writes[i - 1], writes[i])
  }

  function Gates(g: Graph, calls: seq<Call>): (gs: seq<bool>)
    ensures |gs| == |calls|
  {
    seq(|calls|, i requires 0 <= i < |calls| => At(g, calls[i].at).Gated())
  }

  function UsesOf(taken: seq<Receipt>): (us: seq<Use>)
    ensures |us| == |taken|
  {
    seq(|taken|, i requires 0 <= i < |taken| => taken[i].use)
  }

  function GatedCalls(g: Graph, calls: seq<Call>): nat { multiset(Gates(g, calls))[true] }

  function Writes(writes: seq<Status>, s: Status): nat { multiset(writes)[s] }

  function Uses(taken: seq<Receipt>, use: Use): nat { multiset(UsesOf(taken))[use] }

  /** The last message taken was an approval that said no. */
  ghost predicate Refused(env: Env, taken: seq<Receipt>) {
    && |taken| > 0
    && taken[|taken| - 1].use == Approval
    && !env.approves(taken[|taken| - 1].signal.payload)
  }

  predicate Stopped(f: Flow, cause: Cause) {
    match f.phase
    case Raised(c) => c == cause
    case Ended(error) => error.Some? && error.value == cause
    case _ => false
  }

  /** The step that stops for this cause has written the final status itself; for the others Execute does. */
  predicate WritesFinal(cause: Cause) {
    match cause
    case WaitEnded | BadPayload | Exhausted | ApprovalTimeout | Rejected => true
    case ActivityFailed | BadCorrection | ApprovalEnded => false
  }

  predicate PhaseStatus(c: Config, f: Flow) {
    match f.phase
    case AtStep(_, _) => !Terminal(f.status) && f.status != AWAITING_CORRECTION
    case Parked(_, _) => f.status == AWAITING_CORRECTION
    case InFlight(at, _) =>
      if At(c.graph, at).Gated() then f.status == EXECUTING
      else !Terminal(f.status) && f.status != AWAITING_CORRECTION
    case Approving(_) => f.status == AWAITING_APPROVAL
    case Returned(_) => !Terminal(f.status) && f.status != AWAITING_CORRECTION
    case Raised(cause) =>
      && f.status != COMPLETED
      && (cause == Rejected <==> f.status == REJECTED)
      && (Terminal(f.status) <==> WritesFinal(cause))
    case Ended(error) =>
      && Terminal(f.status)
      && (error.None? <==> f.status == COMPLETED)
      && (error.Some? && error.value == Rejected <==> f.status == REJECTED)
    case Aborted => f.status == PENDING && |f.log.writes| == 1
  }

  /** The status is unchanged, or one more status is written and it may follow. */
  predicate WritesWell(f: Flow, f': Flow) {
    || (f'.status == f.status && f'.log.writes == f.log.writes)
    || (Follows(f.status, f'.status) && f'.log.writes == f.log.writes + [f'.status])
  }

  predicate Placed(c: Config, f: Flow) {
    PhaseStatus(c, f) && (f.phase.Parked? ==> At(c.graph, f.phase.at).Gated())
  }

  ghost predicate StatusInv(c: Config, f: Flow) {
    && InLanguage(f.log.writes)
    && f.status == f.log.writes[|f.log.writes| - 1]
    && Placed(c, f)
  }

  lemma AdvanceWrites(c: Config, f: Flow, arrived: seq<Signal>)
    requires Placed(c, f)
    ensures WritesWell(f, Advance(c, f, arrived)) && Placed(c, Advance(c, f, arrived))
  {
    hide NextMessage, Prepare, Outcome, Branch, NextStep;
  }

  lemma EndWaitWrites(c: Config, f: Flow, arrived: seq<Signal>, timer: bool)
    requires Placed(c, f)
    ensures WritesWell(f, EndWait(c, f, arrived, timer)) && Placed(c, EndWait(c, f, arrived, timer))
  {
    hide NextMessage;
  }

  lemma StepKeepsStatus(c: Config, s: System, e: Event)
    requires StatusInv(c, s.flow)
    ensures StatusInv(c, Step(c, s, e).flow)
  {
    hide Advance, EndWait, Placed;
    match e
    case Arrive(_) =>
    case Tick => AdvanceWrites(c, s.flow, s.arrived);
    case Expire => EndWaitWrites(c, s.flow, s.arrived, true);
    case Interrupt => EndWaitWrites(c, s.flow, s.arrived, false);
  }

  lemma {:induction false} RunKeepsStatus(c: Config, d: Option<Data>, events: seq<Event>)
    ensures StatusInv(c, Run(c, d, events).flow)
    decreases |events|
  {
    if |events| > 0 {
      var before := events[..|events| - 1];
      RunKeepsStatus(c, d, before);
      StepKeepsStatus(c, Run(c, d, before), events[|events| - 1]);
    }
  }

  // ---------------------------------------------------------------- the start

  /** A run is aborted if and only if its first upsert or its query registration fails. Then no step is visited, no
      activity called and no message taken; PENDING is all that is ever written, whatever happens afterwards. */
  lemma {:induction false} AbortIsExact(c: Config, d: Option<Data>, events: seq<Event>)
    ensures var f := Run(c, d, events).flow;
            && (f.phase.Aborted? <==> CannotStart(c))
            && (CannotStart(c) ==>
                  && f.status == PENDING && f.log.writes == [PENDING] && f.data == d
                  && f.log.visits == [] && f.log.calls == [] && f.log.taken == [])
    decreases |events|
  {
    if |events| > 0 {
      hide CannotStart, OnEntry, OnMessage, OnReply, OnApproval, OnReturn, OnError;
      AbortIsExact(c, d, events[..|events| - 1]);
      StepNeverAborts(c, Run(c, d, events[..|events| - 1]), events[|events| - 1]);
    }
  }

  lemma StepNeverAborts(c: Config, s: System, e: Event)
    ensures Step(c, s, e).flow.phase.Aborted? <==> s.flow.phase.Aborted?
    ensures s.flow.phase.Aborted? ==> Step(c, s, e).flow == s.flow
  {
    hide Prepare, Outcome, NextMessage, Branch, OptionsAt, AttrAt, NextStep;
  }

  // ---------------------------------------------------------------- counting messages, calls and writes

  predicate StoppedWaiting(f: Flow) {
    Stopped(f, WaitEnded) || StoppedOnPayload(f)
  }

  /** The last correction could not be encoded or could not be applied. */
  predicate StoppedOnPayload(f: Flow) { Stopped(f, BadPayload) || Stopped(f, BadCorrection) }

  ghost predicate CallCounts(c: Config, f: Flow) {
    var calls := GatedCalls(c.graph, f.log.calls);
    && Writes(f.log.writes, EXECUTING) == calls
    && Writes(f.log.writes, AWAITING_CORRECTION) == calls + (if f.phase.Parked? || StoppedWaiting(f) then 1 else 0)
    && Uses(f.log.taken, Correction) == calls + (if StoppedOnPayload(f) then 1 else 0)
  }

  ghost predicate ApprovalCounts(c: Config, f: Flow) {
    && Writes(f.log.writes, AWAITING_APPROVAL) == Uses(f.log.taken, Approval) + (if AskedInVain(f) then 1 else 0)
    && (Refused(c.env, f.log.taken) <==> Stopped(f, Rejected))
  }

  /** An approval was asked for and none has been taken. */
  predicate AskedInVain(f: Flow) { f.phase.Approving? || Stopped(f, ApprovalTimeout) || Stopped(f, ApprovalEnded) }

  ghost predicate Counts(c: Config, f: Flow) { CallCounts(c, f) && ApprovalCounts(c, f) }

  lemma WritesSnoc(ws: seq<Status>, t: Status)
    ensures forall s :: Writes(ws + [t], s) == Writes(ws, s) + if t == s then 1 else 0
  {
  }

  lemma UsesSnoc(taken: seq<Receipt>, r: Receipt)
    ensures Uses(taken + [r], Correction) == Uses(taken, Correction) + if r.use == Correction then 1 else 0
    ensures Uses(taken + [r], Approval) == Uses(taken, Approval) + if r.use == Approval then 1 else 0
  {
    assert UsesOf(taken + [r]) == UsesOf(taken) + [r.use];
  }

  lemma GatedCallsSnoc(g: Graph, calls: seq<Call>, k: Call)
    ensures GatedCalls(g, calls + [k]) == GatedCalls(g, calls) + if At(g, k.at).Gated() then 1 else 0
  {
    assert Gates(g, calls + [k]) == Gates(g, calls) + [At(g, k.at).Gated()];
  }

  lemma EntryKeepsCounts(c: Config, f: Flow)
    requires Counts(c, f) && f.phase.AtStep?
    ensures Counts(c, OnEntry(c, f, f.phase.at, f.phase.failures))
  {
    hide Writes, Uses, GatedCalls;
    var f' := OnEntry(c, f, f.phase.at, f.phase.failures);
    if f'.phase.Parked? {
      WritesSnoc(f.log.writes, AWAITING_CORRECTION);
    } else {
      GatedCallsSnoc(c.graph, f.log.calls, f'.log.calls[|f.log.calls|]);
    }
  }

  lemma MessageKeepsCounts(c: Config, f: Flow, p: Payload)
    requires Counts(c, f) && f.phase.Parked? && At(c.graph, f.phase.at).Gated()
    ensures Counts(c, OnMessage(c, f, f.phase.at, f.phase.failures, p))
  {
    hide Writes, Uses, GatedCalls;
    var f' := OnMessage(c, f, f.phase.at, f.phase.failures, p);
    UsesSnoc(f.log.taken, f'.log.taken[|f.log.taken|]);
    WritesSnoc(f.log.writes, f'.status);
    if f'.phase.InFlight? {
      GatedCallsSnoc(c.graph, f.log.calls, f'.log.calls[|f.log.calls|]);
    }
  }

  lemma ReplyKeepsCounts(c: Config, f: Flow)
    requires Counts(c, f) && f.phase.InFlight?
    ensures Counts(c, OnReply(c, f, f.phase.at, f.phase.failures))
  {
    hide Writes, Uses, GatedCalls;
    WritesSnoc(f.log.writes, OnReply(c, f, f.phase.at, f.phase.failures).status);
  }

  lemma ApprovalKeepsCounts(c: Config, f: Flow, p: Payload)
    requires Counts(c, f) && f.phase.Approving?
    ensures Counts(c, OnApproval(c, f, f.phase.at, p))
  {
    hide Writes, Uses, GatedCalls;
    var f' := OnApproval(c, f, f.phase.at, p);
    UsesSnoc(f.log.taken, f'.log.taken[|f.log.taken|]);
    WritesSnoc(f.log.writes, f'.status);
  }

  lemma ReturnKeepsCounts(c: Config, f: Flow)
    requires Counts(c, f) && f.phase.Returned?
    ensures Counts(c, OnReturn(c, f, f.phase.at))
  {
    hide Writes, Uses, GatedCalls;
    WritesSnoc(f.log.writes, OnReturn(c, f, f.phase.at).status);
  }

  lemma ErrorKeepsCounts(c: Config, f: Flow)
    requires Counts(c, f) && f.phase.Raised?
    ensures Counts(c, OnError(c, f, f.phase.cause))
  {
    hide Writes, Uses, GatedCalls;
    WritesSnoc(f.log.writes, OnError(c, f, f.phase.cause).status);
  }

  lemma EndWaitKeepsCounts(c: Config, f: Flow, arrived: seq<Signal>, timer: bool)
    requires Counts(c, f)
    ensures Counts(c, EndWait(c, f, arrived, timer))
  {
    hide Writes, Uses, GatedCalls, Refused, NextMessage, OptionsAt, At;
    WritesSnoc(f.log.writes, FAILED);
  }

  lemma StepKeepsCounts(c: Config, s: System, e: Event)
    requires Counts(c, s.flow) && Placed(c, s.flow)
    ensures Counts(c, Step(c, s, e).flow)
  {
    hide Counts, OnEntry, OnMessage, OnReply, OnApproval, OnReturn, OnError, EndWait;
    var f := s.flow;
    match e
    case Arrive(_) => 
    case Expire => EndWaitKeepsCounts(c, f, s.arrived, true);
    case Interrupt => EndWaitKeepsCounts(c, f, s.arrived, false);
    case Tick =>
      var p := NextMessage(c, f, s.arrived);
      match f.phase
      case AtStep(_, _) => EntryKeepsCounts(c, f);
      case Parked(_, _) => if p.Some? { MessageKeepsCounts(c, f, p.value); }
      case InFlight(_, _) => ReplyKeepsCounts(c, f);
      case Approving(_) => if p.Some? { ApprovalKeepsCounts(c, f, p.value); }
      case Returned(_) => ReturnKeepsCounts(c, f);
      case Raised(_) => ErrorKeepsCounts(c, f);
      case Ended(_) =>
      case Aborted =>
  }

  lemma NothingCounts(c: Config, f: Flow)
    requires f.log.calls == [] && f.log.taken == []
    requires f.log.writes == [PENDING] || f.log.writes == [PENDING, COMPLETED]
    requires f.phase.AtStep? || f.phase.Aborted? || (f.phase.Ended? && f.phase.error.None?)
    ensures Counts(c, f)
  {
  }

  lemma StartCounts(c: Config, d: Option<Data>)
    ensures Counts(c, Start(c, d, PENDING))
  {
    hide Counts;
    NothingCounts(c, Start(c, d, PENDING));
  }

  lemma {:induction false} RunKeepsCounts(c: Config, d: Option<Data>, events: seq<Event>)
    ensures Counts(c, Run(c, d, events).flow)
    decreases |events|
  {
    if |events| == 0 {
      StartCounts(c, d);
    } else {
      hide Step, Counts;
      var before := events[..|events| - 1];
      RunKeepsCounts(c, d, before);
      RunKeepsStatus(c, d, before);
      StepKeepsCounts(c, Run(c, d, before), events[|events| - 1]);
    }
  }

  // ---------------------------------------------------------------- conservation

  lemma SignalsOfSnoc(taken: seq<Receipt>, r: Receipt)
    ensures SignalsOf(taken + [r]) == SignalsOf(taken) + [r.signal]
  {
  }

  /** The message an advance takes, if any: the head of the channel the flow waits on. */
  function Takes(c: Config, f: Flow, arrived: seq<Signal>): seq<Signal> {
    if WaitsOn(c, f).Some? && NextMessage(c, f, arrived).Some?
    then [Signal(WaitsOn(c, f).value, NextMessage(c, f, arrived).value)] else []
  }

  lemma AdvanceTakes(c: Config, f: Flow, arrived: seq<Signal>)
    ensures SignalsOf(Advance(c, f, arrived).log.taken) == SignalsOf(f.log.taken) + Takes(c, f, arrived)
  {
    hide Head, Prepare, Outcome, Branch, NextStep, OptionsAt, At, SignalsOf;
    var f' := Advance(c, f, arrived);
    if Takes(c, f, arrived) != [] {
      assert f'.log.taken == f.log.taken + [f'.log.taken[|f.log.taken|]];
      SignalsOfSnoc(f.log.taken, f'.log.taken[|f.log.taken|]);
    } else {
      assert f'.log.taken == f.log.taken;
    }
  }

  lemma EndWaitTakesNothing(c: Config, f: Flow, arrived: seq<Signal>, timer: bool)
    ensures EndWait(c, f, arrived, timer).log.taken == f.log.taken
  {
  }

  lemma StepConserves(c: Config, s: System, e: Event)
    requires Conserved(s.arrived, SignalsOf(s.flow.log.taken))
    ensures Conserved(Step(c, s, e).arrived, SignalsOf(Step(c, s, e).flow.log.taken))
  {
    hide Conserved, Advance, EndWait;
    var f := s.flow;
    match e
    case Arrive(signal) => ArrivingConserves(s.arrived, SignalsOf(f.log.taken), signal);
    case Tick =>
      AdvanceTakes(c, f, s.arrived);
      if Takes(c, f, s.arrived) != [] {
        TakingHeadConserves(s.arrived, SignalsOf(f.log.taken), WaitsOn(c, f).value,
                            NextMessage(c, f, s.arrived).value);
      } else {
        assert SignalsOf(f.log.taken) + [] == SignalsOf(f.log.taken);
      }
    case Expire => EndWaitTakesNothing(c, f, s.arrived, true);
    case Interrupt => EndWaitTakesNothing(c, f, s.arrived, false);
  }

  lemma {:induction false} RunConserves(c: Config, d: Option<Data>, events: seq<Event>)
    ensures Conserved(Run(c, d, events).arrived, SignalsOf(Run(c, d, events).flow.log.taken))
    decreases |events|
  {
    if |events| > 0 {
      var before := events[..|events| - 1];
      RunConserves(c, d, before);
      StepConserves(c, Run(c, d, before), events[|events| - 1]);
    }
  }

  // ---------------------------------------------------------------- what it means for every run

  /** Exactly one terminal write, and it is the last: no earlier write is terminal, and the last one is if and only if
      the run has ended after its initialisation or its step has just written the final status itself. */
  lemma {:induction false} TerminalWriteIsLast(c: Config, d: Option<Data>, events: seq<Event>)
    ensures var f := Run(c, d, events).flow; var ws := f.log.writes;
            && InLanguage(ws)
            && (forall i :: 0 <= i < |ws| - 1 ==> !Terminal(ws[i]))
            && (Terminal(ws[|ws| - 1]) <==>
                  f.phase.Ended? || (f.phase.Raised? && WritesFinal(f.phase.cause)))
  {
    RunKeepsStatus(c, d, events);
    hide Run;
    var ws := Run(c, d, events).flow.log.writes;
    forall i | 0 <= i < |ws| - 1 ensures !Terminal(ws[i]) {
      assert Follows(ws[i], ws[i + 1]);
    }
  }

  /** Execute returns nil exactly with COMPLETED, an error exactly with FAILED or REJECTED, and REJECTED means that
      the last message taken was an approval that said no. */
  lemma {:induction false} OutcomeAgrees(c: Config, d: Option<Data>, events: seq<Event>)
    ensures var f := Run(c, d, events).flow;
            && (f.phase.Ended? ==>
                  && (f.phase.error == None <==> f.status == COMPLETED)
                  && (f.phase.error.Some? <==> f.status == FAILED || f.status == REJECTED))
            && (f.phase.Aborted? ==> f.status == PENDING)
            && (f.status == REJECTED <==> Refused(c.env, f.log.taken))
  {
    RunKeepsStatus(c, d, events);
    RunKeepsCounts(c, d, events);
  }

  /** Per channel, what was taken followed by what is still buffered is what arrived. The messages taken as
      corrections are as many as the gated calls, plus one exactly when the last payload could not be encoded or
      applied; an ended run is FAILED then. */
  lemma {:induction false} SignalsAreConserved(c: Config, d: Option<Data>, events: seq<Event>)
    ensures var s := Run(c, d, events); var f := s.flow; var log := f.log;
            && s.arrived == Arrivals(events)
            && Conserved(Arrivals(events), SignalsOf(log.taken))
            && Uses(log.taken, Correction) == GatedCalls(c.graph, log.calls) + (if StoppedOnPayload(f) then 1 else 0)
            && (StoppedOnPayload(f) && f.phase.Ended? ==> f.status == FAILED)
            && Writes(log.writes, EXECUTING) == GatedCalls(c.graph, log.calls)
            && Writes(log.writes, AWAITING_CORRECTION)
               == GatedCalls(c.graph, log.calls) + (if f.phase.Parked? || StoppedWaiting(f) then 1 else 0)
  {
    RunArrived(c, d, events);
    RunConserves(c, d, events);
    RunKeepsStatus(c, d, events);
    RunKeepsCounts(c, d, events);
  }

  /** A run at rest has ended or is waiting; the status tells which, the channel it waits on is empty, and a message
      re-enables it exactly if it arrives on that channel. */
  lemma {:induction false} RestIsExplained(c: Config, d: Option<Data>, events: seq<Event>, signal: Signal)
    requires !Enabled(c, Run(c, d, events).flow, Run(c, d, events).arrived)
    ensures var s := Run(c, d, events); var f := s.flow;
            var ch := WaitsOn(c, f);
            && (Over(f) || ch.Some?)
            && (ch.Some? ==>
                  && (f.phase.Parked? <==> f.status == AWAITING_CORRECTION)
                  && (f.phase.Approving? <==> f.status == AWAITING_APPROVAL)
                  && ch.value == (if f.status == AWAITING_CORRECTION then At(c.graph, f.phase.at).signalEvent
                                  else OptionsAt(c, f.phase.at).approvalSignal)
                  && Queued(s.arrived, SignalsOf(f.log.taken), ch.value) == []
                  && (Enabled(c, f, s.arrived + [signal]) <==> signal.channel == ch.value))
            && (f.status == AWAITING_CORRECTION ==> f.phase.Parked?)
            && (f.status == AWAITING_APPROVAL ==> f.phase.Approving?)
  {
    RunKeepsStatus(c, d, events);
    RunConserves(c, d, events);
    var s := Run(c, d, events);
    var ch := WaitsOn(c, s.flow);
    if ch.Some? {
      var taken := SignalsOf(s.flow.log.taken);
      assert On(taken, ch.value) + Queued(s.arrived, taken, ch.value) == On(s.arrived, ch.value);
      OnSnoc(s.arrived, signal, ch.value);
    }
  }

  /** With no wait timeout a timer never moves a run. */
  lemma NoTimeoutNoTimer(c: Config, s: System)
    requires Untimed(c.graph)
    ensures Step(c, s, Expire) == s
  {
  }
}
