/** The exact word of status writes: what every call, in order, contributes to it, and what the phase adds. */
module StatusWords {
  import opened Basics
  import opened StepGraph
  import opened Signals
  import opened Machine
  import opened StatusLanguage
  import opened Threading

  /** A call of a gated step was waited for and then executed, and a success that needs an approval asked for it. A
      fail-fast call writes nothing. */
  function CallWord(c: Config, log: Log, i: nat): seq<Status>
    requires i < |log.calls|
  {
    var at := log.calls[i].at;
    if !At(c.graph, at).Gated() then []
    else if NeedsApproval(c, at) && Reply(c, log, i).Done? then [AWAITING_CORRECTION, EXECUTING, AWAITING_APPROVAL]
    else [AWAITING_CORRECTION, EXECUTING]
  }

  function CallWords(c: Config, log: Log, n: nat): seq<Status>
    requires n <= |log.calls|
  {
    if n == 0 then [] else CallWords(c, log, n - 1) + CallWord(c, log, n - 1)
  }

  /** The calls that have returned. */
  function Replied(f: Flow): (n: nat)
    ensures n <= |f.log.calls|
  {
    if f.phase.InFlight? && |f.log.calls| > 0 then |f.log.calls| - 1 else |f.log.calls|
  }

  /** What a step wrote, after its last returned call, when it stopped for a cause. */
  function StopWord(cause: Cause): seq<Status> {
    match cause
    case WaitEnded | BadPayload => [AWAITING_CORRECTION, FAILED]
    case BadCorrection => [AWAITING_CORRECTION]
    case Exhausted | ApprovalTimeout => [FAILED]
    case Rejected => [REJECTED]
    case ActivityFailed | ApprovalEnded => []
  }

  /** What has been written since the last call returned. */
  function LastWord(c: Config, phase: Phase): seq<Status> {
    match phase
    case AtStep(_, _) => []
    case Parked(_, _) => [AWAITING_CORRECTION]
    case InFlight(at, _) => if At(c.graph, at).Gated() then [AWAITING_CORRECTION, EXECUTING] else []
    case Approving(_) => []
    case Returned(_) => []
    case Raised(cause) => StopWord(cause)
    case Ended(error) =>
      (match error
       case None => [COMPLETED]
       case Some(cause) => StopWord(cause) + if WritesFinal(cause) then [] else [FAILED])
    case Aborted => []
  }

  ghost predicate WordInv(c: Config, f: Flow) {
    f.log.writes == [PENDING] + CallWords(c, f.log, Replied(f)) + LastWord(c, f.phase)
  }

  lemma {:induction false} CallWordsGrow(c: Config, log: Log, log': Log, n: nat)
    requires n <= |log.calls| && log.calls <= log'.calls
    ensures CallWords(c, log', n) == CallWords(c, log, n)
    decreases n
  {
    if n > 0 { CallWordsGrow(c, log, log', n - 1); }
  }

  /** No call has returned since: the word grows by what the phase adds. */
  lemma QuietKeepsWord(c: Config, f: Flow, f': Flow, more: seq<Status>)
    requires WordInv(c, f)
    requires f.log.calls <= f'.log.calls && Replied(f') == Replied(f)
    requires f'.log.writes == f.log.writes + more
    requires LastWord(c, f'.phase) == LastWord(c, f.phase) + more
    ensures WordInv(c, f')
  {
    hide CallWords, LastWord, Replied;
    CallWordsGrow(c, f.log, f'.log, Replied(f));
  }

  lemma EntryKeepsWord(c: Config, f: Flow, f': Flow)
    requires WordInv(c, f) && f.phase.AtStep? && f' == OnEntry(c, f, f.phase.at, f.phase.failures)
    ensures WordInv(c, f')
  {
    hide WordInv, CallWords, OptionsAt, AttrAt;
    QuietKeepsWord(c, f, f', if At(c.graph, f.phase.at).Gated() then [AWAITING_CORRECTION] else []);
  }

  lemma MessageKeepsWord(c: Config, f: Flow, f': Flow, p: Payload)
    requires WordInv(c, f) && f.phase.Parked? && At(c.graph, f.phase.at).Gated()
    requires f' == OnMessage(c, f, f.phase.at, f.phase.failures, p)
    ensures WordInv(c, f')
  {
    hide WordInv, CallWords, OptionsAt, AttrAt, At, Prepare;
    QuietKeepsWord(c, f, f', match Prepare(c.env, f.data, p)
                             case Unencodable => [FAILED]
                             case Inapplicable(_) => []
                             case Ready(_) => [EXECUTING]);
  }

  lemma ApprovalKeepsWord(c: Config, f: Flow, f': Flow, p: Payload)
    requires WordInv(c, f) && f.phase.Approving? && f' == OnApproval(c, f, f.phase.at, p)
    ensures WordInv(c, f')
  {
    hide WordInv, CallWords, OptionsAt, AttrAt, At, Branch;
    QuietKeepsWord(c, f, f', if c.env.approves(p) then [] else [REJECTED]);
  }

  lemma ReturnKeepsWord(c: Config, f: Flow, f': Flow)
    requires WordInv(c, f) && f.phase.Returned? && !Terminal(f.status) && f' == OnReturn(c, f, f.phase.at)
    ensures WordInv(c, f')
  {
    hide WordInv, CallWords, NextStep;
    QuietKeepsWord(c, f, f', if f'.phase.Ended? then [COMPLETED] else []);
  }

  lemma ErrorKeepsWord(c: Config, f: Flow, f': Flow)
    requires WordInv(c, f) && f.phase.Raised? && f' == OnError(c, f, f.phase.cause)
    requires Concluded(f.status) <==> WritesFinal(f.phase.cause)
    ensures WordInv(c, f')
  {
    hide WordInv, CallWords;
    QuietKeepsWord(c, f, f', if WritesFinal(f.phase.cause) then [] else [FAILED]);
  }

  lemma EndWaitKeepsWord(c: Config, f: Flow, f': Flow, arrived: seq<Signal>, timer: bool)
    requires WordInv(c, f) && f' == EndWait(c, f, arrived, timer)
    ensures WordInv(c, f')
  {
    hide WordInv, CallWords, NextMessage, OptionsAt, AttrAt, At;
    if f'.phase.Raised? && !f.phase.Raised? {
      QuietKeepsWord(c, f, f', if f'.phase.cause == ApprovalEnded then [] else [FAILED]);
    }
  }

  /** The reply turns what the call had written so far into its whole word. */
  lemma ReplyKeepsWord(c: Config, d: Option<Data>, f: Flow, f': Flow)
    requires WordInv(c, f) && DataInv(c, d, f) && f.phase.InFlight?
    requires f' == OnReply(c, f, f.phase.at, f.phase.failures)
    ensures WordInv(c, f')
  {
    hide DataInv, CallWords, OptionsAt, AttrAt, At, Branch, Absorb, Outcome, Reply, NeedsApproval;
    CallInFlight(c, d, f);
    var n := |f.log.calls| - 1;
    ReplyCompletesWord(c, f, f', n);
  }

  lemma ReplyCompletesWord(c: Config, f: Flow, f': Flow, n: nat)
    requires f.phase.InFlight? && |f.log.calls| == n + 1 && f.log.calls[n].at == f.phase.at
    requires WordInv(c, f) && Outcome(c, f, f.phase.at) == Reply(c, f.log, n)
    requires f' == OnReply(c, f, f.phase.at, f.phase.failures)
    ensures WordInv(c, f')
  {
    hide CallWords, OptionsAt, AttrAt, At, Branch, Absorb, Outcome;
    CallWordsGrow(c, f.log, f'.log, n);
    NextCallWord(c, f'.log, n);
    assert Reply(c, f'.log, n) == Reply(c, f.log, n);
  }

  lemma NextCallWord(c: Config, log: Log, n: nat)
    requires n < |log.calls|
    ensures CallWords(c, log, n + 1) == CallWords(c, log, n) + CallWord(c, log, n)
  {
  }

  lemma StepKeepsWord(c: Config, d: Option<Data>, s: System, e: Event)
    requires WordInv(c, s.flow) && DataInv(c, d, s.flow) && Placed(c, s.flow)
    ensures WordInv(c, Step(c, s, e).flow)
  {
    hide WordInv, DataInv, OnEntry, OnMessage, OnReply, OnApproval, OnReturn, OnError, EndWait;
    var f, f' := s.flow, Step(c, s, e).flow;
    match e
    case Arrive(_) =>
    case Expire => EndWaitKeepsWord(c, f, f', s.arrived, true);
    case Interrupt => EndWaitKeepsWord(c, f, f', s.arrived, false);
    case Tick =>
      var p := NextMessage(c, f, s.arrived);
      match f.phase
      case AtStep(_, _) => EntryKeepsWord(c, f, f');
      case Parked(_, _) => if p.Some? { MessageKeepsWord(c, f, f', p.value); }
      case InFlight(_, _) => ReplyKeepsWord(c, d, f, f');
      case Approving(_) => if p.Some? { ApprovalKeepsWord(c, f, f', p.value); }
      case Returned(_) => ReturnKeepsWord(c, f, f');
      case Raised(_) => ErrorKeepsWord(c, f, f');
      case Ended(_) =>
      case Aborted =>
  }

  lemma StartKeepsWord(c: Config, d: Option<Data>)
    ensures WordInv(c, Start(c, d, PENDING))
  {
  }

  /** The status writes of a run are PENDING, then the word of every call that has returned, in the order of the calls,
      then what the phase adds: in every reachable state they are determined by the calls, their replies and where the
      run is. Calls go visit by visit, and only the last call of a visit succeeds. */
  lemma {:induction false} WritesFollowCalls(c: Config, d: Option<Data>, events: seq<Event>)
    ensures WordInv(c, Run(c, d, events).flow)
    decreases |events|
  {
    hide Step, Start, WordInv, DataInv, StatusInv;
    if |events| == 0 {
      StartKeepsWord(c, d);
    } else {
      var before := events[..|events| - 1];
      WritesFollowCalls(c, d, before);
      RunKeepsData(c, d, before);
      RunKeepsStatus(c, d, before);
      StatusIsPlaced(c, Run(c, d, before).flow);
      StepKeepsWord(c, d, Run(c, d, before), events[|events| - 1]);
    }
  }

  lemma StatusIsPlaced(c: Config, f: Flow)
    requires StatusInv(c, f)
    ensures Placed(c, f)
  {
  }

  /** Neighbouring calls are of one visit if the first failed, and of neighbouring visits if it succeeded. */
  lemma {:induction false} OnlySuccessLeavesVisit(c: Config, d: Option<Data>, events: seq<Event>, i: nat)
    requires i < |Run(c, d, events).flow.log.calls| - 1
    ensures var log := Run(c, d, events).flow.log;
            && log.calls[i + 1].visit == log.calls[i].visit + (if Reply(c, log, i).Done? then 1 else 0)
            && log.calls[i + 1].attempt == if Reply(c, log, i).Done? then 1 else log.calls[i].attempt + 1
  {
    RunKeepsData(c, d, events);
    var f := Run(c, d, events).flow;
    hide Run, PhaseOk;
    if Reply(c, f.log, i).Failed? { FailureIsFollowed(c, d, f, i); } else { SuccessIsFollowed(c, d, f, i); }
  }

  lemma SuccessIsFollowed(c: Config, d: Option<Data>, f: Flow, i: nat)
    requires DataInv(c, d, f) && i < |f.log.calls| - 1 && Reply(c, f.log, i).Done?
    ensures f.log.calls[i + 1].visit == f.log.calls[i].visit + 1
    ensures f.log.calls[i + 1].attempt == 1
  {
    hide PhaseOk;
    var k := f.log.calls[i + 1];
    assert CallOk(c, f.log, i + 1);
    assert k.visit > 0 ==> VisitOk(c, f.log, k.visit);
  }
}
