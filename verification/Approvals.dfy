/** Which visit every message belongs to, and that no step needing an approval is left without one. */
module Approvals {
  import opened Basics
  import opened StepGraph
  import opened Signals
  import opened Machine
  import opened StatusLanguage
  import opened Threading

  /** The approval messages taken during one visit, oldest first. */
  function ApprovalsOf(taken: seq<Receipt>, visit: nat): seq<Payload> {
    if |taken| == 0 then []
    else
      var r := taken[|taken| - 1];
      var before := ApprovalsOf(taken[..|taken| - 1], visit);
      if r.visit == visit && r.use == Approval then before + [r.signal.payload] else before
  }

  /** A correction comes from the signal event of the step its visit is at, an approval from its approval signal. */
  ghost predicate FromItsStep(c: Config, log: Log, r: Receipt) {
    && r.visit < |log.visits|
    && var at := log.visits[r.visit].at;
    && At(c.graph, at).Gated()
    && match r.use
       case Correction => r.signal.channel == At(c.graph, at).signalEvent
       case Approval => NeedsApproval(c, at) && r.signal.channel == OptionsAt(c, at).approvalSignal
  }

  /** Exactly one approval was taken, and it said yes; or none was needed and none was taken. */
  ghost predicate Granted(c: Config, log: Log, v: nat)
    requires v < |log.visits|
  {
    var ps := ApprovalsOf(log.taken, v);
    if NeedsApproval(c, log.visits[v].at) then |ps| == 1 && c.env.approves(ps[0]) else ps == []
  }

  /** The run stopped in this visit: for a refusal if and only if an approval was taken, and it said no. */
  ghost predicate StoppedRight(c: Config, ps: seq<Payload>, cause: Cause) {
    if cause == Rejected then |ps| == 1 && !c.env.approves(ps[0]) else ps == []
  }

  ghost predicate CurrentOk(c: Config, f: Flow)
    requires |f.log.visits| > 0
  {
    var cur := CurrentVisit(f.log);
    var ps := ApprovalsOf(f.log.taken, cur);
    match f.phase
    case AtStep(_, _) => ps == []
    case Parked(at, _) => ps == [] && At(c.graph, at).Gated()
    case InFlight(_, _) => ps == []
    case Approving(at) => ps == [] && NeedsApproval(c, at)
    case Returned(_) => Granted(c, f.log, cur)
    case Raised(cause) => StoppedRight(c, ps, cause)
    case Ended(error) =>
      (match error case None => Granted(c, f.log, cur) case Some(cause) => StoppedRight(c, ps, cause))
    case Aborted => false
  }

  ghost predicate ApprovalInv(c: Config, f: Flow) {
    && WalkInv(c, f)
    && (forall r :: r in f.log.taken ==> FromItsStep(c, f.log, r))
    && (forall v :: 0 <= v < |f.log.visits| - 1 ==> Granted(c, f.log, v))
    && (|f.log.visits| > 0 ==> CurrentOk(c, f))
  }

  lemma {:induction false} ApprovalsSnoc(taken: seq<Receipt>, r: Receipt, visit: nat)
    ensures ApprovalsOf(taken + [r], visit)
            == if r.visit == visit && r.use == Approval then ApprovalsOf(taken, visit) + [r.signal.payload]
               else ApprovalsOf(taken, visit)
  {
    assert (taken + [r])[..|taken|] == taken;
  }

  lemma {:induction false} NoApprovalsYet(taken: seq<Receipt>, visit: nat)
    requires forall r :: r in taken ==> r.visit < visit
    ensures ApprovalsOf(taken, visit) == []
    decreases |taken|
  {
    if |taken| > 0 {
      assert taken[|taken| - 1] in taken;
      NoApprovalsYet(taken[..|taken| - 1], visit);
    }
  }

  /** Within a visit, a step that takes no message leaves everything said so far about messages as it was. */
  lemma QuietKeepsApprovals(c: Config, f: Flow, f': Flow)
    requires ApprovalInv(c, f) && WalkInv(c, f')
    requires f'.log.visits == f.log.visits && f'.log.taken == f.log.taken
    requires |f.log.visits| > 0 ==> CurrentOk(c, f')
    ensures ApprovalInv(c, f')
  {
    forall r | r in f'.log.taken ensures FromItsStep(c, f'.log, r) { assert FromItsStep(c, f.log, r); }
    forall v | 0 <= v < |f'.log.visits| - 1 ensures Granted(c, f'.log, v) { assert Granted(c, f.log, v); }
  }

  /** A message taken in the current visit changes nothing for the visits before it. */
  lemma TakingKeepsApprovals(c: Config, f: Flow, f': Flow, r: Receipt)
    requires ApprovalInv(c, f) && WalkInv(c, f') && |f.log.visits| > 0
    requires f'.log.visits == f.log.visits && f'.log.taken == f.log.taken + [r]
    requires r.visit == CurrentVisit(f.log) && FromItsStep(c, f.log, r)
    requires CurrentOk(c, f')
    ensures ApprovalInv(c, f')
  {
    forall q | q in f'.log.taken ensures FromItsStep(c, f'.log, q) {
      assert q in f.log.taken || q == r;
      assert FromItsStep(c, f.log, q);
    }
    forall v | 0 <= v < |f'.log.visits| - 1 ensures Granted(c, f'.log, v) {
      assert Granted(c, f.log, v);
      ApprovalsSnoc(f.log.taken, r, v);
    }
  }

  lemma MessageKeepsApprovals(c: Config, f: Flow, f': Flow, p: Payload)
    requires ApprovalInv(c, f) && WalkInv(c, f') && f.phase.Parked?
    requires f' == OnMessage(c, f, f.phase.at, f.phase.failures, p)
    ensures ApprovalInv(c, f')
  {
    hide ApprovalsOf, Granted, Prepare, OptionsAt, At;
    var r := Receipt(Signal(At(c.graph, f.phase.at).signalEvent, p), Correction, CurrentVisit(f.log));
    ApprovalsSnoc(f.log.taken, r, CurrentVisit(f.log));
    assert f'.log.taken == f.log.taken + [r];
    TakingKeepsApprovals(c, f, f', r);
  }

  lemma ApprovalKeepsApprovals(c: Config, f: Flow, f': Flow, p: Payload)
    requires ApprovalInv(c, f) && WalkInv(c, f') && f.phase.Approving?
    requires f' == OnApproval(c, f, f.phase.at, p)
    ensures ApprovalInv(c, f')
  {
    hide ApprovalsOf, Branch, OptionsAt, At;
    var r := Receipt(Signal(OptionsAt(c, f.phase.at).approvalSignal, p), Approval, CurrentVisit(f.log));
    ApprovalsSnoc(f.log.taken, r, CurrentVisit(f.log));
    assert f'.log.taken == f.log.taken + [r];
    TakingKeepsApprovals(c, f, f', r);
  }

  lemma ReplyKeepsApprovals(c: Config, f: Flow, f': Flow)
    requires ApprovalInv(c, f) && WalkInv(c, f') && f.phase.InFlight?
    requires f' == OnReply(c, f, f.phase.at, f.phase.failures)
    ensures ApprovalInv(c, f')
  {
    hide ApprovalsOf, Outcome, Branch, Absorb, OptionsAt, At;
    QuietKeepsApprovals(c, f, f');
  }

  lemma EntryKeepsApprovals(c: Config, f: Flow, f': Flow)
    requires ApprovalInv(c, f) && WalkInv(c, f') && f.phase.AtStep?
    requires f' == OnEntry(c, f, f.phase.at, f.phase.failures)
    ensures ApprovalInv(c, f')
  {
    hide ApprovalsOf, Granted, OptionsAt, At;
    QuietKeepsApprovals(c, f, f');
  }

  lemma ReturnKeepsApprovals(c: Config, f: Flow, f': Flow)
    requires ApprovalInv(c, f) && WalkInv(c, f') && f.phase.Returned?
    requires f' == OnReturn(c, f, f.phase.at)
    ensures ApprovalInv(c, f')
  {
    hide ApprovalsOf, NeedsApproval, NextStep;
    assert f'.log.taken == f.log.taken;
    if f'.phase.Ended? {
      QuietKeepsApprovals(c, f, f');
    } else {
      forall r | r in f'.log.taken ensures FromItsStep(c, f'.log, r) { assert FromItsStep(c, f.log, r); }
      forall v | 0 <= v < |f'.log.visits| - 1 ensures Granted(c, f'.log, v) { assert Granted(c, f.log, v); }
      NoApprovalsYet(f.log.taken, |f.log.visits|);
    }
  }

  lemma EndWaitKeepsApprovals(c: Config, f: Flow, f': Flow, arrived: seq<Signal>, timer: bool)
    requires ApprovalInv(c, f) && WalkInv(c, f') && f' == EndWait(c, f, arrived, timer)
    ensures ApprovalInv(c, f')
  {
    hide ApprovalsOf, Granted, NextMessage, OptionsAt, At;
    QuietKeepsApprovals(c, f, f');
  }

  lemma StepKeepsApprovals(c: Config, s: System, e: Event)
    requires ApprovalInv(c, s.flow)
    ensures ApprovalInv(c, Step(c, s, e).flow)
  {
    StepKeepsWalk(c, s, e);
    hide OnEntry, OnMessage, OnReply, OnApproval, OnReturn, EndWait, WalkInv, Granted, FromItsStep;
    var f, f' := s.flow, Step(c, s, e).flow;
    match e
    case Arrive(_) =>
    case Expire => EndWaitKeepsApprovals(c, f, f', s.arrived, true);
    case Interrupt => EndWaitKeepsApprovals(c, f, f', s.arrived, false);
    case Tick =>
      var p := NextMessage(c, f, s.arrived);
      match f.phase
      case AtStep(_, _) => EntryKeepsApprovals(c, f, f');
      case Parked(_, _) => if p.Some? { MessageKeepsApprovals(c, f, f', p.value); }
      case InFlight(_, _) => ReplyKeepsApprovals(c, f, f');
      case Approving(_) => if p.Some? { ApprovalKeepsApprovals(c, f, f', p.value); }
      case Returned(_) => ReturnKeepsApprovals(c, f, f');
      case Raised(_) => QuietKeepsApprovals(c, f, f');
      case Ended(_) =>
      case Aborted =>
  }

  lemma {:induction false} RunKeepsApprovals(c: Config, d: Option<Data>, events: seq<Event>)
    ensures ApprovalInv(c, Run(c, d, events).flow)
    decreases |events|
  {
    if |events| == 0 {
      RunKeepsWalk(c, d, events);
    } else {
      hide Step, ApprovalInv;
      var before := events[..|events| - 1];
      RunKeepsApprovals(c, d, before);
      StepKeepsApprovals(c, Run(c, d, before), events[|events| - 1]);
    }
  }

  // ---------------------------------------------------------------- what it means for every run

  /** A step that needs an approval is left only after exactly one approval was taken in that very visit and said yes;
      so is the last step of a completed run. A step that needs none takes none. */
  lemma {:induction false} ApprovalGuardsProgress(c: Config, d: Option<Data>, events: seq<Event>, v: nat)
    requires var f := Run(c, d, events).flow;
             v < |f.log.visits| - 1 || (v < |f.log.visits| && f.phase.Ended? && f.phase.error.None?)
    ensures Granted(c, Run(c, d, events).flow.log, v)
  {
    RunKeepsApprovals(c, d, events);
  }

  /** Every message the engine takes was sent to the step that was running: corrections on its signal event, never on
      its correction signal, and approvals on its approval signal. */
  lemma {:induction false} MessagesAreForTheirStep(c: Config, d: Option<Data>, events: seq<Event>, i: nat)
    requires i < |Run(c, d, events).flow.log.taken|
    ensures FromItsStep(c, Run(c, d, events).flow.log, Run(c, d, events).flow.log.taken[i])
  {
    RunKeepsApprovals(c, d, events);
    assert Run(c, d, events).flow.log.taken[i] in Run(c, d, events).flow.log.taken;
  }

  /** A refusal stops the run in the visit that asked for it; no visit takes a second approval. */
  lemma {:induction false} RefusalStopsTheRun(c: Config, d: Option<Data>, events: seq<Event>, v: nat)
    requires v < |Run(c, d, events).flow.log.visits|
    ensures var f := Run(c, d, events).flow; var ps := ApprovalsOf(f.log.taken, v);
            && |ps| <= 1
            && (|ps| == 1 && !c.env.approves(ps[0]) ==> v == |f.log.visits| - 1 && Stopped(f, Rejected))
  {
    RunKeepsApprovals(c, d, events);
    var f := Run(c, d, events).flow;
    hide Run, ApprovalsOf, WalkInv, NeedsApproval, FromItsStep;
    if v < |f.log.visits| - 1 { assert Granted(c, f.log, v); } else { assert v == CurrentVisit(f.log); }
  }
}
