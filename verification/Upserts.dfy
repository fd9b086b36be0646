/** The exact upserts of a run: which status goes to which search attribute, in which order, and with what result. */
module Upserts {
  import opened Basics
  import opened StepGraph
  import opened Signals
  import opened Machine
  import opened StatusLanguage
  import opened StatusWords
  import opened Threading
  import opened Effects

  /** A status and the attribute it is meant for, if that is not empty. */
  datatype Mark = Mark(status: Status, attr: string)

  /** The attribute a step names itself. */
  function OwnAttribute(g: Graph, at: string): string {
    if at in g && g[at].resumable.Some? then g[at].resumable.value.statusSearchAttribute else ""
  }

  lemma AttributeIsOwn(c: Config, at: string)
    ensures AttrAt(c, at) == OwnAttribute(c.graph, at)
  {
    EffectiveIsOwn(At(c.graph, at));
    hide Info.Effective;
  }

  function For(word: seq<Status>, attr: string): (marks: seq<Mark>)
    ensures |marks| == |word|
  {
    seq(|word|, i requires 0 <= i < |word| => Mark(word[i], attr))
  }

  /** Each call of a gated step writes to the attribute of that step. */
  function CallMarks(c: Config, log: Log, n: nat): seq<Mark>
    requires n <= |log.calls|
  {
    if n == 0 then []
    else
      CallMarks(c, log, n - 1)
      + For(CallWord(c, log, n - 1), OwnAttribute(c.graph, log.calls[n - 1].at))
  }

  function CurrentAttribute(c: Config, log: Log): string {
    if |log.visits| == 0 then "" else OwnAttribute(c.graph, log.visits[CurrentVisit(log)].at)
  }

  /** What a step writes goes to its own attribute; what Execute writes at the end, to the attribute it found. */
  function LastMarks(c: Config, f: Flow): seq<Mark> {
    var own := CurrentAttribute(c, f.log);
    match f.phase
    case Ended(error) =>
      (match error
       case None => [Mark(COMPLETED, c.attr)]
       case Some(cause) => For(StopWord(cause), own) + if WritesFinal(cause) then [] else [Mark(FAILED, c.attr)])
    case phase => For(LastWord(c, phase), own)
  }

  function Marks(c: Config, f: Flow): seq<Mark> {
    [Mark(PENDING, c.attr)] + CallMarks(c, f.log, Replied(f)) + LastMarks(c, f)
  }

  function Upserted(env: Env, marks: seq<Mark>): seq<Upsert> {
    if |marks| == 0 then []
    else
      var before, m := Upserted(env, marks[..|marks| - 1]), marks[|marks| - 1];
      if m.attr == "" then before else before + [Upsert(m.attr, m.status, env.upsertOk(|before|))]
  }

  ghost predicate UpsertInv(c: Config, f: Flow) { f.log.upserts == Upserted(c.env, Marks(c, f)) }

  lemma {:induction false} UpsertedSnoc(env: Env, marks: seq<Mark>, m: Mark)
    ensures var before := Upserted(env, marks);
            Upserted(env, marks + [m])
            == if m.attr == "" then before else before + [Upsert(m.attr, m.status, env.upsertOk(|before|))]
  {
    assert (marks + [m])[..|marks|] == marks;
  }

  lemma {:induction false} CallMarksGrow(c: Config, log: Log, log': Log, n: nat)
    requires n <= |log.calls| && log.calls <= log'.calls
    ensures CallMarks(c, log', n) == CallMarks(c, log, n)
    decreases n
  {
    if n > 0 { CallMarksGrow(c, log, log', n - 1); }
  }

  /** At most one mark is added, and upserted as it is written. */
  predicate Adds(env: Env, log: Log, log': Log, more: seq<Mark>) {
    || (more == [] && log'.upserts == log.upserts)
    || (|more| == 1 && log'.upserts == Wrote(env, log, more[0].status, more[0].attr).upserts)
  }

  lemma AddingKeepsUpserts(c: Config, f: Flow, f': Flow, more: seq<Mark>)
    requires UpsertInv(c, f) && Marks(c, f') == Marks(c, f) + more && Adds(c.env, f.log, f'.log, more)
    ensures UpsertInv(c, f')
  {
    hide Marks, Upserted;
    if more == [] {
      assert Marks(c, f) + [] == Marks(c, f);
    } else {
      UpsertedSnoc(c.env, Marks(c, f), more[0]);
      assert more == [more[0]];
    }
  }

  /** No call has returned since. */
  lemma QuietKeepsUpserts(c: Config, f: Flow, f': Flow, more: seq<Mark>)
    requires UpsertInv(c, f) && Adds(c.env, f.log, f'.log, more)
    requires f.log.calls <= f'.log.calls && Replied(f') == Replied(f)
    requires LastMarks(c, f') == LastMarks(c, f) + more
    ensures UpsertInv(c, f')
  {
    hide UpsertInv, CallMarks, LastMarks, Replied, Adds;
    CallMarksGrow(c, f.log, f'.log, Replied(f));
    AddingKeepsUpserts(c, f, f', more);
  }

  lemma EntryKeepsUpserts(c: Config, f: Flow, f': Flow)
    requires UpsertInv(c, f) && f.phase.AtStep? && f' == OnEntry(c, f, f.phase.at, f.phase.failures)
    requires CurrentAttribute(c, f.log) == AttrAt(c, f.phase.at)
    ensures UpsertInv(c, f')
  {
    hide UpsertInv, OwnAttribute, OptionsAt, AttrAt;
    var more := if At(c.graph, f.phase.at).Gated() then [Mark(AWAITING_CORRECTION, AttrAt(c, f.phase.at))] else [];
    assert LastMarks(c, f) == [];
    QuietKeepsUpserts(c, f, f', more);
  }

  lemma MessageKeepsUpserts(c: Config, f: Flow, f': Flow, p: Payload)
    requires UpsertInv(c, f) && f.phase.Parked? && At(c.graph, f.phase.at).Gated()
    requires f' == OnMessage(c, f, f.phase.at, f.phase.failures, p)
    requires CurrentAttribute(c, f.log) == AttrAt(c, f.phase.at)
    ensures UpsertInv(c, f')
  {
    hide UpsertInv, OwnAttribute, OptionsAt, AttrAt, At, Prepare;
    var attr := AttrAt(c, f.phase.at);
    QuietKeepsUpserts(c, f, f', match Prepare(c.env, f.data, p)
                                case Unencodable => [Mark(FAILED, attr)]
                                case Inapplicable(_) => []
                                case Ready(_) => [Mark(EXECUTING, attr)]);
  }

  lemma ApprovalKeepsUpserts(c: Config, f: Flow, f': Flow, p: Payload)
    requires UpsertInv(c, f) && f.phase.Approving? && f' == OnApproval(c, f, f.phase.at, p)
    requires CurrentAttribute(c, f.log) == AttrAt(c, f.phase.at)
    ensures UpsertInv(c, f')
  {
    hide UpsertInv, OwnAttribute, OptionsAt, AttrAt, At, Branch;
    QuietKeepsUpserts(c, f, f', if c.env.approves(p) then [] else [Mark(REJECTED, AttrAt(c, f.phase.at))]);
  }

  lemma ReturnKeepsUpserts(c: Config, f: Flow, f': Flow)
    requires UpsertInv(c, f) && f.phase.Returned? && !Terminal(f.status) && f' == OnReturn(c, f, f.phase.at)
    ensures UpsertInv(c, f')
  {
    hide UpsertInv, OwnAttribute, NextStep;
    assert LastMarks(c, f) == [];
    QuietKeepsUpserts(c, f, f', if f'.phase.Ended? then [Mark(COMPLETED, c.attr)] else []);
  }

  lemma ErrorKeepsUpserts(c: Config, f: Flow, f': Flow)
    requires UpsertInv(c, f) && f.phase.Raised? && f' == OnError(c, f, f.phase.cause)
    requires Concluded(f.status) <==> WritesFinal(f.phase.cause)
    ensures UpsertInv(c, f')
  {
    hide UpsertInv, OwnAttribute, WritesFinal, StopWord, Concluded;
    QuietKeepsUpserts(c, f, f', if WritesFinal(f.phase.cause) then [] else [Mark(FAILED, c.attr)]);
  }

  lemma EndWaitKeepsUpserts(c: Config, f: Flow, f': Flow, arrived: seq<Signal>, timer: bool)
    requires UpsertInv(c, f) && f' == EndWait(c, f, arrived, timer)
    requires f.phase.Parked? || f.phase.Approving? ==> CurrentAttribute(c, f.log) == AttrAt(c, f.phase.at)
    ensures UpsertInv(c, f')
  {
    hide UpsertInv, NextMessage, OwnAttribute, OptionsAt, AttrAt, At;
    if f'.phase.Raised? && !f.phase.Raised? {
      var attr := AttrAt(c, f.phase.at);
      QuietKeepsUpserts(c, f, f', if f'.phase.cause == ApprovalEnded then [] else [Mark(FAILED, attr)]);
    }
  }

  lemma ReplyKeepsUpserts(c: Config, d: Option<Data>, f: Flow, f': Flow)
    requires UpsertInv(c, f) && DataInv(c, d, f) && f.phase.InFlight?
    requires f' == OnReply(c, f, f.phase.at, f.phase.failures)
    requires CurrentAttribute(c, f.log) == AttrAt(c, f.phase.at) == OwnAttribute(c.graph, f.phase.at)
    ensures UpsertInv(c, f')
  {
    hide DataInv, UpsertInv, CallMarks, OwnAttribute, OptionsAt, AttrAt, At, Branch, Absorb, Outcome, Reply,
         NeedsApproval;
    CallInFlight(c, d, f);
    ReplyCompletesMarks(c, f, f', |f.log.calls| - 1);
  }

  lemma ReplyCompletesMarks(c: Config, f: Flow, f': Flow, n: nat)
    requires f.phase.InFlight? && |f.log.calls| == n + 1 && f.log.calls[n].at == f.phase.at
    requires UpsertInv(c, f) && Outcome(c, f, f.phase.at) == Reply(c, f.log, n)
    requires f' == OnReply(c, f, f.phase.at, f.phase.failures)
    requires CurrentAttribute(c, f.log) == AttrAt(c, f.phase.at) == OwnAttribute(c.graph, f.phase.at)
    ensures UpsertInv(c, f')
  {
    hide UpsertInv, CallMarks, OwnAttribute, OptionsAt, AttrAt, At, Branch, Absorb, Outcome;
    CallMarksGrow(c, f.log, f'.log, n);
    NextCallMarks(c, f'.log, n);
    assert Reply(c, f'.log, n) == Reply(c, f.log, n);
    var attr := AttrAt(c, f.phase.at);
    var more := if f'.phase.Approving? then [Mark(AWAITING_APPROVAL, attr)]
                else if f'.phase.Raised? && f'.phase.cause == Exhausted then [Mark(FAILED, attr)] else [];
    AddingKeepsUpserts(c, f, f', more);
  }

  lemma NextCallMarks(c: Config, log: Log, n: nat)
    requires n < |log.calls|
    ensures CallMarks(c, log, n + 1)
            == CallMarks(c, log, n) + For(CallWord(c, log, n), OwnAttribute(c.graph, log.calls[n].at))
  {
  }

  lemma StepKeepsUpserts(c: Config, d: Option<Data>, s: System, e: Event)
    requires UpsertInv(c, s.flow) && DataInv(c, d, s.flow) && Placed(c, s.flow)
    ensures UpsertInv(c, Step(c, s, e).flow)
  {
    hide UpsertInv, DataInv, OnEntry, OnMessage, OnReply, OnApproval, OnReturn, OnError, EndWait;
    var f, f' := s.flow, Step(c, s, e).flow;
    if InVisit(f) { AttributeIsHere(c, d, f); }
    match e
    case Arrive(_) =>
    case Expire => EndWaitKeepsUpserts(c, f, f', s.arrived, true);
    case Interrupt => EndWaitKeepsUpserts(c, f, f', s.arrived, false);
    case Tick =>
      var p := NextMessage(c, f, s.arrived);
      match f.phase
      case AtStep(_, _) => EntryKeepsUpserts(c, f, f');
      case Parked(_, _) => if p.Some? { MessageKeepsUpserts(c, f, f', p.value); }
      case InFlight(_, _) => ReplyKeepsUpserts(c, d, f, f');
      case Approving(_) => if p.Some? { ApprovalKeepsUpserts(c, f, f', p.value); }
      case Returned(_) => ReturnKeepsUpserts(c, f, f');
      case Raised(_) => ErrorKeepsUpserts(c, f, f');
      case Ended(_) =>
      case Aborted =>
  }

  lemma AttributeIsHere(c: Config, d: Option<Data>, f: Flow)
    requires DataInv(c, d, f) && InVisit(f)
    ensures CurrentAttribute(c, f.log) == AttrAt(c, f.phase.at) == OwnAttribute(c.graph, f.phase.at)
  {
    hide PhaseOk, CallOk, VisitOk;
    VisitIsHere(c, f);
    AttributeIsOwn(c, f.phase.at);
  }

  lemma StartKeepsUpserts(c: Config, d: Option<Data>)
    ensures UpsertInv(c, Start(c, d, PENDING))
  {
    var f := Start(c, d, PENDING);
    UpsertedSnoc(c.env, [], Mark(PENDING, c.attr));
    assert [] + [Mark(PENDING, c.attr)] == [Mark(PENDING, c.attr)];
    if f.phase.Ended? { UpsertedSnoc(c.env, [Mark(PENDING, c.attr)], Mark(COMPLETED, c.attr)); }
  }

  /** In every reachable state the upserts are determined by the calls, their replies and where the run is: each status
      a gated step writes goes to the attribute that step names, each status Execute writes to the attribute it found,
      and those without an attribute nowhere. */
  lemma {:induction false} UpsertsFollowCalls(c: Config, d: Option<Data>, events: seq<Event>)
    ensures UpsertInv(c, Run(c, d, events).flow)
    decreases |events|
  {
    hide Step, Start, UpsertInv, DataInv, StatusInv;
    if |events| == 0 {
      StartKeepsUpserts(c, d);
    } else {
      var before := events[..|events| - 1];
      UpsertsFollowCalls(c, d, before);
      RunKeepsData(c, d, before);
      RunKeepsStatus(c, d, before);
      StatusIsPlaced(c, Run(c, d, before).flow);
      StepKeepsUpserts(c, d, Run(c, d, before), events[|events| - 1]);
    }
  }
}
