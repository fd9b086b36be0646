/** Where a run goes and which data every activity call sees. */
module Threading {
  import opened Basics
  import opened StepGraph
  import opened Signals
  import opened Machine

  predicate InVisit(f: Flow) {
    f.phase.AtStep? || f.phase.Parked? || f.phase.InFlight? || f.phase.Approving? || f.phase.Returned?
  }

  // ---------------------------------------------------------------- the walk

  /** One hop of Execute: the name the data held when the step returned, listed by that step. */
  ghost predicate Hop(c: Config, from: Visit, to: Visit) {
    && to.entry.Some?
    && to.at != ""
    && c.env.getActivity(to.entry.value) == to.at
    && to.at in At(c.graph, from.at).nextActivities
  }

  ghost predicate WalkInv(c: Config, f: Flow) {
    var vs := f.log.visits;
    && (InVisit(f) ==> |vs| > 0 && vs[|vs| - 1].at == f.phase.at)
    && (|vs| > 0 ==> vs[0].at == c.first && vs[0].first == 0)
    && (|vs| == 0 ==> |f.log.calls| == 0)
    && (forall i :: 0 <= i < |vs| ==> vs[i].at in c.graph)
    && (forall i :: 0 < i < |vs| ==> Hop(c, vs[i - 1], vs[i]))
  }

  /** Only entering the next step, after one has returned, extends the walk. */
  lemma StepKeepsVisits(c: Config, s: System, e: Event)
    requires !(e.Tick? && s.flow.phase.Returned?)
    ensures Step(c, s, e).flow.log.visits == s.flow.log.visits
    ensures InVisit(Step(c, s, e).flow) ==> InVisit(s.flow) && Step(c, s, e).flow.phase.at == s.flow.phase.at
    ensures |s.flow.log.calls| < |Step(c, s, e).flow.log.calls| ==> InVisit(s.flow)
  {
  }

  lemma StepKeepsWalk(c: Config, s: System, e: Event)
    requires WalkInv(c, s.flow)
    ensures WalkInv(c, Step(c, s, e).flow)
  {
    var f, f' := s.flow, Step(c, s, e).flow;
    if e.Tick? && f.phase.Returned? {
      var next := NextStep(c, f.phase.at, f.data);
      if next.Some? && next.value in c.graph {
        assert f'.log.visits == f.log.visits + [Visit(next.value, f.data, |f.log.calls|)];
      } else {
        assert f'.log.visits == f.log.visits;
      }
    } else {
      StepKeepsVisits(c, s, e);
    }
  }

  lemma {:induction false} RunKeepsWalk(c: Config, d: Option<Data>, events: seq<Event>)
    ensures WalkInv(c, Run(c, d, events).flow)
    decreases |events|
  {
    if |events| > 0 {
      var before := events[..|events| - 1];
      RunKeepsWalk(c, d, before);
      StepKeepsWalk(c, Run(c, d, before), events[|events| - 1]);
    }
  }

  // ---------------------------------------------------------------- the data

  /** The correction messages taken during one visit, oldest first. */
  function Corrections(taken: seq<Receipt>, visit: nat): seq<Payload> {
    if |taken| == 0 then []
    else
      var r := taken[|taken| - 1];
      Corrections(taken[..|taken| - 1], visit)
      + if r.visit == visit && r.use == Correction then [r.signal.payload] else []
  }

  /** Data after corrections applied in order; empty and "null" payloads change nothing. */
  function Corrected(env: Env, d: Option<Data>, ps: seq<Payload>): Option<Data> {
    if |ps| == 0 then d
    else
      var x := Corrected(env, d, ps[..|ps| - 1]);
      match Encode(env, ps[|ps| - 1])
      case None => x
      case Some(bytes) => if Applies(bytes) then Correct(env, x, bytes).1 else x
  }

  function Reply(c: Config, log: Log, i: nat): ActResult
    requires i < |log.calls|
  {
    c.env.act(i, At(c.graph, log.calls[i].at).activityFn, log.calls[i].input)
  }

  /** The n-th message of a visit could be encoded and applied to what the earlier ones had made of the data. */
  predicate Usable(env: Env, entry: Option<Data>, ps: seq<Payload>, n: nat)
    requires 0 < n <= |ps|
  {
    Prepare(env, Corrected(env, entry, ps[..n - 1]), ps[n - 1]).Ready?
  }

  ghost predicate CallOk(c: Config, log: Log, i: nat)
    requires i < |log.calls|
  {
    var k := log.calls[i];
    && k.visit < |log.visits|
    && k.at == log.visits[k.visit].at
    && i == log.visits[k.visit].first + k.attempt - 1
    && k.attempt >= 1
    && (if At(c.graph, k.at).Gated()
        then
          var ps := Corrections(log.taken, k.visit);
          && k.attempt <= |ps|
          && k.attempt <= OptionsAt(c, k.at).maxCorrectionAttempts + 1
          && k.input == Corrected(c.env, log.visits[k.visit].entry, ps[..k.attempt])
          && Usable(c.env, log.visits[k.visit].entry, ps, k.attempt)
        else k.attempt == 1 && k.input == log.visits[k.visit].entry)
    && (k.attempt > 1
        ==> && log.calls[i - 1].visit == k.visit
            && log.calls[i - 1].attempt == k.attempt - 1
            && Reply(c, log, i - 1).Failed?)
  }

  /** The i-th call succeeded and this is the data after branching. */
  ghost predicate Yields(c: Config, log: Log, i: nat, d: Option<Data>)
    requires i < |log.calls|
  {
    var r := Reply(c, log, i);
    && r.Done?
    && d == Branch(c.env, At(c.graph, log.calls[i].at).nextActivities, Absorb(log.calls[i].input, r.out))
  }

  ghost predicate VisitOk(c: Config, log: Log, v: nat)
    requires 0 < v < |log.visits|
  {
    var i := log.visits[v].first;
    && 0 < i <= |log.calls|
    && log.calls[i - 1].visit == v - 1
    && Yields(c, log, i - 1, log.visits[v].entry)
  }

  /** The last call was the last one its visit was allowed, and it failed. */
  ghost predicate Spent(c: Config, log: Log) {
    && |log.calls| > 0
    && var k := log.calls[|log.calls| - 1];
    && At(c.graph, k.at).Gated()
    && k.attempt == OptionsAt(c, k.at).maxCorrectionAttempts + 1
    && Reply(c, log, |log.calls| - 1).Failed?
  }

  predicate EndedWell(f: Flow) { f.phase.Ended? && f.phase.error.None? }

  /** What a run without an error ends on: the last step succeeded, and its data names no step to go to. */
  ghost predicate WalkedOut(c: Config, f: Flow) {
    var n := |f.log.calls|;
    if |f.log.visits| == 0 then c.first !in c.graph
    else
      var cur := CurrentVisit(f.log);
      var next := NextStep(c, f.log.visits[cur].at, f.data);
      && n > 0 && f.log.calls[n - 1].visit == cur
      && Yields(c, f.log, n - 1, f.data)
      && (next.None? || next.value !in c.graph)
  }

  /** What the visit a run stopped in had done, by cause. Every correction taken is in the data, the last one included
      as far as it could be applied; a result that was still to be approved has been absorbed but not branched on. */
  ghost predicate StoppedWith(c: Config, f: Flow, cause: Cause)
    requires |f.log.visits| > 0
  {
    var log, n, cur := f.log, |f.log.calls|, CurrentVisit(f.log);
    var v := log.visits[cur];
    var called := n > 0 && log.calls[n - 1].visit == cur;
    match cause
    case ActivityFailed =>
      !At(c.graph, v.at).Gated() && called && Reply(c, log, n - 1).Failed? && f.data == v.entry
    case Exhausted =>
      && At(c.graph, v.at).Gated() && called && Reply(c, log, n - 1).Failed?
      && f.data == Corrected(c.env, v.entry, Corrections(log.taken, cur))
    case WaitEnded | BadPayload | BadCorrection =>
      && At(c.graph, v.at).Gated() && (called ==> Reply(c, log, n - 1).Failed?)
      && f.data == Corrected(c.env, v.entry, Corrections(log.taken, cur))
    case ApprovalTimeout | ApprovalEnded | Rejected =>
      && NeedsApproval(c, v.at) && called && Reply(c, log, n - 1).Done?
      && f.data == Absorb(log.calls[n - 1].input, Reply(c, log, n - 1).out)
  }

  /** What the current visit has done so far. */
  ghost predicate PhaseOk(c: Config, f: Flow) {
    var log := f.log;
    var cur := CurrentVisit(log);
    var n := |log.calls|;
    (InVisit(f) ==> |log.visits| > 0) &&
    match f.phase
    case AtStep(at, k) => Between(c, f, at, k)
    case Parked(at, k) => Between(c, f, at, k) && At(c.graph, at).Gated()
    case InFlight(at, k) =>
      && n == log.visits[cur].first + k + 1
      && (At(c.graph, at).Gated() ==> |Corrections(log.taken, cur)| == k + 1)
      && log.calls[n - 1].visit == cur && log.calls[n - 1].attempt == k + 1 && log.calls[n - 1].input == f.data
    case Approving(at) =>
      && n > 0 && log.calls[n - 1].visit == cur
      && NeedsApproval(c, at)
      && Reply(c, log, n - 1).Done?
      && f.data == Absorb(log.calls[n - 1].input, Reply(c, log, n - 1).out)
    case Returned(at) => n > 0 && log.calls[n - 1].visit == cur && Yields(c, log, n - 1, f.data)
    case Raised(cause) =>
      (cause == Exhausted <==> Spent(c, log)) && |log.visits| > 0 && StoppedWith(c, f, cause)
    case Ended(error) =>
      && ((error.Some? && error.value == Exhausted) <==> Spent(c, log))
      && (match error
          case None => WalkedOut(c, f)
          case Some(cause) => |log.visits| > 0 && StoppedWith(c, f, cause))
    case Aborted => true
  }

  /** Before the next attempt: `k` attempts failed, each after its own message, and no correction was lost. */
  ghost predicate Between(c: Config, f: Flow, at: string, k: nat)
    requires |f.log.visits| > 0
  {
    var log := f.log;
    var cur := CurrentVisit(log);
    var n := |log.calls|;
    && n == log.visits[cur].first + k
    && (!At(c.graph, at).Gated() ==> k == 0 && f.data == log.visits[cur].entry)
    && (At(c.graph, at).Gated() ==>
          && k <= OptionsAt(c, at).maxCorrectionAttempts
          && |Corrections(log.taken, cur)| == k
          && f.data == Corrected(c.env, log.visits[cur].entry, Corrections(log.taken, cur)))
    && (k > 0 ==> log.calls[n - 1].visit == cur && log.calls[n - 1].attempt == k && Reply(c, log, n - 1).Failed?)
    && (k == 0 && n > 0 ==> log.calls[n - 1].visit < cur)
  }

  ghost predicate LastVisitIsCurrent(log: Log) {
    |log.visits| > 0 ==>
      var cur := CurrentVisit(log);
      && log.visits[cur].first <= |log.calls|
      && (log.visits[cur].first < |log.calls| ==> log.calls[|log.calls| - 1].visit == cur)
  }

  ghost predicate DataInv(c: Config, d: Option<Data>, f: Flow) {
    var log := f.log;
    && WalkInv(c, f)
    && (if |log.visits| == 0 then f.data == d else log.visits[0].entry == d)
    && (forall r :: r in log.taken ==> r.visit < |log.visits|)
    && (forall i :: 0 <= i < |log.calls| ==> CallOk(c, log, i))
    && (forall v :: 0 < v < |log.visits| ==> VisitOk(c, log, v))
    && LastVisitIsCurrent(log)
    && PhaseOk(c, f)
  }

  // ---------------------------------------------------------------- every step keeps it

  ghost predicate Grows(log: Log, log': Log) {
    && log.visits <= log'.visits
    && log.calls <= log'.calls
    && forall v :: Corrections(log.taken, v) <= Corrections(log'.taken, v)
  }

  lemma {:induction false} CorrectionsSnoc(taken: seq<Receipt>, r: Receipt, visit: nat)
    ensures Corrections(taken + [r], visit)
            == Corrections(taken, visit) + if r.visit == visit && r.use == Correction then [r.signal.payload] else []
  {
    assert (taken + [r])[..|taken|] == taken;
  }

  lemma {:induction false} NoCorrectionsYet(taken: seq<Receipt>, visit: nat)
    requires forall r :: r in taken ==> r.visit < visit
    ensures Corrections(taken, visit) == []
    decreases |taken|
  {
    if |taken| > 0 {
      assert taken[|taken| - 1] in taken;
      NoCorrectionsYet(taken[..|taken| - 1], visit);
    }
  }

  lemma CallOkGrows(c: Config, log: Log, log': Log, i: nat)
    requires Grows(log, log') && i < |log.calls| && CallOk(c, log, i)
    ensures CallOk(c, log', i)
  {
    var k := log.calls[i];
    var ps, ps' := Corrections(log.taken, k.visit), Corrections(log'.taken, k.visit);
    assert ps <= ps';
    if At(c.graph, k.at).Gated() {
      assert ps[..k.attempt] == ps'[..k.attempt] && ps[..k.attempt - 1] == ps'[..k.attempt - 1];
    }
  }

  lemma GrowthKeepsData(c: Config, d: Option<Data>, f: Flow, f': Flow)
    requires DataInv(c, d, f) && WalkInv(c, f') && PhaseOk(c, f') && LastVisitIsCurrent(f'.log)
    requires Grows(f.log, f'.log)
    requires |f'.log.visits| == 0 ==> f'.data == d
    requires |f.log.visits| == 0 && |f'.log.visits| > 0 ==> f'.log.visits[0].entry == d
    requires forall r :: r in f'.log.taken ==> r.visit < |f'.log.visits|
    requires forall i :: |f.log.calls| <= i < |f'.log.calls| ==> CallOk(c, f'.log, i)
    requires forall v :: 0 < v && |f.log.visits| <= v < |f'.log.visits| ==> VisitOk(c, f'.log, v)
    ensures DataInv(c, d, f')
  {
    forall i | 0 <= i < |f.log.calls| ensures CallOk(c, f'.log, i) { CallOkGrows(c, f.log, f'.log, i); }
    forall v | 0 < v < |f.log.visits| ensures VisitOk(c, f'.log, v) { assert VisitOk(c, f.log, v); }
  }

  /** The only call of a fail-fast visit runs on the data the visit started from. */
  lemma EntryCallIsOk(c: Config, f: Flow, log': Log, at: string)
    requires |f.log.visits| > 0 && log'.visits == f.log.visits
    requires f.log.visits[CurrentVisit(f.log)].at == at && !At(c.graph, at).Gated()
    requires Between(c, f, at, 0)
    requires log'.calls == f.log.calls + [Call(CurrentVisit(f.log), at, 1, f.data, |f.log.taken|)]
    ensures CallOk(c, log', |f.log.calls|)
  {
  }

  lemma EntryKeepsData(c: Config, d: Option<Data>, f: Flow)
    requires DataInv(c, d, f) && f.phase.AtStep?
    requires WalkInv(c, OnEntry(c, f, f.phase.at, f.phase.failures))
    ensures DataInv(c, d, OnEntry(c, f, f.phase.at, f.phase.failures))
  {
    hide CallOk, VisitOk, Corrections, Corrected, OptionsAt, At;
    var f' := OnEntry(c, f, f.phase.at, f.phase.failures);
    if !At(c.graph, f.phase.at).Gated() {
      EntryCallIsOk(c, f, f'.log, f.phase.at);
    }
    GrowthKeepsData(c, d, f, f');
  }

  /** Taking a message in the current visit adds it to the corrections of that visit and of no other. */
  lemma TakingGrows(log: Log, log': Log, channel: string, p: Payload, use: Use)
    requires log'.taken == Took(log, channel, p, use).taken
    requires log.visits == log'.visits && log.calls <= log'.calls
    ensures Grows(log, log')
    ensures use == Correction ==>
              Corrections(log'.taken, CurrentVisit(log)) == Corrections(log.taken, CurrentVisit(log)) + [p]
  {
    var r := Receipt(Signal(channel, p), use, CurrentVisit(log));
    forall v ensures Corrections(log.taken, v) <= Corrections(log'.taken, v) {
      CorrectionsSnoc(log.taken, r, v);
    }
    CorrectionsSnoc(log.taken, r, CurrentVisit(log));
  }

  lemma {:induction false} CorrectedSnoc(env: Env, d: Option<Data>, ps: seq<Payload>, p: Payload)
    ensures var x := Corrected(env, d, ps);
            Corrected(env, d, ps + [p])
            == match Encode(env, p)
               case None => x
               case Some(bytes) => if Applies(bytes) then Correct(env, x, bytes).1 else x
  {
    assert (ps + [p])[..|ps|] == ps;
  }

  /** A message that can be applied starts a call on the corrected data; any other message raises an error. */
  lemma {:induction false} MessageStarts(
    c: Config, f: Flow, at: string, k: nat, p: Payload, entry: Option<Data>, ps: seq<Payload>)
    requires f.data == Corrected(c.env, entry, ps)
    ensures var f' := OnMessage(c, f, at, k, p);
            && f'.log.taken == Took(f.log, At(c.graph, at).signalEvent, p, Correction).taken
            && f'.log.visits == f.log.visits
            && (f'.phase.Raised? ==>
                  && (f'.phase.cause == BadPayload || f'.phase.cause == BadCorrection)
                  && f'.data == Corrected(c.env, entry, ps + [p])
                  && f'.log.calls == f.log.calls)
            && (!f'.phase.Raised? ==>
                  && f'.phase == InFlight(at, k)
                  && Prepare(c.env, f.data, p).Ready?
                  && f'.data == Corrected(c.env, entry, ps + [p])
                  && f'.log.calls == f.log.calls
                     + [Call(CurrentVisit(f.log), at, k + 1, f'.data, |f.log.taken| + 1)])
  {
    CorrectedSnoc(c.env, entry, ps, p);
  }

  /** A visit that waits has budget left. */
  lemma WaitingIsNotSpent(c: Config, d: Option<Data>, f: Flow)
    requires DataInv(c, d, f) && (f.phase.Parked? || f.phase.Approving?)
    ensures !Spent(c, f.log)
  {
    hide Usable, Corrected, Corrections, OptionsAt, At;
    var cur := CurrentVisit(f.log);
    var n := |f.log.calls|;
    if f.phase.Parked? && f.phase.failures == 0 {
      assert n == f.log.visits[cur].first;
      if cur > 0 {
        assert VisitOk(c, f.log, cur);
        assert Reply(c, f.log, n - 1).Done?;
      } else {
        assert n == 0;
      }
    } else if f.phase.Parked? {
      assert f.log.calls[n - 1].attempt == f.phase.failures;
      assert CallOk(c, f.log, n - 1);
      assert f.log.calls[n - 1].at == f.phase.at;
    }
  }

  lemma StartedCallIsOk(c: Config, log: Log, log': Log, at: string, k: nat, p: Payload, d: Option<Data>)
    requires |log.visits| > 0 && log'.visits == log.visits
    requires log.visits[CurrentVisit(log)].at == at && At(c.graph, at).Gated()
    requires Between(c, Flow(Parked(at, k), PENDING,
                             Corrected(c.env, log.visits[CurrentVisit(log)].entry,
                                       Corrections(log.taken, CurrentVisit(log))),
                             log), at, k)
    requires Corrections(log'.taken, CurrentVisit(log)) == Corrections(log.taken, CurrentVisit(log)) + [p]
    requires d == Corrected(c.env, log.visits[CurrentVisit(log)].entry, Corrections(log'.taken, CurrentVisit(log)))
    requires log'.calls == log.calls + [Call(CurrentVisit(log), at, k + 1, d, |log.taken| + 1)]
    requires Prepare(c.env, Corrected(c.env, log.visits[CurrentVisit(log)].entry,
                                      Corrections(log.taken, CurrentVisit(log))), p).Ready?
    ensures CallOk(c, log', |log.calls|)
  {
    hide Prepare, Corrected, Corrections, OptionsAt, At;
    var ps := Corrections(log'.taken, CurrentVisit(log));
    assert ps[..|ps|] == ps && ps[..|ps| - 1] == Corrections(log.taken, CurrentVisit(log));
    if k > 0 {
      assert Reply(c, log', |log.calls| - 1) == Reply(c, log, |log.calls| - 1);
    }
  }

  lemma StartedKeepsData(c: Config, d: Option<Data>, f: Flow, f': Flow, p: Payload)
    requires DataInv(c, d, f) && f.phase.Parked? && WalkInv(c, f')
    requires f'.phase == InFlight(f.phase.at, f.phase.failures)
    requires Grows(f.log, f'.log) && f'.log.visits == f.log.visits
    requires forall r :: r in f'.log.taken ==> r.visit < |f'.log.visits|
    requires Corrections(f'.log.taken, CurrentVisit(f.log)) == Corrections(f.log.taken, CurrentVisit(f.log)) + [p]
    requires f'.data == Corrected(c.env, f.log.visits[CurrentVisit(f.log)].entry,
                                  Corrections(f'.log.taken, CurrentVisit(f.log)))
    requires f'.log.calls == f.log.calls
             + [Call(CurrentVisit(f.log), f.phase.at, f.phase.failures + 1, f'.data, |f.log.taken| + 1)]
    requires Prepare(c.env, f.data, p).Ready?
    ensures DataInv(c, d, f')
  {
    hide CallOk, VisitOk, Corrections, Corrected, OptionsAt, At, Prepare;
    StartedCallIsOk(c, f.log, f'.log, f.phase.at, f.phase.failures, p, f'.data);
    GrowthKeepsData(c, d, f, f');
  }

  lemma VisitIsHere(c: Config, f: Flow)
    requires WalkInv(c, f) && InVisit(f)
    ensures |f.log.visits| > 0 && f.log.visits[CurrentVisit(f.log)].at == f.phase.at
  {
  }

  /** An unusable message is the last one of its visit, and is in the data as far as it could be applied. */
  lemma UnusableKeepsData(c: Config, d: Option<Data>, f: Flow, f': Flow)
    requires DataInv(c, d, f) && f.phase.Parked? && WalkInv(c, f')
    requires f'.phase.Raised? && (f'.phase.cause == BadPayload || f'.phase.cause == BadCorrection)
    requires Grows(f.log, f'.log) && f'.log.visits == f.log.visits && f'.log.calls == f.log.calls
    requires forall r :: r in f'.log.taken ==> r.visit < |f'.log.visits|
    requires var cur := CurrentVisit(f.log);
             f'.data == Corrected(c.env, f.log.visits[cur].entry, Corrections(f'.log.taken, cur))
    ensures DataInv(c, d, f')
  {
    hide CallOk, VisitOk, WalkInv, Corrections, Corrected, OptionsAt, At;
    VisitIsHere(c, f);
    WaitingIsNotSpent(c, d, f);
    GrowthKeepsData(c, d, f, f');
  }

  lemma MessageKeepsData(c: Config, d: Option<Data>, f: Flow, f': Flow, p: Payload)
    requires DataInv(c, d, f) && f.phase.Parked?
    requires f' == OnMessage(c, f, f.phase.at, f.phase.failures, p) && WalkInv(c, f')
    ensures DataInv(c, d, f')
  {
    hide CallOk, VisitOk, WalkInv, OnMessage, Corrected;
    var at, cur := f.phase.at, CurrentVisit(f.log);
    MessageStarts(c, f, at, f.phase.failures, p, f.log.visits[cur].entry, Corrections(f.log.taken, cur));
    TakingGrows(f.log, f'.log, At(c.graph, at).signalEvent, p, Correction);
    if f'.phase.Raised? {
      UnusableKeepsData(c, d, f, f');
    } else {
      StartedKeepsData(c, d, f, f', p);
    }
  }

  /** The call in flight is the last one, on the data as it is now. */
  lemma CallInFlight(c: Config, d: Option<Data>, f: Flow)
    requires DataInv(c, d, f) && f.phase.InFlight?
    ensures var n, cur := |f.log.calls|, CurrentVisit(f.log);
            && n > 0 && f.log.calls[n - 1].at == f.phase.at
            && Outcome(c, f, f.phase.at) == Reply(c, f.log, n - 1)
            && (At(c.graph, f.phase.at).Gated() ==>
                  && f.phase.failures <= OptionsAt(c, f.phase.at).maxCorrectionAttempts
                  && f.data == Corrected(c.env, f.log.visits[cur].entry, Corrections(f.log.taken, cur)))
            && (!At(c.graph, f.phase.at).Gated() ==> f.data == f.log.visits[cur].entry)
  {
    hide VisitOk;
    assert CallOk(c, f.log, |f.log.calls| - 1);
    var ps := Corrections(f.log.taken, CurrentVisit(f.log));
    assert ps[..|ps|] == ps;
  }

  lemma ReplyKeepsData(c: Config, d: Option<Data>, f: Flow)
    requires DataInv(c, d, f) && f.phase.InFlight?
    requires WalkInv(c, OnReply(c, f, f.phase.at, f.phase.failures))
    ensures DataInv(c, d, OnReply(c, f, f.phase.at, f.phase.failures))
  {
    hide CallOk, VisitOk, WalkInv, Corrections, Corrected, OptionsAt, At, Outcome;
    CallInFlight(c, d, f);
    VisitIsHere(c, f);
    var f' := OnReply(c, f, f.phase.at, f.phase.failures);
    GrowthKeepsData(c, d, f, f');
  }

  lemma LastCallIsHere(c: Config, d: Option<Data>, f: Flow)
    requires DataInv(c, d, f) && InVisit(f) && |f.log.calls| > 0
    requires f.log.calls[|f.log.calls| - 1].visit == CurrentVisit(f.log)
    ensures f.log.calls[|f.log.calls| - 1].at == f.phase.at
  {
    hide VisitOk, Usable, Corrected, OptionsAt, At, PhaseOk;
    assert CallOk(c, f.log, |f.log.calls| - 1);
  }

  lemma ApprovalKeepsData(c: Config, d: Option<Data>, f: Flow, p: Payload)
    requires DataInv(c, d, f) && f.phase.Approving?
    requires WalkInv(c, OnApproval(c, f, f.phase.at, p))
    ensures DataInv(c, d, OnApproval(c, f, f.phase.at, p))
  {
    hide CallOk, VisitOk, WalkInv, Corrections, Corrected, OptionsAt, At, Absorb;
    var f' := OnApproval(c, f, f.phase.at, p);
    VisitIsHere(c, f);
    LastCallIsHere(c, d, f);
    TakingGrows(f.log, f'.log, OptionsAt(c, f.phase.at).approvalSignal, p, Approval);
    WaitingIsNotSpent(c, d, f);
    GrowthKeepsData(c, d, f, f');
  }

  lemma LeavingKeepsData(c: Config, d: Option<Data>, f: Flow, f': Flow)
    requires DataInv(c, d, f) && f.phase.Returned? && WalkInv(c, f') && EndedWell(f')
    requires f'.log.visits == f.log.visits && f'.log.calls == f.log.calls && f'.log.taken == f.log.taken
    requires f'.data == f.data
    requires var next := NextStep(c, f.phase.at, f.data); next.None? || next.value !in c.graph
    ensures DataInv(c, d, f')
  {
    hide CallOk, VisitOk, WalkInv, Corrections, NextStep, OptionsAt, At, Branch, Absorb;
    VisitIsHere(c, f);
    GrowthKeepsData(c, d, f, f');
  }

  lemma EnteringKeepsData(c: Config, d: Option<Data>, f: Flow, f': Flow)
    requires DataInv(c, d, f) && f.phase.Returned? && WalkInv(c, f')
    requires f'.phase.AtStep? && f'.phase.failures == 0 && f'.data == f.data
    requires f'.log.visits == f.log.visits + [Visit(f'.phase.at, f.data, |f.log.calls|)]
    requires f'.log.calls == f.log.calls && f'.log.taken == f.log.taken
    ensures DataInv(c, d, f')
  {
    hide CallOk, WalkInv, At, Branch, Absorb, OptionsAt, Corrections;
    LimitIsPositive(c, f'.phase.at);
    NoCorrectionsYet(f.log.taken, |f.log.visits|);
    GrowthKeepsData(c, d, f, f');
  }

  lemma ReturnKeepsData(c: Config, d: Option<Data>, f: Flow)
    requires DataInv(c, d, f) && f.phase.Returned?
    requires WalkInv(c, OnReturn(c, f, f.phase.at))
    ensures DataInv(c, d, OnReturn(c, f, f.phase.at))
  {
    hide DataInv, WalkInv, NextStep;
    var f' := OnReturn(c, f, f.phase.at);
    if f'.phase.Ended? { LeavingKeepsData(c, d, f, f'); } else { EnteringKeepsData(c, d, f, f'); }
  }

  predicate EndsWait(phase: Phase, cause: Cause) {
    if phase.Parked? then cause == WaitEnded
    else phase.Approving? && (cause == ApprovalTimeout || cause == ApprovalEnded)
  }

  lemma EndKeepsData(c: Config, d: Option<Data>, f: Flow, f': Flow)
    requires DataInv(c, d, f) && WalkInv(c, f')
    requires f'.log.visits == f.log.visits && f'.log.calls == f.log.calls && f'.log.taken == f.log.taken
    requires || f' == f
             || (f'.data == f.data && f'.phase.Raised? && EndsWait(f.phase, f'.phase.cause))
             || (f'.data == f.data && f.phase.Raised? && f'.phase == Ended(Some(f.phase.cause)))
    ensures DataInv(c, d, f')
  {
    hide CallOk, VisitOk, Corrections, Corrected, OptionsAt, At;
    if f' != f {
      if f.phase.Parked? || f.phase.Approving? { WaitingIsNotSpent(c, d, f); }
      hide WalkInv, Between;
      GrowthKeepsData(c, d, f, f');
    }
  }

  lemma StepKeepsData(c: Config, d: Option<Data>, s: System, e: Event)
    requires DataInv(c, d, s.flow)
    ensures DataInv(c, d, Step(c, s, e).flow)
  {
    hide OnEntry, OnMessage, OnReply, OnApproval, OnReturn, CallOk, VisitOk;
    var f, f' := s.flow, Step(c, s, e).flow;
    StepKeepsWalk(c, s, e);
    if !e.Tick? {
      EndKeepsData(c, d, f, f');
    } else {
      var p := NextMessage(c, f, s.arrived);
      match f.phase
      case AtStep(_, _) => EntryKeepsData(c, d, f);
      case Parked(_, _) => if p.Some? { MessageKeepsData(c, d, f, f', p.value); }
      case InFlight(_, _) => ReplyKeepsData(c, d, f);
      case Approving(_) => if p.Some? { ApprovalKeepsData(c, d, f, p.value); }
      case Returned(_) => ReturnKeepsData(c, d, f);
      case Raised(_) => EndKeepsData(c, d, f, f');
      case Ended(_) =>
      case Aborted =>
    }
  }

  lemma {:induction false} RunKeepsData(c: Config, d: Option<Data>, events: seq<Event>)
    ensures DataInv(c, d, Run(c, d, events).flow)
    decreases |events|
  {
    if |events| > 0 {
      var before := events[..|events| - 1];
      RunKeepsData(c, d, before);
      StepKeepsData(c, d, Run(c, d, before), events[|events| - 1]);
    }
  }

  // ---------------------------------------------------------------- what it means for every run

  /** Every call of a gated visit runs on the data the visit started from with the messages of its attempts
      applied in order; a failed attempt loses none of them. */
  lemma {:induction false} AttemptsKeepCorrections(c: Config, d: Option<Data>, events: seq<Event>, i: nat)
    requires i < |Run(c, d, events).flow.log.calls|
    ensures var log := Run(c, d, events).flow.log; var k := log.calls[i];
            && k.visit < |log.visits| && k.at == log.visits[k.visit].at
            && (At(c.graph, k.at).Gated() ==>
                  && 1 <= k.attempt <= |Corrections(log.taken, k.visit)|
                  && k.input == Corrected(c.env, log.visits[k.visit].entry,
                                          Corrections(log.taken, k.visit)[..k.attempt]))
            && (!At(c.graph, k.at).Gated() ==> k.attempt == 1 && k.input == log.visits[k.visit].entry)
            && (k.attempt > 1 ==> && i > 0
                                  && log.calls[i - 1].visit == k.visit && log.calls[i - 1].attempt == k.attempt - 1
                                  && Reply(c, log, i - 1).Failed?)
  {
    RunKeepsData(c, d, events);
    assert CallOk(c, Run(c, d, events).flow.log, i);
  }

  /** Every visit starts from the input or from the branched result of the last call of the visit before. */
  lemma {:induction false} VisitsThreadData(c: Config, d: Option<Data>, events: seq<Event>, v: nat)
    requires v < |Run(c, d, events).flow.log.visits|
    ensures var log := Run(c, d, events).flow.log;
            && (v == 0 ==> log.visits[0].entry == d)
            && (v > 0 ==>
                  var i := log.visits[v].first;
                  && 0 < i <= |log.calls| && log.calls[i - 1].visit == v - 1
                  && Yields(c, log, i - 1, log.visits[v].entry))
  {
    RunKeepsData(c, d, events);
    if v > 0 { assert VisitOk(c, Run(c, d, events).flow.log, v); }
  }

  /** The executed steps form a path from the first step; each hop follows the name the data held. */
  lemma {:induction false} WalkFollowsData(c: Config, d: Option<Data>, events: seq<Event>, v: nat)
    requires v < |Run(c, d, events).flow.log.visits|
    ensures var vs := Run(c, d, events).flow.log.visits;
            && vs[0].at == c.first
            && vs[v].at in c.graph
            && (v > 0 ==> Hop(c, vs[v - 1], vs[v]) && (vs[v - 1].at, vs[v].at) in EdgesOf(c.graph))
  {
    RunKeepsWalk(c, d, events);
  }

  /** With lawful accessors, branching stores the name that was already there. */
  lemma BranchKeepsName(env: Env, next: seq<string>, d: Data)
    requires Lawful(env)
    ensures Branch(env, next, Some(d)).Some?
    ensures env.getActivity(Branch(env, next, Some(d)).value) == env.getActivity(d)
  {
  }

  /** Each hop goes to the name the previous step's last activity returned. */
  lemma {:induction false} HopsFollowReplies(c: Config, d: Option<Data>, events: seq<Event>, v: nat)
    requires Lawful(c.env)
    requires 0 < v < |Run(c, d, events).flow.log.visits|
    ensures var log := Run(c, d, events).flow.log; var i := log.visits[v].first;
            && 0 < i <= |log.calls| && log.calls[i - 1].visit == v - 1
            && Reply(c, log, i - 1).Done?
            && c.env.getActivity(Reply(c, log, i - 1).out) == log.visits[v].at
  {
    RunKeepsData(c, d, events);
    var log := Run(c, d, events).flow.log;
    assert VisitOk(c, log, v) && Hop(c, log.visits[v - 1], log.visits[v]);
    var i := log.visits[v].first - 1;
    BranchKeepsName(c.env, At(c.graph, log.visits[v - 1].at).nextActivities, Reply(c, log, i).out);
  }

  /** A run completes only by walking out of the graph: its last call succeeded, and the data it left names no step
      that is both listed and registered. */
  lemma {:induction false} CompletionWalksOut(c: Config, d: Option<Data>, events: seq<Event>)
    requires EndedWell(Run(c, d, events).flow)
    ensures WalkedOut(c, Run(c, d, events).flow)
  {
    RunKeepsData(c, d, events);
  }

  /** The data every ended run leaves: untouched if no step ran, the branched result of the last call if it completed,
      and otherwise what the visit it stopped in had made of its entry data, by cause. */
  lemma {:induction false} FinalDataIsFold(c: Config, d: Option<Data>, events: seq<Event>)
    ensures var f := Run(c, d, events).flow; var n := |f.log.calls|;
            && (|f.log.visits| == 0 ==> f.data == d)
            && (EndedWell(f) && |f.log.visits| > 0 ==> n > 0 && Yields(c, f.log, n - 1, f.data))
            && (f.phase.Ended? && f.phase.error.Some? ==>
                  |f.log.visits| > 0 && StoppedWith(c, f, f.phase.error.value))
  {
    RunKeepsData(c, d, events);
  }

  /** The call after a failed one belongs to the same visit. */
  lemma FailureIsFollowed(c: Config, d: Option<Data>, f: Flow, i: nat)
    requires DataInv(c, d, f) && i < |f.log.calls| - 1 && Reply(c, f.log, i).Failed?
    ensures f.log.calls[i + 1].visit == f.log.calls[i].visit
    ensures f.log.calls[i + 1].attempt == f.log.calls[i].attempt + 1
  {
    var k := f.log.calls[i + 1];
    assert CallOk(c, f.log, i + 1);
    assert k.visit > 0 ==> VisitOk(c, f.log, k.visit);
  }

  /** A run ends for exhaustion exactly when its last call was the (limit + 1)-th failed attempt of its visit. */
  lemma {:induction false} ExhaustionIsExact(c: Config, d: Option<Data>, events: seq<Event>)
    requires Run(c, d, events).flow.phase.Ended?
    ensures Run(c, d, events).flow.phase.error == Some(Exhausted) <==> Spent(c, Run(c, d, events).flow.log)
  {
    RunKeepsData(c, d, events);
  }

  /** A failed attempt within the limit is followed by the next attempt of the same visit; only the last call of a
      run can be a failed attempt beyond it. */
  lemma {:induction false} FailuresWithinBudgetRetry(c: Config, d: Option<Data>, events: seq<Event>, i: nat)
    requires i < |Run(c, d, events).flow.log.calls|
    ensures var log := Run(c, d, events).flow.log; var k := log.calls[i];
            var limit := OptionsAt(c, k.at).maxCorrectionAttempts;
            && (At(c.graph, k.at).Gated() ==> k.attempt <= limit + 1)
            && (i < |log.calls| - 1 && Reply(c, log, i).Failed? ==>
                  && At(c.graph, k.at).Gated() && k.attempt <= limit
                  && log.calls[i + 1].visit == k.visit && log.calls[i + 1].attempt == k.attempt + 1)
  {
    RunKeepsData(c, d, events);
    var f := Run(c, d, events).flow;
    assert CallOk(c, f.log, i);
    if i < |f.log.calls| - 1 && Reply(c, f.log, i).Failed? {
      FailureIsFollowed(c, d, f, i);
      assert CallOk(c, f.log, i + 1);
    }
  }

  /** The limit itself: a non-positive one is replaced by 5, and a revisit starts from a full budget. */
  lemma LimitIsPositive(c: Config, at: string)
    ensures var m := OptionsAt(c, at).maxCorrectionAttempts;
            && m > 0
            && var r := At(c.graph, at).resumable;
               m == if r.Some? && r.value.maxCorrectionAttempts > 0 then r.value.maxCorrectionAttempts
                    else DEFAULT_MAX_CORRECTION_ATTEMPTS
  {
  }
}
