/** The order in which signals, replies and progress interleave does not matter: a run is a point on one orbit that
    the step graph, the activity oracle and the message order of each channel determine. */
module Schedule {
  import opened Basics
  import opened StepGraph
  import opened Signals
  import opened Machine
  import opened StatusLanguage

  /** Progress alone, `n` times, with every message of `arrived` already buffered. */
  function Orbit(c: Config, d: Option<Data>, arrived: seq<Signal>, n: nat): Flow {
    if n == 0 then Start(c, d, PENDING)
    else Advance(c, Orbit(c, d, arrived, n - 1), arrived)
  }

  /** The first `n` steps of the orbit all moved. */
  ghost predicate Moving(c: Config, d: Option<Data>, arrived: seq<Signal>, n: nat) {
    forall k :: 0 <= k < n ==> Enabled(c, Orbit(c, d, arrived, k), arrived)
  }

  /** An event that can end no wait: no cancellation, and a timer only where no step sets a timeout. */
  ghost predicate Quiet(g: Graph, e: Event) { !e.Interrupt? && (e.Expire? ==> Untimed(g)) }

  ghost predicate Calm(g: Graph, events: seq<Event>) { forall e :: e in events ==> Quiet(g, e) }

  function Moved(c: Config, s: System, e: Event): nat { if e.Tick? && Enabled(c, s.flow, s.arrived) then 1 else 0 }

  /** How often a run moved. */
  function Moves(c: Config, d: Option<Data>, events: seq<Event>): nat {
    if |events| == 0 then 0
    else
      var before := events[..|events| - 1];
      var s := Run(c, d, before);
      Moves(c, d, before) + Moved(c, s, events[|events| - 1])
  }

  /** A flow that moves on few messages moves the same way when more have arrived. */
  lemma MoreMessagesSameMove(c: Config, f: Flow, few: seq<Signal>, many: seq<Signal>)
    requires ChannelPrefix(few, many) && Enabled(c, f, few)
    ensures Enabled(c, f, many) && Advance(c, f, many) == Advance(c, f, few)
  {
    if WaitsOn(c, f).Some? { PrefixKeepsHead(few, many, SignalsOf(f.log.taken), WaitsOn(c, f).value); }
  }

  lemma DisabledStays(c: Config, f: Flow, arrived: seq<Signal>)
    requires !Enabled(c, f, arrived)
    ensures Advance(c, f, arrived) == f
  {
  }

  lemma LessIsPrefix(a: seq<Signal>, s: Signal, many: seq<Signal>)
    requires ChannelPrefix(a + [s], many)
    ensures ChannelPrefix(a, many)
  {
    forall ch ensures On(a, ch) <= On(many, ch) {
      OnSnoc(a, s, ch);
      assert On(a + [s], ch) <= On(many, ch);
    }
  }

  lemma OrbitNext(c: Config, d: Option<Data>, arrived: seq<Signal>, n: nat)
    ensures Orbit(c, d, arrived, n + 1) == Advance(c, Orbit(c, d, arrived, n), arrived)
  {
  }

  lemma TickStaysOnOrbit(c: Config, d: Option<Data>, s: System, many: seq<Signal>, n: nat)
    requires ChannelPrefix(s.arrived, many)
    requires s.flow == Orbit(c, d, many, n) && Moving(c, d, many, n)
    ensures Advance(c, s.flow, s.arrived) == Orbit(c, d, many, n + Moved(c, s, Tick))
    ensures Moving(c, d, many, n + Moved(c, s, Tick))
  {
    hide Advance;
    if Enabled(c, s.flow, s.arrived) {
      MoreMessagesSameMove(c, s.flow, s.arrived, many);
      OrbitNext(c, d, many, n);
    } else {
      DisabledStays(c, s.flow, s.arrived);
    }
  }

  lemma StepStaysOnOrbit(c: Config, d: Option<Data>, s: System, e: Event, many: seq<Signal>, n: nat)
    requires Calm(c.graph, [e])
    requires ChannelPrefix(Step(c, s, e).arrived, many)
    requires s.flow == Orbit(c, d, many, n) && Moving(c, d, many, n)
    ensures Step(c, s, e).flow == Orbit(c, d, many, n + Moved(c, s, e))
    ensures Moving(c, d, many, n + Moved(c, s, e))
  {
    hide Advance, Orbit, Moving, Enabled, ChannelPrefix;
    assert e in [e];
    match e
    case Arrive(_) =>
    case Expire => NoTimeoutNoTimer(c, s);
    case Tick => TickStaysOnOrbit(c, d, s, many, n);
    case Interrupt =>
  }

  lemma {:induction false} OrbitStarts(c: Config, d: Option<Data>, many: seq<Signal>)
    ensures Orbit(c, d, many, 0) == Start(c, d, PENDING) && Moving(c, d, many, 0)
  {
  }

  lemma ArrivedOnlyGrows(c: Config, s: System, e: Event)
    ensures Step(c, s, e).arrived == if e.Arrive? then s.arrived + [e.signal] else s.arrived
  {
  }

  /** Wherever a run is, the orbit over all its messages, or over any more of them, was there after as many moves. */
  lemma {:induction false} RunIsOnOrbit(c: Config, d: Option<Data>, events: seq<Event>, many: seq<Signal>)
    requires Calm(c.graph, events)
    requires ChannelPrefix(Run(c, d, events).arrived, many)
    ensures Run(c, d, events).flow == Orbit(c, d, many, Moves(c, d, events))
    ensures Moving(c, d, many, Moves(c, d, events))
    decreases |events|
  {
    hide Step, Start, Orbit, Moving, Moved, ChannelPrefix, Quiet;
    if |events| == 0 {
      OrbitStarts(c, d, many);
    } else {
      var before, e := events[..|events| - 1], events[|events| - 1];
      var s := Run(c, d, before);
      ArrivedOnlyGrows(c, s, e);
      if e.Arrive? { LessIsPrefix(s.arrived, e.signal, many); }
      RunIsOnOrbit(c, d, before, many);
      StepStaysOnOrbit(c, d, s, e, many, Moves(c, d, before));
    }
  }

  // ---------------------------------------------------------------- the orbit only adds to its log

  ghost predicate LogPrefix(a: Log, b: Log) {
    a.writes <= b.writes && a.upserts <= b.upserts && a.visits <= b.visits && a.calls <= b.calls && a.taken <= b.taken
  }

  lemma AdvanceExtendsLog(c: Config, f: Flow, arrived: seq<Signal>)
    ensures LogPrefix(f.log, Advance(c, f, arrived).log)
  {
    match f.phase
    case AtStep(at, n) => EntryExtendsLog(c, f, at, n);
    case Parked(at, n) => MessageExtendsLog(c, f, at, n, NextMessage(c, f, arrived));
    case InFlight(at, n) => ReplyExtendsLog(c, f, at, n);
    case Approving(at) => ApprovalExtendsLog(c, f, at, NextMessage(c, f, arrived));
    case Returned(at) => ReturnExtendsLog(c, f, at);
    case Raised(_) =>
    case Ended(_) =>
    case Aborted =>
  }

  lemma EntryExtendsLog(c: Config, f: Flow, at: string, n: nat)
    ensures LogPrefix(f.log, OnEntry(c, f, at, n).log)
  {
  }

  lemma MessageExtendsLog(c: Config, f: Flow, at: string, n: nat, p: Option<Payload>)
    ensures p.Some? ==> LogPrefix(f.log, OnMessage(c, f, at, n, p.value).log)
  {
  }

  lemma ReplyExtendsLog(c: Config, f: Flow, at: string, n: nat)
    ensures LogPrefix(f.log, OnReply(c, f, at, n).log)
  {
  }

  lemma ApprovalExtendsLog(c: Config, f: Flow, at: string, p: Option<Payload>)
    ensures p.Some? ==> LogPrefix(f.log, OnApproval(c, f, at, p.value).log)
  {
  }

  lemma ReturnExtendsLog(c: Config, f: Flow, at: string)
    ensures LogPrefix(f.log, OnReturn(c, f, at).log)
  {
  }

  lemma LogPrefixIsTransitive(a: Log, b: Log, z: Log)
    requires LogPrefix(a, b) && LogPrefix(b, z)
    ensures LogPrefix(a, z)
  {
  }

  lemma {:induction false} OrbitExtendsLog(c: Config, d: Option<Data>, arrived: seq<Signal>, m: nat, n: nat)
    requires m <= n
    ensures LogPrefix(Orbit(c, d, arrived, m).log, Orbit(c, d, arrived, n).log)
    decreases n - m
  {
    hide Advance;
    if m < n {
      var f, f', f'' := Orbit(c, d, arrived, m), Orbit(c, d, arrived, n - 1), Orbit(c, d, arrived, n);
      OrbitExtendsLog(c, d, arrived, m, n - 1);
      OrbitNext(c, d, arrived, n - 1);
      AdvanceExtendsLog(c, f', arrived);
      LogPrefixIsTransitive(f.log, f'.log, f''.log);
    }
  }

  ghost predicate AtRest(c: Config, s: System) { !Enabled(c, s.flow, s.arrived) }

  /** Schedule independence. Take two runs, the second with at least the messages of the first on every channel, in
      the same order per channel. They are points of one orbit: the one that moved less is a prefix of the other, and
      after equally many moves they agree on everything. If the second is at rest the first is its prefix; if both
      are at rest on the same messages they made the same calls and writes and have the same data and outcome. */
  lemma {:induction false} ScheduleIndependence(c: Config, d: Option<Data>, few: seq<Event>, many: seq<Event>)
    requires Calm(c.graph, few) && Calm(c.graph, many)
    requires ChannelPrefix(Arrivals(few), Arrivals(many))
    ensures var r, s := Run(c, d, few), Run(c, d, many);
            && (Moves(c, d, few) <= Moves(c, d, many) ==> LogPrefix(r.flow.log, s.flow.log))
            && (Moves(c, d, many) <= Moves(c, d, few) ==> LogPrefix(s.flow.log, r.flow.log))
            && (Moves(c, d, few) == Moves(c, d, many) ==> r.flow == s.flow)
            && (AtRest(c, s) ==> Moves(c, d, few) <= Moves(c, d, many) && LogPrefix(r.flow.log, s.flow.log))
            && (AtRest(c, r) && AtRest(c, s) && ChannelPrefix(Arrivals(many), Arrivals(few)) ==> r.flow == s.flow)
  {
    var r, s := Run(c, d, few), Run(c, d, many);
    var m, n := Moves(c, d, few), Moves(c, d, many);
    RunArrived(c, d, few);
    RunArrived(c, d, many);
    RunIsOnOrbit(c, d, few, s.arrived);
    RunIsOnOrbit(c, d, many, s.arrived);
    if m <= n { OrbitExtendsLog(c, d, s.arrived, m, n); }
    if n <= m { OrbitExtendsLog(c, d, s.arrived, n, m); }
    if AtRest(c, r) && ChannelPrefix(Arrivals(many), Arrivals(few)) {
      RunIsOnOrbit(c, d, few, r.arrived);
      RunIsOnOrbit(c, d, many, r.arrived);
    }
  }

  /** Two calm runs that rest on the same messages, seen or still to come, rest in the same state. */
  lemma {:induction false} RestIsUnique(c: Config, d: Option<Data>, a: seq<Event>, b: seq<Event>, many: seq<Signal>)
    requires Calm(c.graph, a) && Calm(c.graph, b)
    requires ChannelPrefix(Run(c, d, a).arrived, many) && ChannelPrefix(Run(c, d, b).arrived, many)
    requires !Enabled(c, Run(c, d, a).flow, many) && !Enabled(c, Run(c, d, b).flow, many)
    ensures Run(c, d, a).flow == Run(c, d, b).flow
  {
    hide Run, Orbit, Moves, Enabled, ChannelPrefix, Calm;
    RunIsOnOrbit(c, d, a, many);
    RunIsOnOrbit(c, d, b, many);
  }
}
