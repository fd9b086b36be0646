/** A run whose channels have other consumers: listeners and waits that take messages the engine would have taken. */
module Sharing {
  import opened Basics
  import opened StepGraph
  import opened Signals
  import opened Machine
  import opened StatusLanguage

  /** An event of the run itself, or a message taken from a channel by another consumer. */
  datatype Turn = Own(event: Event) | Other(channel: string)

  /** The run as the engine sees it, and what the others took. */
  datatype Shared = Shared(system: System, lost: seq<Signal>)

  /** All but the k-th message of a channel. */
  function Without(ss: seq<Signal>, ch: string, k: nat): seq<Signal> {
    if |ss| == 0 then []
    else
      var before, last := ss[..|ss| - 1], ss[|ss| - 1];
      if last.channel == ch && |On(before, ch)| == k then before else Without(before, ch, k) + [last]
  }

  function TakenOn(f: Flow, ch: string): nat { |On(SignalsOf(f.log.taken), ch)| }

  /** Another consumer takes the oldest message of a channel that nobody has taken. */
  function Lose(s: Shared, ch: string): Shared {
    var k := TakenOn(s.system.flow, ch);
    if k < |On(s.system.arrived, ch)|
    then Shared(s.system.(arrived := Without(s.system.arrived, ch, k)),
                s.lost + [Signal(ch, On(s.system.arrived, ch)[k])])
    else s
  }

  function Play(c: Config, d: Option<Data>, turns: seq<Turn>): Shared {
    if |turns| == 0 then Shared(Run(c, d, []), [])
    else
      var s := Play(c, d, turns[..|turns| - 1]);
      match turns[|turns| - 1]
      case Own(e) => s.(system := Step(c, s.system, e))
      case Other(ch) => Lose(s, ch)
  }

  /** The signals sent to the workflow. */
  function SentIn(turns: seq<Turn>): seq<Signal> {
    if |turns| == 0 then []
    else
      var before := SentIn(turns[..|turns| - 1]);
      match turns[|turns| - 1]
      case Own(Arrive(signal)) => before + [signal]
      case _ => before
  }

  lemma {:induction false} WithoutSnoc(ss: seq<Signal>, s: Signal, ch: string, k: nat)
    ensures Without(ss + [s], ch, k)
            == if s.channel == ch && |On(ss, ch)| == k then ss else Without(ss, ch, k) + [s]
  {
    assert (ss + [s])[..|ss|] == ss;
  }

  lemma {:induction false} WithoutIsExact(ss: seq<Signal>, ch: string, k: nat, other: string)
    requires k < |On(ss, ch)|
    ensures On(Without(ss, ch, k), other)
            == if other == ch then On(ss, ch)[..k] + On(ss, ch)[k + 1..] else On(ss, other)
    decreases |ss|
  {
    if |ss| == 0 { NothingOn(ch); }
    hide On, Without;
    var before, last := ss[..|ss| - 1], ss[|ss| - 1];
    assert ss == before + [last];
    OnSnoc(before, last, ch);
    OnSnoc(before, last, other);
    WithoutSnoc(before, last, ch, k);
    if last.channel == ch && |On(before, ch)| == k {
      assert On(ss, ch)[..k] + On(ss, ch)[k + 1..] == On(before, ch);
    } else {
      WithoutIsExact(before, ch, k, other);
      OnSnoc(Without(before, ch, k), last, other);
    }
  }

  // ---------------------------------------------------------------- one step without the message

  lemma SameMessageSameAdvance(c: Config, f: Flow, a: seq<Signal>, b: seq<Signal>)
    requires NextMessage(c, f, a) == NextMessage(c, f, b)
    ensures Advance(c, f, a) == Advance(c, f, b)
    ensures EndWait(c, f, a, true) == EndWait(c, f, b, true)
    ensures EndWait(c, f, a, false) == EndWait(c, f, b, false)
  {
    hide OnMessage, OnApproval, OnEntry, OnReply, OnReturn, OnError, NextMessage;
  }

  /** A message beyond the first untaken one of its channel is not the next. */
  lemma {:induction false} LaterIsNotNext(c: Config, f: Flow, arrived: seq<Signal>, ch: string, k: nat)
    requires TakenOn(f, ch) <= k < |On(arrived, ch)|
    requires WaitsOn(c, f) == Some(ch) ==> TakenOn(f, ch) < k
    ensures NextMessage(c, f, Without(arrived, ch, k)) == NextMessage(c, f, arrived)
  {
    hide On, Without;
    if WaitsOn(c, f).Some? { WithoutIsExact(arrived, ch, k, WaitsOn(c, f).value); }
  }

  /** A move that leaves the message untaken does not depend on it. */
  lemma {:induction false} MoveIgnores(c: Config, f: Flow, arrived: seq<Signal>, ch: string, k: nat)
    requires TakenOn(Advance(c, f, arrived), ch) <= k < |On(arrived, ch)|
    ensures TakenOn(f, ch) <= k
    ensures Advance(c, f, Without(arrived, ch, k)) == Advance(c, f, arrived)
  {
    hide Advance, On, Without;
    AdvanceTakes(c, f, arrived);
    var taken, takes := SignalsOf(f.log.taken), Takes(c, f, arrived);
    OnAppend(taken, takes, ch);
    assert TakenOn(f, ch) <= k;
    if WaitsOn(c, f) == Some(ch) {
      assert NextMessage(c, f, arrived).Some?;
      OnSnoc([], takes[0], ch);
      assert [] + [takes[0]] == takes;
    }
    LaterIsNotNext(c, f, arrived, ch, k);
    SameMessageSameAdvance(c, f, arrived, Without(arrived, ch, k));
  }

  /** A wait that ends has an empty channel, with or without a message that is elsewhere. */
  lemma {:induction false} EndIgnores(c: Config, f: Flow, arrived: seq<Signal>, timer: bool, ch: string, k: nat)
    requires TakenOn(f, ch) <= k < |On(arrived, ch)|
    requires NextMessage(c, f, arrived).None?
    ensures EndWait(c, f, Without(arrived, ch, k), timer) == EndWait(c, f, arrived, timer)
  {
    hide EndWait, On, Without;
    LaterIsNotNext(c, f, arrived, ch, k);
    SameMessageSameAdvance(c, f, arrived, Without(arrived, ch, k));
  }

  // ---------------------------------------------------------------- a whole run without the message

  /** A run that has not taken a message is the run in which it never arrived. Timers that found it waiting, and so did
      nothing, are left out with it. */
  lemma {:induction false} UntakenNeverArrived(c: Config, d: Option<Data>, own: seq<Event>, ch: string, k: nat)
    returns (less: seq<Event>)
    requires TakenOn(Run(c, d, own).flow, ch) <= k < |On(Run(c, d, own).arrived, ch)|
    ensures var s := Run(c, d, own); Run(c, d, less) == s.(arrived := Without(s.arrived, ch, k))
    ensures Subsequence(less, own)
    decreases |own|, 0
  {
    hide Advance, EndWait, Start, TakenOn, NextMessage, Subsequence;
    assert |own| > 0;
    var before, e := own[..|own| - 1], own[|own| - 1];
    var s := Run(c, d, before);
    assert own == before + [e];
    match e {
      case Arrive(signal) =>
        OnSnoc(s.arrived, signal, ch);
        WithoutSnoc(s.arrived, signal, ch, k);
        if signal.channel == ch && |On(s.arrived, ch)| == k {
          less := before;
          SubsequenceIsReflexive(before);
          SubsequenceSnoc(before, before, e);
          return;
        }
        less := UntakenNeverArrived(c, d, before, ch, k);
        RunSnoc(c, d, less, e);
        SubsequenceSnoc(less, before, e);
        less := less + [e];
      case Tick =>
        MoveIgnores(c, s.flow, s.arrived, ch, k);
        less := UntakenNeverArrived(c, d, before, ch, k);
        RunSnoc(c, d, less, e);
        SubsequenceSnoc(less, before, e);
        less := less + [e];
      case Expire => less := TimerNeverFired(c, d, before, e, true, ch, k);
      case Interrupt => less := TimerNeverFired(c, d, before, e, false, ch, k);
    }
  }

  lemma {:induction false} TimerNeverFired(
    c: Config, d: Option<Data>, before: seq<Event>, e: Event, timer: bool, ch: string, k: nat)
    returns (less: seq<Event>)
    requires e == if timer then Expire else Interrupt
    requires var s := Run(c, d, before);
             TakenOn(EndWait(c, s.flow, s.arrived, timer), ch) <= k < |On(s.arrived, ch)|
    ensures var s := Run(c, d, before);
            Run(c, d, less) == System(EndWait(c, s.flow, s.arrived, timer), Without(s.arrived, ch, k))
    ensures Subsequence(less, before + [e])
    decreases |before|, 1
  {
    hide Run, EndWait, TakenOn, Subsequence;
    var s := Run(c, d, before);
    EndWaitTakesNothing(c, s.flow, s.arrived, timer);
    SameTaken(s.flow, EndWait(c, s.flow, s.arrived, timer), ch);
    less := UntakenNeverArrived(c, d, before, ch, k);
    SubsequenceSnoc(less, before, e);
    if NextMessage(c, s.flow, s.arrived).None? {
      EndIgnores(c, s.flow, s.arrived, timer, ch, k);
      RunSnoc(c, d, less, e);
      less := less + [e];
    } else {
      WaitGoesOn(c, s.flow, s.arrived, timer);
    }
  }

  lemma SameTaken(f: Flow, f': Flow, ch: string)
    requires f.log.taken == f'.log.taken
    ensures TakenOn(f, ch) == TakenOn(f', ch)
  {
  }

  lemma WaitGoesOn(c: Config, f: Flow, arrived: seq<Signal>, timer: bool)
    requires NextMessage(c, f, arrived).Some?
    ensures EndWait(c, f, arrived, timer) == f
  {
  }

  // ---------------------------------------------------------------- what it means

  function OwnEvents(turns: seq<Turn>): seq<Event> {
    if |turns| == 0 then []
    else
      var before := OwnEvents(turns[..|turns| - 1]);
      match turns[|turns| - 1]
      case Own(e) => before + [e]
      case Other(_) => before
  }

  /** A run that shares its channels is a run of its own in which the messages the others took never arrived: its own
      events, in their order, with some left out. So whatever holds of every run holds of it. */
  lemma {:induction false} SharedRunIsARun(c: Config, d: Option<Data>, turns: seq<Turn>) returns (own: seq<Event>)
    ensures Run(c, d, own) == Play(c, d, turns).system
    ensures Arrivals(own) == Play(c, d, turns).system.arrived
    ensures Subsequence(own, OwnEvents(turns))
    decreases |turns|
  {
    hide Step, Start, TakenOn;
    if |turns| == 0 {
      own := [];
    } else {
      var s := Play(c, d, turns[..|turns| - 1]);
      own := SharedRunIsARun(c, d, turns[..|turns| - 1]);
      match turns[|turns| - 1] {
        case Own(e) =>
          RunSnoc(c, d, own, e);
          SubsequenceSnoc(own, OwnEvents(turns[..|turns| - 1]), e);
          own := own + [e];
        case Other(ch) =>
          var k := TakenOn(s.system.flow, ch);
          if k < |On(s.system.arrived, ch)| {
            var all := own;
            own := UntakenNeverArrived(c, d, all, ch, k);
            SubsequenceIsTransitive(own, all, OwnEvents(turns[..|turns| - 1]));
          }
      }
    }
    RunArrived(c, d, own);
  }

  // ---------------------------------------------------------------- what became of the messages

  /** Of the messages of a channel, those up to the first untaken one interleave the `k` the engine took and those it
      lost; the others are still buffered. */
  ghost predicate Dealt(all: seq<Payload>, mine: seq<Payload>, lost: seq<Payload>, k: nat) {
    && k <= |mine|
    && |all| == |mine| + |lost|
    && Interleaves([mine[..k], lost], all[..k + |lost|])
    && all[k + |lost|..] == mine[k..]
  }

  lemma ArrivingDeals(all: seq<Payload>, mine: seq<Payload>, lost: seq<Payload>, k: nat, p: Payload)
    requires Dealt(all, mine, lost, k)
    ensures Dealt(all + [p], mine + [p], lost, k)
  {
    hide Interleaves;
    assert (mine + [p])[..k] == mine[..k] && (all + [p])[..k + |lost|] == all[..k + |lost|];
    assert (all + [p])[k + |lost|..] == all[k + |lost|..] + [p];
  }

  lemma TakingDeals(all: seq<Payload>, mine: seq<Payload>, lost: seq<Payload>, k: nat)
    requires Dealt(all, mine, lost, k) && k < |mine|
    ensures Dealt(all, mine, lost, k + 1)
  {
    hide Interleaves;
    InterleaveSnoc([mine[..k], lost], all[..k + |lost|], 0, mine[k]);
    assert all[k + |lost|] == all[k + |lost|..][0] == mine[k];
    assert mine[..k] + [mine[k]] == mine[..k + 1];
    assert [mine[..k], lost][0 := mine[..k] + [mine[k]]] == [mine[..k + 1], lost];
    assert all[..k + |lost|] + [mine[k]] == all[..k + 1 + |lost|];
  }

  lemma LosingDeals(all: seq<Payload>, mine: seq<Payload>, lost: seq<Payload>, k: nat)
    requires Dealt(all, mine, lost, k) && k < |mine|
    ensures Dealt(all, mine[..k] + mine[k + 1..], lost + [mine[k]], k)
  {
    hide Interleaves;
    var mine' := mine[..k] + mine[k + 1..];
    InterleaveSnoc([mine[..k], lost], all[..k + |lost|], 1, mine[k]);
    assert all[k + |lost|] == all[k + |lost|..][0] == mine[k];
    assert [mine[..k], lost][1 := lost + [mine[k]]] == [mine'[..k], lost + [mine[k]]];
    assert all[..k + |lost|] + [mine[k]] == all[..k + |lost + [mine[k]]|];
  }

  lemma {:induction false} DealtInterleaves(all: seq<Payload>, mine: seq<Payload>, lost: seq<Payload>, k: nat)
    requires Dealt(all, mine, lost, k)
    ensures Interleaves([mine, lost], all)
    decreases |mine| - k
  {
    hide Interleaves;
    if k < |mine| {
      TakingDeals(all, mine, lost, k);
      DealtInterleaves(all, mine, lost, k + 1);
    } else {
      assert mine[..k] == mine && all[..k + |lost|] == all;
    }
  }

  ghost predicate Shares(sent: seq<Signal>, s: Shared, ch: string) {
    Dealt(On(sent, ch), On(s.system.arrived, ch), On(s.lost, ch), TakenOn(s.system.flow, ch))
  }

  lemma MovingShares(sent: seq<Signal>, s: Shared, c: Config, ch: string)
    requires Shares(sent, s, ch)
    ensures Shares(sent, s.(system := Step(c, s.system, Tick)), ch)
  {
    hide Advance, On, Dealt;
    var f, arrived := s.system.flow, s.system.arrived;
    var taken, takes := SignalsOf(f.log.taken), Takes(c, f, arrived);
    AdvanceTakes(c, f, arrived);
    if takes != [] {
      var sig := takes[0];
      assert takes == [sig];
      OnSnoc(taken, sig, ch);
      if sig.channel == ch { TakingDeals(On(sent, ch), On(arrived, ch), On(s.lost, ch), TakenOn(f, ch)); }
    } else {
      assert taken + [] == taken;
    }
  }

  lemma SendingShares(sent: seq<Signal>, s: Shared, e: Event, c: Config, ch: string)
    requires Shares(sent, s, ch)
    ensures Shares(if e.Arrive? then sent + [e.signal] else sent, s.(system := Step(c, s.system, e)), ch)
  {
    hide Advance, EndWait, On, Dealt;
    match e
    case Arrive(signal) =>
      OnSnoc(sent, signal, ch);
      OnSnoc(s.system.arrived, signal, ch);
      if signal.channel == ch {
        ArrivingDeals(On(sent, ch), On(s.system.arrived, ch), On(s.lost, ch), TakenOn(s.system.flow, ch),
                      signal.payload);
      } else {
        assert On(sent, ch) + [] == On(sent, ch) && On(s.system.arrived, ch) + [] == On(s.system.arrived, ch);
      }
    case Tick => MovingShares(sent, s, c, ch);
    case Expire => EndWaitTakesNothing(c, s.system.flow, s.system.arrived, true);
    case Interrupt => EndWaitTakesNothing(c, s.system.flow, s.system.arrived, false);
  }

  lemma LosingShares(sent: seq<Signal>, s: Shared, other: string, ch: string)
    requires Shares(sent, s, ch)
    ensures Shares(sent, Lose(s, other), ch)
  {
    hide On, TakenOn, Without, Dealt;
    var arrived := s.system.arrived;
    var k := TakenOn(s.system.flow, other);
    if k < |On(arrived, other)| {
      WithoutIsExact(arrived, other, k, ch);
      OnSnoc(s.lost, Signal(other, On(arrived, other)[k]), ch);
      if other == ch {
        LosingDeals(On(sent, ch), On(arrived, ch), On(s.lost, ch), k);
      } else {
        assert On(s.lost, ch) + [] == On(s.lost, ch);
      }
    }
  }

  lemma {:induction false} EveryoneShares(c: Config, d: Option<Data>, turns: seq<Turn>, ch: string)
    ensures Shares(SentIn(turns), Play(c, d, turns), ch)
    decreases |turns|
  {
    if |turns| > 0 {
      hide Lose, Step, Shares;
      var before := turns[..|turns| - 1];
      EveryoneShares(c, d, before, ch);
      match turns[|turns| - 1]
      case Own(e) => SendingShares(SentIn(before), Play(c, d, before), e, c, ch);
      case Other(other) => LosingShares(SentIn(before), Play(c, d, before), other, ch);
    }
  }

  /** On every channel, the messages sent are an interleaving of those in the run's own history and those the other
      consumers took, each in the order they were taken. */
  lemma {:induction false} NothingVanishes(c: Config, d: Option<Data>, turns: seq<Turn>, ch: string)
    ensures var s := Play(c, d, turns);
            Interleaves([On(s.system.arrived, ch), On(s.lost, ch)], On(SentIn(turns), ch))
  {
    hide Play, On, Dealt;
    EveryoneShares(c, d, turns, ch);
    var s := Play(c, d, turns);
    DealtInterleaves(On(SentIn(turns), ch), On(s.system.arrived, ch), On(s.lost, ch), TakenOn(s.system.flow, ch));
  }

  /** Another consumer's take from a channel with an untaken message takes the oldest one from the run's history and
      leaves the run and the other channels alone; from an empty channel it takes nothing. */
  lemma {:induction false} OthersTakeTheHead(c: Config, d: Option<Data>, turns: seq<Turn>, ch: string, other: string)
    ensures var s, s' := Play(c, d, turns), Play(c, d, turns + [Other(ch)]);
            var k := |On(SignalsOf(s.system.flow.log.taken), ch)|;
            var queue, queue' := On(s.system.arrived, other), On(s'.system.arrived, other);
            && s'.system.flow == s.system.flow
            && (if k < |On(s.system.arrived, ch)|
                then && s'.lost == s.lost + [Signal(ch, On(s.system.arrived, ch)[k])]
                     && queue' == if other == ch then queue[..k] + queue[k + 1..] else queue
                else s' == s)
  {
    hide Without, On;
    assert (turns + [Other(ch)])[..|turns|] == turns;
    var s := Play(c, d, turns);
    hide Play;
    if TakenOn(s.system.flow, ch) < |On(s.system.arrived, ch)| {
      WithoutIsExact(s.system.arrived, ch, TakenOn(s.system.flow, ch), other);
    }
  }
}
