/** Waits and listeners that share signal channels: how each takes messages, and that together they partition them. */
module Listeners {
  import opened Basics
  import opened Signals
  import opened Channels

  /** A destination pointer a received value is written to. */
  class Slot {
    var value: Payload
    constructor (value: Payload) ensures this.value == value { this.value := value; }
  }

  // ---------------------------------------------------------------- one receiver

  /** A blocking receive: the oldest message of the channel not yet taken, or none if none ever comes. */
  method Receive(ctx: Context, channel: string) returns (p: Option<Payload>)
    requires ctx.Valid()
    modifies ctx
    ensures ctx.Valid() && |ctx.script| <= old(|ctx.script|)
    ensures p == Head(Arrivals(ctx.events), old(ctx.taken), channel)
    ensures ctx.taken == if p.Some? then old(ctx.taken) + [Signal(channel, p.value)] else old(ctx.taken)
    ensures p.None? ==> ctx.script == []
    ensures p.Some? && |ctx.script| == old(|ctx.script|) ==>
              old(ctx.Buffered(channel)) == [p.value] + ctx.Buffered(channel)
  {
    hide Context.Valid, Head, Arrivals, On;
    while true
      invariant ctx.Valid() && ctx.taken == old(ctx.taken) && |ctx.script| <= old(|ctx.script|)
      invariant |ctx.script| == old(|ctx.script|) ==> ctx.Buffered(channel) == old(ctx.Buffered(channel))
      decreases |ctx.script|
    {
      p := ctx.ReceiveAsync(channel);
      if p.Some? || ctx.script == [] { return; }
      var _ := ctx.Observe();
    }
  }

  datatype Waited = Received | TimedOut | Cancelled | StillWaiting

  /** Nothing in these events ends a wait. */
  ghost predicate Uneventful(events: seq<Event>) { forall e :: e in events ==> !e.Expire? && !e.Interrupt? }

  lemma OneMore(events: seq<Event>, e: Event)
    ensures Uneventful([])
    ensures Uneventful(events) && !e.Expire? && !e.Interrupt? ==> Uneventful(events + [e])
    ensures (events + [e])[..|events + [e]| - 1] == events
  {
  }

  /** WaitForSignal: a message wins over the timer; only a received message is taken and written. The first timer or
      cancellation seen with the channel empty ends the wait, each with its own outcome. */
  method WaitForSignal(ctx: Context, channel: string, slot: Slot) returns (r: Waited)
    requires ctx.Valid()
    modifies ctx, slot
    ensures ctx.Valid() && old(ctx.events) <= ctx.events
    ensures r.Received? ==> && Head(Arrivals(ctx.events), old(ctx.taken), channel) == Some(slot.value)
                            && ctx.taken == old(ctx.taken) + [Signal(channel, slot.value)]
    ensures !r.Received? ==> && Head(Arrivals(ctx.events), old(ctx.taken), channel).None?
                             && ctx.taken == old(ctx.taken) && slot.value == old(slot.value)
    ensures var seen := ctx.events[|old(ctx.events)|..];
            match r
            case Received => Uneventful(seen)
            case StillWaiting => Uneventful(seen) && ctx.script == []
            case TimedOut => |seen| > 0 && seen[|seen| - 1] == Expire && Uneventful(seen[..|seen| - 1])
            case Cancelled => |seen| > 0 && seen[|seen| - 1] == Interrupt && Uneventful(seen[..|seen| - 1])
  {
    hide Context.Valid, Head, Arrivals, On, Uneventful;
    ghost var seen: seq<Event> := [];
    OneMore(seen, Tick);
    while true
      invariant ctx.Valid() && ctx.taken == old(ctx.taken) && slot.value == old(slot.value)
      invariant ctx.events == old(ctx.events) + seen && Uneventful(seen)
      decreases |ctx.script|
    {
      assert ctx.events[|old(ctx.events)|..] == seen;
      var p := ctx.ReceiveAsync(channel);
      if p.Some? { slot.value := p.value; return Received; }
      if ctx.script == [] { return StillWaiting; }
      ghost var before := ctx.events;
      var e := ctx.Observe();
      ArrivalsSnoc(before, e);
      OneMore(seen, e);
      assert ctx.events[|old(ctx.events)|..] == seen + [e];
      match e {
        case Expire => return TimedOut;
        case Interrupt => return Cancelled;
        case _ => seen := seen + [e];
      }
    }
  }

  /** WaitForAnySignal: one message of one of the channels is taken, and only the destination registered for the
      returned name is written. Which ready channel wins is open, as the order of a map is. */
  method WaitForAnySignal(ctx: Context, signals: map<string, Slot>) returns (name: Option<string>)
    requires ctx.Valid()
    modifies ctx, signals.Values
    ensures ctx.Valid()
    ensures name.Some? ==>
              && name.value in signals
              && var slot := signals[name.value];
              && Head(Arrivals(ctx.events), old(ctx.taken), name.value) == Some(slot.value)
              && ctx.taken == old(ctx.taken) + [Signal(name.value, slot.value)]
              && forall s :: s in signals.Values && s != slot ==> s.value == old(s.value)
    ensures name.None? ==>
              && ctx.script == [] && ctx.taken == old(ctx.taken)
              && (forall n :: n in signals ==> Head(Arrivals(ctx.events), ctx.taken, n).None?)
              && (forall s :: s in signals.Values ==> s.value == old(s.value))
  {
    hide Context.Valid, Arrivals, On, Head;
    while true
      invariant ctx.Valid() && ctx.taken == old(ctx.taken)
      invariant forall s :: s in signals.Values ==> s.value == old(s.value)
      decreases |ctx.script|
    {
      var ready := set n | n in signals && ctx.Buffered(n) != [];
      BufferedIsHead(ctx, signals.Keys);
      if ready != {} {
        var n :| n in ready;
        var p := ctx.ReceiveAsync(n);
        signals[n].value := p.value;
        return Some(n);
      }
      forall n | n in signals ensures ctx.Buffered(n) == [] { assert n !in ready; }
      if ctx.script == [] { return None; }
      var _ := ctx.Observe();
    }
  }

  lemma BufferedIsHead(ctx: Context, names: set<string>)
    requires ctx.Valid()
    ensures forall n :: n in names ==> (ctx.Buffered(n) != [] <==> Head(Arrivals(ctx.events), ctx.taken, n).Some?)
  {
    forall n | n in names
      ensures ctx.Buffered(n) != [] <==> Head(Arrivals(ctx.events), ctx.taken, n).Some?
    {
      assert On(ctx.taken, n) + Queued(Arrivals(ctx.events), ctx.taken, n) == On(Arrivals(ctx.events), n);
      assert ctx.Buffered(n) == Queued(Arrivals(ctx.events), ctx.taken, n);
    }
  }

  function Failures(handler: Payload -> bool, ps: seq<Payload>): nat {
    if |ps| == 0 then 0
    else Failures(handler, ps[..|ps| - 1]) + if handler(ps[|ps| - 1]) then 0 else 1
  }

  /** ListenSignal and runAsync, the loop run until nothing more comes: every message of the channel is handled, in
      order; a handler error is logged and drops nothing. */
  method ListenSignal(ctx: Context, channel: string, slot: Slot, handler: Payload -> bool)
    returns (handled: seq<Payload>, failures: nat)
    requires ctx.Valid()
    modifies ctx, slot
    ensures ctx.Valid() && ctx.script == []
    ensures On(old(ctx.taken), channel) + handled == On(Arrivals(ctx.events), channel)
    ensures On(ctx.taken, channel) == On(Arrivals(ctx.events), channel)
    ensures forall ch :: ch != channel ==> On(ctx.taken, ch) == On(old(ctx.taken), ch)
    ensures failures == Failures(handler, handled)
    ensures handled != [] ==> slot.value == handled[|handled| - 1]
  {
    hide Context.Valid, Arrivals, Head, Conserved, Queued, On, Failures;
    FailuresOfNone(handler);
    handled, failures := [], 0;
    while true
      invariant ctx.Valid()
      invariant On(ctx.taken, channel) == On(old(ctx.taken), channel) + handled
      invariant forall ch :: ch != channel ==> On(ctx.taken, ch) == On(old(ctx.taken), ch)
      invariant failures == Failures(handler, handled)
      invariant handled != [] ==> slot.value == handled[|handled| - 1]
      decreases |ctx.script|, |ctx.Buffered(channel)|
    {
      ghost var taken := ctx.taken;
      var p := Receive(ctx, channel);
      if p.None? { AllTaken(ctx, channel); return; }
      slot.value := p.value;
      if !handler(p.value) { failures := failures + 1; }
      FailuresSnoc(handler, handled, p.value);
      OnlyOneChannelGrows(taken, Signal(channel, p.value));
      handled := handled + [p.value];
    }
  }

  lemma FailuresOfNone(handler: Payload -> bool)
    ensures Failures(handler, []) == 0
  {
  }

  lemma {:induction false} OnlyOneChannelGrows(ss: seq<Signal>, s: Signal)
    ensures On(ss + [s], s.channel) == On(ss, s.channel) + [s.payload]
    ensures forall ch :: ch != s.channel ==> On(ss + [s], ch) == On(ss, ch)
  {
    assert (ss + [s])[..|ss|] == ss;
  }

  lemma {:induction false} FailuresSnoc(handler: Payload -> bool, ps: seq<Payload>, p: Payload)
    ensures Failures(handler, ps + [p]) == Failures(handler, ps) + if handler(p) then 0 else 1
  {
    assert (ps + [p])[..|ps|] == ps;
  }

  lemma {:induction false} AllTaken(ctx: Context, channel: string)
    requires ctx.Valid() && Head(Arrivals(ctx.events), ctx.taken, channel).None?
    ensures On(ctx.taken, channel) == On(Arrivals(ctx.events), channel)
  {
    assert On(ctx.taken, channel) + Queued(Arrivals(ctx.events), ctx.taken, channel)
           == On(Arrivals(ctx.events), channel);
  }

  // ---------------------------------------------------------------- competing receivers

  /** A signal is sent, or a consumer takes the oldest message of a channel it listens on. A take from an empty channel
      does not happen. */
  datatype Turn = Sent(signal: Signal) | Take(consumer: nat, channel: string)

  /** What was sent, what was taken overall and by each consumer, in order. */
  datatype Hub = Hub(sent: seq<Signal>, taken: seq<Signal>, got: seq<seq<Signal>>)

  /** `subs[i]` are the channels consumer i listens on: one for a listener, several for WaitForAnySignal. */
  function Next(subs: seq<set<string>>, h: Hub, t: Turn): Hub {
    match t
    case Sent(signal) => h.(sent := h.sent + [signal])
    case Take(i, ch) =>
      var p := Head(h.sent, h.taken, ch);
      if i < |subs| && i < |h.got| && ch in subs[i] && p.Some? then
        var s := Signal(ch, p.value);
        h.(taken := h.taken + [s], got := h.got[i := h.got[i] + [s]])
      else h
  }

  function Serve(subs: seq<set<string>>, turns: seq<Turn>): Hub {
    if |turns| == 0 then Hub([], [], seq(|subs|, _ => []))
    else Next(subs, Serve(subs, turns[..|turns| - 1]), turns[|turns| - 1])
  }

  ghost predicate HubInv(subs: seq<set<string>>, h: Hub) {
    && |h.got| == |subs|
    && Conserved(h.sent, h.taken)
    && Interleaves(h.got, h.taken)
    && forall i :: 0 <= i < |h.got| ==> Within(h.got[i], subs[i])
  }

  ghost predicate Within(ss: seq<Signal>, channels: set<string>) { forall s :: s in ss ==> s.channel in channels }

  lemma NextKeepsHub(subs: seq<set<string>>, h: Hub, t: Turn)
    requires HubInv(subs, h)
    ensures HubInv(subs, Next(subs, h, t))
  {
    hide Conserved, Interleaves, Head;
    match t
    case Sent(signal) => ArrivingConserves(h.sent, h.taken, signal);
    case Take(i, ch) =>
      var p := Head(h.sent, h.taken, ch);
      if i < |subs| && ch in subs[i] && p.Some? {
        TakingHeadConserves(h.sent, h.taken, ch, p.value);
        InterleaveSnoc(h.got, h.taken, i, Signal(ch, p.value));
      }
  }

  /** Any number of listeners and waits on the same names partition the messages: every channel loses its messages in
      order and none is lost or taken twice. */
  lemma {:induction false} ConsumersPartition(subs: seq<set<string>>, turns: seq<Turn>)
    ensures var h := Serve(subs, turns);
            && (forall ch :: On(h.taken, ch) <= On(h.sent, ch))
            && HubInv(subs, h)
    decreases |turns|
  {
    var h := Serve(subs, turns);
    if |turns| > 0 {
      ConsumersPartition(subs, turns[..|turns| - 1]);
      NextKeepsHub(subs, Serve(subs, turns[..|turns| - 1]), turns[|turns| - 1]);
    }
    forall ch ensures On(h.taken, ch) <= On(h.sent, ch) {
      assert On(h.taken, ch) + Queued(h.sent, h.taken, ch) == On(h.sent, ch);
    }
  }

  // ---------------------------------------------------------------- every take is served

  predicate Listens(subs: seq<set<string>>, i: nat, ch: string) { i < |subs| && ch in subs[i] }

  lemma {:induction false} ServeSnoc(subs: seq<set<string>>, turns: seq<Turn>, t: Turn)
    ensures Serve(subs, turns + [t]) == Next(subs, Serve(subs, turns), t)
  {
    assert (turns + [t])[..|turns|] == turns;
  }

  /** A consumer that takes from a channel it listens on gets the oldest message nobody has taken, whoever it is, and
      nothing else changes. Where there is none, or it does not listen, nothing changes at all. */
  lemma {:induction false} EveryTakeIsServed(subs: seq<set<string>>, turns: seq<Turn>, i: nat, ch: string)
    ensures var h, h' := Serve(subs, turns), Serve(subs, turns + [Take(i, ch)]);
            var n := |On(h.taken, ch)|;
            if Listens(subs, i, ch) && n < |On(h.sent, ch)| then
              var s := Signal(ch, On(h.sent, ch)[n]);
              && h'.sent == h.sent && h'.taken == h.taken + [s]
              && |h'.got| == |h.got| == |subs| && h'.got[i] == h.got[i] + [s]
              && forall j :: 0 <= j < |subs| && j != i ==> h'.got[j] == h.got[j]
            else h' == h
  {
    hide On, Interleaves, Conserved;
    ServeSnoc(subs, turns, Take(i, ch));
    ConsumersPartition(subs, turns);
  }

  /** A signal that is sent is queued behind those sent before it, and nobody gets it by that. */
  lemma {:induction false} EverySendIsKept(subs: seq<set<string>>, turns: seq<Turn>, s: Signal)
    ensures var h, h' := Serve(subs, turns), Serve(subs, turns + [Sent(s)]);
            h'.sent == h.sent + [s] && h'.taken == h.taken && h'.got == h.got
  {
    ServeSnoc(subs, turns, Sent(s));
  }

  /** Signals sent on a channel minus takes from it by consumers that listen on it. */
  function Surplus(subs: seq<set<string>>, turns: seq<Turn>, ch: string): int {
    if |turns| == 0 then 0
    else
      Surplus(subs, turns[..|turns| - 1], ch)
      + match turns[|turns| - 1]
        case Sent(s) => if s.channel == ch then 1 else 0
        case Take(i, from) => if from == ch && Listens(subs, i, from) then -1 else 0
  }

  /** From no point on were there more than `n` signals more than takes. */
  ghost predicate KeptUp(subs: seq<set<string>>, turns: seq<Turn>, ch: string, n: int) {
    forall k :: 0 <= k <= |turns| ==> Surplus(subs, turns[k..], ch) <= n
  }

  function Waiting(subs: seq<set<string>>, turns: seq<Turn>, ch: string): int {
    |On(Serve(subs, turns).sent, ch)| - |On(Serve(subs, turns).taken, ch)|
  }

  lemma {:induction false} SurplusSnoc(subs: seq<set<string>>, turns: seq<Turn>, t: Turn, ch: string)
    ensures Surplus(subs, turns + [t], ch) == Surplus(subs, turns, ch) + Surplus(subs, [t], ch)
  {
    assert (turns + [t])[..|turns|] == turns && [t][..0] == [];
  }

  lemma {:induction false} KeptUpSnoc(subs: seq<set<string>>, turns: seq<Turn>, t: Turn, ch: string, n: int)
    ensures KeptUp(subs, turns + [t], ch, n) <==> 0 <= n && KeptUp(subs, turns, ch, n - Surplus(subs, [t], ch))
  {
    hide Surplus;
    var all, one := turns + [t], Surplus(subs, [t], ch);
    NoSurplus(subs, ch);
    assert all[|all|..] == [];
    forall k | 0 <= k <= |turns| ensures Surplus(subs, all[k..], ch) == Surplus(subs, turns[k..], ch) + one {
      assert all[k..] == turns[k..] + [t];
      SurplusSnoc(subs, turns[k..], t, ch);
    }
    if KeptUp(subs, all, ch, n) {
      assert Surplus(subs, all[|all|..], ch) <= n;
      forall k | 0 <= k <= |turns| ensures Surplus(subs, turns[k..], ch) <= n - one {
        assert Surplus(subs, all[k..], ch) <= n;
      }
    }
    if 0 <= n && KeptUp(subs, turns, ch, n - one) {
      forall k | 0 <= k <= |all| ensures Surplus(subs, all[k..], ch) <= n {
        if k <= |turns| { assert Surplus(subs, turns[k..], ch) <= n - one; }
      }
    }
  }

  lemma {:induction false} NoSurplus(subs: seq<set<string>>, ch: string)
    ensures Surplus(subs, [], ch) == 0
  {
  }

  lemma {:induction false} WaitingSnoc(subs: seq<set<string>>, turns: seq<Turn>, t: Turn, ch: string)
    ensures Waiting(subs, turns, ch) >= 0
    ensures var more := Waiting(subs, turns, ch) + Surplus(subs, [t], ch);
            Waiting(subs, turns + [t], ch) == if more < 0 then 0 else more
  {
    ConsumersPartition(subs, turns);
    var h := Serve(subs, turns);
    assert On(h.taken, ch) <= On(h.sent, ch);
    assert [t][..0] == [];
    hide Serve, Interleaves, Conserved;
    match t
    case Sent(s) =>
      EverySendIsKept(subs, turns, s);
      OnSnoc(h.sent, s, ch);
    case Take(i, from) =>
      EveryTakeIsServed(subs, turns, i, from);
      var n := |On(h.taken, from)|;
      if Listens(subs, i, from) && n < |On(h.sent, from)| {
        OnSnoc(h.taken, Signal(from, On(h.sent, from)[n]), ch);
      }
  }

  /** At most `n` messages of a channel wait if and only if from no point on more than `n` more signals were sent than
      takes followed. */
  lemma {:induction false} WaitingIsExact(subs: seq<set<string>>, turns: seq<Turn>, ch: string, n: int)
    ensures Waiting(subs, turns, ch) <= n <==> KeptUp(subs, turns, ch, n)
    decreases |turns|
  {
    hide KeptUp, Surplus, Waiting;
    if |turns| == 0 {
      NothingWaits(subs, ch, n);
    } else {
      var before, t := turns[..|turns| - 1], turns[|turns| - 1];
      assert turns == before + [t];
      WaitingSnoc(subs, before, t, ch);
      KeptUpSnoc(subs, before, t, ch, n);
      WaitingIsExact(subs, before, ch, n - Surplus(subs, [t], ch));
    }
  }

  lemma {:induction false} NothingWaits(subs: seq<set<string>>, ch: string, n: int)
    ensures Waiting(subs, [], ch) == 0
    ensures KeptUp(subs, [], ch, n) <==> 0 <= n
  {
    var none: seq<Turn> := [];
    assert none[0..] == none;
    assert KeptUp(subs, none, ch, n) ==> Surplus(subs, none[0..], ch) <= n;
  }

  /** Everything sent on a channel has been taken if and only if every signal was followed by enough takes: from no
      point on were there fewer takes than signals. */
  lemma {:induction false} AllTakenIsExact(subs: seq<set<string>>, turns: seq<Turn>, ch: string)
    ensures var h := Serve(subs, turns);
            On(h.taken, ch) == On(h.sent, ch) <==> KeptUp(subs, turns, ch, 0)
  {
    ConsumersPartition(subs, turns);
    var h := Serve(subs, turns);
    assert On(h.taken, ch) <= On(h.sent, ch);
    hide KeptUp, Serve, On, Interleaves, Conserved;
    WaitingIsExact(subs, turns, ch, 0);
  }

  function Occurrences(parts: seq<seq<Signal>>): multiset<Signal> {
    if |parts| == 0 then multiset{}
    else Occurrences(parts[..|parts| - 1]) + multiset(parts[|parts| - 1])
  }

  lemma {:induction false} OneMoreOccurrence(parts: seq<seq<Signal>>, i: nat, s: Signal)
    requires i < |parts|
    ensures Occurrences(parts[i := parts[i] + [s]]) == Occurrences(parts) + multiset{s}
    decreases |parts|
  {
    var last := |parts| - 1;
    var parts' := parts[i := parts[i] + [s]];
    if i == last {
      assert parts'[..last] == parts[..last];
    } else {
      OneMoreOccurrence(parts[..last], i, s);
      assert parts'[..last] == parts[..last][i := parts[i] + [s]];
    }
  }

  lemma PutBack(parts: seq<seq<Signal>>, i: nat)
    requires i < |parts| && |parts[i]| > 0
    ensures var less := parts[i := parts[i][..|parts[i]| - 1]];
            less[i := less[i] + [parts[i][|parts[i]| - 1]]] == parts
  {
    assert parts[i] == parts[i][..|parts[i]| - 1] + [parts[i][|parts[i]| - 1]];
  }

  lemma LastCounts(whole: seq<Signal>)
    requires |whole| > 0
    ensures multiset(whole) == multiset(whole[..|whole| - 1]) + multiset{whole[|whole| - 1]}
  {
    assert whole == whole[..|whole| - 1] + [whole[|whole| - 1]];
  }

  /** Each message taken went to exactly one consumer: the parts hold every taken message exactly as often as it was
      taken. */
  lemma {:induction false} EachTakenOnce(parts: seq<seq<Signal>>, whole: seq<Signal>)
    requires Interleaves(parts, whole)
    ensures Occurrences(parts) == multiset(whole)
    decreases |whole|
  {
    if |whole| == 0 {
      NothingOccurs(parts);
    } else {
      var i :| LastIsFrom(parts, whole, i)
               && Interleaves(parts[i := parts[i][..|parts[i]| - 1]], whole[..|whole| - 1]);
      hide Interleaves, Occurrences;
      var s, less := whole[|whole| - 1], parts[i := parts[i][..|parts[i]| - 1]];
      EachTakenOnce(less, whole[..|whole| - 1]);
      OneMoreOccurrence(less, i, s);
      PutBack(parts, i);
      LastCounts(whole);
    }
  }

  lemma {:induction false} NothingOccurs(parts: seq<seq<Signal>>)
    requires forall i :: 0 <= i < |parts| ==> parts[i] == []
    ensures Occurrences(parts) == multiset{}
    decreases |parts|
  {
    if |parts| > 0 { NothingOccurs(parts[..|parts| - 1]); }
  }
}
