/** Signals, the order in which they reach a channel, and the events a parked workflow can observe. */
module Signals {
  import opened Basics

  type JsonValue(==, !new)

  /** A decoded signal argument: raw JSON, plain bytes, or any other value. */
  datatype Payload = RawMessage(bytes: string) | ByteSlice(bytes: string) | Value(value: JsonValue)

  datatype Signal = Signal(channel: string, payload: Payload)

  /** Arrive: an operator's signal is buffered. Tick: the workflow runs to its next blocking point, an activity
      in flight included. Expire: a wait timer fires. Interrupt: a wait is ended by cancellation. */
  datatype Event = Arrive(signal: Signal) | Tick | Expire | Interrupt

  /** The payloads of one channel, oldest first. */
  function On(signals: seq<Signal>, channel: string): seq<Payload> {
    if |signals| == 0 then []
    else
      var last := signals[|signals| - 1];
      On(signals[..|signals| - 1], channel) + if last.channel == channel then [last.payload] else []
  }

  function Arrivals(events: seq<Event>): seq<Signal> {
    if |events| == 0 then []
    else
      var last := events[|events| - 1];
      var before := Arrivals(events[..|events| - 1]);
      if last.Arrive? then before + [last.signal] else before
  }

  lemma {:induction false} OnSnoc(signals: seq<Signal>, s: Signal, channel: string)
    ensures On(signals + [s], channel) == On(signals, channel) + if s.channel == channel then [s.payload] else []
  {
    assert (signals + [s])[..|signals|] == signals;
  }

  lemma {:induction false} NothingOn(ch: string)
    ensures On([], ch) == []
  {
  }

  lemma {:induction false} OnAppend(a: seq<Signal>, b: seq<Signal>, ch: string)
    ensures On(a + b, ch) == On(a, ch) + On(b, ch)
    decreases |b|
  {
    hide On;
    if |b| == 0 {
      NothingOn(ch);
      assert a + b == a && b == [];
    } else {
      var b', s := b[..|b| - 1], b[|b| - 1];
      OnAppend(a, b', ch);
      OnSnoc(a + b', s, ch);
      OnSnoc(b', s, ch);
      assert a + b == (a + b') + [s] && b == b' + [s];
    }
  }

  lemma {:induction false} ArrivalsSnoc(events: seq<Event>, e: Event)
    ensures Arrivals(events + [e]) == if e.Arrive? then Arrivals(events) + [e.signal] else Arrivals(events)
  {
    assert (events + [e])[..|events|] == events;
  }

  lemma {:induction false} ArrivalsAppend(a: seq<Event>, b: seq<Event>)
    ensures Arrivals(a + b) == Arrivals(a) + Arrivals(b)
    decreases |b|
  {
    if b == [] {
      assert a + b == a;
    } else {
      var b' := b[..|b| - 1];
      ArrivalsAppend(a, b');
      ArrivalsSnoc(a + b', b[|b| - 1]);
      assert a + b == (a + b') + [b[|b| - 1]];
    }
  }

  /** Every channel of `few` holds the first messages of the same channel of `many`. */
  ghost predicate ChannelPrefix(few: seq<Signal>, many: seq<Signal>) {
    forall ch :: On(few, ch) <= On(many, ch)
  }

  /** The oldest message of a channel that has not been taken. */
  function Head(arrived: seq<Signal>, taken: seq<Signal>, channel: string): Option<Payload> {
    var n := |On(taken, channel)|;
    if n < |On(arrived, channel)| then Some(On(arrived, channel)[n]) else None
  }

  /** The messages of a channel still buffered. */
  function Queued(arrived: seq<Signal>, taken: seq<Signal>, channel: string): seq<Payload> {
    var n := |On(taken, channel)|;
    if n <= |On(arrived, channel)| then On(arrived, channel)[n..] else []
  }

  /** What has been taken from a channel followed by what is still buffered is what arrived, in order. */
  ghost predicate Conserved(arrived: seq<Signal>, taken: seq<Signal>) {
    forall ch :: On(taken, ch) + Queued(arrived, taken, ch) == On(arrived, ch)
  }

  lemma ArrivingConserves(arrived: seq<Signal>, taken: seq<Signal>, s: Signal)
    requires Conserved(arrived, taken)
    ensures Conserved(arrived + [s], taken)
    ensures forall ch :: Queued(arrived + [s], taken, ch)
                         == Queued(arrived, taken, ch) + if s.channel == ch then [s.payload] else []
  {
    forall ch
      ensures On(taken, ch) + Queued(arrived + [s], taken, ch) == On(arrived + [s], ch)
      ensures Queued(arrived + [s], taken, ch)
              == Queued(arrived, taken, ch) + if s.channel == ch then [s.payload] else []
    {
      assert On(taken, ch) + Queued(arrived, taken, ch) == On(arrived, ch);
      OnSnoc(arrived, s, ch);
    }
  }

  lemma {:induction false} TakingHead(arrived: seq<Signal>, taken: seq<Signal>, channel: string, p: Payload, ch: string)
    requires On(taken, ch) + Queued(arrived, taken, ch) == On(arrived, ch)
    requires Head(arrived, taken, channel) == Some(p)
    ensures var taken' := taken + [Signal(channel, p)];
            && On(taken', ch) + Queued(arrived, taken', ch) == On(arrived, ch)
            && Queued(arrived, taken, ch) == (if ch == channel then [p] else []) + Queued(arrived, taken', ch)
  {
    OnSnoc(taken, Signal(channel, p), ch);
    hide On;
    if ch == channel { HeadOfSplit(On(taken, ch), On(arrived, ch), p); }
  }

  lemma HeadOfSplit<T>(taken: seq<T>, all: seq<T>, p: T)
    requires |taken| < |all| && all[|taken|] == p && taken + all[|taken|..] == all
    ensures all[|taken|..] == [p] + all[|taken| + 1..]
    ensures (taken + [p]) + all[|taken| + 1..] == all
  {
  }

  lemma TakingHeadConserves(arrived: seq<Signal>, taken: seq<Signal>, channel: string, p: Payload)
    requires Conserved(arrived, taken)
    requires Head(arrived, taken, channel) == Some(p)
    ensures Conserved(arrived, taken + [Signal(channel, p)])
  {
    forall ch
      ensures On(taken + [Signal(channel, p)], ch) + Queued(arrived, taken + [Signal(channel, p)], ch)
              == On(arrived, ch)
    {
      assert On(taken, ch) + Queued(arrived, taken, ch) == On(arrived, ch);
      TakingHead(arrived, taken, channel, p, ch);
    }
  }

  lemma PrefixKeepsHead(few: seq<Signal>, many: seq<Signal>, taken: seq<Signal>, channel: string)
    requires ChannelPrefix(few, many)
    requires Head(few, taken, channel).Some?
    ensures Head(many, taken, channel) == Head(few, taken, channel)
  {
    assert On(few, channel) <= On(many, channel);
  }
}
