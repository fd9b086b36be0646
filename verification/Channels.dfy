/** The signal channels of one workflow, fed by a script of what is still going to happen. */
module Channels {
  import opened Basics
  import opened Signals

  /** `events` is `seen` with Ticks inserted. */
  ghost predicate Padded(seen: seq<Event>, events: seq<Event>) {
    if |events| == 0 then seen == []
    else
      var before, last := events[..|events| - 1], events[|events| - 1];
      || (last == Tick && Padded(seen, before))
      || (|seen| > 0 && seen[|seen| - 1] == last && Padded(seen[..|seen| - 1], before))
  }

  lemma {:induction false} PaddedSnoc(seen: seq<Event>, events: seq<Event>, e: Event)
    requires Padded(seen, events)
    ensures Padded(seen + [e], events + [e])
    ensures Padded(seen, events + [Tick])
  {
    assert (events + [e])[..|events|] == events && (events + [Tick])[..|events|] == events;
    assert (seen + [e])[..|seen|] == seen;
  }

  /** So the signals that arrived are the signals of the observed script, in order. */
  lemma {:induction false} PaddedKeepsArrivals(seen: seq<Event>, events: seq<Event>)
    requires Padded(seen, events)
    ensures Arrivals(events) == Arrivals(seen)
    ensures |seen| <= |events|
    decreases |events|
  {
    if |events| > 0 {
      var before, last := events[..|events| - 1], events[|events| - 1];
      if last == Tick && Padded(seen, before) {
        PaddedKeepsArrivals(seen, before);
      } else {
        PaddedKeepsArrivals(seen[..|seen| - 1], before);
      }
    }
  }

  class Context {
    var script: seq<Event>                        // what the workflow has not observed yet, in order
    var channels: map<string, seq<Payload>>       // one FIFO queue per signal name

    ghost var events: seq<Event>                  // what has happened so far
    ghost var taken: seq<Signal>                  // the messages receivers took, in order
    ghost var seen: seq<Event>                    // the part of the script that has been observed
    ghost const story: seq<Event>                 // the whole script

    /** What happened is the observed part of the script with the workflow's own moves in between. Each queue holds
        what arrived on its channel and was not taken. */
    ghost predicate Valid()
      reads this
    {
      && seen + script == story
      && Padded(seen, events)
      && Conserved(Arrivals(events), taken)
      && forall ch :: Buffered(ch) == Queued(Arrivals(events), taken, ch)
    }

    function Buffered(channel: string): seq<Payload>
      reads this
    {
      if channel in channels then channels[channel] else []
    }

    constructor (script: seq<Event>)
      ensures Valid() && events == [] && taken == [] && this.script == script && story == script
    {
      this.script, this.channels := script, map[];
      this.events, this.taken, this.seen, this.story := [], [], [], script;
    }

    /** The next thing happens. A signal is appended to its queue; anything else leaves the queues alone. */
    method Observe() returns (e: Event)
      requires Valid() && script != []
      modifies this
      ensures Valid() && taken == old(taken)
      ensures e == old(script)[0] && script == old(script)[1..]
      ensures events == old(events) + [e]
    {
      hide Conserved, Queued, Arrivals, On, Padded;
      e := script[0];
      ArrivalsSnoc(events, e);
      PaddedSnoc(seen, events, e);
      match e {
        case Arrive(signal) =>
          ArrivingConserves(Arrivals(events), taken, signal);
          channels := channels[signal.channel := Buffered(signal.channel) + [signal.payload]];
        case _ =>
      }
      script, events, seen := script[1..], events + [e], seen + [e];
    }

    /** ReceiveAsync: take the oldest message of a channel if there is one. */
    method ReceiveAsync(channel: string) returns (p: Option<Payload>)
      requires Valid()
      modifies this
      ensures Valid() && events == old(events) && script == old(script)
      ensures p == Head(Arrivals(events), old(taken), channel)
      ensures taken == if p.Some? then old(taken) + [Signal(channel, p.value)] else old(taken)
      ensures forall ch :: ch != channel ==> Buffered(ch) == old(Buffered(ch))
      ensures old(Buffered(channel)) == (if p.Some? then [p.value] else []) + Buffered(channel)
    {
      assert On(taken, channel) + Queued(Arrivals(events), taken, channel) == On(Arrivals(events), channel);
      var queue := Buffered(channel);
      if queue == [] {
        p := None;
      } else {
        p := Some(queue[0]);
        TakingHeadConserves(Arrivals(events), taken, channel, queue[0]);
        forall ch
          ensures Queued(Arrivals(events), taken, ch)
                  == (if ch == channel then [queue[0]] else [])
                     + Queued(Arrivals(events), taken + [Signal(channel, queue[0])], ch)
        {
          assert On(taken, ch) + Queued(Arrivals(events), taken, ch) == On(Arrivals(events), ch);
          TakingHead(Arrivals(events), taken, channel, queue[0], ch);
        }
        channels := channels[channel := queue[1..]];
        taken := taken + [Signal(channel, queue[0])];
      }
    }

    /** The workflow runs on by itself to its next blocking point. */
    ghost method MoveOn()
      requires Valid()
      modifies this`events
      ensures Valid() && events == old(events) + [Tick] && Arrivals(events) == old(Arrivals(events))
    {
      hide Conserved, Queued, Arrivals, On, Padded;
      ArrivalsSnoc(events, Tick);
      PaddedSnoc(seen, events, Tick);
      events := events + [Tick];
    }
  }
}
