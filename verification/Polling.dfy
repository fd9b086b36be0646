/** QueryWorkflowData: a query repeated once per second until it succeeds or the context ends, then one decode. */
module Polling {
  import opened Basics
  import opened Signals
  import opened Machine
  import opened Engine

  /** What a query returned: an ExecutionData value or a JSON payload. */
  datatype Raw = Typed(cell: DataCell) | Json(value: JsonValue)

  datatype Answer = Failed | Nothing | Payload(raw: Raw)

  /** When the context ends, if it does. Times are in seconds. */
  datatype Lifetime = Lifetime(deadline: Option<real>, cancelled: Option<real>) {
    predicate Over(t: real) {
      (deadline.Some? && deadline.value <= t) || (cancelled.Some? && cancelled.value <= t)
    }
  }

  /** The k-th query: its answer, how long it takes, and how much later than a second its retry timer fires.
      When the context ends before that timer is observed, either case of the select may be taken. */
  datatype Client = Client(
    answer: nat -> Answer,
    takes: nat -> real,
    lateness: nat -> real,
    seesTimer: nat -> bool)
  {
    ghost predicate Forward() { forall k: nat :: takes(k) >= 0.0 && lateness(k) >= 0.0 }

    /** Queries take no time and timers fire on the second. */
    ghost predicate Prompt() { forall k: nat :: takes(k) == 0.0 && lateness(k) == 0.0 }
  }

  datatype Codec = Codec(
    marshal: Data -> Option<string>,
    marshalJson: JsonValue -> Option<string>,
    unmarshal: (Data, string) -> Unmarshalled)
  {
    /** Unmarshalling what was marshalled restores it, whatever the destination held. */
    ghost predicate Lawful() {
      forall x, d :: marshal(x).Some? ==> unmarshal(d, marshal(x).value) == Unmarshalled(true, x)
    }
  }

  datatype Fault =
    | NilContext | NilClient | EmptyQueryType | EmptyWorkflowID
    | ContextOver | QueryFailed | NoData
    | NotExecutionData | MarshalFailed | UnmarshalFailed

  datatype Outcome = Decoded(cell: DataCell) | Fault(fault: Fault)

  // ---------------------------------------------------------------- decoding

  /** The bytes that are unmarshalled into a destination other than the answer itself. */
  function Encoded(codec: Codec, raw: Raw): Option<string>
    reads if raw.Typed? then {raw.cell} else {}
  {
    match raw
    case Typed(cell) => codec.marshal(cell.value)
    case Json(v) => codec.marshalJson(v)
  }

  /** The very answer when there is no other destination; otherwise what its bytes make of the destination. */
  twostate predicate IsDecode(codec: Codec, raw: Raw, dest: DataCell?, new r: Outcome)
    reads dest
  {
    if dest == null then r == if raw.Typed? then Decoded(raw.cell) else Fault(NotExecutionData)
    else if raw.Typed? && raw.cell == dest then r == Decoded(dest) && dest.value == old(dest.value)
    else
      match old(Encoded(codec, raw))
      case None => r == Fault(MarshalFailed) && dest.value == old(dest.value)
      case Some(bytes) =>
        var u := codec.unmarshal(old(dest.value), bytes);
        dest.value == u.data && r == if u.ok then Decoded(dest) else Fault(UnmarshalFailed)
  }

  method DecodeExecutionData(codec: Codec, raw: Raw, dest: DataCell?) returns (r: Outcome)
    modifies dest
    ensures IsDecode(codec, raw, dest, r)
    ensures codec.Lawful() && raw.Typed? && r.Decoded? ==> r.cell.value == old(raw.cell.value)
  {
    match raw {
      case Typed(cell) =>
        if dest == null || dest == cell { return Decoded(cell); }
        var encoded := codec.marshal(cell.value);
        if encoded.None? { return Fault(MarshalFailed); }
        var u := codec.unmarshal(dest.value, encoded.value);
        dest.value := u.data;
        return if u.ok then Decoded(dest) else Fault(UnmarshalFailed);
      case Json(v) =>
        if dest == null { return Fault(NotExecutionData); }
        var encoded := codec.marshalJson(v);
        if encoded.None? { return Fault(MarshalFailed); }
        var u := codec.unmarshal(dest.value, encoded.value);
        dest.value := u.data;
        return if u.ok then Decoded(dest) else Fault(UnmarshalFailed);
    }
  }

  // ---------------------------------------------------------------- the loop

  function Ceil(x: real): int { -((-x).Floor) }

  /** How many queries a lifetime leaves room for. */
  function Room(life: Lifetime, now: real): nat {
    if life.deadline.None? then 1
    else if life.deadline.value <= now then 0
    else CeilOfPositive(life.deadline.value - now)
  }

  function CeilOfPositive(x: real): (n: nat)
    requires x > 0.0
    ensures n as real >= x && n as real < x + 1.0
  {
    Ceil(x)
  }

  /** When the loop looks at the context for the (k + 1)-th time, if it gets there: each query before took its time and
      was followed by a timer. */
  function CheckTime(client: Client, start: real, k: nat): real {
    if k == 0 then start
    else CheckTime(client, start, k - 1) + client.takes(k - 1) + 1.0 + client.lateness(k - 1)
  }

  lemma {:induction false} ChecksAdvance(client: Client, start: real, j: nat, k: nat)
    requires client.Forward() && j <= k
    ensures CheckTime(client, start, j) <= CheckTime(client, start, k)
    decreases k
  {
    if j < k { ChecksAdvance(client, start, j, k - 1); }
  }

  /** A context alive at a check leaves room for its query. */
  ghost predicate Asked(client: Client, life: Lifetime, start: real, queries: nat, k: nat) {
    var alive := !life.Over(CheckTime(client, start, k));
    var nothingYet := forall j :: 0 <= j < k ==> !client.answer(j).Payload?;
    alive && nothingYet && (life.deadline.Some? || k == 0) ==> queries > k
  }

  lemma {:induction false} EndsAsking(client: Client, life: Lifetime, start: real, queries: nat)
    requires client.Forward() && life.Over(CheckTime(client, start, queries))
    ensures forall k: nat :: Asked(client, life, start, queries, k)
  {
    forall k: nat ensures Asked(client, life, start, queries, k) {
      if queries <= k { ChecksAdvance(client, start, queries, k); }
    }
  }

  /** The loop, up to the answer it decodes. It goes on as long as the context lives and no answer carries data: every
      check at which the context is alive is followed by a query, and it gives up under a deadline only at a check, or
      at the timer instant of one, at which the context is over. With D seconds left it asks at most ceil(D) times,
      without a deadline at most once; it stops at the first answer that carries data, and with prompt answers none of
      which does it asks exactly ceil(D) times. */
  method Poll(client: Client, life: Lifetime, start: real) returns (found: Option<Raw>, fault: Fault, queries: nat)
    requires client.Forward()
    ensures queries <= Room(life, start)
    ensures forall k :: 0 <= k < queries - 1 ==> !client.answer(k).Payload?
    ensures found.Some? ==> queries > 0 && client.answer(queries - 1) == Payload(found.value)
    ensures found.None? && queries > 0 ==> !client.answer(queries - 1).Payload?
    ensures found.None? && life.deadline.Some? ==> fault == ContextOver
    ensures found.None? && life.deadline.None? ==>
              fault == if queries == 0 then ContextOver
                       else if client.answer(0).Failed? then QueryFailed else NoData
    ensures found.None? && fault == ContextOver ==> life.deadline.Some? || life.cancelled.Some?
    ensures fault == ContextOver || fault == QueryFailed || fault == NoData
    ensures client.Prompt() && life.deadline.Some? && life.cancelled.None? && found.None? ==>
              queries == Room(life, start)
    ensures forall k: nat :: Asked(client, life, start, queries, k)
    ensures found.None? && (life.deadline.Some? || queries == 0) ==> life.Over(CheckTime(client, start, queries))
    ensures life.Over(start) ==> queries == 0
  {
    found, fault, queries := None, ContextOver, 0;
    var now := start;
    while true
      invariant now >= start + queries as real
      invariant life.deadline.None? ==> queries == 0
      invariant queries <= Room(life, start)
      invariant forall k :: 0 <= k < queries ==> !client.answer(k).Payload?
      invariant client.Prompt() ==> now == start + queries as real
      invariant now == CheckTime(client, start, queries)
      invariant queries > 0 ==> !life.Over(start)
      decreases Room(life, start) - queries
    {
      if life.Over(now) { EndsAsking(client, life, start, queries); return; }
      var answer := client.answer(queries);
      now := now + client.takes(queries);
      queries := queries + 1;
      if answer.Payload? { found := Some(answer.raw); return; }
      if life.deadline.None? {
        fault := if answer.Failed? then QueryFailed else NoData;
        return;
      }
      var fires := now + 1.0 + client.lateness(queries - 1);
      if life.Over(fires) && !client.seesTimer(queries - 1) {
        EndsAsking(client, life, start, queries);
        return;
      }
      now := fires;
    }
  }

  method QueryWorkflowData(life: Option<Lifetime>, client: Option<Client>, codec: Codec, queryType: string,
                           workflowID: string, dest: DataCell?, now: real)
    returns (r: Outcome, queries: nat)
    requires client.Some? ==> client.value.Forward()
    requires client.Some? ==> forall k: nat :: allocated(client.value.answer(k))
    modifies dest
    ensures life.None? ==> r == Fault(NilContext)
    ensures life.Some? && client.None? ==> r == Fault(NilClient)
    ensures life.Some? && client.Some? && queryType == "" ==> r == Fault(EmptyQueryType)
    ensures life.Some? && client.Some? && queryType != "" && workflowID == "" ==> r == Fault(EmptyWorkflowID)
    ensures life.None? || client.None? || queryType == "" || workflowID == "" ==> queries == 0
    ensures life.Some? && client.Some? && queryType != "" && workflowID != "" ==>
              && queries <= Room(life.value, now)
              && (forall k: nat :: Asked(client.value, life.value, now, queries, k))
              && (life.value.Over(now) ==> queries == 0 && r == Fault(ContextOver))
              && (r == Fault(ContextOver) && (queries == 0 || !client.value.answer(queries - 1).Payload?) ==>
                    life.value.Over(CheckTime(client.value, now, queries)))
              && (forall k :: 0 <= k < queries - 1 ==> !client.value.answer(k).Payload?)
              && (var answered := queries > 0 && client.value.answer(queries - 1).Payload?;
                  if answered then IsDecode(codec, client.value.answer(queries - 1).raw, dest, r)
                  else r.Fault? && (r.fault == ContextOver || r.fault == QueryFailed || r.fault == NoData))
              && (codec.Lawful() && queries > 0 && r.Decoded? && client.value.answer(queries - 1).Payload?
                  && client.value.answer(queries - 1).raw.Typed? ==>
                    r.cell.value == old(client.value.answer(queries - 1).raw.cell.value))
  {
    queries := 0;
    if life.None? { return Fault(NilContext), 0; }
    if client.None? { return Fault(NilClient), 0; }
    if queryType == "" { return Fault(EmptyQueryType), 0; }
    if workflowID == "" { return Fault(EmptyWorkflowID), 0; }
    var found, fault;
    found, fault, queries := Poll(client.value, life.value, now);
    if found.None? { return Fault(fault), queries; }
    r := DecodeExecutionData(codec, found.value, dest);
  }
}
