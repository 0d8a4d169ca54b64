/**
 The round-robin dispatcher `send_to_event_hub_round_robin`
 (src/function_app.py:44-93).

 The Event Hub producer client is a `Producer` object that records the calls
 made on it. Whether each foreign action succeeds is given by an `Outcomes`
 oracle: creating the client, processing each record (serialising it, then
 calling `send_batch`), and closing the client. One `try` surrounds the whole
 loop, so the first record whose processing raises ends the loop: later
 records are not attempted and the cursor is not advanced for the failing one.
 */
module RoundRobin {
  import opened Wrappers
  import opened Flight
  import Decimal

  /** `EVENT_HUB_PARTITIONS`. */
  const Partitions: int := 8

  /** What happens when the loop processes one record. */
  datatype Step =
    | Delivered        // serialised and sent
    | SerialiseRaises  // building the message raises; `send_batch` is not called
    | SendRaises       // `send_batch` is called and raises

  /** The behaviour of the foreign calls during one dispatch. */
  datatype Outcomes = Outcomes(
    clientOk: bool,        // `from_connection_string` returns a client (it is outside the `try`)
    step: nat -> Step,     // the outcome of processing the record at each position
    closeOk: bool)         // `close()` in the `finally` returns normally

  /** A call made on the producer client. */
  datatype Call =
    | SendBatch(partitionId: string, batch: seq<Message>)
    | Close

  /** The cursor update after each record: `(current_partition + 1) % EVENT_HUB_PARTITIONS`. */
  function Advance(cursor: int): (next: int)
    ensures 0 <= next < Partitions
    ensures (next - cursor - 1) % Partitions == 0
    ensures 0 <= cursor < Partitions - 1 ==> next == cursor + 1
    ensures cursor == Partitions - 1 ==> next == 0
  {
    (cursor + 1) % Partitions
  }

  /** The partition id handed to `send_batch`: `str(current_partition)`. */
  function PartitionId(cursor: int): (id: string)
    ensures Decimal.ParseInt(id) == cursor
    ensures 0 <= cursor < Partitions ==> id == [Decimal.Digit(cursor)]
  {
    Decimal.ParseIntToString(cursor);
    Decimal.IntToString(cursor)
  }

  /**
   The cursor when the record at position `i` is reached. The starting value
   is used as it is for the first record; every later value has gone through `%`.
   */
  function CursorAt(start: int, i: nat): (c: int)
    ensures i > 0 ==> 0 <= c < Partitions
    ensures (c - start - i) % Partitions == 0
    ensures 0 <= start < Partitions ==> 0 <= c < Partitions
  {
    if i == 0 then start else (start + i) % Partitions
  }

  /** The cursor of the next position is one `Advance` of this one. */
  lemma CursorAtNext(start: int, i: nat)
    ensures CursorAt(start, i + 1) == Advance(CursorAt(start, i))
  {
    if i > 0 {
      var q := (start + i) / Partitions;
      assert start + i == q * Partitions + CursorAt(start, i);
      assert start + i + 1 == q * Partitions + (CursorAt(start, i) + 1);
    }
  }

  /**
   The number of records processed without raising among the first `n`:
   the position of the first failing record, or `n` if none fails.
   */
  function Reached(n: nat, step: nat -> Step): (k: nat)
    ensures k <= n
    ensures forall i :: 0 <= i < k ==> step(i) == Delivered
    ensures k < n ==> step(k) != Delivered
  {
    if n == 0 then 0
    else
      var k := Reached(n - 1, step);
      if k < n - 1 || step(n - 1) != Delivered then k else n
  }

  /** The `send_batch` calls made: the delivered records, plus the failing one if `send_batch` raised for it. */
  function Issued(n: nat, step: nat -> Step): nat
  {
    var k := Reached(n, step);
    if k < n && step(k) == SendRaises then k + 1 else k
  }

  /** The `send_batch` call for the record at position `i`. */
  function SendCall(states: seq<StateRecord>, start: int, i: nat): Call
    requires i < |states|
  {
    SendBatch(PartitionId(CursorAt(start, i)), [Payload(states[i])])
  }

  /** The first `m` `send_batch` calls of the rotation. */
  function Sends(states: seq<StateRecord>, start: int, m: nat): seq<Call>
    requires m <= |states|
  {
    seq(m, i requires 0 <= i < m => SendCall(states, start, i))
  }

  /** Every call made on the producer during one dispatch. */
  function Trace(states: seq<StateRecord>, start: int, o: Outcomes): (t: seq<Call>)
    ensures o.clientOk <==> t != []
    ensures |t| <= |states| + 1
    ensures t != [] ==> t[|t| - 1] == Close
    ensures forall i :: 0 <= i < |t| - 1 ==> i < |states| && t[i] == SendCall(states, start, i)
  {
    if !o.clientOk then []
    else Sends(states, start, Issued(|states|, o.step)) + [Close]
  }

  /**
   The value the dispatcher returns, or `None` when it raises: the client
   could not be created, or `close()` in the `finally` raised.
   */
  function Dispatched(states: seq<StateRecord>, start: int, o: Outcomes): (r: Option<int>)
    ensures r.Some? <==> o.clientOk && o.closeOk
    ensures r.Some? && 0 <= start < Partitions ==> 0 <= r.value < Partitions
    ensures r.Some? && states == [] ==> r.value == start
  {
    if o.clientOk && o.closeOk then Some(CursorAt(start, Reached(|states|, o.step))) else None
  }

  /** The Event Hub producer client, as the sequence of calls made on it. */
  class Producer {
    var calls: seq<Call>
    var closed: bool

    constructor ()
      ensures calls == [] && !closed
    {
      calls := [];
      closed := false;
    }

    /** `send_batch(batch, partition_id=partitionId)`; `delivered` is whether it returns normally. */
    method SendBatch(batch: seq<Message>, partitionId: string, delivered: bool) returns (raised: bool)
      requires !closed
      modifies this
      ensures calls == old(calls) + [Call.SendBatch(partitionId, batch)]
      ensures raised == !delivered && !closed
    {
      calls := calls + [Call.SendBatch(partitionId, batch)];
      raised := !delivered;
    }

    /** `close()`; `ok` is whether it returns normally. */
    method Close(ok: bool) returns (raised: bool)
      modifies this
      ensures calls == old(calls) + [Call.Close]
      ensures closed && raised == !ok
    {
      calls := calls + [Call.Close];
      closed := true;
      raised := !ok;
    }
  }

  /**
   `send_to_event_hub_round_robin(states, start_partition)`: returns the
   cursor it reached (`None` when the call raises) and the calls made on the client.
   */
  method SendToEventHubRoundRobin(states: seq<StateRecord>, start: int, o: Outcomes)
    returns (result: Option<int>, trace: seq<Call>)
    ensures result == Dispatched(states, start, o)
    ensures trace == Trace(states, start, o)
  {
    if !o.clientOk {
      return None, [];
    }
    var producer := new Producer();
    var cursor := start;
    var i := 0;
    while i < |states|
      invariant 0 <= i <= |states|
      invariant cursor == CursorAt(start, i)
      invariant forall j :: 0 <= j < i ==> o.step(j) == Delivered
      invariant producer.calls == Sends(states, start, i)
      invariant !producer.closed
    {
      var outcome := o.step(i);
      if outcome == SerialiseRaises {
        break;
      }
      var message := Payload(states[i]);
      var raised := producer.SendBatch([message], PartitionId(cursor), outcome == Delivered);
      if raised {
        assert producer.calls == Sends(states, start, i + 1);
        break;
      }
      CursorAtNext(start, i);
      cursor := Advance(cursor);
      i := i + 1;
    }
    assert i == Reached(|states|, o.step);
    var closeRaised := producer.Close(o.closeOk);
    trace := producer.calls;
    result := if closeRaised then None else Some(cursor);
  }

  // Properties of the dispatcher, stated on its specification functions.

  /**
   With the cursor in range and every record delivered, the returned cursor
   is the start advanced by the number of records, modulo the partition count.
   */
  lemma {:induction false} AllDeliveredEndCursor(states: seq<StateRecord>, start: int, o: Outcomes)
    requires 0 <= start < Partitions
    requires o.clientOk && o.closeOk
    requires forall i :: 0 <= i < |states| ==> o.step(i) == Delivered
    ensures Dispatched(states, start, o) == Some((start + |states|) % Partitions)
    ensures Trace(states, start, o) == Sends(states, start, |states|) + [Close]
  {
    assert Reached(|states|, o.step) == |states|;
  }

  /**
   The calls are the `send_batch` calls in input order, then one `close()`:
   the call at position `i` sends the record at position `i`, alone, to
   partition `str((start + i) % 8)`.
   */
  lemma RecordPartition(states: seq<StateRecord>, start: int, o: Outcomes, i: nat)
    requires 0 <= start < Partitions
    requires o.clientOk
    requires i < |Trace(states, start, o)| - 1
    ensures i < |states|
    ensures Trace(states, start, o)[i]
         == SendBatch(PartitionId((start + i) % Partitions), [Payload(states[i])])
  {
    assert i < Issued(|states|, o.step);
  }

  /**
   The client is closed exactly once when it was created: `close()` is the last
   call and every earlier call is a `send_batch` with one event. When the client
   cannot be created no call is made.
   */
  lemma ClosedExactlyOnce(states: seq<StateRecord>, start: int, o: Outcomes)
    ensures !o.clientOk ==> Trace(states, start, o) == []
    ensures o.clientOk ==> |Trace(states, start, o)| >= 1
    ensures o.clientOk ==> Trace(states, start, o)[|Trace(states, start, o)| - 1] == Close
    ensures forall i :: 0 <= i < |Trace(states, start, o)| - 1 ==>
              Trace(states, start, o)[i].SendBatch? && |Trace(states, start, o)[i].batch| == 1
  {
    if o.clientOk {
      var t := Trace(states, start, o);
      var m := Issued(|states|, o.step);
      assert |t| == m + 1;
      forall i | 0 <= i < |t| - 1 ensures t[i].SendBatch? && |t[i].batch| == 1 {
        assert t[i] == SendCall(states, start, i);
      }
    }
  }

  /** An empty input issues no `send_batch` call and returns the start cursor unchanged. */
  lemma EmptyInput(start: int, o: Outcomes)
    ensures Trace([], start, o) == if o.clientOk then [Close] else []
    ensures o.clientOk && o.closeOk ==> Dispatched([], start, o) == Some(start)
  {
    assert Sends([], start, 0) == [];
  }

  /** From a start in range, the returned cursor is in range whatever the outcomes. */
  lemma ResultInRange(states: seq<StateRecord>, start: int, o: Outcomes)
    requires 0 <= start < Partitions
    ensures Dispatched(states, start, o).Some? ==> 0 <= Dispatched(states, start, o).value < Partitions
  {
  }

  /**
   When processing the record at position `k` raises, the loop stops there: the
   returned cursor is the one of position `k` (the failing slot is not consumed),
   and no record after position `k` is sent. The calls are the same whether or
   not `close()` then raises; if it does, nothing is returned.
   */
  lemma FailureStopsLoop(states: seq<StateRecord>, start: int, o: Outcomes, k: nat)
    requires 0 <= start < Partitions
    requires o.clientOk
    requires k < |states|
    requires forall j :: 0 <= j < k ==> o.step(j) == Delivered
    requires o.step(k) != Delivered
    ensures Dispatched(states, start, o) == if o.closeOk then Some((start + k) % Partitions) else None
    ensures |Trace(states, start, o)| == (if o.step(k) == SendRaises then k + 2 else k + 1)
    ensures forall i :: 0 <= i < |Trace(states, start, o)| - 1 ==>
              Trace(states, start, o)[i].batch == [Payload(states[i])] && i <= k
  {
    assert Reached(|states|, o.step) == k;
    var t := Trace(states, start, o);
    forall i | 0 <= i < |t| - 1 ensures t[i].batch == [Payload(states[i])] && i <= k {
      assert t[i] == SendCall(states, start, i);
    }
  }

  /**
   Round robin: two records fewer than eight positions apart go to different
   partitions, and records exactly eight positions apart go to the same one.
   */
  lemma RotationSpreads(states: seq<StateRecord>, start: int, o: Outcomes, i: nat, j: nat)
    requires 0 <= start < Partitions
    requires o.clientOk
    requires i < j < |Trace(states, start, o)| - 1
    ensures j - i < Partitions ==>
              Trace(states, start, o)[i].partitionId != Trace(states, start, o)[j].partitionId
    ensures j - i == Partitions ==>
              Trace(states, start, o)[i].partitionId == Trace(states, start, o)[j].partitionId
  {
    RecordPartition(states, start, o, i);
    RecordPartition(states, start, o, j);
    Decimal.IntToStringInjective((start + i) % Partitions, (start + j) % Partitions);
    if j - i < Partitions {
      assert (start + i) % Partitions != (start + j) % Partitions;
    }
  }

  /** Eight partitions, cursor 6, three records delivered: partitions "6", "7", "0", cursor 1. */
  lemma ThreeRecordsFromSix(a: StateRecord, b: StateRecord, c: StateRecord, o: Outcomes)
    requires o.clientOk && o.closeOk
    requires o.step(0) == o.step(1) == o.step(2) == Delivered
    ensures Dispatched([a, b, c], 6, o) == Some(1)
    ensures Trace([a, b, c], 6, o)
         == [SendBatch("6", [Payload(a)]), SendBatch("7", [Payload(b)]), SendBatch("0", [Payload(c)]), Close]
  {
    AllDeliveredEndCursor([a, b, c], 6, o);
    Decimal.SingleDigit(6);
    Decimal.SingleDigit(7);
    Decimal.SingleDigit(0);
  }

  /**
   Five records where the third one's `send_batch` raises: the first two are
   delivered, the third is attempted, the last two are never attempted, and the
   returned cursor is two past the start.
   */
  lemma ThirdOfFiveRaises(states: seq<StateRecord>, start: int, o: Outcomes)
    requires 0 <= start < Partitions && |states| == 5
    requires o.clientOk && o.closeOk
    requires o.step(0) == o.step(1) == Delivered && o.step(2) == SendRaises
    ensures Dispatched(states, start, o) == Some((start + 2) % Partitions)
    ensures Trace(states, start, o)
         == [SendCall(states, start, 0), SendCall(states, start, 1), SendCall(states, start, 2), Close]
  {
    assert Reached(5, o.step) == 2;
  }
}
