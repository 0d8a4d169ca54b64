/**
 The cursor-update rule of `timer_trigger` (src/function_app.py:19-42): the
 process-wide cursor `current_partition` starts at 0 and is replaced by the
 dispatcher's result only when the fetch returns a non-empty state list and
 the dispatcher returns normally. Any exception (from the fetch or raised out
 of the dispatcher) is caught and the cursor keeps its value.
 */
module FunctionApp {
  import opened Wrappers
  import opened Flight
  import opened RoundRobin

  /** The API's reply object; its `states` attribute may be `None`. */
  datatype StateVector = StateVector(states: Option<seq<StateRecord>>)

  /** The result of `OpenSkyApi(...)` followed by `api.get_states()`. */
  datatype Fetch =
    | FetchRaised                          // the client or the query raised
    | Fetched(reply: Option<StateVector>)  // the query returned, possibly `None`

  /** The list handed to the dispatcher, if `states and states.states` holds. */
  function Batch(f: Fetch): (b: Option<seq<StateRecord>>)
    ensures b.Some? <==> f.Fetched? && f.reply.Some? && f.reply.value.states.Some? && f.reply.value.states.value != []
    ensures b.Some? ==> b.value == f.reply.value.states.value
  {
    match f
    case Fetched(Some(StateVector(Some(records)))) => if records != [] then Some(records) else None
    case _ => None
  }

  /** The cursor after one timer tick that found the cursor at `cursor`. */
  function CycleCursor(cursor: int, f: Fetch, o: Outcomes): (next: int)
    ensures next != cursor ==> Batch(f).Some? && o.clientOk && o.closeOk
    ensures 0 <= cursor < Partitions ==> 0 <= next < Partitions
    ensures Batch(f).Some? && o.clientOk && o.closeOk ==> next == Dispatched(Batch(f).value, cursor, o).value
  {
    match Batch(f)
    case None => cursor
    case Some(records) =>
      match Dispatched(records, cursor, o)
      case None => cursor
      case Some(next) => next
  }

  /** The calls made on the Event Hub client during one timer tick. */
  function CycleTrace(cursor: int, f: Fetch, o: Outcomes): (t: seq<Call>)
    ensures t != [] <==> Batch(f).Some? && o.clientOk
    ensures t != [] ==> t[|t| - 1] == Close && |t| <= |Batch(f).value| + 1
  {
    match Batch(f)
    case None => []
    case Some(records) => Trace(records, cursor, o)
  }

  /** The function app's module-level state. */
  class App {
    var currentPartition: int

    ghost predicate Valid()
      reads this
    {
      0 <= currentPartition < Partitions
    }

    constructor ()
      ensures Valid() && currentPartition == 0
    {
      currentPartition := 0;
    }

    /** One tick of the timer: fetch, dispatch if there is anything, keep the cursor on failure. */
    method TimerTrigger(f: Fetch, o: Outcomes) returns (trace: seq<Call>)
      requires Valid()
      modifies this
      ensures Valid()
      ensures currentPartition == CycleCursor(old(currentPartition), f, o)
      ensures trace == CycleTrace(old(currentPartition), f, o)
    {
      var batch := Batch(f);
      trace := [];
      if batch.Some? {
        var result;
        result, trace := SendToEventHubRoundRobin(batch.value, currentPartition, o);
        ResultInRange(batch.value, currentPartition, o);
        if result.Some? {
          currentPartition := result.value;
        }
      }
    }
  }

  // Properties of the cursor-update rule.

  /**
   The cursor changes only when the fetch returned a non-empty list; a fetch
   that raised, returned `None`, or returned an empty or missing list leaves
   the cursor as it was and makes no call on the Event Hub client.
   */
  lemma CursorChangesOnlyOnNonEmptyFetch(cursor: int, f: Fetch, o: Outcomes)
    ensures CycleCursor(cursor, f, o) != cursor ==>
              f.Fetched? && f.reply.Some? && f.reply.value.states.Some? && f.reply.value.states.value != []
    ensures f == FetchRaised ==> CycleCursor(cursor, f, o) == cursor && CycleTrace(cursor, f, o) == []
    ensures f == Fetched(None) ==> CycleCursor(cursor, f, o) == cursor && CycleTrace(cursor, f, o) == []
    ensures f == Fetched(Some(StateVector(None))) ==>
              CycleCursor(cursor, f, o) == cursor && CycleTrace(cursor, f, o) == []
    ensures f == Fetched(Some(StateVector(Some([])))) ==>
              CycleCursor(cursor, f, o) == cursor && CycleTrace(cursor, f, o) == []
  {
  }

  /** A cursor in range stays in range across a tick, whatever happens in it. */
  lemma CycleCursorInRange(cursor: int, f: Fetch, o: Outcomes)
    requires 0 <= cursor < Partitions
    ensures 0 <= CycleCursor(cursor, f, o) < Partitions
  {
    if Batch(f).Some? {
      ResultInRange(Batch(f).value, cursor, o);
    }
  }

  /**
   A tick that fetches `n` records and delivers all of them moves the cursor
   on by `n` modulo the partition count, so the next tick continues the rotation.
   */
  lemma DeliveredCycleAdvances(cursor: int, records: seq<StateRecord>, o: Outcomes)
    requires 0 <= cursor < Partitions
    requires records != []
    requires o.clientOk && o.closeOk
    requires forall i :: 0 <= i < |records| ==> o.step(i) == Delivered
    ensures CycleCursor(cursor, Fetched(Some(StateVector(Some(records)))), o) == (cursor + |records|) % Partitions
  {
    AllDeliveredEndCursor(records, cursor, o);
  }

  /** The number of records a fetch hands to the dispatcher. */
  function BatchSize(f: Fetch): nat
  {
    match Batch(f)
    case None => 0
    case Some(records) => |records|
  }

  /** The records handed to the dispatcher over a run of ticks. */
  function FetchedCount(fs: seq<Fetch>): nat
  {
    if fs == [] then 0 else FetchedCount(fs[..|fs| - 1]) + BatchSize(fs[|fs| - 1])
  }

  /** The global cursor after a run of ticks; tick `t` sees fetch `fs[t]` and outcomes `os(t)`. */
  function AfterTicks(cursor: int, fs: seq<Fetch>, os: nat -> Outcomes): int
  {
    if fs == [] then cursor
    else CycleCursor(AfterTicks(cursor, fs[..|fs| - 1], os), fs[|fs| - 1], os(|fs| - 1))
  }

  /** Every foreign call of a dispatch over `n` records returns normally. */
  predicate DeliversAll(o: Outcomes, n: nat)
  {
    o.clientOk && o.closeOk && forall i :: 0 <= i < n ==> o.step(i) == Delivered
  }

  /**
   Over a run of ticks in which every record is delivered, the cursor moves on
   by the total number of records fetched, modulo the partition count: each
   tick continues the rotation where the previous one stopped.
   */
  lemma {:induction false} RotationContinuesAcrossTicks(cursor: int, fs: seq<Fetch>, os: nat -> Outcomes)
    requires 0 <= cursor < Partitions
    requires forall t :: 0 <= t < |fs| ==> DeliversAll(os(t), BatchSize(fs[t]))
    ensures AfterTicks(cursor, fs, os) == (cursor + FetchedCount(fs)) % Partitions
  {
    if fs != [] {
      var init, last := fs[..|fs| - 1], fs[|fs| - 1];
      forall t | 0 <= t < |init| ensures DeliversAll(os(t), BatchSize(init[t])) {
        assert init[t] == fs[t];
      }
      RotationContinuesAcrossTicks(cursor, init, os);
      var mid := AfterTicks(cursor, init, os);
      assert DeliversAll(os(|fs| - 1), BatchSize(last));
      match Batch(last)
      case None =>
      case Some(records) =>
        DeliveredCycleAdvances(mid, records, os(|fs| - 1));
        assert last == Fetched(Some(StateVector(Some(records))));
    }
  }
}
