# Round-robin Event Hub dispatcher

This project models the core of a small Azure Functions app. Every 30 seconds the app polls
the OpenSky flight-tracking API. It then republishes each aircraft state record as a
one-event message on an Event Hub with eight partitions. Partitions are chosen in
round-robin order. A process-wide cursor carries the rotation from one timer tick to the next.

The Dafny model has four modules:

- `Decimal` (`decimal.dfy`) models Python's `str()` on an integer, which turns the cursor into
  the partition id. It comes with a parser, and the round trip is proved, so distinct cursors
  give distinct partition ids.
- `Flight` (`flight_state.dfy`) holds the state record with its seventeen fields and the
  message payload built from it. The payload is the ordered key/value sequence passed to
  `json.dumps`. A field that is `None` stays in the payload as `Null`.
- `RoundRobin` (`dispatcher.dfy`) models `send_to_event_hub_round_robin`.
  - `Producer` is a class standing for the Event Hub client. It records every `send_batch`
    and `close` call made on it.
  - `SendToEventHubRoundRobin` is the loop. It carries the cursor and the call trace, and its
    result is proved equal to the specification functions `Dispatched` and `Trace`.
  - Lemmas state the end cursor, the partition of each record, the bounds, the failure
    behaviour and the closing of the client.
- `FunctionApp` (`timer.dfy`) models the cursor update in `timer_trigger`. `App` is a class
  whose field `currentPartition` is the module-level global. `TimerTrigger` replaces it with
  the dispatcher's result only when the fetch returned a non-empty list and the dispatcher
  returned normally.

Each foreign call is modelled as an outcome given to the model in an `Outcomes` value:

- creating the client may raise;
- processing each record may succeed, or raise during serialisation (no `send_batch` call is
  made), or raise inside `send_batch` (the call is made);
- `close()` may raise.

The fetch is a `Fetch` value. It either raised, or returned `None`, or returned a reply whose
`states` list is missing, empty or non-empty.

Failures follow the code. A failed send does not consume a rotation slot, and the loop does
not go on to the next record. In the code (src/function_app.py:53-89) one `try` surrounds the
whole loop. So the first record whose processing raises ends the loop, later records are not
attempted, and the cursor is not advanced for the failing record. The dispatcher still returns
the cursor it has reached. `ThirdOfFiveRaises` states this for a five-record batch.

More behaviours the code has and the model keeps:

- The client is created outside the `try`, and `close()` runs in the `finally`. If either
  raises, the exception leaves the dispatcher and `timer_trigger` catches it. The cursor is
  then left unchanged, even when some messages were already sent.
- The dispatcher does not reduce its starting cursor before the first send. Only the values
  after `%` are in `[0, 8)`. `CursorAt` keeps this distinction. `App.Valid()` keeps the global
  cursor in range, so from the timer every cursor is in range.
- Python's `%` with a positive divisor agrees with Dafny's `%` on `int`, including for
  negative operands.

## Model

| member | source | states |
|---|---|---|
| `Decimal.NatToString` | src/function_app.py:81 | `str()` of a natural number is a non-empty string of decimal digits with no leading zero |
| `Decimal.IntToString` | src/function_app.py:81 | `str()` of an integer is non-empty, starts with `-` exactly for negative values, and is otherwise made of decimal digits |
| `Decimal.ParseIntToString` | src/function_app.py:81 | the partition id `str(cursor)` parses back to the cursor |
| `Decimal.IntToStringInjective` | src/function_app.py:81 | two different cursors never give the same partition id |
| `Decimal.SingleDigit` | src/function_app.py:81 | a cursor in `[0, 10)` is written as its single digit |
| `Flight.Lookup` | src/function_app.py:59-75 | reading a record field by payload key is defined exactly for the seventeen keys |
| `Flight.Payload` | src/function_app.py:58-76 | the payload has exactly the seventeen keys in the listed order, each paired with the record's same-named field |
| `Flight.FieldNamesDistinct` | src/function_app.py:58-76 | no key appears twice in a payload |
| `Flight.DecodePayload` | src/function_app.py:58-77 | decoding a record's payload gives back that record, nulls included |
| `Flight.DecodeOnlyPayload` | src/function_app.py:58-77 | only the payload of a record decodes to that record, so the payload loses nothing |
| `Flight.NullFieldKept` | src/function_app.py:58-76 | a `None` field stays in the payload as a null entry under its key instead of being dropped |
| `RoundRobin.Advance` | src/function_app.py:86 | the cursor update lands in `[0, 8)`, is one past the cursor modulo 8, and wraps 7 to 0 |
| `RoundRobin.PartitionId` | src/function_app.py:81 | the partition id `str(cursor)` parses back to the cursor, and is the cursor's single digit when it is in `[0, 8)` |
| `RoundRobin.CursorAt` | src/function_app.py:54-86 | the cursor at record i is congruent to `start + i` modulo 8, and is in `[0, 8)` after the first record or when the start is |
| `RoundRobin.Trace` | src/function_app.py:44-93 | a call is made exactly when the client was created; there are at most N + 1 calls, the last is `close()`, and call i is record i's one-event send to its rotation partition |
| `RoundRobin.Dispatched` | src/function_app.py:44-93 | the dispatcher returns a cursor exactly when creating and closing the client do not raise; from a start in `[0, 8)` it is in `[0, 8)`; on empty input it is the start |
| `RoundRobin.CursorAtNext` | src/function_app.py:86 | the cursor at the next position is `(cursor + 1) % 8` of the cursor at this one |
| `RoundRobin.Reached` | src/function_app.py:53-89 | the number of records processed before the loop stops is the position of the first failing record, or the number of records if none fails |
| `RoundRobin.Producer.constructor` | src/function_app.py:49-51 | a new client has made no call and is open |
| `RoundRobin.Producer.SendBatch` | src/function_app.py:82 | `send_batch` appends one call with its partition id and batch, and raises exactly when its outcome says so |
| `RoundRobin.Producer.Close` | src/function_app.py:90-91 | `close` appends one close call and leaves the client closed |
| `RoundRobin.SendToEventHubRoundRobin` | src/function_app.py:44-93 | the loop returns the cursor reached at the first failure (or at the end), or raises when the client cannot be created or closed; its calls are the sends in rotation order followed by one close |
| `RoundRobin.AllDeliveredEndCursor` | src/function_app.py:54-93 | with `0 <= start < 8` and every send delivered, the result is `(start + N) % 8` and all N records are sent |
| `RoundRobin.RecordPartition` | src/function_app.py:56-86 | the i-th call sends record i alone, as one event, to partition `str((start + i) % 8)`, in input order |
| `RoundRobin.ClosedExactlyOnce` | src/function_app.py:49-91 | the client is closed exactly once, as its last call, on every path where it was created; every earlier call is a one-event `send_batch`; no call is made when creation fails |
| `RoundRobin.EmptyInput` | src/function_app.py:54-93 | an empty input makes no `send_batch` call and returns the start cursor unchanged |
| `RoundRobin.ResultInRange` | src/function_app.py:86-93 | from a start in `[0, 8)` the returned cursor is in `[0, 8)` whatever the outcomes |
| `RoundRobin.FailureStopsLoop` | src/function_app.py:53-93 | if record k raises, the result is `(start + k) % 8` (nothing when `close()` raises), so the failing slot is not consumed; whether or not `close()` raises, no record after k is sent |
| `RoundRobin.RotationSpreads` | src/function_app.py:81-86 | records fewer than eight positions apart go to different partitions, and records exactly eight apart go to the same one |
| `RoundRobin.ThreeRecordsFromSix` | src/function_app.py:54-93 | three records from cursor 6 go to partitions "6", "7", "0", and the result is 1 |
| `RoundRobin.ThirdOfFiveRaises` | src/function_app.py:53-93 | five records where the third send raises: records 0 to 2 are attempted, records 3 and 4 are not, and the result is `(start + 2) % 8` |
| `FunctionApp.Batch` | src/function_app.py:33 | a list goes to the dispatcher exactly when the fetch returned a reply whose `states` list is present and non-empty, and it is that list |
| `FunctionApp.CycleCursor` | src/function_app.py:33-42 | after a tick the cursor differs only if a non-empty list was fetched and the dispatcher returned, in which case it is the dispatcher's result; a cursor in `[0, 8)` stays there |
| `FunctionApp.CycleTrace` | src/function_app.py:33-42 | a tick makes calls on the Event Hub client exactly when a non-empty list was fetched and the client was created; then the last call is `close()` and there are at most N + 1 calls |
| `FunctionApp.App.constructor` | src/function_app.py:19 | the global cursor starts at 0 |
| `FunctionApp.App.TimerTrigger` | src/function_app.py:22-42 | one tick keeps the cursor in `[0, 8)`, replaces it with the dispatcher's result only after a non-empty fetch and a normal return, and otherwise leaves it unchanged |
| `FunctionApp.CursorChangesOnlyOnNonEmptyFetch` | src/function_app.py:26-42 | the cursor changes only when the fetch returned a non-empty list; a raised fetch, a `None` reply, a reply without a list or an empty list leaves it unchanged and sends nothing |
| `FunctionApp.CycleCursorInRange` | src/function_app.py:33-37 | a cursor in `[0, 8)` stays in `[0, 8)` across a tick |
| `FunctionApp.DeliveredCycleAdvances` | src/function_app.py:33-37 | a tick that delivers all of its N fetched records moves the cursor to `(cursor + N) % 8`, so the next tick continues the rotation |
| `FunctionApp.RotationContinuesAcrossTicks` | src/function_app.py:19-42 | over a run of ticks in which every record is delivered, the global cursor moves on by the total number of records fetched, modulo 8, so the rotation carries across ticks instead of restarting |

## Left out

- The timer decorator, the schedule and the function host (src/function_app.py:8, 21) are
  host plumbing. `TimerTrigger` is one tick, called by the host.
- Reading configuration from environment variables (src/function_app.py:11-14) is
  configuration input. The connection string and hub name are not modelled.
- The OpenSky client (`OpenSkyApi`, `get_states`) is a network call. It is modelled only by
  its result: raised, `None`, or a reply with a missing, empty or non-empty list.
- The Event Hub client internals (`EventHubProducerClient`, `EventData`, `send_batch`,
  `close`) are foreign I/O. They are modelled as actions whose outcomes come from `Outcomes`,
  recorded in a call trace.
- `json.dumps` text formatting and the float-valued fields are library serialisation and
  floating point. The payload is the key/value sequence, not JSON text, and float values are
  opaque bit patterns. Whether serialisation raises is an outcome, not derived from the values.
- Logging calls have no behaviour to model.
- Overlapping timer invocations racing on the global cursor are a concurrency concern; the
  code has no locking. `TimerTrigger` runs one tick at a time.
- Exceptions that are not `Exception` subclasses (such as `KeyboardInterrupt`) are not
  modelled; such exceptions bypass both `except` clauses.
