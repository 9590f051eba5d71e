/**
 * The progress stream of the search endpoint `GET /api/search/stream`
 * (backend/main.py): `generate()` sends a `starting` frame, then one
 * numbered `processing` frame per tick while the agent's worker thread is
 * alive, then one terminal `completed` or `error` frame. Every frame is a
 * `data:` field of an event stream, `"data: " + <JSON object> + "\n\n"`.
 *
 * The worker thread, its queue and the one-second sleeps are replaced by a
 * `Worker` value: how many times `thread.is_alive()` answered true, and what
 * the thread put on the result queue.
 */
module SearchStream {
  import opened Wrappers
  import opened Text
  import opened PyJson

  /** `max_iterations` when the request does not give one (stream endpoint and `SearchRequest`). */
  const DefaultMaxIterations: int := 10

  /** What the worker thread puts on the result queue. */
  datatype Outcome =
    | Returned(result: seq<Entry>)  // the dict returned by the research agent
    | Raised(message: string)       // the agent raised; `str(e)`

  /** The worker thread seen from `generate()`. */
  datatype Worker = Worker(ticks: nat, outcome: Outcome)

  /** One event-stream frame carrying `payload` in its `data:` field. */
  function Frame(payload: string): string {
    "data: " + payload + "\n\n"
  }

  /** `key in d` followed by `d[key]`: the value stored under `key`, if any. */
  function Lookup(entries: seq<Entry>, key: string): (r: Option<Value>)
    ensures r.Some? <==> exists k :: 0 <= k < |entries| && entries[k].key == key
    ensures r.Some? ==> exists k :: 0 <= k < |entries| && entries[k] == Entry(key, r.value)
  {
    if entries == [] then None
    else if entries[0].key == key then Some(entries[0].value)
    else
      var r := Lookup(entries[1..], key);
      assert forall k :: 1 <= k < |entries| ==> entries[k] == entries[1..][k - 1];
      r
  }

  /** The `status` field of a frame. */
  datatype Status = Starting | Processing | Error | Completed

  function StatusName(status: Status): string {
    match status
    case Starting => "starting"
    case Processing => "processing"
    case Error => "error"
    case Completed => "completed"
  }

  /** `{'status': status, 'message': message}` with a string message. */
  function StatusValue(status: Status, message: string): Value {
    DictValue([Entry("status", StrValue(StatusName(status))), Entry("message", StrValue(message))])
  }

  /** A status dict always serializes: it holds two strings. */
  lemma StatusValueSerializes(status: Status, message: string)
    ensures Dumps(StatusValue(status, message)).Success?
  {
    DumpsSpec(StatusValue(status, message));
  }

  /** `json.dumps({'status': status, 'message': message})`. */
  function StatusPayload(status: Status, message: string): string {
    StatusValueSerializes(status, message);
    Dumps(StatusValue(status, message)).value
  }

  function StartingPayload(query: string): string {
    StatusPayload(Starting, "Starting search for: " + query)
  }

  function ProcessingMessage(iteration: nat): string {
    "Processing... (iteration " + NatToString(iteration) + ")"
  }

  /**
   * The message of a `processing` frame names its iteration: two frames
   * show the same message exactly when they have the same number.
   */
  lemma ProcessingMessageNamesIteration(i: nat, j: nat)
    ensures ProcessingMessage(i) == ProcessingMessage(j) <==> i == j
  {
    if ProcessingMessage(i) == ProcessingMessage(j) {
      var prefix := "Processing... (iteration ";
      var si, sj := NatToString(i), NatToString(j);
      var m := ProcessingMessage(i);
      assert m == prefix + si + ")" && m == prefix + sj + ")";
      assert |si| == |sj|;
      assert si == m[|prefix|..|prefix| + |si|];
      assert sj == m[|prefix|..|prefix| + |sj|];
      NatToStringRoundTrip(i);
      NatToStringRoundTrip(j);
    }
  }

  function ProcessingPayload(iteration: nat): string {
    StatusPayload(Processing, ProcessingMessage(iteration))
  }

  /** The dict `result_queue.get()` returns: a worker exception becomes `{"error": str(e)}`. */
  function ResultDict(outcome: Outcome): seq<Entry> {
    match outcome
    case Returned(r) => r
    case Raised(m) => [Entry("error", StrValue(m))]
  }

  /** The dict the terminal frame serializes, before `json.dumps` is applied. */
  function TerminalValue(outcome: Outcome): Value {
    var result := ResultDict(outcome);
    match Lookup(result, "error")
    case Some(err) => DictValue([Entry("status", StrValue("error")), Entry("message", err)])
    case None => CompletedValue(result)
  }

  /** `{'status': 'completed', 'result': result}`. */
  function CompletedValue(result: seq<Entry>): Value {
    DictValue([Entry("status", StrValue("completed")), Entry("result", DictValue(result))])
  }

  /**
   * The payload of the terminal frame: `json.dumps` of the terminal dict.
   * When `json.dumps` raises on the result, the outer `except` of
   * `generate()` sends an `error` frame with the TypeError's message instead.
   */
  function TerminalPayload(outcome: Outcome): string {
    match Dumps(TerminalValue(outcome))
    case Success(text) => text
    case Failure(e) => StatusPayload(Error, e)
  }

  /** Every payload `generate()` sends is printable ASCII, so it holds no line break. */
  lemma StatusPayloadPrintable(status: Status, message: string)
    ensures IsPrintableAscii(StatusPayload(status, message))
  {
    DumpsSpec(StatusValue(status, message));
  }

  lemma TerminalPayloadPrintable(outcome: Outcome)
    ensures IsPrintableAscii(TerminalPayload(outcome))
  {
    DumpsSpec(TerminalValue(outcome));
    match Dumps(TerminalValue(outcome))
    case Success(text) =>
    case Failure(e) => StatusPayloadPrintable(Error, e);
  }

  /** The frames `generate()` sends for `query` while `worker` runs, in order. */
  predicate IsEmission(frames: seq<string>, query: string, worker: Worker) {
    && |frames| == worker.ticks + 2
    && frames[0] == Frame(StartingPayload(query))
    && (forall k :: 1 <= k <= worker.ticks ==> frames[k] == Frame(ProcessingPayload(k)))
    && frames[|frames| - 1] == Frame(TerminalPayload(worker.outcome))
  }

  /** The `starting` frame and the first `n` `processing` frames. */
  function ProgressFrames(query: string, n: nat): seq<string> {
    if n == 0 then [Frame(StartingPayload(query))] else ProgressFrames(query, n - 1) + [Frame(ProcessingPayload(n))]
  }

  lemma {:induction false} ProgressFramesShape(query: string, n: nat)
    ensures |ProgressFrames(query, n)| == n + 1
    ensures ProgressFrames(query, n)[0] == Frame(StartingPayload(query))
    ensures forall k :: 1 <= k <= n ==> ProgressFrames(query, n)[k] == Frame(ProcessingPayload(k))
  {
    if n > 0 {
      ProgressFramesShape(query, n - 1);
      var prev := ProgressFrames(query, n - 1);
      var frames := prev + [Frame(ProcessingPayload(n))];
      assert ProgressFrames(query, n) == frames;
      forall k | 1 <= k <= n
        ensures frames[k] == Frame(ProcessingPayload(k))
      {
        if k < n {
          assert frames[k] == prev[k];
        }
      }
    }
  }

  /**
   * `search_stream(query, max_iterations)` and its generator: the frames
   * yielded, in order. `run` stands for starting `run_deep_research_agent`
   * in a thread and watching it.
   */
  method SearchStream(query: string, run: (string, int) -> Worker, maxIterations: int := DefaultMaxIterations)
    returns (frames: seq<string>)
    ensures IsEmission(frames, query, run(query, maxIterations))
  {
    var worker := run(query, maxIterations);
    frames := [Frame(StartingPayload(query))];
    var iteration := 0;
    // while thread.is_alive(): the first `worker.ticks` checks answer true
    while iteration < worker.ticks
      invariant 0 <= iteration <= worker.ticks
      invariant frames == ProgressFrames(query, iteration)
    {
      iteration := iteration + 1;
      frames := frames + [Frame(ProcessingPayload(iteration))];
    }
    ProgressFramesShape(query, worker.ticks);
    frames := frames + [Frame(TerminalPayload(worker.outcome))];
  }

  /** A worker exception becomes an `error` frame carrying `str(e)`. */
  lemma TerminalOnRaise(message: string)
    ensures TerminalPayload(Raised(message)) == StatusPayload(Error, message)
  {
    StatusValueSerializes(Error, message);
    assert TerminalValue(Raised(message)) == StatusValue(Error, message);
  }

  /** A result holding a string under `"error"` becomes an `error` frame with that string. */
  lemma TerminalOnErrorEntry(result: seq<Entry>, message: string)
    requires Lookup(result, "error") == Some(StrValue(message))
    ensures TerminalPayload(Returned(result)) == StatusPayload(Error, message)
  {
    StatusValueSerializes(Error, message);
    assert TerminalValue(Returned(result)) == StatusValue(Error, message);
  }

  /**
   * A result without an `"error"` key gives a `completed` frame carrying the
   * whole result exactly when it serializes; otherwise an `error` frame with
   * the TypeError's message.
   */
  lemma TerminalOnResult(result: seq<Entry>)
    requires Lookup(result, "error").None?
    ensures Dumps(CompletedValue(result)).Success? <==> Serializable(DictValue(result))
    ensures match Dumps(CompletedValue(result))
            case Success(text) => TerminalPayload(Returned(result)) == text
            case Failure(e) => TerminalPayload(Returned(result)) == StatusPayload(Error, e)
  {
    var completed := CompletedValue(result);
    DumpsSpec(completed);
    assert completed.entries[1].value == DictValue(result);
  }
}
