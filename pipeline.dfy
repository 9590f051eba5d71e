/**
 * The backend's progress stream read by the chat page: what
 * `generate()` (backend/main.py) writes and what `handleSubmit`
 * (frontend/src/app/page.tsx) makes of it.
 *
 * `JSON.parse` stays an oracle; the one thing assumed about it is that it
 * reads back what `json.dumps` wrote, so that the page sees the fields of
 * the dict the backend serialized (`ParsesBack`).
 */
module Pipeline {
  import opened Wrappers
  import opened Text
  import opened PyJson
  import opened SearchStream
  import opened Chat

  /** The frames carrying `payloads`, in order. */
  function Frames(payloads: seq<string>): (frames: seq<string>)
    ensures |frames| == |payloads|
    ensures forall i :: 0 <= i < |payloads| ==> frames[i] == Frame(payloads[i])
  {
    seq(|payloads|, i requires 0 <= i < |payloads| => Frame(payloads[i]))
  }

  /** The `data:` lines of the frames carrying `payloads`. */
  function DataLines(payloads: seq<string>): (lines: seq<string>)
    ensures |lines| == |payloads|
    ensures forall i :: 0 <= i < |payloads| ==> lines[i] == DataPrefix + payloads[i]
  {
    seq(|payloads|, i requires 0 <= i < |payloads| => DataPrefix + payloads[i])
  }

  lemma DataLinesAppend(x: seq<string>, y: seq<string>)
    ensures DataLines(x + y) == DataLines(x) + DataLines(y)
  {
    var l := DataLines(x + y);
    var r := DataLines(x) + DataLines(y);
    forall i | 0 <= i < |l|
      ensures l[i] == r[i]
    {
      if i < |x| {
        assert (x + y)[i] == x[i];
      } else {
        assert (x + y)[i] == y[i - |x|];
      }
    }
  }

  /** The lines `split('\n')` gives for those frames: each `data:` line, then an empty line. */
  function FrameLines(payloads: seq<string>): seq<string>
    decreases |payloads|
  {
    if payloads == [] then [""] else [DataPrefix + payloads[0], ""] + FrameLines(payloads[1..])
  }

  /** The lines the page does not skip as empty. */
  function NonBlank(lines: seq<string>): (r: seq<string>)
    ensures forall k :: 0 <= k < |r| ==> !IsBlank(r[k])
    decreases |lines|
  {
    if lines == [] then []
    else if IsBlank(lines[0]) then NonBlank(lines[1..])
    else [lines[0]] + NonBlank(lines[1..])
  }

  predicate NoLineBreak(s: string) {
    forall i :: 0 <= i < |s| ==> s[i] != '\n'
  }

  /** A `data:` line carrying a payload without a line break has none either. */
  lemma DataLineHasNoBreak(p: string)
    requires NoLineBreak(p)
    ensures NoLineBreak(DataPrefix + p)
  {
    forall i | 0 <= i < |DataPrefix + p|
      ensures (DataPrefix + p)[i] != '\n'
    {
      if i >= |DataPrefix| {
        assert (DataPrefix + p)[i] == p[i - |DataPrefix|];
      }
    }
  }

  /** Splitting the text of whole frames on `"\n"` gives a `data:` line and an empty line per frame. */
  lemma {:induction false} SplitFrames(payloads: seq<string>)
    requires forall i :: 0 <= i < |payloads| ==> NoLineBreak(payloads[i])
    ensures Split(Concat(Frames(payloads)), "\n") == FrameLines(payloads)
    decreases |payloads|
  {
    if payloads == [] {
      assert Frames(payloads) == [];
    } else {
      var rest := Concat(Frames(payloads[1..]));
      assert Frames(payloads)[1..] == Frames(payloads[1..]);
      assert Concat(Frames(payloads)) == Frame(payloads[0]) + rest;
      SplitFrameHead(payloads[0], rest);
      SplitFrames(payloads[1..]);
    }
  }

  /** One frame at the head of the text gives its `data:` line and an empty line. */
  lemma SplitFrameHead(p: string, rest: string)
    requires NoLineBreak(p)
    ensures Split(Frame(p) + rest, "\n") == [DataPrefix + p, ""] + Split(rest, "\n")
  {
    assert Frame(p) + rest == (DataPrefix + p) + ['\n'] + (['\n'] + rest);
    DataLineHasNoBreak(p);
    SplitAtFirst(DataPrefix + p, '\n', ['\n'] + rest);
    SplitAtFirst("", '\n', rest);
    assert "" + ['\n'] + rest == ['\n'] + rest;
  }

  /**
   * The round trip of the framing: split on `"\n"` with the empty lines
   * skipped, the text of whole frames gives back one `data:` line per
   * frame, in order.
   */
  lemma {:induction false} FramesRoundTrip(payloads: seq<string>)
    requires forall i :: 0 <= i < |payloads| ==> NoLineBreak(payloads[i])
    ensures NonBlank(Split(Concat(Frames(payloads)), "\n")) == DataLines(payloads)
  {
    SplitFrames(payloads);
    NonBlankFrameLines(payloads);
  }

  lemma {:induction false} NonBlankFrameLines(payloads: seq<string>)
    ensures NonBlank(FrameLines(payloads)) == DataLines(payloads)
    decreases |payloads|
  {
    if payloads != [] {
      var lines := FrameLines(payloads);
      assert !IsJsWhitespace((DataPrefix + payloads[0])[0]);
      assert lines[1..] == [""] + FrameLines(payloads[1..]);
      assert lines[1..][1..] == FrameLines(payloads[1..]);
      NonBlankFrameLines(payloads[1..]);
      assert DataLines(payloads) == [DataPrefix + payloads[0]] + DataLines(payloads[1..]);
    } else {
      assert FrameLines(payloads) == [""];
      assert [""][1..] == [];
    }
  }

  /** The page's line loop over whole frames reads only their `data:` lines. */
  lemma {:induction false} ScanFrameLines(a: Answer, payloads: seq<string>, parse: Parser)
    ensures Scan(a, FrameLines(payloads), parse) == Scan(a, DataLines(payloads), parse)
    decreases |payloads|
  {
    if payloads == [] {
      assert FrameLines(payloads) == [""];
      assert [""][1..] == [];
    } else {
      var lines := FrameLines(payloads);
      var b := Step(a, DataPrefix + payloads[0], parse).0;
      assert lines[1..] == [""] + FrameLines(payloads[1..]);
      assert lines[1..][1..] == FrameLines(payloads[1..]);
      assert DataLines(payloads)[1..] == DataLines(payloads[1..]);
      ScanFrameLines(b, payloads[1..], parse);
    }
  }

  /** A chunk of whole frames does what its `data:` lines do. */
  lemma ReadChunkOfFrames(a: Answer, payloads: seq<string>, parse: Parser)
    requires forall i :: 0 <= i < |payloads| ==> NoLineBreak(payloads[i])
    ensures ReadChunk(a, Concat(Frames(payloads)), parse) == Scan(a, DataLines(payloads), parse).0
  {
    SplitFrames(payloads);
    ScanFrameLines(a, payloads, parse);
  }

  /** Reading two runs of lines in turn, when the first has no `completed` event. */
  lemma {:induction false} ScanAppend(a: Answer, first: seq<string>, second: seq<string>, parse: Parser)
    requires !Scan(a, first, parse).1
    ensures Scan(a, first + second, parse) == Scan(Scan(a, first, parse).0, second, parse)
    decreases |first|
  {
    if first == [] {
      assert first + second == second;
    } else {
      assert (first + second)[1..] == first[1..] + second;
      ScanAppend(Step(a, first[0], parse).0, first[1..], second, parse);
    }
  }

  /** The text of a group of frames. */
  function Chunks(groups: seq<seq<string>>): (chunks: seq<string>)
    ensures |chunks| == |groups|
    ensures forall i :: 0 <= i < |groups| ==> chunks[i] == Concat(Frames(groups[i]))
  {
    seq(|groups|, i requires 0 <= i < |groups| => Concat(Frames(groups[i])))
  }

  function Flatten(groups: seq<seq<string>>): seq<string>
    decreases |groups|
  {
    if groups == [] then [] else groups[0] + Flatten(groups[1..])
  }

  /** A `data:` line is not blank, and the page hands what follows the prefix to `JSON.parse`. */
  lemma StepData(a: Answer, payload: string, parse: Parser)
    ensures Step(a, DataPrefix + payload, parse) == Apply(a, parse(payload))
    ensures CompletedLine(DataPrefix + payload, parse) <==> parse(payload).Some? && parse(payload).value.Completed?
  {
    var line := DataPrefix + payload;
    assert line[0] == 'd';
    assert !IsJsWhitespace(line[0]);
    assert !IsBlank(line);
    assert line[..|DataPrefix|] == DataPrefix;
    assert StartsWith(line, DataPrefix);
    assert line[|DataPrefix|..] == payload;
    assert ReplaceFirst(line, DataPrefix, "") == payload;
  }

  /**
   * When every chunk holds whole frames, how the frames are grouped into
   * chunks does not matter, as long as only the last frame can be a
   * `completed` event.
   */
  lemma {:induction false} ReadWholeFrames(a: Answer, groups: seq<seq<string>>, parse: Parser)
    requires forall i :: 0 <= i < |groups| ==> groups[i] != []
    requires forall i :: 0 <= i < |Flatten(groups)| ==> NoLineBreak(Flatten(groups)[i])
    requires forall i :: 0 <= i < |Flatten(groups)| - 1 ==> !CompletedLine(DataPrefix + Flatten(groups)[i], parse)
    ensures ReadChunks(a, Chunks(groups), parse) == Scan(a, DataLines(Flatten(groups)), parse).0
    decreases |groups|
  {
    if groups != [] {
      var g := groups[0];
      var all := Flatten(groups);
      var rest := Flatten(groups[1..]);
      assert all == g + rest;
      assert forall i :: 0 <= i < |g| ==> g[i] == all[i];
      assert forall i :: 0 <= i < |rest| ==> rest[i] == all[|g| + i];
      ReadChunkOfFrames(a, g, parse);
      var b := Scan(a, DataLines(g), parse).0;
      assert Chunks(groups)[1..] == Chunks(groups[1..]);
      DataLinesAppend(g, rest);
      if |groups| == 1 {
        assert rest == [];
        assert DataLines(g) + DataLines(rest) == DataLines(g);
      } else {
        assert groups[1..][0] == groups[1];
        assert rest == groups[1] + Flatten(groups[2..]) by { assert groups[1..][1..] == groups[2..]; }
        ScanStops(a, DataLines(g), parse);
        ReadWholeFrames(b, groups[1..], parse);
        ScanAppend(a, DataLines(g), DataLines(rest), parse);
      }
    }
  }

  /**
   * The text JavaScript makes of a field of the parsed value: what a
   * template literal such as `${data.message}` or a `+=` onto a string
   * gives. A missing field is `undefined`; an array is its items' texts
   * joined by commas, with `null` items left empty; an object is
   * `[object Object]`.
   */
  function JsText(field: Option<Value>): string {
    match field
    case None => "undefined"
    case Some(v) => JsValueText(v)
  }

  function JsValueText(v: Value): string
    decreases v
  {
    match v
    case NoneValue => "null"
    case BoolValue(b) => if b then "true" else "false"
    case IntValue(i) => IntToString(i)
    case StrValue(s) => s
    case ListValue(items) =>
      Join(seq(|items|, k requires 0 <= k < |items| => if items[k].NoneValue? then "" else JsValueText(items[k])), ",")
    case DictValue(_) => "[object Object]"
    case ObjectValue(_) => "[object Object]"
  }

  /** `data.result` is missing or `null`: reading `final_response` from it throws. */
  predicate NoResult(result: Option<Value>) {
    result.None? || result == Some(NoneValue)
  }

  /** One of the statuses the page has a branch for. */
  predicate HandledStatus(status: Option<Value>) {
    status == Some(StrValue("error")) || status == Some(StrValue("processing")) || status == Some(StrValue("completed"))
  }

  /**
   * What the page does with the value `JSON.parse` returned. `None` is the
   * inner `catch`: it is taken exactly when `data` is `null` (reading its
   * `status` throws) or when a `completed` dict has no `result` or a
   * `null` one. Every other value that is not a dict with a handled
   * status is ignored.
   */
  function Decode(v: Value): (e: Option<Event>)
    ensures e.None? <==>
      v.NoneValue? || (v.DictValue? && Lookup(v.entries, "status") == Some(StrValue("completed")) && NoResult(Lookup(v.entries, "result")))
    ensures e == Some(OtherStatus) <==> !v.NoneValue? && !(v.DictValue? && HandledStatus(Lookup(v.entries, "status")))
  {
    assert "completed" != "error" && "completed" != "processing" && "error" != "processing" by {
      assert "completed"[0] != "error"[0] && "completed"[0] != "processing"[0] && "error"[0] != "processing"[0];
    }
    match v
    case NoneValue => None
    case DictValue(entries) => DecodeFields(Lookup(entries, "status"), entries)
    case _ => Some(OtherStatus)
  }

  /**
   * The branches of the page on `data.status`. The shown fields are taken
   * as their JavaScript text. A `result` that is not a dict has no
   * properties, so its fields read as `undefined`.
   */
  function DecodeFields(status: Option<Value>, entries: seq<Entry>): Option<Event> {
    if status == Some(StrValue("error")) then Some(Failed(JsText(Lookup(entries, "message"))))
    else if status == Some(StrValue("processing")) then Some(Progress(JsText(Lookup(entries, "message"))))
    else if status == Some(StrValue("completed")) then DecodeCompletedResult(Lookup(entries, "result"))
    else Some(OtherStatus)
  }

  /** The `completed` branch: nothing is shown while `data.result` is missing or `null`. */
  function DecodeCompletedResult(result: Option<Value>): Option<Event> {
    match result
    case None => None
    case Some(NoneValue) => None
    case Some(DictValue(fields)) => Some(DecodeResult(fields))
    case Some(_) => Some(DecodeResult([]))
  }

  /** `data.result.final_response`, `.iterations` and `.total_tokens`, as text. */
  function DecodeResult(result: seq<Entry>): Event {
    Event.Completed(JsText(Lookup(result, "final_response")), JsText(Lookup(result, "iterations")), JsText(Lookup(result, "total_tokens")))
  }

  /** `JSON.parse` reads back the text `json.dumps` wrote for `v`. */
  predicate ParsesBack(parse: Parser, v: Value) {
    Dumps(v).Success? ==> parse(Dumps(v).value) == Decode(v)
  }

  /** The payloads of the `processing` frames, one per tick. */
  function ProcessingPayloads(ticks: nat): (ps: seq<string>)
    ensures |ps| == ticks
    ensures forall i :: 0 <= i < ticks ==> ps[i] == ProcessingPayload(i + 1)
  {
    seq(ticks, i requires 0 <= i < ticks => ProcessingPayload(i + 1))
  }

  /** The payloads of the frames `generate()` sends, in order. */
  function EmissionPayloads(query: string, worker: Worker): seq<string> {
    [StartingPayload(query)] + ProcessingPayloads(worker.ticks) + [TerminalPayload(worker.outcome)]
  }

  /** The frames `generate()` sends are the frames of `EmissionPayloads`. */
  lemma EmissionIsFrames(frames: seq<string>, query: string, worker: Worker)
    requires IsEmission(frames, query, worker)
    ensures frames == Frames(EmissionPayloads(query, worker))
  {
    var ps := EmissionPayloads(query, worker);
    forall i | 0 <= i < |ps|
      ensures frames[i] == Frame(ps[i])
    {
      if 0 < i <= worker.ticks {
        assert ps[i] == ProcessingPayload(i);
      }
    }
  }

  /** No payload `generate()` sends holds a line break. */
  lemma EmissionPrintable(query: string, worker: Worker)
    ensures forall i :: 0 <= i < |EmissionPayloads(query, worker)| ==> NoLineBreak(EmissionPayloads(query, worker)[i])
  {
    var ps := EmissionPayloads(query, worker);
    forall i | 0 <= i < |ps|
      ensures IsPrintableAscii(ps[i])
    {
      if i == 0 {
        StatusPayloadPrintable(Starting, "Starting search for: " + query);
      } else if i <= worker.ticks {
        assert ps[i] == ProcessingPayload(i);
        StatusPayloadPrintable(Processing, ProcessingMessage(i));
      } else {
        TerminalPayloadPrintable(worker.outcome);
      }
    }
  }

  /** What the page makes of the three kinds of status dict. */
  lemma DecodeStatus(status: Status, message: string)
    ensures Decode(StatusValue(status, message)) ==
      match status
      case Starting => Some(OtherStatus)
      case Processing => Some(Progress(message))
      case Error => Some(Failed(message))
      case Completed => None
  {
    var entries := StatusValue(status, message).entries;
    assert Lookup(entries, "status") == Some(StrValue(StatusName(status)));
    assert Lookup(entries, "message") == Some(StrValue(message));
    assert Lookup(entries, "result") == None;
  }

  /** `JSON.parse` of a status frame's payload gives what the page decodes from the status dict. */
  lemma ParsedStatus(status: Status, message: string, parse: Parser)
    requires ParsesBack(parse, StatusValue(status, message))
    ensures parse(StatusPayload(status, message)) == Decode(StatusValue(status, message))
  {
    StatusValueSerializes(status, message);
  }

  /** A run of `processing` lines: the bot message shows the latest one. */
  lemma {:induction false} ScanProgress(a: Answer, payloads: seq<string>, messages: seq<string>, parse: Parser)
    requires |payloads| == |messages|
    requires forall i :: 0 <= i < |payloads| ==> parse(payloads[i]) == Some(Progress(messages[i]))
    ensures Scan(a, DataLines(payloads), parse) ==
      (if payloads == [] then a else a.(last := a.last.(content := messages[|messages| - 1])), false)
    decreases |payloads|
  {
    if payloads != [] {
      var b := a.(last := a.last.(content := messages[0]));
      StepData(a, payloads[0], parse);
      assert DataLines(payloads)[1..] == DataLines(payloads[1..]);
      ScanProgress(b, payloads[1..], messages[1..], parse);
    }
  }

  /** Only the last of the lines can be a `completed` line. */
  lemma NoEarlyCompletion(first: string, middle: seq<string>, messages: seq<string>, last: string, parse: Parser)
    requires parse(first) == Some(OtherStatus)
    requires |middle| == |messages|
    requires forall i :: 0 <= i < |middle| ==> parse(middle[i]) == Some(Progress(messages[i]))
    ensures var all := [first] + middle + [last];
      forall i :: 0 <= i < |all| - 1 ==> !CompletedLine(DataPrefix + all[i], parse)
  {
    var all := [first] + middle + [last];
    forall i | 0 <= i < |all| - 1
      ensures !CompletedLine(DataPrefix + all[i], parse)
    {
      StepData(Start, all[i], parse);
      if i > 0 {
        assert all[i] == middle[i - 1];
      }
    }
  }

  /** A `data:` line the page ignores is skipped by the line loop. */
  lemma ScanIgnored(a: Answer, payload: string, rest: seq<string>, parse: Parser)
    requires parse(payload) == Some(OtherStatus)
    ensures Scan(a, [DataPrefix + payload] + rest, parse) == Scan(a, rest, parse)
  {
    StepData(a, payload, parse);
    assert ([DataPrefix + payload] + rest)[1..] == rest;
  }

  /** The last `data:` line of a run is applied to the answer as the run left it. */
  lemma ScanLast(a: Answer, lines: seq<string>, last: string, parse: Parser)
    requires !Scan(a, lines, parse).1
    ensures Scan(a, lines + [DataPrefix + last], parse).0 == Apply(Scan(a, lines, parse).0, parse(last)).0
  {
    ScanAppend(a, lines, [DataPrefix + last], parse);
    ScanOne(Scan(a, lines, parse).0, DataPrefix + last, parse);
    StepData(Scan(a, lines, parse).0, last, parse);
  }

  /**
   * Scanning the lines of a frame the page ignores, a run of `processing`
   * frames and a last frame.
   */
  lemma ScanEvents(first: string, middle: seq<string>, messages: seq<string>, last: string, parse: Parser)
    requires parse(first) == Some(OtherStatus)
    requires |middle| == |messages|
    requires forall i :: 0 <= i < |middle| ==> parse(middle[i]) == Some(Progress(messages[i]))
    ensures var shown := if messages == [] then "" else messages[|messages| - 1];
      Scan(Start, DataLines([first] + middle + [last]), parse).0 == Apply(Answer(Placeholder.(content := shown), ""), parse(last)).0
  {
    var rest := DataLines(middle) + [DataPrefix + last];
    assert DataLines([first] + middle + [last]) == [DataPrefix + first] + rest;
    ScanIgnored(Start, first, rest, parse);
    ScanProgress(Start, middle, messages, parse);
    ScanLast(Start, DataLines(middle), last, parse);
  }

  /**
   * Reading a stream of whole frames: a frame the page ignores, a run of
   * `processing` frames, then a last frame, grouped into chunks in any way.
   * The last frame is applied to the bot message as the `processing`
   * frames left it.
   */
  lemma ReadEvents(groups: seq<seq<string>>, first: string, middle: seq<string>, messages: seq<string>, last: string, parse: Parser)
    requires Flatten(groups) == [first] + middle + [last]
    requires forall i :: 0 <= i < |groups| ==> groups[i] != []
    requires forall i :: 0 <= i < |Flatten(groups)| ==> NoLineBreak(Flatten(groups)[i])
    requires parse(first) == Some(OtherStatus)
    requires |middle| == |messages|
    requires forall i :: 0 <= i < |middle| ==> parse(middle[i]) == Some(Progress(messages[i]))
    ensures var shown := if messages == [] then "" else messages[|messages| - 1];
      ReadChunks(Start, Chunks(groups), parse) == Apply(Answer(Placeholder.(content := shown), ""), parse(last)).0
  {
    NoEarlyCompletion(first, middle, messages, last, parse);
    ReadWholeFrames(Start, groups, parse);
    ScanEvents(first, middle, messages, last, parse);
  }

  /** What the bot message shows after `ticks` `processing` frames. */
  function Shown(ticks: nat): string {
    if ticks == 0 then "" else ProcessingMessage(ticks)
  }

  /** The messages of the `processing` frames, one per tick. */
  function ProcessingMessages(ticks: nat): (ms: seq<string>)
    ensures |ms| == ticks
    ensures forall k :: 1 <= k <= ticks ==> ms[k - 1] == ProcessingMessage(k)
  {
    seq(ticks, i requires 0 <= i < ticks => ProcessingMessage(i + 1))
  }

  /** `JSON.parse` reads back every frame `generate()` wrote for this query and worker. */
  predicate ReadsBack(parse: Parser, query: string, worker: Worker) {
    && ParsesBack(parse, StatusValue(Starting, "Starting search for: " + query))
    && (forall k :: 1 <= k <= worker.ticks ==> ParsesBack(parse, StatusValue(Processing, ProcessingMessage(k))))
    && ParsesBack(parse, TerminalValue(worker.outcome))
  }

  /** The events the page sees for the `starting` and `processing` frames. */
  predicate ProgressEvents(parse: Parser, first: string, middle: seq<string>, messages: seq<string>) {
    && parse(first) == Some(OtherStatus)
    && |middle| == |messages|
    && (forall i :: 0 <= i < |middle| ==> parse(middle[i]) == Some(Progress(messages[i])))
  }

  /** The page reads the `starting` and `processing` frames back as the backend wrote them. */
  lemma ProgressParsed(query: string, worker: Worker, parse: Parser)
    requires ReadsBack(parse, query, worker)
    ensures ProgressEvents(parse, StartingPayload(query), ProcessingPayloads(worker.ticks), ProcessingMessages(worker.ticks))
  {
    var ticks := worker.ticks;
    ParsedStatus(Starting, "Starting search for: " + query, parse);
    DecodeStatus(Starting, "Starting search for: " + query);
    forall i | 0 <= i < ticks
      ensures parse(ProcessingPayloads(ticks)[i]) == Some(Progress(ProcessingMessages(ticks)[i]))
    {
      ParsedStatus(Processing, ProcessingMessage(i + 1), parse);
      DecodeStatus(Processing, ProcessingMessage(i + 1));
    }
  }

  /** `ReadEvents` for the frames of one emission. */
  lemma ReadEmissionEvents(groups: seq<seq<string>>, first: string, middle: seq<string>, messages: seq<string>, last: string, parse: Parser)
    requires Flatten(groups) == [first] + middle + [last]
    requires forall i :: 0 <= i < |groups| ==> groups[i] != []
    requires forall i :: 0 <= i < |Flatten(groups)| ==> NoLineBreak(Flatten(groups)[i])
    requires ProgressEvents(parse, first, middle, messages)
    ensures var shown := if messages == [] then "" else messages[|messages| - 1];
      ReadChunks(Start, Chunks(groups), parse) == Apply(Answer(Placeholder.(content := shown), ""), parse(last)).0
  {
    ReadEvents(groups, first, middle, messages, last, parse);
  }

  /**
   * Reading `generate()`'s frames, grouped into chunks of whole frames:
   * the terminal frame is applied to the bot message as the last
   * `processing` frame left it.
   */
  lemma ReadEmission(query: string, worker: Worker, groups: seq<seq<string>>, parse: Parser)
    requires Flatten(groups) == EmissionPayloads(query, worker)
    requires forall i :: 0 <= i < |groups| ==> groups[i] != []
    requires ReadsBack(parse, query, worker)
    ensures ReadChunks(Start, Chunks(groups), parse) ==
      Apply(Answer(Placeholder.(content := Shown(worker.ticks)), ""), parse(TerminalPayload(worker.outcome))).0
  {
    ProgressParsed(query, worker, parse);
    EmissionPrintable(query, worker);
    ReadEmissionEvents(groups, StartingPayload(query), ProcessingPayloads(worker.ticks), ProcessingMessages(worker.ticks), TerminalPayload(worker.outcome), parse);
  }

  /**
   * The whole exchange when the worker raised: whatever the grouping of
   * `generate()`'s frames into chunks of whole frames, the bot message
   * ends as `Error: <message>` and no full content is kept.
   */
  lemma StreamShowsRaise(query: string, worker: Worker, groups: seq<seq<string>>, parse: Parser)
    requires Flatten(groups) == EmissionPayloads(query, worker)
    requires forall i :: 0 <= i < |groups| ==> groups[i] != []
    requires ReadsBack(parse, query, worker)
    requires worker.outcome.Raised?
    ensures ReadChunks(Start, Chunks(groups), parse) == Answer(Message("Error: " + worker.outcome.message, true, None), "")
  {
    ReadEmission(query, worker, groups, parse);
    TerminalParsed(worker.outcome, parse);
  }

  /**
   * The same when the worker returned a dict with an `error` entry: the
   * bot message shows that value's text, so a string shows as itself.
   */
  lemma StreamShowsError(query: string, worker: Worker, groups: seq<seq<string>>, parse: Parser, err: Value)
    requires Flatten(groups) == EmissionPayloads(query, worker)
    requires forall i :: 0 <= i < |groups| ==> groups[i] != []
    requires ReadsBack(parse, query, worker)
    requires worker.outcome.Returned? && Lookup(worker.outcome.result, "error") == Some(err) && Serializable(err)
    ensures ReadChunks(Start, Chunks(groups), parse) == Answer(Message("Error: " + JsText(Some(err)), true, None), "")
  {
    ReadEmission(query, worker, groups, parse);
    TerminalParsed(worker.outcome, parse);
  }

  /**
   * The same when the worker returned a result without `error`: the bot
   * message ends as the agent's final response with its response time,
   * and that response is the full content kept for the history.
   */
  lemma StreamShowsResult(query: string, worker: Worker, groups: seq<seq<string>>, parse: Parser)
    requires Flatten(groups) == EmissionPayloads(query, worker)
    requires forall i :: 0 <= i < |groups| ==> groups[i] != []
    requires ReadsBack(parse, query, worker)
    requires worker.outcome.Returned? && Lookup(worker.outcome.result, "error").None?
    requires Serializable(DictValue(worker.outcome.result))
    ensures var r := worker.outcome.result;
      var f := JsText(Lookup(r, "final_response"));
      ReadChunks(Start, Chunks(groups), parse) ==
        Answer(Message(f, true, Some(ResponseTime(JsText(Lookup(r, "iterations")), JsText(Lookup(r, "total_tokens"))))), f)
  {
    ReadEmission(query, worker, groups, parse);
    TerminalParsed(worker.outcome, parse);
    ApplyDecoded(Placeholder.(content := Shown(worker.ticks)), parse(TerminalPayload(worker.outcome)));
  }

  /** A `completed` event replaces the bot message's text and sets its response time. */
  lemma ApplyDecoded(last: Message, event: Option<Event>)
    requires event.Some? && event.value.Completed?
    ensures var e := event.value;
      Apply(Answer(last, ""), event).0 ==
        Answer(last.(content := e.finalResponse, responseTime := Some(ResponseTime(e.iterations, e.totalTokens))), e.finalResponse)
  {
  }

  /** A dict whose status is `completed` decodes to the fields of its `result` dict. */
  lemma DecodeStatusCompleted(entries: seq<Entry>, result: seq<Entry>)
    requires Lookup(entries, "status") == Some(StrValue("completed"))
    requires Lookup(entries, "result") == Some(DictValue(result))
    ensures Decode(DictValue(entries)) == Some(DecodeResult(result))
  {
    assert "completed" != "error" && "completed" != "processing" by {
      assert "completed"[0] != "error"[0] && "completed"[0] != "processing"[0];
    }
    assert DecodeCompletedResult(Some(DictValue(result))) == Some(DecodeResult(result));
    assert DecodeFields(Some(StrValue("completed")), entries) == Some(DecodeResult(result));
    assert Decode(DictValue(entries)) == DecodeFields(Lookup(entries, "status"), entries);
  }

  /** What the page decodes from a `completed` dict: the fields of its result. */
  lemma DecodeCompleted(result: seq<Entry>)
    ensures Decode(CompletedValue(result)) == Some(DecodeResult(result))
  {
    var entries := CompletedValue(result).entries;
    assert "result" != "status" by { assert "result"[1] != "status"[1]; }
    assert Lookup(entries, "status") == Some(StrValue("completed"));
    assert Lookup(entries, "result") == Some(DictValue(result));
    DecodeStatusCompleted(entries, result);
  }

  /** What `JSON.parse` makes of the terminal frame, by outcome. */
  lemma TerminalParsed(outcome: Outcome, parse: Parser)
    requires ParsesBack(parse, TerminalValue(outcome))
    ensures outcome.Raised? ==> parse(TerminalPayload(outcome)) == Some(Failed(outcome.message))
    ensures outcome.Returned? && Lookup(outcome.result, "error").Some? && Serializable(Lookup(outcome.result, "error").value) ==>
      parse(TerminalPayload(outcome)) == Some(Failed(JsText(Lookup(outcome.result, "error"))))
    ensures outcome.Returned? && Lookup(outcome.result, "error").None? && Serializable(DictValue(outcome.result)) ==>
      parse(TerminalPayload(outcome)) == Some(DecodeResult(outcome.result))
  {
    match outcome
    case Raised(m) =>
      TerminalOnRaise(m);
      assert TerminalValue(outcome) == StatusValue(Error, m);
      ParsedStatus(Error, m, parse);
      DecodeStatus(Error, m);
    case Returned(result) =>
      var err := Lookup(result, "error");
      if err.Some? && Serializable(err.value) {
        TerminalParsedError(result, err.value, parse);
      } else if err.None? && Serializable(DictValue(result)) {
        TerminalParsedCompleted(result, parse);
      }
  }

  /** A result with a serializable `error` value parses to an `error` event carrying that value's text. */
  lemma TerminalParsedError(result: seq<Entry>, err: Value, parse: Parser)
    requires Lookup(result, "error") == Some(err) && Serializable(err)
    requires ParsesBack(parse, TerminalValue(Returned(result)))
    ensures parse(TerminalPayload(Returned(result))) == Some(Failed(JsText(Some(err))))
  {
    var t := TerminalValue(Returned(result));
    assert t == DictValue([Entry("status", StrValue("error")), Entry("message", err)]);
    assert Serializable(t) by {
      assert forall k :: 0 <= k < |t.entries| ==> Serializable(t.entries[k].value);
    }
    DumpsSpec(t);
    assert "message" != "status" by { assert "message"[0] != "status"[0]; }
    assert Lookup(t.entries, "status") == Some(StrValue("error"));
    assert Lookup(t.entries, "message") == Some(err);
  }

  lemma TerminalParsedCompleted(result: seq<Entry>, parse: Parser)
    requires Lookup(result, "error").None? && Serializable(DictValue(result))
    requires ParsesBack(parse, TerminalValue(Returned(result)))
    ensures parse(TerminalPayload(Returned(result))) == Some(DecodeResult(result))
  {
    TerminalOnResult(result);
    var completed := CompletedValue(result);
    assert TerminalValue(Returned(result)) == completed;
    assert TerminalPayload(Returned(result)) == Dumps(completed).value;
    DecodeCompleted(result);
  }

  /**
   * A frame cut in two by the chunking is lost: the first half is a
   * `data:` line whose JSON does not parse, the second is not a `data:`
   * line, and the page keeps no tail between chunks. Read whole, the same
   * frame would have been applied.
   */
  lemma SplitFrameLost(a: Answer, payload: string, cut: nat, parse: Parser)
    requires NoLineBreak(payload) && 0 < cut < |payload|
    requires parse(payload[..cut]).None?
    requires !StartsWith(payload[cut..], DataPrefix)
    ensures ReadChunks(a, [Frame(payload)], parse) == Apply(a, parse(payload)).0
    ensures ReadChunks(a, [DataPrefix + payload[..cut], payload[cut..] + "\n\n"], parse) == a
  {
    WholeFrameRead(a, payload, parse);
    HeadIgnored(a, payload[..cut], parse);
    TailIgnored(a, payload[cut..], parse);
    var chunks := [DataPrefix + payload[..cut], payload[cut..] + "\n\n"];
    assert chunks[1..] == [payload[cut..] + "\n\n"];
    assert chunks[1..][1..] == [];
    assert ReadChunks(a, chunks, parse) == ReadChunks(a, chunks[1..], parse);
  }

  /** A chunk holding one whole frame applies that frame's event. */
  lemma WholeFrameRead(a: Answer, payload: string, parse: Parser)
    requires NoLineBreak(payload)
    ensures ReadChunks(a, [Frame(payload)], parse) == Apply(a, parse(payload)).0
  {
    ReadChunkOfFrames(a, [payload], parse);
    assert Frames([payload]) == [Frame(payload)];
    assert Concat([Frame(payload)]) == Frame(payload) + Concat([]);
    assert Concat([Frame(payload)]) == Frame(payload);
    assert DataLines([payload]) == [DataPrefix + payload];
    ScanOne(a, DataPrefix + payload, parse);
    StepData(a, payload, parse);
    assert ReadChunk(a, Frame(payload), parse) == Apply(a, parse(payload)).0;
    assert [Frame(payload)][1..] == [];
  }

  /** `Scan` over one line is that line's step. */
  lemma ScanOne(a: Answer, line: string, parse: Parser)
    ensures Scan(a, [line], parse).0 == Step(a, line, parse).0
  {
    assert [line][1..] == [];
  }

  /** A chunk ending inside a frame's JSON: its one line does not parse and changes nothing. */
  lemma HeadIgnored(a: Answer, head: string, parse: Parser)
    requires NoLineBreak(head)
    requires parse(head).None?
    ensures ReadChunk(a, DataPrefix + head, parse) == a
  {
    DataLineHasNoBreak(head);
    SplitWithout(DataPrefix + head, '\n');
    ScanOne(a, DataPrefix + head, parse);
    StepData(a, head, parse);
  }

  /** A chunk starting inside a frame's JSON: its lines are not `data:` lines or are blank. */
  lemma TailIgnored(a: Answer, tail: string, parse: Parser)
    requires NoLineBreak(tail)
    requires !StartsWith(tail, DataPrefix)
    ensures ReadChunk(a, tail + "\n\n", parse) == a
  {
    SplitAtFirst(tail, '\n', "\n");
    assert tail + "\n\n" == tail + ['\n'] + "\n";
    SplitAtFirst("", '\n', "");
    assert "\n" == "" + ['\n'] + "";
    SplitWithout("", '\n');
    var lines := [tail, "", ""];
    assert Split(tail + "\n\n", "\n") == lines;
    assert Step(a, tail, parse) == (a, false);
    assert Step(a, "", parse) == (a, false);
    assert lines[1..] == ["", ""];
    assert Scan(a, lines, parse) == Scan(a, ["", ""], parse);
    assert ["", ""][1..] == [""];
    assert Scan(a, ["", ""], parse) == Scan(a, [""], parse);
    ScanOne(a, "", parse);
  }
}
