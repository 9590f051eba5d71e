/**
 * The research agent's own control flow (backend/src/agent.py):
 * `web_search`, which filters and formats the Brave results, and
 * `run_agent_with_tools`, the bounded loop that calls the LLM, runs the
 * tools it asks for, grows the conversation history and counts tokens.
 *
 * The Brave client, the LLM call and the tools themselves are oracles:
 * the Brave outcome and the tool outcomes are values, and the LLM is a
 * function from the iteration number and the history it is shown to its
 * response.
 */
module Agent {
  import opened Wrappers
  import opened Text

  // ---------------------------------------------------------------------
  // web_search
  // ---------------------------------------------------------------------

  /** A result's `profile` dict; a missing key is `None`. */
  datatype Profile = Profile(name: Option<string>, longName: Option<string>)

  /** One record of `results["web"]["results"]`; a missing key is `None`. */
  datatype Record = Record(profile: Option<Profile>, url: Option<string>, title: Option<string>, description: Option<string>)

  /**
   * What `brave.search` gives: an exception with its text, or the raw
   * response, whose `web.results` list is `None` when either key is missing.
   */
  datatype BraveOutcome = Raised(message: string) | Response(results: Option<seq<Record>>)

  /** The text `web_search` returns for an exception. */
  function SearchError(message: string): string {
    "Error searching the web: " + message
  }

  /** `str()` of the `KeyError` raised for a missing key. */
  function KeyErrorText(key: string): string {
    "'" + key + "'"
  }

  /**
   * The block for a record that has a profile: the four lines
   * `"<name> - <long_name>"`, title, description and url, or the first
   * missing key in the order the source reads them.
   */
  function Block(r: Record): Result<string, string>
    requires r.profile.Some?
  {
    if r.url.None? then Failure("url")
    else if r.profile.value.name.None? then Failure("name")
    else if r.profile.value.longName.None? then Failure("long_name")
    else if r.title.None? then Failure("title")
    else if r.description.None? then Failure("description")
    else Success(Lines(r))
  }

  /** The four lines of a complete record. */
  function Lines(r: Record): string
    requires Complete(r)
  {
    Header(r) + "\n" + r.title.value + "\n" + r.description.value + "\n" + r.url.value
  }

  function Header(r: Record): string
    requires Complete(r)
  {
    r.profile.value.name.value + " - " + r.profile.value.longName.value
  }

  /** A record with a profile and every key the block reads. */
  predicate Complete(r: Record) {
    r.profile.Some? && r.url.Some? && r.profile.value.name.Some? && r.profile.value.longName.Some?
    && r.title.Some? && r.description.Some?
  }

  /** The loop over the results from the front, onto the blocks `acc` built so far. */
  function Summaries(acc: seq<string>, rs: seq<Record>): Result<seq<string>, string>
    decreases |rs|
  {
    if rs == [] then Success(acc)
    else if rs[0].profile.None? then Summaries(acc, rs[1..])
    else match Block(rs[0])
      case Failure(key) => Failure(key)
      case Success(b) => Summaries(acc + [b], rs[1..])
  }

  /** What `web_search` returns for the Brave outcome. */
  function WebSearchText(outcome: BraveOutcome): string {
    match outcome
    case Raised(m) => SearchError(m)
    case Response(results) =>
      var rs := if results.Some? then results.value else [];
      match Summaries([], rs)
      case Failure(key) => SearchError(KeyErrorText(key))
      case Success(blocks) => Join(blocks, "\n\n")
  }

  /** `web_search`: skip records without a profile, format the rest, join them with blank lines. */
  method WebSearch(outcome: BraveOutcome) returns (text: string)
    ensures text == WebSearchText(outcome)
  {
    match outcome {
      case Raised(m) =>
        return SearchError(m);
      case Response(results) =>
        var rs := if results.Some? then results.value else [];
        var summaries: seq<string> := [];
        var i := 0;
        while i < |rs|
          invariant 0 <= i <= |rs|
          invariant Summaries(summaries, rs[i..]) == Summaries([], rs)
        {
          var r := rs[i];
          assert rs[i..][1..] == rs[i + 1..];
          i := i + 1;
          if r.profile.None? {
            continue;
          }
          match Block(r) {
            case Failure(key) =>
              return SearchError(KeyErrorText(key));
            case Success(b) =>
              summaries := summaries + [b];
          }
        }
        text := Join(summaries, "\n\n");
    }
  }

  /** The records `web_search` keeps: those with a profile, in their order. */
  function Kept(rs: seq<Record>): (k: seq<Record>)
    ensures forall j :: 0 <= j < |k| ==> k[j].profile.Some?
    decreases |rs|
  {
    if rs == [] then []
    else if rs[0].profile.Some? then [rs[0]] + Kept(rs[1..])
    else Kept(rs[1..])
  }

  /** The blocks of complete records, one per record. */
  function Blocks(rs: seq<Record>): (bs: seq<string>)
    requires forall k :: 0 <= k < |rs| ==> Complete(rs[k])
  {
    seq(|rs|, k requires 0 <= k < |rs| => Lines(rs[k]))
  }

  /** The records kept are exactly the ones with a profile, and their order is kept. */
  lemma {:induction false} KeptFilters(rs: seq<Record>)
    ensures |Kept(rs)| <= |rs|
    ensures forall r :: r in Kept(rs) <==> r in rs && r.profile.Some?
    decreases |rs|
  {
    if rs != [] {
      KeptFilters(rs[1..]);
      assert rs == [rs[0]] + rs[1..];
    }
  }

  lemma {:induction false} KeptAppend(a: seq<Record>, b: seq<Record>)
    ensures Kept(a + b) == Kept(a) + Kept(b)
    decreases |a|
  {
    if a != [] {
      assert (a + b)[1..] == a[1..] + b;
      KeptAppend(a[1..], b);
    } else {
      assert a + b == b;
    }
  }

  /** Every record has the keys its block reads. */
  predicate AllComplete(rs: seq<Record>) {
    forall k :: 0 <= k < |rs| ==> Complete(rs[k])
  }

  lemma AllCompleteCons(r: Record, rest: seq<Record>)
    ensures AllComplete([r] + rest) <==> Complete(r) && AllComplete(rest)
  {
    var rs := [r] + rest;
    if Complete(r) && AllComplete(rest) {
      forall k | 0 <= k < |rs|
        ensures Complete(rs[k])
      {
        if k > 0 {
          assert rs[k] == rest[k - 1];
        }
      }
    }
    if AllComplete(rs) {
      assert rs[0] == r;
      forall k | 0 <= k < |rest|
        ensures Complete(rest[k])
      {
        assert rs[k + 1] == rest[k];
      }
    }
  }

  lemma BlocksCons(r: Record, rest: seq<Record>)
    requires Complete(r) && AllComplete(rest)
    ensures AllComplete([r] + rest)
    ensures Blocks([r] + rest) == [Lines(r)] + Blocks(rest)
  {
    AllCompleteCons(r, rest);
  }

  /**
   * The loop succeeds exactly when every kept record is complete, and then
   * adds one block per kept record, in order.
   */
  lemma {:induction false} SummariesAreBlocks(acc: seq<string>, rs: seq<Record>)
    ensures Summaries(acc, rs).Success? <==> AllComplete(Kept(rs))
    ensures Summaries(acc, rs).Success? ==> Summaries(acc, rs).value == acc + Blocks(Kept(rs))
    decreases |rs|
  {
    if rs == [] {
      assert acc + Blocks([]) == acc;
    } else if rs[0].profile.None? {
      assert Kept(rs) == Kept(rs[1..]);
      assert Summaries(acc, rs) == Summaries(acc, rs[1..]);
      SummariesAreBlocks(acc, rs[1..]);
    } else {
      var rest := Kept(rs[1..]);
      assert Kept(rs) == [rs[0]] + rest;
      AllCompleteCons(rs[0], rest);
      if Complete(rs[0]) {
        var b := Lines(rs[0]);
        assert Block(rs[0]) == Success(b);
        assert Summaries(acc, rs) == Summaries(acc + [b], rs[1..]);
        SummariesAreBlocks(acc + [b], rs[1..]);
        if AllComplete(rest) {
          BlocksCons(rs[0], rest);
          assert acc + [b] + Blocks(rest) == acc + ([b] + Blocks(rest));
        }
      } else {
        assert Block(rs[0]).Failure?;
        assert Summaries(acc, rs) == Failure(Block(rs[0]).error);
      }
    }
  }

  /** A text without a line break. */
  predicate OneLine(x: string) {
    forall i :: 0 <= i < |x| ==> x[i] != '\n'
  }

  /**
   * A block with no line break inside its fields splits back into the
   * four lines: header, title, description, url.
   */
  lemma BlockLines(r: Record)
    requires Complete(r)
    requires OneLine(Header(r)) && OneLine(r.title.value) && OneLine(r.description.value) && OneLine(r.url.value)
    ensures Split(Lines(r), "\n") == [Header(r), r.title.value, r.description.value, r.url.value]
  {
    var h, t, d, u := Header(r), r.title.value, r.description.value, r.url.value;
    var lines := [h, t, d, u];
    assert Join([u], "\n") == u;
    assert [d, u][1..] == [u];
    assert Join([d, u], "\n") == d + "\n" + u;
    assert [t, d, u][1..] == [d, u];
    assert Join([t, d, u], "\n") == t + "\n" + (d + "\n" + u);
    assert lines[1..] == [t, d, u];
    assert Join(lines, "\n") == Lines(r);
    SplitJoin(lines, '\n');
  }

  /** The keys a record's block reads. */
  const BlockKeys: set<string> := {"url", "name", "long_name", "title", "description"}

  /**
   * A failing loop stops at the first kept record that is not complete,
   * with the first key its block reads that the record lacks; that key is
   * one the block reads.
   */
  lemma {:induction false} SummariesFailure(acc: seq<string>, rs: seq<Record>) returns (i: nat)
    requires Summaries(acc, rs).Failure?
    ensures i < |Kept(rs)| && AllComplete(Kept(rs)[..i]) && !Complete(Kept(rs)[i])
    ensures Summaries(acc, rs).error == Block(Kept(rs)[i]).error
    ensures Summaries(acc, rs).error in BlockKeys
    decreases |rs|
  {
    if rs[0].profile.None? {
      i := SummariesFailure(acc, rs[1..]);
    } else {
      var rest := Kept(rs[1..]);
      assert Kept(rs) == [rs[0]] + rest;
      match Block(rs[0])
      case Failure(key) =>
        i := 0;
        assert Kept(rs)[..0] == [];
      case Success(b) =>
        var j := SummariesFailure(acc + [b], rs[1..]);
        i := j + 1;
        assert Kept(rs)[..i] == [rs[0]] + rest[..j];
        AllCompleteCons(rs[0], rest[..j]);
    }
  }

  /**
   * `web_search` on a Brave response: the kept records' blocks joined by a
   * blank line when every kept record is complete; otherwise the
   * `KeyError` text for the first key, in the order the block reads them,
   * that the first incomplete kept record lacks.
   */
  lemma WebSearchResult(results: seq<Record>)
    ensures AllComplete(Kept(results)) ==>
      WebSearchText(Response(Some(results))) == Join(Blocks(Kept(results)), "\n\n")
    ensures !AllComplete(Kept(results)) ==>
      var ks := Kept(results);
      exists i :: 0 <= i < |ks| && AllComplete(ks[..i]) && !Complete(ks[i])
        && Block(ks[i]).error in BlockKeys
        && WebSearchText(Response(Some(results))) == SearchError(KeyErrorText(Block(ks[i]).error))
  {
    SummariesAreBlocks([], results);
    if AllComplete(Kept(results)) {
      assert [] + Blocks(Kept(results)) == Blocks(Kept(results));
    } else {
      var i := SummariesFailure([], results);
    }
  }

  // ---------------------------------------------------------------------
  // run_agent_with_tools
  // ---------------------------------------------------------------------

  /** A message parameter of the conversation history. */
  datatype Msg = UserMsg(text: string) | AssistantMsg(text: string) | ToolMsg(tool: string, output: string)

  /** A tool call the LLM asked for, and what calling it gives: its output or the exception's text. */
  datatype ToolCall = ToolCall(name: string, outcome: Result<string, string>)

  /** What one LLM call returns; costs are left out. */
  datatype LlmResponse = LlmResponse(
    content: string,
    inputTokens: nat,
    outputTokens: nat,
    userMessage: Option<Msg>,
    assistantMessage: Msg,
    tools: seq<ToolCall>)

  /** The LLM: from the iteration number and the history it is given to its response. */
  type Llm = (nat, seq<Msg>) -> LlmResponse

  /** The dict the function returns, without `total_cost`. */
  datatype AgentResult = AgentResult(finalResponse: string, iterations: nat, totalTokens: nat, completed: bool)

  /** The output recorded for one tool: what it returned, or `"Error: <e>"`. */
  function ToolOutput(t: ToolCall): string {
    match t.outcome
    case Success(output) => output
    case Failure(e) => "Error: " + e
  }

  /** `tool_message_params(tools_and_outputs)`: one tool message per tool, in order. */
  function ToolMessages(tools: seq<ToolCall>): (ms: seq<Msg>)
    ensures |ms| == |tools|
    ensures forall k :: 0 <= k < |tools| ==> ms[k] == ToolMsg(tools[k].name, ToolOutput(tools[k]))
  {
    seq(|tools|, k requires 0 <= k < |tools| => ToolMsg(tools[k].name, ToolOutput(tools[k])))
  }

  /** The tool messages of two runs of tool calls, one after the other, are those of both runs. */
  lemma ToolMessagesAppend(a: seq<ToolCall>, b: seq<ToolCall>)
    ensures ToolMessages(a + b) == ToolMessages(a) + ToolMessages(b)
  {
    var l, r := ToolMessages(a + b), ToolMessages(a) + ToolMessages(b);
    forall k | 0 <= k < |a + b|
      ensures l[k] == r[k]
    {
      if k < |a| {
        assert (a + b)[k] == a[k];
      } else {
        assert (a + b)[k] == b[k - |a|];
      }
    }
  }

  /** The tool loop: calls every tool in order; an exception becomes that tool's output. */
  method CallTools(tools: seq<ToolCall>) returns (outputs: seq<Msg>)
    ensures outputs == ToolMessages(tools)
  {
    outputs := [];
    var i := 0;
    while i < |tools|
      invariant 0 <= i <= |tools|
      invariant outputs == ToolMessages(tools[..i])
    {
      var tool := tools[i];
      var output: string;
      match tool.outcome {
        case Success(o) =>
          output := o;
        case Failure(e) =>
          output := "Error: " + e;
      }
      outputs := outputs + [ToolMsg(tool.name, output)];
      assert tools[..i + 1] == tools[..i] + [tool];
      i := i + 1;
    }
    assert tools[..i] == tools;
  }

  /** The loop's variables between iterations; `responses` are the LLM's answers so far. */
  datatype State = State(iteration: nat, history: seq<Msg>, totalTokens: nat, responses: seq<LlmResponse>, stopped: bool)

  const Init := State(0, [], 0, [], false)

  /** The messages one iteration adds after the opening one: the assistant's, then one per tool. */
  function Turn(r: LlmResponse): seq<Msg> {
    [r.assistantMessage] + ToolMessages(r.tools)
  }

  /**
   * One iteration of the loop body: the user message on the first
   * iteration only, then the assistant message and one message per tool
   * (none when no tool was called, which ends the loop).
   */
  function Step(llm: Llm, s: State): State {
    var iteration := s.iteration + 1;
    var r := llm(iteration, s.history);
    var withUser := if iteration == 1 && r.userMessage.Some? then s.history + [r.userMessage.value] else s.history;
    State(iteration, withUser + Turn(r), s.totalTokens + r.inputTokens + r.outputTokens, s.responses + [r], |r.tools| == 0)
  }

  /** The loop: iterate while under the bound and no response has come back without tools. */
  function Run(llm: Llm, maxIterations: int, s: State): State
    decreases maxIterations - s.iteration
  {
    if s.stopped || s.iteration >= maxIterations then s else Run(llm, maxIterations, Step(llm, s))
  }

  lemma RunUnfolds(llm: Llm, maxIterations: int, s: State)
    requires !s.stopped && s.iteration < maxIterations
    ensures Run(llm, maxIterations, s) == Run(llm, maxIterations, Step(llm, s))
  {
  }

  /**
   * The return statement: the last response's content, the counters and
   * `completed`; `None` when the loop never ran, where `result` is unbound
   * and the return raises.
   */
  function Finish(s: State, maxIterations: int): Option<AgentResult> {
    if s.responses == [] then None
    else Some(AgentResult(s.responses[|s.responses| - 1].content, s.iteration, s.totalTokens, s.iteration < maxIterations))
  }

  /** `run_agent_with_tools` as a function of the LLM. */
  function RunAgent(llm: Llm, maxIterations: int): Option<AgentResult> {
    Finish(Run(llm, maxIterations, Init), maxIterations)
  }

  /**
   * The body of the loop: call the LLM with the history, count its
   * tokens, add the user message on the first iteration, the assistant
   * message, and the tool messages when tools were called.
   */
  method Iteration(llm: Llm, iteration: nat, history: seq<Msg>, totalTokens: nat, ghost responses: seq<LlmResponse>)
    returns (r: LlmResponse, newHistory: seq<Msg>, newTotal: nat)
    ensures Step(llm, State(iteration, history, totalTokens, responses, false))
      == State(iteration + 1, newHistory, newTotal, responses + [r], |r.tools| == 0)
  {
    r := llm(iteration + 1, history);
    newTotal := totalTokens + r.inputTokens + r.outputTokens;
    newHistory := history;
    if iteration + 1 == 1 && r.userMessage.Some? {
      newHistory := newHistory + [r.userMessage.value];
    }
    ghost var withUser := newHistory;
    newHistory := newHistory + [r.assistantMessage];
    if |r.tools| > 0 {
      var outputs := CallTools(r.tools);
      if |outputs| > 0 {
        newHistory := newHistory + outputs;
      }
    } else {
      assert ToolMessages(r.tools) == [];
    }
    assert newHistory == withUser + Turn(r);
  }

  /** The loop of `run_agent_with_tools`; also returns the conversation history it built. */
  method RunAgentWithTools(llm: Llm, maxIterations: int) returns (result: Option<AgentResult>, history: seq<Msg>)
    ensures result == RunAgent(llm, maxIterations)
    ensures history == Run(llm, maxIterations, Init).history
  {
    history := [];
    var totalTokens: nat := 0;
    var iteration: nat := 0;
    var last: Option<LlmResponse> := None;
    ghost var responses: seq<LlmResponse> := [];
    while iteration < maxIterations
      invariant Run(llm, maxIterations, State(iteration, history, totalTokens, responses, false)) == Run(llm, maxIterations, Init)
      invariant last == if responses == [] then None else Some(responses[|responses| - 1])
      decreases maxIterations - iteration
    {
      ghost var s := State(iteration, history, totalTokens, responses, false);
      RunUnfolds(llm, maxIterations, s);
      var r;
      r, history, totalTokens := Iteration(llm, iteration, history, totalTokens, responses);
      iteration := iteration + 1;
      responses := responses + [r];
      last := Some(r);
      if |r.tools| > 0 {
        continue;
      } else {
        break;
      }
    }
    if last.None? {
      result := None;
    } else {
      result := Some(AgentResult(last.value.content, iteration, totalTokens, iteration < maxIterations));
    }
  }

  // ---------------------------------------------------------------------
  // What the loop builds, stated over the list of responses
  // ---------------------------------------------------------------------

  function Turns(rs: seq<LlmResponse>): seq<Msg> {
    if rs == [] then [] else Turns(rs[..|rs| - 1]) + Turn(rs[|rs| - 1])
  }

  /** The user message, kept only from the first response and only when it has one. */
  function Opening(rs: seq<LlmResponse>): seq<Msg> {
    if rs != [] && rs[0].userMessage.Some? then [rs[0].userMessage.value] else []
  }

  /** The history after the given responses. */
  function Transcript(rs: seq<LlmResponse>): seq<Msg> {
    Opening(rs) + Turns(rs)
  }

  function SumTokens(rs: seq<LlmResponse>): nat {
    if rs == [] then 0 else SumTokens(rs[..|rs| - 1]) + rs[|rs| - 1].inputTokens + rs[|rs| - 1].outputTokens
  }

  function ToolCount(rs: seq<LlmResponse>): nat {
    if rs == [] then 0 else ToolCount(rs[..|rs| - 1]) + |rs[|rs| - 1].tools|
  }

  /** Each response is what the LLM gave for its call, on the history of the responses before it. */
  predicate Called(llm: Llm, rs: seq<LlmResponse>) {
    rs == [] || (Called(llm, rs[..|rs| - 1]) && rs[|rs| - 1] == llm(|rs|, Transcript(rs[..|rs| - 1])))
  }

  /** The k-th call (counting from 1) saw the history of the k - 1 responses before it. */
  lemma {:induction false} CalledAt(llm: Llm, rs: seq<LlmResponse>, k: nat)
    requires Called(llm, rs) && k < |rs|
    ensures rs[k] == llm(k + 1, Transcript(rs[..k]))
    decreases |rs|
  {
    var init := rs[..|rs| - 1];
    if k < |init| {
      CalledAt(llm, init, k);
      assert init[..k] == rs[..k];
    }
  }

  /** Every response but the last asked for tools. */
  predicate ToolsBeforeLast(rs: seq<LlmResponse>) {
    forall k :: 0 <= k < |rs| - 1 ==> |rs[k].tools| > 0
  }

  /** The loop's variables agree with the responses the LLM gave. */
  predicate Consistent(llm: Llm, s: State) {
    && s.iteration == |s.responses|
    && s.history == Transcript(s.responses)
    && s.totalTokens == SumTokens(s.responses)
    && Called(llm, s.responses)
    && ToolsBeforeLast(s.responses)
    && (s.stopped <==> (s.responses != [] && |s.responses[|s.responses| - 1].tools| == 0))
  }

  lemma TurnsAppend(rs: seq<LlmResponse>, r: LlmResponse)
    ensures Turns(rs + [r]) == Turns(rs) + Turn(r)
  {
    assert (rs + [r])[..|rs|] == rs;
  }

  lemma OpeningAppend(rs: seq<LlmResponse>, r: LlmResponse)
    ensures Opening(rs + [r]) == if rs == [] && r.userMessage.Some? then [r.userMessage.value] else Opening(rs)
  {
    if rs != [] {
      assert (rs + [r])[0] == rs[0];
    } else {
      assert (rs + [r])[0] == r;
    }
  }

  lemma TranscriptAppend(rs: seq<LlmResponse>, r: LlmResponse)
    ensures Transcript(rs + [r]) == (if rs == [] && r.userMessage.Some? then [r.userMessage.value] else Transcript(rs)) + Turn(r)
  {
    TurnsAppend(rs, r);
    OpeningAppend(rs, r);
    if rs == [] {
      assert Turns(rs) == [];
    }
  }

  lemma CalledAppend(llm: Llm, rs: seq<LlmResponse>, r: LlmResponse)
    requires Called(llm, rs) && r == llm(|rs| + 1, Transcript(rs))
    ensures Called(llm, rs + [r])
  {
    assert (rs + [r])[..|rs|] == rs;
  }

  lemma ToolsAppend(rs: seq<LlmResponse>, r: LlmResponse)
    requires ToolsBeforeLast(rs)
    requires rs == [] || |rs[|rs| - 1].tools| > 0
    ensures ToolsBeforeLast(rs + [r])
  {
    var rs' := rs + [r];
    forall k | 0 <= k < |rs'| - 1
      ensures |rs'[k].tools| > 0
    {
      assert rs'[k] == rs[k];
    }
  }

  lemma SumTokensAppend(rs: seq<LlmResponse>, r: LlmResponse)
    ensures SumTokens(rs + [r]) == SumTokens(rs) + r.inputTokens + r.outputTokens
  {
    assert (rs + [r])[..|rs|] == rs;
  }

  /** The state after one more response, built from the responses alone. */
  function After(rs: seq<LlmResponse>, r: LlmResponse): State {
    State(|rs| + 1, Transcript(rs + [r]), SumTokens(rs + [r]), rs + [r], |r.tools| == 0)
  }

  lemma AfterConsistent(llm: Llm, rs: seq<LlmResponse>, r: LlmResponse)
    requires Called(llm, rs) && ToolsBeforeLast(rs)
    requires rs == [] || |rs[|rs| - 1].tools| > 0
    requires r == llm(|rs| + 1, Transcript(rs))
    ensures Consistent(llm, After(rs, r))
  {
    CalledAppend(llm, rs, r);
    ToolsAppend(rs, r);
  }

  /** An iteration keeps the loop's variables consistent with the responses. */
  lemma StepConsistent(llm: Llm, s: State)
    requires Consistent(llm, s) && !s.stopped
    ensures Consistent(llm, Step(llm, s))
  {
    var rs := s.responses;
    var r := llm(s.iteration + 1, s.history);
    AfterConsistent(llm, rs, r);
    TranscriptAppend(rs, r);
    SumTokensAppend(rs, r);
    var t := Step(llm, s);
    if rs == [] {
      assert s.history == [];
    }
    assert t.history == Transcript(rs + [r]);
    assert t == After(rs, r);
  }

  /** The loop ends consistent, within the bound, and stopped or at the bound. */
  lemma {:induction false} RunConsistent(llm: Llm, maxIterations: int, s: State)
    requires Consistent(llm, s)
    ensures Consistent(llm, Run(llm, maxIterations, s))
    ensures Run(llm, maxIterations, s).stopped || Run(llm, maxIterations, s).iteration >= maxIterations
    ensures s.iteration <= maxIterations ==> Run(llm, maxIterations, s).iteration <= maxIterations
    ensures Run(llm, maxIterations, s).iteration >= s.iteration
    decreases maxIterations - s.iteration
  {
    if !(s.stopped || s.iteration >= maxIterations) {
      StepConsistent(llm, s);
      RunConsistent(llm, maxIterations, Step(llm, s));
    }
  }

  /** The result is bound exactly when the loop ran, which is exactly when the bound is positive. */
  lemma AgentAnswersIffPositive(llm: Llm, maxIterations: int)
    ensures RunAgent(llm, maxIterations).Some? <==> maxIterations > 0
  {
    RunConsistent(llm, maxIterations, Init);
    if maxIterations > 0 {
      var t := Step(llm, Init);
      assert t.responses != [];
      StepConsistent(llm, Init);
      RunConsistent(llm, maxIterations, t);
    }
  }

  /**
   * The loop runs at most `max_iterations` times and stops at the first
   * response without tools; `completed` holds exactly when that response
   * came before the last allowed iteration, so an answer on the last
   * iteration counts as not completed.
   */
  lemma AgentStopsAtFirstAnswer(llm: Llm, maxIterations: int)
    requires RunAgent(llm, maxIterations).Some?
    ensures var rs := Run(llm, maxIterations, Init).responses;
      var a := RunAgent(llm, maxIterations).value;
      && a.iterations == |rs| <= maxIterations
      && ToolsBeforeLast(rs)
      && a.finalResponse == rs[|rs| - 1].content
      && (|rs[|rs| - 1].tools| > 0 ==> a.iterations == maxIterations)
      && (a.completed <==> |rs[|rs| - 1].tools| == 0 && a.iterations < maxIterations)
  {
    var t := Run(llm, maxIterations, Init);
    RunConsistent(llm, maxIterations, Init);
    assert RunAgent(llm, maxIterations) == Finish(t, maxIterations);
    assert t.responses != [];
    assert t.iteration <= maxIterations;
    assert t.stopped || t.iteration >= maxIterations;
  }

  /** `total_tokens` adds up input and output tokens of every call. */
  lemma AgentTokens(llm: Llm, maxIterations: int)
    requires RunAgent(llm, maxIterations).Some?
    ensures RunAgent(llm, maxIterations).value.totalTokens == SumTokens(Run(llm, maxIterations, Init).responses)
  {
    RunConsistent(llm, maxIterations, Init);
  }

  /** The k-th LLM call was given the history the k - 1 iterations before it built. */
  lemma AgentCalls(llm: Llm, maxIterations: int, k: nat)
    requires k < |Run(llm, maxIterations, Init).responses|
    ensures var rs := Run(llm, maxIterations, Init).responses;
      rs[k] == llm(k + 1, Transcript(rs[..k]))
  {
    RunConsistent(llm, maxIterations, Init);
    CalledAt(llm, Run(llm, maxIterations, Init).responses, k);
  }

  /** The history is the opening user message, then each iteration's assistant and tool messages. */
  lemma AgentHistory(llm: Llm, maxIterations: int)
    ensures var s := Run(llm, maxIterations, Init);
      s.history == Transcript(s.responses)
  {
    RunConsistent(llm, maxIterations, Init);
  }

  /**
   * The history holds one user message at most (from the first iteration,
   * when there is one), one assistant message per iteration and one tool
   * message per tool call.
   */
  lemma {:induction false} TranscriptLength(rs: seq<LlmResponse>)
    ensures |Transcript(rs)| == |Opening(rs)| + |rs| + ToolCount(rs)
    ensures |Opening(rs)| <= 1
    decreases |rs|
  {
    if rs != [] {
      var init := rs[..|rs| - 1];
      TranscriptLength(init);
      if init != [] {
        assert init[0] == rs[0];
      }
    }
  }

  /** The history only grows: each call's history is a prefix of every later one. */
  lemma {:induction false} TranscriptGrows(rs: seq<LlmResponse>, k: nat)
    requires k <= |rs|
    ensures Transcript(rs[..k]) <= Transcript(rs)
    decreases |rs| - k
  {
    if k < |rs| {
      TranscriptGrows(rs, k + 1);
      var init := rs[..k + 1];
      assert init[..k] == rs[..k];
      assert init[..|init| - 1] == rs[..k];
      if k > 0 {
        assert init[0] == rs[..k][0];
      } else {
        assert Transcript(rs[..0]) == [];
      }
    } else {
      assert rs[..k] == rs;
    }
  }
}
