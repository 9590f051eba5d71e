/**
 * The chat page of the frontend (frontend/src/app/page.tsx): `handleSubmit`
 * posts the user's question, adds an empty bot message, and reads the
 * backend's event stream chunk by chunk, rewriting that bot message as
 * `error`, `processing` and `completed` events arrive; at the end it keeps
 * a short textual chat history.
 *
 * The network is replaced by a `Reply`: the chunks `reader.read()` returned,
 * already decoded, and whether the stream closed normally or something threw.
 * `JSON.parse` and the field accesses on its result are a `Parser` oracle:
 * `None` when the inner `try` caught an exception.
 */
module Chat {
  import opened Wrappers
  import opened Text

  /** A chat bubble; `responseTime` is set once a `completed` event arrives. */
  datatype Message = Message(content: string, isBot: bool, responseTime: Option<string>)

  /** What a `data:` line's JSON says, as far as `handleSubmit` looks at it. */
  datatype Event =
    | Failed(message: string)      // status "error"
    | Progress(message: string)    // status "processing"
    | Completed(finalResponse: string, iterations: string, totalTokens: string)  // status "completed"
    | OtherStatus                  // any other status, "starting" included

  /** `JSON.parse` of a payload followed by the reads of its fields; `None` when that throws. */
  type Parser = string -> Option<Event>

  /** How the read loop ended: `done` from the reader, or an exception. */
  datatype End = Closed | Thrown

  /** The decoded chunks the reader delivered, in order, and how the stream ended. */
  datatype Reply = Reply(chunks: seq<string>, end: End)

  /** The bot message being written and the `fullContent` variable. */
  datatype Answer = Answer(last: Message, fullContent: string)

  const DataPrefix: string := "data: "
  const ConnectionNotice: string := "\n\nConnection Error: Message may be incomplete."

  /** The bot message added on submit, and the state the stream starts from. */
  const Placeholder: Message := Message("", true, None)
  const Start: Answer := Answer(Placeholder, "")

  /** `${iterations} iterations, ${total_tokens} tokens`, from the fields' texts. */
  function ResponseTime(iterations: string, totalTokens: string): string {
    iterations + " iterations, " + totalTokens + " tokens"
  }

  /**
   * One line of a chunk: the answer after it, and whether it ends the
   * chunk's line loop (the `break` after a `completed` event).
   */
  function Step(a: Answer, line: string, parse: Parser): (Answer, bool) {
    if IsBlank(line) || !StartsWith(line, DataPrefix) then (a, false)
    else Apply(a, parse(ReplaceFirst(line, DataPrefix, "")))
  }

  /** What the parsed JSON of a `data:` line does to the answer. */
  function Apply(a: Answer, event: Option<Event>): (Answer, bool) {
    match event
    case None => (a, false)
    case Some(Failed(m)) => (a.(last := a.last.(content := "Error: " + m)), false)
    case Some(Progress(m)) => (a.(last := a.last.(content := m)), false)
    case Some(Completed(f, it, tok)) =>
      (Answer(a.last.(content := f, responseTime := Some(ResponseTime(it, tok))), f), true)
    case Some(OtherStatus) => (a, false)
  }

  /** The line loop over one chunk's lines, up to the first `completed` event. */
  function Scan(a: Answer, lines: seq<string>, parse: Parser): (Answer, bool)
    decreases |lines|
  {
    if lines == [] then (a, false)
    else
      var (b, stop) := Step(a, lines[0], parse);
      if stop then (b, true) else Scan(b, lines[1..], parse)
  }

  /** One chunk, split on `"\n"` by itself: nothing is carried to the next chunk. */
  function ReadChunk(a: Answer, chunk: string, parse: Parser): Answer {
    Scan(a, Split(chunk, "\n"), parse).0
  }

  /** The read loop over all chunks. */
  function ReadChunks(a: Answer, chunks: seq<string>, parse: Parser): Answer
    decreases |chunks|
  {
    if chunks == [] then a else ReadChunks(ReadChunk(a, chunks[0], parse), chunks[1..], parse)
  }

  /** The bot message once the reply has been read, with the notice the `catch` appends. */
  function FinalMessage(reply: Reply, parse: Parser): Message {
    var a := ReadChunks(Start, reply.chunks, parse);
    if reply.end == Thrown then a.last.(content := a.last.content + ConnectionNotice) else a.last
  }

  /** `prev.slice(-4)`: the last four entries, or all of them when there are fewer. */
  function LastFour(h: seq<string>): seq<string> {
    if |h| <= 4 then h else h[|h| - 4..]
  }

  /** The chat history after a completed exchange. */
  function Window(h: seq<string>, input: string, fullContent: string): seq<string> {
    LastFour(h) + ["USER: " + input, "ASSISTANT: " + fullContent]
  }

  /** The history alternates `USER:` and `ASSISTANT:` entries and holds at most three exchanges. */
  predicate HistoryShape(h: seq<string>) {
    && |h| <= 6
    && |h| % 2 == 0
    && forall k :: 0 <= k < |h| ==> StartsWith(h[k], if k % 2 == 0 then "USER: " else "ASSISTANT: ")
  }

  /** The messages alternate user and bot, starting with the user. */
  predicate Conversation(messages: seq<Message>) {
    && |messages| % 2 == 0
    && forall k :: 0 <= k < |messages| ==> messages[k].isBot == (k % 2 == 1)
  }

  /**
   * A line that changes nothing: blank, not a `data:` line, JSON that
   * does not parse, or a status the page does not handle.
   */
  predicate Ignored(line: string, parse: Parser) {
    || IsBlank(line)
    || !StartsWith(line, DataPrefix)
    || parse(ReplaceFirst(line, DataPrefix, "")).None?
    || parse(ReplaceFirst(line, DataPrefix, "")) == Some(OtherStatus)
  }

  function Relevant(lines: seq<string>, parse: Parser): (r: seq<string>)
    ensures |r| <= |lines|
    ensures forall k :: 0 <= k < |r| ==> !Ignored(r[k], parse)
    ensures forall l :: l in r <==> l in lines && !Ignored(l, parse)
    decreases |lines|
  {
    if lines == [] then []
    else if Ignored(lines[0], parse) then Relevant(lines[1..], parse)
    else [lines[0]] + Relevant(lines[1..], parse)
  }

  /** The filter keeps the order of the lines: it works line by line. */
  lemma {:induction false} RelevantAppend(a: seq<string>, b: seq<string>, parse: Parser)
    ensures Relevant(a + b, parse) == Relevant(a, parse) + Relevant(b, parse)
    decreases |a|
  {
    if a == [] {
      assert a + b == b;
    } else {
      assert (a + b)[0] == a[0];
      assert (a + b)[1..] == a[1..] + b;
      RelevantAppend(a[1..], b, parse);
      if !Ignored(a[0], parse) {
        assert Relevant(a + b, parse) == [a[0]] + Relevant(a[1..] + b, parse);
      }
    }
  }

  /** A single line is kept exactly when it is not ignored. */
  lemma RelevantOne(line: string, parse: Parser)
    ensures Relevant([line], parse) == if Ignored(line, parse) then [] else [line]
  {
    assert [line][1..] == [];
  }

  /** Ignored lines can be dropped from a chunk without changing what it does. */
  lemma {:induction false} ScanRelevant(a: Answer, lines: seq<string>, parse: Parser)
    ensures Scan(a, lines, parse) == Scan(a, Relevant(lines, parse), parse)
    decreases |lines|
  {
    if lines != [] {
      ScanRelevant(Step(a, lines[0], parse).0, lines[1..], parse);
      if Ignored(lines[0], parse) {
        ScanRelevant(a, lines[1..], parse);
      } else {
        assert ([lines[0]] + Relevant(lines[1..], parse))[1..] == Relevant(lines[1..], parse);
      }
    }
  }

  /** Lines after a `completed` event in the same chunk are not read. */
  lemma {:induction false} CompletedEndsChunk(a: Answer, before: seq<string>, line: string, after: seq<string>, parse: Parser)
    requires !Scan(a, before, parse).1
    requires Step(Scan(a, before, parse).0, line, parse).1
    ensures Scan(a, before + [line] + after, parse) == (Step(Scan(a, before, parse).0, line, parse).0, true)
    decreases |before|
  {
    if before == [] {
      assert before + [line] + after == [line] + after;
    } else {
      assert (before + [line] + after)[1..] == before[1..] + [line] + after;
      CompletedEndsChunk(Step(a, before[0], parse).0, before[1..], line, after, parse);
    }
  }

  /** A `data:` line whose JSON is a `completed` event. */
  predicate CompletedLine(line: string, parse: Parser) {
    && !IsBlank(line)
    && StartsWith(line, DataPrefix)
    && parse(ReplaceFirst(line, DataPrefix, "")).Some?
    && parse(ReplaceFirst(line, DataPrefix, "")).value.Completed?
  }

  /**
   * A chunk's line loop stops exactly when the chunk has a `completed`
   * line, and then the bot message shows the final response.
   */
  lemma {:induction false} ScanStops(a: Answer, lines: seq<string>, parse: Parser)
    ensures Scan(a, lines, parse).1 <==> exists k :: 0 <= k < |lines| && CompletedLine(lines[k], parse)
    ensures Scan(a, lines, parse).1 ==> Scan(a, lines, parse).0.fullContent == Scan(a, lines, parse).0.last.content
    decreases |lines|
  {
    if lines != [] {
      ScanStops(Step(a, lines[0], parse).0, lines[1..], parse);
      assert forall k :: 1 <= k < |lines| ==> lines[k] == lines[1..][k - 1];
      if !Step(a, lines[0], parse).1 && exists k :: 0 <= k < |lines| && CompletedLine(lines[k], parse) {
        var k :| 0 <= k < |lines| && CompletedLine(lines[k], parse);
        assert k != 0;
        assert lines[1..][k - 1] == lines[k];
      }
    }
  }

  /** Reading the stream only rewrites the bot message's content and response time. */
  lemma {:induction false} ReadChunksKeepsRole(a: Answer, chunks: seq<string>, parse: Parser)
    ensures ReadChunks(a, chunks, parse).last.isBot == a.last.isBot
    decreases |chunks|
  {
    if chunks != [] {
      ScanKeepsRole(a, Split(chunks[0], "\n"), parse);
      ReadChunksKeepsRole(ReadChunk(a, chunks[0], parse), chunks[1..], parse);
    }
  }

  lemma {:induction false} ScanKeepsRole(a: Answer, lines: seq<string>, parse: Parser)
    ensures Scan(a, lines, parse).0.last.isBot == a.last.isBot
    decreases |lines|
  {
    if lines != [] {
      ScanKeepsRole(Step(a, lines[0], parse).0, lines[1..], parse);
    }
  }

  /** An exchange of a user message and a bot message keeps the conversation alternating. */
  lemma ConversationAppend(messages: seq<Message>, user: Message, bot: Message)
    requires Conversation(messages) && !user.isBot && bot.isBot
    ensures Conversation(messages + [user, bot])
  {
    var ms := messages + [user, bot];
    forall k | 0 <= k < |ms|
      ensures ms[k].isBot == (k % 2 == 1)
    {
      if k >= |messages| {
        assert k == |messages| || k == |messages| + 1;
      }
    }
  }

  /** No line of the chunk is a `completed` line. */
  predicate NoCompletedLine(lines: seq<string>, parse: Parser) {
    forall k :: 0 <= k < |lines| ==> !CompletedLine(lines[k], parse)
  }

  /** No line of any chunk, each split on `"\n"`, is a `completed` line. */
  predicate NoCompletedChunk(chunks: seq<string>, parse: Parser) {
    forall i :: 0 <= i < |chunks| ==> NoCompletedLine(Split(chunks[i], "\n"), parse)
  }

  /** Without a `completed` line the stream leaves `fullContent` and the response time as they were. */
  lemma {:induction false} NoCompletedKeepsFullContent(a: Answer, chunks: seq<string>, parse: Parser)
    requires NoCompletedChunk(chunks, parse)
    ensures ReadChunks(a, chunks, parse).fullContent == a.fullContent
    ensures ReadChunks(a, chunks, parse).last.responseTime == a.last.responseTime
    decreases |chunks|
  {
    if chunks != [] {
      assert NoCompletedLine(Split(chunks[0], "\n"), parse);
      ScanKeeps(a, Split(chunks[0], "\n"), parse);
      assert NoCompletedChunk(chunks[1..], parse) by {
        forall i | 0 <= i < |chunks[1..]|
          ensures NoCompletedLine(Split(chunks[1..][i], "\n"), parse)
        {
          assert chunks[1..][i] == chunks[i + 1];
        }
      }
      NoCompletedKeepsFullContent(ReadChunk(a, chunks[0], parse), chunks[1..], parse);
    }
  }

  lemma {:induction false} ScanKeeps(a: Answer, lines: seq<string>, parse: Parser)
    requires NoCompletedLine(lines, parse)
    ensures Scan(a, lines, parse).0.fullContent == a.fullContent
    ensures Scan(a, lines, parse).0.last.responseTime == a.last.responseTime
    decreases |lines|
  {
    if lines != [] {
      assert !CompletedLine(lines[0], parse);
      assert NoCompletedLine(lines[1..], parse) by {
        forall k | 0 <= k < |lines[1..]|
          ensures !CompletedLine(lines[1..][k], parse)
        {
          assert lines[1..][k] == lines[k + 1];
        }
      }
      ScanKeeps(Step(a, lines[0], parse).0, lines[1..], parse);
    }
  }

  /**
   * A stream without any `completed` line still records the exchange in
   * the history, with an empty assistant text.
   */
  lemma NoCompletedHistory(h: seq<string>, input: string, chunks: seq<string>, parse: Parser)
    requires NoCompletedChunk(chunks, parse)
    ensures Window(h, input, ReadChunks(Start, chunks, parse).fullContent) == LastFour(h) + ["USER: " + input, "ASSISTANT: "]
  {
    NoCompletedKeepsFullContent(Start, chunks, parse);
    assert "ASSISTANT: " + "" == "ASSISTANT: ";
  }

  /** The window keeps the history's shape: alternating entries, at most six. */
  lemma WindowShape(h: seq<string>, input: string, fullContent: string)
    requires HistoryShape(h)
    ensures HistoryShape(Window(h, input, fullContent))
    ensures |Window(h, input, fullContent)| == if |h| <= 4 then |h| + 2 else 6
  {
    var w := Window(h, input, fullContent);
    var kept := LastFour(h);
    var shift := |h| - |kept|;
    assert shift % 2 == 0;
    forall k | 0 <= k < |w|
      ensures StartsWith(w[k], if k % 2 == 0 then "USER: " else "ASSISTANT: ")
    {
      if k < |kept| {
        assert w[k] == h[k + shift];
      } else if k == |kept| {
        assert w[k] == "USER: " + input;
      } else {
        assert w[k] == "ASSISTANT: " + fullContent;
      }
    }
  }

  /** The page's state. */
  class Home {
    var messages: seq<Message>
    var input: string
    var chatHistory: seq<string>
    var showSupport: bool
    var hasShownSupport: bool

    predicate Valid()
      reads this
    {
      HistoryShape(chatHistory) && Conversation(messages)
    }

    /** The initial `useState` values. */
    constructor()
      ensures Valid()
      ensures messages == [] && input == "" && chatHistory == []
      ensures !showSupport && !hasShownSupport
    {
      messages := [];
      input := "";
      chatHistory := [];
      showSupport := false;
      hasShownSupport := false;
    }

    /** `onInputChange={setInput}`. */
    method InputChange(text: string)
      modifies this
      ensures input == text
      ensures messages == old(messages) && chatHistory == old(chatHistory)
      ensures showSupport == old(showSupport) && hasShownSupport == old(hasShownSupport)
    {
      input := text;
    }

    /**
     * `handleSubmit`: ignores a blank input; otherwise adds the user's
     * message and the bot placeholder, clears the input, reads the reply
     * into the placeholder, and records the exchange in the history unless
     * something threw, in which case the bot message gets the connection
     * notice instead.
     */
    method HandleSubmit(reply: Reply, parse: Parser)
      requires Valid()
      modifies this
      ensures Valid()
      ensures IsBlank(old(input)) ==>
        && messages == old(messages) && input == old(input) && chatHistory == old(chatHistory)
        && showSupport == old(showSupport) && hasShownSupport == old(hasShownSupport)
      ensures !IsBlank(old(input)) ==>
        && messages == old(messages) + [Message(old(input), false, None), FinalMessage(reply, parse)]
        && input == ""
        && chatHistory == (if reply.end == Thrown then old(chatHistory)
                           else Window(old(chatHistory), old(input), ReadChunks(Start, reply.chunks, parse).fullContent))
        && showSupport == (old(showSupport) || (|old(messages)| >= 3 && !old(hasShownSupport)))
        && hasShownSupport == (old(hasShownSupport) || |old(messages)| >= 3)
    {
      if IsBlank(input) {
        return;
      }
      if |messages| >= 3 && !hasShownSupport {
        showSupport := true;
        hasShownSupport := true;
      }
      messages := messages + [Message(input, false, None), Placeholder];
      var currentInput := input;
      input := "";
      var fullContent := ReadReply(reply.chunks, parse);
      ReadChunksKeepsRole(Start, reply.chunks, parse);
      ConversationAppend(old(messages), Message(currentInput, false, None), FinalMessage(reply, parse));
      ghost var final := old(messages) + [Message(currentInput, false, None), FinalMessage(reply, parse)];
      if reply.end == Thrown {
        var last := messages[|messages| - 1];
        messages := messages[..|messages| - 1] + [last.(content := last.content + ConnectionNotice)];
      } else {
        WindowShape(chatHistory, currentInput, fullContent);
        chatHistory := Window(chatHistory, currentInput, fullContent);
      }
      assert messages == final;
    }

    /** The read loop: each chunk's lines rewrite the last message; returns `fullContent`. */
    method ReadReply(chunks: seq<string>, parse: Parser) returns (fullContent: string)
      requires |messages| >= 1
      modifies this
      ensures var a := ReadChunks(Answer(old(messages[|messages| - 1]), ""), chunks, parse);
        messages == old(messages[..|messages| - 1]) + [a.last] && fullContent == a.fullContent
      ensures input == old(input) && chatHistory == old(chatHistory)
      ensures showSupport == old(showSupport) && hasShownSupport == old(hasShownSupport)
    {
      fullContent := "";
      var i := 0;
      while i < |chunks|
        invariant 0 <= i <= |chunks|
        invariant |messages| == |old(messages)| && messages[..|messages| - 1] == old(messages[..|messages| - 1])
        invariant ReadChunks(Answer(messages[|messages| - 1], fullContent), chunks[i..], parse)
               == ReadChunks(Answer(old(messages[|messages| - 1]), ""), chunks, parse)
        invariant input == old(input) && chatHistory == old(chatHistory)
        invariant showSupport == old(showSupport) && hasShownSupport == old(hasShownSupport)
      {
        fullContent := ReadLines(Split(chunks[i], "\n"), parse, fullContent);
        assert chunks[i..][1..] == chunks[i + 1..];
        i := i + 1;
      }
    }

    /** The line loop of one chunk, up to its first `completed` event. */
    method ReadLines(lines: seq<string>, parse: Parser, fullContent0: string) returns (fullContent: string)
      requires |messages| >= 1
      modifies this
      ensures var a := Scan(Answer(old(messages[|messages| - 1]), fullContent0), lines, parse).0;
        messages == old(messages[..|messages| - 1]) + [a.last] && fullContent == a.fullContent
      ensures input == old(input) && chatHistory == old(chatHistory)
      ensures showSupport == old(showSupport) && hasShownSupport == old(hasShownSupport)
    {
      var prefix := messages[..|messages| - 1];
      ghost var start := Answer(messages[|messages| - 1], fullContent0);
      fullContent := fullContent0;
      var j := 0;
      while j < |lines|
        invariant 0 <= j <= |lines|
        invariant |messages| == |prefix| + 1 && messages[..|prefix|] == prefix
        invariant Scan(Answer(messages[|prefix|], fullContent), lines[j..], parse) == Scan(start, lines, parse)
        invariant input == old(input) && chatHistory == old(chatHistory)
        invariant showSupport == old(showSupport) && hasShownSupport == old(hasShownSupport)
      {
        var line := lines[j];
        assert lines[j..][1..] == lines[j + 1..];
        j := j + 1;
        if IsBlank(line) || !StartsWith(line, DataPrefix) {
          continue;
        }
        var last := messages[|prefix|];
        match parse(ReplaceFirst(line, DataPrefix, ""))
        case None =>
        case Some(Failed(m)) =>
          messages := prefix + [last.(content := "Error: " + m)];
        case Some(Progress(m)) =>
          messages := prefix + [last.(content := m)];
        case Some(Completed(f, it, tok)) =>
          fullContent := f;
          messages := prefix + [last.(content := f, responseTime := Some(ResponseTime(it, tok)))];
          break;
        case Some(OtherStatus) =>
      }
    }
  }
}
