// The in-process agent loop and the emitter it prints with
// (internal/harness/harness.go, internal/harness/streamjson.go).
module Harness {
  import opened Options
  import opened TextLines
  import opened StreamJson

  // `valid` says whether args is well-formed JSON; json.Marshal fails on it otherwise.
  datatype ToolCall = ToolCall(id: string, name: string, args: string, valid: bool)

  // ---- the emitter ----

  predicate Encodable(c: ToolCall) {
    c.args == "" || c.valid
  }

  predicate AllEncodable(calls: seq<ToolCall>) {
    forall c :: c in calls ==> Encodable(c)
  }

  function CallBlock(c: ToolCall): ToolBlock {
    ToolBlock("tool_use", c.name, if c.args == "" then "{}" else c.args)
  }

  function CallBlocks(calls: seq<ToolCall>): (bs: seq<ToolBlock>)
    ensures |bs| == |calls| && forall i :: 0 <= i < |calls| ==> bs[i] == CallBlock(calls[i])
  {
    seq(|calls|, i requires 0 <= i < |calls| => CallBlock(calls[i]))
  }

  function WithNewline(text: string): string
    requires text != ""
  {
    if text[|text| - 1] != '\n' then text + "\n" else text
  }

  const STOP := Json(Stream(Some(BlockStop)))
  const DONE := Json(ResultEvent("completed", None))
  const INIT := Json(SystemEvent("init", ""))

  function TextEvents(text: string): seq<RawLine> {
    if text == "" then [] else [Delta(WithNewline(text)), STOP]
  }

  // A message whose content cannot be marshalled is dropped without a trace.
  function CallEvents(calls: seq<ToolCall>): seq<RawLine> {
    if calls == [] || !AllEncodable(calls) then [] else [Json(AssistantEvent(Some(CallBlocks(calls))))]
  }

  function AssistantEvents(text: string, calls: seq<ToolCall>): seq<RawLine> {
    TextEvents(text) + CallEvents(calls)
  }

  function ToolResultEvent(encoded: string, isError: bool): RawLine {
    Json(UserEvent(Some([ResultBlock("tool_result", encoded, isError)])))
  }

  class Emitter {
    var out: seq<RawLine>
    const quote: string -> string // JSON string encoding

    constructor (quote: string -> string)
      ensures out == [] && this.quote == quote
    {
      out := [];
      this.quote := quote;
    }

    method SystemInit()
      modifies this
      ensures out == old(out) + [INIT]
    {
      out := out + [INIT];
    }

    method AssistantMessage(text: string, calls: seq<ToolCall>)
      modifies this
      ensures out == old(out) + AssistantEvents(text, calls)
    {
      if text != "" {
        out := out + [Delta(WithNewline(text))];
        out := out + [STOP];
      }
      if |calls| == 0 {
        return;
      }
      var content: seq<ToolBlock> := [];
      var marshals := true;
      for i := 0 to |calls|
        invariant content == CallBlocks(calls[..i])
        invariant marshals == AllEncodable(calls[..i])
      {
        assert calls[..i + 1] == calls[..i] + [calls[i]];
        content := content + [CallBlock(calls[i])];
        marshals := marshals && Encodable(calls[i]);
      }
      assert calls[..|calls|] == calls;
      if marshals {
        out := out + [Json(AssistantEvent(Some(content)))];
      }
    }

    method ToolResult(content: string, isError: bool)
      modifies this
      ensures out == old(out) + [ToolResultEvent(quote(content), isError)]
    {
      out := out + [ToolResultEvent(quote(content), isError)];
    }

    method Done()
      modifies this
      ensures out == old(out) + [DONE]
    {
      out := out + [DONE];
    }
  }

  // ---- printing and parsing back ----

  function CallLines(calls: seq<ToolCall>): (lines: seq<Line>)
    ensures |lines| == |calls| && forall i :: 0 <= i < |calls| ==> lines[i] == ToolLine(CallBlock(calls[i]))
  {
    seq(|calls|, i requires 0 <= i < |calls| => ToolLine(CallBlock(calls[i])))
  }

  lemma {:induction false} CallLinesParse(calls: seq<ToolCall>)
    ensures ToolLines(CallBlocks(calls)) == CallLines(calls)
  {
    hide ToolLine;
    if calls != [] {
      var init := calls[..|calls| - 1];
      CallLinesParse(init);
      assert CallBlocks(calls)[..|calls| - 1] == CallBlocks(init);
      assert CallLines(calls) == CallLines(init) + [ToolLine(CallBlock(calls[|calls| - 1]))];
    }
  }

  lemma SplitEmpty()
    ensures Split("") == [""] && Tail("") == "" && NoBreak("")
  {
  }

  lemma SplitNewline(text: string)
    ensures Split(text + "\n") == Split(text) + [""]
  {
    hide Split, NoBreak;
    SplitAppend(text, "\n");
    TailHasNoBreak(text);
    var t := Tail(text);
    assert t + "\n" == t + ['\n'] + "";
    SplitAt(t, '\n', "");
    SplitEmpty();
    assert Split(text) == Split(text)[..|Split(text)| - 1] + [t];
  }

  lemma NewlineClosesText(text: string)
    requires text != ""
    ensures Tail(WithNewline(text)) == "" && ClosedLines(WithNewline(text)) == NonEmptyLines(text)
  {
    if text[|text| - 1] == '\n' {
      var body := text[..|text| - 1];
      assert text == body + "\n";
      SplitNewline(body);
      NonEmptyAppend(Split(body), [""]);
      assert NonEmpty([""]) == [] by {
        assert NonEmpty([""]) == NonEmpty([""][1..]);
      }
    } else {
      SplitNewline(text);
    }
  }

  lemma FeedOne(pending: string, raw: RawLine)
    ensures FeedAll(pending, [raw]) == FeedRaw(pending, raw)
  {
    var one := [raw];
    assert one[1..] == [];
    assert FeedRaw(pending, raw).lines + [] == FeedRaw(pending, raw).lines;
  }

  lemma FeedNone(pending: string)
    ensures FeedAll(pending, []) == Fed(pending, [])
  {
  }

  lemma TextParses(text: string)
    ensures FeedAll("", TextEvents(text)) == Fed("", AsstLines(NonEmptyLines(text)))
  {
    if text == "" {
      SplitWhole("");
      assert NonEmptyLines("") == NonEmpty([""][1..]);
    } else {
      var body := WithNewline(text);
      NewlineClosesText(text);
      assert "" + body == body;
      FeedAllAppend("", [Delta(body)], [STOP]);
      FeedOne("", Delta(body));
      FeedOne("", STOP);
      assert TextEvents(text) == [Delta(body)] + [STOP];
    }
  }

  lemma CallsParse(calls: seq<ToolCall>)
    ensures FeedAll("", CallEvents(calls)) == Fed("", if AllEncodable(calls) then CallLines(calls) else [])
  {
    hide ToolLines, ToolLine, AllEncodable, FeedAll;
    if calls != [] && AllEncodable(calls) {
      CallLinesParse(calls);
      FeedOne("", Json(AssistantEvent(Some(CallBlocks(calls)))));
      assert Flush("") + CallLines(calls) == CallLines(calls);
    } else {
      FeedNone("");
      assert calls == [] ==> CallLines(calls) == [];
    }
  }

  // From an empty pending buffer an assistant message parses back to one "@asst" line per
  // non-empty line of its text, then one "@tool" line per call, and nothing stays pending.
  // The calls come back exactly when every argument blob is valid JSON.
  lemma MessageRoundTrip(text: string, calls: seq<ToolCall>)
    ensures FeedAll("", AssistantEvents(text, calls)) ==
            Fed("", AsstLines(NonEmptyLines(text)) + (if AllEncodable(calls) then CallLines(calls) else []))
  {
    TextParses(text);
    CallsParse(calls);
    FeedAllAppend("", TextEvents(text), CallEvents(calls));
  }

  lemma CallsSurviveIff(text: string, calls: seq<ToolCall>)
    ensures FeedAll("", AssistantEvents(text, calls)).lines == AsstLines(NonEmptyLines(text)) + CallLines(calls)
            <==> AllEncodable(calls)
  {
    MessageRoundTrip(text, calls);
    if !AllEncodable(calls) {
      assert |CallLines(calls)| > 0;
    }
  }

  // ---- the agent loop ----

  datatype Message =
    | User(content: string)
    | AssistantTurn(content: string, calls: seq<ToolCall>)
    | ToolAnswer(content: string, callId: string)

  datatype Reply =
    | Response(content: string, calls: seq<ToolCall>, inputTokens: int, outputTokens: int)
    | NotSupported
    | ContextError
    | ProviderError(text: string)

  datatype ToolOutcome = ToolOutcome(result: string, err: Option<string>)

  function ToolContent(t: ToolOutcome): string {
    if t.err.None? then t.result
    else "error: " + t.err.value + (if t.result != "" then "\n" + t.result else "")
  }

  // What the loop meets: the provider's reply per turn, the tools' outcomes, and whether the
  // context is found cancelled before a turn or before a tool call.
  datatype World = World(
    reply: nat -> Reply,
    cancelledBeforeTurn: nat -> bool,
    cancelledBeforeTool: (nat, nat) -> bool,
    dispatch: (nat, nat) -> ToolOutcome)

  datatype Config = Config(
    prompt: string,
    skillError: Option<string>, // assembling the system prompt failed
    maxTurns: int,
    maxInputTokens: int,
    turnCapDetail: string, // what follows the fixed start of the two cap messages
    tokenCapDetail: string)

  datatype Stop = SkillMissing | Unsupported | ProviderFailed | ModelStopped | TokenCap | TurnCap | Cancelled

  // One ToolChat call: the history it was given and the input tokens used before it.
  datatype Chat = Chat(history: seq<Message>, used: int)

  function TurnCapText(c: Config): string {
    "BLOCKED:" + " harness turn cap reached (" + c.turnCapDetail
  }

  function TokenCapText(c: Config): string {
    "BLOCKED:" + " harness input-token cap reached (" + c.tokenCapDetail
  }

  // ---- what a run does, turn by turn ----

  // How many of a turn's first n calls are dispatched before the context is found cancelled.
  function ToolsRun(w: World, turn: nat, n: nat): (r: nat)
    ensures r <= n
    ensures forall i :: 0 <= i < r ==> !w.cancelledBeforeTool(turn, i)
    ensures r < n ==> w.cancelledBeforeTool(turn, r)
  {
    if n == 0 then 0
    else
      var r := ToolsRun(w, turn, n - 1);
      if r < n - 1 || w.cancelledBeforeTool(turn, n - 1) then r else n
  }

  function Answered(w: World, turn: nat, calls: seq<ToolCall>): (r: seq<Message>)
    ensures |r| == |calls|
    ensures forall i :: 0 <= i < |r| ==> r[i] == ToolAnswer(ToolContent(w.dispatch(turn, i)), calls[i].id)
  {
    seq(|calls|, i requires 0 <= i < |calls| => ToolAnswer(ToolContent(w.dispatch(turn, i)), calls[i].id))
  }

  // The input tokens of the first n replies.
  function Used(w: World, n: nat): int {
    if n == 0 then 0
    else Used(w, n - 1) + (if w.reply(n - 1).Response? then w.reply(n - 1).inputTokens else 0)
  }

  // The prompt, and each reply with the answers to its calls.
  function History(c: Config, w: World, n: nat): seq<Message> {
    if n == 0 then [User(c.prompt)]
    else
      History(c, w, n - 1) +
      match w.reply(n - 1)
      case Response(content, calls, _, _) => [AssistantTurn(content, calls)] + Answered(w, n - 1, calls)
      case _ => []
  }

  function ChatsOf(c: Config, w: World, n: nat): (r: seq<Chat>)
    ensures |r| == n && forall i :: 0 <= i < n ==> r[i] == Chat(History(c, w, i), Used(w, i))
  {
    seq(n, i requires 0 <= i < n => Chat(History(c, w, i), Used(w, i)))
  }

  function Said(w: World, n: nat): seq<string> {
    if n == 0 then []
    else Said(w, n - 1) + (if w.reply(n - 1).Response? then [w.reply(n - 1).content] else [])
  }

  function ToolEvents(w: World, quote: string -> string, turn: nat, n: nat): (r: seq<RawLine>)
    ensures |r| == n
    ensures forall i :: 0 <= i < n ==>
              r[i] == ToolResultEvent(quote(ToolContent(w.dispatch(turn, i))), w.dispatch(turn, i).err.Some?)
  {
    seq(n, i requires 0 <= i < n =>
      ToolResultEvent(quote(ToolContent(w.dispatch(turn, i))), w.dispatch(turn, i).err.Some?))
  }

  function TurnEvents(w: World, quote: string -> string, turn: nat): seq<RawLine> {
    match w.reply(turn)
    case Response(content, calls, _, _) =>
      AssistantEvents(content, calls) + ToolEvents(w, quote, turn, ToolsRun(w, turn, |calls|))
    case _ => []
  }

  function Events(w: World, quote: string -> string, n: nat): seq<RawLine> {
    if n == 0 then [INIT] else Events(w, quote, n - 1) + TurnEvents(w, quote, n - 1)
  }

  // The model answered with calls, and all of them ran.
  predicate Productive(w: World, k: nat) {
    && !w.cancelledBeforeTurn(k)
    && w.reply(k).Response? && w.reply(k).calls != []
    && ToolsRun(w, k, |w.reply(k).calls|) == |w.reply(k).calls|
  }

  predicate CapReached(c: Config, w: World, n: nat) {
    c.maxInputTokens > 0 && Used(w, n) >= c.maxInputTokens
  }

  predicate Continues(c: Config, w: World, k: nat) {
    Productive(w, k) && !CapReached(c, w, k + 1)
  }

  // Why a turn is the last one.
  function LastTurn(w: World, k: nat): Stop {
    if w.cancelledBeforeTurn(k) then Cancelled
    else
      match w.reply(k)
      case NotSupported => Unsupported
      case ContextError => Cancelled
      case ProviderError(_) => ProviderFailed
      case Response(_, calls, _, _) =>
        if calls == [] then ModelStopped
        else if ToolsRun(w, k, |calls|) < |calls| then Cancelled else TokenCap
  }

  // The run stops for this reason after n turns that went on.
  ghost predicate StopsIn(c: Config, w: World, n: nat, stop: Stop) {
    if c.skillError.Some? then n == 0 && stop == SkillMissing
    else
      && (forall k: nat :: k < n ==> Continues(c, w, k))
      && n <= (if c.maxTurns > 0 then c.maxTurns else 0)
      && (if n < c.maxTurns then !Continues(c, w, n) && stop == LastTurn(w, n) else stop == TurnCap)
  }

  // How many times the model has been asked by then.
  function Asked(w: World, n: nat, stop: Stop): nat {
    if stop.SkillMissing? || stop.TurnCap? || (stop.Cancelled? && w.cancelledBeforeTurn(n)) then n else n + 1
  }

  // The conductor's own last message.
  function Closing(c: Config, w: World, n: nat, stop: Stop): Option<string> {
    match stop
    case SkillMissing => Some("BLOCKED: harness skill bundle missing \U{2014} " + (if c.skillError.Some? then c.skillError.value else ""))
    case Unsupported => Some("BLOCKED: provider does not implement ToolChat")
    case ProviderFailed =>
      Some("BLOCKED: provider error \U{2014} " + (if w.reply(n).ProviderError? then w.reply(n).text else ""))
    case TokenCap => Some(TokenCapText(c))
    case TurnCap => Some(TurnCapText(c))
    case _ => None
  }

  function ClosingEvents(closing: Option<string>, stop: Stop): seq<RawLine> {
    if stop.Cancelled? then []
    else (if closing.Some? then AssistantEvents(closing.value, []) else []) + [DONE]
  }

  // Everything a run produces, from what it met.
  ghost predicate Outcome(c: Config, w: World, quote: string -> string, n: nat, stop: Stop,
                          out: seq<RawLine>, chats: seq<Chat>, spoken: seq<string>, used: int) {
    var m, closing := Asked(w, n, stop), Closing(c, w, n, stop);
    && StopsIn(c, w, n, stop)
    && chats == ChatsOf(c, w, m)
    && used == Used(w, m)
    && spoken == Said(w, m) + (if closing.Some? then [closing.value] else [])
    && out == Events(w, quote, m) + ClosingEvents(closing, stop)
  }

  // One stop and one number of turns fit what the run meets.
  lemma StopIsDetermined(c: Config, w: World, n: nat, stop: Stop, n': nat, stop': Stop)
    requires StopsIn(c, w, n, stop) && StopsIn(c, w, n', stop')
    ensures n == n' && stop == stop'
  {
    hide Continues, LastTurn;
  }

  // The turn cap stops a run exactly when every allowed turn is productive and stays under the
  // token cap.
  lemma TurnCapIff(c: Config, w: World, n: nat)
    requires c.skillError.None?
    ensures StopsIn(c, w, n, TurnCap) <==>
            && n == (if c.maxTurns > 0 then c.maxTurns else 0)
            && forall k: nat :: k < n ==> Productive(w, k) && !CapReached(c, w, k + 1)
  {
    hide Productive, CapReached, LastTurn;
    LastTurnIs(w, n);
    if StopsIn(c, w, n, TurnCap) {
      forall k: nat | k < n ensures Productive(w, k) && !CapReached(c, w, k + 1) {
        assert Continues(c, w, k);
      }
    }
  }

  // The token cap stops it exactly in the first turn whose sum reaches the cap, when all turns up
  // to then are productive.
  lemma TokenCapIff(c: Config, w: World, n: nat)
    requires c.skillError.None?
    ensures StopsIn(c, w, n, TokenCap) <==>
            && n < c.maxTurns
            && (forall k: nat :: k <= n ==> Productive(w, k))
            && (forall k: nat :: k <= n ==> !CapReached(c, w, k))
            && CapReached(c, w, n + 1)
  {
    hide Productive, CapReached, LastTurn;
    LastTurnIs(w, n);
    NothingUsed(c, w);
    if StopsIn(c, w, n, TokenCap) {
      forall k: nat | k <= n ensures Productive(w, k) && !CapReached(c, w, k) {
        assert k < n ==> Continues(c, w, k);
        assert 0 < k ==> Continues(c, w, k - 1);
      }
    } else if forall k: nat :: k <= n ==> Productive(w, k) && !CapReached(c, w, k) {
      forall k: nat | k < n ensures Continues(c, w, k) {
        assert Productive(w, k) && !CapReached(c, w, k + 1);
      }
    }
  }

  lemma NothingUsed(c: Config, w: World)
    ensures !CapReached(c, w, 0)
  {
  }

  lemma LastTurnIs(w: World, n: nat)
    ensures LastTurn(w, n) == TokenCap <==> Productive(w, n)
    ensures LastTurn(w, n) !in {SkillMissing, TurnCap}
  {
  }

  // Tool answers for the calls, in order and with matching ids.
  ghost predicate Answers(h: seq<Message>, calls: seq<ToolCall>) {
    |h| == |calls| && forall i :: 0 <= i < |h| ==> h[i].ToolAnswer? && h[i].callId == calls[i].id
  }

  // An assistant turn with calls, followed by the answers to all of them; repeated.
  ghost predicate CompleteBlocks(h: seq<Message>)
    decreases |h|
  {
    h == [] ||
    (h[0].AssistantTurn? && |h[0].calls| < |h| && h[0].calls != [] &&
     Answers(h[1..1 + |h[0].calls|], h[0].calls) && CompleteBlocks(h[1 + |h[0].calls|..]))
  }

  ghost predicate WellFormedHistory(h: seq<Message>, prompt: string) {
    h != [] && h[0] == User(prompt) && CompleteBlocks(h[1..])
  }

  lemma OneBlock(content: string, calls: seq<ToolCall>, answers: seq<Message>)
    requires calls != [] && Answers(answers, calls)
    ensures CompleteBlocks([AssistantTurn(content, calls)] + answers)
  {
    var block := [AssistantTurn(content, calls)] + answers;
    assert block[1..1 + |calls|] == answers && block[1 + |calls|..] == [];
  }

  lemma {:induction false} BlockAppends(h: seq<Message>, block: seq<Message>)
    requires CompleteBlocks(h) && CompleteBlocks(block)
    ensures CompleteBlocks(h + block)
    decreases |h|
  {
    hide Answers;
    if h == [] {
      assert h + block == block;
    } else {
      var k := 1 + |h[0].calls|;
      BlockAppends(h[k..], block);
      assert (h + block)[k..] == h[k..] + block;
      assert (h + block)[1..k] == h[1..k];
    }
  }

  predicate IsResult(raw: RawLine) {
    raw.Json? && raw.event.ResultEvent?
  }

  function Results(raws: seq<RawLine>): nat {
    if raws == [] then 0
    else (if IsResult(raws[0]) then 1 else 0) + Results(raws[1..])
  }

  lemma {:induction false} ResultsAppend(a: seq<RawLine>, b: seq<RawLine>)
    ensures Results(a + b) == Results(a) + Results(b)
  {
    if a == [] {
      assert a + b == b;
    } else {
      assert (a + b)[1..] == a[1..] + b;
      ResultsAppend(a[1..], b);
    }
  }

  // The non-empty lines of several texts, one after the other.
  function LinesOf(texts: seq<string>): seq<string> {
    if texts == [] then [] else LinesOf(texts[..|texts| - 1]) + NonEmptyLines(texts[|texts| - 1])
  }

  // The transcript so far: nothing pending, no result event, and the "@asst" lines are the
  // lines of what was spoken.
  ghost predicate Transcript(out: seq<RawLine>, spoken: seq<string>) {
    && FeedAll("", out).pending == ""
    && Results(out) == 0
    && AsstTexts(FeedAll("", out).lines) == LinesOf(spoken)
  }

  lemma CallLinesSilent(calls: seq<ToolCall>)
    ensures AsstTexts(CallLines(calls)) == [] && AsstTexts([]) == []
  {
    NoAsstText(CallLines(calls));
  }

  lemma MessageExtends(out: seq<RawLine>, spoken: seq<string>, text: string, calls: seq<ToolCall>)
    requires Transcript(out, spoken)
    ensures Transcript(out + AssistantEvents(text, calls), spoken + [text])
  {
    hide FeedAll, AssistantEvents, CallLines, NonEmptyLines, AsstLines, AsstTexts;
    var more := AssistantEvents(text, calls);
    FeedAllAppend("", out, more);
    MessageRoundTrip(text, calls);
    var tools := if AllEncodable(calls) then CallLines(calls) else [];
    AsstTextsAppend(FeedAll("", out).lines, AsstLines(NonEmptyLines(text)) + tools);
    AsstTextsAppend(AsstLines(NonEmptyLines(text)), tools);
    AsstTextsOfLines(NonEmptyLines(text));
    CallLinesSilent(calls);
    NoAsstText(tools);
    assert (spoken + [text])[..|spoken|] == spoken;
    ResultsAppend(out, more);
    NoResultInMessage(text, calls);
  }

  lemma NoResultInMessage(text: string, calls: seq<ToolCall>)
    ensures Results(AssistantEvents(text, calls)) == 0
  {
    NoResults(AssistantEvents(text, calls));
  }

  lemma {:induction false} NoResults(raws: seq<RawLine>)
    requires forall r :: r in raws ==> !IsResult(r)
    ensures Results(raws) == 0
  {
    if raws != [] {
      NoResults(raws[1..]);
    }
  }

  // An event that adds display lines but no assistant text.
  lemma SilentEventExtends(out: seq<RawLine>, spoken: seq<string>, raw: RawLine)
    requires Transcript(out, spoken)
    requires FeedRaw("", raw).pending == "" && AsstTexts(FeedRaw("", raw).lines) == []
    requires !IsResult(raw)
    ensures Transcript(out + [raw], spoken)
  {
    FeedAllAppend("", out, [raw]);
    FeedOne("", raw);
    AsstTextsAppend(FeedAll("", out).lines, FeedRaw("", raw).lines);
    ResultsAppend(out, [raw]);
    NoResults([raw]);
  }

  lemma InitIsSilent()
    ensures FeedRaw("", INIT).pending == "" && AsstTexts(FeedRaw("", INIT).lines) == []
  {
    NoAsstText(FeedRaw("", INIT).lines);
  }

  lemma ToolResultIsSilent(encoded: string, isError: bool)
    ensures var f := FeedRaw("", ToolResultEvent(encoded, isError)); f.pending == "" && AsstTexts(f.lines) == []
    ensures !IsResult(ToolResultEvent(encoded, isError))
  {
    var blocks := [ResultBlock("tool_result", encoded, isError)];
    ResultLinesTagged(blocks);
    NoAsstText(Flush("") + ResultLines(blocks));
  }

  // What Execute promises about its output, whatever the world does.
  ghost predicate Reported(out: seq<RawLine>, stop: Stop, spoken: seq<string>) {
    if stop.Cancelled? then Transcript(out, spoken)
    else |out| > 0 && out[|out| - 1] == DONE && Transcript(out[..|out| - 1], spoken)
  }

  ghost predicate GoodChats(chats: seq<Chat>, c: Config) {
    && (forall i :: 0 <= i < |chats| ==> WellFormedHistory(chats[i].history, c.prompt))
    && (forall i :: 0 <= i < |chats| ==> c.maxInputTokens > 0 ==> chats[i].used < c.maxInputTokens)
    && (forall i :: 0 < i < |chats| ==> chats[i - 1].history < chats[i].history)
  }

  lemma NoChats(c: Config)
    ensures GoodChats([], c)
  {
  }

  lemma ChatAppends(chats: seq<Chat>, c: Config, chat: Chat)
    requires GoodChats(chats, c) && WellFormedHistory(chat.history, c.prompt)
    requires c.maxInputTokens > 0 ==> chat.used < c.maxInputTokens
    requires chats != [] ==> chats[|chats| - 1].history < chat.history
    ensures GoodChats(chats + [chat], c)
  {
    hide WellFormedHistory;
  }

  // The inner loop over one response's tool calls.
  method RunTools(em: Emitter, w: World, turn: nat, calls: seq<ToolCall>)
    returns (answers: seq<Message>, cancelled: bool)
    modifies em
    ensures em.out == old(em.out) + ToolEvents(w, em.quote, turn, ToolsRun(w, turn, |calls|))
    ensures cancelled <==> ToolsRun(w, turn, |calls|) < |calls|
    ensures !cancelled ==> answers == Answered(w, turn, calls)
  {
    hide ToolResultEvent, ToolContent;
    answers := [];
    for i := 0 to |calls|
      invariant ToolsRun(w, turn, i) == i
      invariant em.out == old(em.out) + ToolEvents(w, em.quote, turn, i)
      invariant answers == Answered(w, turn, calls[..i])
    {
      if w.cancelledBeforeTool(turn, i) {
        CancelledHere(w, turn, i, |calls|);
        return answers, true;
      }
      var t := w.dispatch(turn, i);
      em.ToolResult(ToolContent(t), t.err.Some?);
      answers := answers + [ToolAnswer(ToolContent(t), calls[i].id)];
    }
    assert calls[..|calls|] == calls;
    return answers, false;
  }

  lemma {:induction false} CancelledHere(w: World, turn: nat, i: nat, n: nat)
    requires i < n && ToolsRun(w, turn, i) == i && w.cancelledBeforeTool(turn, i)
    ensures ToolsRun(w, turn, n) == i
  {
    if i < n - 1 {
      CancelledHere(w, turn, i, n - 1);
    }
  }

  // `out` ends with the message `text` and the result event, printed on a settled transcript.
  ghost predicate EndsWith(out: seq<RawLine>, text: string) {
    exists before :: out == before + AssistantEvents(text, []) + [DONE] && FeedAll("", before).pending == ""
  }

  // Every early stop and both caps report a message and the result event.
  method Report(em: Emitter, text: string)
    modifies em
    ensures em.out == old(em.out) + AssistantEvents(text, []) + [DONE]
  {
    em.AssistantMessage(text, []);
    em.Done();
  }

  lemma {:induction false} ToolEventsAreSilent(out: seq<RawLine>, spoken: seq<string>, w: World, quote: string -> string,
                                               turn: nat, k: nat)
    requires Transcript(out, spoken)
    ensures Transcript(out + ToolEvents(w, quote, turn, k), spoken)
  {
    hide Transcript, FeedRaw, ToolResultEvent, ToolContent, IsResult;
    if k == 0 {
      assert out + ToolEvents(w, quote, turn, 0) == out;
    } else {
      ToolEventsAreSilent(out, spoken, w, quote, turn, k - 1);
      var t := w.dispatch(turn, k - 1);
      var e := ToolResultEvent(quote(ToolContent(t)), t.err.Some?);
      ToolResultIsSilent(quote(ToolContent(t)), t.err.Some?);
      SilentEventExtends(out + ToolEvents(w, quote, turn, k - 1), spoken, e);
      assert out + ToolEvents(w, quote, turn, k) == out + ToolEvents(w, quote, turn, k - 1) + [e];
    }
  }

  // However far a run got, nothing is pending, no result event is out, and the lines the parser
  // makes of its events are the lines of the replies.
  lemma {:induction false} EventsAreTranscript(w: World, quote: string -> string, n: nat)
    ensures Transcript(Events(w, quote, n), Said(w, n))
  {
    hide Transcript, AssistantEvents, ToolsRun;
    if n == 0 {
      FreshRun();
    } else {
      EventsAreTranscript(w, quote, n - 1);
      var before, r := Events(w, quote, n - 1), w.reply(n - 1);
      if r.Response? {
        MessageExtends(before, Said(w, n - 1), r.content, r.calls);
        var k := ToolsRun(w, n - 1, |r.calls|);
        ToolEventsAreSilent(before + AssistantEvents(r.content, r.calls), Said(w, n - 1) + [r.content], w, quote, n - 1, k);
        assert before + AssistantEvents(r.content, r.calls) + ToolEvents(w, quote, n - 1, k) == Events(w, quote, n);
      } else {
        assert before + [] == before && Said(w, n - 1) + [] == Said(w, n - 1);
      }
    }
  }

  lemma HistoryGrows(h: seq<Message>, prompt: string, content: string, calls: seq<ToolCall>, answers: seq<Message>)
    requires WellFormedHistory(h, prompt) && calls != [] && Answers(answers, calls)
    ensures WellFormedHistory(h + [AssistantTurn(content, calls)] + answers, prompt)
  {
    var block := [AssistantTurn(content, calls)] + answers;
    OneBlock(content, calls, answers);
    BlockAppends(h[1..], block);
    assert (h + [AssistantTurn(content, calls)] + answers)[1..] == h[1..] + block;
  }

  lemma FreshRun()
    ensures Transcript([INIT], [])
  {
    InitIsSilent();
    SilentEventExtends([], [], INIT);
    assert [] + [INIT] == [INIT];
  }

  lemma NewHistory(prompt: string)
    ensures WellFormedHistory([User(prompt)], prompt)
  {
  }

  lemma HistoryIsWellFormed(c: Config, w: World, k: nat)
    requires WellFormedHistory(History(c, w, k), c.prompt) && Productive(w, k)
    ensures WellFormedHistory(History(c, w, k + 1), c.prompt)
    ensures History(c, w, k) < History(c, w, k + 1)
  {
    hide WellFormedHistory, ToolsRun;
    var r := w.reply(k);
    HistoryGrows(History(c, w, k), c.prompt, r.content, r.calls, Answered(w, k, r.calls));
    assert History(c, w, k) + [AssistantTurn(r.content, r.calls)] + Answered(w, k, r.calls) == History(c, w, k + 1);
  }

  // Every chat of a run is well formed, starts under the token cap, and continues the one before.
  lemma {:induction false} ChatsAreGood(c: Config, w: World, n: nat)
    requires forall k: nat :: k + 1 < n ==> Continues(c, w, k)
    ensures GoodChats(ChatsOf(c, w, n), c)
    ensures n > 0 ==> WellFormedHistory(History(c, w, n - 1), c.prompt)
  {
    hide WellFormedHistory, Productive, GoodChats, ChatsOf, History, Used;
    if n == 0 {
      assert ChatsOf(c, w, 0) == [];
      NoChats(c);
    } else {
      ChatsAreGood(c, w, n - 1);
      if n == 1 {
        NewHistory(c.prompt);
        HistoryStarts(c, w);
        NothingUsed(c, w);
      } else {
        assert Continues(c, w, n - 2);
        HistoryIsWellFormed(c, w, n - 2);
      }
      ChatAppends(ChatsOf(c, w, n - 1), c, Chat(History(c, w, n - 1), Used(w, n - 1)));
      OneMoreChat(c, w, n - 1);
    }
  }

  // A run that is not cancelled ends in exactly one result event, its last; its "@asst" lines are
  // those of the replies and of its closing message; its chats are good and within the turn cap.
  lemma OutcomeIsReported(c: Config, w: World, quote: string -> string, n: nat, stop: Stop,
                          out: seq<RawLine>, chats: seq<Chat>, spoken: seq<string>, used: int)
    requires Outcome(c, w, quote, n, stop, out, chats, spoken, used)
    ensures Reported(out, stop, spoken)
    ensures GoodChats(chats, c) && |chats| <= (if c.maxTurns > 0 then c.maxTurns else 0)
    ensures stop.TurnCap? ==> EndsWith(out, TurnCapText(c))
    ensures stop.TokenCap? ==> EndsWith(out, TokenCapText(c))
  {
    hide Transcript, AssistantEvents, Continues, GoodChats, LastTurn, EndsWith, TurnCapText, TokenCapText, Reported,
         Events, Said, ClosingEvents, Used, CapReached;
    var m, closing := Asked(w, n, stop), Closing(c, w, n, stop);
    EventsAreTranscript(w, quote, m);
    LastTurnIs(w, n);
    ClosingIsReported(Events(w, quote, m), Said(w, m), closing, stop);
    ChatsAreGood(c, w, m);
  }

  lemma ClosingIsReported(before: seq<RawLine>, said: seq<string>, closing: Option<string>, stop: Stop)
    requires Transcript(before, said)
    requires closing.None? <==> stop in {Cancelled, ModelStopped}
    ensures var out, spoken := before + ClosingEvents(closing, stop), said + (if closing.Some? then [closing.value] else []);
            Reported(out, stop, spoken) && (closing.Some? ==> EndsWith(out, closing.value))
  {
    hide Transcript, AssistantEvents, EndsWith;
    var out := before + ClosingEvents(closing, stop);
    if closing.Some? {
      MessageExtends(before, said, closing.value, []);
      assert out[..|out| - 1] == before + AssistantEvents(closing.value, []);
      ClosedOff(out, before, said, closing.value);
    } else {
      assert said + [] == said;
      if stop.Cancelled? {
        assert before + [] == before;
      } else {
        assert [] + [DONE] == [DONE];
        assert out[..|out| - 1] == before;
      }
    }
  }

  lemma ClosedOff(out: seq<RawLine>, before: seq<RawLine>, said: seq<string>, text: string)
    requires out == before + (AssistantEvents(text, []) + [DONE]) && Transcript(before, said)
    ensures EndsWith(out, text)
  {
    assert out == before + AssistantEvents(text, []) + [DONE];
  }

  // The books of a run after the model was asked m times.
  ghost predicate Books(c: Config, w: World, quote: string -> string, m: nat,
                        out: seq<RawLine>, chats: seq<Chat>, spoken: seq<string>, used: int) {
    out == Events(w, quote, m) && chats == ChatsOf(c, w, m) && spoken == Said(w, m) && used == Used(w, m)
  }

  lemma BooksOpen(c: Config, w: World, quote: string -> string)
    ensures Books(c, w, quote, 0, [INIT], [], [], 0)
  {
  }

  // A turn in which the model fails adds a chat and nothing else.
  lemma FailedTurn(c: Config, w: World, quote: string -> string, n: nat,
                   out: seq<RawLine>, chats: seq<Chat>, spoken: seq<string>, used: int)
    requires Books(c, w, quote, n, out, chats, spoken, used) && !w.reply(n).Response?
    ensures Books(c, w, quote, n + 1, out, chats + [Chat(History(c, w, n), used)], spoken, used)
  {
    hide History;
    assert out + [] == out && spoken + [] == spoken;
    OneMoreChat(c, w, n);
  }

  lemma AnsweredTurn(c: Config, w: World, quote: string -> string, n: nat,
                     out: seq<RawLine>, chats: seq<Chat>, spoken: seq<string>, used: int)
    requires Books(c, w, quote, n, out, chats, spoken, used) && w.reply(n).Response?
    ensures var r := w.reply(n);
            Books(c, w, quote, n + 1, out + TurnEvents(w, quote, n), chats + [Chat(History(c, w, n), used)],
                  spoken + [r.content], used + r.inputTokens)
  {
    hide History, TurnEvents;
    OneMoreChat(c, w, n);
  }

  lemma OneMoreChat(c: Config, w: World, n: nat)
    ensures ChatsOf(c, w, n + 1) == ChatsOf(c, w, n) + [Chat(History(c, w, n), Used(w, n))]
  {
    hide History, Used;
  }

  lemma StopsNow(c: Config, w: World, n: nat, stop: Stop)
    requires c.skillError.None? && n < c.maxTurns && forall k: nat :: k < n ==> Continues(c, w, k)
    requires !Continues(c, w, n) && stop == LastTurn(w, n)
    ensures StopsIn(c, w, n, stop)
  {
  }

  lemma StopsAtCap(c: Config, w: World, n: nat)
    requires c.skillError.None? && n == (if c.maxTurns > 0 then c.maxTurns else 0)
    requires forall k: nat :: k < n ==> Continues(c, w, k)
    ensures StopsIn(c, w, n, TurnCap)
  {
  }

  lemma Concludes(c: Config, w: World, quote: string -> string, n: nat, stop: Stop, closing: Option<string>,
                  before: seq<RawLine>, chats: seq<Chat>, said: seq<string>, used: int)
    requires StopsIn(c, w, n, stop) && closing == Closing(c, w, n, stop)
    requires Books(c, w, quote, Asked(w, n, stop), before, chats, said, used)
    ensures Outcome(c, w, quote, n, stop, before + ClosingEvents(closing, stop), chats,
                    said + (if closing.Some? then [closing.value] else []), used)
  {
    hide StopsIn, Closing;
  }

  // The body of the loop after the model has answered.
  method TakeReply(em: Emitter, w: World, turn: nat, content: string, calls: seq<ToolCall>)
    returns (answers: seq<Message>, stopped: bool, cancelled: bool)
    requires w.reply(turn).Response? && w.reply(turn).content == content && w.reply(turn).calls == calls
    modifies em
    ensures stopped <==> calls == []
    ensures cancelled <==> ToolsRun(w, turn, |calls|) < |calls|
    ensures em.out == old(em.out) + TurnEvents(w, em.quote, turn) + (if stopped then [DONE] else [])
    ensures !stopped && !cancelled ==> answers == Answered(w, turn, calls)
  {
    hide AssistantEvents;
    em.AssistantMessage(content, calls);
    if |calls| == 0 {
      em.Done();
      return [], true, false;
    }
    stopped := false;
    answers, cancelled := RunTools(em, w, turn, calls);
  }

  // The run stops and says why.
  method Conclude(em: Emitter, c: Config, w: World, ghost n: nat, stop: Stop, text: string,
                  chats: seq<Chat>, said: seq<string>, used: int)
    returns (out: seq<RawLine>, spoken: seq<string>)
    requires StopsIn(c, w, n, stop) && !stop.Cancelled? && Closing(c, w, n, stop) == Some(text)
    requires Books(c, w, em.quote, Asked(w, n, stop), em.out, chats, said, used)
    modifies em
    ensures Outcome(c, w, em.quote, n, stop, out, chats, spoken, used)
  {
    hide StopsIn, Books, Outcome, AssistantEvents;
    Concludes(c, w, em.quote, n, stop, Some(text), em.out, chats, said, used);
    ghost var before := em.out;
    Report(em, text);
    assert before + (AssistantEvents(text, []) + [DONE]) == em.out;
    return em.out, said + [text];
  }

  method Execute(c: Config, w: World, quote: string -> string)
    returns (out: seq<RawLine>, stop: Stop, chats: seq<Chat>, spoken: seq<string>, used: int, n: nat)
    ensures Outcome(c, w, quote, n, stop, out, chats, spoken, used)
  {
    hide ToolsRun, TurnEvents, AssistantEvents, TurnCapText, TokenCapText, Outcome, StopsIn, Books, History, Used;
    var em := new Emitter(quote);
    spoken, chats, used, n := [], [], 0, 0;
    em.SystemInit();
    assert em.out == [INIT];
    BooksOpen(c, w, quote);
    if c.skillError.Some? {
      assert StopsIn(c, w, 0, SkillMissing) by {
        SkillStops(c, w);
      }
      var text := "BLOCKED: harness skill bundle missing \U{2014} " + c.skillError.value;
      out, spoken := Conclude(em, c, w, 0, SkillMissing, text, chats, spoken, used);
      return out, SkillMissing, chats, spoken, used, 0;
    }
    var history := [User(c.prompt)];
    HistoryStarts(c, w);
    while n < c.maxTurns
      invariant n <= (if c.maxTurns > 0 then c.maxTurns else 0)
      invariant forall k: nat :: k < n ==> Continues(c, w, k)
      invariant history == History(c, w, n)
      invariant em.quote == quote && Books(c, w, quote, n, em.out, chats, spoken, used)
    {
      if w.cancelledBeforeTurn(n) {
        StopsNow(c, w, n, Cancelled);
        CancelledOutcome(c, w, quote, n, em.out, chats, spoken, used);
        return em.out, Cancelled, chats, spoken, used, n;
      }
      if !w.reply(n).Response? {
        FailedTurn(c, w, quote, n, em.out, chats, spoken, used);
        StopsNow(c, w, n, LastTurn(w, n));
      } else {
        AnsweredTurn(c, w, quote, n, em.out, chats, spoken, used);
      }
      chats := chats + [Chat(history, used)];
      match w.reply(n) {
        case NotSupported =>
          out, spoken := Conclude(em, c, w, n, Unsupported, "BLOCKED: provider does not implement ToolChat",
                                  chats, spoken, used);
          return out, Unsupported, chats, spoken, used, n;
        case ContextError =>
          CancelledOutcome(c, w, quote, n, em.out, chats, spoken, used);
          return em.out, Cancelled, chats, spoken, used, n;
        case ProviderError(t) =>
          out, spoken := Conclude(em, c, w, n, ProviderFailed, "BLOCKED: provider error \U{2014} " + t,
                                  chats, spoken, used);
          return out, ProviderFailed, chats, spoken, used, n;
        case Response(content, calls, inputTokens, _) =>
          ghost var before := em.out;
          used := used + inputTokens;
          spoken := spoken + [content];
          var answers, stopped, cancelled := TakeReply(em, w, n, content, calls);
          if stopped {
            StopsNow(c, w, n, ModelStopped);
            Concludes(c, w, quote, n, ModelStopped, None, before + TurnEvents(w, quote, n), chats, spoken, used);
            assert before + TurnEvents(w, quote, n) + ([] + [DONE]) == em.out;
            assert spoken + [] == spoken;
            return em.out, ModelStopped, chats, spoken, used, n;
          }
          assert em.out == before + TurnEvents(w, quote, n);
          if cancelled {
            StopsNow(c, w, n, Cancelled);
            CancelledOutcome(c, w, quote, n, em.out, chats, spoken, used);
            return em.out, Cancelled, chats, spoken, used, n;
          }
          HistoryContinues(c, w, n);
          history := history + [AssistantTurn(content, calls)] + answers;
          UsedInBooks(c, w, quote, n + 1, em.out, chats, spoken, used);
          if c.maxInputTokens > 0 && used >= c.maxInputTokens {
            StopsNow(c, w, n, TokenCap);
            out, spoken := Conclude(em, c, w, n, TokenCap, TokenCapText(c), chats, spoken, used);
            return out, TokenCap, chats, spoken, used, n;
          }
      }
      n := n + 1;
    }
    StopsAtCap(c, w, n);
    out, spoken := Conclude(em, c, w, n, TurnCap, TurnCapText(c), chats, spoken, used);
    return out, TurnCap, chats, spoken, used, n;
  }

  lemma SkillStops(c: Config, w: World)
    requires c.skillError.Some?
    ensures StopsIn(c, w, 0, SkillMissing)
  {
  }

  lemma HistoryStarts(c: Config, w: World)
    ensures History(c, w, 0) == [User(c.prompt)]
  {
  }

  lemma HistoryContinues(c: Config, w: World, n: nat)
    requires w.reply(n).Response?
    ensures var r := w.reply(n);
            History(c, w, n + 1) == History(c, w, n) + [AssistantTurn(r.content, r.calls)] + Answered(w, n, r.calls)
  {
  }

  lemma UsedInBooks(c: Config, w: World, quote: string -> string, m: nat,
                    out: seq<RawLine>, chats: seq<Chat>, spoken: seq<string>, used: int)
    requires Books(c, w, quote, m, out, chats, spoken, used)
    ensures used == Used(w, m)
  {
  }

  lemma CancelledOutcome(c: Config, w: World, quote: string -> string, n: nat,
                         out: seq<RawLine>, chats: seq<Chat>, spoken: seq<string>, used: int)
    requires StopsIn(c, w, n, Cancelled) && Books(c, w, quote, Asked(w, n, Cancelled), out, chats, spoken, used)
    ensures Outcome(c, w, quote, n, Cancelled, out, chats, spoken, used)
  {
    hide StopsIn, Books, Outcome;
    Concludes(c, w, quote, n, Cancelled, None, out, chats, spoken, used);
    assert out + [] == out && spoken + [] == spoken;
  }
}
