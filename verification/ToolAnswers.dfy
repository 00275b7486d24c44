// What a harness run asks the model with and prints, told from what the run meets: every history and
// token count, every tool answer, every result event, and its last words (internal/harness/harness.go).
module ToolAnswers {
  import opened Options
  import opened TextLines
  import opened StreamJson
  import opened Harness

  // ---- the text a tool answers with ----

  function AnswerText(t: ToolOutcome): string {
    match t.err
    case None => t.result
    case Some(e) => if t.result == "" then "error: " + e else "error: " + e + "\n" + t.result
  }

  lemma ContentIs(t: ToolOutcome)
    ensures ToolContent(t) == AnswerText(t)
  {
    if t.err.Some? {
      var e := "error: " + t.err.value;
      assert e + "" == e;
      assert e + ("\n" + t.result) == e + "\n" + t.result;
    }
  }

  // ---- the chats ----

  // The input tokens of the first n replies.
  function Tokens(w: World, n: nat): int {
    if n == 0 then 0
    else
      Tokens(w, n - 1) + match w.reply(n - 1)
                         case Response(_, _, inputTokens, _) => inputTokens
                         case _ => 0
  }

  // The chat of the next turn: the reply of this one, and an answer to each of its calls.
  ghost predicate Follows(w: World, k: nat, before: Chat, after: Chat) {
    && w.reply(k).Response?
    && var calls, n := w.reply(k).calls, |before.history|;
       && after.used == before.used + w.reply(k).inputTokens
       && before.history <= after.history && |after.history| == n + 1 + |calls|
       && after.history[n] == AssistantTurn(w.reply(k).content, calls)
       && forall i :: 0 <= i < |calls| ==> after.history[n + 1 + i] == ToolAnswer(AnswerText(w.dispatch(k, i)), calls[i].id)
  }

  // Turn k goes on to the next: not cancelled, answered with calls that all run, under the token cap.
  predicate GoesOn(c: Config, w: World, k: nat) {
    && !w.cancelledBeforeTurn(k)
    && w.reply(k).Response? && w.reply(k).calls != []
    && (forall i :: 0 <= i < |w.reply(k).calls| ==> !w.cancelledBeforeTool(k, i))
    && (c.maxInputTokens > 0 ==> Tokens(w, k + 1) < c.maxInputTokens)
  }

  // The model is asked in turn k.
  ghost predicate TurnTaken(c: Config, w: World, k: nat) {
    && c.skillError.None? && k < c.maxTurns && !w.cancelledBeforeTurn(k)
    && forall j: nat :: j < k ==> GoesOn(c, w, j)
  }

  lemma {:induction false} UsedIs(w: World, n: nat)
    ensures Used(w, n) == Tokens(w, n)
  {
    if n > 0 {
      UsedIs(w, n - 1);
    }
  }

  lemma ContinuesIff(c: Config, w: World, k: nat)
    ensures Continues(c, w, k) <==> GoesOn(c, w, k)
  {
    hide Used, Tokens, ToolsRun;
    UsedIs(w, k + 1);
  }

  lemma HistoryFollows(c: Config, w: World, k: nat)
    requires w.reply(k).Response?
    ensures Follows(w, k, Chat(History(c, w, k), Used(w, k)), Chat(History(c, w, k + 1), Used(w, k + 1)))
  {
    hide History, ToolContent, AnswerText;
    HistoryContinues(c, w, k);
    var r := w.reply(k);
    forall i | 0 <= i < |r.calls| ensures Answered(w, k, r.calls)[i] == ToolAnswer(AnswerText(w.dispatch(k, i)), r.calls[i].id) {
      ContentIs(w.dispatch(k, i));
    }
  }

  // The run asks the model in exactly the turns it gets to; the first chat is the prompt, and each
  // further one the chat before, the reply, and for every call in order an answer with its id and the
  // tool's result or error text. The token counts are the sums of the replies'.
  lemma ChatsAreTold(c: Config, w: World, quote: string -> string, n: nat, stop: Stop,
                     out: seq<RawLine>, chats: seq<Chat>, spoken: seq<string>, used: int)
    requires Outcome(c, w, quote, n, stop, out, chats, spoken, used)
    ensures forall k: nat :: k < |chats| <==> TurnTaken(c, w, k)
    ensures chats != [] ==> chats[0] == Chat([User(c.prompt)], 0)
    ensures forall k :: 0 <= k && k + 1 < |chats| ==> Follows(w, k, chats[k], chats[k + 1])
    ensures used == Tokens(w, |chats|)
  {
    hide Events, Said, ClosingEvents, Closing, Follows, History, Used, Tokens, GoesOn, LastTurn;
    var m := Asked(w, n, stop);
    UsedIs(w, m);
    HistoryStarts(c, w);
    UsedNone(w);
    AskedTurns(c, w, n, stop);
    forall k | 0 <= k && k + 1 < |chats| ensures Follows(w, k, chats[k], chats[k + 1]) {
      assert TurnTaken(c, w, k + 1);
      assert GoesOn(c, w, k);
      assert w.reply(k).Response? by {
        GoesOnResponds(c, w, k);
      }
      HistoryFollows(c, w, k);
    }
  }

  lemma GoesOnResponds(c: Config, w: World, k: nat)
    requires GoesOn(c, w, k)
    ensures w.reply(k).Response? && !w.cancelledBeforeTurn(k)
  {
  }

  lemma UsedNone(w: World)
    ensures Used(w, 0) == 0
  {
  }

  lemma AskedTurns(c: Config, w: World, n: nat, stop: Stop)
    requires StopsIn(c, w, n, stop)
    ensures forall k: nat :: k < Asked(w, n, stop) <==> TurnTaken(c, w, k)
  {
    hide Continues, GoesOn, Productive;
    LastTurnIs(w, n);
    forall k: nat ensures Continues(c, w, k) <==> GoesOn(c, w, k) {
      ContinuesIff(c, w, k);
    }
    forall k: nat | k < n ensures !w.cancelledBeforeTurn(k) && TurnTaken(c, w, k) {
      assert Continues(c, w, k);
      GoesOnResponds(c, w, k);
    }
    CancelledLast(w, n);
    if n < c.maxTurns && c.skillError.None? {
      assert !GoesOn(c, w, n);
      assert forall k: nat :: k > n ==> !TurnTaken(c, w, k);
    }
  }

  lemma CancelledLast(w: World, n: nat)
    ensures w.cancelledBeforeTurn(n) ==> LastTurn(w, n) == Cancelled
  {
  }

  // ---- the events ----

  // The tool results printed, in order.
  function ResultEvents(raws: seq<RawLine>): seq<RawLine> {
    if raws == [] then []
    else (if raws[0].Json? && raws[0].event.UserEvent? then [raws[0]] else []) + ResultEvents(raws[1..])
  }

  // How many calls of turn k run: those before the one that finds the context cancelled.
  function CallsRun(w: World, k: nat): nat {
    match w.reply(k)
    case Response(_, calls, _, _) => ToolsRun(w, k, |calls|)
    case _ => 0
  }

  // How many run before turn k.
  function CallsBefore(w: World, k: nat): nat {
    if k == 0 then 0 else CallsBefore(w, k - 1) + CallsRun(w, k - 1)
  }

  // The content is quoted; a tool that failed is flagged.
  function ResultTold(quote: string -> string, t: ToolOutcome): RawLine {
    Json(UserEvent(Some([ResultBlock("tool_result", quote(AnswerText(t)), t.err != None)])))
  }

  lemma {:induction false} ResultEventsAppend(a: seq<RawLine>, b: seq<RawLine>)
    ensures ResultEvents(a + b) == ResultEvents(a) + ResultEvents(b)
  {
    if a == [] {
      assert a + b == b;
    } else {
      assert (a + b)[1..] == a[1..] + b;
      ResultEventsAppend(a[1..], b);
    }
  }

  lemma {:induction false} AllResults(raws: seq<RawLine>)
    requires forall r :: r in raws ==> r.Json? && r.event.UserEvent?
    ensures ResultEvents(raws) == raws
  {
    if raws != [] {
      AllResults(raws[1..]);
    }
  }

  lemma NoResultsInMessage(text: string, calls: seq<ToolCall>)
    ensures ResultEvents(AssistantEvents(text, calls)) == []
  {
    NoneAreResults(AssistantEvents(text, calls));
  }

  lemma {:induction false} NoneAreResults(raws: seq<RawLine>)
    requires forall r :: r in raws ==> !(r.Json? && r.event.UserEvent?)
    ensures ResultEvents(raws) == []
  {
    if raws != [] {
      NoneAreResults(raws[1..]);
    }
  }

  lemma ToolEventIs(w: World, quote: string -> string, k: nat, n: nat)
    ensures forall i :: 0 <= i < n ==> ToolEvents(w, quote, k, n)[i] == ResultTold(quote, w.dispatch(k, i))
    ensures ResultEvents(ToolEvents(w, quote, k, n)) == ToolEvents(w, quote, k, n)
  {
    hide ToolContent, AnswerText;
    forall i | 0 <= i < n ensures ToolEvents(w, quote, k, n)[i] == ResultTold(quote, w.dispatch(k, i)) {
      ContentIs(w.dispatch(k, i));
    }
    AllResults(ToolEvents(w, quote, k, n));
  }

  lemma TurnResults(w: World, quote: string -> string, k: nat)
    ensures var r := ResultEvents(TurnEvents(w, quote, k));
            && |r| == CallsRun(w, k)
            && forall i :: 0 <= i < |r| ==> r[i] == ResultTold(quote, w.dispatch(k, i))
  {
    hide ToolsRun, AssistantEvents, ResultTold, ToolEvents, ResultEvents;
    match w.reply(k)
    case Response(content, calls, _, _) =>
      var told := ToolEvents(w, quote, k, ToolsRun(w, k, |calls|));
      ResultEventsAppend(AssistantEvents(content, calls), told);
      NoResultsInMessage(content, calls);
      ToolEventIs(w, quote, k, ToolsRun(w, k, |calls|));
      assert |told| == ToolsRun(w, k, |calls|);
    case _ => NoneAreResults([]);
  }

  // The result events of the first n turns.
  ghost predicate ResultsTold(w: World, quote: string -> string, n: nat, events: seq<RawLine>) {
    && |events| == CallsBefore(w, n)
    && forall k: nat, i: nat :: k < n && i < CallsRun(w, k) ==> ToldAt(w, quote, k, i, events)
  }

  ghost predicate ToldAt(w: World, quote: string -> string, k: nat, i: nat, events: seq<RawLine>) {
    CallsBefore(w, k) + i < |events| && events[CallsBefore(w, k) + i] == ResultTold(quote, w.dispatch(k, i))
  }

  lemma {:induction false} EventsTellResults(w: World, quote: string -> string, n: nat)
    ensures ResultsTold(w, quote, n, ResultEvents(Events(w, quote, n)))
  {
    hide TurnEvents, CallsRun, ResultTold, ResultEvents;
    if n == 0 {
      NoneAreResults([INIT]);
    } else {
      EventsTellResults(w, quote, n - 1);
      var before := ResultEvents(Events(w, quote, n - 1));
      var more := ResultEvents(TurnEvents(w, quote, n - 1));
      ResultEventsAppend(Events(w, quote, n - 1), TurnEvents(w, quote, n - 1));
      TurnResults(w, quote, n - 1);
      forall k: nat, i: nat | k < n && i < CallsRun(w, k) ensures ToldAt(w, quote, k, i, before + more) {
        if k < n - 1 {
          assert ToldAt(w, quote, k, i, before);
        }
      }
    }
  }

  lemma ClosingTellsNone(closing: Option<string>, stop: Stop)
    ensures ResultEvents(ClosingEvents(closing, stop)) == []
  {
    NoneAreResults(ClosingEvents(closing, stop));
  }

  // The result events a run prints are, turn by turn and call by call, one for each call that runs: the
  // quoted text the model is answered with, flagged exactly when the tool failed.
  lemma ResultEventsAreTold(c: Config, w: World, quote: string -> string, n: nat, stop: Stop,
                            out: seq<RawLine>, chats: seq<Chat>, spoken: seq<string>, used: int)
    requires Outcome(c, w, quote, n, stop, out, chats, spoken, used)
    ensures ResultsTold(w, quote, |chats|, ResultEvents(out))
  {
    hide Events, Said, ClosingEvents, Closing, ResultsTold, History, Used, StopsIn;
    var m := Asked(w, n, stop);
    EventsTellResults(w, quote, m);
    ResultEventsAppend(Events(w, quote, m), ClosingEvents(Closing(c, w, n, stop), stop));
    ClosingTellsNone(Closing(c, w, n, stop), stop);
    var told := ResultEvents(Events(w, quote, m));
    assert told + [] == told;
  }

  // ---- the lines shown ----

  // What one turn shows: the reply's lines, its calls when they can be encoded, and the results.
  function TurnShows(w: World, quote: string -> string, k: nat): seq<Line> {
    match w.reply(k)
    case Response(content, calls, _, _) =>
      AsstLines(NonEmptyLines(content))
      + (if forall call :: call in calls ==> call.args == "" || call.valid then CallsShow(calls) else [])
      + ResultsShow(w, quote, k, CallsRun(w, k))
    case _ => []
  }

  function ResultsShow(w: World, quote: string -> string, k: nat, n: nat): (r: seq<Line>)
    ensures |r| == n && forall i :: 0 <= i < n ==> r[i] == ResultShows(quote, w.dispatch(k, i))
  {
    seq(n, i requires 0 <= i < n => ResultShows(quote, w.dispatch(k, i)))
  }

  // A call shows its name and its arguments, "{}" when it has none.
  function CallsShow(calls: seq<ToolCall>): (r: seq<Line>)
    ensures |r| == |calls|
    ensures forall i :: 0 <= i < |r| ==>
              r[i] == Tagged(Tool, calls[i].name + " " + Snippet(if calls[i].args == "" then "{}" else calls[i].args, 140))
  {
    seq(|calls|, i requires 0 <= i < |calls| =>
      Tagged(Tool, calls[i].name + " " + Snippet(if calls[i].args == "" then "{}" else calls[i].args, 140)))
  }

  lemma CallsAreShown(calls: seq<ToolCall>)
    ensures CallLines(calls) == CallsShow(calls)
  {
    hide Snippet;
  }

  function ResultShows(quote: string -> string, t: ToolOutcome): Line {
    Tagged(if t.err == None then Role.Result else Role.Error, Snippet(quote(AnswerText(t)), 220))
  }

  function RunShows(w: World, quote: string -> string, n: nat): seq<Line> {
    if n == 0 then [Tagged(System, "session initialized \U{2014} model thinking\U{2026}")]
    else RunShows(w, quote, n - 1) + TurnShows(w, quote, n - 1)
  }

  lemma OneResultFed(quote: string -> string, t: ToolOutcome)
    ensures FeedRaw("", ResultTold(quote, t)) == Fed("", [ResultShows(quote, t)])
  {
    hide AnswerText, Snippet;
    var blocks := [ResultBlock("tool_result", quote(AnswerText(t)), t.err != None)];
    assert blocks[..0] == [];
    assert Flush("") + ResultLines(blocks) == [ResultShows(quote, t)];
  }

  lemma OneMoreResult(w: World, quote: string -> string, k: nat, n: nat)
    ensures ToolEvents(w, quote, k, n + 1) == ToolEvents(w, quote, k, n) + [ResultTold(quote, w.dispatch(k, n))]
    ensures ResultsShow(w, quote, k, n + 1) == ResultsShow(w, quote, k, n) + [ResultShows(quote, w.dispatch(k, n))]
    ensures ToolEvents(w, quote, k, 0) == [] && ResultsShow(w, quote, k, 0) == []
  {
    hide ResultTold, ResultShows, ToolEvents, ResultsShow, ResultEvents;
    ToolEventIs(w, quote, k, n + 1);
    ToolEventIs(w, quote, k, n);
    var events, more := ToolEvents(w, quote, k, n), ToolEvents(w, quote, k, n + 1);
    assert forall i :: 0 <= i < n ==> more[i] == events[i];
    assert more == events + [more[n]];
    var lines, longer := ResultsShow(w, quote, k, n), ResultsShow(w, quote, k, n + 1);
    assert forall i :: 0 <= i < n ==> longer[i] == lines[i];
    assert longer == lines + [longer[n]];
  }

  lemma {:induction false} ResultsFed(w: World, quote: string -> string, k: nat, n: nat)
    ensures FeedAll("", ToolEvents(w, quote, k, n)) == Fed("", ResultsShow(w, quote, k, n))
  {
    hide FeedRaw, FeedAll, ResultShows, ResultTold, ToolEvents, ResultsShow;
    if n == 0 {
      OneMoreResult(w, quote, k, 0);
      FeedNone("");
    } else {
      ResultsFed(w, quote, k, n - 1);
      OneMoreResult(w, quote, k, n - 1);
      var last := ResultTold(quote, w.dispatch(k, n - 1));
      FeedAllAppend("", ToolEvents(w, quote, k, n - 1), [last]);
      FeedOne("", last);
      OneResultFed(quote, w.dispatch(k, n - 1));
    }
  }

  lemma TurnFed(w: World, quote: string -> string, k: nat)
    ensures FeedAll("", TurnEvents(w, quote, k)) == Fed("", TurnShows(w, quote, k))
  {
    hide FeedAll, ToolsRun, AssistantEvents, ResultShows, ToolEvents, CallLines, CallsShow;
    match w.reply(k)
    case Response(content, calls, _, _) =>
      CallsAreShown(calls);
      MessageRoundTrip(content, calls);
      ResultsFed(w, quote, k, ToolsRun(w, k, |calls|));
      FeedAllAppend("", AssistantEvents(content, calls), ToolEvents(w, quote, k, ToolsRun(w, k, |calls|)));
    case _ => FeedNone("");
  }

  // The parser shows of a run, turn by turn: the lines of the reply, the calls, and a line per result
  // with the text the model was answered with, marked when the tool failed.
  lemma {:induction false} RunIsShown(w: World, quote: string -> string, n: nat)
    ensures FeedAll("", Events(w, quote, n)) == Fed("", RunShows(w, quote, n))
  {
    hide TurnEvents, TurnShows, FeedAll;
    if n == 0 {
      FeedOne("", INIT);
    } else {
      RunIsShown(w, quote, n - 1);
      TurnFed(w, quote, n - 1);
      FeedAllAppend("", Events(w, quote, n - 1), TurnEvents(w, quote, n - 1));
    }
  }

  // ---- how a run ends ----

  // Turn n is the last one, reached with every turn before it going on.
  ghost predicate LastIs(c: Config, w: World, n: nat) {
    c.skillError.None? && n < c.maxTurns && forall j: nat :: j < n ==> GoesOn(c, w, j)
  }

  ghost predicate AllCallsRun(w: World, n: nat) {
    w.reply(n).Response? && forall i :: 0 <= i < |w.reply(n).calls| ==> !w.cancelledBeforeTool(n, i)
  }

  lemma ToolsRunIff(w: World, k: nat)
    requires w.reply(k).Response?
    ensures ToolsRun(w, k, |w.reply(k).calls|) == |w.reply(k).calls| <==> AllCallsRun(w, k)
  {
  }

  lemma LastTurnsAgree(c: Config, w: World, n: nat)
    requires c.skillError.None? && n < c.maxTurns
    ensures (forall j: nat :: j < n ==> Continues(c, w, j)) <==> LastIs(c, w, n)
    ensures Continues(c, w, n) <==> GoesOn(c, w, n)
  {
    hide Continues, GoesOn;
    forall k: nat ensures Continues(c, w, k) <==> GoesOn(c, w, k) {
      ContinuesIff(c, w, k);
    }
  }

  // Why a run stops, for each reason but the caps.
  lemma StopIsTold(c: Config, w: World, n: nat)
    ensures StopsIn(c, w, n, SkillMissing) <==> c.skillError.Some? && n == 0
    ensures StopsIn(c, w, n, Unsupported) <==> LastIs(c, w, n) && !w.cancelledBeforeTurn(n) && w.reply(n).NotSupported?
    ensures StopsIn(c, w, n, ProviderFailed) <==> LastIs(c, w, n) && !w.cancelledBeforeTurn(n) && w.reply(n).ProviderError?
    ensures StopsIn(c, w, n, ModelStopped) <==>
            LastIs(c, w, n) && !w.cancelledBeforeTurn(n) && w.reply(n).Response? && w.reply(n).calls == []
    ensures StopsIn(c, w, n, Cancelled) <==>
            LastIs(c, w, n) && (w.cancelledBeforeTurn(n) || w.reply(n).ContextError? || (w.reply(n).Response? && !AllCallsRun(w, n)))
  {
    hide Continues, GoesOn, ToolsRun, AllCallsRun, Tokens;
    if c.skillError.None? && n < c.maxTurns {
      LastTurnsAgree(c, w, n);
      if w.reply(n).Response? {
        ToolsRunIff(w, n);
        NoCallsRun(w, n);
      }
      if w.cancelledBeforeTurn(n) || !w.reply(n).Response? || w.reply(n).calls == [] || !AllCallsRun(w, n) {
        StopsWhen(c, w, n);
      }
    }
  }

  lemma NoCallsRun(w: World, n: nat)
    requires w.reply(n).Response?
    ensures w.reply(n).calls == [] ==> AllCallsRun(w, n)
  {
  }

  lemma StopsWhen(c: Config, w: World, n: nat)
    requires w.cancelledBeforeTurn(n) || !w.reply(n).Response? || w.reply(n).calls == [] || !AllCallsRun(w, n)
    ensures !GoesOn(c, w, n)
  {
  }

  // The conductor's last words are one BLOCKED message that names the reason; a run that the model ends
  // or that is cancelled has none.
  lemma LastWordsAreTold(c: Config, w: World, quote: string -> string, n: nat, stop: Stop,
                         out: seq<RawLine>, chats: seq<Chat>, spoken: seq<string>, used: int)
    requires Outcome(c, w, quote, n, stop, out, chats, spoken, used)
    ensures stop.SkillMissing? ==> EndsWith(out, "BLOCKED: harness skill bundle missing \U{2014} " + c.skillError.value)
    ensures stop.Unsupported? ==> EndsWith(out, "BLOCKED: provider does not implement ToolChat")
    ensures stop.ProviderFailed? ==> EndsWith(out, "BLOCKED: provider error \U{2014} " + w.reply(n).text)
    ensures stop.ModelStopped? ==> out == Events(w, quote, |chats|) + [DONE]
    ensures stop.Cancelled? ==> out == Events(w, quote, |chats|)
  {
    hide Events, Said, History, Used, EndsWith, LastIs, AllCallsRun, Transcript, AssistantEvents;
    var m, closing := Asked(w, n, stop), Closing(c, w, n, stop);
    StopIsTold(c, w, n);
    hide StopsIn;
    EventsAreTranscript(w, quote, m);
    assert closing.None? <==> stop in {Cancelled, ModelStopped};
    ClosingIsReported(Events(w, quote, m), Said(w, m), closing, stop);
    assert [] + [DONE] == [DONE];
  }

  // Of m turns the model was asked in, how many it answered: only the last can fail.
  function Replies(w: World, m: nat): int {
    if m > 0 && !w.reply(m - 1).Response? then m - 1 else m
  }

  // What is said: the content of every reply, in order, and then those last words.
  lemma SpokenIsTold(c: Config, w: World, quote: string -> string, n: nat, stop: Stop,
                     out: seq<RawLine>, chats: seq<Chat>, spoken: seq<string>, used: int)
    requires Outcome(c, w, quote, n, stop, out, chats, spoken, used)
    ensures forall k: nat :: k < |chats| && w.reply(k).Response? ==> k < |spoken| && spoken[k] == w.reply(k).content
    ensures |spoken| == Replies(w, |chats|) + if stop.Cancelled? || stop.ModelStopped? then 0 else 1
  {
    hide Events, ClosingEvents, History, Used, GoesOn, LastIs;
    var m := Asked(w, n, stop);
    LastTurnIs(w, n);
    AskedTurns(c, w, n, stop);
    hide StopsIn;
    forall k: nat | k + 1 < m ensures w.reply(k).Response? {
      assert TurnTaken(c, w, k + 1);
      GoesOnResponds(c, w, k);
    }
    SaidIs(w, m);
  }

  lemma {:induction false} SaidIs(w: World, m: nat)
    requires forall k: nat :: k + 1 < m ==> w.reply(k).Response?
    ensures |Said(w, m)| == Replies(w, m)
    ensures forall k: nat :: k < m && w.reply(k).Response? ==> k < |Said(w, m)| && Said(w, m)[k] == w.reply(k).content
  {
    if m > 0 {
      SaidIs(w, m - 1);
    }
  }
}
