// What the parser shows of an event stream besides the assistant's text (internal/session/streamjson.go):
// tool calls, tool results, notices, plain lines and the live preview, and the cost it keeps.
module StreamShows {
  import opened Options
  import opened TextLines
  import opened StreamJson

  // ---- trimming ----

  lemma {:induction false} TrimLeftIs(s: string) returns (i: nat)
    ensures i <= |s| && TrimLeft(s) == s[i..]
    ensures (forall k :: 0 <= k < i ==> IsSpace(s[k])) && (i < |s| ==> !IsSpace(s[i]))
  {
    hide IsSpace;
    i := 0;
    if s != "" && IsSpace(s[0]) {
      i := TrimLeftIs(s[1..]);
      assert forall k :: 0 < k < |s| ==> s[k] == s[1..][k - 1];
      i := i + 1;
    }
  }

  lemma {:induction false} TrimRightIs(s: string) returns (j: nat)
    ensures j <= |s| && TrimRight(s) == s[..j]
    ensures (forall k :: j <= k < |s| ==> IsSpace(s[k])) && (j > 0 ==> !IsSpace(s[j - 1]))
  {
    hide IsSpace;
    j := |s|;
    if s != "" && IsSpace(s[|s| - 1]) {
      j := TrimRightIs(s[..|s| - 1]);
      assert s[..|s| - 1][..j] == s[..j];
    } else {
      assert s[..|s|] == s;
    }
  }

  // Trimming takes off the white space at both ends and nothing else.
  lemma TrimIs(s: string) returns (i: nat, j: nat)
    ensures i <= j <= |s| && Trim(s) == s[i..j]
    ensures forall k :: 0 <= k < i || j <= k < |s| ==> IsSpace(s[k])
    ensures i < j ==> !IsSpace(s[i]) && !IsSpace(s[j - 1])
  {
    hide IsSpace;
    i := TrimLeftIs(s);
    var n := TrimRightIs(s[i..]);
    j := i + n;
    assert forall k :: i <= k < |s| ==> s[k] == s[i..][k - i];
    assert s[i..][..n] == s[i..j];
  }

  // A snippet is the trimmed text, or its first n characters and an ellipsis.
  lemma SnippetIs(s: string, n: nat)
    ensures |Snippet(s, n)| <= n + 1
    ensures |Trim(s)| <= n ==> Snippet(s, n) == Trim(s)
    ensures |Trim(s)| > n ==> Snippet(s, n)[..n] <= Trim(s) && Snippet(s, n)[n..] == "\U{2026}"
  {
    hide Trim;
  }

  // ---- the lines an event shows by itself ----

  function ToolUses(blocks: seq<ToolBlock>): seq<ToolBlock> {
    if blocks == [] then []
    else ToolUses(blocks[..|blocks| - 1]) + (if blocks[|blocks| - 1].blockType == "tool_use" then [blocks[|blocks| - 1]] else [])
  }

  function ToolResults(blocks: seq<ResultBlock>): seq<ResultBlock> {
    if blocks == [] then []
    else
      ToolResults(blocks[..|blocks| - 1]) +
      (if blocks[|blocks| - 1].blockType == "tool_result" then [blocks[|blocks| - 1]] else [])
  }

  function Own(raw: RawLine): seq<Line> {
    match raw
    case Plain(text) => [Verbatim(text)]
    case Json(SystemEvent(subtype, status)) =>
      if subtype == "init" then [Tagged(System, "session initialized \U{2014} model thinking\U{2026}")]
      else if subtype == "status" && status != "" then [Tagged(System, status)] else []
    case Json(Stream(Some(BlockStart(blockType, name)))) =>
      if blockType == "tool_use" && name != "" then [Tagged(Tool, name)] else []
    case Json(AssistantEvent(Some(blocks))) =>
      var uses := ToolUses(blocks);
      seq(|uses|, i requires 0 <= i < |uses| => Tagged(Tool, uses[i].name + " " + Snippet(uses[i].input, 140)))
    case Json(UserEvent(Some(blocks))) =>
      var results := ToolResults(blocks);
      seq(|results|, i requires 0 <= i < |results| =>
        Tagged(if results[i].isError then Role.Error else Role.Result, Snippet(results[i].content, 220)))
    case Json(ResultEvent(result, _)) => if result == "" then [] else [Tagged(Done, "completed")]
    case _ => []
  }

  // Events that end the text before them.
  predicate EndsText(raw: RawLine) {
    match raw
    case Json(SystemEvent(_, _)) => true
    case Json(ResultEvent(_, _)) => true
    case Json(Stream(Some(inner))) => inner.BlockStop? || inner.MessageStop? || Own(raw) != []
    case Json(_) => Own(raw) != []
    case Plain(_) => false
  }

  lemma {:induction false} ToolLinesAre(blocks: seq<ToolBlock>)
    ensures ToolLines(blocks) == Own(Json(AssistantEvent(Some(blocks))))
  {
    hide Snippet;
    if blocks != [] {
      ToolLinesAre(blocks[..|blocks| - 1]);
    }
  }

  lemma {:induction false} ResultLinesAre(blocks: seq<ResultBlock>)
    ensures ResultLines(blocks) == Own(Json(UserEvent(Some(blocks))))
  {
    hide Snippet;
    if blocks != [] {
      ResultLinesAre(blocks[..|blocks| - 1]);
    }
  }

  // An event that brings no text shows what was pending, if it ends the text, and then its own lines.
  lemma EventShows(pending: string, raw: RawLine)
    requires TextOf(raw) == ""
    ensures var f := FeedRaw(pending, raw);
            && f.lines == (if EndsText(raw) && pending != "" then [Tagged(Assistant, pending)] else []) + Own(raw)
            && f.pending == if EndsText(raw) then "" else pending
  {
    hide Snippet, ToolLines, ResultLines;
    match raw
    case Json(AssistantEvent(Some(blocks))) => ToolLinesAre(blocks);
    case Json(UserEvent(Some(blocks))) => ResultLinesAre(blocks);
    case _ =>
  }

  // Text shows its closed lines and then, live, what stays pending.
  lemma TextShows(pending: string, raw: RawLine)
    requires TextOf(raw) != ""
    ensures var f := FeedRaw(pending, raw);
            && f.lines == AsstLines(ClosedLines(pending + TextOf(raw)))
                          + (if f.pending == "" then [] else [Tagged(Live, f.pending)])
            && f.pending == Tail(pending + TextOf(raw))
            && Own(raw) == []
  {
  }

  // ---- a whole stream ----

  // The lines without the assistant's text and its preview.
  function Others(lines: seq<Line>): seq<Line> {
    if lines == [] then [] else (if IsText(lines[0]) then [] else [lines[0]]) + Others(lines[1..])
  }

  predicate IsText(l: Line) {
    l.Tagged? && (l.role.Assistant? || l.role.Live?)
  }

  function OwnOfAll(raws: seq<RawLine>): seq<Line> {
    if raws == [] then [] else Own(raws[0]) + OwnOfAll(raws[1..])
  }

  lemma {:induction false} OthersAppend(a: seq<Line>, b: seq<Line>)
    ensures Others(a + b) == Others(a) + Others(b)
  {
    hide IsText;
    if a == [] {
      assert a + b == b;
    } else {
      assert (a + b)[1..] == a[1..] + b && (a + b)[0] == a[0];
      OthersAppend(a[1..], b);
    }
  }

  lemma {:induction false} NoOthers(lines: seq<Line>)
    requires forall l :: l in lines ==> IsText(l)
    ensures Others(lines) == []
  {
    if lines != [] {
      NoOthers(lines[1..]);
    }
  }

  lemma {:induction false} OnlyOthers(lines: seq<Line>)
    requires forall l :: l in lines ==> !IsText(l)
    ensures Others(lines) == lines
  {
    if lines != [] {
      OnlyOthers(lines[1..]);
    }
  }

  lemma {:induction false} AsstTagged(texts: seq<string>)
    ensures forall l :: l in AsstLines(texts) ==> l.Tagged? && l.role.Assistant?
  {
    if texts != [] {
      AsstTagged(texts[1..]);
    }
  }

  lemma OwnTagged(raw: RawLine)
    ensures forall l :: l in Own(raw) ==> !IsText(l)
  {
    hide Snippet, ToolUses, ToolResults;
  }

  lemma RawOthers(pending: string, raw: RawLine)
    ensures Others(FeedRaw(pending, raw).lines) == Own(raw)
  {
    hide FeedRaw, Own, TextOf, EndsText, ClosedLines, Tail;
    OwnTagged(raw);
    OnlyOthers(Own(raw));
    if TextOf(raw) == "" {
      EventShows(pending, raw);
      var flush := if EndsText(raw) && pending != "" then [Tagged(Assistant, pending)] else [];
      OthersAppend(flush, Own(raw));
      NoOthers(flush);
    } else {
      TextShows(pending, raw);
      AsstTagged(ClosedLines(pending + TextOf(raw)));
      NoOthers(FeedRaw(pending, raw).lines);
    }
  }

  // Over any events, the lines shown besides the assistant's text are, in order, exactly those the
  // events show by themselves: one per tool call and result, with its name, snippet and error tag, one
  // per notice, and plain lines as they came.
  lemma {:induction false} OthersAreOwn(pending: string, raws: seq<RawLine>)
    ensures Others(FeedAll(pending, raws).lines) == OwnOfAll(raws)
    decreases |raws|
  {
    hide FeedRaw, Own;
    if raws != [] {
      var f := FeedRaw(pending, raws[0]);
      RawOthers(pending, raws[0]);
      OthersAreOwn(f.pending, raws[1..]);
      OthersAppend(f.lines, FeedAll(f.pending, raws[1..]).lines);
    }
  }

  // ---- the cost ----

  function CostOf(raws: seq<RawLine>): Option<CostData> {
    if raws == [] then None else CostAfter(CostOf(raws[..|raws| - 1]), raws[|raws| - 1])
  }

  // A result event that reports money or tokens spent.
  predicate Reports(raw: RawLine, c: CostData) {
    raw.Json? && raw.event.ResultEvent? && raw.event.usage == Some(c) && (c.usd > 0.0 || c.inputTokens > 0)
  }

  ghost predicate ReportedLast(raws: seq<RawLine>, k: int, c: CostData) {
    0 <= k < |raws| && Reports(raws[k], c) && forall j, d :: k < j < |raws| ==> !Reports(raws[j], d)
  }

  // The cost kept is the one reported last.
  lemma {:induction false} CostIsLastReported(raws: seq<RawLine>)
    ensures CostOf(raws).None? <==> forall k, c :: 0 <= k < |raws| ==> !Reports(raws[k], c)
    ensures CostOf(raws).Some? ==> exists k :: ReportedLast(raws, k, CostOf(raws).value)
  {
    if raws != [] {
      var init, last := raws[..|raws| - 1], raws[|raws| - 1];
      CostIsLastReported(init);
      assert forall k :: 0 <= k < |init| ==> init[k] == raws[k];
      if CostOf(raws) == CostOf(init) && CostOf(init).Some? && forall c :: !Reports(last, c) {
        var k :| ReportedLast(init, k, CostOf(init).value);
        assert ReportedLast(raws, k, CostOf(raws).value);
      } else if CostOf(raws).Some? {
        assert Reports(last, CostOf(raws).value);
        assert ReportedLast(raws, |init|, CostOf(raws).value);
      }
    }
  }
}
