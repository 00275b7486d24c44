// The incremental stream-json parser (internal/session/streamjson.go). JSON is taken as
// already decoded: a raw transcript line is either plain text or one event.
module StreamJson {
  import opened Options
  import opened TextLines

  datatype Role = Assistant | System | Tool | Result | Error | Live | Done

  function Prefix(r: Role): string {
    match r
    case Assistant => "@asst "
    case System => "@sys  "
    case Tool => "@tool "
    case Result => "@res  "
    case Error => "@err  "
    case Live => "@live "
    case Done => "@done "
  }

  // A display line: passed through as it came, or tagged with a role.
  datatype Line = Verbatim(text: string) | Tagged(role: Role, text: string)

  function Render(l: Line): string {
    match l
    case Verbatim(t) => t
    case Tagged(r, t) => Prefix(r) + t
  }

  datatype CostData = CostData(usd: real, inputTokens: int, outputTokens: int)

  datatype StreamEvent =
    | BlockStart(blockType: string, name: string)
    | BlockDelta(deltaType: string, text: string)
    | BlockStop
    | MessageStop
    | OtherStreamEvent

  datatype ToolBlock = ToolBlock(blockType: string, name: string, input: string)
  datatype ResultBlock = ResultBlock(blockType: string, content: string, isError: bool)

  // None stands for a payload that does not decode.
  datatype Event =
    | SystemEvent(subtype: string, status: string)
    | Stream(inner: Option<StreamEvent>)
    | AssistantEvent(content: Option<seq<ToolBlock>>)
    | UserEvent(results: Option<seq<ResultBlock>>)
    | ResultEvent(result: string, usage: Option<CostData>)
    | OtherEvent

  datatype RawLine = Plain(text: string) | Json(event: Event)

  // ---- snippetBytes ----

  predicate IsSpace(c: char) {
    || c in [' ', '\t', '\n', '\r', '\U{0B}', '\U{0C}', '\U{85}', '\U{A0}', '\U{1680}', '\U{2028}', '\U{2029}', '\U{202F}',
             '\U{205F}', '\U{3000}']
    || '\U{2000}' <= c <= '\U{200A}'
  }

  function TrimLeft(s: string): string {
    if s != "" && IsSpace(s[0]) then TrimLeft(s[1..]) else s
  }

  function TrimRight(s: string): string {
    if s != "" && IsSpace(s[|s| - 1]) then TrimRight(s[..|s| - 1]) else s
  }

  function Trim(s: string): string {
    TrimRight(TrimLeft(s))
  }

  function Snippet(s: string, n: nat): string {
    var t := Trim(s);
    if |t| <= n then t else t[..n] + "\U{2026}"
  }

  // ---- what one raw line does to the pending text ----

  datatype Fed = Fed(pending: string, lines: seq<Line>)

  function Flush(pending: string): seq<Line> {
    if pending != "" then [Tagged(Assistant, pending)] else []
  }

  function AsstLines(texts: seq<string>): (lines: seq<Line>)
    ensures |lines| == |texts|
  {
    if texts == [] then [] else [Tagged(Assistant, texts[0])] + AsstLines(texts[1..])
  }

  lemma {:induction false} AsstLinesAppend(a: seq<string>, b: seq<string>)
    ensures AsstLines(a + b) == AsstLines(a) + AsstLines(b)
  {
    if a == [] {
      assert a + b == b;
    } else {
      assert (a + b)[1..] == a[1..] + b;
      AsstLinesAppend(a[1..], b);
    }
  }

  function ToolLine(b: ToolBlock): Line {
    Tagged(Tool, b.name + " " + Snippet(b.input, 140))
  }

  function ResultLine(b: ResultBlock): Line {
    Tagged(if b.isError then Error else Result, Snippet(b.content, 220))
  }

  predicate IsToolUse(b: ToolBlock) {
    b.blockType == "tool_use"
  }

  predicate IsToolResult(b: ResultBlock) {
    b.blockType == "tool_result"
  }

  function ToolLines(content: seq<ToolBlock>): seq<Line> {
    if content == [] then []
    else
      var last := content[|content| - 1];
      ToolLines(content[..|content| - 1]) + (if IsToolUse(last) then [ToolLine(last)] else [])
  }

  function ResultLines(content: seq<ResultBlock>): seq<Line> {
    if content == [] then []
    else
      var last := content[|content| - 1];
      ResultLines(content[..|content| - 1]) + (if IsToolResult(last) then [ResultLine(last)] else [])
  }

  // Lines that come with a flush in front of the first one.
  function Flushed(pending: string, lines: seq<Line>): Fed {
    if lines == [] then Fed(pending, []) else Fed("", Flush(pending) + lines)
  }

  function FeedText(pending: string, text: string): Fed {
    var cur := pending + text;
    Fed(Tail(cur), AsstLines(ClosedLines(cur)) + (if Tail(cur) != "" then [Tagged(Live, Tail(cur))] else []))
  }

  function FeedStream(pending: string, ev: StreamEvent): Fed {
    match ev
    case BlockStart(t, name) =>
      if t == "tool_use" && name != "" then Fed("", Flush(pending) + [Tagged(Tool, name)]) else Fed(pending, [])
    case BlockDelta(t, text) =>
      if t == "text_delta" && text != "" then FeedText(pending, text) else Fed(pending, [])
    case BlockStop => Fed("", Flush(pending))
    case MessageStop => Fed("", Flush(pending))
    case OtherStreamEvent => Fed(pending, [])
  }

  function SystemLines(subtype: string, status: string): seq<Line> {
    if subtype == "init" then [Tagged(System, "session initialized \U{2014} model thinking\U{2026}")]
    else if subtype == "status" && status != "" then [Tagged(System, status)]
    else []
  }

  function FeedEvent(pending: string, ev: Event): Fed {
    match ev
    case SystemEvent(subtype, status) => Fed("", Flush(pending) + SystemLines(subtype, status))
    case Stream(inner) => if inner.None? then Fed(pending, []) else FeedStream(pending, inner.value)
    case AssistantEvent(content) =>
      if content.None? then Fed(pending, []) else Flushed(pending, ToolLines(content.value))
    case UserEvent(results) =>
      if results.None? then Fed(pending, []) else Flushed(pending, ResultLines(results.value))
    case ResultEvent(result, _) =>
      Fed("", Flush(pending) + (if result != "" then [Tagged(Done, "completed")] else []))
    case OtherEvent => Fed(pending, [])
  }

  function FeedRaw(pending: string, raw: RawLine): Fed {
    match raw
    case Plain(t) => Fed(pending, [Verbatim(t)])
    case Json(ev) => FeedEvent(pending, ev)
  }

  function CostAfter(cost: Option<CostData>, raw: RawLine): Option<CostData> {
    if raw.Json? && raw.event.ResultEvent? && raw.event.usage.Some?
       && (raw.event.usage.value.usd > 0.0 || raw.event.usage.value.inputTokens > 0)
    then raw.event.usage else cost
  }

  class StreamParser {
    var pending: string
    var cost: Option<CostData>

    constructor ()
      ensures pending == "" && cost == None
    {
      pending := "";
      cost := None;
    }

    method Feed(raw: RawLine) returns (out: seq<Line>)
      modifies this
      ensures Fed(pending, out) == FeedRaw(old(pending), raw)
      ensures cost == CostAfter(old(cost), raw)
    {
      out := [];
      match raw {
        case Plain(t) =>
          out := [Verbatim(t)];
        case Json(ev) =>
          match ev {
            case SystemEvent(subtype, status) =>
              out := FlushPending();
              if subtype == "init" {
                out := out + [Tagged(System, "session initialized \U{2014} model thinking\U{2026}")];
              } else if subtype == "status" && status != "" {
                out := out + [Tagged(System, status)];
              }
            case Stream(inner) =>
              if inner.Some? {
                out := FeedStreamEvent(inner.value);
              }
            case AssistantEvent(content) =>
              if content.Some? {
                out := FeedTools(content.value);
              }
            case UserEvent(results) =>
              if results.Some? {
                out := FeedResults(results.value);
              }
            case ResultEvent(result, usage) =>
              out := FlushPending();
              if usage.Some? && (usage.value.usd > 0.0 || usage.value.inputTokens > 0) {
                cost := usage;
              }
              if result != "" {
                out := out + [Tagged(Done, "completed")];
              }
            case OtherEvent =>
          }
      }
    }

    method FlushPending() returns (out: seq<Line>)
      modifies this`pending
      ensures pending == "" && out == Flush(old(pending))
    {
      out := [];
      if |pending| > 0 {
        out := [Tagged(Assistant, pending)];
        pending := "";
      }
    }

    method FeedStreamEvent(ev: StreamEvent) returns (out: seq<Line>)
      modifies this`pending
      ensures Fed(pending, out) == FeedStream(old(pending), ev)
    {
      out := [];
      match ev {
        case BlockStart(t, name) =>
          if t == "tool_use" && name != "" {
            out := FlushPending();
            out := out + [Tagged(Tool, name)];
          }
        case BlockDelta(t, text) =>
          if t == "text_delta" && text != "" {
            pending := pending + text;
            out := TakeClosedLines();
            if pending != "" {
              out := out + [Tagged(Live, pending)];
            }
          }
        case BlockStop =>
          out := FlushPending();
        case MessageStop =>
          out := FlushPending();
        case OtherStreamEvent =>
      }
    }

    // The loop that emits complete lines as they form.
    method TakeClosedLines() returns (out: seq<Line>)
      modifies this`pending
      ensures out == AsstLines(ClosedLines(old(pending))) && pending == Tail(old(pending))
    {
      out := [];
      var cur := pending;
      while true
        invariant Tail(cur) == Tail(old(pending))
        invariant out + AsstLines(ClosedLines(cur)) == AsstLines(ClosedLines(old(pending)))
        decreases |cur|
      {
        var nl := FirstBreak(cur);
        if nl == |cur| {
          SplitWhole(cur);
          break;
        }
        var line := cur[..nl];
        assert cur == line + [cur[nl]] + cur[nl + 1..];
        LinesAfterFirst(line, cur[nl], cur[nl + 1..]);
        AsstLinesAppend(if line != "" then [line] else [], ClosedLines(cur[nl + 1..]));
        if line != "" {
          out := out + [Tagged(Assistant, line)];
        }
        cur := cur[nl + 1..];
      }
      pending := cur;
    }

    method FeedTools(content: seq<ToolBlock>) returns (out: seq<Line>)
      modifies this`pending
      ensures Fed(pending, out) == Flushed(old(pending), ToolLines(content))
    {
      out := [];
      for i := 0 to |content|
        invariant Fed(pending, out) == Flushed(old(pending), ToolLines(content[..i]))
      {
        assert content[..i + 1][..i] == content[..i];
        if IsToolUse(content[i]) {
          var flushed := FlushPending();
          out := out + flushed + [ToolLine(content[i])];
        }
      }
      assert content[..|content|] == content;
    }

    method FeedResults(content: seq<ResultBlock>) returns (out: seq<Line>)
      modifies this`pending
      ensures Fed(pending, out) == Flushed(old(pending), ResultLines(content))
    {
      out := [];
      for i := 0 to |content|
        invariant Fed(pending, out) == Flushed(old(pending), ResultLines(content[..i]))
      {
        assert content[..i + 1][..i] == content[..i];
        if IsToolResult(content[i]) {
          var flushed := FlushPending();
          out := out + flushed + [ResultLine(content[i])];
        }
      }
      assert content[..|content|] == content;
    }
  }

  // ---- whole event sequences ----

  function FeedAll(pending: string, raws: seq<RawLine>): Fed
    decreases |raws|
  {
    if raws == [] then Fed(pending, [])
    else
      var first := FeedRaw(pending, raws[0]);
      var rest := FeedAll(first.pending, raws[1..]);
      Fed(rest.pending, first.lines + rest.lines)
  }

  lemma {:induction false} FeedAllAppend(pending: string, a: seq<RawLine>, b: seq<RawLine>)
    ensures var x := FeedAll(pending, a);
            var y := FeedAll(x.pending, b);
            FeedAll(pending, a + b) == Fed(y.pending, x.lines + y.lines)
    decreases |a|
  {
    if a == [] {
      assert a + b == b;
    } else {
      assert (a + b)[1..] == a[1..] + b;
      FeedAllAppend(FeedRaw(pending, a[0]).pending, a[1..], b);
    }
  }

  // The texts of the "@asst" lines.
  function AsstTexts(lines: seq<Line>): seq<string> {
    if lines == [] then []
    else (if lines[0].Tagged? && lines[0].role.Assistant? then [lines[0].text] else []) + AsstTexts(lines[1..])
  }

  lemma {:induction false} AsstTextsAppend(a: seq<Line>, b: seq<Line>)
    ensures AsstTexts(a + b) == AsstTexts(a) + AsstTexts(b)
  {
    if a == [] {
      assert a + b == b;
    } else {
      assert (a + b)[1..] == a[1..] + b;
      AsstTextsAppend(a[1..], b);
    }
  }

  lemma {:induction false} AsstTextsOfLines(texts: seq<string>)
    ensures AsstTexts(AsstLines(texts)) == texts
  {
    if texts != [] {
      AsstTextsOfLines(texts[1..]);
    }
  }

  lemma {:induction false} NoAsstText(lines: seq<Line>)
    requires forall l :: l in lines ==> l.Tagged? ==> !l.role.Assistant?
    ensures AsstTexts(lines) == []
  {
    if lines != [] {
      NoAsstText(lines[1..]);
    }
  }

  // One text chunk as the CLI and the harness send it.
  function Delta(text: string): RawLine {
    Json(Stream(Some(BlockDelta("text_delta", text))))
  }

  function Deltas(chunks: seq<string>): seq<RawLine> {
    if chunks == [] then [] else [Delta(chunks[0])] + Deltas(chunks[1..])
  }

  lemma DeltaTexts(pending: string, text: string)
    requires NoBreak(pending)
    ensures var f := FeedRaw(pending, Delta(text));
            AsstTexts(f.lines) == ClosedLines(pending + text) && f.pending == Tail(pending + text)
  {
    var cur := pending + text;
    if text == "" {
      assert cur == pending;
      SplitWhole(pending);
    } else {
      var live := if Tail(cur) != "" then [Tagged(Live, Tail(cur))] else [];
      AsstTextsAppend(AsstLines(ClosedLines(cur)), live);
      AsstTextsOfLines(ClosedLines(cur));
      NoAsstText(live);
    }
  }

  // AsstTexts and the pending text of a longer sequence, first line split off.
  lemma FeedAllFirst(pending: string, first: RawLine, rest: seq<RawLine>)
    ensures var x := FeedRaw(pending, first);
            var y := FeedAll(x.pending, rest);
            var f := FeedAll(pending, [first] + rest);
            AsstTexts(f.lines) == AsstTexts(x.lines) + AsstTexts(y.lines) && f.pending == y.pending
  {
    assert ([first] + rest)[1..] == rest;
    var x := FeedRaw(pending, first);
    AsstTextsAppend(x.lines, FeedAll(x.pending, rest).lines);
  }

  // The "@asst" texts and the pending text after the chunks.
  function Texts(pending: string, chunks: seq<string>): (seq<string>, string) {
    var f := FeedAll(pending, Deltas(chunks));
    (AsstTexts(f.lines), f.pending)
  }

  lemma TextsFirst(pending: string, chunk: string, chunks: seq<string>)
    requires NoBreak(pending)
    ensures var cur := pending + chunk;
            var rest := Texts(Tail(cur), chunks);
            Texts(pending, [chunk] + chunks) == (ClosedLines(cur) + rest.0, rest.1)
  {
    assert ([chunk] + chunks)[1..] == chunks;
    FeedAllFirst(pending, Delta(chunk), Deltas(chunks));
    DeltaTexts(pending, chunk);
  }

  lemma TextsNone(pending: string)
    requires NoBreak(pending)
    ensures Texts(pending, []) == (ClosedLines(pending + ""), Tail(pending + ""))
  {
    assert pending + "" == pending;
    SplitWhole(pending);
  }

  lemma {:induction false} ChunksAreOneText(pending: string, chunks: seq<string>)
    requires NoBreak(pending)
    ensures Texts(pending, chunks) == (ClosedLines(pending + Concat(chunks)), Tail(pending + Concat(chunks)))
    decreases |chunks|
  {
    hide Texts, NoBreak, ClosedLines, Tail;
    if chunks == [] {
      TextsNone(pending);
    } else {
      var cur, rest := pending + chunks[0], Concat(chunks[1..]);
      assert chunks == [chunks[0]] + chunks[1..];
      TextsFirst(pending, chunks[0], chunks[1..]);
      TailHasNoBreak(cur);
      ChunksAreOneText(Tail(cur), chunks[1..]);
      LinesAppend(cur, rest);
      assert cur + rest == pending + Concat(chunks);
    }
  }

  // Streaming equals batch: however the text is cut into deltas, the "@asst" lines and the
  // closing flush are the non-empty lines of the whole text.
  lemma StreamingEqualsBatch(chunks: seq<string>)
    ensures var f := FeedAll("", Deltas(chunks) + [Json(Stream(Some(BlockStop)))]);
            AsstTexts(f.lines) == NonEmptyLines(Concat(chunks)) && f.pending == ""
  {
    var stop := [Json(Stream(Some(BlockStop)))];
    ChunksAreOneText("", chunks);
    assert "" + Concat(chunks) == Concat(chunks);
    var f := FeedAll("", Deltas(chunks));
    FeedAllAppend("", Deltas(chunks), stop);
    AsstTextsAppend(f.lines, Flush(f.pending));
    assert stop[1..] == [] && FeedRaw(f.pending, stop[0]) == Fed("", Flush(f.pending));
    assert FeedAll(f.pending, stop) == Fed("", Flush(f.pending) + []);
    assert Flush(f.pending) + [] == Flush(f.pending);
    assert AsstTexts(Flush(f.pending)) == if f.pending != "" then [f.pending] else [] by {
      assert Flush(f.pending) != [] ==> Flush(f.pending)[1..] == [];
    }
    LinesThenTail(Concat(chunks));
  }

  // ---- conservation over any event sequence ----

  function TextOf(raw: RawLine): string {
    if raw.Json? && raw.event.Stream? && raw.event.inner.Some? && raw.event.inner.value.BlockDelta?
       && raw.event.inner.value.deltaType == "text_delta"
    then raw.event.inner.value.text else ""
  }

  function DeltaText(raws: seq<RawLine>): string {
    if raws == [] then "" else TextOf(raws[0]) + DeltaText(raws[1..])
  }

  lemma {:induction false} ToolLinesTagged(content: seq<ToolBlock>)
    ensures forall l :: l in ToolLines(content) ==> l.Tagged? && l.role.Tool?
  {
    if content != [] {
      ToolLinesTagged(content[..|content| - 1]);
    }
  }

  lemma {:induction false} ResultLinesTagged(content: seq<ResultBlock>)
    ensures forall l :: l in ResultLines(content) ==> l.Tagged? && (l.role.Result? || l.role.Error?)
  {
    if content != [] {
      ResultLinesTagged(content[..|content| - 1]);
    }
  }

  lemma FlushKeepsText(pending: string, lines: seq<Line>)
    requires forall l :: l in lines ==> l.Tagged? ==> !l.role.Assistant?
    ensures Concat(AsstTexts(Flush(pending) + lines)) == pending
  {
    AsstTextsAppend(Flush(pending), lines);
    NoAsstText(lines);
    if pending != "" {
      assert Flush(pending)[1..] == [];
      assert [pending][1..] == [];
    }
  }

  lemma RawKeepsText(pending: string, raw: RawLine)
    requires NoBreak(pending)
    ensures var f := FeedRaw(pending, raw);
            NoBreak(f.pending) && Concat(AsstTexts(f.lines)) + f.pending == pending + WithoutBreaks(TextOf(raw))
  {
    var f := FeedRaw(pending, raw);
    if TextOf(raw) != "" {
      var text := TextOf(raw);
      assert raw == Delta(text);
      DeltaTexts(pending, text);
      LinesKeepText(pending + text);
      WithoutBreaksAppend(pending, text);
      WithoutBreaksId(pending);
      TailHasNoBreak(pending + text);
    } else {
      EventFlushes(pending, raw);
    }
  }

  // An event that carries no text either leaves the pending text alone or flushes it.
  lemma EventFlushes(pending: string, raw: RawLine)
    requires TextOf(raw) == ""
    ensures var f := FeedRaw(pending, raw);
            Concat(AsstTexts(f.lines)) + f.pending == pending && (f.pending == pending || f.pending == "")
  {
    if raw.Json? {
      match raw.event {
        case SystemEvent(a, b) => FlushKeepsText(pending, SystemLines(a, b));
        case Stream(inner) =>
          if inner.Some? {
            match inner.value {
              case BlockStart(t, name) => FlushKeepsText(pending, [Tagged(Tool, name)]);
              case BlockDelta(_, _) =>
              case BlockStop =>
                FlushKeepsText(pending, []);
                assert Flush(pending) + [] == Flush(pending);
              case MessageStop =>
                FlushKeepsText(pending, []);
                assert Flush(pending) + [] == Flush(pending);
              case OtherStreamEvent =>
            }
          }
        case AssistantEvent(c) =>
          if c.Some? {
            ToolLinesTagged(c.value);
            FlushKeepsText(pending, ToolLines(c.value));
          }
        case UserEvent(c) =>
          if c.Some? {
            ResultLinesTagged(c.value);
            FlushKeepsText(pending, ResultLines(c.value));
          }
        case ResultEvent(r, _) => FlushKeepsText(pending, if r != "" then [Tagged(Done, "completed")] else []);
        case OtherEvent =>
      }
    } else {
      NoAsstText([Verbatim(raw.text)]);
    }
  }

  // No assistant text is lost, doubled or reordered: "@asst" payloads and the pending buffer
  // hold the delta text minus its line breaks, whatever other events come between.
  lemma {:induction false} TextConserved(pending: string, raws: seq<RawLine>)
    requires NoBreak(pending)
    ensures var f := FeedAll(pending, raws);
            Concat(AsstTexts(f.lines)) + f.pending == pending + WithoutBreaks(DeltaText(raws)) && NoBreak(f.pending)
    decreases |raws|
  {
    if raws == [] {
      assert pending + "" == pending;
    } else {
      var first := FeedRaw(pending, raws[0]);
      RawKeepsText(pending, raws[0]);
      TextConserved(first.pending, raws[1..]);
      var rest := FeedAll(first.pending, raws[1..]);
      assert raws == [raws[0]] + raws[1..];
      FeedAllFirst(pending, raws[0], raws[1..]);
      ConcatAppend(AsstTexts(first.lines), AsstTexts(rest.lines));
      WithoutBreaksAppend(TextOf(raws[0]), DeltaText(raws[1..]));
      Reassociate(Concat(AsstTexts(first.lines)), first.pending, Concat(AsstTexts(rest.lines)), rest.pending,
                  pending, WithoutBreaks(TextOf(raws[0])), WithoutBreaks(DeltaText(raws[1..])));
    }
  }

  lemma Reassociate(a: string, p: string, b: string, q: string, s: string, u: string, v: string)
    requires a + p == s + u && b + q == p + v
    ensures (a + b) + q == s + (u + v)
  {
    assert (a + b) + q == a + (b + q) == a + (p + v) == (a + p) + v == (s + u) + v;
  }
}
