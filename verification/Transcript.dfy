// Reading a worker's transcript by byte offset across conductor restarts: the read loops of
// tailAndParse (internal/session/manager.go), followLive and classifyDeadWorker
// (internal/session/reattach.go).
module Transcript {
  import opened TextLines

  // ---- one read ----

  // bufio.Reader.ReadString('\n') at offset pos: up to and including the next newline, or what is there.
  function ReadEnd(file: string, pos: nat): (end: nat)
    requires pos <= |file|
    ensures pos <= end <= |file|
    ensures forall i :: pos <= i < end - 1 ==> file[i] != '\n'
    ensures end < |file| ==> end > pos && file[end - 1] == '\n'
    ensures pos < |file| ==> end > pos
    decreases |file| - pos
  {
    if pos == |file| then pos
    else if file[pos] == '\n' then pos + 1
    else ReadEnd(file, pos + 1)
  }

  // The chunks a reader gets from pos to the end of the file.
  function Chunks(file: string, pos: nat): seq<string>
    requires pos <= |file|
    decreases |file| - pos
  {
    if pos == |file| then []
    else [file[pos..ReadEnd(file, pos)]] + Chunks(file, ReadEnd(file, pos))
  }

  lemma {:induction false} ChunksAreTheRest(file: string, pos: nat)
    requires pos <= |file|
    ensures Concat(Chunks(file, pos)) == file[pos..]
    decreases |file| - pos
  {
    if pos < |file| {
      var end := ReadEnd(file, pos);
      ChunksAreTheRest(file, end);
      assert file[pos..] == file[pos..end] + file[end..];
    }
  }

  predicate WholeLine(s: string) {
    s != "" && s[|s| - 1] == '\n' && forall i :: 0 <= i < |s| - 1 ==> s[i] != '\n'
  }

  predicate AtLineStart(file: string, pos: nat) {
    pos <= |file| && (pos == 0 || file[pos - 1] == '\n')
  }

  // A read from a line start returns a whole line exactly when a newline is there to find.
  lemma ReadIsWholeIff(file: string, pos: nat)
    requires pos < |file|
    ensures WholeLine(file[pos..ReadEnd(file, pos)]) <==> exists i :: pos <= i < |file| && file[i] == '\n'
  {
    var end := ReadEnd(file, pos);
    var s := file[pos..end];
    assert s[|s| - 1] == file[end - 1];
    if exists i :: pos <= i < |file| && file[i] == '\n' {
      var i :| pos <= i < |file| && file[i] == '\n';
      assert file[end - 1] == '\n';
    }
  }

  // The session as the loops see it.
  class Follower {
    var offset: nat
    var persisted: nat
    var fed: seq<string>

    constructor (persisted: nat)
      ensures offset == this.persisted == persisted && fed == []
    {
      offset, this.persisted, fed := persisted, persisted, [];
    }

    // The drain loop: every chunk from the offset to EOF, then the offset is persisted.
    method Drain(file: string)
      requires offset <= |file|
      modifies this
      ensures fed == old(fed) + Chunks(file, old(offset))
      ensures offset == persisted == |file|
    {
      ghost var start, was := offset, fed;
      while true
        invariant start <= offset <= |file|
        invariant fed + Chunks(file, offset) == was + Chunks(file, start)
        invariant persisted == old(persisted)
        decreases |file| - offset
      {
        var end := ReadEnd(file, offset);
        if end == offset {
          break;
        }
        fed := fed + [file[offset..end]];
        offset := end;
      }
      persisted := offset;
    }

    // followLive while the worker lives: `grown` gives the file at each poll; after the last
    // poll the worker is seen dead, the offset is persisted and the drain takes over from it.
    method FollowLive(polls: nat, grown: nat -> string, flush: nat -> bool)
      requires offset <= |grown(0)| && forall i, j :: 0 <= i <= j ==> grown(i) <= grown(j)
      modifies this
      ensures Concat(fed) == Concat(old(fed)) + grown(polls)[old(offset)..]
      ensures offset == persisted == |grown(polls)|
    {
      hide Concat, Chunks;
      ghost var start, was := offset, Concat(fed);
      assert grown(0)[start..offset] == "";
      for i := 0 to polls
        invariant start <= offset <= |grown(i)|
        invariant Concat(fed) == was + grown(i)[start..offset]
      {
        var file := grown(i);
        assert file <= grown(i + 1);
        var end := ReadEnd(file, offset);
        if end > offset {
          FeedChunk(fed, file, start, offset, end, was);
          fed := fed + [file[offset..end]];
          offset := end;
          if flush(i) {
            persisted := offset;
          }
        }
        assert grown(i + 1)[start..offset] == file[start..offset];
      }
      var last := grown(polls);
      ghost var before, pos := fed, offset;
      persisted := offset;
      Drain(last);
      ConcatAppend(before, Chunks(last, pos));
      ChunksAreTheRest(last, pos);
      assert last[start..] == last[start..pos] + last[pos..];
    }
  }

  lemma FeedChunk(fed: seq<string>, file: string, start: nat, pos: nat, end: nat, was: string)
    requires start <= pos <= end <= |file| && Concat(fed) == was + file[start..pos]
    ensures Concat(fed + [file[pos..end]]) == was + file[start..end]
  {
    ConcatAppend(fed, [file[pos..end]]);
    LastChunk(file[pos..end]);
    assert file[start..end] == file[start..pos] + file[pos..end];
  }

  lemma LastChunk(s: string)
    ensures Concat([s]) == s
  {
    var one := [s];
    assert one[1..] == [];
    assert s + "" == s;
  }

  // ---- appends, reads, flushes, deaths and restarts in any order ----

  datatype Phase = Following | Classifying | Down | Settled

  datatype Span = Span(from: nat, to: nat)

  // `log` lists the spans fed over all incarnations; those from `mark` on belong to the present one,
  // which started at `base`.
  datatype System = System(
    file: string,
    alive: bool,
    phase: Phase,
    persisted: nat,
    offset: nat,
    log: seq<Span>,
    mark: nat,
    base: nat)

  const SPAWNED := System("", true, Following, 0, 0, [], 0, 0)

  datatype Step =
    | Append(text: string)
    | WorkerDies
    | Read
    | Flush
    | SeeDeath // followLive persists its offset and hands over to classifyDeadWorker
    | Conclude // EOF: the final offset is persisted and the row settled
    | Crash // the conductor dies, or followLive's context is cancelled: memory is gone
    | Restart

  predicate Enabled(s: System, step: Step) {
    match step
    case Append(_) => s.alive
    case WorkerDies => s.alive
    case Read => (s.phase.Following? || s.phase.Classifying?) && s.offset <= |s.file|
    case Flush => s.phase.Following?
    case SeeDeath => s.phase.Following? && !s.alive
    case Conclude => s.phase.Classifying? && s.offset == |s.file|
    case Crash => s.phase.Following? || s.phase.Classifying?
    case Restart => s.phase.Down?
  }

  function Apply(s: System, step: Step): System
    requires Enabled(s, step)
  {
    match step
    case Append(text) => s.(file := s.file + text)
    case WorkerDies => s.(alive := false)
    case Read =>
      var end := ReadEnd(s.file, s.offset);
      if end == s.offset then s else s.(offset := end, log := s.log + [Span(s.offset, end)])
    case Flush => s.(persisted := s.offset)
    case SeeDeath => s.(persisted := s.offset, phase := Classifying)
    case Conclude => s.(persisted := s.offset, phase := Settled)
    case Crash => s.(phase := Down)
    case Restart =>
      s.(phase := if s.alive then Following else Classifying, offset := s.persisted, mark := |s.log|, base := s.persisted)
  }

  ghost predicate Covered(log: seq<Span>, b: nat) {
    exists i :: 0 <= i < |log| && log[i].from <= b < log[i].to
  }

  // Spans that follow on from one another.
  ghost predicate Contiguous(log: seq<Span>, from: nat, to: nat)
    decreases |log|
  {
    if log == [] then from == to
    else log[0].from == from && log[0].to > from && Contiguous(log[1..], log[0].to, to)
  }

  ghost predicate Inv(s: System) {
    && s.persisted <= |s.file|
    && s.mark <= |s.log| && s.base <= s.persisted
    && (forall b :: 0 <= b < s.base ==> Covered(s.log[..s.mark], b))
    && (forall b :: 0 <= b < s.persisted ==> Covered(s.log, b))
    && (!s.phase.Down? ==>
          && s.persisted <= s.offset <= |s.file|
          && (forall b :: 0 <= b < s.offset ==> Covered(s.log, b))
          && Contiguous(s.log[s.mark..], s.base, s.offset))
    && (s.phase.Classifying? || s.phase.Settled? ==> !s.alive)
    && (s.phase.Settled? ==> s.offset == |s.file|)
  }

  lemma {:induction false} ContiguousGrows(log: seq<Span>, from: nat, to: nat, end: nat)
    requires Contiguous(log, from, to) && to < end
    ensures Contiguous(log + [Span(to, end)], from, end)
  {
    if log != [] {
      assert (log + [Span(to, end)])[1..] == log[1..] + [Span(to, end)];
      ContiguousGrows(log[1..], log[0].to, to, end);
    }
  }

  lemma CoverGrows(log: seq<Span>, span: Span, b: nat)
    ensures Covered(log, b) || span.from <= b < span.to ==> Covered(log + [span], b)
  {
    var longer := log + [span];
    if Covered(log, b) {
      var i :| 0 <= i < |log| && log[i].from <= b < log[i].to;
      assert longer[i] == log[i];
    } else if span.from <= b < span.to {
      assert longer[|log|] == span;
    }
  }

  lemma ReadKeepsInv(s: System)
    requires Inv(s) && Enabled(s, Read)
    ensures Inv(Apply(s, Read))
  {
    var t := Apply(s, Read);
    var end := ReadEnd(s.file, s.offset);
    if end != s.offset {
      var span := Span(s.offset, end);
      forall b: nat | b < end ensures Covered(t.log, b) {
        CoverGrows(s.log, span, b);
      }
      var own := s.log[s.mark..];
      ContiguousGrows(own, s.base, s.offset, end);
      assert t.log == s.log + [span];
      assert t.log[..s.mark] == s.log[..s.mark];
      assert t.log[s.mark..] == own + [span];
    }
  }

  lemma StepKeepsInv(s: System, step: Step)
    requires Inv(s) && Enabled(s, step)
    ensures Inv(Apply(s, step))
  {
    if step.Read? {
      ReadKeepsInv(s);
    } else if step.Restart? {
      assert s.log[|s.log|..] == [] && s.log[..|s.log|] == s.log;
      assert Contiguous([], s.persisted, s.persisted);
    }
  }

  ghost predicate Runs(s: System, steps: seq<Step>)
    decreases |steps|
  {
    steps == [] || (Enabled(s, steps[0]) && Runs(Apply(s, steps[0]), steps[1..]))
  }

  ghost function After(s: System, steps: seq<Step>): System
    requires Runs(s, steps)
    decreases |steps|
  {
    if steps == [] then s else After(Apply(s, steps[0]), steps[1..])
  }

  lemma {:induction false} RunKeepsInv(s: System, steps: seq<Step>)
    requires Inv(s) && Runs(s, steps)
    ensures Inv(After(s, steps))
    decreases |steps|
  {
    hide Inv, Apply, Enabled;
    if steps != [] {
      StepKeepsInv(s, steps[0]);
      RunKeepsInv(Apply(s, steps[0]), steps[1..]);
    }
  }

  // Over any interleaving no byte is skipped: all bytes below the persisted offset have been
  // fed, within one incarnation each exactly once, and a settled session has fed the whole file.
  lemma NoByteSkipped(steps: seq<Step>)
    requires Runs(SPAWNED, steps)
    ensures var s := After(SPAWNED, steps);
            && (forall b :: 0 <= b < s.persisted ==> Covered(s.log, b))
            && (s.phase.Settled? ==> forall b :: 0 <= b < |s.file| ==> Covered(s.log, b))
            && s.mark <= |s.log| && s.base <= s.persisted
            && (forall b :: 0 <= b < s.base ==> Covered(s.log[..s.mark], b))
            && (!s.phase.Down? ==> s.persisted <= s.offset <= |s.file| && Contiguous(s.log[s.mark..], s.base, s.offset))
  {
    assert Contiguous([], 0, 0) && SPAWNED.log[0..] == [];
    RunKeepsInv(SPAWNED, steps);
  }

  // What has been read is what is kept: a flush, the hand-over at the worker's death and the end each
  // persist the offset, and nothing else moves it.
  lemma OffsetIsPersisted(s: System, step: Step)
    requires Inv(s) && Enabled(s, step)
    ensures var t := Apply(s, step);
            t.persisted == if step.Flush? || step.SeeDeath? || step.Conclude? then s.offset else s.persisted
  {
  }

  ghost predicate SettledKept(s: System) {
    s.phase.Settled? ==> s.persisted == s.offset == |s.file| && !s.alive
  }

  // So a settled session has persisted the whole file.
  lemma {:induction false} SettledIsPersisted(s: System, steps: seq<Step>)
    requires SettledKept(s) && Inv(s) && Runs(s, steps)
    ensures SettledKept(After(s, steps))
    decreases |steps|
  {
    hide Inv;
    if steps != [] {
      StepKeepsInv(s, steps[0]);
      SettledStays(s, steps[0]);
      SettledIsPersisted(Apply(s, steps[0]), steps[1..]);
    }
  }

  lemma SettledStays(s: System, step: Step)
    requires SettledKept(s) && Inv(s) && Enabled(s, step)
    ensures SettledKept(Apply(s, step))
  {
  }

  // ---- exactly once ----

  function FedText(file: string, log: seq<Span>): string {
    if log == [] then ""
    else (if log[0].from <= log[0].to <= |file| then file[log[0].from..log[0].to] else "") + FedText(file, log[1..])
  }

  lemma {:induction false} ContiguousText(file: string, log: seq<Span>, from: nat, to: nat)
    requires Contiguous(log, from, to)
    ensures from <= to && (to <= |file| ==> FedText(file, log) == file[from..to])
  {
    if log != [] {
      ContiguousText(file, log[1..], log[0].to, to);
      if to <= |file| {
        assert file[from..to] == file[from..log[0].to] + file[log[0].to..to];
      }
    }
  }

  // A run that settles, through any number of crashes, has fed in its last incarnation the text of
  // the file from the offset it restarted at, byte for byte and once; earlier incarnations have fed
  // every byte before that.
  lemma SettledFedOnce(steps: seq<Step>)
    requires Runs(SPAWNED, steps) && After(SPAWNED, steps).phase.Settled?
    ensures var s := After(SPAWNED, steps);
            && s.mark <= |s.log| && s.base <= |s.file|
            && FedText(s.file, s.log[s.mark..]) == s.file[s.base..]
            && forall b :: 0 <= b < s.base ==> Covered(s.log[..s.mark], b)
  {
    hide Runs, After, Contiguous, Covered;
    NoByteSkipped(steps);
    SettledAtEnd(steps);
    var s := After(SPAWNED, steps);
    ContiguousText(s.file, s.log[s.mark..], s.base, s.offset);
    assert s.file[s.base..s.offset] == s.file[s.base..];
  }

  lemma SettledAtEnd(steps: seq<Step>)
    requires Runs(SPAWNED, steps) && After(SPAWNED, steps).phase.Settled?
    ensures var s := After(SPAWNED, steps); s.offset == |s.file|
  {
    assert Contiguous([], 0, 0) && SPAWNED.log[0..] == [];
    RunKeepsInv(SPAWNED, steps);
  }

  ghost predicate NoCrash(steps: seq<Step>) {
    forall step :: step in steps ==> !step.Crash?
  }

  // Without a crash there is one incarnation, from the start of the file.
  lemma {:induction false} NoCrashNoRestart(s: System, steps: seq<Step>)
    requires Runs(s, steps) && NoCrash(steps) && !s.phase.Down?
    ensures var t := After(s, steps); t.mark == s.mark && t.base == s.base && !t.phase.Down?
    decreases |steps|
  {
    if steps != [] {
      assert steps[0] in steps;
      NoCrashNoRestart(Apply(s, steps[0]), steps[1..]);
    }
  }

  // So a run without a crash that settles feeds the file once.
  lemma UncrashedFedOnce(steps: seq<Step>)
    requires Runs(SPAWNED, steps) && NoCrash(steps) && After(SPAWNED, steps).phase.Settled?
    ensures var s := After(SPAWNED, steps); FedText(s.file, s.log) == s.file
  {
    hide Runs, After, FedText, Covered;
    SettledFedOnce(steps);
    NoCrashNoRestart(SPAWNED, steps);
    var s := After(SPAWNED, steps);
    assert s.log[0..] == s.log && s.file[0..] == s.file;
  }

  // ---- whole lines ----

  // The worker appends whole lines only.
  ghost predicate LineAppends(steps: seq<Step>) {
    forall step :: step in steps && step.Append? && step.text != "" ==> step.text[|step.text| - 1] == '\n'
  }

  ghost predicate WholeSpans(s: System) {
    && AtLineStart(s.file, |s.file|) && AtLineStart(s.file, s.persisted)
    && (!s.phase.Down? ==> AtLineStart(s.file, s.offset))
    && forall i :: 0 <= i < |s.log| ==> s.log[i].from <= s.log[i].to <= |s.file| && AtLineStart(s.file, s.log[i].from)
                                         && WholeLine(s.file[s.log[i].from..s.log[i].to])
  }

  lemma AppendKeepsWholeSpans(s: System, text: string)
    requires WholeSpans(s) && s.persisted <= |s.file| && (!s.phase.Down? ==> s.offset <= |s.file|)
    requires text != "" ==> text[|text| - 1] == '\n'
    ensures WholeSpans(s.(file := s.file + text))
  {
    var t := s.(file := s.file + text);
    assert text != "" ==> t.file[|t.file| - 1] == text[|text| - 1];
    assert text == "" ==> t.file == s.file;
    forall i | 0 <= i < |t.log| ensures t.file[t.log[i].from..t.log[i].to] == s.file[s.log[i].from..s.log[i].to] {
    }
  }

  lemma ReadKeepsWholeSpans(s: System)
    requires WholeSpans(s) && Enabled(s, Read)
    ensures WholeSpans(Apply(s, Read))
  {
    var end := ReadEnd(s.file, s.offset);
    if end != s.offset {
      hide WholeLine;
      assert s.file[|s.file| - 1] == '\n';
      ReadIsWholeIff(s.file, s.offset);
    }
  }

  lemma StepKeepsWholeSpans(s: System, step: Step)
    requires Inv(s) && WholeSpans(s) && Enabled(s, step) && LineAppends([step])
    ensures WholeSpans(Apply(s, step))
  {
    match step
    case Append(text) =>
      assert step in [step];
      hide WholeSpans;
      AppendKeepsWholeSpans(s, text);
    case Read => hide WholeSpans; ReadKeepsWholeSpans(s);
    case _ => hide WholeLine;
  }

  // If the worker appends whole lines, every line handed to the parser is a whole line of the
  // file, in every incarnation.
  lemma {:induction false} WholeLinesFed(s: System, steps: seq<Step>)
    requires Inv(s) && WholeSpans(s) && Runs(s, steps) && LineAppends(steps)
    ensures WholeSpans(After(s, steps))
    decreases |steps|
  {
    hide Inv, WholeSpans, Apply, Enabled;
    if steps != [] {
      assert LineAppends([steps[0]]) by { assert steps[0] in steps; }
      StepKeepsInv(s, steps[0]);
      StepKeepsWholeSpans(s, steps[0]);
      WholeLinesFed(Apply(s, steps[0]), steps[1..]);
    }
  }

  // The texts handed to the parser.
  function Texts(file: string, log: seq<Span>): seq<string> {
    if log == [] then []
    else [if log[0].from <= log[0].to <= |file| then file[log[0].from..log[0].to] else ""] + Texts(file, log[1..])
  }

  lemma WholeLineEnds(file: string, from: nat, end: nat)
    requires from <= end <= |file| && WholeLine(file[from..end])
    ensures ReadEnd(file, from) == end
  {
    var line, e := file[from..end], ReadEnd(file, from);
    assert file[end - 1] == line[|line| - 1];
    assert forall i :: from <= i < end ==> file[i] == line[i - from];
  }

  lemma {:induction false} SpansAreLines(file: string, log: seq<Span>, from: nat, to: nat)
    requires Contiguous(log, from, to) && from <= to <= |file|
    requires forall i :: 0 <= i < |log| ==> log[i].from <= log[i].to <= |file| && WholeLine(file[log[i].from..log[i].to])
    ensures Texts(file, log) == Chunks(file[..to], from)
    decreases |log|
  {
    if log != [] {
      var end := log[0].to;
      ContiguousText(file, log[1..], end, to);
      assert forall i :: 0 <= i < |log[1..]| ==> log[1..][i] == log[i + 1];
      SpansAreLines(file, log[1..], end, to);
      assert file[..to][from..end] == file[from..end];
      WholeLineEnds(file[..to], from, end);
    }
  }

  // If the worker appends whole lines, what an incarnation hands to the parser is exactly the lines
  // of the file from the offset it started at to the offset it has reached, in order.
  lemma FedLinesAreFileLines(steps: seq<Step>)
    requires Runs(SPAWNED, steps) && LineAppends(steps) && !After(SPAWNED, steps).phase.Down?
    ensures var s := After(SPAWNED, steps);
            && s.mark <= |s.log| && s.base <= s.offset <= |s.file|
            && Texts(s.file, s.log[s.mark..]) == Chunks(s.file[..s.offset], s.base)
  {
    hide Runs, LineAppends, Contiguous, WholeLine, Texts, Chunks;
    NoByteSkipped(steps);
    assert Inv(SPAWNED) by {
      StartIsGood();
    }
    WholeLinesFed(SPAWNED, steps);
    var s := After(SPAWNED, steps);
    SpansAreLines(s.file, s.log[s.mark..], s.base, s.offset);
  }

  lemma StartIsGood()
    ensures Inv(SPAWNED) && WholeSpans(SPAWNED)
  {
    assert Contiguous([], 0, 0) && SPAWNED.log[0..] == [];
  }

  // A worker that writes a line in two pieces can have it fed as two lines.
  lemma TornLine()
    ensures var steps := [Append("BLO"), Read, Append("CKED: x\n"), Read];
            && Runs(SPAWNED, steps)
            && After(SPAWNED, steps).log == [Span(0, 3), Span(3, 11)]
            && !WholeSpans(After(SPAWNED, steps))
  {
    var steps := [Append("BLO"), Read, Append("CKED: x\n"), Read];
    var s1 := Apply(SPAWNED, steps[0]);
    assert s1.file == "BLO";
    PiecesEnd();
    var s2 := Apply(s1, steps[1]);
    assert s2 == s1.(offset := 3, log := [Span(0, 3)]);
    var s3 := Apply(s2, steps[2]);
    assert s3.file == "BLOCKED: x\n";
    var s4 := Apply(s3, steps[3]);
    assert s4 == s3.(offset := 11, log := [Span(0, 3), Span(3, 11)]);
    assert steps[1..][1..] == steps[2..] && steps[2..][1..] == steps[3..] && steps[3..][1..] == [];
    assert Runs(s4, []) && Runs(s3, steps[3..]) && Runs(s2, steps[2..]) && Runs(s1, steps[1..]);
    assert After(SPAWNED, steps) == After(s1, steps[1..]) == After(s2, steps[2..]) == After(s3, steps[3..]) == s4;
    assert s4.file[0..3] == "BLO" && !WholeLine("BLO");
    assert s4.log[0] == Span(0, 3);
  }

  lemma PiecesEnd()
    ensures ReadEnd("BLO", 0) == 3 && ReadEnd("BLOCKED: x\n", 3) == 11
  {
    assert "BLOCKED: x\n"[10] == '\n';
  }
}
