// Cutting text at line breaks ('\n' or '\r'), the string work behind StreamParser.Feed
// (internal/session/streamjson.go).
module TextLines {
  predicate IsBreak(c: char) {
    c == '\n' || c == '\r'
  }

  predicate NoBreak(s: string) {
    forall i :: 0 <= i < |s| ==> !IsBreak(s[i])
  }

  // strings.IndexAny(s, "\n\r"), with |s| standing for "not found".
  function FirstBreak(s: string): (i: nat)
    ensures i <= |s| && NoBreak(s[..i]) && (i < |s| ==> IsBreak(s[i]))
  {
    if s == "" || IsBreak(s[0]) then 0
    else
      var i := 1 + FirstBreak(s[1..]);
      assert s[..i] == [s[0]] + s[1..][..i - 1];
      i
  }

  // All segments of s between breaks, empty ones included.
  function Split(s: string): (segs: seq<string>)
    ensures |segs| >= 1
    decreases |s|
  {
    var i := FirstBreak(s);
    if i == |s| then [s] else [s[..i]] + Split(s[i + 1..])
  }

  // The text after the last break.
  function Tail(s: string): string {
    Split(s)[|Split(s)| - 1]
  }

  function NonEmpty(segs: seq<string>): seq<string> {
    if segs == [] then []
    else (if segs[0] != "" then [segs[0]] else []) + NonEmpty(segs[1..])
  }

  // The non-empty lines of s that a break has closed.
  function ClosedLines(s: string): seq<string> {
    NonEmpty(Split(s)[..|Split(s)| - 1])
  }

  function NonEmptyLines(s: string): seq<string> {
    NonEmpty(Split(s))
  }

  function Concat(parts: seq<string>): string {
    if parts == [] then "" else parts[0] + Concat(parts[1..])
  }

  function WithoutBreaks(s: string): string {
    if s == "" then "" else (if IsBreak(s[0]) then "" else [s[0]]) + WithoutBreaks(s[1..])
  }

  // ---- facts ----

  lemma {:induction false} NonEmptyAppend(a: seq<string>, b: seq<string>)
    ensures NonEmpty(a + b) == NonEmpty(a) + NonEmpty(b)
  {
    if a == [] {
      assert a + b == b;
    } else {
      assert (a + b)[1..] == a[1..] + b;
      NonEmptyAppend(a[1..], b);
    }
  }

  lemma {:induction false} ConcatAppend(a: seq<string>, b: seq<string>)
    ensures Concat(a + b) == Concat(a) + Concat(b)
  {
    if a == [] {
      assert a + b == b;
    } else {
      assert (a + b)[1..] == a[1..] + b;
      ConcatAppend(a[1..], b);
    }
  }

  lemma {:induction false} WithoutBreaksAppend(a: string, b: string)
    ensures WithoutBreaks(a + b) == WithoutBreaks(a) + WithoutBreaks(b)
  {
    if a == "" {
      assert a + b == b;
    } else {
      assert (a + b)[1..] == a[1..] + b;
      WithoutBreaksAppend(a[1..], b);
    }
  }

  lemma {:induction false} WithoutBreaksId(s: string)
    requires NoBreak(s)
    ensures WithoutBreaks(s) == s
  {
    if s != "" {
      WithoutBreaksId(s[1..]);
    }
  }

  lemma {:induction false} FirstBreakIs(a: string, c: char, b: string)
    requires NoBreak(a) && IsBreak(c)
    ensures FirstBreak(a + [c] + b) == |a|
  {
    var s := a + [c] + b;
    assert forall k :: 0 <= k < |a| ==> s[k] == a[k];
    assert s[|a|] == c;
  }

  lemma SplitAt(a: string, c: char, b: string)
    requires NoBreak(a) && IsBreak(c)
    ensures Split(a + [c] + b) == [a] + Split(b)
  {
    FirstBreakIs(a, c, b);
    var s := a + [c] + b;
    assert s[..|a|] == a && s[|a| + 1..] == b;
  }

  lemma SplitWhole(s: string)
    requires NoBreak(s)
    ensures Split(s) == [s] && Tail(s) == s && ClosedLines(s) == []
  {
    var i := FirstBreak(s);
  }

  // Splitting a longer text goes on from the tail of the shorter one.
  lemma {:induction false} SplitAppend(a: string, b: string)
    ensures Split(a + b) == Split(a)[..|Split(a)| - 1] + Split(Tail(a) + b)
    decreases |a|
  {
    hide Split, NoBreak;
    var i := FirstBreak(a);
    var head := a[..i];
    if i < |a| {
      var rest := a[i + 1..];
      assert a == head + [a[i]] + rest && a + b == head + [a[i]] + (rest + b);
      SplitAt(head, a[i], rest + b);
      SplitAt(head, a[i], rest);
      SplitAppend(rest, b);
      assert ([head] + Split(rest))[..|Split(rest)|] == [head] + Split(rest)[..|Split(rest)| - 1];
    } else {
      assert a == head;
      SplitWhole(a);
      assert [a][..0] + Split(a + b) == Split(a + b);
    }
  }

  // ... so the closed lines and the tail can be computed chunk by chunk.
  lemma LinesAppend(a: string, b: string)
    ensures ClosedLines(a + b) == ClosedLines(a) + ClosedLines(Tail(a) + b)
    ensures Tail(a + b) == Tail(Tail(a) + b)
  {
    SplitAppend(a, b);
    var u, v := Split(a)[..|Split(a)| - 1], Split(Tail(a) + b);
    assert (u + v)[..|u + v| - 1] == u + v[..|v| - 1];
    NonEmptyAppend(u, v[..|v| - 1]);
  }

  lemma LinesThenTail(s: string)
    ensures NonEmptyLines(s) == ClosedLines(s) + (if Tail(s) != "" then [Tail(s)] else [])
  {
    var segs := Split(s);
    assert segs == segs[..|segs| - 1] + [Tail(s)];
    NonEmptyAppend(segs[..|segs| - 1], [Tail(s)]);
    assert NonEmpty([Tail(s)][1..]) == [];
  }

  // Putting breaks back between segments; Split is its inverse, both ways round.
  function Glue(segs: seq<string>, breaks: string): string
    requires |segs| == |breaks| + 1
  {
    if breaks == "" then segs[0] else segs[0] + [breaks[0]] + Glue(segs[1..], breaks[1..])
  }

  function Breaks(s: string): string {
    if s == "" then "" else (if IsBreak(s[0]) then [s[0]] else "") + Breaks(s[1..])
  }

  lemma {:induction false} SplitGlue(segs: seq<string>, breaks: string)
    requires |segs| == |breaks| + 1
    requires forall i :: 0 <= i < |segs| ==> NoBreak(segs[i])
    requires forall i :: 0 <= i < |breaks| ==> IsBreak(breaks[i])
    ensures Split(Glue(segs, breaks)) == segs
  {
    if breaks == "" {
      SplitWhole(segs[0]);
    } else {
      SplitGlue(segs[1..], breaks[1..]);
      SplitAt(segs[0], breaks[0], Glue(segs[1..], breaks[1..]));
    }
  }

  lemma {:induction false} BreaksSkip(a: string, b: string)
    requires NoBreak(a)
    ensures Breaks(a + b) == Breaks(b)
  {
    if a == "" {
      assert a + b == b;
    } else {
      assert (a + b)[1..] == a[1..] + b;
      BreaksSkip(a[1..], b);
    }
  }

  lemma GlueFirst(head: string, c: char, rest: string)
    requires NoBreak(head) && IsBreak(c)
    ensures Breaks(head + [c] + rest) == [c] + Breaks(rest)
    ensures Split(head + [c] + rest) == [head] + Split(rest)
  {
    var tail := [c] + rest;
    assert tail[1..] == rest && head + [c] + rest == head + tail;
    BreaksSkip(head, tail);
    SplitAt(head, c, rest);
  }

  lemma NoGlue(s: string)
    requires NoBreak(s)
    ensures Breaks(s) == "" && Split(s) == [s]
  {
    assert s + "" == s;
    BreaksSkip(s, "");
    SplitWhole(s);
  }

  lemma GlueCons(head: string, segs: seq<string>, c: char, breaks: string)
    requires |segs| == |breaks| + 1
    ensures Glue([head] + segs, [c] + breaks) == head + [c] + Glue(segs, breaks)
  {
    assert ([head] + segs)[1..] == segs && ([c] + breaks)[1..] == breaks;
  }

  lemma {:induction false} GlueSplit(s: string)
    ensures |Split(s)| == |Breaks(s)| + 1 && Glue(Split(s), Breaks(s)) == s
    decreases |s|
  {
    hide Split, Breaks, NoBreak, Glue;
    var i := FirstBreak(s);
    var head := s[..i];
    if i < |s| {
      var rest := s[i + 1..];
      GlueSplit(rest);
      assert s == head + [s[i]] + rest;
      GlueFirst(head, s[i], rest);
      GlueCons(head, Split(rest), s[i], Breaks(rest));
    } else {
      assert s == head;
      NoGlue(s);
      GlueSingle(s);
    }
  }

  lemma GlueSingle(s: string)
    ensures Glue([s], "") == s
  {
  }

  lemma {:induction false} SegmentsHaveNoBreak(s: string)
    ensures forall i :: 0 <= i < |Split(s)| ==> NoBreak(Split(s)[i])
    decreases |s|
  {
    hide Split, NoBreak;
    var i := FirstBreak(s);
    var head := s[..i];
    if i < |s| {
      var rest := s[i + 1..];
      assert s == head + [s[i]] + rest;
      SplitAt(head, s[i], rest);
      SegmentsHaveNoBreak(rest);
    } else {
      assert s == head;
      SplitWhole(s);
    }
  }

  lemma TailHasNoBreak(s: string)
    ensures NoBreak(Tail(s))
  {
    SegmentsHaveNoBreak(s);
  }

  lemma LinesAfterFirst(head: string, c: char, rest: string)
    requires NoBreak(head) && IsBreak(c)
    ensures ClosedLines(head + [c] + rest) == (if head != "" then [head] else []) + ClosedLines(rest)
    ensures Tail(head + [c] + rest) == Tail(rest)
  {
    SplitAt(head, c, rest);
    var segs := Split(rest);
    assert ([head] + segs)[..|segs|] == [head] + segs[..|segs| - 1];
    NonEmptyAppend([head], segs[..|segs| - 1]);
    assert NonEmpty([head][1..]) == [];
  }

  lemma TextAfterFirst(head: string, c: char, rest: string)
    requires NoBreak(head) && IsBreak(c)
    ensures WithoutBreaks(head + [c] + rest) == head + WithoutBreaks(rest)
  {
    hide WithoutBreaks, NoBreak;
    var tail := [c] + rest;
    assert head + [c] + rest == head + tail;
    WithoutBreaksAppend(head, tail);
    WithoutBreaksId(head);
    BreakDropped(c, rest);
  }

  lemma BreakDropped(c: char, rest: string)
    requires IsBreak(c)
    ensures WithoutBreaks([c] + rest) == WithoutBreaks(rest)
  {
    var tail := [c] + rest;
    assert tail[1..] == rest;
  }

  // Lines and tail hold every character of the text except the breaks, in order.
  lemma {:induction false} LinesKeepText(s: string)
    ensures Concat(ClosedLines(s)) + Tail(s) == WithoutBreaks(s)
    decreases |s|
  {
    var i := FirstBreak(s);
    if i < |s| {
      var head, rest := s[..i], s[i + 1..];
      assert s == head + [s[i]] + rest;
      LinesAfterFirst(head, s[i], rest);
      TextAfterFirst(head, s[i], rest);
      LinesKeepText(rest);
      ConcatAppend(if head != "" then [head] else [], ClosedLines(rest));
    } else {
      assert s[..i] == s;
      WithoutBreaksId(s);
      SplitWhole(s);
    }
  }
}
