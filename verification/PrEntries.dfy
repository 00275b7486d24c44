// Where the assembler's entries about failing checks come from (internal/github/poll.go,
// internal/issueview/assembler.go).
module PrEntries {
  import opened Options
  import opened Ranking
  import opened PrSignals

  // Events without a workspace or an issue number change nothing.
  lemma UnkeyedIsIgnored(fails: map<Card, CheckFail>, conflicts: map<Card, seq<string>>, e: Event)
    requires e.card.workspace == "" || e.card.number == 0
    ensures ChecksAfter(fails, e) == fails && ConflictsAfter(conflicts, e) == conflicts
  {
  }

  // A failure on the head already shown keeps its repair attempts and takes over the jobs; on another
  // head it starts from none.
  lemma RepeatedFailureKeepsAttempts(fails: map<Card, CheckFail>, card: Card, sha: string, jobs: seq<string>)
    requires card.workspace != "" && card.number != 0
    ensures var after := ChecksAfter(fails, ChecksFailed(card, sha, jobs));
            && card in after && after[card].sha == sha && after[card].jobs == jobs
            && after[card].attempts == (if card in fails && fails[card].sha == sha then fails[card].attempts else 0)
            && forall other :: other != card ==> Lookup(after, other) == Lookup(fails, other)
  {
  }

  // Step i finds the card's checks failing, and it was not the last thing the poller saw of that head.
  ghost predicate NewsAt(prs: Prs, steps: seq<Step>, i: int, card: Card)
    requires card in prs && forall step :: step in steps ==> step.card in prs
  {
    && 0 <= i < |steps| && steps[i].Checks? && steps[i].card == card && steps[i].failed
    && Lookup(After(prs, steps[..i]).checkCache, PrKey(card.workspace, prs[card])) != Some(CheckEntry(steps[i].sha, true))
  }

  ghost predicate LastNews(prs: Prs, steps: seq<Step>, i: int, card: Card)
    requires card in prs && forall step :: step in steps ==> step.card in prs
  {
    NewsAt(prs, steps, i, card) && forall j :: i < j < |steps| ==> !NewsAt(prs, steps, j, card)
  }

  lemma NewsOneMore(prs: Prs, steps: seq<Step>, card: Card)
    requires card in prs && steps != [] && forall step :: step in steps ==> step.card in prs
    ensures forall i :: i < |steps| - 1 ==> (NewsAt(prs, steps, i, card) <==> NewsAt(prs, steps[..|steps| - 1], i, card))
  {
    hide Next;
    var init := steps[..|steps| - 1];
    forall i | i < |steps| - 1 ensures NewsAt(prs, steps, i, card) <==> NewsAt(prs, init, i, card) {
      if 0 <= i {
        assert steps[..i] == init[..i] && steps[i] == init[i];
      }
    }
  }

  // The step's effect on the card's entry.
  lemma EntryOneMore(prs: Prs, s: System, step: Step, card: Card)
    requires OwnPrs(prs) && card in prs && step.card in prs
    requires card in s.checkFails ==> s.checkFails[card].attempts == 0
    ensures var t := Next(prs, s, step);
            var news := step.Checks? && step.card == card && step.failed
                        && Lookup(s.checkCache, PrKey(card.workspace, prs[card])) != Some(CheckEntry(step.sha, true));
            && (news ==> Lookup(t.checkFails, card) == Some(CheckFail(step.sha, step.jobs, 0)))
            && (!news ==> Lookup(t.checkFails, card) in {None, Lookup(s.checkFails, card)})
  {
    if step.card != card {
      OthersStay(prs, s, step, card);
    }
  }

  // Over every run, what a card shows of its failing checks, head and jobs, is what the last look that
  // was news found, with no repair attempts yet.
  lemma {:induction false} EntryIsLastNews(prs: Prs, steps: seq<Step>, card: Card)
    requires OwnPrs(prs) && card in prs && forall step :: step in steps ==> step.card in prs
    ensures var s := After(prs, steps);
            card in s.checkFails ==>
              exists i :: LastNews(prs, steps, i, card) && s.checkFails[card] == CheckFail(steps[i].sha, steps[i].jobs, 0)
    decreases |steps|
  {
    hide Next, NewsAt;
    if steps != [] {
      var init, last := steps[..|steps| - 1], steps[|steps| - 1];
      assert last in steps;
      EntryIsLastNews(prs, init, card);
      EntryOneMore(prs, After(prs, init), last, card);
      NewsOneMore(prs, steps, card);
      assert NewsAt(prs, steps, |init|, card) <==>
             last.Checks? && last.card == card && last.failed
             && Lookup(After(prs, init).checkCache, PrKey(card.workspace, prs[card])) != Some(CheckEntry(last.sha, true)) by {
        LastIsNewsIff(prs, steps, card);
      }
      if card in After(prs, steps).checkFails {
        if NewsAt(prs, steps, |init|, card) {
          assert LastNews(prs, steps, |init|, card);
        } else {
          forall i | NewsAt(prs, init, i, card) ensures 0 <= i < |init| && init[i].Checks? {
            NewsWithin(prs, init, i, card);
          }
          var i :| LastNews(prs, init, i, card) && After(prs, init).checkFails[card] == CheckFail(init[i].sha, init[i].jobs, 0);
          assert steps[i] == init[i];
          assert LastNews(prs, steps, i, card);
        }
      }
    }
  }

  lemma NewsWithin(prs: Prs, steps: seq<Step>, i: int, card: Card)
    requires card in prs && forall step :: step in steps ==> step.card in prs
    requires NewsAt(prs, steps, i, card)
    ensures 0 <= i < |steps| && steps[i].Checks?
  {
  }

  lemma LastIsNewsIff(prs: Prs, steps: seq<Step>, card: Card)
    requires card in prs && steps != [] && forall step :: step in steps ==> step.card in prs
    ensures var init, last := steps[..|steps| - 1], steps[|steps| - 1];
            NewsAt(prs, steps, |init|, card) <==>
            last.Checks? && last.card == card && last.failed
            && Lookup(After(prs, init).checkCache, PrKey(card.workspace, prs[card])) != Some(CheckEntry(last.sha, true))
  {
    hide Next;
  }
}
