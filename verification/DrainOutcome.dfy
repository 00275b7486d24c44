// What a drain does to the board, told from the queue and the answers it gets
// (internal/orchestrator/drain_pending_pools.go, app.go).
module DrainOutcome {
  import opened Options
  import opened Ranking
  import opened AutoPull
  import opened Drain

  // ---- one row ----

  // A row asks for a slot when its role is one of the two with a pool, and may get it.
  predicate GetsSlot(row: Row, w: Answers, k: nat) {
    (row.role == "plan" || row.role == "work") && w.acquire(k)
  }

  predicate AllOk(call: WorkCall) {
    call.workspaceOk && call.poolOk && call.issueOk && call.planOk && call.moveOk
  }

  // A plan row spawns when its issue can be loaded, is out of TODO or can be moved, and the spawn goes
  // through; a work row when its callback goes through from beginning to end.
  predicate Spawns(row: Row, w: Answers, k: nat) {
    && GetsSlot(row, w, k)
    && if row.role == "plan"
       then w.planWired && w.column(k).Some? && (w.column(k).value == "todo" ==> w.moveOk(k)) && w.planSpawnOk(k)
       else w.workWired && AllOk(w.work(k)) && w.work(k).spawnOk
  }

  // A plan row whose issue cannot be loaded.
  predicate Unloadable(row: Row, w: Answers, k: nat) {
    row.role == "plan" && w.acquire(k) && w.planWired && w.column(k).None?
  }

  // A plan row of a card in TODO moves it, whether or not it then spawns.
  predicate Moves(row: Row, w: Answers, k: nat) {
    row.role == "plan" && w.acquire(k) && w.planWired && w.column(k) == Some("todo") && w.moveOk(k)
  }

  lemma FateIs(row: Row, w: Answers, k: nat)
    ensures FateOf(row, w, k).NoSlot? <==> !GetsSlot(row, w, k)
    ensures FateOf(row, w, k).Spawned? <==> Spawns(row, w, k)
    ensures FateOf(row, w, k).Stale? <==> Unloadable(row, w, k)
    ensures MovesCard(row, w, k) <==> Moves(row, w, k)
  {
  }

  // ---- a whole drain ----

  // The cards of the first k listed rows for which `counts` holds, in order.
  ghost predicate CardsOf(cards: seq<Card>, listed: seq<Row>, w: Answers, k: nat, counts: (Row, Answers, nat) -> bool)
    requires k <= |listed|
  {
    if k == 0 then cards == []
    else if counts(listed[k - 1], w, k - 1)
    then cards != [] && cards[|cards| - 1] == listed[k - 1].card && CardsOf(cards[..|cards| - 1], listed, w, k - 1, counts)
    else CardsOf(cards, listed, w, k - 1, counts)
  }

  lemma {:induction false} MovedAndSpawned(b: Board, listed: seq<Row>, w: Answers, k: nat) returns (moved: seq<Card>, spawned: seq<Card>)
    requires k <= |listed|
    ensures var a := After(b, listed, w, k);
            && a.moved == b.moved + moved && CardsOf(moved, listed, w, k, Moves)
            && a.spawned == b.spawned + spawned && CardsOf(spawned, listed, w, k, Spawns)
  {
    hide FateOf, MovesCard, Moves, Spawns, Without, Dequeued;
    moved, spawned := [], [];
    if k > 0 {
      moved, spawned := MovedAndSpawned(b, listed, w, k - 1);
      var row := listed[k - 1];
      FateIs(row, w, k - 1);
      if Moves(row, w, k - 1) {
        assert (moved + [row.card])[..|moved|] == moved;
        moved := moved + [row.card];
      }
      if Spawns(row, w, k - 1) {
        assert (spawned + [row.card])[..|spawned|] == spawned;
        spawned := spawned + [row.card];
      }
    }
  }

  // The slots of a drain: one got for each row that gets one.
  function SlotsGot(listed: seq<Row>, w: Answers, k: nat): nat
    requires k <= |listed|
  {
    if k == 0 then 0 else SlotsGot(listed, w, k - 1) + (if GetsSlot(listed[k - 1], w, k - 1) then 1 else 0)
  }

  lemma {:induction false} SlotsAre(b: Board, listed: seq<Row>, w: Answers, k: nat)
    requires k <= |listed|
    ensures After(b, listed, w, k).acquired == b.acquired + SlotsGot(listed, w, k)
  {
    hide FateOf, GetsSlot, Without, Dequeued, MovesCard;
    if k > 0 {
      SlotsAre(b, listed, w, k - 1);
      FateIs(listed[k - 1], w, k - 1);
    }
  }

  // A row a drain takes off the queue: of a card one of the listed rows spawns, or found unloadable.
  ghost predicate Taken(row: Row, listed: seq<Row>, w: Answers) {
    exists j :: 0 <= j < |listed|
      && ((Spawns(listed[j], w, j) && listed[j].card == row.card) || (Unloadable(listed[j], w, j) && listed[j] == row))
  }

  ghost predicate CardSpawns(c: Card, listed: seq<Row>, w: Answers) {
    exists j :: 0 <= j < |listed| && Spawns(listed[j], w, j) && listed[j].card == c
  }

  // The rows of the queue that are not taken, in order.
  ghost predicate Left(rows: seq<Row>, kept: seq<Row>, listed: seq<Row>, w: Answers) {
    if rows == [] then kept == []
    else if Taken(rows[|rows| - 1], listed, w) then Left(rows[..|rows| - 1], kept, listed, w)
    else
      kept != [] && kept[|kept| - 1] == rows[|rows| - 1] && Left(rows[..|rows| - 1], kept[..|kept| - 1], listed, w)
  }

  lemma {:induction false} StayingIs(rows: seq<Row>, listed: seq<Row>, w: Answers)
    ensures Left(rows, Staying(rows, listed, w, |listed|), listed, w)
  {
    hide Spawns, Unloadable, FateOf;
    if rows != [] {
      var init, last := rows[..|rows| - 1], rows[|rows| - 1];
      StayingIs(init, listed, w);
      GoneIff(last, listed, w);
      var kept := Staying(init, listed, w, |listed|);
      assert (kept + [last])[..|kept|] == kept && kept + [] == kept;
    }
  }

  lemma GoneIff(row: Row, listed: seq<Row>, w: Answers)
    ensures Gone(row, listed, w, |listed|) <==> Taken(row, listed, w)
    ensures CardSpawned(row.card, listed, w, |listed|) <==> CardSpawns(row.card, listed, w)
  {
    hide Spawns, Unloadable, FateOf;
    forall j | 0 <= j < |listed|
      ensures (FateOf(listed[j], w, j).Spawned? <==> Spawns(listed[j], w, j))
              && (FateOf(listed[j], w, j).Stale? <==> Unloadable(listed[j], w, j))
    {
      FateIs(listed[j], w, j);
    }
  }

  // A drain handles the first fifty rows of the queue and no others, in order: it moves and spawns the
  // cards of the rows that get that far, gets a slot for each row that gets one, takes the rows of
  // spawned cards and the unloadable ones off the queue, and clears the flag of spawned cards.
  lemma DrainIsTold(b: Board, w: Answers) returns (window: seq<Row>, moved: seq<Card>, spawned: seq<Card>)
    ensures |window| == (if |b.rows| < 50 then |b.rows| else 50) && window <= b.rows
    ensures var a := After(b, Listed(b.rows), w, |Listed(b.rows)|);
            && a.moved == b.moved + moved && CardsOf(moved, window, w, |window|, Moves)
            && a.spawned == b.spawned + spawned && CardsOf(spawned, window, w, |window|, Spawns)
            && a.acquired == b.acquired + SlotsGot(window, w, |window|)
            && Left(b.rows, a.rows, window, w)
            && forall c :: c in a.waiting <==> c in b.waiting && !CardSpawns(c, window, w)
  {
    hide After, CardsOf, Moves, Spawns, SlotsGot, Left, Staying, CardSpawned, CardSpawns;
    window := Listed(b.rows);
    moved, spawned := MovedAndSpawned(b, window, w, |window|);
    SlotsAre(b, window, w, |window|);
    DrainKeepsRows(b, window, w, |window|);
    StayingIs(b.rows, window, w);
    WaitingAfter(b, window, w, |window|);
    forall c ensures CardSpawned(c, window, w, |window|) <==> CardSpawns(c, window, w) {
      GoneIff(Row(c, "", ""), window, w);
    }
  }

  // Slots are given back for every slot got in vain, and once more for a work row that fails in the
  // spawn itself.
  lemma {:induction false} ReleasedAre(b: Board, listed: seq<Row>, w: Answers, k: nat)
    requires k <= |listed|
    ensures After(b, listed, w, k).released == b.released + SlotsBack(listed, w, k)
  {
    hide Without, Dequeued, MovesCard;
    if k > 0 {
      ReleasedAre(b, listed, w, k - 1);
    }
  }

  function SlotsBack(listed: seq<Row>, w: Answers, k: nat): nat
    requires k <= |listed|
  {
    if k == 0 then 0
    else
      var row := listed[k - 1];
      SlotsBack(listed, w, k - 1) +
      (if !GetsSlot(row, w, k - 1) || Spawns(row, w, k - 1) then 0
       else if row.role == "work" && w.workWired && AllOk(w.work(k - 1)) then 2 else 1)
  }
}
