// Draining the queue of cards that wait for a pool slot
// (internal/orchestrator/drain_pending_pools.go, select_pool.go).
module Drain {
  import opened Options
  import opened AutoPull
  import opened Ranking

  const LIMIT: nat := 50

  // How the callback for a work row goes: it looks up the workspace, the pool, the issue and its
  // plan, moves the card, and spawns. Only a failure of the last step releases the slot.
  datatype WorkCall = WorkCall(workspaceOk: bool, poolOk: bool, issueOk: bool, planOk: bool, moveOk: bool, spawnOk: bool)

  predicate ReachesSpawn(call: WorkCall) {
    call.workspaceOk && call.poolOk && call.issueOk && call.planOk && call.moveOk
  }

  // How the row at place k of the listed rows is answered.
  datatype Answers = Answers(
    acquire: nat -> bool,
    planWired: bool,
    workWired: bool,
    column: nat -> Option<string>, // None when the issue cannot be loaded
    moveOk: nat -> bool,
    planSpawnOk: nat -> bool,
    work: nat -> WorkCall)

  datatype Fate = NoSlot | Unwired | Stale | MoveFailed | Failed(releasedTwice: bool) | Spawned

  function FateOf(row: Row, w: Answers, k: nat): Fate {
    if row.role != "plan" && row.role != "work" then NoSlot
    else if !w.acquire(k) then NoSlot
    else if row.role == "work" then
      if !w.workWired then Unwired
      else if ReachesSpawn(w.work(k)) && w.work(k).spawnOk then Spawned else Failed(ReachesSpawn(w.work(k)))
    else if !w.planWired then Unwired
    else if w.column(k).None? then Stale
    else if w.column(k).value == "todo" && !w.moveOk(k) then Fate.MoveFailed
    else if w.planSpawnOk(k) then Spawned else Failed(false)
  }

  predicate MovesCard(row: Row, w: Answers, k: nat) {
    var fate := FateOf(row, w, k);
    row.role == "plan" && (fate.Spawned? || fate.Failed?) && w.column(k) == Some("todo")
  }

  // What handling one row does to the board.
  function Handled(b: Board, row: Row, w: Answers, k: nat): Board {
    var fate := FateOf(row, w, k);
    var slots := if fate.NoSlot? then (0, 0)
                 else if fate.Spawned? then (1, 0)
                 else if fate == Failed(true) then (1, 2) else (1, 1);
    Board(b.acquired + slots.0,
          b.released + slots.1,
          if MovesCard(row, w, k) then b.moved + [row.card] else b.moved,
          if fate.Spawned? then b.spawned + [row.card] else b.spawned,
          if fate.Stale? then Dequeued(b.rows, row)
          else if fate.Spawned? then Without(b.rows, row.card) else b.rows,
          if fate.Spawned? then b.waiting - {row.card} else b.waiting)
  }

  function After(b: Board, listed: seq<Row>, w: Answers, k: nat): Board
    requires k <= |listed|
  {
    if k == 0 then b else Handled(After(b, listed, w, k - 1), listed[k - 1], w, k - 1)
  }

  function Listed(rows: seq<Row>): seq<Row> {
    if |rows| <= LIMIT then rows else rows[..LIMIT]
  }

  method SelectPool(role: string, answer: bool) returns (ok: bool)
    ensures ok <==> (role == "plan" || role == "work") && answer
  {
    match role {
      case "plan" => ok := answer;
      case "work" => ok := answer;
      case _ => ok := false;
    }
  }

  method DequeuePendingPool(o: Orchestrator, row: Row)
    modifies o`rows
    ensures o.rows == Dequeued(old(o.rows), row)
  {
    var kept: seq<Row> := [];
    for i := 0 to |o.rows|
      invariant o.rows == old(o.rows)
      invariant kept == Dequeued(o.rows[..i], row)
    {
      assert o.rows[..i + 1][..i] == o.rows[..i];
      if o.rows[i] != row {
        kept := kept + [o.rows[i]];
      }
    }
    assert o.rows[..|o.rows|] == o.rows;
    o.rows := kept;
  }

  lemma {:induction false} WithoutDequeued(rows: seq<Row>, row: Row)
    ensures Without(Dequeued(rows, row), row.card) == Without(rows, row.card)
  {
    if rows != [] {
      var init, last := rows[..|rows| - 1], rows[|rows| - 1];
      WithoutDequeued(init, row);
      var d := Dequeued(init, row);
      assert (d + [last])[..|d|] == d && d + [] == d;
    }
  }

  method HandlePlan(o: Orchestrator, req: Row, w: Answers, k: nat) returns (spawned: Option<bool>)
    requires req.role == "plan" && w.acquire(k)
    modifies o
    ensures spawned.None? ==> o.View() == Handled(old(o.View()), req, w, k).(acquired := old(o.acquired))
    ensures spawned.None? <==> FateOf(req, w, k).Unwired? || FateOf(req, w, k).Stale? || FateOf(req, w, k).MoveFailed?
    ensures spawned.Some? ==>
      && spawned.value == w.planSpawnOk(k)
      && o.View() == old(o.View()).(moved := if MovesCard(req, w, k) then old(o.moved) + [req.card] else old(o.moved))
  {
    hide Dequeued, Without;
    if !w.planWired {
      o.released := o.released + 1;
      return None;
    }
    if w.column(k).None? {
      DequeuePendingPool(o, req);
      o.released := o.released + 1;
      return None;
    }
    if w.column(k).value == "todo" {
      if !w.moveOk(k) {
        o.released := o.released + 1;
        return None;
      }
      o.moved := o.moved + [req.card];
    }
    return Some(w.planSpawnOk(k));
  }

  // The work callback.
  method SpawnWork(o: Orchestrator, call: WorkCall) returns (ok: bool)
    modifies o`released
    ensures ok <==> ReachesSpawn(call) && call.spawnOk
    ensures o.released == old(o.released) + (if ReachesSpawn(call) && !call.spawnOk then 1 else 0)
  {
    if !call.workspaceOk {
      return false;
    }
    if !call.poolOk {
      return false;
    }
    if !call.issueOk {
      return false;
    }
    if !call.planOk {
      return false;
    }
    if !call.moveOk {
      return false;
    }
    if !call.spawnOk {
      o.released := o.released + 1;
      return false;
    }
    return true;
  }

  // One row. The switch on the role has a third case in the source; SelectPool has refused every
  // other role before, so it is never taken.
  method HandleRow(o: Orchestrator, req: Row, w: Answers, k: nat)
    modifies o
    ensures o.View() == Handled(old(o.View()), req, w, k)
  {
    hide Dequeued, Without;
    var ok := SelectPool(req.role, w.acquire(k));
    if !ok {
      return;
    }
    o.acquired := o.acquired + 1;
    var spawned := false;
    if req.role == "plan" {
      var r := HandlePlan(o, req, w, k);
      if r.None? {
        return;
      }
      spawned := r.value;
    } else if req.role == "work" {
      if !w.workWired {
        o.released := o.released + 1;
        return;
      }
      spawned := SpawnWork(o, w.work(k));
    } else {
      assert false;
    }
    if !spawned {
      o.released := o.released + 1;
      return;
    }
    o.spawned := o.spawned + [req.card];
    WithoutDequeued(o.rows, req);
    DequeuePendingPool(o, req);
    o.ClearWaitingForPool(req.card);
  }

  method DrainPendingPools(o: Orchestrator, w: Answers)
    modifies o
    ensures o.View() == After(old(o.View()), Listed(old(o.rows)), w, |Listed(old(o.rows))|)
  {
    hide Handled;
    var pending := Listed(o.rows);
    for k := 0 to |pending|
      invariant o.View() == After(old(o.View()), pending, w, k)
    {
      HandleRow(o, pending[k], w, k);
    }
  }

  // ---- the slot ledger ----

  function SpawnedOf(listed: seq<Row>, w: Answers, k: nat): seq<Card>
    requires k <= |listed|
  {
    if k == 0 then []
    else SpawnedOf(listed, w, k - 1) + (if FateOf(listed[k - 1], w, k - 1).Spawned? then [listed[k - 1].card] else [])
  }

  function DoubleReleases(listed: seq<Row>, w: Answers, k: nat): nat
    requires k <= |listed|
  {
    if k == 0 then 0
    else DoubleReleases(listed, w, k - 1) + (if FateOf(listed[k - 1], w, k - 1) == Failed(true) then 1 else 0)
  }

  lemma {:induction false} DrainCounts(b: Board, listed: seq<Row>, w: Answers, k: nat)
    requires k <= |listed|
    ensures var a := After(b, listed, w, k);
            && a.spawned == b.spawned + SpawnedOf(listed, w, k)
            && a.acquired - a.released
               == b.acquired - b.released + |SpawnedOf(listed, w, k)| - DoubleReleases(listed, w, k)
  {
    hide FateOf, Without, Dequeued;
    if k > 0 {
      DrainCounts(b, listed, w, k - 1);
    }
  }

  lemma {:induction false} NoDoubleReleaseIff(listed: seq<Row>, w: Answers, k: nat)
    requires k <= |listed|
    ensures DoubleReleases(listed, w, k) == 0 <==> forall j :: 0 <= j < k ==> FateOf(listed[j], w, j) != Failed(true)
  {
    hide FateOf;
    if k > 0 {
      NoDoubleReleaseIff(listed, w, k - 1);
    }
  }

  // A work row that gets its slot and fails in the spawn itself, past every check of the callback.
  predicate FailsInSpawn(row: Row, w: Answers, k: nat) {
    row.role == "work" && w.acquire(k) && w.workWired && ReachesSpawn(w.work(k)) && !w.work(k).spawnOk
  }

  // Rows spawn in queue order, and the slots held grow by exactly the spawned rows if and only if
  // no work row fails in the spawn itself: there callback and drain both release its slot.
  lemma DrainLedgerIff(b: Board, listed: seq<Row>, w: Answers)
    ensures var a := After(b, listed, w, |listed|);
            && a.spawned == b.spawned + SpawnedOf(listed, w, |listed|)
            && (a.acquired - a.released == b.acquired - b.released + |a.spawned| - |b.spawned|
                <==> forall j :: 0 <= j < |listed| ==> !FailsInSpawn(listed[j], w, j))
  {
    hide FateOf, After, FailsInSpawn;
    DrainCounts(b, listed, w, |listed|);
    NoDoubleReleaseIff(listed, w, |listed|);
    forall j | 0 <= j < |listed| ensures FateOf(listed[j], w, j) == Failed(true) <==> FailsInSpawn(listed[j], w, j) {
      DoubleFate(listed[j], w, j);
    }
  }

  lemma DoubleFate(row: Row, w: Answers, k: nat)
    ensures FateOf(row, w, k) == Failed(true) <==> FailsInSpawn(row, w, k)
  {
  }

  predicate CardSpawned(c: Card, listed: seq<Row>, w: Answers, k: nat)
    requires k <= |listed|
  {
    exists j :: 0 <= j < k && FateOf(listed[j], w, j).Spawned? && listed[j].card == c
  }

  // No card with two rows is spawned for both.
  ghost predicate NeverTwice(listed: seq<Row>, w: Answers, k: nat)
    requires k <= |listed|
  {
    forall j :: 0 <= j < k && FateOf(listed[j], w, j).Spawned? ==> !CardSpawned(listed[j].card, listed, w, j)
  }

  // The drain walks a listing taken before it starts: a card is handed to spawn twice exactly when
  // two of its listed rows both find a slot and spawn, although the first took the second off the
  // queue.
  lemma {:induction false} SpawnedTwiceIff(listed: seq<Row>, w: Answers, k: nat)
    requires k <= |listed|
    ensures Distinct(SpawnedOf(listed, w, k)) <==> NeverTwice(listed, w, k)
    ensures forall c :: c in SpawnedOf(listed, w, k) <==> CardSpawned(c, listed, w, k)
  {
    hide FateOf, Distinct;
    if k == 0 {
      NoneSpawned();
    } else {
      SpawnedTwiceIff(listed, w, k - 1);
      var init := SpawnedOf(listed, w, k - 1);
      SpawnedStep(listed, w, k - 1);
      if FateOf(listed[k - 1], w, k - 1).Spawned? {
        DistinctLast(init, listed[k - 1].card);
      } else {
        assert init + [] == init;
      }
    }
  }

  lemma NoneSpawned()
    ensures Distinct<Card>([])
  {
  }

  lemma SpawnedStep(listed: seq<Row>, w: Answers, k: nat)
    requires k < |listed|
    ensures forall c :: CardSpawned(c, listed, w, k + 1) <==>
              CardSpawned(c, listed, w, k) || (FateOf(listed[k], w, k).Spawned? && listed[k].card == c)
    ensures NeverTwice(listed, w, k + 1) <==>
            NeverTwice(listed, w, k)
            && (FateOf(listed[k], w, k).Spawned? ==> !CardSpawned(listed[k].card, listed, w, k))
  {
    hide FateOf;
  }

  lemma DistinctLast(s: seq<Card>, c: Card)
    ensures Distinct(s + [c]) <==> Distinct(s) && c !in s
  {
    var t := s + [c];
    assert t[|s|] == c && forall i :: 0 <= i < |s| ==> t[i] == s[i];
    if Distinct(t) {
      assert forall i, j :: 0 <= i < j < |s| ==> t[i] != t[j];
    }
  }

  // ---- what stays queued ----

  predicate Gone(row: Row, listed: seq<Row>, w: Answers, k: nat)
    requires k <= |listed|
  {
    exists j :: 0 <= j < k &&
      ((FateOf(listed[j], w, j).Spawned? && listed[j].card == row.card)
       || (FateOf(listed[j], w, j).Stale? && listed[j] == row))
  }

  function Staying(rows: seq<Row>, listed: seq<Row>, w: Answers, k: nat): seq<Row>
    requires k <= |listed|
  {
    if rows == [] then []
    else
      Staying(rows[..|rows| - 1], listed, w, k) +
      (if Gone(rows[|rows| - 1], listed, w, k) then [] else [rows[|rows| - 1]])
  }

  lemma GoneStep(row: Row, listed: seq<Row>, w: Answers, k: nat)
    requires k < |listed|
    ensures Gone(row, listed, w, k + 1) <==>
            || Gone(row, listed, w, k)
            || (FateOf(listed[k], w, k).Spawned? && listed[k].card == row.card)
            || (FateOf(listed[k], w, k).Stale? && listed[k] == row)
  {
    hide FateOf;
  }

  lemma {:induction false} StayingStep(rows: seq<Row>, listed: seq<Row>, w: Answers, k: nat)
    requires k < |listed|
    ensures Staying(rows, listed, w, k + 1) ==
            var s := Staying(rows, listed, w, k);
            var fate := FateOf(listed[k], w, k);
            if fate.Stale? then Dequeued(s, listed[k])
            else if fate.Spawned? then Without(s, listed[k].card) else s
  {
    hide FateOf, Gone;
    if rows != [] {
      var init, last := rows[..|rows| - 1], rows[|rows| - 1];
      StayingStep(init, listed, w, k);
      GoneStep(last, listed, w, k);
      var s := Staying(init, listed, w, k);
      assert (s + [last])[..|s|] == s && s + [] == s;
    }
  }

  // A drain takes off the queue exactly the rows of cards it spawned and the rows whose issue could
  // not be loaded; the others keep their order.
  lemma {:induction false} DrainKeepsRows(b: Board, listed: seq<Row>, w: Answers, k: nat)
    requires k <= |listed|
    ensures After(b, listed, w, k).rows == Staying(b.rows, listed, w, k)
  {
    hide FateOf, Without, Dequeued, Gone;
    if k == 0 {
      NothingGone(b.rows, listed, w);
    } else {
      DrainKeepsRows(b, listed, w, k - 1);
      StayingStep(b.rows, listed, w, k - 1);
    }
  }

  lemma {:induction false} NothingGone(rows: seq<Row>, listed: seq<Row>, w: Answers)
    ensures Staying(rows, listed, w, 0) == rows
  {
    if rows != [] {
      NothingGone(rows[..|rows| - 1], listed, w);
    }
  }

  // Rows of any other role are never dropped as unknown: when they fill the listed window, a drain
  // does nothing, whatever is queued behind them.
  lemma {:induction false} UnknownRolesStarve(b: Board, listed: seq<Row>, w: Answers, k: nat)
    requires k <= |listed| && forall row :: row in listed ==> row.role != "plan" && row.role != "work"
    ensures After(b, listed, w, k) == b
  {
    if k > 0 {
      UnknownRolesStarve(b, listed, w, k - 1);
      assert listed[k - 1] in listed;
    }
  }

  // ---- the waiting flag ----

  ghost predicate FlagsMatch(b: Board) {
    forall c :: c in b.waiting <==> exists row :: row in b.rows && row.card == c
  }

  lemma {:induction false} WithoutElements(rows: seq<Row>, card: Card)
    ensures forall row :: row in Without(rows, card) <==> row in rows && row.card != card
  {
    if rows != [] {
      WithoutElements(rows[..|rows| - 1], card);
      assert rows == rows[..|rows| - 1] + [rows[|rows| - 1]];
    }
  }

  lemma {:induction false} DequeuedElements(rows: seq<Row>, row: Row)
    ensures forall r :: r in Dequeued(rows, row) <==> r in rows && r != row
  {
    if rows != [] {
      DequeuedElements(rows[..|rows| - 1], row);
      assert rows == rows[..|rows| - 1] + [rows[|rows| - 1]];
    }
  }

  lemma EnqueuedElements(rows: seq<Row>, row: Row)
    ensures forall r :: r in Enqueued(rows, row) <==> r in rows || r == row
  {
  }

  // A pull keeps every card flagged as waiting exactly when it has a row, however it ends.
  lemma PullKeepsFlags(b: Board, cards: seq<Card>, next: Option<Issue>, exit: Exit)
    requires FlagsMatch(b)
    ensures FlagsMatch(Stopped(AllPulled(b, cards), next, exit))
  {
    hide Enqueued, Without, AllPulled;
    AllPulledKeepsFlags(b, cards);
    var a := AllPulled(b, cards);
    if next.Some? {
      var card := CardOf(next.value);
      WithoutElements(a.rows, card);
      var row := Row(card, "plan", "spawn:plan");
      EnqueuedElements(a.rows, row);
      WaitsKeepsFlags(a, card);
    }
  }

  lemma WaitsKeepsFlags(b: Board, card: Card)
    requires FlagsMatch(b)
    ensures FlagsMatch(Waits(b, card))
  {
    hide Enqueued;
    var row := Row(card, "plan", "spawn:plan");
    EnqueuedElements(b.rows, row);
    var a := Waits(b, card);
    forall c ensures c in a.waiting <==> exists r :: r in a.rows && r.card == c {
      if c == card {
        assert row in a.rows;
      } else if c in b.waiting {
        var r :| r in b.rows && r.card == c;
        assert r in a.rows;
      }
    }
  }

  lemma {:induction false} AllPulledKeepsFlags(b: Board, cards: seq<Card>)
    requires FlagsMatch(b)
    ensures FlagsMatch(AllPulled(b, cards))
  {
    hide Without;
    if cards != [] {
      AllPulledKeepsFlags(b, cards[..|cards| - 1]);
      WithoutElements(AllPulled(b, cards[..|cards| - 1]).rows, cards[|cards| - 1]);
    }
  }

  // Handling one row keeps them matching exactly when it does not drop the card's last row as stale.
  lemma RowKeepsFlagsIff(b: Board, row: Row, w: Answers, k: nat)
    requires FlagsMatch(b) && row in b.rows
    ensures FlagsMatch(Handled(b, row, w, k)) <==>
            FateOf(row, w, k).Stale? ==> exists other :: other in b.rows && other != row && other.card == row.card
  {
    hide FateOf, Without, Dequeued;
    WithoutElements(b.rows, row.card);
    DequeuedElements(b.rows, row);
    var a := Handled(b, row, w, k);
    if FateOf(row, w, k).Stale? {
      assert row.card in b.waiting && row.card in a.waiting;
      forall c | c != row.card ensures c in a.waiting <==> exists r :: r in a.rows && r.card == c {
        if c in b.waiting {
          var r :| r in b.rows && r.card == c;
          assert r in a.rows;
        }
      }
    }
  }

  predicate StaleDropped(row: Row, listed: seq<Row>, w: Answers) {
    exists j :: 0 <= j < |listed| && FateOf(listed[j], w, j).Stale? && listed[j] == row
  }

  lemma {:induction false} StayingElements(rows: seq<Row>, listed: seq<Row>, w: Answers)
    ensures forall row :: row in Staying(rows, listed, w, |listed|) <==>
              row in rows && !CardSpawned(row.card, listed, w, |listed|) && !StaleDropped(row, listed, w)
  {
    hide FateOf;
    if rows != [] {
      StayingElements(rows[..|rows| - 1], listed, w);
      assert rows == rows[..|rows| - 1] + [rows[|rows| - 1]];
    }
  }

  lemma {:induction false} WaitingAfter(b: Board, listed: seq<Row>, w: Answers, k: nat)
    requires k <= |listed|
    ensures forall c :: c in After(b, listed, w, k).waiting <==> c in b.waiting && !CardSpawned(c, listed, w, k)
  {
    hide FateOf, Without, Dequeued;
    if k > 0 {
      WaitingAfter(b, listed, w, k - 1);
      SpawnedStep(listed, w, k - 1);
    }
  }

  // A card that was not spawned still has a row that was not dropped.
  predicate KeepsRow(c: Card, rows: seq<Row>, listed: seq<Row>, w: Answers) {
    CardSpawned(c, listed, w, |listed|) || exists other :: other in rows && other.card == c && !StaleDropped(other, listed, w)
  }

  // Over a whole drain, flags keep matching rows exactly when no card that is not spawned in it loses
  // its last row as stale.
  lemma DrainKeepsFlagsIff(b: Board, listed: seq<Row>, w: Answers)
    requires FlagsMatch(b)
    ensures FlagsMatch(After(b, listed, w, |listed|)) <==> forall row :: row in b.rows ==> KeepsRow(row.card, b.rows, listed, w)
  {
    hide FateOf, After, StaleDropped, CardSpawned, Staying;
    var a := After(b, listed, w, |listed|);
    DrainKeepsRows(b, listed, w, |listed|);
    StayingElements(b.rows, listed, w);
    WaitingAfter(b, listed, w, |listed|);
    if FlagsMatch(a) {
      forall row | row in b.rows ensures KeepsRow(row.card, b.rows, listed, w) {
        assert row.card in b.waiting;
        if !CardSpawned(row.card, listed, w, |listed|) {
          var other :| other in a.rows && other.card == row.card;
        }
      }
    } else {
      var c :| !(c in a.waiting <==> exists row :: row in a.rows && row.card == c);
      if c in a.waiting {
        var row :| row in b.rows && row.card == c;
        assert !KeepsRow(row.card, b.rows, listed, w);
      }
    }
  }
}
