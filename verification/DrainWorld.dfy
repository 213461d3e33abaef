/**
 * The release drain among others: the clock moves, gates answer differently
 * from turn to turn, switches are engaged and released, and between any two
 * turns other processes change the tables.
 */
module DrainWorld {
  import opened Base
  import opened KillSwitch
  import opened Outbox
  import opened Gates
  import opened Drain

  // What the k-th turn meets.
  datatype World = World(
    clock: nat -> Instant,
    until: nat -> Instant,
    answers: nat -> Uuid -> Answers,
    writeFails: nat -> (Uuid, nat) -> bool,
    engaged: nat -> seq<Switch>,
    others: (nat, Tables) -> Tables)   // the tables when the turn starts

  function At(d: DrainTask, w: World, k: nat): DrainTask {
    d.(now := w.clock(k), until := w.until(k), answers := w.answers(k), writeFails := w.writeFails(k))
  }

  // One turn: the tables it found and left, what it took, how many rows were
  // claimable before and after, and how many of them had become so since the
  // turn before, by others or by the clock.
  datatype Entry = Entry(
    found: Tables, left: Tables, batch: set<Uuid>, turn: Turn, before: nat, after: nat, arrived: nat)

  ghost function BacklogAt(d: DrainTask, w: World, k: nat, t: Tables): set<Uuid> {
    At(d, w, k).Backlog(t)
  }

  ghost predicate Measured(d: DrainTask, w: World, entries: seq<Entry>, k: nat)
    requires k < |entries|
  {
    var e := entries[k];
    && e.before == |BacklogAt(d, w, k, e.found)| && e.after == |BacklogAt(d, w, k, e.left)|
    && e.arrived == if k == 0 then 0
                    else |BacklogAt(d, w, k, e.found) - BacklogAt(d, w, k - 1, entries[k - 1].left)|
  }

  ghost predicate IsTurn(d: DrainTask, w: World, rate: nat, entries: seq<Entry>, k: nat)
    requires k < |entries|
  {
    var e := entries[k];
    && Counted(e.found) && Measured(d, w, entries, k) && TurnOf(At(d, w, k), rate, w.engaged(k), e.found, e.left, e.batch, e.turn)
    && (k > 0 ==> e.found == w.others(k, entries[k - 1].left) && !entries[k - 1].turn.NothingLeft?)
  }

  // A drain that began with the tables `t0`.
  ghost predicate IsDrain(d: DrainTask, w: World, rate: nat, t0: Tables, entries: seq<Entry>) {
    && (forall k {:trigger IsTurn(d, w, rate, entries, k)} :: 0 <= k < |entries| ==> IsTurn(d, w, rate, entries, k))
    && (entries != [] ==> entries[0].found == w.others(0, t0))
  }

  lemma TurnAt(d: DrainTask, w: World, rate: nat, t0: Tables, entries: seq<Entry>, k: nat)
    requires IsDrain(d, w, rate, t0, entries) && k < |entries|
    ensures IsTurn(d, w, rate, entries, k)
  {
  }

  // Rows that became claimable between the first `n` turns.
  ghost function Arrivals(entries: seq<Entry>, n: nat): nat
    requires n <= |entries|
  {
    if n == 0 then 0 else Arrivals(entries, n - 1) + entries[n - 1].arrived
  }

  // Turns that got nowhere: failed claims, and turns that freed no row.
  ghost function Wasted(entries: seq<Entry>, n: nat): nat
    requires n <= |entries|
  {
    if n == 0 then 0
    else
      var e := entries[n - 1];
      Wasted(entries, n - 1) + if e.turn.NothingLeft? || e.after < e.before then 0 else 1
  }

  lemma TurnLeaves(d: DrainTask, w: World, rate: nat, t0: Tables, entries: seq<Entry>, k: nat)
    requires IsDrain(d, w, rate, t0, entries) && k < |entries|
    ensures entries[k].after <= entries[k].before
    ensures k == 0 ==> entries[k].arrived == 0
    ensures k > 0 ==> !entries[k - 1].turn.NothingLeft?
  {
    assert IsTurn(d, w, rate, entries, k);
    if entries[k].turn.Took? {
      TurnShrinks(At(d, w, k), entries[k].found, entries[k].left, entries[k].batch);
    }
  }

  lemma SomeArrive(a: set<Uuid>, b: set<Uuid>)
    ensures |b| <= |a| + |b - a|
  {
    assert b == (b * a) + (b - a);
    Part(b * a, a);
  }

  lemma Part(a: set<Uuid>, b: set<Uuid>)
    requires a <= b
    ensures |a| <= |b|
  {
    assert b == a + (b - a);
  }

  lemma FoundMore(d: DrainTask, w: World, rate: nat, t0: Tables, entries: seq<Entry>, k: nat)
    requires IsDrain(d, w, rate, t0, entries) && 0 < k < |entries|
    ensures entries[k].before <= entries[k - 1].after + entries[k].arrived
  {
    assert IsTurn(d, w, rate, entries, k) && IsTurn(d, w, rate, entries, k - 1);
    SomeArrive(BacklogAt(d, w, k - 1, entries[k - 1].left), BacklogAt(d, w, k, entries[k].found));
  }

  // Every turn but the last, empty one is accounted for by a row that was
  // claimable at the start or became so since, or got nowhere.
  lemma {:induction false} TurnsExplained(d: DrainTask, w: World, rate: nat, t0: Tables, entries: seq<Entry>, n: nat)
    requires IsDrain(d, w, rate, t0, entries) && 0 < n <= |entries|
    ensures n + entries[n - 1].after
            <= entries[0].before + Arrivals(entries, n) + Wasted(entries, n)
               + if entries[n - 1].turn.NothingLeft? then 1 else 0
    decreases n
  {
    TurnLeaves(d, w, rate, t0, entries, n - 1);
    if n == 1 {
    } else {
      TurnsExplained(d, w, rate, t0, entries, n - 1);
      FoundMore(d, w, rate, t0, entries, n - 1);
    }
  }

  // No row of the backlog sticks at any turn.
  ghost predicate NeverSticks(d: DrainTask, w: World, entries: seq<Entry>) {
    forall k {:trigger NoneSticks(At(d, w, k), entries[k].found)} :: 0 <= k < |entries| ==>
      NoneSticks(At(d, w, k), entries[k].found)
  }

  lemma {:induction false} NothingWasted(d: DrainTask, w: World, rate: nat, t0: Tables, entries: seq<Entry>, n: nat)
    requires IsDrain(d, w, rate, t0, entries) && NeverSticks(d, w, entries) && n <= |entries|
    ensures Wasted(entries, n) == 0
  {
    if n == 0 {
    } else {
      NothingWasted(d, w, rate, t0, entries, n - 1);
      NotWastedAt(d, w, rate, t0, entries, n - 1);
    }
  }

  lemma NotWastedAt(d: DrainTask, w: World, rate: nat, t0: Tables, entries: seq<Entry>, k: nat)
    requires IsDrain(d, w, rate, t0, entries) && NeverSticks(d, w, entries) && k < |entries|
    ensures entries[k].turn.NothingLeft? || entries[k].after < entries[k].before
  {
    var e := entries[k];
    TurnAt(d, w, rate, t0, entries, k);
    TurnKeepsGoing(At(d, w, k), rate, w.engaged(k), e.found, e.left, e.batch, e.turn);
  }

  // More turns than rows that were or became claimable.
  ghost predicate MoreTurns(entries: seq<Entry>, fuel: nat) {
    entries != [] && fuel > entries[0].before + Arrivals(entries, |entries|)
  }

  // Others may do anything to the tables but make attempts negative.
  ghost predicate Sensible(w: World) {
    forall k, t {:trigger w.others(k, t)} :: Counted(t) ==> Counted(w.others(k, t))
  }

  method Meanwhile(db: Database, t: Tables)
    modifies db
    ensures db.View() == t
  {
    db.outbox, db.ledger, db.events, db.idempotency := t.outbox, t.ledger, t.events, t.idempotency;
  }

  lemma TurnCountedToo(d: DrainTask, rate: nat, engaged: seq<Switch>, e: Entry)
    requires Counted(e.found) && TurnOf(d, rate, engaged, e.found, e.left, e.batch, e.turn)
    ensures Counted(e.left)
  {
    if e.turn.Took? {
      TurnCounted(d, e.found, e.left, e.batch);
    }
  }

  lemma EntryAdded(d: DrainTask, w: World, rate: nat, t0: Tables, entries: seq<Entry>, e: Entry)
    requires IsDrain(d, w, rate, t0, entries) && Counted(e.found)
    requires Measured(d, w, entries + [e], |entries|)
    requires TurnOf(At(d, w, |entries|), rate, w.engaged(|entries|), e.found, e.left, e.batch, e.turn)
    requires entries == [] ==> e.found == w.others(0, t0)
    requires entries != [] ==>
               && e.found == w.others(|entries|, entries[|entries| - 1].left)
               && !entries[|entries| - 1].turn.NothingLeft?
    ensures IsDrain(d, w, rate, t0, entries + [e])
  {
    var more := entries + [e];
    forall k | 0 <= k < |more| ensures IsTurn(d, w, rate, more, k) {
      if k < |entries| {
        assert IsTurn(d, w, rate, entries, k);
        SameTurn(d, w, rate, entries, e, k);
      } else {
        assert more[k] == e && (k > 0 ==> more[k - 1] == entries[k - 1]);
      }
    }
  }

  lemma SameTurn(d: DrainTask, w: World, rate: nat, entries: seq<Entry>, e: Entry, k: nat)
    requires k < |entries| && IsTurn(d, w, rate, entries, k)
    ensures IsTurn(d, w, rate, entries + [e], k)
  {
    var more := entries + [e];
    assert more[k] == entries[k] && (k > 0 ==> more[k - 1] == entries[k - 1]);
  }

  ghost function Recorded(d: DrainTask, w: World, entries: seq<Entry>, found: Tables, left: Tables, batch: set<Uuid>,
                          turn: Turn): (e: Entry)
    ensures Measured(d, w, entries + [e], |entries|)
    ensures e.found == found && e.left == left && e.batch == batch && e.turn == turn
  {
    var k := |entries|;
    var arrived := if k == 0 then 0
                   else |BacklogAt(d, w, k, found) - BacklogAt(d, w, k - 1, entries[k - 1].left)|;
    Entry(found, left, batch, turn, |BacklogAt(d, w, k, found)|, |BacklogAt(d, w, k, left)|, arrived)
  }

  // The tables as they stand.
  ghost function Standing(t0: Tables, entries: seq<Entry>): Tables {
    if entries == [] then t0 else entries[|entries| - 1].left
  }

  /**
   * The loop among others. When it ends, nothing in its scope was claimable
   * at that turn but rows under a switch the turn saw engaged; if no row ever
   * sticks it has ended once its turns exceed the rows that were or became
   * claimable.
   */
  method DrainAmongOthers(worker: Worker, d: DrainTask, rate: nat, w: World, fuel: nat)
    returns (done: bool, ghost entries: seq<Entry>)
    requires Counted(worker.db.View()) && Sensible(w)
    modifies worker.db
    ensures IsDrain(d, w, rate, old(worker.db.View()), entries)
    ensures worker.db.View() == Standing(old(worker.db.View()), entries)
    ensures done <==> entries != [] && entries[|entries| - 1].turn.NothingLeft?
    ensures |entries| <= fuel && (!done ==> |entries| == fuel)
    ensures done && rate >= 1 ==> CoveredAtEnd(d, w, entries)
    ensures NeverSticks(d, w, entries) && MoreTurns(entries, fuel) ==> done
  {
    ghost var t0 := worker.db.View();
    var k := 0;
    done, entries := false, [];
    while k < fuel && !done
      invariant |entries| == k <= fuel && Counted(worker.db.View())
      invariant IsDrain(d, w, rate, t0, entries) && worker.db.View() == Standing(t0, entries)
      invariant done <==> entries != [] && entries[|entries| - 1].turn.NothingLeft?
      decreases fuel - k
    {
      Meanwhile(worker.db, w.others(k, worker.db.View()));
      ghost var found := worker.db.View();
      ghost var batch;
      var turn;
      turn, batch := DrainBatch(worker, At(d, w, k), rate, w.engaged(k));
      ghost var e := Recorded(d, w, entries, found, worker.db.View(), batch, turn);
      TurnCountedToo(At(d, w, k), rate, w.engaged(k), e);
      EntryAdded(d, w, rate, t0, entries, e);
      entries := entries + [e];
      done := turn.NothingLeft?;
      k := k + 1;
    }
    Ends(d, w, rate, t0, entries, done, fuel);
  }

  ghost predicate CoveredAtEnd(d: DrainTask, w: World, entries: seq<Entry>)
    requires entries != []
  {
    var k := |entries| - 1;
    Covered(At(d, w, k), entries[k].left, w.engaged(k))
  }

  lemma EndCoversAt(d: DrainTask, w: World, rate: nat, t0: Tables, entries: seq<Entry>)
    requires IsDrain(d, w, rate, t0, entries) && entries != [] && rate >= 1
    requires entries[|entries| - 1].turn.NothingLeft?
    ensures CoveredAtEnd(d, w, entries)
  {
    var k := |entries| - 1;
    var e := entries[k];
    TurnAt(d, w, rate, t0, entries, k);
    NothingLeftMeansCovered(At(d, w, k), rate, w.engaged(k), e.found, e.left, e.batch);
  }

  lemma Ends(d: DrainTask, w: World, rate: nat, t0: Tables, entries: seq<Entry>, done: bool, fuel: nat)
    requires IsDrain(d, w, rate, t0, entries) && (!done ==> |entries| == fuel)
    requires done <==> entries != [] && entries[|entries| - 1].turn.NothingLeft?
    ensures done && rate >= 1 ==> CoveredAtEnd(d, w, entries)
    ensures NeverSticks(d, w, entries) && MoreTurns(entries, fuel) ==> done
  {
    if done && rate >= 1 {
      EndCoversAt(d, w, rate, t0, entries);
    }
    if NeverSticks(d, w, entries) && MoreTurns(entries, fuel) && !done {
      NotEndless(d, w, rate, t0, entries, fuel);
    }
  }

  lemma NotEndless(d: DrainTask, w: World, rate: nat, t0: Tables, entries: seq<Entry>, fuel: nat)
    requires IsDrain(d, w, rate, t0, entries) && |entries| == fuel
    requires NeverSticks(d, w, entries) && MoreTurns(entries, fuel)
    ensures entries[|entries| - 1].turn.NothingLeft?
  {
    TurnsExplained(d, w, rate, t0, entries, |entries|);
    NothingWasted(d, w, rate, t0, entries, |entries|);
  }
}
