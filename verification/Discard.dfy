/**
 * The discard of an engaged switch's backlog as it runs on its own, with the
 * clock standing still and nobody else writing: what each turn does to each
 * row, and exactly when the discard ends.
 */
module Discard {
  import opened Base
  import opened KillSwitch
  import opened Outbox
  import opened Drain

  // An engaged switch on every channel, and which terminal writes the
  // database refuses.
  datatype DiscardTask = DiscardTask(
    parse: UuidParser, switch: Switch, now: Instant, until: Instant, writeFails: (Uuid, nat) -> bool)
  {
    ghost function Backlog(t: Tables): set<Uuid> {
      ScopeBacklog(parse, t, None, switch, now)
    }

    // Written off as discarded, or left leased after five refused writes.
    ghost function Written(t: Tables, id: Uuid): Tables {
      if WriteSucceeds(writeFails, id) then WriteTerminal(t, id, now, DISCARDED, "") else t
    }

    // One claim of `id` alone and its write.
    ghost function Once(t: Tables, id: Uuid): Tables {
      Written(t.(outbox := Lease(t.outbox, {id}, until)), id)
    }
  }

  lemma BacklogExact(d: DiscardTask, t: Tables, id: Uuid)
    ensures id in d.Backlog(t) <==> Claimable(t, id, d.now) && Matches(d.parse, d.switch, t.outbox[id].target)
  {
  }

  lemma CandidatesAreBacklog(d: DiscardTask, t: Tables)
    ensures ScopeCandidates(d.parse, t.outbox, None, d.switch, d.now, NO_EXCLUSION) == d.Backlog(t)
  {
    forall id | id in t.outbox
      ensures ScopeSelects(d.parse, None, d.switch, t.outbox[id].target)
              <==> Matches(d.parse, d.switch, t.outbox[id].target)
    {
      ScopeSelectsExact(d.parse, None, d.switch, t.outbox[id].target);
    }
  }

  // ---------------------------------------------------------------- a batch

  ghost predicate WrittenOff(d: DiscardTask, t0: Tables, t: Tables, id: Uuid) {
    EntryOf(t, id) == EntryOf(d.Written(t0, id), id)
  }

  ghost predicate AllWrittenOff(d: DiscardTask, t0: Tables, t: Tables, ids: set<Uuid>) {
    forall id {:trigger WrittenOff(d, t0, t, id)} :: id in ids ==> WrittenOff(d, t0, t, id)
  }

  lemma WrittenMoves(d: DiscardTask, t: Tables, id: Uuid)
    requires id in t.outbox && t.outbox[id].leasedUntil.Some?
    ensures OnlyRetires(t, d.Written(t, id), id, d.now)
  {
    TerminalGone(t, id, d.now, d.now, DISCARDED, "");
    LeasedRetires(t, id, d.now);
  }

  lemma WrittenLocal(d: DiscardTask, t: Tables, u: Tables, id: Uuid)
    requires EntryOf(t, id) == EntryOf(u, id)
    ensures EntryOf(d.Written(t, id), id) == EntryOf(d.Written(u, id), id)
  {
  }

  lemma WriteOneMore(d: DiscardTask, t0: Tables, t: Tables, done: set<Uuid>, id: Uuid)
    requires KeepsOthers(t0, t, done) && AllWrittenOff(d, t0, t, done) && id !in done
    requires id in t0.outbox && t0.outbox[id].leasedUntil.Some?
    ensures var t' := d.Written(t, id);
            KeepsOthers(t0, t', done + {id}) && AllWrittenOff(d, t0, t', done + {id})
  {
    var t' := d.Written(t, id);
    EntryKept(t0, t, done, id);
    WrittenLocal(d, t, t0, id);
    WrittenMoves(d, t, id);
    KeepsOneMore(t0, t, t', done, id);
    forall other | other in done ensures WrittenOff(d, t0, t', other) {
      assert WrittenOff(d, t0, t, other);
      EntryKept(t, t', {id}, other);
    }
  }

  method DiscardBatch(db: Database, d: DiscardTask, batch: set<Uuid>)
    requires forall id :: id in batch ==> id in db.outbox && db.outbox[id].leasedUntil.Some?
    modifies db
    ensures KeepsOthers(old(db.View()), db.View(), batch)
    ensures AllWrittenOff(d, old(db.View()), db.View(), batch)
  {
    ghost var t0 := db.View();
    var left := batch;
    while left != {}
      invariant left <= batch && KeepsOthers(t0, db.View(), batch - left)
      invariant AllWrittenOff(d, t0, db.View(), batch - left)
      decreases |left|
    {
      var id :| id in left;
      WriteOneMore(d, t0, db.View(), batch - left, id);
      var fails := (k: nat) => d.writeFails(id, k);
      var written := WriteWithRetry(db, id, d.now, DISCARDED, fails);
      assert forall k: nat :: fails(k) == d.writeFails(id, k);
      assert written <==> WriteSucceeds(d.writeFails, id);
      assert batch - (left - {id}) == batch - left + {id};
      left := left - {id};
    }
    assert batch - left == batch;
  }

  // ----------------------------------------------------------------- a turn

  ghost predicate OnceOver(d: DiscardTask, t: Tables, t': Tables, id: Uuid) {
    EntryOf(t', id) == EntryOf(d.Once(t, id), id)
  }

  ghost predicate AllOnceOver(d: DiscardTask, t: Tables, t': Tables, ids: set<Uuid>) {
    forall id {:trigger OnceOver(d, t, t', id)} :: id in ids ==> OnceOver(d, t, t', id)
  }

  // Ready rows of the scope, each claimed and written off once; nothing else
  // changed.
  ghost predicate Discarding(d: DiscardTask, t: Tables, t': Tables, taken: set<Uuid>) {
    taken <= d.Backlog(t) && KeepsOthers(t, t', taken) && AllOnceOver(d, t, t', taken)
  }

  lemma TurnIsDone(d: DiscardTask, t: Tables, t': Tables, batch: set<Uuid>)
    requires batch <= d.Backlog(t)
    requires var leased := t.(outbox := Lease(t.outbox, batch, d.until));
             KeepsOthers(leased, t', batch) && AllWrittenOff(d, leased, t', batch)
    ensures Discarding(d, t, t', batch)
  {
    var leased := t.(outbox := Lease(t.outbox, batch, d.until));
    LeaseKeeps(t, batch, d.until);
    KeepsTwice(t, leased, t', batch);
    forall id | id in batch ensures OnceOver(d, t, t', id) {
      assert WrittenOff(d, leased, t', id);
      WrittenLocal(d, leased, t.(outbox := Lease(t.outbox, {id}, d.until)), id);
    }
  }

  // What was taken is gone from the backlog, and nothing else is.
  lemma BacklogLeft(d: DiscardTask, t: Tables, t': Tables, taken: set<Uuid>)
    requires Discarding(d, t, t', taken)
    ensures d.Backlog(t') == d.Backlog(t) - taken
    ensures forall id :: id in d.Backlog(t') ==> t'.outbox[id] == t.outbox[id]
  {
    forall id
      ensures id in d.Backlog(t') <==> id in d.Backlog(t) - taken
      ensures id in d.Backlog(t') ==> t'.outbox[id] == t.outbox[id]
    {
      BacklogExact(d, t, id);
      BacklogExact(d, t', id);
      if id in taken {
        assert OnceOver(d, t, t', id);
        SameEntryClaimable(t', d.Once(t, id), id, d.now);
        WrittenMoves(d, t.(outbox := Lease(t.outbox, {id}, d.until)), id);
      } else {
        EntryKept(t, t', taken, id);
        SameEntryClaimable(t', t, id, d.now);
      }
    }
  }

  lemma TurnAdds(d: DiscardTask, t0: Tables, t: Tables, t': Tables, taken: set<Uuid>, batch: set<Uuid>)
    requires Discarding(d, t0, t, taken) && Discarding(d, t, t', batch)
    ensures Discarding(d, t0, t', taken + batch)
    ensures |d.Backlog(t')| + |batch| == |d.Backlog(t)|
  {
    BacklogLeft(d, t0, t, taken);
    BacklogSize(d, t, t', batch);
    KeepsMore(t0, t, t', taken, batch);
    forall id | id in taken + batch ensures OnceOver(d, t0, t', id) {
      RowAdds(d, t0, t, t', taken, batch, id);
    }
  }

  lemma BacklogSize(d: DiscardTask, t: Tables, t': Tables, batch: set<Uuid>)
    requires Discarding(d, t, t', batch)
    ensures |d.Backlog(t')| + |batch| == |d.Backlog(t)|
  {
    BacklogLeft(d, t, t', batch);
    SplitSize(d.Backlog(t), batch, d.Backlog(t'));
  }

  lemma SplitSize(all: set<Uuid>, part: set<Uuid>, rest: set<Uuid>)
    requires part <= all && rest == all - part
    ensures |rest| + |part| == |all|
  {
    assert all == rest + part;
  }

  lemma RowAdds(d: DiscardTask, t0: Tables, t: Tables, t': Tables, taken: set<Uuid>, batch: set<Uuid>, id: Uuid)
    requires KeepsOthers(t0, t, taken) && AllOnceOver(d, t0, t, taken)
    requires KeepsOthers(t, t', batch) && AllOnceOver(d, t, t', batch) && taken !! batch
    requires id in taken + batch
    ensures OnceOver(d, t0, t', id)
  {
    if id in taken {
      assert OnceOver(d, t0, t, id);
      EntryKept(t, t', batch, id);
    } else {
      assert OnceOver(d, t, t', id);
      EntryKept(t0, t, taken, id);
      WrittenLocal(d, t.(outbox := Lease(t.outbox, {id}, d.until)), t0.(outbox := Lease(t0.outbox, {id}, d.until)), id);
    }
  }

  // One turn of the loop. Its claim fails, changing nothing, exactly when the
  // batch it picked holds a row at the attempts limit.
  ghost predicate TurnOf(d: DiscardTask, batchSize: nat, t: Tables, t': Tables, batch: set<Uuid>, turn: Turn) {
    && IsBatch(t.outbox, d.Backlog(t), batchSize, batch)
    && (turn.ClaimFailed? <==> Overflows(t.outbox, batch))
    && match turn
       case ClaimFailed => t' == t
       case NothingLeft => batch == {} && t' == t
       case Took => batch != {} && Discarding(d, t, t', batch)
  }

  method DiscardTurn(db: Database, d: DiscardTask, batchSize: nat) returns (turn: Turn, ghost batch: set<Uuid>)
    modifies db
    ensures TurnOf(d, batchSize, old(db.View()), db.View(), batch, turn)
  {
    ghost var t := db.View();
    CandidatesAreBacklog(d, t);
    var claimed;
    claimed, batch := db.ClaimForScope(d.parse, None, d.switch, batchSize, d.now, d.until, NO_EXCLUSION);
    if claimed.None? {
      return ClaimFailed, batch;
    }
    if claimed.value == {} {
      assert db.outbox == t.outbox;
      return NothingLeft, batch;
    }
    DiscardBatch(db, d, claimed.value);
    TurnIsDone(d, t, db.View(), batch);
    turn := Took;
  }

  // --------------------------------------------------------------- the loop

  ghost predicate AllBelowLimit(d: DiscardTask, t: Tables) {
    forall id :: id in d.Backlog(t) ==> t.outbox[id].attempts < MAX_SMALLINT
  }

  // The books: turns, failed claims and the rows taken.
  ghost predicate Standing(d: DiscardTask, batchSize: nat, t0: Tables, t: Tables, turns: nat, failed: nat,
                           taken: set<Uuid>, done: bool)
  {
    && Discarding(d, t0, t, taken)
    && turns + |d.Backlog(t)| <= failed + |d.Backlog(t0)| + (if done then 1 else 0)
    && (AllBelowLimit(d, t) <==> AllBelowLimit(d, t0))
    && (AllBelowLimit(d, t0) ==> failed == 0)
    && (done && batchSize >= 1 ==> d.Backlog(t) == {})
  }

  lemma TurnVerdict(d: DiscardTask, batchSize: nat, t: Tables, t': Tables, batch: set<Uuid>, turn: Turn)
    requires TurnOf(d, batchSize, t, t', batch, turn)
    ensures AllBelowLimit(d, t') <==> AllBelowLimit(d, t)
    ensures AllBelowLimit(d, t) ==> !turn.ClaimFailed?
    ensures turn.NothingLeft? && batchSize >= 1 ==> d.Backlog(t) == {}
  {
    EmptyBatch(t.outbox, d.Backlog(t), batchSize, batch);
    if turn.Took? {
      BacklogLeft(d, t, t', batch);
    }
  }

  lemma TurnStands(d: DiscardTask, batchSize: nat, t0: Tables, t: Tables, t': Tables, turns: nat, failed: nat,
                   taken: set<Uuid>, batch: set<Uuid>, turn: Turn)
    requires Standing(d, batchSize, t0, t, turns, failed, taken, false)
    requires TurnOf(d, batchSize, t, t', batch, turn)
    ensures Standing(d, batchSize, t0, t', turns + 1, if turn.ClaimFailed? then failed + 1 else failed,
                     if turn.Took? then taken + batch else taken, turn.NothingLeft?)
  {
    TurnVerdict(d, batchSize, t, t', batch, turn);
    if turn.Took? {
      TurnAdds(d, t0, t, t', taken, batch);
      assert |batch| >= 1;
    }
  }

  lemma BeginStands(d: DiscardTask, batchSize: nat, t: Tables)
    ensures Standing(d, batchSize, t, t, 0, 0, {}, false)
  {
  }

  lemma EndsExact(d: DiscardTask, batchSize: nat, t0: Tables, t: Tables, turns: nat, failed: nat, taken: set<Uuid>,
                  done: bool, fuel: nat)
    requires Standing(d, batchSize, t0, t, turns, failed, taken, done) && batchSize >= 1
    requires fuel > |d.Backlog(t0)| && (!done ==> turns == fuel)
    ensures done <==> AllBelowLimit(d, t0)
    ensures done ==> d.Backlog(t) == {} && taken == d.Backlog(t0)
  {
    BacklogLeft(d, t0, t, taken);
  }

  // One more turn, entered in the books.
  method DiscardOn(db: Database, d: DiscardTask, batchSize: nat, ghost t0: Tables, ghost turns: nat, ghost failed: nat,
                   ghost taken: set<Uuid>)
    returns (done: bool, ghost failed': nat, ghost taken': set<Uuid>)
    requires Standing(d, batchSize, t0, db.View(), turns, failed, taken, false)
    modifies db
    ensures Standing(d, batchSize, t0, db.View(), turns + 1, failed', taken', done)
  {
    ghost var t, batch := db.View(), {};
    var turn;
    turn, batch := DiscardTurn(db, d, batchSize);
    TurnStands(d, batchSize, t0, t, db.View(), turns, failed, taken, batch, turn);
    done := turn.NothingLeft?;
    failed' := if turn.ClaimFailed? then failed + 1 else failed;
    taken' := if turn.Took? then taken + batch else taken;
  }

  // Discards an engaged switch's backlog, for at most `fuel` turns: each row
  // it took went through one claim and one write, nothing else changed, and,
  // given the turns, it ends with the whole backlog taken exactly when no row
  // of it stands at the attempts limit.
  method DiscardEngagedScope(db: Database, d: DiscardTask, batchSize: nat, fuel: nat)
    returns (done: bool, ghost taken: set<Uuid>)
    modifies db
    ensures Discarding(d, old(db.View()), db.View(), taken)
    ensures batchSize >= 1 && fuel > |d.Backlog(old(db.View()))| ==> (done <==> AllBelowLimit(d, old(db.View())))
    ensures batchSize >= 1 && done ==> d.Backlog(db.View()) == {} && taken == d.Backlog(old(db.View()))
  {
    ghost var t0, failed := db.View(), 0;
    var turns := 0;
    done, taken := false, {};
    BeginStands(d, batchSize, t0);
    while !done && turns < fuel
      invariant turns <= fuel && Standing(d, batchSize, t0, db.View(), turns, failed, taken, done)
      decreases fuel - turns
    {
      done, failed, taken := DiscardOn(db, d, batchSize, t0, turns, failed, taken);
      turns := turns + 1;
    }
    BacklogLeft(d, t0, db.View(), taken);
    if batchSize >= 1 && fuel > |d.Backlog(t0)| {
      EndsExact(d, batchSize, t0, db.View(), turns, failed, taken, done, fuel);
    }
  }
}
