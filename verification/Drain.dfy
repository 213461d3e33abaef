/**
 * The release drain as it runs on its own, with the clock standing still and
 * nobody else writing: what each turn does to each row, which turns make
 * progress, and exactly when the drain ends.
 */
module Drain {
  import opened Base
  import opened KillSwitch
  import opened Outbox
  import opened Delivery
  import opened Gates

  const MAX_WRITE_TERMINAL_ATTEMPTS: nat := 5

  // A terminal write retried a bounded number of times. `fails` says which
  // attempts the database refuses.
  method WriteWithRetry(db: Database, id: Uuid, now: Instant, status: EventType, fails: nat -> bool)
    returns (written: bool)
    modifies db
    ensures written <==> exists k :: 1 <= k <= MAX_WRITE_TERMINAL_ATTEMPTS && !fails(k)
    ensures db.View() == if written then WriteTerminal(old(db.View()), id, now, status, "") else old(db.View())
  {
    for attempt := 1 to MAX_WRITE_TERMINAL_ATTEMPTS + 1
      invariant db.View() == old(db.View())
      invariant forall k :: 1 <= k < attempt ==> fails(k)
    {
      if !fails(attempt) {
        db.Finalize(id, now, status, "");
        return true;
      }
    }
    written := false;
  }

  // ------------------------------------------------------- one row's effect

  // Nothing outside these rows changes.
  ghost predicate KeepsOthers(t: Tables, t': Tables, ids: set<Uuid>) {
    && t'.outbox.Keys <= t.outbox.Keys
    && (forall other :: other in t.outbox && other !in ids ==>
          other in t'.outbox && t'.outbox[other] == t.outbox[other])
    && t'.ledger.Keys == t.ledger.Keys
    && (forall other :: other in t.ledger && other !in ids ==> t'.ledger[other] == t.ledger[other])
  }

  ghost predicate Claimable(t: Tables, id: Uuid, now: Instant) {
    id in t.outbox && Ready(t.outbox[id], now)
  }

  // Everything but `id` is as before, and `id` cannot be claimed at `now`.
  ghost predicate OnlyRetires(t: Tables, t': Tables, id: Uuid, now: Instant) {
    KeepsOthers(t, t', {id}) && !Claimable(t', id, now)
  }

  // The gates put the row off to a time that has already come.
  predicate ComesBack(row: OutboxRow, now: Instant, a: Answers) {
    Gate(row, now, a).0.Deferred? && Gate(row, now, a).0.at <= now
  }

  lemma RescheduleMoves(t: Tables, id: Uuid, now: Instant, at: Instant)
    requires id in t.outbox
    ensures KeepsOthers(t, t.(outbox := Reschedule(t.outbox, id, at)), {id})
    ensures Claimable(t.(outbox := Reschedule(t.outbox, id, at)), id, now) <==> at <= now
  {
  }

  lemma LeasedRetires(t: Tables, id: Uuid, now: Instant)
    requires id in t.outbox && t.outbox[id].leasedUntil.Some?
    ensures OnlyRetires(t, t, id, now)
  {
  }

  // A retryable failure put the row off to a time already past: the clock ran
  // back by more than the backoff.
  predicate RetriesToPast(t: Tables, id: Uuid, row: OutboxRow, now: Instant, a: Answers)
    requires row.attempts >= 1
  {
    && id in t.outbox && t.outbox[id].cancelledAt.None? && !a.settleFails
    && a.result.Retryable? && row.attempts < MAX_SEND_ATTEMPTS && RetryAt(row, a) <= now
  }

  lemma ForwardRetries(t: Tables, id: Uuid, row: OutboxRow, now: Instant, a: Answers)
    requires row.attempts >= 1 && now <= a.writtenAt
    ensures !RetriesToPast(t, id, row, now, a)
  {
    BackoffBounds(row.attempts, row.attempts, a.jitter);
  }

  lemma TerminalGone(t: Tables, id: Uuid, at: Instant, now: Instant, status: EventType, providerRef: string)
    ensures OnlyRetires(t, WriteTerminal(t, id, at, status, providerRef), id, now)
  {
  }

  lemma SendMoves(t: Tables, id: Uuid, row: OutboxRow, now: Instant, a: Answers)
    requires id in t.outbox && t.outbox[id].leasedUntil.Some? && row.attempts >= 1
    ensures KeepsOthers(t, CheckAndSend(t, id, row, a), {id})
    ensures Claimable(CheckAndSend(t, id, row, a), id, now) <==> RetriesToPast(t, id, row, now, a)
  {
    LeasedRetires(t, id, now);
    if t.outbox[id].cancelledAt.Some? {
      TerminalGone(t, id, a.writtenAt, now, EventType.Cancelled, "");
    } else {
      match a.result
      case Accepted(providerRef) => TerminalGone(t, id, a.writtenAt, now, Sent, providerRef);
      case Rejected => TerminalGone(t, id, a.writtenAt, now, Failed, "");
      case Retryable =>
        TerminalGone(t, id, a.writtenAt, now, Failed, "");
        RescheduleMoves(t, id, now, RetryAt(row, a));
    }
  }

  lemma FinishMoves(t: Tables, id: Uuid, row: OutboxRow, now: Instant, a: Answers)
    requires id in t.outbox && t.outbox[id].leasedUntil.Some? && row.attempts >= 1
    ensures KeepsOthers(t, Finish(t, id, row, now, a), {id})
    ensures Claimable(Finish(t, id, row, now, a), id, now) <==>
            ComesBack(row, now, a) || (Gate(row, now, a).0.Pass? && RetriesToPast(t, id, row, now, a))
  {
    match Gate(row, now, a).0
    case Errored => LeasedRetires(t, id, now);
    case Blocked(status) => TerminalGone(t, id, a.writtenAt, now, status, "");
    case Deferred(at) => RescheduleMoves(t, id, now, at);
    case Pass => SendMoves(t, id, row, now, a);
  }

  // Whatever the gates, the provider and the database answer, a processed row
  // is out of reach at that time and nothing else changes, exactly unless it
  // was put off to a time already past: by a gate, or, the clock having run
  // back meanwhile, by a retry.
  lemma OutcomeRetires(t: Tables, id: Uuid, row: OutboxRow, now: Instant, a: Answers)
    requires id in t.outbox && t.outbox[id].leasedUntil.Some? && row.attempts >= 1
    ensures KeepsOthers(t, Outcome(t, id, row, now, a), {id})
    ensures OnlyRetires(t, Outcome(t, id, row, now, a), id, now) <==>
            !ComesBack(row, now, a) && !(Gate(row, now, a).0.Pass? && RetriesToPast(t, id, row, now, a))
  {
    FinishMoves(AfterGates(t, id, row, now, a), id, row, now, a);
  }

  // What the tables hold of one message.
  function EntryOf(t: Tables, id: Uuid): (Option<OutboxRow>, Option<Request>) {
    (if id in t.outbox then Some(t.outbox[id]) else None,
     if id in t.ledger then Some(t.ledger[id]) else None)
  }

  lemma EntryKept(t: Tables, t': Tables, ids: set<Uuid>, other: Uuid)
    requires KeepsOthers(t, t', ids) && other !in ids
    ensures EntryOf(t', other) == EntryOf(t, other)
  {
  }

  // Only the queue row decides whether a message can be claimed.
  lemma SameEntryClaimable(t: Tables, u: Tables, id: Uuid, now: Instant)
    requires EntryOf(t, id) == EntryOf(u, id)
    ensures Claimable(t, id, now) <==> Claimable(u, id, now)
    ensures id in t.outbox <==> id in u.outbox
    ensures id in t.outbox ==> t.outbox[id] == u.outbox[id]
  {
  }

  // ---------------------------------------------------------------- one drain

  ghost predicate WriteSucceeds(fails: (Uuid, nat) -> bool, id: Uuid) {
    exists k :: 1 <= k <= MAX_WRITE_TERMINAL_ATTEMPTS && !fails(id, k)
  }

  // The ready rows of a scope, and with `pin` those of one channel.
  ghost function ScopeBacklog(parse: UuidParser, t: Tables, pin: Option<string>, s: Switch, now: Instant): set<Uuid> {
    set id | id in t.outbox && Ready(t.outbox[id], now) && (pin.Some? ==> t.outbox[id].target.channel == pin.value)
             && Matches(parse, s, t.outbox[id].target)
  }

  // A released switch on one channel, with what the gates and the database
  // answer while it is drained.
  datatype DrainTask = DrainTask(
    parse: UuidParser, channel: string, switch: Switch, now: Instant, until: Instant,
    answers: Uuid -> Answers, writeFails: (Uuid, nat) -> bool)
  {
    ghost function Backlog(t: Tables): set<Uuid> {
      ScopeBacklog(parse, t, Some(channel), switch, now)
    }

    // What a claim that sees these switches engaged may take.
    function Candidates(t: Tables, engaged: seq<Switch>): set<Uuid> {
      ScopeCandidates(parse, t.outbox, Some(channel), switch, now, ExclusionFor(parse, engaged, channel))
    }

    predicate Returns(row: OutboxRow, id: Uuid) {
      ComesBack(row, now, AnswersFor(id))
    }

    // Every write of a hand-over falls on the drain's own clock.
    function AnswersFor(id: Uuid): Answers {
      answers(id).(observedAt := now, writtenAt := now)
    }

    // Handing on one claimed row: written off if expired (unless all five
    // writes are refused), otherwise the worker's outcome.
    ghost function Handled(t: Tables, id: Uuid, row: OutboxRow): Tables
      requires row.attempts >= 1
    {
      if !IsExpired(row, now) then Outcome(t, id, row, now, AnswersFor(id))
      else if WriteSucceeds(writeFails, id) then WriteTerminal(t, id, now, Expired, "")
      else t
    }

    // One claim of `id` alone and one hand-over.
    ghost function Once(t: Tables, id: Uuid): Tables {
      if id !in t.outbox || t.outbox[id].attempts < 0 then t
      else
        var u := t.(outbox := Lease(t.outbox, {id}, until));
        Handled(u, id, u.outbox[id])
    }

    ghost function Times(t: Tables, id: Uuid, n: nat): Tables {
      if n == 0 then t else Once(Times(t, id, n - 1), id)
    }
  }

  // The attempts column never holds a negative number.
  ghost predicate Counted(t: Tables) {
    forall id :: id in t.outbox ==> t.outbox[id].attempts >= 0
  }

  lemma BacklogIsClaimable(d: DrainTask, t: Tables, id: Uuid)
    ensures id in d.Backlog(t) <==>
            Claimable(t, id, d.now) && t.outbox[id].target.channel == d.channel
            && Matches(d.parse, d.switch, t.outbox[id].target)
  {
  }

  lemma CandidatesExact(d: DrainTask, t: Tables, engaged: seq<Switch>, id: Uuid)
    ensures id in d.Candidates(t, engaged) <==>
            id in d.Backlog(t) && !MatchedBySome(d.parse, engaged, t.outbox[id].target)
  {
    ScopeCandidatesExact(d.parse, t.outbox, d.channel, d.switch, d.now, engaged, id);
  }

  // Whether the gates put a row off does not depend on its claim.
  lemma ClaimSameVerdict(d: DrainTask, row: OutboxRow, id: Uuid)
    ensures d.Returns(Leased(row, d.until), id) <==> d.Returns(row, id)
    ensures IsExpired(Leased(row, d.until), d.now) <==> IsExpired(row, d.now)
  {
  }

  lemma ExpiredStays(d: DrainTask, row: OutboxRow, id: Uuid)
    requires IsExpired(row, d.now)
    ensures !d.Returns(row, id)
  {
  }

  lemma HandledMoves(d: DrainTask, t: Tables, id: Uuid, row: OutboxRow)
    requires id in t.outbox && t.outbox[id].leasedUntil.Some? && row.attempts >= 1
    ensures KeepsOthers(t, d.Handled(t, id, row), {id})
    ensures Claimable(d.Handled(t, id, row), id, d.now) <==> d.Returns(row, id)
  {
    if IsExpired(row, d.now) {
      TerminalGone(t, id, d.now, d.now, Expired, "");
      LeasedRetires(t, id, d.now);
      ExpiredStays(d, row, id);
    } else {
      OutcomeRetires(t, id, row, d.now, d.AnswersFor(id));
      ForwardRetries(t, id, row, d.now, d.AnswersFor(id));
    }
  }

  // ------------------------------------------- a message's own rows decide

  lemma SendLocal(t: Tables, u: Tables, id: Uuid, row: OutboxRow, a: Answers)
    requires EntryOf(t, id) == EntryOf(u, id) && row.attempts >= 1
    ensures EntryOf(CheckAndSend(t, id, row, a), id) == EntryOf(CheckAndSend(u, id, row, a), id)
  {
  }

  lemma TerminalLocal(t: Tables, u: Tables, id: Uuid, now: Instant, status: EventType)
    requires EntryOf(t, id) == EntryOf(u, id)
    ensures EntryOf(WriteTerminal(t, id, now, status, ""), id) == EntryOf(WriteTerminal(u, id, now, status, ""), id)
  {
  }

  lemma FinishLocal(t: Tables, u: Tables, id: Uuid, row: OutboxRow, now: Instant, a: Answers)
    requires EntryOf(t, id) == EntryOf(u, id) && row.attempts >= 1
    ensures EntryOf(Finish(t, id, row, now, a), id) == EntryOf(Finish(u, id, row, now, a), id)
  {
    match Gate(row, now, a).0
    case Errored =>
    case Blocked(status) => TerminalLocal(t, u, id, a.writtenAt, status);
    case Deferred(at) =>
    case Pass => SendLocal(t, u, id, row, a);
  }

  lemma HandledLocal(d: DrainTask, t: Tables, u: Tables, id: Uuid, row: OutboxRow)
    requires EntryOf(t, id) == EntryOf(u, id) && row.attempts >= 1
    ensures EntryOf(d.Handled(t, id, row), id) == EntryOf(d.Handled(u, id, row), id)
  {
    var a := d.AnswersFor(id);
    if IsExpired(row, d.now) {
      TerminalLocal(t, u, id, d.now, Expired);
    } else {
      FinishLocal(AfterGates(t, id, row, d.now, a), AfterGates(u, id, row, d.now, a), id, row, d.now, a);
    }
  }

  // It makes no difference which other rows a claim took.
  lemma ClaimLocal(d: DrainTask, t: Tables, u: Tables, batch: set<Uuid>, id: Uuid)
    requires EntryOf(t, id) == EntryOf(u, id) && id in t.outbox && t.outbox[id].attempts >= 0 && id in batch
    ensures var leased := t.(outbox := Lease(t.outbox, batch, d.until));
            EntryOf(d.Handled(leased, id, leased.outbox[id]), id) == EntryOf(d.Once(u, id), id)
  {
    var leased, one := t.(outbox := Lease(t.outbox, batch, d.until)), u.(outbox := Lease(u.outbox, {id}, d.until));
    assert EntryOf(leased, id) == EntryOf(one, id);
    HandledLocal(d, leased, one, id, leased.outbox[id]);
  }

  lemma OnceLocal(d: DrainTask, t: Tables, u: Tables, id: Uuid)
    requires EntryOf(t, id) == EntryOf(u, id)
    ensures EntryOf(d.Once(t, id), id) == EntryOf(d.Once(u, id), id)
  {
    if id in t.outbox && t.outbox[id].attempts >= 0 {
      ClaimLocal(d, t, t, {id}, id);
      ClaimLocal(d, t, u, {id}, id);
    }
  }

  // A row that comes back is the same row, one attempt on, claimable again.
  lemma OnceReturns(d: DrainTask, t: Tables, id: Uuid)
    requires id in t.outbox && t.outbox[id].attempts >= 0 && d.Returns(t.outbox[id], id)
    ensures id in d.Once(t, id).outbox && d.Once(t, id).outbox[id].attempts == t.outbox[id].attempts + 1
    ensures d.Once(t, id).outbox[id].target == t.outbox[id].target
    ensures Claimable(d.Once(t, id), id, d.now) && d.Returns(d.Once(t, id).outbox[id], id)
  {
    ClaimSameVerdict(d, t.outbox[id], id);
    if IsExpired(t.outbox[id], d.now) {
      ExpiredStays(d, t.outbox[id], id);
    }
  }

  // ------------------------------------------------------------- a batch

  // `id`, claimed as `t0` has it, was handed on in `t`.
  ghost predicate HandedOn(d: DrainTask, t0: Tables, t: Tables, id: Uuid) {
    && id in t0.outbox && t0.outbox[id].attempts >= 1
    && EntryOf(t, id) == EntryOf(d.Handled(t0, id, t0.outbox[id]), id)
  }

  ghost predicate AllHandedOn(d: DrainTask, t0: Tables, t: Tables, ids: set<Uuid>) {
    forall id {:trigger HandedOn(d, t0, t, id)} :: id in ids ==> HandedOn(d, t0, t, id)
  }

  lemma KeepsOneMore(t: Tables, t1: Tables, t2: Tables, ids: set<Uuid>, id: Uuid)
    requires KeepsOthers(t, t1, ids) && KeepsOthers(t1, t2, {id})
    ensures KeepsOthers(t, t2, ids + {id})
  {
  }

  lemma HandOneMore(d: DrainTask, t0: Tables, t: Tables, done: set<Uuid>, id: Uuid)
    requires KeepsOthers(t0, t, done) && AllHandedOn(d, t0, t, done) && id !in done
    requires id in t0.outbox && t0.outbox[id].leasedUntil.Some? && t0.outbox[id].attempts >= 1
    ensures id in t.outbox && t.outbox[id] == t0.outbox[id]
    ensures var t' := d.Handled(t, id, t0.outbox[id]);
            KeepsOthers(t0, t', done + {id}) && AllHandedOn(d, t0, t', done + {id})
  {
    var row := t0.outbox[id];
    var t' := d.Handled(t, id, row);
    EntryKept(t0, t, done, id);
    HandledLocal(d, t, t0, id, row);
    HandledMoves(d, t, id, row);
    KeepsOneMore(t0, t, t', done, id);
    forall other | other in done ensures HandedOn(d, t0, t', other) {
      assert HandedOn(d, t0, t, other);
      EntryKept(t, t', {id}, other);
    }
  }

  method HandOn(worker: Worker, d: DrainTask, id: Uuid, row: OutboxRow)
    requires row.attempts >= 1
    modifies worker.db
    ensures worker.db.View() == d.Handled(old(worker.db.View()), id, row)
  {
    if IsExpired(row, d.now) {
      var fails := (k: nat) => d.writeFails(id, k);
      var written := WriteWithRetry(worker.db, id, d.now, Expired, fails);
      assert forall k: nat :: fails(k) == d.writeFails(id, k);
      assert written <==> WriteSucceeds(d.writeFails, id);
    } else {
      var _ := worker.TryProcess(id, row, d.now, d.AnswersFor(id));
    }
  }

  // Hands each claimed row on: expired ones are written off, the others go
  // through the worker. Each ends as if it alone had been handed on.
  method ProcessBatch(worker: Worker, d: DrainTask, batch: set<Uuid>)
    requires forall id :: id in batch ==>
               && id in worker.db.outbox && worker.db.outbox[id].leasedUntil.Some?
               && 1 <= worker.db.outbox[id].attempts
    modifies worker.db
    ensures KeepsOthers(old(worker.db.View()), worker.db.View(), batch)
    ensures AllHandedOn(d, old(worker.db.View()), worker.db.View(), batch)
  {
    var db := worker.db;
    ghost var t0 := db.View();
    var left := batch;
    while left != {}
      invariant left <= batch
      invariant KeepsOthers(t0, db.View(), batch - left)
      invariant AllHandedOn(d, t0, db.View(), batch - left)
      decreases |left|
    {
      var id :| id in left;
      HandOneMore(d, t0, db.View(), batch - left, id);
      HandOn(worker, d, id, db.outbox[id]);
      assert batch - (left - {id}) == batch - left + {id};
      left := left - {id};
    }
    assert batch - left == batch;
  }

  // --------------------------------------------------------------- a turn

  ghost predicate OnceOver(d: DrainTask, t: Tables, t': Tables, id: Uuid) {
    EntryOf(t', id) == EntryOf(d.Once(t, id), id)
  }

  // A turn that took this batch: ready rows of the scope, each claimed and
  // handed on once; nothing else changed.
  ghost predicate TurnDone(d: DrainTask, t: Tables, t': Tables, batch: set<Uuid>) {
    && batch <= d.Backlog(t) && KeepsOthers(t, t', batch)
    && forall id {:trigger OnceOver(d, t, t', id)} :: id in batch ==> OnceOver(d, t, t', id)
  }

  lemma LeaseKeeps(t: Tables, batch: set<Uuid>, until: Instant)
    ensures KeepsOthers(t, t.(outbox := Lease(t.outbox, batch, until)), batch)
  {
  }

  lemma KeepsTwice(t: Tables, t1: Tables, t2: Tables, ids: set<Uuid>)
    requires KeepsOthers(t, t1, ids) && KeepsOthers(t1, t2, ids)
    ensures KeepsOthers(t, t2, ids)
  {
  }

  lemma TurnIsDone(d: DrainTask, t: Tables, t': Tables, batch: set<Uuid>)
    requires Counted(t) && batch <= d.Backlog(t)
    requires var leased := t.(outbox := Lease(t.outbox, batch, d.until));
             KeepsOthers(leased, t', batch) && AllHandedOn(d, leased, t', batch)
    ensures TurnDone(d, t, t', batch)
  {
    var leased := t.(outbox := Lease(t.outbox, batch, d.until));
    LeaseKeeps(t, batch, d.until);
    KeepsTwice(t, leased, t', batch);
    forall id | id in batch ensures OnceOver(d, t, t', id) {
      assert HandedOn(d, leased, t', id);
      ClaimLocal(d, t, t, batch, id);
    }
  }

  // Which rows a turn leaves claimable.
  lemma TurnBacklog(d: DrainTask, t: Tables, t': Tables, batch: set<Uuid>, id: Uuid)
    requires Counted(t) && TurnDone(d, t, t', batch)
    ensures id in d.Backlog(t') <==> id in d.Backlog(t) && (id in batch ==> d.Returns(t.outbox[id], id))
    ensures id in d.Backlog(t') ==>
              && t'.outbox[id].target == t.outbox[id].target
              && t'.outbox[id].attempts == t.outbox[id].attempts + (if id in batch then 1 else 0)
              && (d.Returns(t'.outbox[id], id) <==> d.Returns(t.outbox[id], id))
  {
    BacklogIsClaimable(d, t, id);
    BacklogIsClaimable(d, t', id);
    if id in batch {
      assert OnceOver(d, t, t', id);
      SameEntryClaimable(t', d.Once(t, id), id, d.now);
      OnceClaimable(d, t, id);
      if d.Returns(t.outbox[id], id) {
        OnceReturns(d, t, id);
      }
    } else {
      EntryKept(t, t', batch, id);
      SameEntryClaimable(t', t, id, d.now);
    }
  }

  lemma OnceClaimable(d: DrainTask, t: Tables, id: Uuid)
    requires id in t.outbox && t.outbox[id].attempts >= 0
    ensures Claimable(d.Once(t, id), id, d.now) <==> d.Returns(t.outbox[id], id)
  {
    var u := t.(outbox := Lease(t.outbox, {id}, d.until));
    HandledMoves(d, u, id, u.outbox[id]);
    ClaimSameVerdict(d, t.outbox[id], id);
  }

  // A turn shrinks the backlog exactly when some row it took is not put off
  // to a time already past.
  lemma TurnShrinks(d: DrainTask, t: Tables, t': Tables, batch: set<Uuid>)
    requires Counted(t) && TurnDone(d, t, t', batch)
    ensures d.Backlog(t') <= d.Backlog(t)
    ensures |d.Backlog(t')| < |d.Backlog(t)| <==> exists id :: id in batch && !d.Returns(t.outbox[id], id)
    ensures |d.Backlog(t')| <= |d.Backlog(t)|
  {
    var before, after := d.Backlog(t), d.Backlog(t');
    forall id ensures id in after <==> id in before && (id in batch ==> d.Returns(t.outbox[id], id)) {
      TurnBacklog(d, t, t', batch, id);
    }
    if id :| id in batch && !d.Returns(t.outbox[id], id) {
      Smaller(after, before, id);
    } else {
      assert after == before;
    }
  }

  lemma Smaller(a: set<Uuid>, b: set<Uuid>, x: Uuid)
    requires a <= b && x in b && x !in a
    ensures |a| < |b|
  {
    assert a <= b - {x};
    SubsetSize(a, b - {x});
  }

  lemma {:induction false} SubsetSize(a: set<Uuid>, b: set<Uuid>)
    requires a <= b
    ensures |a| <= |b|
    decreases |a|
  {
    if a == {} {
    } else {
      var x :| x in a;
      SubsetSize(a - {x}, b - {x});
    }
  }

  lemma TurnCounted(d: DrainTask, t: Tables, t': Tables, batch: set<Uuid>)
    requires Counted(t) && TurnDone(d, t, t', batch)
    ensures Counted(t')
  {
    forall id | id in t'.outbox ensures t'.outbox[id].attempts >= 0 {
      if id in batch {
        assert OnceOver(d, t, t', id);
        OnceCounted(d, t, id);
      } else {
        EntryKept(t, t', batch, id);
      }
    }
  }

  lemma OnceCounted(d: DrainTask, t: Tables, id: Uuid)
    requires id in t.outbox && t.outbox[id].attempts >= 0 && id in d.Once(t, id).outbox
    ensures d.Once(t, id).outbox[id].attempts == t.outbox[id].attempts + 1
  {
    var u := t.(outbox := Lease(t.outbox, {id}, d.until));
    HandledCounted(d, u, id, u.outbox[id]);
  }

  lemma DecidedCounted(v: Verdict, t: Tables, id: Uuid, row: OutboxRow, a: Answers)
    requires row.attempts >= 1 && id in Decided(v, t, id, row, a).outbox
    ensures id in t.outbox && Decided(v, t, id, row, a).outbox[id].attempts == t.outbox[id].attempts
  {
  }

  lemma HandledCounted(d: DrainTask, t: Tables, id: Uuid, row: OutboxRow)
    requires row.attempts >= 1 && id in d.Handled(t, id, row).outbox
    ensures id in t.outbox && d.Handled(t, id, row).outbox[id].attempts == t.outbox[id].attempts
  {
    if !IsExpired(row, d.now) {
      var a := d.AnswersFor(id);
      DecidedCounted(Gate(row, d.now, a).0, AfterGates(t, id, row, d.now, a), id, row, a);
    }
  }

  datatype Turn = ClaimFailed | NothingLeft | Took

  // One turn of the loop, seeing these switches engaged: its claim fails,
  // changing nothing, exactly when the batch it picked holds a row at the
  // attempts limit.
  ghost predicate TurnOf(d: DrainTask, rate: nat, engaged: seq<Switch>, t: Tables, t': Tables, batch: set<Uuid>,
                         turn: Turn)
  {
    && IsBatch(t.outbox, d.Candidates(t, engaged), rate, batch)
    && (turn.ClaimFailed? <==> Overflows(t.outbox, batch))
    && match turn
       case ClaimFailed => t' == t
       case NothingLeft => batch == {} && t' == t
       case Took => batch != {} && TurnDone(d, t, t', batch)
  }

  method DrainBatch(worker: Worker, d: DrainTask, rate: nat, engaged: seq<Switch>)
    returns (turn: Turn, ghost batch: set<Uuid>)
    requires Counted(worker.db.View())
    modifies worker.db
    ensures TurnOf(d, rate, engaged, old(worker.db.View()), worker.db.View(), batch, turn)
  {
    var db := worker.db;
    ghost var t := db.View();
    var exclusion := BuildExclusion(d.parse, engaged, d.channel);
    var claimed;
    claimed, batch := db.ClaimForScope(d.parse, Some(d.channel), d.switch, rate, d.now, d.until, exclusion);
    CandidatesInBacklog(d, t, engaged);
    if claimed.None? {
      return ClaimFailed, batch;
    }
    if claimed.value == {} {
      assert db.outbox == t.outbox;
      return NothingLeft, batch;
    }
    ProcessBatch(worker, d, claimed.value);
    TurnIsDone(d, t, db.View(), batch);
    turn := Took;
  }

  lemma CandidatesInBacklog(d: DrainTask, t: Tables, engaged: seq<Switch>)
    ensures d.Candidates(t, engaged) <= d.Backlog(t)
  {
    forall id | id in d.Candidates(t, engaged) ensures id in d.Backlog(t) {
      CandidatesExact(d, t, engaged, id);
    }
  }

  // Every ready row of the scope is under a switch of the list.
  ghost predicate Covered(d: DrainTask, t: Tables, engaged: seq<Switch>) {
    forall id :: id in d.Backlog(t) ==> MatchedBySome(d.parse, engaged, t.outbox[id].target)
  }

  lemma NothingLeftMeansCovered(d: DrainTask, rate: nat, engaged: seq<Switch>, t: Tables, t': Tables, batch: set<Uuid>)
    requires TurnOf(d, rate, engaged, t, t', batch, NothingLeft) && rate >= 1
    ensures d.Candidates(t, engaged) == {} && Covered(d, t, engaged)
  {
    EmptyBatch(t.outbox, d.Candidates(t, engaged), rate, batch);
    forall id | id in d.Backlog(t) ensures MatchedBySome(d.parse, engaged, t.outbox[id].target) {
      CandidatesExact(d, t, engaged, id);
    }
  }

  // --------------------------------------------------------- what ends a drain

  // A row a drain never gets rid of: put off to the past again and again, or
  // failing every claim that picks it.
  predicate Sticks(d: DrainTask, row: OutboxRow, id: Uuid) {
    d.Returns(row, id) || row.attempts >= MAX_SMALLINT
  }

  ghost predicate AllGo(d: DrainTask, t: Tables, engaged: seq<Switch>) {
    forall id :: id in d.Candidates(t, engaged) ==> !Sticks(d, t.outbox[id], id)
  }

  // A candidate after a turn was one before; if it was not taken it is the
  // same row.
  lemma CandidateMoves(d: DrainTask, engaged: seq<Switch>, t: Tables, t': Tables, batch: set<Uuid>, id: Uuid)
    requires Counted(t) && TurnDone(d, t, t', batch)
    ensures id in d.Candidates(t', engaged) <==>
            id in d.Candidates(t, engaged) && (id in batch ==> d.Returns(t.outbox[id], id))
    ensures id in d.Candidates(t', engaged) ==>
              && t'.outbox[id].attempts == t.outbox[id].attempts + (if id in batch then 1 else 0)
              && (d.Returns(t'.outbox[id], id) <==> d.Returns(t.outbox[id], id))
  {
    TurnBacklog(d, t, t', batch, id);
    CandidatesExact(d, t, engaged, id);
    CandidatesExact(d, t', engaged, id);
  }

  // A turn changes nothing about whether rows stick.
  lemma TurnKeepsVerdict(d: DrainTask, rate: nat, engaged: seq<Switch>, t: Tables, t': Tables, batch: set<Uuid>,
                         turn: Turn)
    requires Counted(t) && TurnOf(d, rate, engaged, t, t', batch, turn)
    ensures AllGo(d, t', engaged) <==> AllGo(d, t, engaged)
    ensures AllGo(d, t, engaged) ==> !turn.ClaimFailed? && (turn.Took? ==> |d.Backlog(t')| < |d.Backlog(t)|)
  {
    if turn.Took? {
      forall id
        ensures id in d.Candidates(t, engaged) && Sticks(d, t.outbox[id], id) ==>
                  id in d.Candidates(t', engaged) && Sticks(d, t'.outbox[id], id)
        ensures id in d.Candidates(t', engaged) && !Sticks(d, t.outbox[id], id) ==> !Sticks(d, t'.outbox[id], id)
        ensures id in d.Candidates(t', engaged) ==> id in d.Candidates(t, engaged)
      {
        CandidateMoves(d, engaged, t, t', batch, id);
      }
      TurnShrinks(d, t, t', batch);
      var id :| id in batch;
    }
  }

  ghost predicate NoneSticks(d: DrainTask, t: Tables) {
    forall id :: id in d.Backlog(t) ==> !Sticks(d, t.outbox[id], id)
  }

  lemma TurnKeepsGoing(d: DrainTask, rate: nat, engaged: seq<Switch>, t: Tables, t': Tables, batch: set<Uuid>, turn: Turn)
    requires Counted(t) && TurnOf(d, rate, engaged, t, t', batch, turn) && NoneSticks(d, t)
    ensures NoneSticks(d, t') && !turn.ClaimFailed? && (turn.Took? ==> |d.Backlog(t')| < |d.Backlog(t)|)
  {
    CandidatesInBacklog(d, t, engaged);
    if turn.Took? {
      forall id | id in d.Backlog(t') ensures !Sticks(d, t'.outbox[id], id) {
        TurnBacklog(d, t, t', batch, id);
      }
      TurnShrinks(d, t, t', batch);
      var id :| id in batch;
    }
  }

  // -------------------------------------------------------------- the loop

  ghost predicate Reached(d: DrainTask, t0: Tables, t: Tables, id: Uuid, n: nat) {
    EntryOf(t, id) == EntryOf(d.Times(t0, id, n), id)
  }

  // Where a drain that began in `t0` stands in `t`: each row it took, a ready
  // one of its scope and channel, went through that many claims and
  // hand-overs; nothing else changed.
  ghost predicate Draining(d: DrainTask, t0: Tables, t: Tables, times: map<Uuid, nat>) {
    && Counted(t) && KeepsOthers(t0, t, times.Keys)
    && times.Keys <= d.Backlog(t0) && d.Backlog(t) <= d.Backlog(t0) && AllReached(d, t0, t, times)
  }

  ghost predicate AllReached(d: DrainTask, t0: Tables, t: Tables, times: map<Uuid, nat>) {
    forall id {:trigger Reached(d, t0, t, id, times[id])} :: id in times ==> Reached(d, t0, t, id, times[id])
  }

  ghost function CountOf(times: map<Uuid, nat>, id: Uuid): nat {
    if id in times then times[id] else 0
  }

  ghost function Added(times: map<Uuid, nat>, batch: set<Uuid>): map<Uuid, nat> {
    map id | id in times.Keys + batch :: CountOf(times, id) + if id in batch then 1 else 0
  }

  lemma TurnAdds(d: DrainTask, t0: Tables, t: Tables, t': Tables, times: map<Uuid, nat>, batch: set<Uuid>)
    requires Draining(d, t0, t, times) && TurnDone(d, t, t', batch)
    ensures Draining(d, t0, t', Added(times, batch))
  {
    TurnCounted(d, t, t', batch);
    TurnShrinks(d, t, t', batch);
    KeepsMore(t0, t, t', times.Keys, batch);
    assert Added(times, batch).Keys == times.Keys + batch;
    ReachedAdds(d, t0, t, t', times, batch);
  }

  lemma ReachedAdds(d: DrainTask, t0: Tables, t: Tables, t': Tables, times: map<Uuid, nat>, batch: set<Uuid>)
    requires Draining(d, t0, t, times) && TurnDone(d, t, t', batch)
    ensures AllReached(d, t0, t', Added(times, batch))
  {
    var more := Added(times, batch);
    forall id | id in more ensures Reached(d, t0, t', id, more[id]) {
      RowAdds(d, t0, t, t', times, batch, id);
    }
  }

  lemma KeepsMore(t: Tables, t1: Tables, t2: Tables, ids: set<Uuid>, more: set<Uuid>)
    requires KeepsOthers(t, t1, ids) && KeepsOthers(t1, t2, more)
    ensures KeepsOthers(t, t2, ids + more)
  {
  }

  lemma RowAdds(d: DrainTask, t0: Tables, t: Tables, t': Tables, times: map<Uuid, nat>, batch: set<Uuid>, id: Uuid)
    requires Draining(d, t0, t, times) && TurnDone(d, t, t', batch) && id in times.Keys + batch
    ensures Reached(d, t0, t', id, CountOf(times, id) + if id in batch then 1 else 0)
  {
    var n := CountOf(times, id);
    if id in times {
      assert Reached(d, t0, t, id, times[id]);
    } else {
      EntryKept(t0, t, times.Keys, id);
    }
    assert Reached(d, t0, t, id, n);
    if id in batch {
      assert OnceOver(d, t, t', id);
      OnceLocal(d, t, d.Times(t0, id, n), id);
    } else {
      EntryKept(t, t', batch, id);
    }
  }

  lemma DrainingNothing(d: DrainTask, t: Tables)
    requires Counted(t)
    ensures Draining(d, t, t, map[])
  {
  }

  // Turns so far: failed claims, turns that took rows but freed none, and the
  // last, empty one.
  datatype Log = Log(turns: nat, failed: nat, idle: nat, times: map<Uuid, nat>)

  ghost predicate Logged(d: DrainTask, t0: Tables, t: Tables, log: Log, done: bool) {
    && Draining(d, t0, t, log.times)
    && log.turns + |d.Backlog(t)| <= log.failed + log.idle + |d.Backlog(t0)| + if done then 1 else 0
  }

  ghost function Entered(d: DrainTask, t: Tables, t': Tables, log: Log, batch: set<Uuid>, turn: Turn): Log {
    match turn
    case ClaimFailed => log.(turns := log.turns + 1, failed := log.failed + 1)
    case NothingLeft => log.(turns := log.turns + 1)
    case Took =>
      log.(turns := log.turns + 1, times := Added(log.times, batch),
           idle := if |d.Backlog(t')| < |d.Backlog(t)| then log.idle else log.idle + 1)
  }

  lemma TurnLogged(d: DrainTask, rate: nat, engaged: seq<Switch>, t0: Tables, t: Tables, t': Tables, log: Log,
                   batch: set<Uuid>, turn: Turn)
    requires Logged(d, t0, t, log, false) && TurnOf(d, rate, engaged, t, t', batch, turn)
    ensures Logged(d, t0, t', Entered(d, t, t', log, batch, turn), turn.NothingLeft?)
  {
    if turn.Took? {
      TurnAdds(d, t0, t, t', log.times, batch);
      TurnShrinks(d, t, t', batch);
    }
  }

  // The books of a drain whose every turn, if `steady`, sees the same
  // switches engaged.
  ghost predicate Standing(d: DrainTask, rate: nat, engaged: seq<Switch>, steady: bool, t0: Tables, t: Tables, log: Log,
                           done: bool)
  {
    && Logged(d, t0, t, log, done)
    && (steady ==> (AllGo(d, t, engaged) <==> AllGo(d, t0, engaged)))
    && (steady && AllGo(d, t0, engaged) ==> log.failed == 0 && log.idle == 0)
    && (steady && done && rate >= 1 ==> AllGo(d, t0, engaged))
    && (NoneSticks(d, t0) ==> NoneSticks(d, t) && log.failed == 0 && log.idle == 0)
  }

  lemma TurnStands(d: DrainTask, rate: nat, engaged: seq<Switch>, steady: bool, t0: Tables, t: Tables, t': Tables,
                   log: Log, now: seq<Switch>, batch: set<Uuid>, turn: Turn)
    requires Standing(d, rate, engaged, steady, t0, t, log, false) && TurnOf(d, rate, now, t, t', batch, turn)
    requires steady ==> now == engaged
    ensures Standing(d, rate, engaged, steady, t0, t', Entered(d, t, t', log, batch, turn), turn.NothingLeft?)
    ensures turn.NothingLeft? && rate >= 1 ==> Covered(d, t', now)
  {
    TurnLogged(d, rate, now, t0, t, t', log, batch, turn);
    TurnKeepsVerdict(d, rate, now, t, t', batch, turn);
    if NoneSticks(d, t) {
      TurnKeepsGoing(d, rate, now, t, t', batch, turn);
    }
    if turn.NothingLeft? && rate >= 1 {
      NothingLeftMeansCovered(d, rate, now, t, t', batch);
    }
  }

  lemma BeginStands(d: DrainTask, rate: nat, engaged: seq<Switch>, steady: bool, t: Tables)
    requires Counted(t)
    ensures Standing(d, rate, engaged, steady, t, t, Log(0, 0, 0, map[]), false)
  {
    DrainingNothing(d, t);
  }

  // One more turn, entered in the books.
  method DrainOn(worker: Worker, d: DrainTask, rate: nat, now: seq<Switch>, ghost first: seq<Switch>,
                 ghost steady: bool, ghost t0: Tables, ghost log: Log)
    returns (done: bool, ghost log': Log)
    requires Standing(d, rate, first, steady, t0, worker.db.View(), log, false) && (steady ==> now == first)
    modifies worker.db
    ensures Standing(d, rate, first, steady, t0, worker.db.View(), log', done) && log'.turns == log.turns + 1
    ensures done && rate >= 1 ==> Covered(d, worker.db.View(), now)
  {
    ghost var t, batch := worker.db.View(), {};
    var turn;
    turn, batch := DrainBatch(worker, d, rate, now);
    TurnStands(d, rate, first, steady, t0, t, worker.db.View(), log, now, batch, turn);
    log' := Entered(d, t, worker.db.View(), log, batch, turn);
    done := turn.NothingLeft?;
  }

  // The loop itself.
  method DrainTurns(worker: Worker, d: DrainTask, rate: nat, engaged: nat -> seq<Switch>, fuel: nat,
                    ghost first: seq<Switch>, ghost steady: bool)
    returns (done: bool, ghost log: Log)
    requires Counted(worker.db.View()) && (steady ==> forall k :: engaged(k) == first)
    modifies worker.db
    ensures Standing(d, rate, first, steady, old(worker.db.View()), worker.db.View(), log, done)
    ensures log.turns <= fuel && (!done ==> log.turns == fuel)
    ensures done ==> log.turns >= 1 && (rate >= 1 ==> Covered(d, worker.db.View(), engaged(log.turns - 1)))
  {
    ghost var t0 := worker.db.View();
    var turns := 0;
    log, done := Log(0, 0, 0, map[]), false;
    BeginStands(d, rate, first, steady, t0);
    while !done && turns < fuel
      invariant turns == log.turns <= fuel
      invariant Standing(d, rate, first, steady, t0, worker.db.View(), log, done)
      invariant done ==> turns >= 1 && (rate >= 1 ==> Covered(d, worker.db.View(), engaged(turns - 1)))
      decreases fuel - turns
    {
      done, log := DrainOn(worker, d, rate, engaged(turns), first, steady, t0, log);
      turns := turns + 1;
    }
  }

  lemma EndsWhenNoneSticks(d: DrainTask, rate: nat, engaged: seq<Switch>, steady: bool, t0: Tables, t: Tables, log: Log,
                           done: bool, fuel: nat)
    requires Standing(d, rate, engaged, steady, t0, t, log, done) && NoneSticks(d, t0)
    requires fuel > |d.Backlog(t0)| && (!done ==> log.turns == fuel)
    ensures done
  {
  }

  // Given the turns, a steady drain ends exactly when nothing sticks.
  lemma EndsExact(d: DrainTask, rate: nat, engaged: seq<Switch>, t0: Tables, t: Tables, log: Log, done: bool, fuel: nat)
    requires Standing(d, rate, engaged, true, t0, t, log, done) && rate >= 1
    requires fuel > |d.Backlog(t0)| && (!done ==> log.turns == fuel)
    ensures done <==> AllGo(d, t0, engaged)
  {
  }

  // Drains a released `hold` switch on one channel, for at most `fuel` turns.
  // `engaged(k)` is the engaged set the k-th turn sees.
  method DrainReleasedScope(worker: Worker, d: DrainTask, rate: nat, engaged: nat -> seq<Switch>, fuel: nat)
    returns (done: bool, ghost log: Log)
    requires Counted(worker.db.View())
    modifies worker.db
    ensures Logged(d, old(worker.db.View()), worker.db.View(), log, done)
    ensures log.turns <= fuel && (!done ==> log.turns == fuel)
    // It ends when whatever is left is under a switch the last turn saw.
    ensures done ==> log.turns >= 1 && (rate >= 1 ==> Covered(d, worker.db.View(), engaged(log.turns - 1)))
    // Whatever is engaged meanwhile, it ends if no row of the scope sticks.
    ensures NoneSticks(d, old(worker.db.View())) && fuel > |d.Backlog(old(worker.db.View()))| ==> done
    // With the engaged set standing still it ends, given the turns, exactly
    // when no row it may take sticks.
    ensures rate >= 1 && (forall k :: engaged(k) == engaged(0)) && fuel > |d.Backlog(old(worker.db.View()))| ==>
              (done <==> AllGo(d, old(worker.db.View()), engaged(0)))
  {
    ghost var t0, steady := worker.db.View(), forall k :: engaged(k) == engaged(0);
    done, log := DrainTurns(worker, d, rate, engaged, fuel, engaged(0), steady);
    if NoneSticks(d, t0) && fuel > |d.Backlog(t0)| {
      EndsWhenNoneSticks(d, rate, engaged(0), steady, t0, worker.db.View(), log, done, fuel);
    }
    if rate >= 1 && steady && fuel > |d.Backlog(t0)| {
      EndsExact(d, rate, engaged(0), t0, worker.db.View(), log, done, fuel);
    }
  }

  // --------------------------------------------------- turns without progress

  // A turn that takes a lone row which comes back leaves it as claimable as
  // it was.
  lemma LoneRowReturns(d: DrainTask, t: Tables, id: Uuid)
    requires Counted(t) && d.Backlog(t) == {id} && d.Returns(t.outbox[id], id)
    ensures TurnDone(d, t, d.Once(t, id), {id}) && d.Backlog(d.Once(t, id)) == {id}
  {
    var u, t' := t.(outbox := Lease(t.outbox, {id}, d.until)), d.Once(t, id);
    BacklogIsClaimable(d, t, id);
    HandledMoves(d, u, id, u.outbox[id]);
    LeaseKeeps(t, {id}, d.until);
    KeepsTwice(t, u, t', {id});
    assert OnceOver(d, t, t', id);
    forall other ensures other in d.Backlog(t') <==> other == id {
      TurnBacklog(d, t, t', {id}, other);
    }
  }

  // With a lone row at the attempts limit every turn fails and changes
  // nothing, whatever is engaged, until the row is covered.
  lemma LoneRowFails(d: DrainTask, rate: nat, engaged: seq<Switch>, t: Tables, t': Tables, batch: set<Uuid>, turn: Turn,
                     id: Uuid)
    requires TurnOf(d, rate, engaged, t, t', batch, turn) && rate >= 1
    requires d.Candidates(t, engaged) == {id} && t.outbox[id].attempts >= MAX_SMALLINT
    ensures turn.ClaimFailed? && t' == t
  {
    FirstIsPicked(t.outbox, d.Candidates(t, engaged), rate, batch, id);
  }

  // However many turns it gets, such a row only gains attempts.
  lemma {:induction false} OnlyClimbs(d: DrainTask, t: Tables, id: Uuid, n: nat)
    requires id in t.outbox && t.outbox[id].attempts >= 0 && d.Returns(t.outbox[id], id)
    ensures id in d.Times(t, id, n).outbox && d.Times(t, id, n).outbox[id].attempts == t.outbox[id].attempts + n
    ensures d.Returns(d.Times(t, id, n).outbox[id], id)
    ensures n >= 1 ==> Claimable(d.Times(t, id, n), id, d.now)
  {
    if n == 0 {
    } else {
      OnlyClimbs(d, t, id, n - 1);
      OnceReturns(d, d.Times(t, id, n - 1), id);
    }
  }
}
