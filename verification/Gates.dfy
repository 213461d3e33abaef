/**
 * One claimed row's way through the gates to the provider, as the worker
 * runs it, and how that run sits inside the delivery machine.
 */
module Gates {
  import opened Base
  import opened Outbox
  import opened Delivery

  // The calls the worker makes on the way, each of which may fail.
  datatype Call = Suppression | Verification | Consent | Timezone | Ciphertexts | Decryption | CancelRead | GateWrite

  datatype QuotaAnswer = Admit | SoftBreach | DeferUntil(at: Instant)

  // What the outside world answers during one run.
  datatype Answers = Answers(
    fails: Call -> bool,
    suppressed: bool,
    verified: bool,
    enforce: bool,                  // verification_mode = 'enforce'
    consented: bool,
    quota: QuotaAnswer,
    hasPolicy: bool,                // a quiet-hours window is configured
    quietUntil: Option<Instant>,
    result: SendResult,
    settleFails: bool,              // the write after the provider call fails
    jitter: nat,
    observedAt: Instant,            // the clock when an unverified address is recorded
    writtenAt: Instant)             // and at the run's last write

  // --------------------------------------------------------------- backoff

  const BACKOFF_BASE := 30_000
  const BACKOFF_CAP := 30 * MINUTE

  function Pow2(n: nat): (p: nat)
    ensures p >= 1
  {
    if n == 0 then 1 else 2 * Pow2(n - 1)
  }

  function BackoffBase(attempts: nat): int
    requires attempts >= 1
  {
    Min(BACKOFF_BASE * Pow2(Min(attempts - 1, 6)), BACKOFF_CAP)
  }

  // `jitter` is drawn from 0 to half the capped delay.
  function BackoffDelay(attempts: nat, jitter: nat): int
    requires attempts >= 1
  {
    BackoffBase(attempts) + Min(jitter, BackoffBase(attempts) / 2)
  }

  lemma Pow2Grows(m: nat, n: nat)
    requires m <= n
    ensures Pow2(m) <= Pow2(n)
  {
  }

  // A retry is never sooner than 30 seconds nor later than 45 minutes, and
  // the delay before jitter never shrinks from one attempt to the next.
  lemma BackoffBounds(attempts: nat, later: nat, jitter: nat)
    requires 1 <= attempts <= later
    ensures BACKOFF_BASE <= BackoffDelay(attempts, jitter) <= BACKOFF_CAP + BACKOFF_CAP / 2
    ensures BackoffBase(attempts) <= BackoffBase(later)
    ensures attempts >= 7 ==> BackoffBase(attempts) == BACKOFF_CAP
  {
    Pow2Grows(Min(attempts - 1, 6), Min(later - 1, 6));
    Pow2Grows(0, Min(attempts - 1, 6));
    assert Pow2(6) == 64 by {
      assert Pow2(3) == 8;
    }
  }

  // ------------------------------------------------------------- the gates

  datatype Verdict = Errored | Blocked(status: EventType) | Deferred(at: Instant) | Pass

  predicate IsExpired(row: OutboxRow, now: Instant) {
    row.expiresAt.Some? && row.expiresAt.value <= now
  }

  predicate NeedsVerification(row: OutboxRow) {
    row.category.Transactional? || row.category.Marketing?
  }

  // Some gate's terminal or reschedule write, when it succeeds.
  function Write(a: Answers, v: Verdict): Verdict {
    if a.fails(GateWrite) then Errored else v
  }

  // The verdict of the gate chain, and whether it recorded an unverified
  // address without blocking.
  function Gate(row: OutboxRow, now: Instant, a: Answers): (Verdict, bool) {
    if IsExpired(row, now) then (Write(a, Blocked(Expired)), false)
    else if a.fails(Suppression) then (Errored, false)
    else if a.suppressed then (Write(a, Blocked(SuppressedList)), false)
    else if NeedsVerification(row) && a.fails(Verification) then (Errored, false)
    else if NeedsVerification(row) && !a.verified && a.enforce then (Write(a, Blocked(UnverifiedAddress)), false)
    else if NeedsVerification(row) && !a.verified && a.fails(GateWrite) then (Errored, false)
    else (LaterGates(row, a), NeedsVerification(row) && !a.verified)
  }

  function LaterGates(row: OutboxRow, a: Answers): Verdict {
    if row.category.Marketing? && a.fails(Consent) then Errored
    else if row.category.Marketing? && !a.consented then Write(a, Blocked(SuppressedConsent))
    else if a.quota.DeferUntil? then Write(a, Deferred(a.quota.at))
    else if a.hasPolicy && a.fails(Timezone) then Errored
    else if a.hasPolicy && a.quietUntil.Some? then Write(a, Deferred(a.quietUntil.value))
    else if a.fails(Ciphertexts) || a.fails(Decryption) || a.fails(CancelRead) then Errored
    else Pass
  }

  // ------------------------------------------------- the tables afterwards

  function AfterGates(t: Tables, id: Uuid, row: OutboxRow, now: Instant, a: Answers): Tables {
    if Gate(row, now, a).1 then RecordEvent(t, id, a.observedAt, UnverifiedAddress) else t
  }

  // When a row that failed retryably is tried again.
  function RetryAt(row: OutboxRow, a: Answers): Instant
    requires row.attempts >= 1
  {
    a.writtenAt + BackoffDelay(row.attempts, a.jitter)
  }

  // The cancellation re-read, the provider call and the write after it.
  function CheckAndSend(t: Tables, id: Uuid, row: OutboxRow, a: Answers): Tables
    requires row.attempts >= 1
  {
    if id !in t.outbox then t
    else if t.outbox[id].cancelledAt.Some? then
      (if a.fails(GateWrite) then t else WriteTerminal(t, id, a.writtenAt, EventType.Cancelled, ""))
    else if a.settleFails then t
    else SettleTables(t, Task(id, row.attempts, Answered(a.result)), a.writtenAt, RetryAt(row, a))
  }

  // What the gates' verdict leaves of the tables.
  function Decided(v: Verdict, t: Tables, id: Uuid, row: OutboxRow, a: Answers): Tables
    requires row.attempts >= 1
  {
    match v
    case Errored => t
    case Blocked(status) => WriteTerminal(t, id, a.writtenAt, status, "")
    case Deferred(at) => t.(outbox := Reschedule(t.outbox, id, at))
    case Pass => CheckAndSend(t, id, row, a)
  }

  function Finish(t: Tables, id: Uuid, row: OutboxRow, now: Instant, a: Answers): Tables
    requires row.attempts >= 1
  {
    Decided(Gate(row, now, a).0, t, id, row, a)
  }

  predicate SendSucceeds(t: Tables, id: Uuid, a: Answers) {
    id in t.outbox && if t.outbox[id].cancelledAt.Some? then !a.fails(GateWrite) else !a.settleFails
  }

  // No error is propagated.
  predicate DecidedWell(v: Verdict, t: Tables, id: Uuid, a: Answers) {
    match v
    case Errored => false
    case Pass => SendSucceeds(t, id, a)
    case _ => true
  }

  predicate Succeeds(t: Tables, id: Uuid, row: OutboxRow, now: Instant, a: Answers) {
    DecidedWell(Gate(row, now, a).0, t, id, a)
  }

  function Outcome(t: Tables, id: Uuid, row: OutboxRow, now: Instant, a: Answers): Tables
    requires row.attempts >= 1
  {
    Finish(AfterGates(t, id, row, now, a), id, row, now, a)
  }

  // ------------------------------------------------------------ the worker

  class Worker {
    const db: Database

    constructor (db: Database)
      ensures this.db == db
    {
      this.db := db;
    }

    // `row` is the claimed snapshot, `now` the clock at the expiry check.
    // Returns false where the source propagates an error, which leaves the row
    // leased.
    method TryProcess(id: Uuid, row: OutboxRow, now: Instant, a: Answers) returns (ok: bool)
      requires row.attempts >= 1
      modifies db
      ensures db.View() == Outcome(old(db.View()), id, row, now, a)
      ensures ok <==> Succeeds(old(db.View()), id, row, now, a)
    {
      if IsExpired(row, now) {
        ok := Block(id, Expired, a);
        return;
      }
      if a.fails(Suppression) {
        return false;
      }
      if a.suppressed {
        ok := Block(id, SuppressedList, a);
        return;
      }
      if row.category.Transactional? || row.category.Marketing? {
        if a.fails(Verification) {
          return false;
        }
        if !a.verified {
          if a.enforce {
            ok := Block(id, UnverifiedAddress, a);
            return;
          }
          if a.fails(GateWrite) {
            return false;
          }
          db.RecordObserved(id, a.observedAt, UnverifiedAddress);
        }
      }
      ok := TryLater(id, row, a);
    }

    // Consent, quota, quiet hours and the send.
    method TryLater(id: Uuid, row: OutboxRow, a: Answers) returns (ok: bool)
      requires row.attempts >= 1
      modifies db
      ensures db.View() == Decided(LaterGates(row, a), old(db.View()), id, row, a)
      ensures ok <==> DecidedWell(LaterGates(row, a), old(db.View()), id, a)
    {
      if row.category.Marketing? {
        if a.fails(Consent) {
          return false;
        }
        if !a.consented {
          ok := Block(id, SuppressedConsent, a);
          return;
        }
      }
      if a.quota.DeferUntil? {
        ok := Postpone(id, a.quota.at, a);
        return;
      }
      if a.hasPolicy {
        if a.fails(Timezone) {
          return false;
        }
        if a.quietUntil.Some? {
          ok := Postpone(id, a.quietUntil.value, a);
          return;
        }
      }
      if a.fails(Ciphertexts) || a.fails(Decryption) || a.fails(CancelRead) {
        return false;
      }
      ok := SendUnlessCancelled(id, row, a);
    }

    method Block(id: Uuid, status: EventType, a: Answers) returns (ok: bool)
      modifies db
      ensures ok == !a.fails(GateWrite)
      ensures db.View() == if ok then WriteTerminal(old(db.View()), id, a.writtenAt, status, "") else old(db.View())
    {
      ok := !a.fails(GateWrite);
      if ok {
        db.Finalize(id, a.writtenAt, status, "");
      }
    }

    method Postpone(id: Uuid, at: Instant, a: Answers) returns (ok: bool)
      modifies db
      ensures ok == !a.fails(GateWrite)
      ensures db.View() == if ok then old(db.View()).(outbox := Reschedule(old(db.outbox), id, at)) else old(db.View())
    {
      ok := !a.fails(GateWrite);
      if ok {
        db.RescheduleRetry(id, at);
      }
    }

    method SendUnlessCancelled(id: Uuid, row: OutboxRow, a: Answers) returns (ok: bool)
      requires row.attempts >= 1
      modifies db
      ensures db.View() == CheckAndSend(old(db.View()), id, row, a)
      ensures ok <==> SendSucceeds(old(db.View()), id, a)
    {
      var cancelled := db.IsCancelled(id);
      if cancelled.None? {
        return false;
      }
      if cancelled.value {
        ok := Block(id, EventType.Cancelled, a);
        return;
      }
      // the provider call happens here
      if a.settleFails {
        return false;
      }
      match a.result {
        case Accepted(providerRef) =>
          db.Finalize(id, a.writtenAt, Sent, providerRef);
        case Retryable =>
          if row.attempts < MAX_SEND_ATTEMPTS {
            db.RescheduleRetry(id, RetryAt(row, a));
          } else {
            db.Finalize(id, a.writtenAt, Failed, "");
          }
        case Rejected =>
          db.Finalize(id, a.writtenAt, Failed, "");
      }
      ok := true;
    }
  }

  // ---------------------------------------------- inside the delivery machine

  // The machine steps one run of the worker amounts to, past any recorded
  // observation and including it.
  function FinalSteps(t: Tables, task: nat, id: Uuid, row: OutboxRow, now: Instant, a: Answers): seq<Step>
    requires row.attempts >= 1
  {
    match Gate(row, now, a).0
    case Errored => [Abandon(task)]
    case Blocked(status) => [Step.Block(task, a.writtenAt, status)]
    case Deferred(at) => [Defer(task, at)]
    case Pass =>
      if id !in t.outbox then [Abandon(task)]
      else if t.outbox[id].cancelledAt.Some? then
        [Recheck(task)] + [if a.fails(GateWrite) then Abandon(task) else WriteCancelled(task, a.writtenAt)]
      else
        [Recheck(task)] + ([Hand(task, a.result)] + [WriteBack(task, row, a)])
  }

  // The write after the provider call, or its loss.
  function WriteBack(task: nat, row: OutboxRow, a: Answers): Step
    requires row.attempts >= 1
  {
    if a.settleFails then Abandon(task) else Settle(task, a.writtenAt, RetryAt(row, a))
  }

  function WorkerSteps(s: State, task: nat, row: OutboxRow, now: Instant, a: Answers): seq<Step>
    requires task in s.tasks && row.attempts >= 1
  {
    (if Gate(row, now, a).1 then [Observe(task, a.observedAt)] else [])
    + FinalSteps(s.t, task, s.tasks[task].row, row, now, a)
  }

  ghost predicate Carries(s: State, task: nat, row: OutboxRow) {
    task in s.tasks && s.tasks[task].phase == Gating && s.tasks[task].attempts == row.attempts && row.attempts >= 1
  }

  lemma CancelReaches(s: State, task: nat, row: OutboxRow, a: Answers) returns (after: State)
    requires Carries(s, task, row) && s.tasks[task].row in s.t.outbox
    requires s.t.outbox[s.tasks[task].row].cancelledAt.Some?
    ensures Reaches(s, [Recheck(task)] + [if a.fails(GateWrite) then Abandon(task) else WriteCancelled(task, a.writtenAt)], after)
    ensures after.t == CheckAndSend(s.t, s.tasks[task].row, row, a) && after.tasks == s.tasks - {task}
  {
    var s1 := Apply(true, s, Recheck(task));
    var st := if a.fails(GateWrite) then Abandon(task) else WriteCancelled(task, a.writtenAt);
    after := Apply(true, s1, st);
    ReachesOne(s1, st);
    ReachesMore(s, Recheck(task), [st], after);
    assert after.tasks == s.tasks - {task};
  }

  lemma SendReaches(s: State, task: nat, row: OutboxRow, a: Answers) returns (after: State)
    requires Carries(s, task, row) && s.tasks[task].row in s.t.outbox
    requires s.t.outbox[s.tasks[task].row].cancelledAt.None?
    ensures Reaches(s, [Recheck(task)] + ([Hand(task, a.result)] + [WriteBack(task, row, a)]), after)
    ensures after.t == CheckAndSend(s.t, s.tasks[task].row, row, a) && after.tasks == s.tasks - {task}
  {
    var s1 := Apply(true, s, Recheck(task));
    var s2 := Apply(true, s1, Hand(task, a.result));
    var st := WriteBack(task, row, a);
    after := Apply(true, s2, st);
    ReachesOne(s2, st);
    ReachesMore(s1, Hand(task, a.result), [st], after);
    ReachesMore(s, Recheck(task), [Hand(task, a.result)] + [st], after);
    assert after.tasks == s.tasks - {task};
  }

  lemma FinalReaches(s: State, task: nat, row: OutboxRow, now: Instant, a: Answers) returns (after: State)
    requires Carries(s, task, row)
    ensures Reaches(s, FinalSteps(s.t, task, s.tasks[task].row, row, now, a), after)
    ensures after.t == Finish(s.t, s.tasks[task].row, row, now, a) && after.tasks == s.tasks - {task}
  {
    var id := s.tasks[task].row;
    if Gate(row, now, a).0.Pass? && id in s.t.outbox {
      if s.t.outbox[id].cancelledAt.Some? {
        after := CancelReaches(s, task, row, a);
      } else {
        after := SendReaches(s, task, row, a);
      }
    } else {
      after := StopReaches(s, task, row, now, a);
    }
  }

  lemma StopReaches(s: State, task: nat, row: OutboxRow, now: Instant, a: Answers) returns (after: State)
    requires Carries(s, task, row)
    requires !(Gate(row, now, a).0.Pass? && s.tasks[task].row in s.t.outbox)
    ensures Reaches(s, FinalSteps(s.t, task, s.tasks[task].row, row, now, a), after)
    ensures after.t == Finish(s.t, s.tasks[task].row, row, now, a) && after.tasks == s.tasks - {task}
  {
    var st := FinalSteps(s.t, task, s.tasks[task].row, row, now, a)[0];
    after := Apply(true, s, st);
    ReachesOne(s, st);
  }

  // Every run of the worker, whatever fails in it, is a path of the delivery
  // machine, so what holds of all its runs holds of the worker.
  lemma WorkerRefines(s: State, task: nat, row: OutboxRow, now: Instant, a: Answers) returns (after: State)
    requires Carries(s, task, row)
    ensures Reaches(s, WorkerSteps(s, task, row, now, a), after)
    ensures after.t == Outcome(s.t, s.tasks[task].row, row, now, a) && after.tasks == s.tasks - {task}
  {
    if Gate(row, now, a).1 {
      var s1 := Apply(true, s, Observe(task, a.observedAt));
      after := FinalReaches(s1, task, row, now, a);
      ReachesMore(s, Observe(task, a.observedAt), FinalSteps(s.t, task, s.tasks[task].row, row, now, a), after);
    } else {
      after := FinalReaches(s, task, row, now, a);
      var rest := FinalSteps(s.t, task, s.tasks[task].row, row, now, a);
      assert [] + rest == rest;
    }
  }
}
