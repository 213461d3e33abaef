/**
 * Exactly which lease sweeps are safe. Drains and discards are spawned by the
 * refresh loop, which starts before leadership is won, so a sweep may find
 * rows that a running task holds.
 */
module SweepSafety {
  import opened Base
  import opened Outbox
  import opened Delivery
  import opened DeliverySafety

  // The state right after a sweep, whoever holds rows.
  ghost function Swept(s: State): State {
    Apply(false, s, Sweep)
  }

  ghost predicate On(s: State, k: nat, id: Uuid) {
    k in s.tasks && s.tasks[k].row == id
  }

  // A task that can only take its row out of the queue or give up.
  ghost predicate Dead(task: Task) {
    match task.phase
    case MustCancel => true
    case Answered(Rejected) => true
    case Answered(Retryable) => task.attempts >= MAX_SEND_ATTEMPTS
    case _ => false
  }

  ghost predicate Active(s: State, k: nat, id: Uuid) {
    On(s, k, id) && !Dead(s.tasks[k])
  }

  // The sweep frees a row that can be claimed and sent again while a task
  // that sends, has sent or reschedules it is still at work.
  ghost predicate AtRisk(s: State, id: Uuid) {
    && id in s.t.outbox && s.t.outbox[id].cancelledAt.None? && s.t.outbox[id].attempts < MAX_SMALLINT
    && exists k :: Active(s, k, id)
  }

  // --------------------------------------------------------- what stays safe

  ghost predicate Bounded(s: State, id: Uuid) {
    s.accepted[id] <= 1 + s.lostAccepted[id]
  }

  // Cancelled, with at most one task still to call.
  ghost predicate Stopped(s: State, id: Uuid, task: Option<nat>) {
    CancelledBut(s, id, task) && s.accepted[id] <= s.lostAccepted[id] + if task.Some? then 0 else 1
  }

  // No further claim fits the attempts column, and at most one task is left.
  ghost predicate Exhausted(s: State, id: Uuid, task: nat) {
    && id in s.t.ledger && Bounded(s, id)
    && (id in s.t.outbox ==> s.t.outbox[id].attempts >= MAX_SMALLINT)
    && (forall k :: On(s, k, id) ==> k == task)
    && (On(s, task, id) && !s.tasks[task].phase.Answered? ==> s.accepted[id] <= s.lostAccepted[id])
  }

  // At most one task is alive, it holds the lease, and it has not been
  // accepted unless it is about to say so.
  ghost predicate OneActive(s: State, id: Uuid) {
    && Bounded(s, id)
    && (id in s.t.outbox ==> id in s.t.ledger)
    && (id !in s.t.ledger ==> s.accepted[id] <= s.lostAccepted[id] && forall k :: !On(s, k, id))
    && (forall k, l :: Active(s, k, id) && Active(s, l, id) ==> k == l)
    && (forall k :: Active(s, k, id) && id in s.t.outbox ==> s.t.outbox[id].leasedUntil.Some?)
    && (forall k :: Active(s, k, id) && !IsAccepted(s.tasks[k].phase) ==> s.accepted[id] <= s.lostAccepted[id])
    && (id in s.t.outbox && s.accepted[id] > s.lostAccepted[id] ==> exists k :: Active(s, k, id))
  }

  lemma StoppedStep(s: State, st: Step, id: Uuid, task: Option<nat>)
    requires Enabled(true, s, st) && Stopped(s, id, task)
    ensures Stopped(Apply(true, s, st), id, if Hands(s, st, id) then None else task)
  {
    CancelStep(true, s, st, id, task);
    RecordStep(true, s, st, id);
  }

  lemma ExhaustedStep(s: State, st: Step, id: Uuid, task: nat)
    requires Enabled(true, s, st) && Exhausted(s, id, task)
    ensures Exhausted(Apply(true, s, st), id, task)
  {
    RecordStep(true, s, st, id);
    var s' := Apply(true, s, st);
    ExhaustedTasks(s, st, id);
    forall k | On(s', k, id) ensures On(s, k, id) {
    }
    if Hands(s, st, id) {
      assert On(s, st.task, id);
    }
  }

  lemma ExhaustedTasks(s: State, st: Step, id: Uuid)
    requires Enabled(true, s, st) && id in s.t.ledger
    requires id in s.t.outbox ==> s.t.outbox[id].attempts >= MAX_SMALLINT
    ensures var s' := Apply(true, s, st);
            && id in s'.t.ledger
            && (id in s'.t.outbox ==> s'.t.outbox[id].attempts >= MAX_SMALLINT)
            && forall k :: On(s', k, id) ==> On(s, k, id) && (s.tasks[k].phase.Answered? ==> s'.tasks[k].phase.Answered?)
  {
  }

  ghost predicate Takes(st: Step, id: Uuid) {
    st.ClaimOne? && st.id == id
  }

  // A dead task stays dead; a new live one only comes by a claim.
  lemma ActiveMoves(s: State, st: Step, id: Uuid, k: nat)
    requires Enabled(true, s, st) && Active(Apply(true, s, st), k, id)
    ensures Active(s, k, id) || (Takes(st, id) && k == st.task)
    ensures Active(s, k, id) && IsAccepted(s.tasks[k].phase) ==> Apply(true, s, st).tasks[k].phase == s.tasks[k].phase
  {
  }

  // The lease of a live task's row: freed only by that task as it ends.
  lemma LeaseMoves(s: State, st: Step, id: Uuid, k: nat)
    requires Enabled(true, s, st) && OneActive(s, id)
    requires Active(Apply(true, s, st), k, id) && id in Apply(true, s, st).t.outbox
    ensures Apply(true, s, st).t.outbox[id].leasedUntil.Some?
  {
    ActiveMoves(s, st, id, k);
    LedgerKnows(s, st, id);
    if Active(s, k, id) && Freed(s, st, id) {
      FreedByHolder(s, st, id);
    }
  }

  ghost predicate Freed(s: State, st: Step, id: Uuid)
    requires Enabled(true, s, st)
  {
    && id in s.t.outbox && s.t.outbox[id].leasedUntil.Some?
    && id in Apply(true, s, st).t.outbox && Apply(true, s, st).t.outbox[id].leasedUntil.None?
  }

  lemma FreedByHolder(s: State, st: Step, id: Uuid)
    requires Enabled(true, s, st) && Freed(s, st, id) && (id in s.t.outbox ==> id in s.t.ledger)
    ensures s.tasks == map[] || exists l :: Active(s, l, id) && l !in Apply(true, s, st).tasks
  {
    if st.Defer? || st.Settle? {
      assert Active(s, st.task, id);
    }
  }

  lemma ClaimMeansNone(s: State, st: Step, id: Uuid)
    requires Enabled(true, s, st) && OneActive(s, id) && Takes(st, id)
    ensures forall k :: !Active(s, k, id)
    ensures s.accepted[id] <= s.lostAccepted[id]
  {
  }

  lemma LedgerKnows(s: State, st: Step, id: Uuid)
    requires Enabled(true, s, st) && OneActive(s, id)
    ensures var s' := Apply(true, s, st);
            && (id in s'.t.outbox ==> id in s'.t.ledger)
            && (id !in s'.t.ledger ==> id !in s.t.ledger && forall k :: !On(s', k, id))
            && (id in s'.t.outbox && id !in s.t.outbox ==> id !in s.t.ledger)
  {
    var s' := Apply(true, s, st);
    if id !in s'.t.ledger {
      forall k ensures !On(s', k, id) {
        assert !On(s, k, id);
      }
    }
  }

  // Who is accepted and still queued is about to be written.
  lemma AcceptedMoves(s: State, st: Step, id: Uuid)
    requires Enabled(true, s, st) && OneActive(s, id)
    requires var s' := Apply(true, s, st); id in s'.t.outbox && s'.accepted[id] > s'.lostAccepted[id]
    ensures exists k :: Active(Apply(true, s, st), k, id)
  {
    var s' := Apply(true, s, st);
    RecordStep(true, s, st, id);
    LedgerKnows(s, st, id);
    if Hands(s, st, id) {
      assert Active(s', st.task, id);
    } else {
      var k :| Active(s, k, id);
      assert IsAccepted(s.tasks[k].phase);
      assert Active(s', k, id);
    }
  }

  lemma UnacceptedMoves(s: State, st: Step, id: Uuid, k: nat)
    requires Enabled(true, s, st) && OneActive(s, id)
    requires Active(Apply(true, s, st), k, id) && !IsAccepted(Apply(true, s, st).tasks[k].phase)
    ensures Apply(true, s, st).accepted[id] <= Apply(true, s, st).lostAccepted[id]
  {
    RecordStep(true, s, st, id);
    ActiveMoves(s, st, id, k);
    if Takes(st, id) {
      ClaimMeansNone(s, st, id);
    } else if Hands(s, st, id) {
      assert Active(s, st.task, id);
    }
  }

  lemma BoundedMoves(s: State, st: Step, id: Uuid)
    requires Enabled(true, s, st) && OneActive(s, id)
    ensures Bounded(Apply(true, s, st), id)
    ensures id !in Apply(true, s, st).t.ledger ==> Apply(true, s, st).accepted[id] <= Apply(true, s, st).lostAccepted[id]
  {
    RecordStep(true, s, st, id);
    LedgerKnows(s, st, id);
    if Hands(s, st, id) {
      assert Active(s, st.task, id);
    }
  }

  lemma OneActiveStep(s: State, st: Step, id: Uuid)
    requires Enabled(true, s, st) && OneActive(s, id)
    ensures OneActive(Apply(true, s, st), id)
  {
    var s' := Apply(true, s, st);
    BoundedMoves(s, st, id);
    LedgerKnows(s, st, id);
    if id in s'.t.outbox && s'.accepted[id] > s'.lostAccepted[id] {
      AcceptedMoves(s, st, id);
    }
    forall k | Active(s', k, id)
      ensures forall l :: Active(s', l, id) ==> k == l
      ensures id in s'.t.outbox ==> s'.t.outbox[id].leasedUntil.Some?
      ensures !IsAccepted(s'.tasks[k].phase) ==> s'.accepted[id] <= s'.lostAccepted[id]
    {
      OneLeft(s, st, id, k);
      if id in s'.t.outbox {
        LeaseMoves(s, st, id, k);
      }
      if !IsAccepted(s'.tasks[k].phase) {
        UnacceptedMoves(s, st, id, k);
      }
    }
  }

  lemma OneLeft(s: State, st: Step, id: Uuid, k: nat)
    requires Enabled(true, s, st) && OneActive(s, id) && Active(Apply(true, s, st), k, id)
    ensures forall l :: Active(Apply(true, s, st), l, id) ==> k == l
  {
    forall l | Active(Apply(true, s, st), l, id) ensures k == l {
      ActiveMoves(s, st, id, k);
      ActiveMoves(s, st, id, l);
      if Takes(st, id) {
        ClaimMeansNone(s, st, id);
      }
    }
  }

  // One of the three, and so no second acceptance.
  ghost predicate Tame(s: State, id: Uuid) {
    || (exists task :: Stopped(s, id, task))
    || (exists task :: Exhausted(s, id, task))
    || OneActive(s, id)
  }

  lemma TameStep(s: State, st: Step, id: Uuid)
    requires Enabled(true, s, st) && Tame(s, id)
    ensures Tame(Apply(true, s, st), id)
  {
    if task :| Stopped(s, id, task) {
      StoppedStep(s, st, id, task);
    } else if task :| Exhausted(s, id, task) {
      ExhaustedStep(s, st, id, task);
    } else {
      OneActiveStep(s, st, id);
    }
  }

  lemma {:induction false} TamePath(s: State, steps: seq<Step>, after: State, id: Uuid)
    requires Reaches(s, steps, after) && Tame(s, id)
    ensures Tame(after, id) && Bounded(after, id)
    decreases |steps|
  {
    if steps == [] {
    } else {
      TameStep(s, steps[0], id);
      TamePath(Apply(true, s, steps[0]), steps[1..], after, id);
    }
  }

  // A sweep that puts `id` at no risk leaves it tame.
  lemma SweepTames(s: State, id: Uuid)
    requires Inv(s) && !AtRisk(s, id)
    ensures Tame(Swept(s), id)
  {
    if k :| Active(s, k, id) {
      HolderSwept(s, id, k);
    } else {
      NobodySwept(s, id);
    }
  }

  lemma NobodySwept(s: State, id: Uuid)
    requires Inv(s) && forall k :: !Active(s, k, id)
    ensures OneActive(Swept(s), id)
  {
    var s' := Swept(s);
    forall k ensures !Active(s', k, id) && (On(s', k, id) ==> On(s, k, id)) {
      assert !Active(s, k, id);
    }
    if id in s.t.outbox {
      NoAcceptance(s, id);
    }
  }

  lemma NoAcceptance(s: State, id: Uuid)
    requires Inv(s) && id in s.t.outbox && forall k :: !Active(s, k, id)
    ensures s.accepted[id] == s.lostAccepted[id]
  {
    if k :| On(s, k, id) && s.tasks[k].phase.Answered? {
      assert !Active(s, k, id);
    } else {
      forall k | k in s.tasks && s.tasks[k].row == id ensures !s.tasks[k].phase.Answered? {
        assert On(s, k, id);
      }
    }
  }

  // Held, but cancelled or at the end of its attempts.
  lemma HolderSwept(s: State, id: Uuid, k: nat)
    requires Inv(s) && !AtRisk(s, id) && Active(s, k, id)
    ensures Tame(Swept(s), id)
  {
    var s' := Swept(s);
    OnlyHolder(s, id, k);
    if s.t.outbox[id].cancelledAt.Some? {
      var task := if s.tasks[k].phase.Cleared? then Some(k) else None;
      assert Stopped(s', id, task);
    } else {
      assert Exhausted(s', id, k);
    }
  }

  lemma OnlyHolder(s: State, id: Uuid, k: nat)
    requires Inv(s) && On(s, k, id)
    ensures id in s.t.outbox && id in s.t.ledger && forall l :: On(s, l, id) ==> l == k
    ensures s.accepted[id] == s.lostAccepted[id] + if IsAccepted(s.tasks[k].phase) then 1 else 0
  {
    if !s.tasks[k].phase.Answered? {
      ClearedMayCall(s, k);
    }
  }

  // ------------------------------------------------------- what does not stay

  // The row can be claimed and, once claimed, passes the re-read.
  ghost predicate Ripe(s: State, id: Uuid) {
    && id in s.t.outbox && s.t.outbox[id].cancelledAt.None? && s.t.outbox[id].leasedUntil.None?
    && s.t.outbox[id].attempts < MAX_SMALLINT
  }

  ghost predicate SameRecords(s: State, s': State) {
    s'.handed == s.handed && s'.accepted == s.accepted && s'.lost == s.lost && s'.lostAccepted == s.lostAccepted
  }

  lemma ClaimAndClear(s: State, id: Uuid, m: nat) returns (steps: seq<Step>, after: State)
    requires Ripe(s, id) && m !in s.tasks
    ensures Reaches(s, steps, after) && SameRecords(s, after)
    ensures after.tasks == s.tasks[m := Task(id, s.t.outbox[id].attempts + 1, Cleared)]
    ensures id in after.t.outbox && after.t.outbox[id].cancelledAt.None?
    ensures after.t.outbox[id].attempts == s.t.outbox[id].attempts + 1
  {
    var now := s.t.outbox[id].nextAttemptAt;
    var s1 := Apply(true, s, ClaimOne(m, id, now, now));
    after := Apply(true, s1, Recheck(m));
    ReachesOne(s1, Recheck(m));
    ReachesMore(s, ClaimOne(m, id, now, now), [Recheck(m)], after);
    steps := [ClaimOne(m, id, now, now)] + [Recheck(m)];
  }

  lemma Accept(s: State, k: nat) returns (steps: seq<Step>, after: State)
    requires k in s.tasks && s.tasks[k].phase.Cleared?
    ensures Reaches(s, steps, after)
    ensures after.t == s.t && after.tasks == s.tasks[k := s.tasks[k].(phase := Answered(Accepted("a")))]
    ensures after.accepted == s.accepted + multiset{s.tasks[k].row} && after.lostAccepted == s.lostAccepted
  {
    after := Apply(true, s, Hand(k, Accepted("a")));
    ReachesOne(s, Hand(k, Accepted("a")));
    steps := [Hand(k, Accepted("a"))];
  }

  // Two tasks past their re-read are accepted twice.
  lemma BothAccepted(s: State, id: Uuid, k: nat, m: nat) returns (steps: seq<Step>, after: State)
    requires k != m && On(s, k, id) && On(s, m, id) && s.tasks[k].phase.Cleared? && s.tasks[m].phase.Cleared?
    ensures Reaches(s, steps, after)
    ensures after.accepted[id] == s.accepted[id] + 2 && after.lostAccepted[id] == s.lostAccepted[id]
  {
    var first, mid := Accept(s, k);
    var second, end := Accept(mid, m);
    ReachesOn(s, first, mid, second, end);
    steps, after := first + second, end;
  }

  ghost predicate Overshoots(s: State, tail: seq<Step>, after: State, id: Uuid) {
    Reaches(s, tail, after) && after.accepted[id] >= 2 + after.lostAccepted[id]
  }

  lemma ClearedHurts(s: State, id: Uuid, k: nat) returns (tail: seq<Step>, after: State)
    requires Ripe(s, id) && On(s, k, id) && s.tasks[k].phase.Cleared? && s.accepted[id] == s.lostAccepted[id]
    ensures Overshoots(s, tail, after, id)
  {
    var m := FreshId(s.tasks.Keys);
    var first, mid := ClaimAndClear(s, id, m);
    var second, end := BothAccepted(mid, id, k, m);
    ReachesOn(s, first, mid, second, end);
    tail, after := first + second, end;
  }

  lemma GatingHurts(s: State, id: Uuid, k: nat) returns (tail: seq<Step>, after: State)
    requires Ripe(s, id) && On(s, k, id) && s.tasks[k].phase.Gating? && s.accepted[id] == s.lostAccepted[id]
    ensures Overshoots(s, tail, after, id)
  {
    var s1 := Apply(true, s, Recheck(k));
    var rest, end := ClearedHurts(s1, id, k);
    ReachesMore(s, Recheck(k), rest, end);
    tail, after := [Recheck(k)] + rest, end;
  }

  lemma AcceptedHurts(s: State, id: Uuid) returns (tail: seq<Step>, after: State)
    requires Ripe(s, id) && s.accepted[id] == s.lostAccepted[id] + 1
    ensures Overshoots(s, tail, after, id)
  {
    var m := FreshId(s.tasks.Keys);
    var first, mid := ClaimAndClear(s, id, m);
    var second, end := Accept(mid, m);
    ReachesOn(s, first, mid, second, end);
    tail, after := first + second, end;
  }

  // A retry in the wings frees the lease once more.
  lemma RetryableHurts(s: State, id: Uuid, k: nat) returns (tail: seq<Step>, after: State)
    requires Ripe(s, id) && On(s, k, id) && s.accepted[id] == s.lostAccepted[id]
    requires s.tasks[k].phase == Answered(Retryable) && s.tasks[k].attempts < MAX_SEND_ATTEMPTS
    requires s.t.outbox[id].attempts < MAX_SMALLINT - 1
    ensures Overshoots(s, tail, after, id)
  {
    var m := FreshId(s.tasks.Keys);
    var first, mid := ClaimAndClear(s, id, m);
    var s1 := Apply(true, mid, Settle(k, 0, 0));
    var rest, end := ClearedHurts(s1, id, m);
    ReachesMore(mid, Settle(k, 0, 0), rest, end);
    ReachesOn(s, first, mid, [Settle(k, 0, 0)] + rest, end);
    tail, after := first + ([Settle(k, 0, 0)] + rest), end;
  }

  lemma RiskHurts(s: State, id: Uuid) returns (tail: seq<Step>, after: State)
    requires Inv(s) && AtRisk(s, id)
    ensures Overshoots(Swept(s), tail, after, id)
  {
    var k :| Active(s, k, id);
    OnlyHolder(s, id, k);
    var s' := Swept(s);
    assert Ripe(s', id) && On(s', k, id);
    match s.tasks[k].phase {
      case Gating => tail, after := GatingHurts(s', id, k);
      case Cleared => tail, after := ClearedHurts(s', id, k);
      case Answered(result) =>
        if result.Accepted? {
          tail, after := AcceptedHurts(s', id);
        } else {
          tail, after := RetryableHurts(s', id, k);
        }
    }
  }

  // ------------------------------------------------------------ the condition

  // Acceptances of `id` along a path, and those whose write was lost.
  ghost function AcceptedOn(s: State, steps: seq<Step>, after: State, id: Uuid): nat
    requires Reaches(s, steps, after)
    decreases |steps|
  {
    if steps == [] then 0
    else
      (if Hands(s, steps[0], id) && steps[0].result.Accepted? then 1 else 0)
      + AcceptedOn(Apply(true, s, steps[0]), steps[1..], after, id)
  }

  ghost function LostOn(s: State, steps: seq<Step>, after: State, id: Uuid): nat
    requires Reaches(s, steps, after)
    decreases |steps|
  {
    if steps == [] then 0
    else
      (if Loses(s, steps[0], id) && IsAccepted(s.tasks[steps[0].task].phase) then 1 else 0)
      + LostOn(Apply(true, s, steps[0]), steps[1..], after, id)
  }

  lemma {:induction false} PathRecords(s: State, steps: seq<Step>, after: State, id: Uuid)
    requires Reaches(s, steps, after)
    ensures after.accepted[id] == s.accepted[id] + AcceptedOn(s, steps, after, id)
    ensures after.lostAccepted[id] == s.lostAccepted[id] + LostOn(s, steps, after, id)
    decreases |steps|
  {
    if steps == [] {
    } else {
      RecordStep(true, s, steps[0], id);
      PathRecords(Apply(true, s, steps[0]), steps[1..], after, id);
    }
  }

  // The run, a sweep, and this continuation together accept `id` at least
  // twice more often than an acceptance was lost.
  ghost predicate SentTwice(ss: seq<State>, steps: seq<Step>, tail: seq<Step>, after: State, id: Uuid)
    requires |ss| == |steps| + 1
  {
    && Reaches(Swept(ss[|steps|]), tail, after)
    && AcceptedCalls(ss, steps, |steps|, id) + AcceptedOn(Swept(ss[|steps|]), tail, after, id)
       >= 2 + LostAcceptances(ss, steps, |steps|, id) + LostOn(Swept(ss[|steps|]), tail, after, id)
  }

  lemma SentTwiceIsOvershoot(ss: seq<State>, steps: seq<Step>, tail: seq<Step>, after: State, id: Uuid)
    requires Run(true, ss, steps)
    ensures SentTwice(ss, steps, tail, after, id) <==> Overshoots(Swept(ss[|steps|]), tail, after, id)
  {
    var s := ss[|steps|];
    RecordExact(true, ss, steps, |steps|, id);
    RecordStep(false, s, Sweep, id);
    if Reaches(Swept(s), tail, after) {
      PathRecords(Swept(s), tail, after, id);
    }
  }

  // After any run, a sweep can be followed by a second acceptance of a
  // message exactly when it puts that message at risk; otherwise the bound
  // holds for every continuation.
  lemma SweepExact(ss: seq<State>, steps: seq<Step>, id: Uuid)
    requires Run(true, ss, steps)
    ensures (exists tail, after :: SentTwice(ss, steps, tail, after, id)) <==> AtRisk(ss[|steps|], id)
  {
    var s := ss[|steps|];
    RunInv(ss, steps, |steps|);
    if AtRisk(s, id) {
      var tail, after := RiskHurts(s, id);
      SentTwiceIsOvershoot(ss, steps, tail, after, id);
    } else {
      SweepTames(s, id);
      forall tail, after ensures !SentTwice(ss, steps, tail, after, id) {
        SentTwiceIsOvershoot(ss, steps, tail, after, id);
        if Reaches(Swept(s), tail, after) {
          TamePath(Swept(s), tail, after, id);
        }
      }
    }
  }
}
