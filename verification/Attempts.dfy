/**
 * What the attempts column counts. Every claim bumps it, so deferrals and
 * abandoned tasks use up send attempts like provider calls do.
 */
module Attempts {
  import opened Base
  import opened KillSwitch
  import opened Outbox
  import opened Delivery
  import opened DeliverySafety

  // ------------------------------------------------------- counted off a run

  ghost predicate ClaimsRow(st: Step, id: Uuid) {
    st.ClaimOne? && st.id == id
  }

  ghost predicate Defers(s: State, st: Step, id: Uuid) {
    st.Defer? && st.task in s.tasks && s.tasks[st.task].row == id
  }

  // The step gives up on `id` before any call.
  ghost predicate GivesUp(s: State, st: Step, id: Uuid) {
    st.Abandon? && st.task in s.tasks && s.tasks[st.task].row == id && !s.tasks[st.task].phase.Answered?
  }

  // Claims, provider calls, deferrals and tasks given up before a call.
  datatype Tally = Tally(claims: nat, calls: nat, deferrals: nat, givenUp: nat)

  ghost function TallyAfter(s: State, st: Step, id: Uuid, c: Tally): Tally {
    Tally(
      c.claims + if ClaimsRow(st, id) then 1 else 0,
      c.calls + if Hands(s, st, id) then 1 else 0,
      c.deferrals + if Defers(s, st, id) then 1 else 0,
      c.givenUp + if GivesUp(s, st, id) then 1 else 0)
  }

  ghost function TallyOf(ss: seq<State>, steps: seq<Step>, n: nat, id: Uuid): Tally
    requires |ss| == |steps| + 1 && n < |ss|
  {
    if n == 0 then Tally(0, 0, 0, 0)
    else TallyAfter(ss[n - 1], steps[n - 1], id, TallyOf(ss, steps, n - 1, id))
  }

  // ------------------------------------------------------------ the balance

  // A task holds the row and has not called yet.
  ghost predicate Undecided(s: State, id: Uuid) {
    exists k :: k in s.tasks && s.tasks[k].row == id && !s.tasks[k].phase.Answered?
  }

  ghost predicate Balanced(s: State, id: Uuid, c: Tally) {
    && (id in s.t.outbox ==>
          && s.t.outbox[id].attempts == c.claims
          && c.claims == c.calls + c.deferrals + c.givenUp + if Undecided(s, id) then 1 else 0)
    && (id !in s.t.ledger ==> c == Tally(0, 0, 0, 0))
  }

  // Whether a task holds `id` undecided after a step.
  lemma UndecidedClaim(s: State, st: Step, id: Uuid)
    requires TasksOk(s) && Enabled(true, s, st) && ClaimsRow(st, id)
    ensures !Undecided(s, id) && Undecided(Apply(true, s, st), id)
  {
    assert Apply(true, s, st).tasks[st.task].row == id;
  }

  lemma UndecidedEnds(s: State, st: Step, id: Uuid)
    requires TasksOk(s) && Enabled(true, s, st) && (Hands(s, st, id) || Defers(s, st, id) || GivesUp(s, st, id))
    ensures Undecided(s, id) && !Undecided(Apply(true, s, st), id)
  {
    assert s.tasks[st.task].row == id;
  }

  // Nothing else that leaves the row queued touches the tasks that hold it.
  lemma UndecidedStays(s: State, st: Step, id: Uuid)
    requires TasksOk(s) && Enabled(true, s, st) && id in s.t.outbox && id in Apply(true, s, st).t.outbox
    requires !ClaimsRow(st, id) && !Hands(s, st, id) && !Defers(s, st, id) && !GivesUp(s, st, id)
    ensures Undecided(Apply(true, s, st), id) <==> Undecided(s, id)
  {
    var s' := Apply(true, s, st);
    if k :| k in s.tasks && s.tasks[k].row == id && !s.tasks[k].phase.Answered? {
      assert k in s'.tasks && s'.tasks[k].row == id && !s'.tasks[k].phase.Answered?;
    }
    if k :| k in s'.tasks && s'.tasks[k].row == id && !s'.tasks[k].phase.Answered? {
      assert k in s.tasks && s.tasks[k].row == id && !s.tasks[k].phase.Answered?;
    }
  }

  lemma AttemptsMove(s: State, st: Step, id: Uuid)
    requires Enabled(true, s, st) && id in s.t.outbox && id in Apply(true, s, st).t.outbox && LedgerOk(s.t)
    ensures Apply(true, s, st).t.outbox[id].attempts == s.t.outbox[id].attempts + if ClaimsRow(st, id) then 1 else 0
  {
  }

  lemma FreshRow(s: State, st: Step, id: Uuid)
    requires LedgerOk(s.t) && TasksOk(s) && Enabled(true, s, st)
    requires id !in s.t.outbox && id in Apply(true, s, st).t.outbox
    ensures id !in s.t.ledger && Apply(true, s, st).t.outbox[id].attempts == 0
    ensures !Undecided(Apply(true, s, st), id)
    ensures !ClaimsRow(st, id) && !Hands(s, st, id) && !Defers(s, st, id) && !GivesUp(s, st, id)
  {
    NewlyQueued(s, st, id);
    Unknown(s, st, id);
    assert Apply(true, s, st).tasks == s.tasks;
  }

  lemma NewlyQueued(s: State, st: Step, id: Uuid)
    requires LedgerOk(s.t) && Enabled(true, s, st)
    requires id !in s.t.outbox && id in Apply(true, s, st).t.outbox
    ensures st.IngestNew? && id !in s.t.ledger && Apply(true, s, st).t.outbox[id].attempts == 0
  {
  }

  lemma Unknown(s: State, st: Step, id: Uuid)
    requires LedgerOk(s.t) && TasksOk(s) && Enabled(true, s, st) && id !in s.t.ledger
    ensures !ClaimsRow(st, id) && !Hands(s, st, id) && !Defers(s, st, id) && !GivesUp(s, st, id)
  {
  }

  lemma BalanceStep(s: State, st: Step, id: Uuid, c: Tally)
    requires LedgerOk(s.t) && TasksOk(s) && Enabled(true, s, st) && Balanced(s, id, c)
    ensures Balanced(Apply(true, s, st), id, TallyAfter(s, st, id, c))
  {
    LedgerGrows(s, st);
    if id !in s.t.ledger {
      Unknown(s, st, id);
    }
    if id in Apply(true, s, st).t.outbox {
      if id !in s.t.outbox {
        FreshRow(s, st, id);
      } else {
        AttemptsMove(s, st, id);
        if ClaimsRow(st, id) {
          UndecidedClaim(s, st, id);
        } else if Hands(s, st, id) || Defers(s, st, id) || GivesUp(s, st, id) {
          UndecidedEnds(s, st, id);
        } else {
          UndecidedStays(s, st, id);
        }
      }
    }
  }

  lemma BalanceAt(ss: seq<State>, steps: seq<Step>, n: nat, id: Uuid, c: Tally)
    requires Run(true, ss, steps) && n < |steps| && Balanced(ss[n], id, c)
    ensures Balanced(ss[n + 1], id, TallyAfter(ss[n], steps[n], id, c))
  {
    RunInv(ss, steps, n);
    assert StepAt(true, ss, steps, n);
    BalanceStep(ss[n], steps[n], id, c);
  }

  lemma {:induction false} RunBalanced(ss: seq<State>, steps: seq<Step>, n: nat, id: Uuid)
    requires Run(true, ss, steps) && n < |ss|
    ensures Balanced(ss[n], id, TallyOf(ss, steps, n, id))
  {
    if n == 0 {
    } else {
      RunBalanced(ss, steps, n - 1, id);
      BalanceAt(ss, steps, n - 1, id, TallyOf(ss, steps, n - 1, id));
    }
  }

  // Over every run: a queued row's attempts are its claims so far, and each
  // claim was a provider call, a deferral or a task given up before a call,
  // or is still undecided.
  lemma AttemptsExact(ss: seq<State>, steps: seq<Step>, n: nat, id: Uuid)
    requires Run(true, ss, steps) && n < |ss| && id in ss[n].t.outbox
    ensures var c := TallyOf(ss, steps, n, id);
            && ss[n].t.outbox[id].attempts == c.claims
            && c.claims == c.calls + c.deferrals + c.givenUp + if Undecided(ss[n], id) then 1 else 0
  {
    RunBalanced(ss, steps, n, id);
  }

  // A retryable answer ends the message exactly when its calls, deferrals
  // and tasks given up have reached eight together: eight calls are promised
  // only to a message that was never deferred or given up.
  lemma RetryEndsExact(ss: seq<State>, steps: seq<Step>, n: nat)
    requires Run(true, ss, steps) && n < |steps| && steps[n].Settle?
    requires steps[n].task in ss[n].tasks && ss[n].tasks[steps[n].task].phase == Answered(Retryable)
    ensures var id := ss[n].tasks[steps[n].task].row;
            var c := TallyOf(ss, steps, n, id);
            && (id !in ss[n + 1].t.outbox <==> c.calls + c.deferrals + c.givenUp >= MAX_SEND_ATTEMPTS)
            && (id !in ss[n + 1].t.outbox ==> Finalised(ss[n + 1], id))
  {
    RunInv(ss, steps, n);
    assert StepAt(true, ss, steps, n);
    var task := steps[n].task;
    var id := ss[n].tasks[task].row;
    AttemptsExact(ss, steps, n, id);
    assert !Undecided(ss[n], id);
  }

  // -------------------------------------------------------- a run that climbs

  const ID: Uuid := 1
  const EMPTY := State(Tables(map[], map[], {}, map[]), map[], multiset{}, multiset{}, multiset{}, multiset{})

  function RowAt(attempts: nat): OutboxRow {
    OutboxRow(Target("sms", 5, None), Transactional, 1, 0, None, None, attempts, None)
  }

  // Stored, claimed and put off that many times, never handed over.
  function Waiting(attempts: nat): State {
    EMPTY.(t := Tables(map[ID := RowAt(attempts)], map[ID := Request(5, None)], {}, map[(5, "k") := ID]))
  }

  // A claim at time 0 and a deferral back to time 0, again and again.
  function Rounds(n: nat): seq<Step> {
    if n == 0 then [IngestNew("k", ID, RowAt(0))]
    else Rounds(n - 1) + [ClaimOne(0, ID, 0, 9), Defer(0, 0)]
  }

  lemma OneRound(n: nat)
    requires n < MAX_SMALLINT
    ensures Reaches(Waiting(n), [ClaimOne(0, ID, 0, 9), Defer(0, 0)], Waiting(n + 1))
  {
    var s := Waiting(n);
    var s1 := Apply(true, s, ClaimOne(0, ID, 0, 9));
    assert s1.t.outbox == map[ID := Leased(RowAt(n), 9)];
    assert s1.tasks == map[0 := Task(ID, n + 1, Gating)];
    var s2 := Apply(true, s1, Defer(0, 0));
    assert s2.t.outbox == map[ID := RowAt(n + 1)] && s2.tasks == map[];
    ReachesOne(s1, Defer(0, 0));
    ReachesMore(s, ClaimOne(0, ID, 0, 9), [Defer(0, 0)], s2);
    assert [ClaimOne(0, ID, 0, 9)] + [Defer(0, 0)] == [ClaimOne(0, ID, 0, 9), Defer(0, 0)];
  }

  lemma Stored()
    ensures Reaches(EMPTY, [IngestNew("k", ID, RowAt(0))], Waiting(0))
  {
    var s := Apply(true, EMPTY, IngestNew("k", ID, RowAt(0)));
    assert s == Waiting(0);
    ReachesOne(EMPTY, IngestNew("k", ID, RowAt(0)));
  }

  ghost predicate Climbed(n: nat) {
    Reaches(EMPTY, Rounds(n), Waiting(n))
  }

  lemma ClimbedOn(n: nat)
    requires n < MAX_SMALLINT && Climbed(n)
    ensures Climbed(n + 1)
  {
    OneRound(n);
    ReachesOn(EMPTY, Rounds(n), Waiting(n), [ClaimOne(0, ID, 0, 9), Defer(0, 0)], Waiting(n + 1));
  }

  // A row deferred to a time already past climbs one attempt per turn of the
  // channel loop, up to the column's limit, where every claim of the channel
  // fails (Outbox.LimitRowIsStuck).
  lemma {:induction false} Climbs(n: nat)
    requires n <= MAX_SMALLINT
    ensures Climbed(n)
  {
    if n == 0 {
      Stored();
    } else {
      Climbs(n - 1);
      ClimbedOn(n - 1);
    }
  }

  // Both together: a reachable state in which the channel's claim fails,
  // whatever it picks and however often it is repeated.
  lemma ClimbsToTheLimit(n: nat)
    requires n == MAX_SMALLINT
    ensures Reaches(EMPTY, Rounds(n), Waiting(n)) && Waiting(n).handed[ID] == 0
    ensures var outbox := Waiting(n).t.outbox;
            forall claimed, outbox' ::
              ClaimStep(outbox, ClaimCandidates(outbox, "sms", 0, NO_EXCLUSION), 20, 9, claimed, outbox') ==>
                claimed.None? && outbox' == outbox
  {
    Climbs(n);
    var outbox := Waiting(n).t.outbox;
    forall claimed, outbox' |
      ClaimStep(outbox, ClaimCandidates(outbox, "sms", 0, NO_EXCLUSION), 20, 9, claimed, outbox')
      ensures claimed.None? && outbox' == outbox
    {
      LimitRowIsStuck(claimed, outbox');
    }
  }

  // After seven deferrals the first provider call is the last: a retryable
  // answer finalises the message as failed.
  lemma FirstCallIsLast() returns (after: State)
    ensures Reaches(EMPTY, Rounds(7) + [ClaimOne(0, ID, 0, 9), Recheck(0), Hand(0, Retryable), Settle(0, 0, 30)], after)
    ensures after.handed[ID] == 1 && ID !in after.t.outbox
    ensures ID in after.t.ledger && after.t.ledger[ID].finalStatus == Some(Failed)
  {
    Climbs(7);
    after := LastCall();
    ReachesOn(EMPTY, Rounds(7), Waiting(7),
              [ClaimOne(0, ID, 0, 9), Recheck(0), Hand(0, Retryable), Settle(0, 0, 30)], after);
  }

  // Claimed for the eighth time, and not cancelled.
  function Eighth(phase: Phase): State {
    var s := Waiting(7);
    s.(t := s.t.(outbox := map[ID := Leased(RowAt(7), 9)]), tasks := map[0 := Task(ID, 8, phase)])
  }

  lemma EighthClaim()
    ensures Reaches(Waiting(7), [ClaimOne(0, ID, 0, 9), Recheck(0)], Eighth(Cleared))
  {
    var s := Apply(true, Waiting(7), ClaimOne(0, ID, 0, 9));
    assert s.t.outbox == Eighth(Gating).t.outbox && s.tasks == Eighth(Gating).tasks;
    assert s == Eighth(Gating);
    var after := Apply(true, s, Recheck(0));
    assert after.tasks == Eighth(Cleared).tasks;
    assert after == Eighth(Cleared);
    ReachesOne(s, Recheck(0));
    ReachesMore(Waiting(7), ClaimOne(0, ID, 0, 9), [Recheck(0)], after);
    assert [ClaimOne(0, ID, 0, 9)] + [Recheck(0)] == [ClaimOne(0, ID, 0, 9), Recheck(0)];
  }

  lemma EighthCall() returns (after: State)
    ensures Reaches(Eighth(Cleared), [Hand(0, Retryable), Settle(0, 0, 30)], after)
    ensures after.handed[ID] == 1 && ID !in after.t.outbox
    ensures ID in after.t.ledger && after.t.ledger[ID].finalStatus == Some(Failed)
  {
    var s := Apply(true, Eighth(Cleared), Hand(0, Retryable));
    after := Apply(true, s, Settle(0, 0, 30));
    ReachesOne(s, Settle(0, 0, 30));
    ReachesMore(Eighth(Cleared), Hand(0, Retryable), [Settle(0, 0, 30)], after);
    assert [Hand(0, Retryable)] + [Settle(0, 0, 30)] == [Hand(0, Retryable), Settle(0, 0, 30)];
  }

  lemma LastCall() returns (after: State)
    ensures Reaches(Waiting(7), [ClaimOne(0, ID, 0, 9), Recheck(0), Hand(0, Retryable), Settle(0, 0, 30)], after)
    ensures after.handed[ID] == 1 && ID !in after.t.outbox
    ensures ID in after.t.ledger && after.t.ledger[ID].finalStatus == Some(Failed)
  {
    EighthClaim();
    after := EighthCall();
    ReachesOn(Waiting(7), [ClaimOne(0, ID, 0, 9), Recheck(0)], Eighth(Cleared),
              [Hand(0, Retryable), Settle(0, 0, 30)], after);
    assert [ClaimOne(0, ID, 0, 9), Recheck(0)] + [Hand(0, Retryable), Settle(0, 0, 30)]
        == [ClaimOne(0, ID, 0, 9), Recheck(0), Hand(0, Retryable), Settle(0, 0, 30)];
  }
}
