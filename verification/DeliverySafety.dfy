/** What holds of every message over every run of the delivery machine. */
module DeliverySafety {
  import opened Base
  import opened Outbox
  import opened Delivery

  // ------------------------------------------------- each step keeps it all

  lemma LedgerSettle(guarded: bool, s: State, st: Step)
    requires LedgerOk(s.t) && TasksKnown(s) && Enabled(guarded, s, st) && st.Settle?
    ensures LedgerOk(Apply(guarded, s, st).t)
  {
    var t, t' := s.t, Apply(guarded, s, st).t;
    assert t'.outbox.Keys == t.outbox.Keys || t'.outbox.Keys == t.outbox.Keys - {s.tasks[st.task].row};
  }

  lemma LedgerPromote(guarded: bool, s: State, st: Step)
    requires LedgerOk(s.t) && EventsOk(s.t) && Enabled(guarded, s, st) && st.Promote?
    ensures LedgerOk(Apply(guarded, s, st).t)
  {
  }

  lemma LedgerEnds(guarded: bool, s: State, st: Step)
    requires LedgerOk(s.t) && TasksKnown(s) && Enabled(guarded, s, st) && (st.Block? || st.WriteCancelled?)
    ensures LedgerOk(Apply(guarded, s, st).t)
  {
  }

  lemma LedgerNew(guarded: bool, s: State, st: Step)
    requires LedgerOk(s.t) && Enabled(guarded, s, st) && (st.IngestNew? || st.AuditOtp?)
    ensures LedgerOk(Apply(guarded, s, st).t)
  {
    assert forall id :: id in s.t.ledger ==> id in Apply(guarded, s, st).t.ledger;
  }

  // No other step changes the ledger, or what the queue holds for whom.
  lemma LedgerOther(guarded: bool, s: State, st: Step)
    requires LedgerOk(s.t) && Enabled(guarded, s, st)
    requires !st.Settle? && !st.Promote? && !st.Block? && !st.WriteCancelled? && !st.IngestNew? && !st.AuditOtp?
    ensures LedgerOk(Apply(guarded, s, st).t)
  {
    assert Apply(guarded, s, st).t.ledger == s.t.ledger;
    assert Apply(guarded, s, st).t.outbox.Keys == s.t.outbox.Keys;
  }

  lemma LedgerStep(guarded: bool, s: State, st: Step)
    requires LedgerOk(s.t) && EventsOk(s.t) && TasksKnown(s) && Enabled(guarded, s, st)
    ensures LedgerOk(Apply(guarded, s, st).t)
  {
    match st
    case Settle(task, now, retryAt) => LedgerSettle(guarded, s, st);
    case Promote(_, _, _, _, _) => LedgerPromote(guarded, s, st);
    case Block(_, _, _) => LedgerEnds(guarded, s, st);
    case IngestNew(_, _, _) => LedgerNew(guarded, s, st);
    case AuditOtp(_, _, _, _, _) => LedgerNew(guarded, s, st);
    case WriteCancelled(_, _) => LedgerEnds(guarded, s, st);
    case _ => LedgerOther(guarded, s, st);
  }

  lemma EventsStep(guarded: bool, s: State, st: Step)
    requires LedgerOk(s.t) && EventsOk(s.t) && TasksKnown(s) && Enabled(guarded, s, st)
    ensures EventsOk(Apply(guarded, s, st).t)
  {
  }

  lemma KeysStep(guarded: bool, s: State, st: Step)
    requires KeysOk(s.t) && Enabled(guarded, s, st)
    ensures KeysOk(Apply(guarded, s, st).t)
  {
  }

  lemma KnownStep(guarded: bool, s: State, st: Step)
    requires LedgerOk(s.t) && TasksKnown(s) && Enabled(guarded, s, st)
    ensures TasksKnown(Apply(guarded, s, st))
  {
  }

  // The tables agree whatever the sweep does.
  lemma TablesStep(guarded: bool, s: State, st: Step)
    requires TablesOk(s) && Enabled(guarded, s, st)
    ensures TablesOk(Apply(guarded, s, st))
  {
    LedgerStep(guarded, s, st);
    EventsStep(guarded, s, st);
    KeysStep(guarded, s, st);
    KnownStep(guarded, s, st);
  }

  lemma {:induction false} RunTables(guarded: bool, ss: seq<State>, steps: seq<Step>, i: nat)
    requires Run(guarded, ss, steps) && i < |ss|
    ensures TablesOk(ss[i])
  {
    if i == 0 {
    } else {
      RunTables(guarded, ss, steps, i - 1);
      assert StepAt(guarded, ss, steps, i - 1);
      TablesStep(guarded, ss[i - 1], steps[i - 1]);
    }
  }

  // What a step other than its holder's own does to a held row.
  lemma HeldRowStep(s: State, st: Step, k: nat)
    requires LedgerOk(s.t) && TasksOk(s) && Enabled(true, s, st) && k in s.tasks && k in Apply(true, s, st).tasks
    ensures var s' := Apply(true, s, st);
            && s'.tasks[k].row == s.tasks[k].row && s'.tasks[k].attempts == s.tasks[k].attempts
            && s.tasks[k].row in s'.t.outbox
            && s'.t.outbox[s.tasks[k].row].leasedUntil == s.t.outbox[s.tasks[k].row].leasedUntil
            && s'.t.outbox[s.tasks[k].row].attempts == s.t.outbox[s.tasks[k].row].attempts
  {
  }

  lemma TasksStep(s: State, st: Step)
    requires LedgerOk(s.t) && TasksOk(s) && Enabled(true, s, st)
    ensures TasksOk(Apply(true, s, st))
  {
    var s' := Apply(true, s, st);
    forall k | k in s'.tasks
      ensures s'.tasks[k].row in s'.t.outbox
      ensures s'.t.outbox[s'.tasks[k].row].leasedUntil.Some?
      ensures s'.t.outbox[s'.tasks[k].row].attempts == s'.tasks[k].attempts
      ensures forall l :: l in s'.tasks && l != k ==> s'.tasks[k].row != s'.tasks[l].row
    {
      if k in s.tasks {
        HeldRowStep(s, st, k);
      }
      forall l | l in s'.tasks && l != k
        ensures s'.tasks[k].row != s'.tasks[l].row
      {
        if l in s.tasks {
          HeldRowStep(s, st, l);
        }
      }
    }
  }

  lemma NotAnsweredStep(s: State, st: Step, id: Uuid)
    requires LedgerOk(s.t) && TasksOk(s) && Enabled(true, s, st)
    requires NotAnswered(Apply(true, s, st), id)
    ensures NotAnswered(s, id) || ((st.Settle? || st.Abandon?) && s.tasks[st.task].row == id)
  {
    var s' := Apply(true, s, st);
    forall k | k in s.tasks && s.tasks[k].row == id && !((st.Settle? || st.Abandon?) && st.task == k)
      ensures !s.tasks[k].phase.Answered?
    {
      if k in s'.tasks {
        HeldRowStep(s, st, k);
      }
    }
  }

  // A task past its re-read, but not yet answered, may make one more call.
  lemma ClearedMayCall(s: State, k: nat)
    requires TasksOk(s) && SendsOk(s) && k in s.tasks && !s.tasks[k].phase.Answered?
    ensures NotAnswered(s, s.tasks[k].row)
    ensures s.handed[s.tasks[k].row] < MAX_SEND_ATTEMPTS + s.lost[s.tasks[k].row]
    ensures s.accepted[s.tasks[k].row] == s.lostAccepted[s.tasks[k].row]
    ensures s.handed[s.tasks[k].row] < s.t.outbox[s.tasks[k].row].attempts
  {
    forall l | l in s.tasks && s.tasks[l].row == s.tasks[k].row
      ensures l == k
    {
    }
  }

  lemma CallsStep(s: State, st: Step)
    requires LedgerOk(s.t) && TasksOk(s) && SendsOk(s) && Enabled(true, s, st)
    ensures CallsOk(Apply(true, s, st))
  {
    var s' := Apply(true, s, st);
    LedgerGrows(s, st);
    forall id
      ensures s'.handed[id] <= MAX_SEND_ATTEMPTS + s'.lost[id] && s'.accepted[id] <= 1 + s'.lostAccepted[id]
      ensures id !in s'.t.ledger ==> s'.handed[id] == 0 && s'.accepted[id] == 0 && s'.lostAccepted[id] == 0
    {
      RecordStep(true, s, st, id);
      if Hands(s, st, id) {
        ClearedMayCall(s, st.task);
      }
    }
  }

  lemma LedgerGrows(s: State, st: Step)
    requires Enabled(true, s, st)
    ensures s.t.ledger.Keys <= Apply(true, s, st).t.ledger.Keys
  {
  }

  lemma AttemptsGrow(s: State, st: Step, id: Uuid)
    requires LedgerOk(s.t) && Enabled(true, s, st) && id in Apply(true, s, st).t.outbox
    ensures if id in s.t.outbox then s.t.outbox[id].attempts <= Apply(true, s, st).t.outbox[id].attempts
            else id !in s.t.ledger && Apply(true, s, st).t.outbox[id].attempts == 0
  {
  }

  lemma AttemptsStep(s: State, st: Step, id: Uuid)
    requires LedgerOk(s.t) && TasksOk(s) && SendsOk(s) && Enabled(true, s, st)
    requires id in Apply(true, s, st).t.outbox
    ensures Apply(true, s, st).handed[id] <= Apply(true, s, st).t.outbox[id].attempts
  {
    AttemptsGrow(s, st, id);
    RecordStep(true, s, st, id);
    if Hands(s, st, id) {
      ClearedMayCall(s, st.task);
    }
  }

  lemma UnansweredStep(s: State, st: Step, id: Uuid)
    requires LedgerOk(s.t) && TasksOk(s) && SendsOk(s) && Enabled(true, s, st)
    requires id in Apply(true, s, st).t.outbox && NotAnswered(Apply(true, s, st), id)
    ensures var s' := Apply(true, s, st);
            s'.handed[id] < MAX_SEND_ATTEMPTS + s'.lost[id] && s'.accepted[id] == s'.lostAccepted[id]
  {
    NotAnsweredStep(s, st, id);
    RecordStep(true, s, st, id);
    HandsAnswered(s, st, id);
    if st.Settle? {
      UnansweredSettle(s, st, id);
    } else if st.Abandon? {
      UnansweredAbandon(s, st, id);
    } else {
      AttemptsGrow(s, st, id);
    }
  }

  lemma HandsAnswered(s: State, st: Step, id: Uuid)
    requires Enabled(true, s, st)
    ensures Hands(s, st, id) ==> !NotAnswered(Apply(true, s, st), id)
  {
    if Hands(s, st, id) {
      assert Apply(true, s, st).tasks[st.task].phase.Answered?;
    }
  }

  lemma UnansweredSettle(s: State, st: Step, id: Uuid)
    requires TasksOk(s) && SendsOk(s) && Enabled(true, s, st) && st.Settle?
    requires id in Apply(true, s, st).t.outbox && (NotAnswered(s, id) || s.tasks[st.task].row == id)
    ensures s.handed[id] < MAX_SEND_ATTEMPTS + s.lost[id] && s.accepted[id] == s.lostAccepted[id]
  {
    StillQueued(s, st, id);
    if s.tasks[st.task].row == id {
      AnsweredRow(s, st.task);
    } else {
      Unanswered(s, id);
    }
  }

  // A write that leaves its row queued is a retry below the cap.
  lemma StillQueued(s: State, st: Step, id: Uuid)
    requires Enabled(true, s, st) && st.Settle? && id in Apply(true, s, st).t.outbox
    ensures id in s.t.outbox
    ensures s.tasks[st.task].row == id ==>
              s.tasks[st.task].phase == Answered(Retryable) && s.tasks[st.task].attempts < MAX_SEND_ATTEMPTS
  {
  }

  lemma AnsweredRow(s: State, k: nat)
    requires TasksOk(s) && QueueCallsOk(s) && TaskCallsOk(s) && k in s.tasks && s.tasks[k].phase.Answered?
    ensures s.handed[s.tasks[k].row] <= s.tasks[k].attempts
    ensures s.accepted[s.tasks[k].row]
            == s.lostAccepted[s.tasks[k].row] + if IsAccepted(s.tasks[k].phase) then 1 else 0
  {
  }

  lemma UnansweredAbandon(s: State, st: Step, id: Uuid)
    requires TasksOk(s) && SendsOk(s) && Enabled(true, s, st) && st.Abandon?
    requires id in s.t.outbox && (NotAnswered(s, id) || s.tasks[st.task].row == id)
    ensures var s' := Apply(true, s, st);
            s'.handed[id] < MAX_SEND_ATTEMPTS + s'.lost[id] && s'.accepted[id] == s'.lostAccepted[id]
  {
    RecordStep(true, s, st, id);
    if s.tasks[st.task].row != id {
      Unanswered(s, id);
    } else if s.tasks[st.task].phase.Answered? {
      GivenUp(s, st.task);
    } else {
      ClearedMayCall(s, st.task);
    }
  }

  lemma Unanswered(s: State, id: Uuid)
    requires QueueCallsOk(s) && id in s.t.outbox && NotAnswered(s, id)
    ensures s.handed[id] < MAX_SEND_ATTEMPTS + s.lost[id] && s.accepted[id] == s.lostAccepted[id]
  {
  }

  lemma GivenUp(s: State, k: nat)
    requires SendsOk(s) && k in s.tasks && s.tasks[k].phase.Answered?
    ensures var row := s.tasks[k].row;
            && s.handed[row] <= MAX_SEND_ATTEMPTS + s.lost[row]
            && s.accepted[row] == s.lostAccepted[row] + if IsAccepted(s.tasks[k].phase) then 1 else 0
  {
  }

  lemma TaskCallsStep(s: State, st: Step, k: nat)
    requires LedgerOk(s.t) && TasksOk(s) && SendsOk(s) && Enabled(true, s, st)
    requires k in Apply(true, s, st).tasks
    ensures var s' := Apply(true, s, st);
            var row := s'.tasks[k].row;
            match s'.tasks[k].phase
            case Answered(result) => s'.accepted[row] == s'.lostAccepted[row] + if result.Accepted? then 1 else 0
            case _ => s'.handed[row] < s'.tasks[k].attempts
  {
    if k in s.tasks {
      HeldRowStep(s, st, k);
      RecordStep(true, s, st, s.tasks[k].row);
      if st.Hand? && st.task == k {
        ClearedMayCall(s, k);
      } else {
        OwnTaskOnly(s, st, k);
      }
    }
  }

  // A task's row is handed over and given up on by that task alone.
  lemma OwnTaskOnly(s: State, st: Step, k: nat)
    requires TasksOk(s) && Enabled(true, s, st) && k in s.tasks && k in Apply(true, s, st).tasks
    requires !(st.Hand? && st.task == k)
    ensures !Hands(s, st, s.tasks[k].row) && !Loses(s, st, s.tasks[k].row)
    ensures Apply(true, s, st).tasks[k].phase.Answered? <==> s.tasks[k].phase.Answered?
    ensures s.tasks[k].phase.Answered? ==> Apply(true, s, st).tasks[k].phase == s.tasks[k].phase
  {
  }

  lemma SendsStep(s: State, st: Step)
    requires LedgerOk(s.t) && TasksOk(s) && SendsOk(s) && Enabled(true, s, st)
    ensures SendsOk(Apply(true, s, st))
  {
    var s' := Apply(true, s, st);
    CallsStep(s, st);
    forall id | id in s'.t.outbox
      ensures s'.handed[id] <= s'.t.outbox[id].attempts
      ensures NotAnswered(s', id) ==> s'.handed[id] < MAX_SEND_ATTEMPTS + s'.lost[id] && s'.accepted[id] == s'.lostAccepted[id]
    {
      AttemptsStep(s, st, id);
      if NotAnswered(s', id) {
        UnansweredStep(s, st, id);
      }
    }
    forall k | k in s'.tasks
      ensures var row := s'.tasks[k].row;
              match s'.tasks[k].phase
              case Answered(result) => s'.accepted[row] == s'.lostAccepted[row] + if result.Accepted? then 1 else 0
              case _ => s'.handed[row] < s'.tasks[k].attempts
    {
      TaskCallsStep(s, st, k);
    }
  }

  lemma StepInv(s: State, st: Step)
    requires Inv(s) && Enabled(true, s, st)
    ensures Inv(Apply(true, s, st))
  {
    assert TasksKnown(s);
    TablesStep(true, s, st);
    TasksStep(s, st);
    SendsStep(s, st);
  }

  lemma {:induction false} RunInv(ss: seq<State>, steps: seq<Step>, i: nat)
    requires Run(true, ss, steps) && i < |ss|
    ensures Inv(ss[i])
  {
    if i == 0 {
    } else {
      RunInv(ss, steps, i - 1);
      assert StepAt(true, ss, steps, i - 1);
      StepInv(ss[i - 1], steps[i - 1]);
    }
  }

  // ----------------------------------------------- finalised means finished

  // The ledger and the queue agree in every reachable state, and an event
  // with a provider reference is never about a queued message.
  lemma LedgerMatchesQueue(guarded: bool, ss: seq<State>, steps: seq<Step>, i: nat, id: Uuid)
    requires Run(guarded, ss, steps) && i < |ss|
    ensures id in ss[i].t.ledger ==> (ss[i].t.ledger[id].finalStatus.None? <==> id in ss[i].t.outbox)
    ensures id in ss[i].t.outbox ==> id in ss[i].t.ledger
    ensures (exists e :: e in ss[i].t.events && e.request == id && e.providerRef != "") ==>
              id in ss[i].t.ledger && ss[i].t.ledger[id].finalStatus.Some?
  {
    RunTables(guarded, ss, steps, i);
  }

  ghost predicate Finalised(s: State, id: Uuid) {
    id in s.t.ledger && s.t.ledger[id].finalStatus.Some?
  }

  lemma FinalisedKept(guarded: bool, s: State, st: Step, id: Uuid)
    requires LedgerOk(s.t) && TasksKnown(s) && Enabled(guarded, s, st) && Finalised(s, id)
    ensures Finalised(Apply(guarded, s, st), id) && !(st.ClaimOne? && st.id == id)
  {
  }

  lemma FinalisedStep(guarded: bool, ss: seq<State>, steps: seq<Step>, k: nat, id: Uuid)
    requires Run(guarded, ss, steps) && k < |steps| && Finalised(ss[k], id)
    ensures Finalised(ss[k + 1], id)
    ensures !(steps[k].ClaimOne? && steps[k].id == id)
  {
    RunTables(guarded, ss, steps, k);
    assert StepAt(guarded, ss, steps, k);
    FinalisedKept(guarded, ss[k], steps[k], id);
  }

  // Once finalised, a message stays finalised, out of the queue, and is never
  // claimed.
  lemma {:induction false} FinalisedForGood(guarded: bool, ss: seq<State>, steps: seq<Step>, i: nat, j: nat, id: Uuid)
    requires Run(guarded, ss, steps) && i <= j < |ss| && Finalised(ss[i], id)
    ensures Finalised(ss[j], id) && id !in ss[j].t.outbox
    ensures j < |steps| ==> !(steps[j].ClaimOne? && steps[j].id == id)
  {
    if i == j {
    } else {
      FinalisedForGood(guarded, ss, steps, i, j - 1, id);
      FinalisedStep(guarded, ss, steps, j - 1, id);
    }
    if j < |steps| {
      FinalisedStep(guarded, ss, steps, j, id);
    }
    LedgerMatchesQueue(guarded, ss, steps, j, id);
  }

  // With the sweep running without tasks, nobody is left to send it either.
  lemma NeverSentAgain(ss: seq<State>, steps: seq<Step>, i: nat, j: nat, id: Uuid)
    requires Run(true, ss, steps) && i <= j < |steps| && Finalised(ss[i], id)
    ensures forall k :: k in ss[j].tasks ==> ss[j].tasks[k].row != id
    ensures !Hands(ss[j], steps[j], id)
  {
    FinalisedForGood(true, ss, steps, i, j, id);
    RunInv(ss, steps, j);
    assert StepAt(true, ss, steps, j);
  }

  // ------------------------------------------------------------- send bound

  ghost predicate Hands(s: State, st: Step, id: Uuid) {
    st.Hand? && st.task in s.tasks && s.tasks[st.task].row == id
  }

  // Provider calls for `id` in the first `n` steps, and the accepted ones.
  ghost function Calls(ss: seq<State>, steps: seq<Step>, n: nat, id: Uuid): nat
    requires |ss| == |steps| + 1 && n < |ss|
  {
    if n == 0 then 0 else Calls(ss, steps, n - 1, id) + if Hands(ss[n - 1], steps[n - 1], id) then 1 else 0
  }

  ghost function AcceptedCalls(ss: seq<State>, steps: seq<Step>, n: nat, id: Uuid): nat
    requires |ss| == |steps| + 1 && n < |ss|
  {
    if n == 0 then 0
    else
      AcceptedCalls(ss, steps, n - 1, id) +
      if Hands(ss[n - 1], steps[n - 1], id) && steps[n - 1].result.Accepted? then 1 else 0
  }

  // The step gives up on `id` after the provider has answered.
  ghost predicate Loses(s: State, st: Step, id: Uuid) {
    st.Abandon? && st.task in s.tasks && s.tasks[st.task].row == id && s.tasks[st.task].phase.Answered?
  }

  // Answers for `id` whose write was lost in the first `n` steps, and the
  // acceptances among them.
  ghost function LostCalls(ss: seq<State>, steps: seq<Step>, n: nat, id: Uuid): nat
    requires |ss| == |steps| + 1 && n < |ss|
  {
    if n == 0 then 0 else LostCalls(ss, steps, n - 1, id) + if Loses(ss[n - 1], steps[n - 1], id) then 1 else 0
  }

  ghost function LostAcceptances(ss: seq<State>, steps: seq<Step>, n: nat, id: Uuid): nat
    requires |ss| == |steps| + 1 && n < |ss|
  {
    if n == 0 then 0
    else
      var s, st := ss[n - 1], steps[n - 1];
      LostAcceptances(ss, steps, n - 1, id) + if Loses(s, st, id) && IsAccepted(s.tasks[st.task].phase) then 1 else 0
  }

  lemma RecordStep(guarded: bool, s: State, st: Step, id: Uuid)
    requires Enabled(guarded, s, st)
    ensures var s' := Apply(guarded, s, st);
            && s'.handed[id] == s.handed[id] + (if Hands(s, st, id) then 1 else 0)
            && s'.accepted[id] == s.accepted[id] + (if Hands(s, st, id) && st.result.Accepted? then 1 else 0)
            && s'.lost[id] == s.lost[id] + (if Loses(s, st, id) then 1 else 0)
            && s'.lostAccepted[id] == s.lostAccepted[id]
                 + (if Loses(s, st, id) && IsAccepted(s.tasks[st.task].phase) then 1 else 0)
  {
  }

  lemma {:induction false} RecordExact(guarded: bool, ss: seq<State>, steps: seq<Step>, n: nat, id: Uuid)
    requires Run(guarded, ss, steps) && n < |ss|
    ensures ss[n].handed[id] == Calls(ss, steps, n, id)
    ensures ss[n].accepted[id] == AcceptedCalls(ss, steps, n, id)
    ensures ss[n].lost[id] == LostCalls(ss, steps, n, id)
    ensures ss[n].lostAccepted[id] == LostAcceptances(ss, steps, n, id)
  {
    if n == 0 {
    } else {
      RecordExact(guarded, ss, steps, n - 1, id);
      assert StepAt(guarded, ss, steps, n - 1);
      RecordStep(guarded, ss[n - 1], steps[n - 1], id);
    }
  }

  // Across any mix of claims, deferrals, abandoned tasks, crashes and sweeps,
  // a message is handed to the provider at most eight times more often than
  // an answer was lost, and accepted at most once more often than an
  // acceptance was lost.
  lemma SendBound(ss: seq<State>, steps: seq<Step>, n: nat, id: Uuid)
    requires Run(true, ss, steps) && n < |ss|
    ensures Calls(ss, steps, n, id) <= MAX_SEND_ATTEMPTS + LostCalls(ss, steps, n, id)
    ensures AcceptedCalls(ss, steps, n, id) <= 1 + LostAcceptances(ss, steps, n, id)
    ensures id in ss[n].t.outbox && NotAnswered(ss[n], id) ==>
              AcceptedCalls(ss, steps, n, id) == LostAcceptances(ss, steps, n, id)
  {
    RunInv(ss, steps, n);
    RecordExact(true, ss, steps, n, id);
  }

  // With every write after a call succeeding: eight calls, one acceptance.
  lemma SendBoundNoneLost(ss: seq<State>, steps: seq<Step>, n: nat, id: Uuid)
    requires Run(true, ss, steps) && n < |ss|
    requires forall k :: 0 <= k < n ==> !Loses(ss[k], steps[k], id)
    ensures Calls(ss, steps, n, id) <= MAX_SEND_ATTEMPTS && AcceptedCalls(ss, steps, n, id) <= 1
  {
    SendBound(ss, steps, n, id);
    NoneLost(ss, steps, n, id);
  }

  lemma {:induction false} NoneLost(ss: seq<State>, steps: seq<Step>, n: nat, id: Uuid)
    requires |ss| == |steps| + 1 && n < |ss|
    requires forall k :: 0 <= k < n ==> !Loses(ss[k], steps[k], id)
    ensures LostCalls(ss, steps, n, id) == 0 && LostAcceptances(ss, steps, n, id) == 0
  {
    if n == 0 {
    } else {
      NoneLost(ss, steps, n - 1, id);
    }
  }

  // ------------------------------------------------------------ cancellation

  // Cancelled, or gone from the queue, with no task between re-read and call.
  ghost predicate CancelLanded(s: State, id: Uuid) {
    CancelledBut(s, id, None)
  }

  // The same, but for at most this one task.
  ghost predicate CancelledBut(s: State, id: Uuid, task: Option<nat>) {
    && id in s.t.ledger
    && (id in s.t.outbox ==> s.t.outbox[id].cancelledAt.Some?)
    && forall k :: k in s.tasks && s.tasks[k].row == id && s.tasks[k].phase.Cleared? ==> task == Some(k)
  }

  lemma CancelStep(guarded: bool, s: State, st: Step, id: Uuid, task: Option<nat>)
    requires Enabled(guarded, s, st) && CancelledBut(s, id, task)
    ensures CancelledBut(Apply(guarded, s, st), id, if Hands(s, st, id) then None else task)
    ensures Hands(s, st, id) ==> task == Some(st.task)
  {
  }

  // No provider call follows a cancel that landed before the re-read, whether
  // or not an answer is still to be written, and with any sweep.
  lemma {:induction false} NoCallAfterCancel(guarded: bool, ss: seq<State>, steps: seq<Step>, i: nat, j: nat, id: Uuid)
    requires Run(guarded, ss, steps) && i <= j < |steps| && CancelLanded(ss[i], id)
    ensures CancelLanded(ss[j], id) && !Hands(ss[j], steps[j], id)
  {
    if i == j {
    } else {
      NoCallAfterCancel(guarded, ss, steps, i, j - 1, id);
      assert StepAt(guarded, ss, steps, j - 1);
      CancelStep(guarded, ss[j - 1], steps[j - 1], id, None);
    }
    assert StepAt(guarded, ss, steps, j);
    CancelStep(guarded, ss[j], steps[j], id, None);
  }

  // A task, if any, that an accepted cancel comes too late for.
  ghost predicate TooLateFor(s: State, id: Uuid, task: Option<nat>) {
    forall k :: k in s.tasks && s.tasks[k].row == id && s.tasks[k].phase.Cleared? ==> task == Some(k)
  }

  // In a reachable state at most one task is between re-read and call.
  lemma OneTooLate(ss: seq<State>, steps: seq<Step>, i: nat, id: Uuid) returns (task: Option<nat>)
    requires Run(true, ss, steps) && i < |ss|
    ensures TooLateFor(ss[i], id, task)
  {
    RunInv(ss, steps, i);
    var s := ss[i];
    if k :| k in s.tasks && s.tasks[k].row == id && s.tasks[k].phase.Cleared? {
      task := Some(k);
    } else {
      task := None;
    }
  }

  lemma CancelBegins(ss: seq<State>, steps: seq<Step>, i: nat, id: Uuid, task: Option<nat>)
    requires Run(true, ss, steps) && i < |steps| && TooLateFor(ss[i], id, task)
    requires steps[i].RequestCancel? && steps[i].id == id && Owns(ss[i].t, id, steps[i].producer)
    ensures CancelledBut(ss[i + 1], id, task) && Calls(ss, steps, i + 1, id) == Calls(ss, steps, i, id)
  {
    RunInv(ss, steps, i);
    assert StepAt(true, ss, steps, i);
  }

  lemma CancelGoesOn(ss: seq<State>, steps: seq<Step>, k: nat, id: Uuid, task: Option<nat>)
    requires Run(true, ss, steps) && k < |steps| && CancelledBut(ss[k], id, task)
    ensures Hands(ss[k], steps[k], id) ==> task == Some(steps[k].task)
    ensures CancelledBut(ss[k + 1], id, if Hands(ss[k], steps[k], id) then None else task)
  {
    assert StepAt(true, ss, steps, k);
    CancelStep(true, ss[k], steps[k], id, task);
  }

  // After an accepted cancel of a queued message at most one call follows,
  // and only by a task that had just re-read the row.
  lemma {:induction false} OneCallAfterCancel(ss: seq<State>, steps: seq<Step>, i: nat, j: nat, id: Uuid,
                                              task: Option<nat>)
    requires Run(true, ss, steps) && i < j < |ss| && TooLateFor(ss[i], id, task)
    requires steps[i].RequestCancel? && steps[i].id == id && Owns(ss[i].t, id, steps[i].producer)
    ensures Calls(ss, steps, i, id) <= Calls(ss, steps, j, id) <= Calls(ss, steps, i, id) + 1
    ensures CancelledBut(ss[j], id, if Calls(ss, steps, j, id) == Calls(ss, steps, i, id) then task else None)
    ensures j < |steps| && Hands(ss[j], steps[j], id) ==> task == Some(steps[j].task)
    decreases j
  {
    if j == i + 1 {
      CancelBegins(ss, steps, i, id, task);
    } else {
      OneCallAfterCancel(ss, steps, i, j - 1, id, task);
      CancelGoesOn(ss, steps, j - 1, id, if Calls(ss, steps, j - 1, id) == Calls(ss, steps, i, id) then task else None);
    }
    if j < |steps| {
      CancelGoesOn(ss, steps, j, id, if Calls(ss, steps, j, id) == Calls(ss, steps, i, id) then task else None);
    }
  }

  // What a cancel answers in a reachable state: accepted while queued,
  // otherwise decided by the final status, and never "not found" for a
  // request of the asking producer.
  lemma CancelAnswer(guarded: bool, ss: seq<State>, steps: seq<Step>, i: nat, id: Uuid, producer: Uuid, now: Instant)
    requires Run(guarded, ss, steps) && i < |ss|
    ensures var (t', answer) := Cancel(ss[i].t, id, producer, now);
            var mine := id in ss[i].t.ledger && ss[i].t.ledger[id].producer == producer;
            && (answer.NotFound? <==> !mine)
            && (answer.AlreadySent? <==> mine && Finalised(ss[i], id)
                                         && ss[i].t.ledger[id].finalStatus != Some(EventType.Cancelled))
            && (mine && id in ss[i].t.outbox ==> id in t'.outbox && t'.outbox[id].cancelledAt.Some?)
  {
    RunTables(guarded, ss, steps, i);
  }

  // ------------------------------------------------------------- idempotency

  lemma KeyStep(guarded: bool, s: State, st: Step, claim: (Uuid, string))
    requires Enabled(guarded, s, st) && claim in s.t.idempotency && st != ForgetKey(claim)
    ensures claim in Apply(guarded, s, st).t.idempotency
    ensures Apply(guarded, s, st).t.idempotency[claim] == s.t.idempotency[claim]
  {
  }

  // Until the nightly sweep forgets a key, every later request under it is
  // answered with the first one's id, creates nothing, and that id is a
  // request of the same producer.
  lemma {:induction false} IngestOnce(guarded: bool, ss: seq<State>, steps: seq<Step>, i: nat, j: nat, key: string, id: Uuid,
                                      row: OutboxRow)
    requires Run(guarded, ss, steps) && i < j < |ss|
    requires steps[i].IngestNew? && steps[i].key == key && steps[i].row.target.producer == row.target.producer
    requires Ingest(ss[i].t, key, steps[i].id, steps[i].row).1 == Created
    requires forall k :: i < k < j ==> steps[k] != ForgetKey((row.target.producer, key))
    ensures Ingest(ss[j].t, key, id, row) == (ss[j].t, Replayed(steps[i].id))
    ensures steps[i].id in ss[j].t.ledger && ss[j].t.ledger[steps[i].id].producer == row.target.producer
  {
    if i + 1 < j {
      IngestOnce(guarded, ss, steps, i, j - 1, key, id, row);
      assert StepAt(guarded, ss, steps, j - 1);
      KeyStep(guarded, ss[j - 1], steps[j - 1], (row.target.producer, key));
    } else {
      assert StepAt(guarded, ss, steps, i);
    }
    RunTables(guarded, ss, steps, j);
  }

  predicate AsksUnder(st: Step, claim: (Uuid, string)) {
    st.IngestNew? && (st.row.target.producer, st.key) == claim
  }

  // The key was forgotten between the two points and no request has used it
  // again since.
  ghost predicate ForgottenBetween(steps: seq<Step>, i: nat, j: nat, claim: (Uuid, string))
    requires j <= |steps|
  {
    exists k :: i <= k < j && steps[k] == ForgetKey(claim) && forall m :: k < m < j ==> !AsksUnder(steps[m], claim)
  }

  lemma KeyMoves(guarded: bool, ss: seq<State>, steps: seq<Step>, k: nat, claim: (Uuid, string))
    requires Run(guarded, ss, steps) && k < |steps|
    ensures claim in ss[k + 1].t.idempotency <==>
            (claim in ss[k].t.idempotency && steps[k] != ForgetKey(claim)) || AsksUnder(steps[k], claim)
  {
    assert StepAt(guarded, ss, steps, k);
  }

  // A request that lost the claim for its key at `i` re-reads it at `j`. The
  // row it insists on finding is missing exactly when the nightly job forgot
  // the key in between and nobody has used it since.
  lemma {:induction false} LostClaimExact(guarded: bool, ss: seq<State>, steps: seq<Step>, i: nat, j: nat, claim: (Uuid, string))
    requires Run(guarded, ss, steps) && i <= j < |ss| && claim in ss[i].t.idempotency
    ensures claim !in ss[j].t.idempotency <==> ForgottenBetween(steps, i, j, claim)
    decreases j
  {
    if i == j {
    } else {
      LostClaimExact(guarded, ss, steps, i, j - 1, claim);
      KeyMoves(guarded, ss, steps, j - 1, claim);
      ForgottenGrows(steps, i, j, claim);
    }
  }

  lemma ForgottenGrows(steps: seq<Step>, i: nat, j: nat, claim: (Uuid, string))
    requires i < j <= |steps|
    ensures ForgottenBetween(steps, i, j, claim) <==>
            (steps[j - 1] == ForgetKey(claim) ||
             (ForgottenBetween(steps, i, j - 1, claim) && !AsksUnder(steps[j - 1], claim)))
  {
    if steps[j - 1] == ForgetKey(claim) {
      assert ForgottenBetween(steps, i, j, claim);
    } else if ForgottenBetween(steps, i, j - 1, claim) && !AsksUnder(steps[j - 1], claim) {
      var k :| i <= k < j - 1 && steps[k] == ForgetKey(claim)
               && forall m :: k < m < j - 1 ==> !AsksUnder(steps[m], claim);
      assert forall m :: k < m < j ==> !AsksUnder(steps[m], claim);
    }
  }

  // A request stored under the key, then the nightly job: what a repeat that
  // had already lost the claim insists on is gone.
  lemma ClaimCanVanish(key: string, id: Uuid, row: OutboxRow) returns (ss: seq<State>, steps: seq<Step>)
    requires row.attempts == 0 && row.leasedUntil.None? && row.cancelledAt.None?
    ensures var claim := (row.target.producer, key);
            && steps == [IngestNew(key, id, row), ForgetKey(claim)]
            && Run(true, ss, steps) && claim in ss[1].t.idempotency && claim !in ss[2].t.idempotency
  {
    var s0 := State(Tables(map[], map[], {}, map[]), map[], multiset{}, multiset{}, multiset{}, multiset{});
    steps := [IngestNew(key, id, row), ForgetKey((row.target.producer, key))];
    var s1 := Apply(true, s0, steps[0]);
    ss := [s0, s1, Apply(true, s1, steps[1])];
    assert StepAt(true, ss, steps, 0) && StepAt(true, ss, steps, 1);
  }

  // A cancel whose update matched nothing at `i` reads the status at `j`. For
  // a request of the asking producer that status is final, so the answer is
  // never "not found"; it is right at both moments.
  lemma CancelReads(guarded: bool, ss: seq<State>, steps: seq<Step>, i: nat, j: nat, id: Uuid, producer: Uuid, now: Instant)
    requires Run(guarded, ss, steps) && i <= j < |ss| && !Owns(ss[i].t, id, producer)
    requires id in ss[i].t.ledger && ss[i].t.ledger[id].producer == producer
    ensures Finalised(ss[i], id) && Finalised(ss[j], id)
    ensures Cancel(ss[j].t, id, producer, now) ==
            (ss[j].t, if ss[j].t.ledger[id].finalStatus == Some(EventType.Cancelled) then DidCancel else AlreadySent)
  {
    RunTables(guarded, ss, steps, i);
    FinalisedForGood(guarded, ss, steps, i, j, id);
    ProducerKept(guarded, ss, steps, i, j, id);
  }

  lemma {:induction false} ProducerKept(guarded: bool, ss: seq<State>, steps: seq<Step>, i: nat, j: nat, id: Uuid)
    requires Run(guarded, ss, steps) && i <= j < |ss| && id in ss[i].t.ledger
    ensures id in ss[j].t.ledger && ss[j].t.ledger[id].producer == ss[i].t.ledger[id].producer
    decreases j
  {
    if i == j {
    } else {
      ProducerKept(guarded, ss, steps, i, j - 1, id);
      assert StepAt(guarded, ss, steps, j - 1);
      ProducerStep(guarded, ss[j - 1], steps[j - 1], id);
    }
  }

  lemma ProducerStep(guarded: bool, s: State, st: Step, id: Uuid)
    requires Enabled(guarded, s, st) && id in s.t.ledger
    ensures id in Apply(guarded, s, st).t.ledger && Apply(guarded, s, st).t.ledger[id].producer == s.t.ledger[id].producer
  {
  }
}
