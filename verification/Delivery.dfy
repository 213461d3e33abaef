/**
 * The life of a queued message as a machine over atomic steps: ingest,
 * cancel, claims by any loop or drain, tasks that carry a claimed row
 * through the gates to the provider, lease sweeps and receipt promotion.
 *
 * A batch claim is that many single-row claims in a row; which rows a claim
 * may take is left open, so every statement covers the channel loops, the
 * release drains and the discards alike. An error or a crash abandons a
 * task and leaves its row leased, even after the provider has answered: then
 * the write that should follow the call is lost.
 */
module Delivery {
  import opened Base
  import opened Outbox

  const MAX_SEND_ATTEMPTS := 8

  datatype SendResult = Accepted(providerRef: string) | Retryable | Rejected

  datatype Phase =
    | Gating                         // claimed, gates not yet passed
    | Cleared                        // cancelled_at re-read as NULL
    | MustCancel                     // cancelled_at re-read as set
    | Answered(result: SendResult)   // the provider call has returned

  // `attempts` is the claimed row's snapshot of the column.
  datatype Task = Task(row: Uuid, attempts: int, phase: Phase)

  // `handed` and `accepted` record provider calls, one entry per call; `lost`
  // and `lostAccepted` the answers whose write never happened.
  datatype State = State(
    t: Tables, tasks: map<nat, Task>, handed: multiset<Uuid>, accepted: multiset<Uuid>,
    lost: multiset<Uuid>, lostAccepted: multiset<Uuid>)

  datatype Step =
    | IngestNew(key: string, id: Uuid, row: OutboxRow)
    | AuditOtp(id: Uuid, producer: Uuid, at: Instant, status: EventType, providerRef: string)
    | ForgetKey(claim: (Uuid, string))
    | RequestCancel(id: Uuid, producer: Uuid, now: Instant)
    | ClaimOne(task: nat, id: Uuid, now: Instant, until: Instant)
    | Observe(task: nat, now: Instant)
    | Block(task: nat, now: Instant, status: EventType)
    | Defer(task: nat, at: Instant)
    | Recheck(task: nat)
    | WriteCancelled(task: nat, now: Instant)
    | Hand(task: nat, result: SendResult)
    | Settle(task: nat, now: Instant, retryAt: Instant)
    | Abandon(task: nat)
    | Sweep
    | Promote(id: Uuid, at: Instant, eventType: EventType, providerRef: string, advance: bool)

  predicate InPhase(s: State, task: nat, phase: Phase) {
    task in s.tasks && s.tasks[task].phase == phase
  }

  // With `guarded`, the lease sweep runs only while no task holds a row, as
  // it does after winning leadership in a process whose own tasks have not
  // started. `guarded == false` also allows it while tasks are running.
  ghost predicate Enabled(guarded: bool, s: State, st: Step) {
    match st
    case IngestNew(key, id, row) =>
      // a version-4 uuid; the row as ingest writes it
      id !in s.t.ledger && row.attempts == 0 && row.leasedUntil.None? && row.cancelledAt.None?
    case AuditOtp(id, producer, at, status, providerRef) => id !in s.t.ledger
    case ForgetKey(claim) => true
    case RequestCancel(id, producer, now) => true
    case ClaimOne(task, id, now, until) =>
      task !in s.tasks && id in s.t.outbox && Ready(s.t.outbox[id], now) && s.t.outbox[id].attempts < MAX_SMALLINT
    case Observe(task, now) => InPhase(s, task, Gating)
    case Block(task, now, status) => InPhase(s, task, Gating)
    case Defer(task, at) => InPhase(s, task, Gating)
    case Recheck(task) => InPhase(s, task, Gating) && s.tasks[task].row in s.t.outbox
    case WriteCancelled(task, now) => InPhase(s, task, MustCancel)
    case Hand(task, result) => InPhase(s, task, Cleared)
    case Settle(task, now, retryAt) => task in s.tasks && s.tasks[task].phase.Answered?
    case Abandon(task) => task in s.tasks
    case Sweep => guarded ==> s.tasks == map[]
    case Promote(id, at, eventType, providerRef, advance) =>
      // find_match: an event carrying this non-empty provider reference
      exists e :: e in s.t.events && e.providerRef == providerRef && providerRef != "" && e.request == id
  }

  predicate IsAccepted(phase: Phase) {
    phase.Answered? && phase.result.Accepted?
  }

  function EndTask(s: State, task: nat, t: Tables): State {
    s.(t := t, tasks := s.tasks - {task})
  }

  function SettleTables(t: Tables, task: Task, now: Instant, retryAt: Instant): Tables
    requires task.phase.Answered?
  {
    match task.phase.result
    case Accepted(providerRef) => WriteTerminal(t, task.row, now, Sent, providerRef)
    case Retryable =>
      if task.attempts < MAX_SEND_ATTEMPTS then t.(outbox := Reschedule(t.outbox, task.row, retryAt))
      else WriteTerminal(t, task.row, now, Failed, "")
    case Rejected => WriteTerminal(t, task.row, now, Failed, "")
  }

  // The ledger update of a promotion happens only on an advancing verdict.
  function PromoteTables(t: Tables, id: Uuid, at: Instant, eventType: EventType, providerRef: string, advance: bool)
    : Tables
  {
    t.(events := t.events + {Event(id, at, eventType, providerRef)},
       ledger := if advance && id in t.ledger then t.ledger[id := t.ledger[id].(finalStatus := Some(eventType))]
                 else t.ledger)
  }

  ghost function Apply(guarded: bool, s: State, st: Step): State
    requires Enabled(guarded, s, st)
  {
    match st
    case IngestNew(key, id, row) => s.(t := Ingest(s.t, key, id, row).0)
    case AuditOtp(id, producer, at, status, providerRef) =>
      s.(t := s.t.(ledger := s.t.ledger[id := Request(producer, Some(status))],
                   events := s.t.events + {Event(id, at, status, providerRef)}))
    case ForgetKey(claim) => s.(t := s.t.(idempotency := s.t.idempotency - {claim}))
    case RequestCancel(id, producer, now) => s.(t := Cancel(s.t, id, producer, now).0)
    case ClaimOne(task, id, now, until) =>
      s.(t := s.t.(outbox := Lease(s.t.outbox, {id}, until)),
         tasks := s.tasks[task := Task(id, s.t.outbox[id].attempts + 1, Gating)])
    case Observe(task, now) => s.(t := RecordEvent(s.t, s.tasks[task].row, now, UnverifiedAddress))
    case Block(task, now, status) => EndTask(s, task, WriteTerminal(s.t, s.tasks[task].row, now, status, ""))
    case Defer(task, at) => EndTask(s, task, s.t.(outbox := Reschedule(s.t.outbox, s.tasks[task].row, at)))
    case Recheck(task) =>
      var cancelled := s.t.outbox[s.tasks[task].row].cancelledAt.Some?;
      s.(tasks := s.tasks[task := s.tasks[task].(phase := if cancelled then MustCancel else Cleared)])
    case WriteCancelled(task, now) =>
      EndTask(s, task, WriteTerminal(s.t, s.tasks[task].row, now, EventType.Cancelled, ""))
    case Hand(task, result) =>
      var row := s.tasks[task].row;
      s.(tasks := s.tasks[task := s.tasks[task].(phase := Answered(result))],
         handed := s.handed + multiset{row},
         accepted := if result.Accepted? then s.accepted + multiset{row} else s.accepted)
    case Settle(task, now, retryAt) => EndTask(s, task, SettleTables(s.t, s.tasks[task], now, retryAt))
    case Abandon(task) =>
      var row, phase := s.tasks[task].row, s.tasks[task].phase;
      EndTask(s, task, s.t).(
        lost := if phase.Answered? then s.lost + multiset{row} else s.lost,
        lostAccepted := if IsAccepted(phase) then s.lostAccepted + multiset{row} else s.lostAccepted)
    case Sweep => s.(t := s.t.(outbox := ClearLeases(s.t.outbox)))
    case Promote(id, at, eventType, providerRef, advance) =>
      s.(t := PromoteTables(s.t, id, at, eventType, providerRef, advance))
  }

  ghost predicate Init(s: State) {
    s == State(Tables(map[], map[], {}, map[]), map[], multiset{}, multiset{}, multiset{}, multiset{})
  }

  ghost predicate StepAt(guarded: bool, ss: seq<State>, steps: seq<Step>, i: nat)
    requires |ss| == |steps| + 1 && i < |steps|
  {
    Enabled(guarded, ss[i], steps[i]) && ss[i + 1] == Apply(guarded, ss[i], steps[i])
  }

  ghost predicate Run(guarded: bool, ss: seq<State>, steps: seq<Step>) {
    && |ss| == |steps| + 1
    && Init(ss[0])
    && forall i :: 0 <= i < |steps| ==> StepAt(guarded, ss, steps, i)
  }

  // Running the steps one after the other reaches `after`.
  ghost predicate Reaches(s: State, steps: seq<Step>, after: State)
    decreases |steps|
  {
    if steps == [] then s == after
    else Enabled(true, s, steps[0]) && Reaches(Apply(true, s, steps[0]), steps[1..], after)
  }

  lemma ReachesOne(s: State, st: Step)
    requires Enabled(true, s, st)
    ensures Reaches(s, [st], Apply(true, s, st))
  {
    assert [st][1..] == [];
  }

  lemma ReachesMore(s: State, st: Step, rest: seq<Step>, after: State)
    requires Enabled(true, s, st) && Reaches(Apply(true, s, st), rest, after)
    ensures Reaches(s, [st] + rest, after)
  {
    assert ([st] + rest)[1..] == rest;
  }

  lemma {:induction false} ReachesOn(s: State, first: seq<Step>, mid: State, rest: seq<Step>, after: State)
    requires Reaches(s, first, mid) && Reaches(mid, rest, after)
    ensures Reaches(s, first + rest, after)
    decreases |first|
  {
    if first == [] {
      assert first + rest == rest;
    } else {
      ReachesOn(Apply(true, s, first[0]), first[1..], mid, rest, after);
      assert (first + rest)[1..] == first[1..] + rest;
    }
  }

  // ------------------------------------------------------------ invariants

  // A request is queued exactly while it has no final status, under the
  // producer that sent it.
  ghost predicate LedgerOk(t: Tables) {
    && (forall id :: id in t.outbox ==> id in t.ledger && t.outbox[id].target.producer == t.ledger[id].producer)
    && forall id :: id in t.ledger ==> (t.ledger[id].finalStatus.None? <==> id in t.outbox)
  }

  // An event with a provider reference belongs to a request that has left
  // the queue.
  ghost predicate EventsOk(t: Tables) {
    forall e :: e in t.events && e.providerRef != "" ==> e.request in t.ledger && e.request !in t.outbox
  }

  ghost predicate KeysOk(t: Tables) {
    forall k :: k in t.idempotency ==>
      t.idempotency[k] in t.ledger && t.ledger[t.idempotency[k]].producer == k.0
  }

  ghost predicate TasksKnown(s: State) {
    forall k :: k in s.tasks ==> s.tasks[k].row in s.t.ledger
  }

  // What needs no care with the sweep.
  ghost predicate TablesOk(s: State) {
    LedgerOk(s.t) && EventsOk(s.t) && KeysOk(s.t) && TasksKnown(s)
  }

  // A task holds the lease of its row, alone, and remembers its attempts.
  ghost predicate TasksOk(s: State) {
    && (forall k :: k in s.tasks ==>
          && s.tasks[k].row in s.t.outbox
          && s.t.outbox[s.tasks[k].row].leasedUntil.Some?
          && s.t.outbox[s.tasks[k].row].attempts == s.tasks[k].attempts)
    && (forall k, l :: k in s.tasks && l in s.tasks && k != l ==> s.tasks[k].row != s.tasks[l].row)
  }

  ghost predicate NotAnswered(s: State, id: Uuid) {
    forall k :: k in s.tasks && s.tasks[k].row == id ==> !s.tasks[k].phase.Answered?
  }

  ghost predicate CallsOk(s: State) {
    forall id ::
      && s.handed[id] <= MAX_SEND_ATTEMPTS + s.lost[id] && s.accepted[id] <= 1 + s.lostAccepted[id]
      && (id !in s.t.ledger ==> s.handed[id] == 0 && s.accepted[id] == 0 && s.lostAccepted[id] == 0)
  }

  // A queued row not between answer and write has been handed over fewer
  // than the allowed times, lost answers apart, each in an attempt of its own,
  // and every acceptance was lost.
  ghost predicate QueueCallsOk(s: State) {
    forall id :: id in s.t.outbox ==>
      && s.handed[id] <= s.t.outbox[id].attempts
      && (NotAnswered(s, id) ==>
            s.handed[id] < MAX_SEND_ATTEMPTS + s.lost[id] && s.accepted[id] == s.lostAccepted[id])
  }

  ghost predicate TaskCallsOk(s: State) {
    forall k :: k in s.tasks ==>
      var row := s.tasks[k].row;
      match s.tasks[k].phase
      case Answered(result) => s.accepted[row] == s.lostAccepted[row] + if result.Accepted? then 1 else 0
      case _ => s.handed[row] < s.tasks[k].attempts
  }

  ghost predicate SendsOk(s: State) {
    CallsOk(s) && QueueCallsOk(s) && TaskCallsOk(s)
  }

  ghost predicate Inv(s: State) {
    LedgerOk(s.t) && EventsOk(s.t) && KeysOk(s.t) && TasksOk(s) && SendsOk(s)
  }
}
