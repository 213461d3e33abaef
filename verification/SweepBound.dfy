/**
 * How far a lease sweep can take a message past its send bound: every sweep
 * that finds the message's lease in a task's hands allows one call and one
 * acceptance more, over all runs, however many tasks such sweeps leave side
 * by side.
 */
module SweepBound {
  import opened Base
  import opened Outbox
  import opened Delivery
  import opened DeliverySafety

  // ------------------------------------------------------- the row's holders

  datatype Kind =
    | Holder          // any task on the row
    | Early           // not answered yet, in one of the first seven attempts
    | Late            // not answered yet, in a later one
    | LateAnswered    // answered in a later one
    | Taken           // accepted
    | Open            // not accepted, so far

  predicate Is(kind: Kind, task: Task) {
    match kind
    case Holder => true
    case Early => !task.phase.Answered? && task.attempts < MAX_SEND_ATTEMPTS
    case Late => !task.phase.Answered? && task.attempts >= MAX_SEND_ATTEMPTS
    case LateAnswered => task.phase.Answered? && task.attempts >= MAX_SEND_ATTEMPTS
    case Taken => IsAccepted(task.phase)
    case Open => !IsAccepted(task.phase)
  }

  predicate IsAt(tasks: map<nat, Task>, k: nat, id: Uuid, kind: Kind) {
    k in tasks && tasks[k].row == id && Is(kind, tasks[k])
  }

  function Of(tasks: map<nat, Task>, id: Uuid, kind: Kind): set<nat> {
    set k | k in tasks && IsAt(tasks, k, id, kind)
  }

  function Count(tasks: map<nat, Task>, id: Uuid, kind: Kind): nat {
    |Of(tasks, id, kind)|
  }

  function One(tasks: map<nat, Task>, k: nat, id: Uuid, kind: Kind): nat {
    if IsAt(tasks, k, id, kind) then 1 else 0
  }

  // Nothing but task `k` differs.
  ghost predicate OnlyAt(tasks: map<nat, Task>, tasks': map<nat, Task>, k: nat) {
    forall j :: j != k ==> (j in tasks <==> j in tasks') && (j in tasks ==> tasks'[j] == tasks[j])
  }

  lemma CountMoves(tasks: map<nat, Task>, tasks': map<nat, Task>, k: nat, id: Uuid, kind: Kind)
    requires OnlyAt(tasks, tasks', k)
    ensures Count(tasks', id, kind) + One(tasks, k, id, kind) == Count(tasks, id, kind) + One(tasks', k, id, kind)
  {
    RestSame(tasks, tasks', k, id, kind);
    SizeMoves(Of(tasks, id, kind), Of(tasks', id, kind), k);
  }

  lemma RestSame(tasks: map<nat, Task>, tasks': map<nat, Task>, k: nat, id: Uuid, kind: Kind)
    requires OnlyAt(tasks, tasks', k)
    ensures Of(tasks, id, kind) - {k} == Of(tasks', id, kind) - {k}
  {
    forall j | j != k ensures IsAt(tasks, j, id, kind) <==> IsAt(tasks', j, id, kind) {
    }
  }

  lemma SizeMoves(a: set<nat>, b: set<nat>, k: nat)
    requires a - {k} == b - {k}
    ensures |b| + (if k in a then 1 else 0) == |a| + if k in b then 1 else 0
  {
    assert a == if k in a then (a - {k}) + {k} else a - {k};
    assert b == if k in b then (b - {k}) + {k} else b - {k};
  }

  lemma AllMove(tasks: map<nat, Task>, tasks': map<nat, Task>, k: nat, id: Uuid)
    requires OnlyAt(tasks, tasks', k)
    ensures forall kind :: Count(tasks', id, kind) + One(tasks, k, id, kind)
                           == Count(tasks, id, kind) + One(tasks', k, id, kind)
  {
    forall kind
      ensures Count(tasks', id, kind) + One(tasks, k, id, kind) == Count(tasks, id, kind) + One(tasks', k, id, kind)
    {
      CountMoves(tasks, tasks', k, id, kind);
    }
  }

  // Holders are late ones, answered or not, and others; accepted or not.
  lemma HoldersSplit(tasks: map<nat, Task>, id: Uuid)
    ensures Count(tasks, id, Late) + Count(tasks, id, LateAnswered) <= Count(tasks, id, Holder)
    ensures Count(tasks, id, Taken) + Count(tasks, id, Open) == Count(tasks, id, Holder)
  {
    var late, answered := Of(tasks, id, Late), Of(tasks, id, LateAnswered);
    Fits(late + answered, Of(tasks, id, Holder));
    assert |late + answered| == |late| + |answered|;
    assert Of(tasks, id, Taken) + Of(tasks, id, Open) == Of(tasks, id, Holder);
  }

  lemma Fits(a: set<nat>, b: set<nat>)
    requires a <= b
    ensures |a| <= |b|
  {
    assert b == a + (b - a);
  }

  lemma NoHolders(s: State, id: Uuid)
    requires TasksKnown(s) && id !in s.t.ledger
    ensures forall kind :: Count(s.tasks, id, kind) == 0
  {
    forall kind ensures Of(s.tasks, id, kind) == {} {
    }
  }

  // --------------------------------------------------------------- the books

  // Calls in the first seven attempts, calls in later ones less those whose
  // answer was lost, and sweeps that found the row leased with a holder.
  datatype Books = Books(early: nat, late: int, sweeps: nat)

  ghost predicate SweepsHeld(s: State, st: Step, id: Uuid) {
    st.Sweep? && id in s.t.outbox && s.t.outbox[id].leasedUntil.Some? && Count(s.tasks, id, Holder) > 0
  }

  ghost function Entered(b: Books, s: State, st: Step, id: Uuid): Books {
    if Hands(s, st, id) then
      if s.tasks[st.task].attempts < MAX_SEND_ATTEMPTS then b.(early := b.early + 1) else b.(late := b.late + 1)
    else if Loses(s, st, id) && s.tasks[st.task].attempts >= MAX_SEND_ATTEMPTS then b.(late := b.late - 1)
    else if SweepsHeld(s, st, id) then b.(sweeps := b.sweeps + 1)
    else b
  }

  function Kept(s: State, id: Uuid): int {
    s.accepted[id] as int - s.lostAccepted[id] as int
  }

  // While queued: one attempt per early call or holder that may still make
  // one, late and accepted answers only with holders about to write them, and
  // no more holders than the lease and the sweeps account for.
  ghost predicate Waits(s: State, id: Uuid, b: Books)
    requires id in s.t.outbox
  {
    var attempts, leased := s.t.outbox[id].attempts, if s.t.outbox[id].leasedUntil.Some? then 1 else 0;
    && 0 <= attempts && b.early + Count(s.tasks, id, Early) <= Min(attempts, MAX_SEND_ATTEMPTS - 1)
    && b.late == Count(s.tasks, id, LateAnswered) && Kept(s, id) == Count(s.tasks, id, Taken)
    && Count(s.tasks, id, Holder) <= leased + b.sweeps
  }

  // Afterwards nobody claims it, and the holders left are accounted for.
  ghost predicate Winds(s: State, id: Uuid, b: Books) {
    && b.early + Count(s.tasks, id, Early) <= MAX_SEND_ATTEMPTS - 1
    && b.late + Count(s.tasks, id, Late) <= 1 + b.sweeps
    && Kept(s, id) + Count(s.tasks, id, Open) <= 1 + b.sweeps
  }

  ghost predicate Balanced(s: State, id: Uuid, b: Books) {
    if id in s.t.outbox then Waits(s, id, b)
    else if id in s.t.ledger then Winds(s, id, b)
    else b.early == 0 && b.late == 0 && Kept(s, id) == 0
  }

  // ---------------------------------------------------------- step by step

  // Which task a step is about, if any.
  function Actor(st: Step): nat {
    match st
    case ClaimOne(task, _, _, _) => task
    case Observe(task, _) => task
    case Block(task, _, _) => task
    case Defer(task, _) => task
    case Recheck(task) => task
    case WriteCancelled(task, _) => task
    case Hand(task, _) => task
    case Settle(task, _, _) => task
    case Abandon(task) => task
    case _ => 0
  }

  lemma OnlyActor(s: State, st: Step)
    requires Enabled(false, s, st)
    ensures OnlyAt(s.tasks, Apply(false, s, st).tasks, Actor(st))
  {
  }

  // What the counts of one message's holders do at a step.
  ghost predicate CountsMove(s: State, st: Step, id: Uuid)
    requires Enabled(false, s, st)
  {
    var s', k := Apply(false, s, st), Actor(st);
    forall kind :: Count(s'.tasks, id, kind) + One(s.tasks, k, id, kind)
                   == Count(s.tasks, id, kind) + One(s'.tasks, k, id, kind)
  }

  lemma StepMoves(s: State, st: Step, id: Uuid)
    requires Enabled(false, s, st)
    ensures CountsMove(s, st, id)
  {
    OnlyActor(s, st);
    AllMove(s.tasks, Apply(false, s, st).tasks, Actor(st), id);
  }

  // The step's task is on this message, or the step claims it.
  ghost predicate About(s: State, st: Step, id: Uuid) {
    (st.ClaimOne? && st.id == id) || (Actor(st) in s.tasks && s.tasks[Actor(st)].row == id && IsTaskStep(st))
  }

  predicate IsTaskStep(st: Step) {
    st.Observe? || st.Block? || st.Defer? || st.Recheck? || st.WriteCancelled? || st.Hand? || st.Settle? || st.Abandon?
  }

  // ------------------------------------------------ steps of somebody else

  lemma OthersCount(s: State, st: Step, id: Uuid)
    requires Enabled(false, s, st) && !About(s, st, id)
    ensures forall kind :: Count(Apply(false, s, st).tasks, id, kind) == Count(s.tasks, id, kind)
    ensures Kept(Apply(false, s, st), id) == Kept(s, id)
  {
    StepMoves(s, st, id);
    var s', k := Apply(false, s, st), Actor(st);
    forall kind ensures One(s.tasks, k, id, kind) == One(s'.tasks, k, id, kind) {
    }
  }

  lemma OthersRow(s: State, st: Step, id: Uuid)
    requires Enabled(false, s, st) && !About(s, st, id) && !st.Sweep? && id in s.t.ledger
    ensures var t, t' := s.t, Apply(false, s, st).t;
            && id in t'.ledger && (id in t'.outbox <==> id in t.outbox)
            && (id in t.outbox ==> t'.outbox[id].attempts == t.outbox[id].attempts
                                   && t'.outbox[id].leasedUntil == t.outbox[id].leasedUntil)
  {
  }

  lemma OthersBooks(b: Books, s: State, st: Step, id: Uuid)
    requires Enabled(false, s, st) && !About(s, st, id) && !st.Sweep?
    ensures Entered(b, s, st, id) == b
  {
  }

  lemma OthersBalanced(b: Books, s: State, st: Step, id: Uuid)
    requires Enabled(false, s, st) && !About(s, st, id) && !st.Sweep? && id in s.t.ledger && Balanced(s, id, b)
    ensures Balanced(Apply(false, s, st), id, Entered(b, s, st, id))
  {
    OthersCount(s, st, id);
    OthersRow(s, st, id);
    OthersBooks(b, s, st, id);
  }

  lemma NewRow(s: State, st: Step, id: Uuid)
    requires Enabled(false, s, st) && LedgerOk(s.t) && id !in s.t.ledger
    ensures var t' := Apply(false, s, st).t;
            id in t'.outbox ==> t'.outbox[id].attempts == 0
  {
  }

  lemma NewNotAbout(s: State, st: Step, id: Uuid)
    requires Enabled(false, s, st) && TablesOk(s) && id !in s.t.ledger
    ensures !About(s, st, id) && !SweepsHeld(s, st, id)
  {
  }

  lemma NewBalanced(b: Books, s: State, st: Step, id: Uuid)
    requires Enabled(false, s, st) && TablesOk(s) && id !in s.t.ledger && Balanced(s, id, b)
    ensures Balanced(Apply(false, s, st), id, Entered(b, s, st, id))
  {
    NewNotAbout(s, st, id);
    assert Entered(b, s, st, id) == b;
    NoHolders(s, id);
    OthersCount(s, st, id);
    NewRow(s, st, id);
  }

  lemma SweepBalanced(b: Books, s: State, st: Step, id: Uuid)
    requires st.Sweep? && Balanced(s, id, b)
    ensures Balanced(Apply(false, s, st), id, Entered(b, s, st, id))
  {
    var s' := Apply(false, s, st);
    assert s'.tasks == s.tasks && Kept(s', id) == Kept(s, id);
    assert s'.t.outbox.Keys == s.t.outbox.Keys;
  }

  // -------------------------------------------------------- the row's own steps

  lemma ClaimBalanced(b: Books, s: State, st: Step, id: Uuid)
    requires Enabled(false, s, st) && LedgerOk(s.t) && st.ClaimOne? && st.id == id && Balanced(s, id, b)
    ensures Balanced(Apply(false, s, st), id, Entered(b, s, st, id))
  {
    StepMoves(s, st, id);
    var s' := Apply(false, s, st);
    assert Entered(b, s, st, id) == b;
    assert id in s.t.outbox && s.t.outbox[id].leasedUntil.None?;
    assert s'.t.outbox[id] == Leased(s.t.outbox[id], st.until);
    assert s'.tasks[st.task] == Task(id, s.t.outbox[id].attempts + 1, Gating);
    assert forall kind :: One(s.tasks, st.task, id, kind) == 0;
    assert One(s'.tasks, st.task, id, Holder) == 1 && One(s'.tasks, st.task, id, Taken) == 0;
    assert One(s'.tasks, st.task, id, LateAnswered) == 0;
    assert One(s'.tasks, st.task, id, Early) == if s.t.outbox[id].attempts + 1 < MAX_SEND_ATTEMPTS then 1 else 0;
  }

  // A look or a recorded event moves no count.
  lemma LookBalanced(b: Books, s: State, st: Step, id: Uuid)
    requires Enabled(false, s, st) && (st.Observe? || st.Recheck?) && s.tasks[st.task].row == id && Balanced(s, id, b)
    ensures Balanced(Apply(false, s, st), id, Entered(b, s, st, id))
  {
    StepMoves(s, st, id);
    var s' := Apply(false, s, st);
    assert Entered(b, s, st, id) == b && s'.t.outbox == s.t.outbox && s'.t.ledger == s.t.ledger;
    forall kind ensures One(s.tasks, st.task, id, kind) == One(s'.tasks, st.task, id, kind) {
    }
    assert forall kind :: Count(s'.tasks, id, kind) == Count(s.tasks, id, kind);
  }

  lemma HandCounts(s: State, st: Step, id: Uuid)
    requires Enabled(false, s, st) && Hands(s, st, id)
    ensures var s', late := Apply(false, s, st), s.tasks[st.task].attempts >= MAX_SEND_ATTEMPTS;
            && Count(s'.tasks, id, Holder) == Count(s.tasks, id, Holder)
            && Count(s'.tasks, id, Early) == Count(s.tasks, id, Early) - (if late then 0 else 1)
            && Count(s'.tasks, id, Late) == Count(s.tasks, id, Late) - (if late then 1 else 0)
            && Count(s'.tasks, id, LateAnswered) == Count(s.tasks, id, LateAnswered) + (if late then 1 else 0)
            && Count(s'.tasks, id, Taken) == Count(s.tasks, id, Taken) + (if st.result.Accepted? then 1 else 0)
            && Count(s'.tasks, id, Open) == Count(s.tasks, id, Open) - (if st.result.Accepted? then 1 else 0)
            && Kept(s', id) == Kept(s, id) + if st.result.Accepted? then 1 else 0
  {
    StepMoves(s, st, id);
    var s', k := Apply(false, s, st), st.task;
    assert CountsMove(s, st, id);
    forall kind ensures Count(s'.tasks, id, kind) + One(s.tasks, k, id, kind)
                        == Count(s.tasks, id, kind) + One(s'.tasks, k, id, kind) {
    }
    assert s.tasks[k].phase == Cleared && s'.tasks[k] == s.tasks[k].(phase := Answered(st.result));
  }

  lemma HandBalanced(b: Books, s: State, st: Step, id: Uuid)
    requires Enabled(false, s, st) && Hands(s, st, id) && id in s.t.ledger && Balanced(s, id, b)
    ensures Balanced(Apply(false, s, st), id, Entered(b, s, st, id))
  {
    HandCounts(s, st, id);
    assert Apply(false, s, st).t == s.t;
  }

  predicate Ends(st: Step) {
    st.Block? || st.Defer? || st.WriteCancelled? || st.Settle? || st.Abandon?
  }

  // A task that goes takes its own part out of the counts.
  lemma EndCounts(s: State, st: Step, id: Uuid)
    requires Enabled(false, s, st) && Ends(st) && s.tasks[st.task].row == id
    ensures forall kind :: Count(Apply(false, s, st).tasks, id, kind)
                           == Count(s.tasks, id, kind) - One(s.tasks, st.task, id, kind)
    ensures var lost := st.Abandon? && IsAccepted(s.tasks[st.task].phase);
            Kept(Apply(false, s, st), id) == Kept(s, id) - if lost then 1 else 0
  {
    StepMoves(s, st, id);
    assert st.task !in Apply(false, s, st).tasks;
    assert forall kind :: One(Apply(false, s, st).tasks, st.task, id, kind) == 0;
  }

  // What it leaves of the row: as it was, freed for another claim, or nothing.
  lemma EndRow(s: State, st: Step, id: Uuid)
    requires Enabled(false, s, st) && Ends(st) && s.tasks[st.task].row == id && id in s.t.ledger
    ensures var t, t', task := s.t, Apply(false, s, st).t, s.tasks[st.task];
            && id in t'.ledger
            && (id in t'.outbox ==>
                  && id in t.outbox && t'.outbox[id].attempts == t.outbox[id].attempts
                  && (st.Abandon? ==> t'.outbox[id] == t.outbox[id])
                  && (st.Settle? ==> task.attempts < MAX_SEND_ATTEMPTS && !IsAccepted(task.phase))
                  && (st.Defer? || st.Abandon? || st.Settle?))
            && (id in t.outbox && id !in t'.outbox ==> !st.Abandon?)
  {
  }

  lemma EndBooks(b: Books, s: State, st: Step, id: Uuid)
    requires Enabled(false, s, st) && Ends(st) && s.tasks[st.task].row == id
    ensures var lost := st.Abandon? && Is(LateAnswered, s.tasks[st.task]);
            Entered(b, s, st, id) == if lost then b.(late := b.late - 1) else b
  {
  }

  ghost predicate Ending(s: State, st: Step, id: Uuid) {
    Enabled(false, s, st) && Ends(st) && s.tasks[st.task].row == id && id in s.t.ledger
  }

  lemma EndQueued(b: Books, s: State, st: Step, id: Uuid)
    requires Ending(s, st, id) && Balanced(s, id, b) && id in Apply(false, s, st).t.outbox
    ensures Balanced(Apply(false, s, st), id, Entered(b, s, st, id))
  {
    EndCounts(s, st, id);
    EndRow(s, st, id);
    EndBooks(b, s, st, id);
    var s', task := Apply(false, s, st), s.tasks[st.task];
    assert One(s.tasks, st.task, id, Holder) == 1;
    assert st.Settle? ==> One(s.tasks, st.task, id, LateAnswered) == 0 == One(s.tasks, st.task, id, Taken);
    assert st.Defer? ==> One(s.tasks, st.task, id, LateAnswered) == 0 == One(s.tasks, st.task, id, Taken);
  }

  lemma EndGone(b: Books, s: State, st: Step, id: Uuid)
    requires Ending(s, st, id) && Balanced(s, id, b) && id in s.t.outbox && id !in Apply(false, s, st).t.outbox
    ensures Balanced(Apply(false, s, st), id, Entered(b, s, st, id))
  {
    EndCounts(s, st, id);
    EndRow(s, st, id);
    EndBooks(b, s, st, id);
    HoldersSplit(s.tasks, id);
    assert Count(Apply(false, s, st).tasks, id, Late) <= Count(s.tasks, id, Late);
    assert Count(Apply(false, s, st).tasks, id, Open) <= Count(s.tasks, id, Open);
    assert Count(Apply(false, s, st).tasks, id, Early) <= Count(s.tasks, id, Early);
  }

  lemma EndWound(b: Books, s: State, st: Step, id: Uuid)
    requires Ending(s, st, id) && Balanced(s, id, b) && id !in s.t.outbox
    ensures Balanced(Apply(false, s, st), id, Entered(b, s, st, id))
  {
    EndCounts(s, st, id);
    EndRow(s, st, id);
    EndBooks(b, s, st, id);
    assert Count(Apply(false, s, st).tasks, id, Late) <= Count(s.tasks, id, Late);
    assert Count(Apply(false, s, st).tasks, id, Open) <= Count(s.tasks, id, Open);
    assert Count(Apply(false, s, st).tasks, id, Early) <= Count(s.tasks, id, Early);
  }

  lemma EndBalanced(b: Books, s: State, st: Step, id: Uuid)
    requires Ending(s, st, id) && Balanced(s, id, b)
    ensures Balanced(Apply(false, s, st), id, Entered(b, s, st, id))
  {
    if id !in s.t.outbox {
      EndWound(b, s, st, id);
    } else if id in Apply(false, s, st).t.outbox {
      EndQueued(b, s, st, id);
    } else {
      EndGone(b, s, st, id);
    }
  }

  lemma AboutKnown(s: State, st: Step, id: Uuid)
    requires TablesOk(s) && Enabled(false, s, st) && About(s, st, id)
    ensures id in s.t.ledger && !st.Sweep?
    ensures st.ClaimOne? ==> st.id == id
    ensures !st.ClaimOne? ==> Actor(st) == st.task && st.task in s.tasks && s.tasks[st.task].row == id
    ensures st.ClaimOne? || st.Observe? || st.Recheck? || st.Hand? || Ends(st)
  {
  }

  lemma StepBalanced(b: Books, s: State, st: Step, id: Uuid)
    requires TablesOk(s) && Enabled(false, s, st) && Balanced(s, id, b)
    ensures Balanced(Apply(false, s, st), id, Entered(b, s, st, id))
  {
    if st.Sweep? {
      SweepBalanced(b, s, st, id);
    } else if id !in s.t.ledger {
      NewBalanced(b, s, st, id);
    } else if !About(s, st, id) {
      OthersBalanced(b, s, st, id);
    } else {
      AboutKnown(s, st, id);
      if st.ClaimOne? {
        ClaimBalanced(b, s, st, id);
      } else if st.Hand? {
        HandBalanced(b, s, st, id);
      } else if Ends(st) {
        EndBalanced(b, s, st, id);
      } else {
        LookBalanced(b, s, st, id);
      }
    }
  }

  // ------------------------------------------------------------- every run

  // Sweeps of the first `n` steps that found the message's lease held.
  ghost function HeldSweeps(ss: seq<State>, steps: seq<Step>, n: nat, id: Uuid): nat
    requires |ss| == |steps| + 1 && n < |ss|
  {
    if n == 0 then 0
    else HeldSweeps(ss, steps, n - 1, id) + if SweepsHeld(ss[n - 1], steps[n - 1], id) then 1 else 0
  }

  ghost function BooksOf(ss: seq<State>, steps: seq<Step>, n: nat, id: Uuid): Books
    requires |ss| == |steps| + 1 && n < |ss|
  {
    if n == 0 then Books(0, 0, 0) else Entered(BooksOf(ss, steps, n - 1, id), ss[n - 1], steps[n - 1], id)
  }

  lemma BalancedAt(ss: seq<State>, steps: seq<Step>, n: nat, id: Uuid)
    requires Run(false, ss, steps) && n < |steps| && Balanced(ss[n], id, BooksOf(ss, steps, n, id))
    ensures Balanced(ss[n + 1], id, BooksOf(ss, steps, n + 1, id))
  {
    RunTables(false, ss, steps, n);
    assert StepAt(false, ss, steps, n);
    StepBalanced(BooksOf(ss, steps, n, id), ss[n], steps[n], id);
  }

  lemma {:induction false} RunBalanced(ss: seq<State>, steps: seq<Step>, n: nat, id: Uuid)
    requires Run(false, ss, steps) && n < |ss|
    ensures Balanced(ss[n], id, BooksOf(ss, steps, n, id))
  {
    if n == 0 {
    } else {
      RunBalanced(ss, steps, n - 1, id);
      BalancedAt(ss, steps, n - 1, id);
    }
  }

  // What the books count, counted off the run.
  lemma {:induction false} BooksExact(ss: seq<State>, steps: seq<Step>, n: nat, id: Uuid)
    requires |ss| == |steps| + 1 && n < |ss|
    ensures var b := BooksOf(ss, steps, n, id);
            && b.sweeps == HeldSweeps(ss, steps, n, id)
            && Calls(ss, steps, n, id) - LostCalls(ss, steps, n, id) <= b.early + b.late
  {
    if n == 0 {
    } else {
      BooksExact(ss, steps, n - 1, id);
    }
  }

  lemma BalancedBounds(s: State, id: Uuid, b: Books)
    requires Balanced(s, id, b)
    ensures b.early + b.late <= MAX_SEND_ATTEMPTS + b.sweeps && Kept(s, id) <= 1 + b.sweeps
  {
    HoldersSplit(s.tasks, id);
  }

  /**
   * Over every run, with any sweeps: a message is handed to the provider at
   * most eight times, and accepted at most once, plus the answers whose write
   * was lost, plus the sweeps that found its lease in a task's hands.
   */
  lemma SendBoundAnySweep(ss: seq<State>, steps: seq<Step>, n: nat, id: Uuid)
    requires Run(false, ss, steps) && n < |ss|
    ensures Calls(ss, steps, n, id)
            <= MAX_SEND_ATTEMPTS + LostCalls(ss, steps, n, id) + HeldSweeps(ss, steps, n, id)
    ensures AcceptedCalls(ss, steps, n, id)
            <= 1 + LostAcceptances(ss, steps, n, id) + HeldSweeps(ss, steps, n, id)
  {
    RunBalanced(ss, steps, n, id);
    BooksExact(ss, steps, n, id);
    BalancedBounds(ss[n], id, BooksOf(ss, steps, n, id));
    RecordExact(false, ss, steps, n, id);
  }

  // ------------------------------------------------------- no better bound

  // Claimed and accepted `m` times, none written, by tasks 0 to m - 1.
  ghost predicate Piled(s: State, id: Uuid, m: nat) {
    && id in s.t.outbox && s.t.outbox[id].attempts == m
    && s.t.outbox[id].cancelledAt.None? && s.t.outbox[id].nextAttemptAt <= 0
    && (forall k :: k in s.tasks ==> k < m)
    && (m >= 1 ==> m - 1 in s.tasks && s.tasks[m - 1].row == id)
  }

  ghost predicate IsLeased(s: State, id: Uuid) {
    id in s.t.outbox && s.t.outbox[id].leasedUntil.Some?
  }

  lemma Grows(ss: seq<State>, steps: seq<Step>, st: Step, id: Uuid) returns (ss': seq<State>, steps': seq<Step>)
    requires Run(false, ss, steps) && Enabled(false, ss[|steps|], st)
    ensures steps' == steps + [st] && ss' == ss + [Apply(false, ss[|steps|], st)] && Run(false, ss', steps')
    ensures var n := |steps|;
            && AcceptedCalls(ss', steps', n + 1, id)
               == AcceptedCalls(ss, steps, n, id) + (if Hands(ss[n], st, id) && st.result.Accepted? then 1 else 0)
            && LostAcceptances(ss', steps', n + 1, id)
               == LostAcceptances(ss, steps, n, id)
                  + (if Loses(ss[n], st, id) && IsAccepted(ss[n].tasks[st.task].phase) then 1 else 0)
            && HeldSweeps(ss', steps', n + 1, id)
               == HeldSweeps(ss, steps, n, id) + if SweepsHeld(ss[n], st, id) then 1 else 0
  {
    var n := |steps|;
    steps', ss' := steps + [st], ss + [Apply(false, ss[n], st)];
    forall i | 0 <= i < |steps'| ensures StepAt(false, ss', steps', i) {
      if i < n {
        assert StepAt(false, ss, steps, i);
      }
    }
    SamePrefix(ss, steps, ss', steps', n, id);
  }

  lemma {:induction false} SamePrefix(ss: seq<State>, steps: seq<Step>, ss': seq<State>, steps': seq<Step>, n: nat,
                                      id: Uuid)
    requires |ss| == |steps| + 1 && |ss'| == |steps'| + 1 && n < |ss| && ss <= ss' && steps <= steps'
    ensures AcceptedCalls(ss', steps', n, id) == AcceptedCalls(ss, steps, n, id)
    ensures LostAcceptances(ss', steps', n, id) == LostAcceptances(ss, steps, n, id)
    ensures HeldSweeps(ss', steps', n, id) == HeldSweeps(ss, steps, n, id)
  {
    if n == 0 {
    } else {
      SamePrefix(ss, steps, ss', steps', n - 1, id);
    }
  }

  // The run ends in such a pile, with these acceptances and held sweeps.
  ghost predicate PileRun(ss: seq<State>, steps: seq<Step>, id: Uuid, m: nat, accepted: nat, sweeps: nat) {
    && Run(false, ss, steps) && Piled(ss[|steps|], id, m)
    && AcceptedCalls(ss, steps, |steps|, id) == accepted && LostAcceptances(ss, steps, |steps|, id) == 0
    && HeldSweeps(ss, steps, |steps|, id) == sweeps
  }

  lemma ClaimPile(s: State, id: Uuid, m: nat)
    requires Piled(s, id, m) && !IsLeased(s, id) && m < MAX_SMALLINT
    ensures Enabled(false, s, ClaimOne(m, id, 0, 9))
    ensures var s' := Apply(false, s, ClaimOne(m, id, 0, 9));
            && Piled(s', id, m + 1) && IsLeased(s', id) && s'.tasks[m].phase == Gating
            && Enabled(false, s', Recheck(m))
  {
  }

  lemma CallPile(s: State, id: Uuid, m: nat)
    requires Piled(s, id, m + 1) && IsLeased(s, id) && s.tasks[m].phase == Gating
    ensures Enabled(false, s, Recheck(m))
    ensures var s' := Apply(false, s, Recheck(m));
            && Piled(s', id, m + 1) && IsLeased(s', id) && Enabled(false, s', Hand(m, Accepted("a")))
            && Piled(Apply(false, s', Hand(m, Accepted("a"))), id, m + 1)
            && IsLeased(Apply(false, s', Hand(m, Accepted("a"))), id)
            && s'.tasks[m].row == id
  {
  }

  // One more accepted call on a free row.
  lemma OneMore(ss: seq<State>, steps: seq<Step>, id: Uuid, m: nat, accepted: nat, sweeps: nat)
    returns (ss': seq<State>, steps': seq<Step>)
    requires PileRun(ss, steps, id, m, accepted, sweeps) && !IsLeased(ss[|steps|], id) && m < MAX_SMALLINT
    ensures PileRun(ss', steps', id, m + 1, accepted + 1, sweeps) && IsLeased(ss'[|steps'|], id)
  {
    ClaimPile(ss[|steps|], id, m);
    ss', steps' := Grows(ss, steps, ClaimOne(m, id, 0, 9), id);
    CallPile(ss'[|steps'|], id, m);
    ss', steps' := Grows(ss', steps', Recheck(m), id);
    ss', steps' := Grows(ss', steps', Hand(m, Accepted("a")), id);
  }

  lemma SweepPile(ss: seq<State>, steps: seq<Step>, id: Uuid, m: nat, accepted: nat, sweeps: nat)
    returns (ss': seq<State>, steps': seq<Step>)
    requires PileRun(ss, steps, id, m, accepted, sweeps) && IsLeased(ss[|steps|], id) && m >= 1
    ensures PileRun(ss', steps', id, m, accepted, sweeps + 1) && !IsLeased(ss'[|steps'|], id)
  {
    var s := ss[|steps|];
    assert m - 1 in Of(s.tasks, id, Holder);
    ss', steps' := Grows(ss, steps, Sweep, id);
  }

  lemma StartPile(id: Uuid, row: OutboxRow) returns (ss: seq<State>, steps: seq<Step>)
    requires row.attempts == 0 && row.leasedUntil.None? && row.cancelledAt.None? && row.nextAttemptAt <= 0
    ensures PileRun(ss, steps, id, 0, 0, 0) && !IsLeased(ss[|steps|], id)
  {
    var s0 := State(Tables(map[], map[], {}, map[]), map[], multiset{}, multiset{}, multiset{}, multiset{});
    ss, steps := [s0], [];
    ss, steps := Grows(ss, steps, IngestNew("k", id, row), id);
  }

  /** The bound on acceptances is met, for every number of such sweeps the attempts column has room for. */
  lemma {:induction false} BoundIsMet(id: Uuid, row: OutboxRow, sweeps: nat) returns (ss: seq<State>, steps: seq<Step>)
    requires row.attempts == 0 && row.leasedUntil.None? && row.cancelledAt.None? && row.nextAttemptAt <= 0
    requires sweeps < MAX_SMALLINT
    ensures PileRun(ss, steps, id, sweeps + 1, sweeps + 1, sweeps) && IsLeased(ss[|steps|], id)
  {
    if sweeps == 0 {
      ss, steps := StartPile(id, row);
      ss, steps := OneMore(ss, steps, id, 0, 0, 0);
    } else {
      ss, steps := BoundIsMet(id, row, sweeps - 1);
      ss, steps := SweepPile(ss, steps, id, sweeps, sweeps, sweeps - 1);
      ss, steps := OneMore(ss, steps, id, sweeps, sweeps, sweeps);
    }
  }
}
