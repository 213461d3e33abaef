/**
 * The kill-switch protocol and the delivery machine joined: what the switches
 * of `hold` mean for the provider calls themselves, not only for the claims.
 *
 * A claim of the protocol hands each row of its batch to a task of the
 * delivery machine; the discards of an engaged `discard` switch also claim
 * rows, for tasks that never call the provider; every other delivery step is,
 * to the protocol, a change of the queue from elsewhere.
 */
module HeldCalls {
  import opened Base
  import opened KillSwitch
  import opened Outbox
  import H = HoldProtocol
  import HS = HoldSafety
  import D = Delivery
  import DS = DeliverySafety

  datatype Joint = Joint(w: H.World, d: D.State, discards: set<nat>)

  datatype Step =
    | Control(h: H.Step)
    | Batch(h: H.Step, claims: seq<D.Step>)
    | DiscardClaim(claim: D.Step)
    | Deliver(st: D.Step)

  predicate TakesRows(h: H.Step) {
    h.ClaimRows? || h.DrainClaim?
  }

  ghost predicate ClaimsRow(claim: D.Step, h: H.Step) {
    && TakesRows(h)
    && claim.ClaimOne? && claim.id in h.batch && claim.now == h.now && claim.until == h.until
  }

  // Each row of the batch once, in some order.
  ghost predicate ClaimsBatch(h: H.Step, claims: seq<D.Step>) {
    && TakesRows(h)
    && (forall i :: 0 <= i < |claims| ==> ClaimsRow(claims[i], h))
    && (forall i, j :: 0 <= i < j < |claims| ==> claims[i].id != claims[j].id)
    && h.batch == RowsOf(claims)
  }

  function RowsOf(claims: seq<D.Step>): set<Uuid> {
    set claim | claim in claims && claim.ClaimOne? :: claim.id
  }

  function TasksOf(claims: seq<D.Step>): set<nat> {
    set claim | claim in claims && claim.ClaimOne? :: claim.task
  }

  ghost predicate Moves(env: H.Env, a: Joint, st: Step, b: Joint) {
    match st
    case Control(h) =>
      && !TakesRows(h) && !h.Elsewhere? && H.Enabled(env, a.w, h)
      && b == a.(w := H.Apply(env, a.w, h))
    case Batch(h, claims) =>
      && ClaimsBatch(h, claims) && H.Enabled(env, a.w, h) && D.Reaches(a.d, claims, b.d)
      && b.w == H.Apply(env, a.w, h) && b.discards == a.discards - TasksOf(claims)
    case DiscardClaim(claim) =>
      && claim.ClaimOne? && D.Enabled(false, a.d, claim) && b.d == D.Apply(false, a.d, claim)
      && b.w == a.w.(outbox := b.d.t.outbox) && b.discards == a.discards + {claim.task}
    case Deliver(st) =>
      && !st.ClaimOne? && (st.Hand? ==> st.task !in a.discards)
      && D.Enabled(false, a.d, st) && b.d == D.Apply(false, a.d, st)
      && b.w == a.w.(outbox := b.d.t.outbox) && b.discards == a.discards
  }

  ghost predicate Init(env: H.Env, a: Joint) {
    H.Init(env, a.w) && D.Init(a.d) && a.w.outbox == map[] && a.discards == {}
  }

  ghost predicate MovesAt(env: H.Env, js: seq<Joint>, steps: seq<Step>, i: nat)
    requires |js| == |steps| + 1 && i < |steps|
  {
    Moves(env, js[i], steps[i], js[i + 1])
  }

  ghost predicate Run(env: H.Env, js: seq<Joint>, steps: seq<Step>) {
    && |js| == |steps| + 1
    && Init(env, js[0])
    && forall i {:trigger MovesAt(env, js, steps, i)} :: 0 <= i < |steps| ==> MovesAt(env, js, steps, i)
  }

  // --------------------------------------------------------- a batch's claims

  lemma LeaseMore(outbox: map<Uuid, OutboxRow>, id: Uuid, batch: set<Uuid>, until: Instant)
    requires id !in batch
    ensures Lease(Lease(outbox, {id}, until), batch, until) == Lease(outbox, {id} + batch, until)
  {
  }

  lemma RowsOfRest(claims: seq<D.Step>)
    requires claims != [] && claims[0].ClaimOne?
    ensures RowsOf(claims) == {claims[0].id} + RowsOf(claims[1..])
    ensures TasksOf(claims) == {claims[0].task} + TasksOf(claims[1..])
  {
    assert forall c :: c in claims <==> c == claims[0] || c in claims[1..];
  }

  ghost predicate Distinct(claims: seq<D.Step>, until: Instant) {
    && (forall i :: 0 <= i < |claims| ==> claims[i].ClaimOne? && claims[i].until == until)
    && forall i, j :: 0 <= i < j < |claims| ==> claims[i].id != claims[j].id
  }

  // Claimed one by one, the rows end up leased as by one statement.
  lemma {:induction false} ClaimsLease(d: D.State, claims: seq<D.Step>, after: D.State, until: Instant)
    requires D.Reaches(d, claims, after) && Distinct(claims, until)
    ensures after.t.outbox == Lease(d.t.outbox, RowsOf(claims), until)
    decreases |claims|
  {
    if claims == [] {
      assert d.t.outbox == Lease(d.t.outbox, {}, until);
    } else {
      var rest := claims[1..];
      ClaimsLease(D.Apply(true, d, claims[0]), rest, after, until);
      RowsOfRest(claims);
      assert forall c :: c in rest ==> c.id != claims[0].id;
      LeaseMore(d.t.outbox, claims[0].id, RowsOf(rest), until);
    }
  }

  lemma {:induction false} ClaimsInv(d: D.State, claims: seq<D.Step>, after: D.State)
    requires D.Reaches(d, claims, after) && D.TablesOk(d)
    ensures D.TablesOk(after)
    decreases |claims|
  {
    if claims == [] {
    } else {
      DS.TablesStep(true, d, claims[0]);
      ClaimsInv(D.Apply(true, d, claims[0]), claims[1..], after);
    }
  }

  // Whose task it is, and for which row.
  ghost predicate ClaimedIn(claims: seq<D.Step>, task: nat, row: Uuid) {
    exists i :: 0 <= i < |claims| && claims[i].ClaimOne? && claims[i].task == task && claims[i].id == row
  }

  lemma {:induction false} ClaimsTasks(d: D.State, claims: seq<D.Step>, after: D.State, task: nat)
    requires D.Reaches(d, claims, after) && task in after.tasks
    requires forall i :: 0 <= i < |claims| ==> claims[i].ClaimOne?
    ensures || (task in d.tasks && after.tasks[task] == d.tasks[task] && task !in TasksOf(claims))
            || ClaimedIn(claims, task, after.tasks[task].row)
    decreases |claims|
  {
    if claims == [] {
    } else {
      var rest := claims[1..];
      var mid := D.Apply(true, d, claims[0]);
      ClaimsTasks(mid, rest, after, task);
      RowsOfRest(claims);
      if ClaimedIn(rest, task, after.tasks[task].row) {
        var i :| 0 <= i < |rest| && rest[i].ClaimOne? && rest[i].task == task && rest[i].id == after.tasks[task].row;
        assert claims[i + 1] == rest[i];
      }
    }
  }

  // ------------------------------------------------------ the joint invariant

  ghost predicate Inv(a: Joint) {
    D.TablesOk(a.d) && a.w.outbox == a.d.t.outbox
  }

  lemma BatchInv(env: H.Env, a: Joint, st: Step, b: Joint)
    requires Inv(a) && Moves(env, a, st, b) && st.Batch?
    ensures D.TablesOk(b.d)
  {
    ClaimsInv(a.d, st.claims, b.d);
  }

  lemma BatchAgrees(env: H.Env, a: Joint, st: Step, b: Joint)
    requires a.w.outbox == a.d.t.outbox && Moves(env, a, st, b) && st.Batch?
    ensures b.w.outbox == b.d.t.outbox
  {
    ClaimsLease(a.d, st.claims, b.d, st.h.until);
  }

  lemma QueueKept(env: H.Env, w: H.World, h: H.Step)
    requires H.Enabled(env, w, h) && !TakesRows(h) && !h.Elsewhere?
    ensures H.Apply(env, w, h).outbox == w.outbox
  {
  }

  lemma ControlKeeps(env: H.Env, a: Joint, st: Step, b: Joint)
    requires Moves(env, a, st, b) && st.Control?
    ensures b.w.outbox == a.w.outbox && b.d == a.d && b.discards == a.discards
  {
    QueueKept(env, a.w, st.h);
  }

  lemma MoveInv(env: H.Env, a: Joint, st: Step, b: Joint)
    requires Inv(a) && Moves(env, a, st, b)
    ensures Inv(b)
  {
    if st.Batch? {
      BatchInv(env, a, st, b);
      BatchAgrees(env, a, st, b);
    } else if st.Control? {
      ControlKeeps(env, a, st, b);
    } else {
      DS.TablesStep(false, a.d, if st.Deliver? then st.st else st.claim);
    }
  }

  lemma InitInv(env: H.Env, js: seq<Joint>, steps: seq<Step>)
    requires Run(env, js, steps)
    ensures Inv(js[0])
  {
    assert D.Run(false, [js[0].d], []);
    DS.RunTables(false, [js[0].d], [], 0);
  }

  lemma InvAt(env: H.Env, js: seq<Joint>, steps: seq<Step>, n: nat)
    requires Run(env, js, steps) && 0 < n < |js| && Inv(js[n - 1])
    ensures Inv(js[n])
  {
    assert MovesAt(env, js, steps, n - 1);
    MoveInv(env, js[n - 1], steps[n - 1], js[n]);
  }

  lemma {:induction false} RunInv(env: H.Env, js: seq<Joint>, steps: seq<Step>, n: nat)
    requires Run(env, js, steps) && n < |js|
    ensures Inv(js[n])
  {
    if n == 0 {
      InitInv(env, js, steps);
    } else {
      RunInv(env, js, steps, n - 1);
      InvAt(env, js, steps, n);
    }
  }

  // ------------------------------------------------ the protocol's own view

  function WorldsOf(js: seq<Joint>): seq<H.World> {
    seq(|js|, i requires 0 <= i < |js| => js[i].w)
  }

  function HoldStep(st: Step, after: Joint): H.Step {
    match st
    case Control(h) => h
    case Batch(h, _) => h
    case _ => H.Elsewhere(after.d.t.outbox)
  }

  function HoldSteps(js: seq<Joint>, steps: seq<Step>): seq<H.Step>
    requires |js| == |steps| + 1
  {
    seq(|steps|, i requires 0 <= i < |steps| => HoldStep(steps[i], js[i + 1]))
  }

  lemma MoveProjects(env: H.Env, a: Joint, st: Step, b: Joint)
    requires Moves(env, a, st, b)
    ensures H.Enabled(env, a.w, HoldStep(st, b)) && b.w == H.Apply(env, a.w, HoldStep(st, b))
  {
  }

  // Every joint run is, to the protocol, a run of its own.
  lemma Projects(env: H.Env, js: seq<Joint>, steps: seq<Step>)
    requires Run(env, js, steps)
    ensures H.Run(env, WorldsOf(js), HoldSteps(js, steps))
  {
    var ws, hs := WorldsOf(js), HoldSteps(js, steps);
    forall i | 0 <= i < |hs|
      ensures H.StepAt(env, ws, hs, i)
    {
      assert MovesAt(env, js, steps, i);
      MoveProjects(env, js[i], steps[i], js[i + 1]);
    }
  }

  // ----------------------------------------------------- where a task is from

  // A message keeps its target for as long as it is queued, and does not
  // come back once it is not.
  lemma TargetKept(d: D.State, st: D.Step, row: Uuid)
    requires D.LedgerOk(d.t) && D.Enabled(false, d, st) && row in d.t.ledger && row in D.Apply(false, d, st).t.outbox
    ensures row in d.t.outbox && D.Apply(false, d, st).t.outbox[row].target == d.t.outbox[row].target
  {
    assert st.IngestNew? ==> st.id != row;
    if !st.IngestNew? {
      assert D.Apply(false, d, st).t.outbox.Keys <= d.t.outbox.Keys;
    }
  }

  lemma SameRow(d: D.State, st: D.Step, task: nat)
    requires D.Enabled(false, d, st) && task in d.tasks && task in D.Apply(false, d, st).tasks
    ensures D.Apply(false, d, st).tasks[task].row == d.tasks[task].row
  {
  }

  lemma NewTask(d: D.State, st: D.Step, task: nat)
    requires D.Enabled(false, d, st) && task !in d.tasks && task in D.Apply(false, d, st).tasks
    ensures st.ClaimOne? && st.task == task
  {
  }

  // The move at `m` claimed that task's row, which has the same target for as
  // long as it is queued.
  ghost predicate FromClaim(a: Joint, st: Step, now: Joint, task: nat)
    requires task in now.d.tasks
  {
    var row := now.d.tasks[task].row;
    && st.Batch? && TakesRows(st.h) && ClaimedIn(st.claims, task, row) && row in st.h.batch
    && row in a.w.outbox
    && (row in now.d.t.outbox ==> now.d.t.outbox[row].target == a.w.outbox[row].target)
  }

  // That task was there before the move, on the same row.
  ghost predicate Carried(a: Joint, b: Joint, task: nat) {
    && task in a.d.tasks && task in b.d.tasks && a.d.tasks[task].row == b.d.tasks[task].row
    && var row := a.d.tasks[task].row;
       row in b.d.t.outbox ==> row in a.d.t.outbox && b.d.t.outbox[row].target == a.d.t.outbox[row].target
  }

  lemma LeaseKeeps(outbox: map<Uuid, OutboxRow>, batch: set<Uuid>, until: Instant, row: Uuid)
    requires row in Lease(outbox, batch, until)
    ensures row in outbox && Lease(outbox, batch, until)[row].target == outbox[row].target
  {
  }

  lemma BatchTakes(env: H.Env, a: Joint, st: Step)
    requires st.Batch? && TakesRows(st.h) && H.Enabled(env, a.w, st.h)
    ensures forall row :: row in st.h.batch ==> row in a.w.outbox
  {
  }

  lemma BatchTask(env: H.Env, a: Joint, st: Step, b: Joint, task: nat)
    requires Inv(a) && Moves(env, a, st, b) && st.Batch? && task in b.d.tasks
    ensures FromClaim(a, st, b, task) || (Carried(a, b, task) && task !in TasksOf(st.claims))
  {
    ClaimsTasks(a.d, st.claims, b.d, task);
    ClaimsLease(a.d, st.claims, b.d, st.h.until);
    if b.d.tasks[task].row in b.d.t.outbox {
      LeaseKeeps(a.d.t.outbox, RowsOf(st.claims), st.h.until, b.d.tasks[task].row);
    }
    BatchTakes(env, a, st);
  }

  lemma DeliveryTask(env: H.Env, a: Joint, st: Step, b: Joint, task: nat)
    requires Inv(a) && Moves(env, a, st, b) && (st.Deliver? || st.DiscardClaim?)
    requires task in b.d.tasks && task !in b.discards
    ensures Carried(a, b, task) && task !in a.discards
  {
    var dst := if st.Deliver? then st.st else st.claim;
    if task !in a.d.tasks {
      NewTask(a.d, dst, task);
    } else {
      SameRow(a.d, dst, task);
      if a.d.tasks[task].row in b.d.t.outbox {
        TargetKept(a.d, dst, a.d.tasks[task].row);
      }
    }
  }

  lemma MoveTask(env: H.Env, a: Joint, st: Step, b: Joint, task: nat)
    requires Inv(a) && Moves(env, a, st, b) && task in b.d.tasks && task !in b.discards
    ensures (st.Batch? && FromClaim(a, st, b, task)) || (Carried(a, b, task) && task !in a.discards)
  {
    if st.Batch? {
      BatchTask(env, a, st, b, task);
    } else if st.Control? {
      ControlKeeps(env, a, st, b);
    } else {
      DeliveryTask(env, a, st, b, task);
    }
  }

  lemma OriginKept(c: Joint, st: Step, a: Joint, b: Joint, task: nat)
    requires Carried(a, b, task) && FromClaim(c, st, a, task)
    ensures FromClaim(c, st, b, task)
  {
  }

  lemma TaskBefore(env: H.Env, js: seq<Joint>, steps: seq<Step>, n: nat, task: nat)
    requires Run(env, js, steps) && n < |steps| && task in js[n + 1].d.tasks && task !in js[n + 1].discards
    ensures || FromClaim(js[n], steps[n], js[n + 1], task)
            || (Carried(js[n], js[n + 1], task) && task !in js[n].discards)
  {
    RunInv(env, js, steps, n);
    assert MovesAt(env, js, steps, n);
    MoveTask(env, js[n], steps[n], js[n + 1], task);
  }

  lemma NoTasksAtFirst(env: H.Env, js: seq<Joint>, steps: seq<Step>)
    requires Run(env, js, steps)
    ensures js[0].d.tasks == map[]
  {
  }

  // Every task that may call the provider was claimed by the normal loop or
  // by a release drain.
  lemma {:induction false} Origin(env: H.Env, js: seq<Joint>, steps: seq<Step>, n: nat, task: nat) returns (m: nat)
    requires Run(env, js, steps) && n < |js| && task in js[n].d.tasks && task !in js[n].discards
    ensures m < n && FromClaim(js[m], steps[m], js[n], task)
    decreases n
  {
    m := 0;
    if n == 0 {
      NoTasksAtFirst(env, js, steps);
    } else {
      TaskBefore(env, js, steps, n - 1, task);
      if FromClaim(js[n - 1], steps[n - 1], js[n], task) {
        m := n - 1;
      } else {
        m := Origin(env, js, steps, n - 1, task);
        OriginKept(js[m], steps[m], js[n - 1], js[n], task);
      }
    }
  }

  // ------------------------------------------------------------- main results

  // No channel loop reads between a swap and the end of its callback.
  ghost predicate AtomicTicks(js: seq<Joint>, steps: seq<Step>)
    requires |js| == |steps| + 1
  {
    forall k :: 0 <= k < |steps| && steps[k].Control? && (steps[k].h.ClaimReadEngaged? || steps[k].h.ClaimReadDraining?)
      ==> js[k].w.pending == map[]
  }

  ghost predicate NotFinished(steps: seq<Step>, e: nat, n: nat, id: Uuid)
    requires n <= |steps|
  {
    forall k :: e <= k < n ==> steps[k] != Control(H.DrainFinish(id))
  }

  // A call to the provider for a row the switch covers, at `n`.
  ghost predicate CallUnder(env: H.Env, a: Joint, st: Step, s: Switch) {
    && st.Deliver? && st.st.Hand? && st.st.task in a.d.tasks
    && var row := a.d.tasks[st.st.task].row;
       row in a.d.t.outbox && Matches(env.parse, s, a.d.t.outbox[row].target)
  }

  lemma ControlAt(env: H.Env, js: seq<Joint>, steps: seq<Step>, k: nat)
    requires Run(env, js, steps) && k < |steps|
    ensures var h := HoldSteps(js, steps)[k];
            !TakesRows(h) && !h.Elsewhere? ==> steps[k] == Control(h)
  {
    assert MovesAt(env, js, steps, k);
  }

  lemma FinishProjects(env: H.Env, js: seq<Joint>, steps: seq<Step>, e: nat, n: nat, id: Uuid)
    requires Run(env, js, steps) && n <= |steps| && NotFinished(steps, e, n, id)
    ensures forall k :: e <= k < n ==> HoldSteps(js, steps)[k] != H.DrainFinish(id)
  {
    forall k | e <= k < n
      ensures HoldSteps(js, steps)[k] != H.DrainFinish(id)
    {
      ControlAt(env, js, steps, k);
    }
  }

  // The protocol saw a `hold` switch engaged at `e`, and has not lifted it by
  // `n`.
  ghost predicate HeldFrom(js: seq<Joint>, steps: seq<Step>, e: nat, n: nat, id: Uuid)
    requires |js| == |steps| + 1
  {
    && e <= n <= |steps|
    && id in js[e].w.cache.switches && js[e].w.cache.switches[id].onQueued == Hold
    && NotFinished(steps, e, n, id)
  }

  // A claim of the normal loop that took a row under the switch had begun to
  // read its exclusion before the switch was seen, or while the release was
  // between the swap and its callback.
  lemma NormalOrigin(env: H.Env, js: seq<Joint>, steps: seq<Step>, e: nat, m: nat, n: nat, id: Uuid, row: Uuid)
    returns (r: nat)
    requires Run(env, js, steps) && m < n && HeldFrom(js, steps, e, n, id)
    requires steps[m].Batch? && steps[m].h.ClaimRows? && row in steps[m].h.batch
    requires row in js[m].w.outbox && Matches(env.parse, js[e].w.cache.switches[id], js[m].w.outbox[row].target)
    ensures r < m && (r < e || id in js[r].w.pending)
    ensures steps[r].Control? && steps[r].h.ClaimReadEngaged? && steps[r].h.channel == steps[m].h.channel
  {
    var ws, hs := WorldsOf(js), HoldSteps(js, steps);
    Projects(env, js, steps);
    FinishProjects(env, js, steps, e, n, id);
    var i, j := HS.ClaimHasReads(env, ws, hs, m);
    if e <= i && id !in ws[i].pending {
      HS.HeldThrough(env, ws, hs, e, i, j, id);
      HS.NormalClaimSafe(env, ws, hs, i, j, m, steps[m].h.channel, id, row);
    }
    ControlAt(env, js, steps, i);
    r := i;
  }

  // A release drain that took a row under the switch had read the engaged set
  // without it.
  lemma DrainOrigin(env: H.Env, js: seq<Joint>, steps: seq<Step>, e: nat, m: nat, id: Uuid, row: Uuid)
    returns (r: nat)
    requires Run(env, js, steps) && m < |steps| && e < |js| && id in js[e].w.cache.switches
    requires steps[m].Batch? && steps[m].h.DrainClaim? && row in steps[m].h.batch
    requires row in js[m].w.outbox && Matches(env.parse, js[e].w.cache.switches[id], js[m].w.outbox[row].target)
    ensures r < m && id !in js[r].w.cache.switches
    ensures steps[r].Control? && steps[r].h.DrainReadEngaged?
    ensures steps[r].h.id == steps[m].h.id && steps[r].h.channel == steps[m].h.channel
  {
    var ws, hs := WorldsOf(js), HoldSteps(js, steps);
    Projects(env, js, steps);
    r := HS.DrainExact(env, ws, hs, m);
    ControlAt(env, js, steps, r);
    if id in js[r].w.cache.switches {
      SameSwitch(env, ws, hs, e, r, id);
    }
  }

  lemma SameSwitch(env: H.Env, ws: seq<H.World>, hs: seq<H.Step>, i: nat, j: nat, id: Uuid)
    requires H.Run(env, ws, hs) && i < |ws| && j < |ws|
    requires id in ws[i].cache.switches && id in ws[j].cache.switches
    ensures ws[i].cache.switches[id] == ws[j].cache.switches[id]
  {
    HS.EngagedRow(env, ws, hs, i, id);
    HS.EngagedRow(env, ws, hs, j, id);
    if i <= j {
      HS.RowConstant(env, ws, hs, i, j, id);
    } else {
      HS.RowConstant(env, ws, hs, j, i, id);
    }
  }

  /**
   * While a `hold` switch is held, a provider call for a row under it comes
   * only from a task claimed by a normal loop that began to read its exclusion
   * before the switch was seen (or in the gap of a tick), or by a release drain
   * that read the engaged set without it.
   */
  lemma HeldCall(env: H.Env, js: seq<Joint>, steps: seq<Step>, e: nat, n: nat, id: Uuid) returns (r: nat, m: nat)
    requires Run(env, js, steps) && n < |steps| && HeldFrom(js, steps, e, n, id)
    requires CallUnder(env, js[n], steps[n], js[e].w.cache.switches[id])
    ensures r < m < n && steps[r].Control? && FromClaim(js[m], steps[m], js[n], steps[n].st.task)
    ensures if steps[m].h.ClaimRows?
            then && (r < e || id in js[r].w.pending)
                 && steps[r].h.ClaimReadEngaged? && steps[r].h.channel == steps[m].h.channel
            else && steps[r].h.DrainReadEngaged? && steps[r].h.channel == steps[m].h.channel
                 && steps[r].h.id == steps[m].h.id && id !in js[r].w.cache.switches
    ensures AtomicTicks(js, steps) && steps[m].h.ClaimRows? ==> r < e
  {
    var task := steps[n].st.task;
    CallerClaimed(env, js, steps, n);
    m := Origin(env, js, steps, n, task);
    if steps[m].h.ClaimRows? {
      r := NormalOrigin(env, js, steps, e, m, n, id, js[n].d.tasks[task].row);
    } else {
      r := DrainOrigin(env, js, steps, e, m, id, js[n].d.tasks[task].row);
    }
  }

  lemma CallerClaimed(env: H.Env, js: seq<Joint>, steps: seq<Step>, n: nat)
    requires Run(env, js, steps) && n < |steps| && steps[n].Deliver? && steps[n].st.Hand?
    ensures steps[n].st.task !in js[n].discards
  {
    assert MovesAt(env, js, steps, n);
  }
}
