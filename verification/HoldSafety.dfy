/** What the kill-switch protocol guarantees over every run. */
module HoldSafety {
  import opened Base
  import opened KillSwitch
  import opened SwitchCache
  import opened Outbox
  import opened HoldProtocol

  // Engaged, caught between the swap and the callback, or draining.
  ghost predicate Held(w: World, id: Uuid) {
    id in w.cache.switches || id in w.pending || id in w.draining
  }

  // ------------------------------------------------------- stages of a hold

  lemma StageFacts(env: Env, w: World, id: Uuid)
    requires Inv(env, w) && (id in w.pending || id in w.draining)
    ensures Retired(w, id) && (id in w.pending ==> id !in w.draining && w.readTenant.None?)
  {
  }

  // A held switch only moves forward: engaged, pending, draining, gone.
  lemma DrainingStep(env: Env, w: World, st: Step, id: Uuid)
    requires Inv(env, w) && Enabled(env, w, st) && id in w.draining
    ensures var w' := Apply(env, w, st);
            id !in w'.cache.switches && id !in w'.pending && (id in w'.draining <==> st != DrainFinish(id))
  {
    StageFacts(env, w, id);
    if st.Swap? {
      SwapAvoids(env, w, id);
    }
  }

  lemma PendingStep(env: Env, w: World, st: Step, id: Uuid)
    requires Inv(env, w) && Enabled(env, w, st) && id in w.pending
    ensures var w' := Apply(env, w, st);
            id !in w'.cache.switches && (id in w'.pending || (st == StartDrain(id) && id in w'.draining))
  {
    StageFacts(env, w, id);
    PendingMoves(env, w, st, id);
  }

  lemma PendingMoves(env: Env, w: World, st: Step, id: Uuid)
    requires Enabled(env, w, st) && id in w.pending
    requires id !in w.cache.switches && w.readTenant.None?
    ensures var w' := Apply(env, w, st);
            id !in w'.cache.switches && (id in w'.pending || (st == StartDrain(id) && id in w'.draining))
  {
  }

  lemma EngagedStep(env: Env, w: World, st: Step, id: Uuid)
    requires Enabled(env, w, st)
    requires id in w.cache.switches && w.cache.switches[id].onQueued == Hold
    ensures var w' := Apply(env, w, st); id in w'.cache.switches || id in w'.pending
  {
  }

  lemma HeldRow(env: Env, w: World, id: Uuid)
    requires Inv(env, w) && Held(w, id)
    ensures Known(w, id)
    ensures id in w.cache.switches ==> w.cache.switches[id] == RowOf(w, id)
    ensures id in w.pending ==> w.pending[id] == RowOf(w, id)
    ensures id in w.draining ==> w.draining[id] == RowOf(w, id)
  {
  }

  // ------------------------------------- a hold lasts until it is drained

  lemma {:induction false} RowConstant(env: Env, ws: seq<World>, steps: seq<Step>, i: nat, j: nat, id: Uuid)
    requires Run(env, ws, steps) && i <= j < |ws| && Known(ws[i], id)
    ensures Known(ws[j], id) && RowOf(ws[j], id) == RowOf(ws[i], id)
  {
    if i == j {
    } else {
      RowConstant(env, ws, steps, i, j - 1, id);
      RunInv(env, ws, steps, j - 1);
      assert StepAt(env, ws, steps, j - 1);
      RowStep(env, ws[j - 1], steps[j - 1], id);
    }
  }

  lemma HeldStep(env: Env, ws: seq<World>, steps: seq<Step>, k: nat, id: Uuid)
    requires Run(env, ws, steps) && k < |steps| && Held(ws[k], id)
    requires Known(ws[k], id) && RowOf(ws[k], id).onQueued == Hold
    ensures Held(ws[k + 1], id) || steps[k] == DrainFinish(id)
  {
    var w, st := ws[k], steps[k];
    RunInv(env, ws, steps, k);
    assert StepAt(env, ws, steps, k);
    HeldRow(env, w, id);
    if id in w.draining {
      DrainingStep(env, w, st, id);
    } else if id in w.pending {
      PendingStep(env, w, st, id);
    } else {
      EngagedStep(env, w, st, id);
    }
  }

  lemma EngagedRow(env: Env, ws: seq<World>, steps: seq<Step>, i: nat, id: Uuid)
    requires Run(env, ws, steps) && i < |ws| && id in ws[i].cache.switches
    ensures Known(ws[i], id) && ws[i].cache.switches[id] == RowOf(ws[i], id)
    ensures id !in ws[i].drains && id !in ws[i].pending
  {
    RunInv(env, ws, steps, i);
    HeldRow(env, ws[i], id);
  }

  // A `hold` switch once seen engaged stays engaged, pending or draining
  // until its drain finishes, under the row it was engaged with.
  lemma {:induction false} HoldUntilDrained(env: Env, ws: seq<World>, steps: seq<Step>, i: nat, j: nat, id: Uuid)
    requires Run(env, ws, steps) && i <= j < |ws|
    requires id in ws[i].cache.switches && ws[i].cache.switches[id].onQueued == Hold
    ensures Held(ws[j], id) || exists k :: i <= k < j && steps[k] == DrainFinish(id)
    ensures Known(ws[j], id) && RowOf(ws[j], id) == ws[i].cache.switches[id]
  {
    EngagedRow(env, ws, steps, i, id);
    RowConstant(env, ws, steps, i, j, id);
    if i == j {
    } else {
      HoldUntilDrained(env, ws, steps, i, j - 1, id);
      if Held(ws[j - 1], id) {
        HeldStep(env, ws, steps, j - 1, id);
      }
    }
  }

  // The channel's drain saw its backlog empty, or its task died.
  ghost predicate EndsDrain(st: Step, id: Uuid, channel: string) {
    || (st.DrainClaim? && st.id == id && st.channel == channel && st.batch == {})
    || st == DrainDies(id, channel)
  }

  ghost predicate DrainFinished(w: World, id: Uuid, channel: string) {
    id in w.drains && channel in w.drains[id] && w.drains[id][channel].Finished?
  }

  lemma PhaseStep(env: Env, w: World, st: Step, id: Uuid, channel: string)
    requires Enabled(env, w, st) && DrainFinished(Apply(env, w, st), id, channel)
    ensures DrainFinished(w, id, channel) || EndsDrain(st, id, channel)
  {
    if st.DrainClaim? && st.id == id && st.channel == channel {
      assert st.batch == {};
    }
  }

  lemma {:induction false} FinishedByItsEnd(env: Env, ws: seq<World>, steps: seq<Step>, i: nat, j: nat,
                                            id: Uuid, channel: string)
    requires Run(env, ws, steps) && i <= j < |ws|
    requires id in ws[i].cache.switches && DrainFinished(ws[j], id, channel)
    ensures exists k :: i <= k < j && EndsDrain(steps[k], id, channel)
  {
    EngagedRow(env, ws, steps, i, id);
    if i == j {
    } else {
      assert StepAt(env, ws, steps, j - 1);
      PhaseStep(env, ws[j - 1], steps[j - 1], id, channel);
      if DrainFinished(ws[j - 1], id, channel) {
        FinishedByItsEnd(env, ws, steps, i, j - 1, id, channel);
      }
    }
  }

  // The exclusion is lifted only after every channel's drain has, since the
  // switch was engaged, seen its backlog empty or died.
  lemma DrainedEverywhere(env: Env, ws: seq<World>, steps: seq<Step>, i: nat, k: nat, id: Uuid)
    requires Run(env, ws, steps) && i <= k < |steps|
    requires id in ws[i].cache.switches && steps[k] == DrainFinish(id)
    ensures forall ch :: ch in env.channels ==> exists m :: i <= m < k && EndsDrain(steps[m], id, ch)
  {
    RunInv(env, ws, steps, k);
    assert StepAt(env, ws, steps, k);
    forall ch | ch in env.channels
      ensures exists m :: i <= m < k && EndsDrain(steps[m], id, ch)
    {
      FinishedByItsEnd(env, ws, steps, i, k, id, ch);
    }
  }

  // ------------------------------------------ the list a claim excludes by

  // The two reads of one claim iteration: engaged at `i`, draining at `j`.
  ghost predicate ReadPair(steps: seq<Step>, i: nat, j: nat, channel: string) {
    && i < j < |steps|
    && steps[i].ClaimReadEngaged? && steps[i].channel == channel
    && steps[j].ClaimReadDraining? && steps[j].channel == channel
    && forall k :: i < k < j ==> !(steps[k].ClaimReadDraining? && steps[k].channel == channel)
  }

  lemma RegisterStep(env: Env, w: World, st: Step, channel: string)
    requires Enabled(env, w, st) && channel in w.claims
    ensures channel in Apply(env, w, st).claims
    ensures w.claims[channel].SawEngaged? && !(st.ClaimReadDraining? && st.channel == channel) ==>
              Apply(env, w, st).claims[channel] == w.claims[channel]
    ensures w.claims[channel].HasList? && !(st.ClaimRows? && st.channel == channel) ==>
              Apply(env, w, st).claims[channel] == w.claims[channel]
  {
  }

  lemma {:induction false} EngagedCopyKept(env: Env, ws: seq<World>, steps: seq<Step>, i: nat, k: nat, j: nat,
                                           channel: string)
    requires Run(env, ws, steps) && ReadPair(steps, i, j, channel) && i < k <= j
    ensures channel in ws[k].claims && ws[k].claims[channel] == SawEngaged(steps[i].order)
  {
    if k == i + 1 {
      assert StepAt(env, ws, steps, i);
    } else {
      EngagedCopyKept(env, ws, steps, i, k - 1, j, channel);
      assert StepAt(env, ws, steps, k - 1);
      RegisterStep(env, ws[k - 1], steps[k - 1], channel);
    }
  }

  lemma ListBuilt(env: Env, ws: seq<World>, steps: seq<Step>, i: nat, j: nat, channel: string)
    requires Run(env, ws, steps) && ReadPair(steps, i, j, channel)
    ensures channel in ws[j + 1].claims && ws[j + 1].claims[channel] == HasList(steps[i].order + steps[j].order)
    ensures Lists(steps[i].order, ws[i].cache.switches) && Lists(steps[j].order, ws[j].draining)
  {
    EngagedCopyKept(env, ws, steps, i, j, j, channel);
    assert StepAt(env, ws, steps, i) && StepAt(env, ws, steps, j);
  }

  ghost predicate Leaving(w: World, id: Uuid) {
    id !in w.cache.switches && (id in w.pending || id in w.draining)
  }

  lemma LeavingStep(env: Env, ws: seq<World>, steps: seq<Step>, k: nat, id: Uuid)
    requires Run(env, ws, steps) && k < |steps| && Leaving(ws[k], id) && Held(ws[k + 1], id)
    ensures Leaving(ws[k + 1], id)
    ensures id in ws[k].draining ==> id in ws[k + 1].draining
  {
    RunInv(env, ws, steps, k);
    assert StepAt(env, ws, steps, k);
    if id in ws[k].draining {
      DrainingStep(env, ws[k], steps[k], id);
    } else {
      PendingStep(env, ws[k], steps[k], id);
    }
  }

  // While it stays held, a switch past the engaged stage never goes back.
  lemma {:induction false} NeverBack(env: Env, ws: seq<World>, steps: seq<Step>, i: nat, j: nat, id: Uuid)
    requires Run(env, ws, steps) && i <= j < |ws|
    requires forall k :: i <= k <= j ==> Held(ws[k], id)
    requires Leaving(ws[i], id)
    ensures Leaving(ws[j], id)
    ensures id in ws[i].draining ==> id in ws[j].draining
  {
    if i == j {
    } else {
      NeverBack(env, ws, steps, i, j - 1, id);
      LeavingStep(env, ws, steps, j - 1, id);
    }
  }

  // A switch held through both reads is in the list exactly unless both fell
  // into the gap between the swap that dropped it and the callback's insert.
  lemma ListExact(env: Env, ws: seq<World>, steps: seq<Step>, i: nat, j: nat, channel: string, id: Uuid)
    requires Run(env, ws, steps) && ReadPair(steps, i, j, channel)
    requires forall k :: i <= k <= j ==> Held(ws[k], id)
    ensures Known(ws[j], id) && channel in ws[j + 1].claims && ws[j + 1].claims[channel].HasList?
    ensures RowOf(ws[j], id) in ws[j + 1].claims[channel].list <==> !(id in ws[i].pending && id in ws[j].pending)
  {
    RunInv(env, ws, steps, i);
    RunInv(env, ws, steps, j);
    assert Held(ws[i], id) && Held(ws[j], id);
    HeldRow(env, ws[i], id);
    HeldRow(env, ws[j], id);
    RowConstant(env, ws, steps, i, j, id);
    ListBuilt(env, ws, steps, i, j, channel);
    var row := RowOf(ws[j], id);
    RowId(env, ws[j], id);
    if id in ws[i].cache.switches {
      assert row in steps[i].order;
    } else {
      NeverBack(env, ws, steps, i, j, id);
      if id in ws[j].draining {
        assert row in steps[j].order;
      } else {
        assert row !in steps[i].order && row !in steps[j].order;
      }
    }
  }

  lemma RowId(env: Env, w: World, id: Uuid)
    requires RowsOk(w) && Known(w, id)
    ensures RowOf(w, id).id == id
  {
  }

  // ------------------------------------------------ what a claim never takes

  // The claim at `m` that uses the list completed at `j`.
  ghost predicate ClaimOf(steps: seq<Step>, j: nat, m: nat, channel: string) {
    && j < m < |steps|
    && steps[m].ClaimRows? && steps[m].channel == channel
    && forall k :: j < k < m ==> !(steps[k].ClaimRows? && steps[k].channel == channel)
  }

  lemma {:induction false} ListKept(env: Env, ws: seq<World>, steps: seq<Step>, j: nat, k: nat, m: nat, channel: string)
    requires Run(env, ws, steps) && ClaimOf(steps, j, m, channel) && j < k <= m
    requires channel in ws[j + 1].claims && ws[j + 1].claims[channel].HasList?
    ensures channel in ws[k].claims && ws[k].claims[channel] == ws[j + 1].claims[channel]
  {
    if k == j + 1 {
    } else {
      ListKept(env, ws, steps, j, k - 1, m, channel);
      assert StepAt(env, ws, steps, k - 1);
      RegisterStep(env, ws[k - 1], steps[k - 1], channel);
    }
  }

  lemma ListStep(env: Env, w: World, st: Step, channel: string)
    requires Enabled(env, w, st)
    requires channel in Apply(env, w, st).claims && Apply(env, w, st).claims[channel].HasList?
    ensures channel in w.claims
    ensures if st.ClaimReadDraining? && st.channel == channel then w.claims[channel].SawEngaged?
            else w.claims[channel].HasList? && !(st.ClaimRows? && st.channel == channel)
  {
  }

  lemma CopyStep(env: Env, w: World, st: Step, channel: string)
    requires Enabled(env, w, st)
    requires channel in Apply(env, w, st).claims && Apply(env, w, st).claims[channel].SawEngaged?
    ensures channel in w.claims
    ensures (st.ClaimReadEngaged? && st.channel == channel)
            || (w.claims[channel].SawEngaged? && !(st.ClaimReadDraining? && st.channel == channel))
  {
  }

  lemma StartsIdle(env: Env, ws: seq<World>, steps: seq<Step>, channel: string)
    requires Run(env, ws, steps) && channel in ws[0].claims
    ensures ws[0].claims[channel].Idle?
  {
  }

  lemma {:induction false} DrainingRead(env: Env, ws: seq<World>, steps: seq<Step>, m: nat, n: nat, channel: string)
    returns (j: nat)
    requires Run(env, ws, steps) && m <= n < |steps| && steps[n].ClaimRows? && steps[n].channel == channel
    requires channel in ws[m].claims && ws[m].claims[channel].HasList?
    requires forall k :: m <= k < n ==> !(steps[k].ClaimRows? && steps[k].channel == channel)
    ensures j < m && steps[j].ClaimReadDraining? && steps[j].channel == channel && ClaimOf(steps, j, n, channel)
  {
    j := 0;
    if m == 0 {
      StartsIdle(env, ws, steps, channel);
    } else {
      assert StepAt(env, ws, steps, m - 1);
      ListStep(env, ws[m - 1], steps[m - 1], channel);
      if !(steps[m - 1].ClaimReadDraining? && steps[m - 1].channel == channel) {
        j := DrainingRead(env, ws, steps, m - 1, n, channel);
      } else {
        j := m - 1;
      }
    }
  }

  lemma {:induction false} EngagedRead(env: Env, ws: seq<World>, steps: seq<Step>, j: nat, n: nat, channel: string)
    returns (i: nat)
    requires Run(env, ws, steps) && j <= n < |steps| && steps[n].ClaimReadDraining? && steps[n].channel == channel
    requires channel in ws[j].claims && ws[j].claims[channel].SawEngaged?
    requires forall k :: j <= k < n ==> !(steps[k].ClaimReadDraining? && steps[k].channel == channel)
    ensures i < j && ReadPair(steps, i, n, channel)
  {
    i := 0;
    if j == 0 {
      StartsIdle(env, ws, steps, channel);
    } else {
      assert StepAt(env, ws, steps, j - 1);
      CopyStep(env, ws[j - 1], steps[j - 1], channel);
      if !(steps[j - 1].ClaimReadEngaged? && steps[j - 1].channel == channel) {
        i := EngagedRead(env, ws, steps, j - 1, n, channel);
      } else {
        i := j - 1;
      }
    }
  }

  // Every claim of the normal loop has its two reads.
  lemma ClaimHasReads(env: Env, ws: seq<World>, steps: seq<Step>, m: nat) returns (i: nat, j: nat)
    requires Run(env, ws, steps) && m < |steps| && steps[m].ClaimRows?
    ensures i < j < m && ReadPair(steps, i, j, steps[m].channel) && ClaimOf(steps, j, m, steps[m].channel)
  {
    assert StepAt(env, ws, steps, m);
    j := DrainingRead(env, ws, steps, m, m, steps[m].channel);
    assert StepAt(env, ws, steps, j);
    i := EngagedRead(env, ws, steps, j, j, steps[m].channel);
  }

  lemma ClaimAvoidsList(env: Env, ws: seq<World>, steps: seq<Step>, j: nat, m: nat, channel: string,
                        s: Switch, row: Uuid)
    requires Run(env, ws, steps) && ClaimOf(steps, j, m, channel)
    requires channel in ws[j + 1].claims && ws[j + 1].claims[channel].HasList?
    requires s in ws[j + 1].claims[channel].list && row in steps[m].batch
    ensures row in ws[m].outbox && !Matches(env.parse, s, ws[m].outbox[row].target)
  {
    ListKept(env, ws, steps, j, m, m, channel);
    assert StepAt(env, ws, steps, m);
    ClaimCandidatesExact(env.parse, ws[m].outbox, channel, steps[m].now, ws[j + 1].claims[channel].list, row);
  }

  // The normal loop never claims a row matching a switch that stayed held
  // while its exclusion was read, unless both reads fell into the gap.
  lemma NormalClaimSafe(env: Env, ws: seq<World>, steps: seq<Step>, i: nat, j: nat, m: nat, channel: string,
                        id: Uuid, row: Uuid)
    requires Run(env, ws, steps) && ReadPair(steps, i, j, channel) && ClaimOf(steps, j, m, channel)
    requires forall k :: i <= k <= j ==> Held(ws[k], id)
    requires !(id in ws[i].pending && id in ws[j].pending)
    requires row in steps[m].batch
    ensures Known(ws[j], id) && row in ws[m].outbox
    ensures !Matches(env.parse, RowOf(ws[j], id), ws[m].outbox[row].target)
  {
    ListExact(env, ws, steps, i, j, channel, id);
    ClaimAvoidsList(env, ws, steps, j, m, channel, RowOf(ws[j], id), row);
  }

  // No reader runs between a swap and the end of its callback.
  ghost predicate AtomicTicks(ws: seq<World>, steps: seq<Step>)
    requires |ws| == |steps| + 1
  {
    forall k :: 0 <= k < |steps| && (steps[k].ClaimReadEngaged? || steps[k].ClaimReadDraining?)
      ==> ws[k].pending == map[]
  }

  lemma HeldThrough(env: Env, ws: seq<World>, steps: seq<Step>, e: nat, i: nat, j: nat, id: Uuid)
    requires Run(env, ws, steps) && e <= i <= j < |ws|
    requires id in ws[e].cache.switches && ws[e].cache.switches[id].onQueued == Hold
    requires forall k :: e <= k < j ==> steps[k] != DrainFinish(id)
    ensures forall k :: i <= k <= j ==> Held(ws[k], id)
    ensures Known(ws[j], id) && RowOf(ws[j], id) == ws[e].cache.switches[id]
  {
    forall k | i <= k <= j
      ensures Held(ws[k], id)
    {
      HoldUntilDrained(env, ws, steps, e, k, id);
    }
    HoldUntilDrained(env, ws, steps, e, j, id);
  }

  // With atomic ticks: from the moment a `hold` switch is seen engaged until
  // its drain finishes, no claim of the normal loop takes a row under it.
  lemma HoldSafe(env: Env, ws: seq<World>, steps: seq<Step>, e: nat, i: nat, j: nat, m: nat, channel: string,
                 id: Uuid, row: Uuid)
    requires Run(env, ws, steps) && AtomicTicks(ws, steps)
    requires e <= i && ReadPair(steps, i, j, channel) && ClaimOf(steps, j, m, channel)
    requires id in ws[e].cache.switches && ws[e].cache.switches[id].onQueued == Hold
    requires forall k :: e <= k < j ==> steps[k] != DrainFinish(id)
    requires row in steps[m].batch
    ensures row in ws[m].outbox && !Matches(env.parse, ws[e].cache.switches[id], ws[m].outbox[row].target)
  {
    HeldThrough(env, ws, steps, e, i, j, id);
    NormalClaimSafe(env, ws, steps, i, j, m, channel, id, row);
  }

  // ------------------------------------------------------- what a drain takes

  lemma SnapshotStep(env: Env, w: World, st: Step, id: Uuid, channel: string)
    requires Enabled(env, w, st)
    requires var w' := Apply(env, w, st);
             id in w'.drains && channel in w'.drains[id] && w'.drains[id][channel].Snapshot?
    ensures var phase := Apply(env, w, st).drains[id][channel];
            || (id in w.drains && channel in w.drains[id] && w.drains[id][channel] == phase)
            || (st == DrainReadEngaged(id, channel, phase.engaged))
  {
  }

  // The engaged set a drain's snapshot copied, and when.
  lemma {:induction false} SnapshotRead(env: Env, ws: seq<World>, steps: seq<Step>, m: nat, id: Uuid, channel: string)
    returns (k: nat)
    requires Run(env, ws, steps) && m < |ws|
    requires id in ws[m].drains && channel in ws[m].drains[id] && ws[m].drains[id][channel].Snapshot?
    ensures k < m && steps[k] == DrainReadEngaged(id, channel, ws[m].drains[id][channel].engaged)
    ensures Lists(ws[m].drains[id][channel].engaged, ws[k].cache.switches)
  {
    k := 0;
    if m == 0 {
    } else {
      assert StepAt(env, ws, steps, m - 1);
      SnapshotStep(env, ws[m - 1], steps[m - 1], id, channel);
      if steps[m - 1] == DrainReadEngaged(id, channel, ws[m].drains[id][channel].engaged) {
        k := m - 1;
      } else {
        k := SnapshotRead(env, ws, steps, m - 1, id, channel);
      }
    }
  }

  ghost predicate CoveredByEngaged(env: Env, w: World, t: Target) {
    exists id :: id in w.cache.switches && Matches(env.parse, w.cache.switches[id], t)
  }

  lemma ListsCover(env: Env, order: seq<Switch>, w: World, t: Target)
    requires Lists(order, w.cache.switches)
    ensures MatchedBySome(env.parse, order, t) <==> CoveredByEngaged(env, w, t)
  {
  }

  // Every row a release drain claims is a ready row of its channel under the
  // released switch and under no switch its snapshot saw engaged; a drain
  // ends only when each ready row left in its scope is under such a switch.
  lemma DrainExact(env: Env, ws: seq<World>, steps: seq<Step>, m: nat) returns (k: nat)
    requires Run(env, ws, steps) && m < |steps| && steps[m].DrainClaim?
    ensures k < m && steps[k].DrainReadEngaged? && steps[k].id == steps[m].id && steps[k].channel == steps[m].channel
    ensures Known(ws[m], steps[m].id)
    ensures forall row :: row in steps[m].batch ==>
              && row in ws[m].outbox && ws[m].outbox[row].target.channel == steps[m].channel
              && Ready(ws[m].outbox[row], steps[m].now)
              && Matches(env.parse, RowOf(ws[m], steps[m].id), ws[m].outbox[row].target)
              && !CoveredByEngaged(env, ws[k], ws[m].outbox[row].target)
    ensures env.releaseRate >= 1 && steps[m].batch == {} ==>
              forall row :: row in ws[m].outbox && ws[m].outbox[row].target.channel == steps[m].channel
                            && Ready(ws[m].outbox[row], steps[m].now)
                            && Matches(env.parse, RowOf(ws[m], steps[m].id), ws[m].outbox[row].target)
                            ==> CoveredByEngaged(env, ws[k], ws[m].outbox[row].target)
  {
    assert StepAt(env, ws, steps, m);
    var DrainClaim(id, channel, now, _, batch) := steps[m];
    k := SnapshotRead(env, ws, steps, m, id, channel);
    DrainRow(env, ws, steps, m, id);
    var outbox, order := ws[m].outbox, ws[m].drains[id][channel].engaged;
    var candidates := ScopeCandidates(env.parse, outbox, Some(channel), ws[m].draining[id], now,
                                      ExclusionFor(env.parse, order, channel));
    EmptyBatch(outbox, candidates, env.releaseRate, batch);
    forall row | row in outbox
      ensures row in candidates <==>
              && outbox[row].target.channel == channel && Ready(outbox[row], now)
              && Matches(env.parse, RowOf(ws[m], id), outbox[row].target)
              && !CoveredByEngaged(env, ws[k], outbox[row].target)
    {
      ScopeCandidatesExact(env.parse, outbox, channel, ws[m].draining[id], now, order, row);
      ListsCover(env, order, ws[k], outbox[row].target);
    }
  }

  lemma DrainRow(env: Env, ws: seq<World>, steps: seq<Step>, m: nat, id: Uuid)
    requires Run(env, ws, steps) && m < |ws| && id in ws[m].draining
    ensures Known(ws[m], id) && ws[m].draining[id] == RowOf(ws[m], id)
  {
    RunInv(env, ws, steps, m);
  }
}
