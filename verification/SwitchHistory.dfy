/** The refresh deltas of a whole run, taken together. */
module SwitchHistory {
  import opened Base
  import opened KillSwitch
  import opened SwitchCache
  import opened HoldProtocol

  ghost function TickDelta(w: World): RefreshDelta
    requires w.readTenant.Some? && w.readPlatform.Some?
  {
    DeltaOf(w.cache, w.readTenant.value, w.readPlatform.value)
  }

  // ---------------------------------------------------------------- replay

  // The delta a step reports, if it is a swap.
  ghost function DeltaAt(w: World, st: Step): Option<RefreshDelta> {
    if st.Swap? && w.readTenant.Some? && w.readPlatform.Some? then Some(TickDelta(w)) else None
  }

  ghost function DeltasOf(ws: seq<World>, steps: seq<Step>, n: nat): seq<Option<RefreshDelta>>
    requires n <= |steps| && |ws| == |steps| + 1
  {
    seq(n, i requires 0 <= i < n => DeltaAt(ws[i], steps[i]))
  }

  function Ticked(before: map<Uuid, Switch>, delta: Option<RefreshDelta>): map<Uuid, Switch> {
    if delta.Some? then Replay(before, delta.value) else before
  }

  // All deltas, folded from the empty set.
  function Fold(deltas: seq<Option<RefreshDelta>>): map<Uuid, Switch> {
    if deltas == [] then map[] else Ticked(Fold(deltas[..|deltas| - 1]), deltas[|deltas| - 1])
  }

  ghost predicate TicksAt(sets: seq<map<Uuid, Switch>>, deltas: seq<Option<RefreshDelta>>, k: nat)
    requires |sets| == |deltas| + 1 && k < |deltas|
  {
    sets[k + 1] == Ticked(sets[k], deltas[k])
  }

  // Sets that move by their deltas are the deltas' fold.
  lemma {:induction false} FoldFollows(sets: seq<map<Uuid, Switch>>, deltas: seq<Option<RefreshDelta>>)
    requires |sets| == |deltas| + 1 && sets[0] == map[]
    requires forall k :: 0 <= k < |deltas| ==> TicksAt(sets, deltas, k)
    ensures Fold(deltas) == sets[|deltas|]
    decreases |deltas|
  {
    if deltas == [] {
    } else {
      var n := |deltas| - 1;
      var setsBefore, deltasBefore := sets[..n + 1], deltas[..n];
      forall k | 0 <= k < n ensures TicksAt(setsBefore, deltasBefore, k) {
        assert TicksAt(sets, deltas, k);
      }
      FoldFollows(setsBefore, deltasBefore);
      assert TicksAt(sets, deltas, n);
    }
  }

  lemma SwapKeepsContent(env: Env, w: World, id: Uuid)
    requires Inv(env, w) && Enabled(env, w, Swap)
    requires id in w.cache.switches && id in SwapCache(w).switches
    ensures w.cache.switches[id] == SwapCache(w).switches[id]
  {
    SwapEntry(env, w, id);
  }

  lemma ReplaySwap(env: Env, w: World)
    requires Inv(env, w) && Enabled(env, w, Swap)
    ensures Replay(w.cache.switches, TickDelta(w)) == SwapCache(w).switches
  {
    ReplayExact(w.cache, w.readTenant.value, w.readPlatform.value);
    forall id | id in w.cache.switches && id in SwapCache(w).switches
      ensures w.cache.switches[id] == SwapCache(w).switches[id]
    {
      SwapKeepsContent(env, w, id);
    }
  }

  lemma ReplayStep(env: Env, ws: seq<World>, steps: seq<Step>, k: nat)
    requires Run(env, ws, steps) && k < |steps|
    ensures steps[k].Swap? ==>
              && ws[k].readTenant.Some? && ws[k].readPlatform.Some?
              && Replay(ws[k].cache.switches, TickDelta(ws[k])) == ws[k + 1].cache.switches
    ensures !steps[k].Swap? ==> ws[k + 1].cache == ws[k].cache
  {
    assert StepAt(env, ws, steps, k);
    if steps[k].Swap? {
      RunInv(env, ws, steps, k);
      ReplaySwap(env, ws[k]);
    }
  }

  lemma TickReplays(env: Env, ws: seq<World>, steps: seq<Step>, k: nat)
    requires Run(env, ws, steps) && k < |steps|
    ensures Ticked(ws[k].cache.switches, DeltaAt(ws[k], steps[k])) == ws[k + 1].cache.switches
  {
    ReplayStep(env, ws, steps, k);
  }

  lemma StartsEmpty(env: Env, ws: seq<World>, steps: seq<Step>)
    requires Run(env, ws, steps)
    ensures ws[0].cache.switches == map[]
  {
  }

  // Over every run, whichever reads fail, the deltas replay to the cache.
  lemma DeltasReplayToCache(env: Env, ws: seq<World>, steps: seq<Step>, n: nat)
    requires Run(env, ws, steps) && n <= |steps|
    ensures Fold(DeltasOf(ws, steps, n)) == ws[n].cache.switches
  {
    var sets := seq(n + 1, i requires 0 <= i <= n => ws[i].cache.switches);
    var deltas := DeltasOf(ws, steps, n);
    StartsEmpty(env, ws, steps);
    forall k | 0 <= k < n ensures TicksAt(sets, deltas, k) {
      TickReplays(env, ws, steps, k);
    }
    FoldFollows(sets, deltas);
  }

  // ---------------------------------------------------- reported once each

  function CountId(list: seq<Switch>, id: Uuid): nat {
    if list == [] then 0
    else
      var last := |list| - 1;
      CountId(list[..last], id) + if list[last].id == id then 1 else 0
  }

  lemma {:induction false} CountAppend(xs: seq<Switch>, ys: seq<Switch>, id: Uuid)
    ensures CountId(xs + ys, id) == CountId(xs, id) + CountId(ys, id)
  {
    if ys == [] {
      assert xs + ys == xs;
    } else {
      var last := |ys| - 1;
      assert (xs + ys)[..|xs + ys| - 1] == xs + ys[..last];
      CountAppend(xs, ys[..last], id);
    }
  }

  lemma {:induction false} CountUnknown(list: seq<Switch>, known: set<Uuid>, id: Uuid)
    ensures CountId(Unknown(list, known), id) == if id in known then 0 else CountId(list, id)
  {
    if list == [] {
    } else {
      var last := |list| - 1;
      CountUnknown(list[..last], known, id);
      var init := Unknown(list[..last], known);
      CountAppend(init, [list[last]], id);
      assert [list[last]][..0] == [];
    }
  }

  predicate Distinct(list: seq<Switch>) {
    forall i, j :: 0 <= i < j < |list| ==> list[i].id != list[j].id
  }

  lemma IdsOfLast(list: seq<Switch>, id: Uuid)
    requires list != []
    ensures id in Ids(list) <==> id in Ids(list[..|list| - 1]) || id == list[|list| - 1].id
    ensures Distinct(list) && id == list[|list| - 1].id ==> id !in Ids(list[..|list| - 1])
  {
    assert list == list[..|list| - 1] + [list[|list| - 1]];
  }

  lemma {:induction false} CountDistinct(list: seq<Switch>, id: Uuid)
    requires Distinct(list)
    ensures CountId(list, id) == if id in Ids(list) then 1 else 0
  {
    if list == [] {
    } else {
      var last := |list| - 1;
      CountDistinct(list[..last], id);
      IdsOfLast(list, id);
    }
  }

  function Listed(platform: Option<seq<PlatformSwitch>>): seq<Switch> {
    if platform.Some? then AsKillSwitches(platform.value) else []
  }

  ghost predicate DistinctReads(w: World) {
    && (w.readTenant.Some? ==> Distinct(w.readTenant.value))
    && (w.readPlatform.Some? ==> Distinct(Listed(w.readPlatform.value)))
  }

  lemma ReadStep(env: Env, w: World, st: Step)
    requires Enabled(env, w, st) && DistinctReads(w)
    ensures DistinctReads(Apply(env, w, st))
  {
    if st.ReadPlatform? && st.result.Some? {
      assert Distinct(Listed(st.result));
    }
  }

  lemma {:induction false} ReadsDistinct(env: Env, ws: seq<World>, steps: seq<Step>, n: nat)
    requires Run(env, ws, steps) && n < |ws|
    ensures DistinctReads(ws[n])
  {
    if n == 0 {
    } else {
      ReadsDistinct(env, ws, steps, n - 1);
      assert StepAt(env, ws, steps, n - 1);
      ReadStep(env, ws[n - 1], steps[n - 1]);
    }
  }

  // How often a tick reports `id` as newly engaged.
  lemma EngagedInTick(env: Env, w: World, id: Uuid)
    requires Inv(env, w) && DistinctReads(w) && Enabled(env, w, Swap)
    ensures CountId(TickDelta(w).newlyEngaged, id) ==
            if id !in w.cache.switches && id in SwapCache(w).switches then 1 else 0
  {
    var tenant, platform := w.readTenant.value, Listed(w.readPlatform.value);
    CountUnknown(tenant + platform, w.cache.switches.Keys, id);
    CountAppend(tenant, platform, id);
    CountDistinct(tenant, id);
    CountDistinct(platform, id);
    PlatformListed(env, w);
  }

  lemma PlatformListed(env: Env, w: World)
    requires Inv(env, w) && w.readTenant.Some? && w.readPlatform.Some?
    ensures Ids(w.readTenant.value) !! Ids(Listed(w.readPlatform.value))
  {
    if w.readPlatform.value.Some? {
      var rows := w.readPlatform.value.value;
      forall id | id in Ids(AsKillSwitches(rows))
        ensures id in w.platformRows
      {
        var i :| 0 <= i < |rows| && AsKillSwitches(rows)[i].id == id;
        assert rows[i] in rows;
      }
    }
  }

  ghost function EngagedReports(env: Env, ws: seq<World>, steps: seq<Step>, n: nat, id: Uuid): nat
    requires Run(env, ws, steps) && n < |ws|
  {
    if n == 0 then 0
    else
      assert StepAt(env, ws, steps, n - 1);
      EngagedReports(env, ws, steps, n - 1, id) +
      if steps[n - 1].Swap? then CountId(TickDelta(ws[n - 1]).newlyEngaged, id) else 0
  }

  ghost function ReleasedReports(env: Env, ws: seq<World>, steps: seq<Step>, n: nat, id: Uuid): nat
    requires Run(env, ws, steps) && n < |ws|
  {
    if n == 0 then 0
    else
      assert StepAt(env, ws, steps, n - 1);
      ReleasedReports(env, ws, steps, n - 1, id) +
      if steps[n - 1].Swap? && id in SwitchIds(TickDelta(ws[n - 1]).released) then 1 else 0
  }

  // A switch that has left the cache stays out of it.
  lemma RetiredStep(env: Env, w: World, st: Step, id: Uuid)
    requires Inv(env, w) && Enabled(env, w, st) && Retired(w, id)
    ensures Retired(Apply(env, w, st), id)
  {
    if st.Swap? {
      SwapAvoids(env, w, id);
      SwapLeaves(env, w, id);
    }
  }

  ghost predicate Tally(w: World, id: Uuid, engaged: nat, released: nat) {
    if id in w.cache.switches then engaged == 1 && released == 0
    else engaged == released <= 1 && (released == 1 ==> Retired(w, id))
  }

  lemma TallySwap(env: Env, w: World, id: Uuid, engaged: nat, released: nat)
    requires Inv(env, w) && DistinctReads(w) && Enabled(env, w, Swap) && Tally(w, id, engaged, released)
    ensures var d := TickDelta(w);
            Tally(Apply(env, w, Swap), id, engaged + CountId(d.newlyEngaged, id),
                  released + if id in SwitchIds(d.released) then 1 else 0)
  {
    EngagedInTick(env, w, id);
    ReleasedIds(w.cache, w.readTenant.value, w.readPlatform.value);
    if id in w.cache.switches && id !in SwapCache(w).switches {
      SwapDrops(env, w, id);
      SwapLeaves(env, w, id);
    }
    if Retired(w, id) {
      SwapAvoids(env, w, id);
      SwapLeaves(env, w, id);
    }
  }

  lemma TallyStep(env: Env, ws: seq<World>, steps: seq<Step>, k: nat, id: Uuid, engaged: nat, released: nat)
    requires Run(env, ws, steps) && k < |steps| && Tally(ws[k], id, engaged, released)
    ensures steps[k].Swap? ==>
              && ws[k].readTenant.Some? && ws[k].readPlatform.Some?
              && Tally(ws[k + 1], id, engaged + CountId(TickDelta(ws[k]).newlyEngaged, id),
                       released + if id in SwitchIds(TickDelta(ws[k]).released) then 1 else 0)
    ensures !steps[k].Swap? ==> Tally(ws[k + 1], id, engaged, released)
  {
    assert StepAt(env, ws, steps, k);
    RunInv(env, ws, steps, k);
    ReadsDistinct(env, ws, steps, k);
    ReplayStep(env, ws, steps, k);
    if steps[k].Swap? {
      TallySwap(env, ws[k], id, engaged, released);
    } else if Retired(ws[k], id) {
      RetiredStep(env, ws[k], steps[k], id);
    }
  }

  // Over every run each id is reported engaged at most once and released at
  // most once, and it is cached exactly in between.
  lemma {:induction false} ReportedOnce(env: Env, ws: seq<World>, steps: seq<Step>, n: nat, id: Uuid)
    requires Run(env, ws, steps) && n < |ws|
    ensures var engaged := EngagedReports(env, ws, steps, n, id);
            var released := ReleasedReports(env, ws, steps, n, id);
            && released <= engaged <= 1
            && (id in ws[n].cache.switches <==> engaged == 1 && released == 0)
            && Tally(ws[n], id, engaged, released)
  {
    if n == 0 {
    } else {
      ReportedOnce(env, ws, steps, n - 1, id);
      TallyStep(env, ws, steps, n - 1, id, EngagedReports(env, ws, steps, n - 1, id),
                ReleasedReports(env, ws, steps, n - 1, id));
    }
  }
}
