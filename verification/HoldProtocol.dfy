/**
 * The kill-switch protocol of one dispatcher process as a machine over its
 * atomic steps: switch rows come and go in the two databases, the refresh
 * loop reads them and swaps the cache, its callback moves released `hold`
 * switches into `draining`, channel loops claim rows around both sets and
 * drain tasks ramp a released scope back in.
 *
 * A refresh tick is four steps, not one: the cache write guard is dropped
 * before the callback inserts into `draining`, so another thread may run in
 * between. `pending` holds the switches caught in that gap.
 */
module HoldProtocol {
  import opened Base
  import opened KillSwitch
  import opened SwitchCache
  import opened Outbox

  const CLAIM_BATCH_SIZE: nat := 20

  datatype Env = Env(parse: UuidParser, tenant: Uuid, channels: set<string>, releaseRate: nat)

  datatype ClaimPhase =
    | Idle
    | SawEngaged(engaged: seq<Switch>)   // the engaged set has been copied
    | HasList(list: seq<Switch>)         // and the draining set appended

  datatype DrainPhase =
    | Between
    | Snapshot(engaged: seq<Switch>)
    | Finished                           // a claim came back empty, or its task died

  datatype World = World(
    tenantRows: map<Uuid, Switch>,              // kill_switch; rows are never deleted
    platformRows: map<Uuid, PlatformSwitch>,    // platform_kill_switch
    releasedIds: set<Uuid>,                     // released_at IS NOT NULL, either table
    readTenant: Option<seq<Switch>>,            // the tick in progress
    readPlatform: Option<Option<seq<PlatformSwitch>>>,
    cache: ActiveSet,
    pending: map<Uuid, Switch>,
    draining: map<Uuid, Switch>,
    drains: map<Uuid, map<string, DrainPhase>>,
    claims: map<string, ClaimPhase>,
    outbox: map<Uuid, OutboxRow>)

  datatype Step =
    | Engage(s: Switch)
    | EngagePlatform(p: PlatformSwitch)
    | Release(id: Uuid)
    | ReadTenant(rows: seq<Switch>)
    | ReadPlatform(result: Option<seq<PlatformSwitch>>)
    | AbandonTick
    | Swap
    | StartDrain(id: Uuid)
    | ClaimReadEngaged(channel: string, order: seq<Switch>)
    | ClaimReadDraining(channel: string, order: seq<Switch>)
    | ClaimRows(channel: string, now: Instant, until: Instant, batch: set<Uuid>)
    | DrainReadEngaged(id: Uuid, channel: string, order: seq<Switch>)
    | DrainClaim(id: Uuid, channel: string, now: Instant, until: Instant, batch: set<Uuid>)
    | DrainDies(id: Uuid, channel: string)
    | DrainFinish(id: Uuid)
    | Elsewhere(outbox: map<Uuid, OutboxRow>)

  ghost predicate Init(env: Env, w: World) {
    && w.tenantRows == map[] && w.platformRows == map[] && w.releasedIds == {}
    && w.readTenant == None && w.readPlatform == None
    && w.cache == ActiveSet(map[], {})
    && w.pending == map[] && w.draining == map[] && w.drains == map[]
    && w.claims == (map ch | ch in env.channels :: Idle)
  }

  // ------------------------------------------------------------- the reads

  // SELECT ... WHERE released_at IS NULL, each row once, in any order.
  ghost predicate ListsActive(rows: seq<Switch>, w: World) {
    && (forall i, j :: 0 <= i < j < |rows| ==> rows[i].id != rows[j].id)
    && (forall s :: s in rows ==> s.id in w.tenantRows && w.tenantRows[s.id] == s && s.id !in w.releasedIds)
    && (forall id :: id in w.tenantRows && id !in w.releasedIds ==> w.tenantRows[id] in rows)
  }

  ghost predicate ListsActivePlatform(rows: seq<PlatformSwitch>, env: Env, w: World) {
    && (forall i, j :: 0 <= i < j < |rows| ==> rows[i].id != rows[j].id)
    && (forall p :: p in rows ==>
          p.id in w.platformRows && w.platformRows[p.id] == p && p.id !in w.releasedIds && AppliesTo(p, env.tenant))
    && (forall id :: id in w.platformRows && id !in w.releasedIds && AppliesTo(w.platformRows[id], env.tenant)
                     ==> w.platformRows[id] in rows)
  }

  // ------------------------------------------------------------- the steps

  ghost predicate Enabled(env: Env, w: World, st: Step) {
    match st
    // A fresh identifier in either table; switches start out engaged.
    case Engage(s) => s.id !in w.tenantRows && s.id !in w.platformRows && s.id !in w.releasedIds
    case EngagePlatform(p) => p.id !in w.tenantRows && p.id !in w.platformRows && p.id !in w.releasedIds
    case Release(id) => id in w.tenantRows || id in w.platformRows
    // The loop is sequential: a tick starts after the previous callback ended.
    case ReadTenant(rows) => w.readTenant.None? && w.pending == map[] && ListsActive(rows, w)
    case ReadPlatform(result) =>
      && w.readTenant.Some? && w.readPlatform.None?
      && (result.Some? ==> ListsActivePlatform(result.value, env, w))
    case AbandonTick => w.pending == map[]
    case Swap => w.readTenant.Some? && w.readPlatform.Some?
    case StartDrain(id) => id in w.pending
    case ClaimReadEngaged(channel, order) =>
      channel in w.claims && w.claims[channel].Idle? && Lists(order, w.cache.switches)
    case ClaimReadDraining(channel, order) =>
      channel in w.claims && w.claims[channel].SawEngaged? && Lists(order, w.draining)
    case ClaimRows(channel, now, until, batch) =>
      && channel in w.claims && w.claims[channel].HasList?
      && IsBatch(w.outbox,
                 ClaimCandidates(w.outbox, channel, now, ExclusionFor(env.parse, w.claims[channel].list, channel)),
                 CLAIM_BATCH_SIZE, batch)
    // After a failed claim the engaged set is read again.
    case DrainReadEngaged(id, channel, order) =>
      && id in w.drains && channel in w.drains[id] && !w.drains[id][channel].Finished?
      && Lists(order, w.cache.switches)
    case DrainClaim(id, channel, now, until, batch) =>
      && id in w.drains && id in w.draining && channel in w.drains[id] && w.drains[id][channel].Snapshot?
      && IsBatch(w.outbox,
                 ScopeCandidates(env.parse, w.outbox, Some(channel), w.draining[id], now,
                                 ExclusionFor(env.parse, w.drains[id][channel].engaged, channel)),
                 env.releaseRate, batch)
    // A task that panics ends like one that ran to completion.
    case DrainDies(id, channel) => id in w.drains && channel in w.drains[id]
    case DrainFinish(id) =>
      id in w.drains && forall ch :: ch in w.drains[id] ==> w.drains[id][ch].Finished?
    case Elsewhere(_) => true
  }

  // The released switches the callback sends to a drain.
  function HoldReleases(before: ActiveSet, after: ActiveSet): map<Uuid, Switch> {
    map id | id in before.switches && id !in after.switches && before.switches[id].onQueued == Hold
           :: before.switches[id]
  }

  function SwapCache(w: World): ActiveSet
    requires w.readTenant.Some? && w.readPlatform.Some?
  {
    Refreshed(w.cache, w.readTenant.value, w.readPlatform.value)
  }

  function SetPhase(drains: map<Uuid, map<string, DrainPhase>>, id: Uuid, channel: string, phase: DrainPhase)
    : (r: map<Uuid, map<string, DrainPhase>>)
    requires id in drains && channel in drains[id]
    ensures r.Keys == drains.Keys
    ensures forall other :: other in drains ==> r[other].Keys == drains[other].Keys
  {
    drains[id := drains[id][channel := phase]]
  }

  ghost function Apply(env: Env, w: World, st: Step): World
    requires Enabled(env, w, st)
  {
    match st
    case Engage(s) => w.(tenantRows := w.tenantRows[s.id := s])
    case EngagePlatform(p) => w.(platformRows := w.platformRows[p.id := p])
    case Release(id) => w.(releasedIds := w.releasedIds + {id})
    case ReadTenant(rows) => w.(readTenant := Some(rows))
    case ReadPlatform(result) => w.(readPlatform := Some(result))
    case AbandonTick => w.(readTenant := None, readPlatform := None)
    case Swap =>
      w.(cache := SwapCache(w), pending := HoldReleases(w.cache, SwapCache(w)),
         readTenant := None, readPlatform := None)
    case StartDrain(id) =>
      w.(pending := w.pending - {id},
         draining := w.draining[id := w.pending[id]],
         drains := w.drains[id := map ch | ch in env.channels :: Between])
    case ClaimReadEngaged(channel, order) => w.(claims := w.claims[channel := SawEngaged(order)])
    case ClaimReadDraining(channel, order) =>
      w.(claims := w.claims[channel := HasList(w.claims[channel].engaged + order)])
    case ClaimRows(channel, now, until, batch) =>
      w.(claims := w.claims[channel := Idle], outbox := Lease(w.outbox, batch, until))
    case DrainReadEngaged(id, channel, order) =>
      w.(drains := SetPhase(w.drains, id, channel, Snapshot(order)))
    case DrainClaim(id, channel, now, until, batch) =>
      w.(drains := SetPhase(w.drains, id, channel, if batch == {} then Finished else Between),
         outbox := Lease(w.outbox, batch, until))
    case DrainDies(id, channel) => w.(drains := SetPhase(w.drains, id, channel, Finished))
    case DrainFinish(id) => w.(draining := w.draining - {id}, drains := w.drains - {id})
    case Elsewhere(outbox) => w.(outbox := outbox)
  }

  ghost predicate StepAt(env: Env, ws: seq<World>, steps: seq<Step>, i: nat)
    requires |ws| == |steps| + 1 && i < |steps|
  {
    Enabled(env, ws[i], steps[i]) && ws[i + 1] == Apply(env, ws[i], steps[i])
  }

  ghost predicate Run(env: Env, ws: seq<World>, steps: seq<Step>) {
    && |ws| == |steps| + 1
    && Init(env, ws[0])
    && forall i :: 0 <= i < |steps| ==> StepAt(env, ws, steps, i)
  }

  // ------------------------------------------------------------ invariants

  // Rows sit under their own id, and no id is in both tables.
  ghost predicate RowsOk(w: World) {
    && (forall id :: id in w.tenantRows ==> w.tenantRows[id].id == id && id !in w.platformRows)
    && (forall id :: id in w.platformRows ==> w.platformRows[id].id == id)
    && w.releasedIds <= w.tenantRows.Keys + w.platformRows.Keys
  }

  ghost predicate Known(w: World, id: Uuid) {
    id in w.tenantRows || id in w.platformRows
  }

  // The switch an id stands for, whichever table its row is in.
  ghost function RowOf(w: World, id: Uuid): Switch
    requires Known(w, id)
  {
    if id in w.tenantRows then w.tenantRows[id] else AsKillSwitch(w.platformRows[id])
  }

  // Every cached switch is a row of one of the tables, unchanged.
  ghost predicate CacheOk(env: Env, w: World) {
    && Valid(w.cache)
    && forall id :: id in w.cache.switches ==>
         if id in w.cache.platformIds
         then id in w.platformRows && AppliesTo(w.platformRows[id], env.tenant)
              && w.cache.switches[id] == AsKillSwitch(w.platformRows[id])
         else id in w.tenantRows && w.cache.switches[id] == w.tenantRows[id]
  }

  // A tick's read lists rows of its table and misses a cached switch only if
  // that switch has been released.
  ghost predicate ReadsOk(env: Env, w: World) {
    && (w.readTenant.Some? ==>
          && (forall s :: s in w.readTenant.value ==> s.id in w.tenantRows && w.tenantRows[s.id] == s)
          && (forall id :: id in w.cache.switches && id !in w.cache.platformIds && id !in w.releasedIds
                           ==> id in Ids(w.readTenant.value)))
    && (w.readPlatform.Some? && w.readPlatform.value.Some? ==>
          && (forall p :: p in w.readPlatform.value.value ==>
                p.id in w.platformRows && w.platformRows[p.id] == p && AppliesTo(p, env.tenant))
          && (forall id :: id in w.cache.platformIds && id !in w.releasedIds
                           ==> id in Ids(AsKillSwitches(w.readPlatform.value.value))))
  }

  // No read in progress can bring `id` back into the cache.
  ghost predicate Unread(w: World, id: Uuid) {
    && (w.readTenant.Some? ==> id !in Ids(w.readTenant.value))
    && (w.readPlatform.Some? && w.readPlatform.value.Some? ==> id !in Ids(AsKillSwitches(w.readPlatform.value.value)))
  }

  // A switch on its way out is released for good.
  ghost predicate Retired(w: World, id: Uuid) {
    id in w.releasedIds && id !in w.cache.switches && Unread(w, id)
  }

  ghost predicate StagesOk(w: World) {
    && (w.readTenant.Some? ==> w.pending == map[])
    && (forall id :: id in w.pending ==>
          Retired(w, id) && id !in w.draining && Known(w, id) && w.pending[id] == RowOf(w, id))
    && (forall id :: id in w.draining ==>
          Retired(w, id) && Known(w, id) && w.draining[id] == RowOf(w, id))
  }

  ghost predicate DrainsOk(env: Env, w: World) {
    && w.drains.Keys == w.draining.Keys
    && forall id :: id in w.drains ==> w.drains[id].Keys == env.channels
  }

  ghost predicate Inv(env: Env, w: World) {
    RowsOk(w) && CacheOk(env, w) && ReadsOk(env, w) && StagesOk(w) && DrainsOk(env, w)
  }

  lemma InitInv(env: Env, w: World)
    requires Init(env, w)
    ensures Inv(env, w)
  {
  }

  // ------------------------------------------------------------- cache swap

  // Where each entry of the swapped-in cache comes from.
  lemma SwapEntry(env: Env, w: World, id: Uuid)
    requires Inv(env, w) && w.readTenant.Some? && w.readPlatform.Some?
    requires id in SwapCache(w).switches
    ensures var after := SwapCache(w);
            if id in after.platformIds
            then id in w.platformRows && AppliesTo(w.platformRows[id], env.tenant)
                 && after.switches[id] == AsKillSwitch(w.platformRows[id])
            else id in w.tenantRows && after.switches[id] == w.tenantRows[id]
    ensures id in w.cache.switches || !Unread(w, id)
  {
    var after := SwapCache(w);
    var tenant := FromList(w.readTenant.value);
    match w.readPlatform.value
    case Some(rows) =>
      var list := AsKillSwitches(rows);
      if id in FromList(list) {
        var i :| 0 <= i < |list| && list[i] == FromList(list)[id];
        assert rows[i] in rows;
      } else {
        assert after.switches[id] == tenant[id];
      }
    case None =>
      if id !in w.cache.platformIds {
        assert after.switches[id] == tenant[id];
      }
  }

  // A switch that leaves the cache in a swap has been released.
  lemma SwapDrops(env: Env, w: World, id: Uuid)
    requires Inv(env, w) && w.readTenant.Some? && w.readPlatform.Some?
    requires id in w.cache.switches && id !in SwapCache(w).switches
    ensures id in w.releasedIds
  {
    assert w.readPlatform.value.None? && id in w.cache.platformIds ==>
        id in Restrict(w.cache.switches, w.cache.platformIds);
  }

  lemma SwapCacheOk(env: Env, w: World)
    requires Inv(env, w) && Enabled(env, w, Swap)
    ensures CacheOk(env, Apply(env, w, Swap))
  {
    RefreshedValid(w.cache, w.readTenant.value, w.readPlatform.value);
    forall id | id in SwapCache(w).switches
      ensures var after := SwapCache(w);
              if id in after.platformIds
              then id in w.platformRows && AppliesTo(w.platformRows[id], env.tenant)
                   && after.switches[id] == AsKillSwitch(w.platformRows[id])
              else id in w.tenantRows && after.switches[id] == w.tenantRows[id]
    {
      SwapEntry(env, w, id);
    }
  }

  // A swap never brings back a switch on its way out.
  lemma SwapAvoids(env: Env, w: World, id: Uuid)
    requires Inv(env, w) && Enabled(env, w, Swap) && Retired(w, id)
    ensures id !in SwapCache(w).switches
  {
    if id in SwapCache(w).switches {
      SwapEntry(env, w, id);
    }
  }

  lemma SwapPending(env: Env, w: World, id: Uuid)
    requires Inv(env, w) && Enabled(env, w, Swap) && id in HoldReleases(w.cache, SwapCache(w))
    ensures id in w.releasedIds && id !in w.draining && Known(w, id)
    ensures w.cache.switches[id] == RowOf(w, id)
  {
    SwapDrops(env, w, id);
  }

  lemma SwapLeaves(env: Env, w: World, id: Uuid)
    requires Enabled(env, w, Swap) && id in w.releasedIds && id !in SwapCache(w).switches
    ensures Retired(Apply(env, w, Swap), id)
  {
  }

  lemma SwapStages(env: Env, w: World)
    requires Inv(env, w) && Enabled(env, w, Swap)
    ensures StagesOk(Apply(env, w, Swap))
  {
    var w' := Apply(env, w, Swap);
    forall id | id in w'.draining
      ensures Retired(w', id) && Known(w', id) && w'.draining[id] == RowOf(w', id)
    {
      SwapAvoids(env, w, id);
      SwapLeaves(env, w, id);
    }
    forall id | id in w'.pending
      ensures Retired(w', id) && id !in w'.draining && Known(w', id) && w'.pending[id] == RowOf(w', id)
    {
      SwapPending(env, w, id);
      SwapLeaves(env, w, id);
    }
  }

  lemma SwapInv(env: Env, w: World)
    requires Inv(env, w) && Enabled(env, w, Swap)
    ensures Inv(env, Apply(env, w, Swap))
  {
    SwapCacheOk(env, w);
    SwapStages(env, w);
  }

  // ------------------------------------------------------- the other steps

  // Nothing released is listed by a fresh read.
  lemma ListedActive(env: Env, w: World, st: Step, id: Uuid)
    requires Enabled(env, w, st) && id in w.releasedIds
    ensures st.ReadTenant? ==> id !in Ids(st.rows)
    ensures st.ReadPlatform? && st.result.Some? ==> id !in Ids(AsKillSwitches(st.result.value))
  {
    if st.ReadPlatform? && st.result.Some? {
      var rows := st.result.value;
      forall i | 0 <= i < |rows| ensures AsKillSwitches(rows)[i].id != id {
        assert rows[i] in rows;
      }
    }
  }

  lemma ReadStages(env: Env, w: World, st: Step)
    requires StagesOk(w) && Enabled(env, w, st) && (st.ReadTenant? || st.ReadPlatform?)
    ensures StagesOk(Apply(env, w, st))
  {
    var w' := Apply(env, w, st);
    forall id | Retired(w, id)
      ensures Retired(w', id)
    {
      ListedActive(env, w, st, id);
    }
  }

  lemma ReadTenantReads(env: Env, w: World, rows: seq<Switch>)
    requires CacheOk(env, w) && ReadsOk(env, w) && Enabled(env, w, ReadTenant(rows))
    ensures ReadsOk(env, Apply(env, w, ReadTenant(rows)))
  {
    forall id | id in w.cache.switches && id !in w.cache.platformIds && id !in w.releasedIds
      ensures id in Ids(rows)
    {
      assert w.tenantRows[id] in rows;
    }
  }

  lemma ReadPlatformReads(env: Env, w: World, result: Option<seq<PlatformSwitch>>)
    requires CacheOk(env, w) && ReadsOk(env, w) && RowsOk(w)
    requires Enabled(env, w, ReadPlatform(result))
    ensures ReadsOk(env, Apply(env, w, ReadPlatform(result)))
  {
    if result.Some? {
      var list := AsKillSwitches(result.value);
      forall id | id in w.cache.platformIds && id !in w.releasedIds
        ensures id in Ids(list)
      {
        var i :| 0 <= i < |result.value| && result.value[i] == w.platformRows[id];
        assert list[i] in list;
      }
    }
  }

  lemma ReadInv(env: Env, w: World, st: Step)
    requires Inv(env, w) && Enabled(env, w, st) && (st.ReadTenant? || st.ReadPlatform?)
    ensures Inv(env, Apply(env, w, st))
  {
    ReadStages(env, w, st);
    match st
    case ReadTenant(rows) => ReadTenantReads(env, w, rows);
    case ReadPlatform(result) => ReadPlatformReads(env, w, result);
  }

  lemma RowStep(env: Env, w: World, st: Step, id: Uuid)
    requires RowsOk(w) && Enabled(env, w, st) && Known(w, id)
    ensures Known(Apply(env, w, st), id) && RowOf(Apply(env, w, st), id) == RowOf(w, id)
  {
  }

  lemma DatabaseStages(env: Env, w: World, st: Step)
    requires RowsOk(w) && StagesOk(w) && Enabled(env, w, st)
    requires st.Engage? || st.EngagePlatform? || st.Release?
    ensures StagesOk(Apply(env, w, st))
  {
    var w' := Apply(env, w, st);
    forall id | Known(w, id)
      ensures Known(w', id) && RowOf(w', id) == RowOf(w, id)
      ensures Retired(w, id) ==> Retired(w', id)
    {
      RowStep(env, w, st, id);
    }
  }

  lemma DatabaseCache(env: Env, w: World, st: Step)
    requires RowsOk(w) && CacheOk(env, w) && Enabled(env, w, st)
    requires st.Engage? || st.EngagePlatform? || st.Release?
    ensures RowsOk(Apply(env, w, st)) && CacheOk(env, Apply(env, w, st))
  {
  }

  lemma DatabaseReads(env: Env, w: World, st: Step)
    requires ReadsOk(env, w) && Enabled(env, w, st)
    requires st.Engage? || st.EngagePlatform? || st.Release?
    ensures ReadsOk(env, Apply(env, w, st))
  {
  }

  lemma DatabaseInv(env: Env, w: World, st: Step)
    requires Inv(env, w) && Enabled(env, w, st) && (st.Engage? || st.EngagePlatform? || st.Release?)
    ensures Inv(env, Apply(env, w, st))
  {
    DatabaseCache(env, w, st);
    DatabaseReads(env, w, st);
    DatabaseStages(env, w, st);
  }

  // The two tables, the tick in progress and the cache, all untouched.
  ghost predicate SameSwitches(w: World, w': World) {
    && w'.tenantRows == w.tenantRows && w'.platformRows == w.platformRows
    && w'.releasedIds == w.releasedIds && w'.cache == w.cache
    && w'.readTenant == w.readTenant && w'.readPlatform == w.readPlatform
  }

  lemma SwitchesKept(env: Env, w: World, w': World)
    requires RowsOk(w) && CacheOk(env, w) && ReadsOk(env, w) && SameSwitches(w, w')
    ensures RowsOk(w') && CacheOk(env, w') && ReadsOk(env, w')
  {
  }

  lemma RetiredKept(w: World, w': World, id: Uuid)
    requires SameSwitches(w, w')
    ensures Retired(w', id) <==> Retired(w, id)
    ensures Known(w', id) <==> Known(w, id)
    ensures Known(w, id) ==> RowOf(w', id) == RowOf(w, id)
  {
  }

  // Claim registers, drain phases and the outbox play no part in the rest.
  lemma Frame(env: Env, w: World, w': World)
    requires Inv(env, w) && DrainsOk(env, w')
    requires w' == w.(drains := w'.drains, claims := w'.claims, outbox := w'.outbox)
    ensures Inv(env, w')
  {
    SwitchesKept(env, w, w');
    StagesFrame(w, w');
  }

  lemma StagesFrame(w: World, w': World)
    requires StagesOk(w) && SameSwitches(w, w')
    requires w'.pending == w.pending && w'.draining == w.draining
    ensures StagesOk(w')
  {
    forall id ensures Retired(w, id) ==> Retired(w', id) {
      RetiredKept(w, w', id);
    }
  }

  lemma ClaimInv(env: Env, w: World, st: Step)
    requires Inv(env, w) && Enabled(env, w, st)
    requires st.ClaimReadEngaged? || st.ClaimReadDraining? || st.ClaimRows? || st.Elsewhere?
    ensures Inv(env, Apply(env, w, st))
  {
    Frame(env, w, Apply(env, w, st));
  }

  lemma DrainPhaseInv(env: Env, w: World, st: Step)
    requires Inv(env, w) && Enabled(env, w, st) && (st.DrainReadEngaged? || st.DrainClaim? || st.DrainDies?)
    ensures Inv(env, Apply(env, w, st))
  {
    Frame(env, w, Apply(env, w, st));
  }

  lemma StartDrainStages(env: Env, w: World, id: Uuid)
    requires StagesOk(w) && id in w.pending
    ensures StagesOk(Apply(env, w, StartDrain(id)))
  {
    var w' := Apply(env, w, StartDrain(id));
    forall other ensures Retired(w, other) ==> Retired(w', other) {
      RetiredKept(w, w', other);
    }
  }

  lemma StartDrainInv(env: Env, w: World, id: Uuid)
    requires Inv(env, w) && id in w.pending
    ensures Inv(env, Apply(env, w, StartDrain(id)))
  {
    SwitchesKept(env, w, Apply(env, w, StartDrain(id)));
    StartDrainStages(env, w, id);
  }

  lemma DrainFinishStages(env: Env, w: World, id: Uuid)
    requires StagesOk(w) && Enabled(env, w, DrainFinish(id))
    ensures StagesOk(Apply(env, w, DrainFinish(id)))
  {
    var w' := Apply(env, w, DrainFinish(id));
    forall other ensures Retired(w, other) ==> Retired(w', other) {
      RetiredKept(w, w', other);
    }
  }

  lemma DrainFinishInv(env: Env, w: World, id: Uuid)
    requires Inv(env, w) && Enabled(env, w, DrainFinish(id))
    ensures Inv(env, Apply(env, w, DrainFinish(id)))
  {
    SwitchesKept(env, w, Apply(env, w, DrainFinish(id)));
    DrainFinishStages(env, w, id);
  }

  lemma AbandonInv(env: Env, w: World)
    requires Inv(env, w) && Enabled(env, w, AbandonTick)
    ensures Inv(env, Apply(env, w, AbandonTick))
  {
    var w' := Apply(env, w, AbandonTick);
    forall other
      ensures Retired(w, other) ==> Retired(w', other)
    {
    }
  }

  lemma StepInv(env: Env, w: World, st: Step)
    requires Inv(env, w) && Enabled(env, w, st)
    ensures Inv(env, Apply(env, w, st))
  {
    match st
    case Swap => SwapInv(env, w);
    case ReadTenant(_) => ReadInv(env, w, st);
    case ReadPlatform(_) => ReadInv(env, w, st);
    case AbandonTick => AbandonInv(env, w);
    case Engage(_) => DatabaseInv(env, w, st);
    case EngagePlatform(_) => DatabaseInv(env, w, st);
    case Release(_) => DatabaseInv(env, w, st);
    case StartDrain(id) => StartDrainInv(env, w, id);
    case DrainFinish(id) => DrainFinishInv(env, w, id);
    case DrainReadEngaged(_, _, _) => DrainPhaseInv(env, w, st);
    case DrainDies(_, _) => DrainPhaseInv(env, w, st);
    case DrainClaim(_, _, _, _, _) => DrainPhaseInv(env, w, st);
    case _ => ClaimInv(env, w, st);
  }

  lemma {:induction false} RunInv(env: Env, ws: seq<World>, steps: seq<Step>, i: nat)
    requires Run(env, ws, steps) && i < |ws|
    ensures Inv(env, ws[i])
  {
    if i == 0 {
      InitInv(env, ws[0]);
    } else {
      RunInv(env, ws, steps, i - 1);
      assert StepAt(env, ws, steps, i - 1);
      StepInv(env, ws[i - 1], steps[i - 1]);
    }
  }
}
