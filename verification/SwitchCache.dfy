/**
 * The in-process set of engaged switches: tenant rows plus the tenant's
 * platform rows in their synthetic `global`/`hold` form, re-read on every
 * refresh tick.
 */
module SwitchCache {
  import opened Base
  import opened KillSwitch

  datatype ActiveSet = ActiveSet(switches: map<Uuid, Switch>, platformIds: set<Uuid>)

  // What one refresh saw change. `released` is listed in no particular order.
  datatype RefreshDelta = RefreshDelta(newlyEngaged: seq<Switch>, released: set<Switch>)

  function Ids(list: seq<Switch>): set<Uuid> {
    set s | s in list :: s.id
  }

  // Collecting a row list into a map by id: a later row wins.
  function FromList(list: seq<Switch>): (m: map<Uuid, Switch>)
    ensures m.Keys == Ids(list)
    ensures forall id :: id in m ==> m[id] in list && m[id].id == id
  {
    if list == [] then map[]
    else
      var last := |list| - 1;
      assert list == list[..last] + [list[last]];
      FromList(list[..last])[list[last].id := list[last]]
  }

  lemma {:induction false} FromListAppend(xs: seq<Switch>, ys: seq<Switch>)
    ensures FromList(xs + ys) == FromList(xs) + FromList(ys)
  {
    if ys == [] {
      assert xs + ys == xs;
    } else {
      var last := |ys| - 1;
      assert (xs + ys)[..|xs + ys| - 1] == xs + ys[..last];
      FromListAppend(xs, ys[..last]);
    }
  }

  // The rows of `list` whose id `known` does not hold, in order.
  function Unknown(list: seq<Switch>, known: set<Uuid>): (r: seq<Switch>)
    ensures forall s :: s in r <==> s in list && s.id !in known
  {
    if list == [] then []
    else
      var last := |list| - 1;
      var init := Unknown(list[..last], known);
      assert list == list[..last] + [list[last]];
      if list[last].id in known then init else init + [list[last]]
  }

  // Dropping rows by id before collecting, or after, is the same.
  lemma {:induction false} UnknownCollects(list: seq<Switch>, known: set<Uuid>)
    ensures FromList(Unknown(list, known)) == FromList(list) - known
  {
    if list == [] {
    } else {
      var last := |list| - 1;
      UnknownCollects(list[..last], known);
      UpdateThenDrop(FromList(list[..last]), list[last].id, list[last], known);
      FromListSnoc(Unknown(list[..last], known), list[last]);
    }
  }

  lemma FromListSnoc(init: seq<Switch>, s: Switch)
    ensures FromList(init + [s]) == FromList(init)[s.id := s]
  {
    assert (init + [s])[..|init|] == init;
  }

  lemma UpdateThenDrop(m: map<Uuid, Switch>, id: Uuid, s: Switch, known: set<Uuid>)
    ensures m[id := s] - known == if id in known then m - known else (m - known)[id := s]
  {
  }

  function AsKillSwitches(rows: seq<PlatformSwitch>): (r: seq<Switch>)
    ensures |r| == |rows|
    ensures forall i | 0 <= i < |rows| :: r[i] == AsKillSwitch(rows[i])
  {
    seq(|rows|, i requires 0 <= i < |rows| => AsKillSwitch(rows[i]))
  }

  function Restrict(m: map<Uuid, Switch>, ids: set<Uuid>): map<Uuid, Switch> {
    map id | id in m && id in ids :: m[id]
  }

  predicate Valid(a: ActiveSet) {
    && (forall id :: id in a.switches ==> a.switches[id].id == id)
    && (forall id :: id in a.platformIds ==>
          id in a.switches && a.switches[id].scope == Global && a.switches[id].onQueued == Hold)
  }

  // The platform entries after a refresh: re-read, or carried over when the
  // control-database read failed (`None`).
  function PlatformEntries(a: ActiveSet, platform: Option<seq<PlatformSwitch>>): map<Uuid, Switch> {
    match platform
    case Some(rows) => FromList(AsKillSwitches(rows))
    case None => Restrict(a.switches, a.platformIds)
  }

  function Refreshed(a: ActiveSet, tenantRows: seq<Switch>, platform: Option<seq<PlatformSwitch>>): ActiveSet {
    ActiveSet(
      FromList(tenantRows) + PlatformEntries(a, platform),
      if platform.Some? then Ids(AsKillSwitches(platform.value)) else a.platformIds)
  }

  function DeltaOf(a: ActiveSet, tenantRows: seq<Switch>, platform: Option<seq<PlatformSwitch>>): RefreshDelta {
    var after := Refreshed(a, tenantRows, platform);
    var rows := if platform.Some? then AsKillSwitches(platform.value) else [];
    RefreshDelta(
      Unknown(tenantRows + rows, a.switches.Keys),
      set id | id in a.switches && id !in after.switches :: a.switches[id])
  }

  lemma RefreshedValid(a: ActiveSet, tenantRows: seq<Switch>, platform: Option<seq<PlatformSwitch>>)
    requires Valid(a)
    ensures Valid(Refreshed(a, tenantRows, platform))
  {
    if platform.Some? {
      var list := AsKillSwitches(platform.value);
      forall id | id in FromList(list)
        ensures FromList(list)[id].scope == Global && FromList(list)[id].onQueued == Hold
      {
      }
    }
  }

  // A control-database failure never looks like a platform switch releasing:
  // every platform entry is kept as it was and none is reported released.
  lemma PlatformFailureKeepsPlatform(a: ActiveSet, tenantRows: seq<Switch>)
    requires Valid(a)
    ensures var after := Refreshed(a, tenantRows, None);
            && after.platformIds == a.platformIds
            && (forall id :: id in a.platformIds ==> id in after.switches && after.switches[id] == a.switches[id])
    ensures forall s :: s in DeltaOf(a, tenantRows, None).released ==> s.id !in a.platformIds
  {
  }

  // --------------------------------------------------------- delta replay

  function SwitchIds(switches: set<Switch>): set<Uuid> {
    set s | s in switches :: s.id
  }

  function Replay(m: map<Uuid, Switch>, d: RefreshDelta): map<Uuid, Switch> {
    (m + FromList(d.newlyEngaged)) - SwitchIds(d.released)
  }

  lemma ReleasedIds(a: ActiveSet, tenantRows: seq<Switch>, platform: Option<seq<PlatformSwitch>>)
    requires Valid(a)
    ensures SwitchIds(DeltaOf(a, tenantRows, platform).released)
            == a.switches.Keys - Refreshed(a, tenantRows, platform).switches.Keys
  {
    var gone := DeltaOf(a, tenantRows, platform).released;
    forall id | id in a.switches.Keys - Refreshed(a, tenantRows, platform).switches.Keys
      ensures id in SwitchIds(gone)
    {
      assert a.switches[id] in gone;
    }
  }

  lemma EngagedEntries(a: ActiveSet, tenantRows: seq<Switch>, platform: Option<seq<PlatformSwitch>>)
    requires Valid(a)
    ensures FromList(DeltaOf(a, tenantRows, platform).newlyEngaged)
            == Refreshed(a, tenantRows, platform).switches - a.switches.Keys
  {
    var known := a.switches.Keys;
    match platform
    case Some(rows) =>
      UnknownCollects(tenantRows + AsKillSwitches(rows), known);
      FromListAppend(tenantRows, AsKillSwitches(rows));
    case None =>
      assert tenantRows + [] == tenantRows;
      UnknownCollects(tenantRows, known);
      MergeThenDrop(FromList(tenantRows), Restrict(a.switches, a.platformIds), known);
  }

  lemma MergeThenDrop(m: map<Uuid, Switch>, n: map<Uuid, Switch>, known: set<Uuid>)
    requires n.Keys <= known
    ensures (m + n) - known == m - known
  {
  }

  lemma ReplayMaps(before: map<Uuid, Switch>, after: map<Uuid, Switch>,
                   engaged: map<Uuid, Switch>, gone: set<Uuid>)
    requires engaged == after - before.Keys
    requires gone == before.Keys - after.Keys
    ensures var replayed := (before + engaged) - gone;
            && replayed.Keys == after.Keys
            && (replayed == after <==>
                forall id :: id in before && id in after ==> before[id] == after[id])
  {
    var replayed := (before + engaged) - gone;
    assert replayed.Keys == after.Keys;
    forall id | id in after
      ensures replayed[id] == if id in before then before[id] else after[id]
    {
    }
  }

  // The ids a delta reports always turn the old id set into the new one. The
  // rows do too exactly when no row changed content under a surviving id,
  // which holds because engage and release only ever touch `released_at`.
  lemma ReplayExact(a: ActiveSet, tenantRows: seq<Switch>, platform: Option<seq<PlatformSwitch>>)
    requires Valid(a)
    ensures var after := Refreshed(a, tenantRows, platform);
            var replayed := Replay(a.switches, DeltaOf(a, tenantRows, platform));
            && replayed.Keys == after.switches.Keys
            && (replayed == after.switches <==>
                forall id :: id in a.switches && id in after.switches ==> a.switches[id] == after.switches[id])
  {
    ReleasedIds(a, tenantRows, platform);
    EngagedEntries(a, tenantRows, platform);
    var d := DeltaOf(a, tenantRows, platform);
    ReplayMaps(a.switches, Refreshed(a, tenantRows, platform).switches,
               FromList(d.newlyEngaged), SwitchIds(d.released));
  }

  // ------------------------------------------------------------- the class

  datatype PlatformRead = NoSource | Rows(rows: seq<PlatformSwitch>) | ReadFailed

  function ReadRows(p: PlatformRead): Option<seq<PlatformSwitch>> {
    match p
    case NoSource => Some([])
    case Rows(rows) => Some(rows)
    case ReadFailed => None
  }

  datatype BlockReport = NotBlocked | ByPlatform | ByScope(scope: Scope)

  // Some enumeration of a map's values, as a hash map's iterator gives.
  predicate Lists(order: seq<Switch>, m: map<Uuid, Switch>) {
    && (forall s :: s in order ==> s.id in m && m[s.id] == s)
    && (forall id :: id in m ==> m[id] in order)
  }

  class KillSwitchCache {
    var switches: map<Uuid, Switch>
    var platformIds: set<Uuid>

    function Active(): ActiveSet
      reads this
    {
      ActiveSet(switches, platformIds)
    }

    constructor ()
      ensures Active() == ActiveSet(map[], {}) && Valid(Active())
    {
      switches, platformIds := map[], {};
    }

    // `tenant` is `None` when the tenant-database read failed: the refresh
    // fails as a whole and the cache keeps its previous content.
    method RefreshWithPlatform(tenant: Option<seq<Switch>>, platform: PlatformRead)
      returns (delta: Option<RefreshDelta>)
      requires Valid(Active())
      modifies this
      ensures Valid(Active())
      ensures tenant.None? ==> delta.None? && Active() == old(Active())
      ensures tenant.Some? ==>
                && Active() == Refreshed(old(Active()), tenant.value, ReadRows(platform))
                && delta == Some(DeltaOf(old(Active()), tenant.value, ReadRows(platform)))
    {
      if tenant.None? {
        return None;
      }
      var before := Active();
      ghost var read := ReadRows(platform);
      RefreshedValid(before, tenant.value, read);

      var current := tenant.value;
      var ids: set<Uuid>;
      if platform.ReadFailed? {
        var carried := CarryOver();
        current := current + carried;
        ids := platformIds;
        FromListAppend(tenant.value, carried);
      } else {
        var rows := if platform.Rows? then platform.rows else [];
        current := current + AsKillSwitches(rows);
        ids := Ids(AsKillSwitches(rows));
        FromListAppend(tenant.value, AsKillSwitches(rows));
      }
      assert FromList(current) == Refreshed(before, tenant.value, read).switches;

      var released := set id | id in switches && id !in Ids(current) :: switches[id];
      var newlyEngaged := Unknown(current, switches.Keys);
      if platform.ReadFailed? {
        assert forall s | s in current[|tenant.value|..] :: s.id in switches.Keys;
        UnknownSuffix(tenant.value, current[|tenant.value|..], switches.Keys);
        assert current == tenant.value + current[|tenant.value|..];
        assert tenant.value + [] == tenant.value;
      }
      switches, platformIds := FromList(current), ids;
      delta := Some(RefreshDelta(newlyEngaged, released));
    }

    // The last-known platform entries, in the order the set yields them.
    method CarryOver() returns (carried: seq<Switch>)
      requires Valid(Active())
      ensures FromList(carried) == Restrict(switches, platformIds)
      ensures forall s :: s in carried ==> s.id in switches
    {
      carried := [];
      var left := platformIds;
      while left != {}
        invariant left <= platformIds
        invariant FromList(carried) == Restrict(switches, platformIds - left)
        invariant forall s :: s in carried ==> s.id in switches
        decreases |left|
      {
        var id :| id in left;
        left := left - {id};
        assert (carried + [switches[id]])[..|carried|] == carried;
        carried := carried + [switches[id]];
      }
    }

    // The scope of some engaged switch covering the request, if any. A
    // platform switch covers everything and is reported first.
    method BlockingScope(parse: UuidParser, t: Target) returns (report: BlockReport)
      requires Valid(Active())
      ensures report.ByPlatform? <==> platformIds != {}
      ensures report.ByScope? ==>
                exists id :: id in switches && Matches(parse, switches[id], t) && switches[id].scope == report.scope
      // Ingest refuses a request exactly when the dispatcher, holding the
      // same cache, would exclude its row.
      ensures forall order | Lists(order, switches) ::
                report.NotBlocked? <==> !Blocks(ExclusionFor(parse, order, t.channel), t)
    {
      if platformIds != {} {
        report := ByPlatform;
      } else if id :| id in switches && Matches(parse, switches[id], t) {
        report := ByScope(switches[id].scope);
      } else {
        report := NotBlocked;
      }
      forall order | Lists(order, switches)
        ensures report.NotBlocked? <==> !Blocks(ExclusionFor(parse, order, t.channel), t)
      {
        ExclusionExact(parse, order, t);
        if platformIds != {} {
          var id :| id in platformIds;
          assert switches[id] in order && Matches(parse, switches[id], t);
        }
      }
    }
  }

  lemma {:induction false} UnknownSuffix(xs: seq<Switch>, ys: seq<Switch>, known: set<Uuid>)
    requires forall s :: s in ys ==> s.id in known
    ensures Unknown(xs + ys, known) == Unknown(xs, known)
  {
    if ys == [] {
      assert xs + ys == xs;
    } else {
      var last := |ys| - 1;
      assert (xs + ys)[..|xs + ys| - 1] == xs + ys[..last];
      UnknownSuffix(xs, ys[..last], known);
    }
  }
}
