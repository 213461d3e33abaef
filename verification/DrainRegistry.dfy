/**
 * The dispatcher's side of a refresh: the callback that starts discards and
 * drains, the exclusion the channel loops read, and the end of a drain.
 */
module DrainRegistry {
  import opened Base
  import opened KillSwitch
  import opened SwitchCache
  import opened HoldProtocol

  // The released switches to drain, by id.
  function Holds(released: seq<Switch>): map<Uuid, Switch> {
    if released == [] then map[]
    else
      var last := released[|released| - 1];
      var before := Holds(released[..|released| - 1]);
      if last.onQueued == Hold then before[last.id := last] else before
  }

  // The newly engaged switches whose backlog is discarded, in order.
  function Discards(engaged: seq<Switch>): seq<Switch> {
    if engaged == [] then []
    else
      var last := engaged[|engaged| - 1];
      Discards(engaged[..|engaged| - 1]) + if last.onQueued == Discard then [last] else []
  }

  // The released switches whose backlog is drained, in order.
  function Drains(released: seq<Switch>): seq<Switch> {
    if released == [] then []
    else
      var last := released[|released| - 1];
      Drains(released[..|released| - 1]) + if last.onQueued == Hold then [last] else []
  }

  // Some enumeration of a map's values.
  method Values(m: map<Uuid, Switch>) returns (order: seq<Switch>)
    requires forall id :: id in m ==> m[id].id == id
    ensures Lists(order, m)
  {
    order := [];
    var left := m.Keys;
    while left != {}
      invariant left <= m.Keys
      invariant forall s :: s in order ==> s.id in m && m[s.id] == s
      invariant forall id :: id in m && id !in left ==> m[id] in order
      decreases |left|
    {
      var id :| id in left;
      left := left - {id};
      order := order + [m[id]];
    }
  }

  class Registry {
    var draining: map<Uuid, Switch>
    var drains: seq<Switch>         // drain tasks started so far
    var discards: seq<Switch>       // discard tasks started so far

    predicate Keyed()
      reads this
    {
      forall id :: id in draining ==> draining[id].id == id
    }

    method StartDiscards(engaged: seq<Switch>)
      modifies this`discards
      ensures discards == old(discards) + Discards(engaged)
    {
      for k := 0 to |engaged|
        invariant discards == old(discards) + Discards(engaged[..k])
      {
        assert engaged[..k + 1][..k] == engaged[..k];
        if engaged[k].onQueued == Discard {
          discards := discards + [engaged[k]];
        }
      }
      assert engaged[..|engaged|] == engaged;
    }

    method StartDrains(released: seq<Switch>)
      requires Keyed()
      modifies this`draining, this`drains
      ensures Keyed() && draining == old(draining) + Holds(released)
      ensures drains == old(drains) + Drains(released)
    {
      for k := 0 to |released|
        invariant Keyed()
        invariant draining == old(draining) + Holds(released[..k])
        invariant drains == old(drains) + Drains(released[..k])
      {
        assert released[..k + 1][..k] == released[..k];
        if released[k].onQueued == Hold {
          draining := draining[released[k].id := released[k]];
          drains := drains + [released[k]];
        }
      }
      assert released[..|released|] == released;
    }

    /** The callback of one refresh tick. */
    method OnDelta(newlyEngaged: seq<Switch>, released: seq<Switch>)
      requires Keyed()
      modifies this
      ensures Keyed() && draining == old(draining) + Holds(released)
      ensures drains == old(drains) + Drains(released)
      ensures discards == old(discards) + Discards(newlyEngaged)
    {
      StartDiscards(newlyEngaged);
      StartDrains(released);
    }

    /** What a channel loop excludes: exactly the rows under an engaged or a draining switch. */
    method ClaimExclusion(cache: KillSwitchCache, parse: UuidParser, channel: string)
      returns (result: ChannelExclusion)
      requires Keyed() && Valid(cache.Active())
      ensures forall t: Target | t.channel == channel ::
                Blocks(result, t) <==>
                || (exists id :: id in cache.switches && Matches(parse, cache.switches[id], t))
                || (exists id :: id in draining && Matches(parse, draining[id], t))
    {
      var engaged := Values(cache.switches);
      var held := Values(draining);
      result := BuildExclusion(parse, engaged + held, channel);
      forall t: Target | t.channel == channel
        ensures MatchedBySome(parse, engaged + held, t) <==>
                || (exists id :: id in cache.switches && Matches(parse, cache.switches[id], t))
                || (exists id :: id in draining && Matches(parse, draining[id], t))
      {
        UnionMatches(parse, engaged, cache.switches, held, draining, t);
      }
    }

    method FinishDrain(s: Switch)
      requires Keyed()
      modifies this`draining
      ensures Keyed() && draining == old(draining) - {s.id}
    {
      draining := draining - {s.id};
    }
  }

  lemma UnionMatches(parse: UuidParser, xs: seq<Switch>, m: map<Uuid, Switch>, ys: seq<Switch>,
                     n: map<Uuid, Switch>, t: Target)
    requires Lists(xs, m) && Lists(ys, n)
    ensures MatchedBySome(parse, xs + ys, t) <==>
            || (exists id :: id in m && Matches(parse, m[id], t))
            || (exists id :: id in n && Matches(parse, n[id], t))
  {
    if s :| s in xs + ys && Matches(parse, s, t) {
      assert s in xs || s in ys;
    }
    if id :| id in m && Matches(parse, m[id], t) {
      assert m[id] in xs + ys;
    }
    if id :| id in n && Matches(parse, n[id], t) {
      assert n[id] in xs + ys;
    }
  }

  // ------------------------------------------- the callback in the protocol

  lemma {:induction false} HoldsExact(m: map<Uuid, Switch>, released: seq<Switch>, id: Uuid)
    requires forall s :: s in released ==> s.id in m && m[s.id] == s
    ensures id in Holds(released) <==> id in m && m[id] in released && m[id].id == id && m[id].onQueued == Hold
    ensures id in Holds(released) ==> Holds(released)[id] == m[id]
  {
    if released == [] {
    } else {
      var before, last := released[..|released| - 1], released[|released| - 1];
      assert released == before + [last];
      HoldsExact(m, before, id);
    }
  }

  /** The callback drains exactly the switches a swap leaves pending. */
  lemma CallbackTakesPending(a: ActiveSet, rows: seq<Switch>, platform: Option<seq<PlatformSwitch>>,
                             released: seq<Switch>)
    requires Valid(a) && forall s :: s in released <==> s in DeltaOf(a, rows, platform).released
    ensures Holds(released) == HoldReleases(a, Refreshed(a, rows, platform))
  {
    var after := Refreshed(a, rows, platform);
    forall id | id in a.switches && id !in after.switches ensures a.switches[id] in released {
      assert a.switches[id] in DeltaOf(a, rows, platform).released;
    }
    forall id ensures id in Holds(released) <==> id in HoldReleases(a, after)
              ensures id in Holds(released) ==> Holds(released)[id] == a.switches[id]
    {
      HoldsExact(a.switches, released, id);
    }
  }

  // Distinct pending switches.
  ghost predicate Lined(w: World, order: seq<Uuid>) {
    && (forall k :: 0 <= k < |order| ==> order[k] in w.pending)
    && (forall i, j :: 0 <= i < j < |order| ==> order[i] != order[j])
  }

  // The callback's inserts, one after the other.
  ghost function Started(env: Env, w: World, order: seq<Uuid>): World
    requires Lined(w, order)
    decreases |order|
  {
    if order == [] then w else Started(env, Apply(env, w, StartDrain(order[0])), order[1..])
  }

  lemma OneStarted(env: Env, w: World, id: Uuid)
    requires id in w.pending
    ensures var next := Apply(env, w, StartDrain(id));
            && next.pending == w.pending - {id} && next.cache == w.cache
            && next.draining + next.pending == w.draining + w.pending
  {
  }

  /** Run to its end, in any order, the callback has every pending switch draining. */
  lemma {:induction false} CallbackEnds(env: Env, w: World, order: seq<Uuid>)
    requires Lined(w, order) && forall id :: id in w.pending ==> id in order
    ensures var done := Started(env, w, order);
            done.pending == map[] && done.draining == w.draining + w.pending && done.cache == w.cache
    decreases |order|
  {
    if order == [] {
      assert w.pending == map[];
    } else {
      OneStarted(env, w, order[0]);
      var next := Apply(env, w, StartDrain(order[0]));
      assert forall id :: id in next.pending ==> id in order && id != order[0];
      CallbackEnds(env, next, order[1..]);
    }
  }
}
