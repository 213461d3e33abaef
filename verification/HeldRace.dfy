/**
 * Both ways a row under a held switch still reaches the provider, in one
 * joint run: a normal loop that had read its exclusion before the switch was
 * seen, and, after the release, the switch's own drain.
 */
module HeldRace {
  import opened Base
  import opened KillSwitch
  import opened SwitchCache
  import opened Outbox
  import H = HoldProtocol
  import D = Delivery
  import opened HeldCalls

  const SMS := "sms"
  const ENV := H.Env(_ => None, 0, {SMS}, 500)
  const SUSPEND := Switch(7, Global, None, Hold)
  const ID: Uuid := 1
  const MESSAGE := OutboxRow(Target(SMS, 5, None), Transactional, 1, 0, None, None, 0, None)
  const NO_SWITCHES := ActiveSet(map[], {})
  const ENGAGED := ActiveSet(map[7 := SUSPEND], {})

  // The message with so many claims behind it, and its calls.
  function Message(leased: Option<Instant>, attempts: int, tasks: map<nat, D.Task>, handed: multiset<Uuid>,
                   accepted: multiset<Uuid>): D.State
  {
    D.State(Tables(map[ID := MESSAGE.(attempts := attempts, leasedUntil := leased)], map[ID := Request(5, None)], {},
                   map[(5, "k") := ID]),
            tasks, handed, accepted, multiset{}, multiset{})
  }

  const D0 := D.State(Tables(map[], map[], {}, map[]), map[], multiset{}, multiset{}, multiset{}, multiset{})
  const D1 := Message(None, 0, map[], multiset{}, multiset{})
  const D2 := Message(Some(9), 1, map[0 := D.Task(ID, 1, D.Gating)], multiset{}, multiset{})
  const D3 := Message(Some(9), 1, map[0 := D.Task(ID, 1, D.Cleared)], multiset{}, multiset{})
  const D4 := Message(Some(9), 1, map[0 := D.Task(ID, 1, D.Answered(D.Retryable))], multiset{ID}, multiset{})
  const D5 := Message(None, 1, map[], multiset{ID}, multiset{})
  const D6 := Message(Some(9), 2, map[0 := D.Task(ID, 2, D.Gating)], multiset{ID}, multiset{})
  const D7 := Message(Some(9), 2, map[0 := D.Task(ID, 2, D.Cleared)], multiset{ID}, multiset{})
  const D8 := Message(Some(9), 2, map[0 := D.Task(ID, 2, D.Answered(D.Accepted("a")))], multiset{ID, ID}, multiset{ID})

  function World(rows: map<Uuid, Switch>, cache: ActiveSet, phase: H.ClaimPhase, outbox: map<Uuid, OutboxRow>): H.World {
    H.World(rows, map[], {}, None, None, cache, map[], map[], map[], map[SMS := phase], outbox)
  }

  const ROWS := map[7 := SUSPEND]

  // The switch seen, released, on its way out, and being drained.
  function Seen(outbox: map<Uuid, OutboxRow>): H.World {
    World(ROWS, ENGAGED, H.Idle, outbox)
  }

  const W0 := World(map[], NO_SWITCHES, H.Idle, map[])
  const W1 := World(map[], NO_SWITCHES, H.Idle, D1.t.outbox)
  const W2 := World(map[], NO_SWITCHES, H.SawEngaged([]), D1.t.outbox)
  const W3 := World(map[], NO_SWITCHES, H.HasList([]), D1.t.outbox)
  const W4 := World(ROWS, NO_SWITCHES, H.HasList([]), D1.t.outbox)
  const W5 := W4.(readTenant := Some([SUSPEND]))
  const W6 := W5.(readPlatform := Some(Some([])))
  const W7 := World(ROWS, ENGAGED, H.HasList([]), D1.t.outbox)
  const W8 := Seen(D2.t.outbox)
  const W11 := Seen(D5.t.outbox)
  const W12 := W11.(releasedIds := {7})
  const W13 := W12.(readTenant := Some([]))
  const W14 := W13.(readPlatform := Some(Some([])))
  const W15 := W12.(cache := NO_SWITCHES, pending := ROWS)
  const W16 := W12.(cache := NO_SWITCHES, draining := ROWS, drains := map[7 := map[SMS := H.Between]])
  const W17 := W16.(drains := map[7 := map[SMS := H.Snapshot([])]])
  const W18 := W16.(outbox := D6.t.outbox)

  const CLAIM := D.ClaimOne(0, ID, 0, 9)

  // ---------------------------------------------------------- the two halves

  ghost predicate Goes(w: H.World, h: H.Step, w': H.World) {
    H.Enabled(ENV, w, h) && w' == H.Apply(ENV, w, h)
  }

  ghost predicate Does(d: D.State, st: D.Step, d': D.State) {
    D.Enabled(true, d, st) && d' == D.Apply(true, d, st)
  }

  lemma Delivered()
    ensures Does(D2, D.Recheck(0), D3) && Does(D3, D.Hand(0, D.Retryable), D4)
  {
  }

  lemma Rescheduled()
    ensures Does(D4, D.Settle(0, 0, 0), D5)
  {
  }

  lemma Queued()
    ensures Does(D0, D.IngestNew("k", ID, MESSAGE), D1)
  {
  }

  lemma DeliveredAgain()
    ensures Does(D6, D.Recheck(0), D7) && Does(D7, D.Hand(0, D.Accepted("a")), D8)
  {
  }

  lemma Claimed()
    ensures Does(D1, CLAIM, D2) && Does(D5, CLAIM, D6)
  {
  }

  lemma StaleReads()
    ensures Goes(W1, H.ClaimReadEngaged(SMS, []), W2) && Goes(W2, H.ClaimReadDraining(SMS, []), W3)
  {
    var none: seq<Switch> := [];
    assert none + none == none;
  }

  lemma FirstTick()
    ensures Goes(W3, H.Engage(SUSPEND), W4) && Goes(W4, H.ReadTenant([SUSPEND]), W5)
    ensures Goes(W5, H.ReadPlatform(Some([])), W6)
  {
  }

  lemma Collected()
    ensures FromList([SUSPEND]) == ROWS && FromList([]) == map[] && AsKillSwitches([]) == []
  {
    assert [SUSPEND][..0] == [];
  }

  lemma FirstSwap()
    ensures Goes(W6, H.Swap, W7)
  {
    Collected();
    assert H.SwapCache(W6).switches == ROWS;
    assert H.SwapCache(W6) == ENGAGED;
    assert H.HoldReleases(NO_SWITCHES, ENGAGED) == map[];
  }

  lemma Takes()
    ensures Goes(W7, H.ClaimRows(SMS, 0, 9, {ID}), W8)
  {
    assert ExclusionFor(ENV.parse, [], SMS) == NO_EXCLUSION;
    assert ClaimCandidates(W7.outbox, SMS, 0, NO_EXCLUSION) == {ID};
    assert |{ID}| == 1;
    assert Lease(W7.outbox, {ID}, 9) == W8.outbox;
  }

  lemma SecondTick()
    ensures Goes(W11, H.Release(7), W12) && Goes(W12, H.ReadTenant([]), W13)
    ensures Goes(W13, H.ReadPlatform(Some([])), W14)
  {
  }

  lemma SecondSwap()
    ensures Goes(W14, H.Swap, W15)
  {
    Collected();
    assert H.SwapCache(W14).switches == map[];
    assert H.SwapCache(W14) == NO_SWITCHES;
    assert H.HoldReleases(ENGAGED, NO_SWITCHES) == ROWS;
  }

  lemma DrainStarts()
    ensures Goes(W15, H.StartDrain(7), W16)
  {
    assert (map ch | ch in ENV.channels :: H.Between) == map[SMS := H.Between];
    assert W15.pending - {7} == map[] && W15.draining[7 := SUSPEND] == ROWS;
  }

  lemma DrainReads()
    ensures Goes(W16, H.DrainReadEngaged(7, SMS, []), W17)
  {
    assert map[SMS := H.Between][SMS := H.Snapshot([])] == map[SMS := H.Snapshot([])];
    assert H.SetPhase(W16.drains, 7, SMS, H.Snapshot([])) == W17.drains;
  }

  lemma DrainTakes()
    ensures Goes(W17, H.DrainClaim(7, SMS, 0, 9, {ID}), W18)
  {
    assert ExclusionFor(ENV.parse, [], SMS) == NO_EXCLUSION;
    assert ScopeCandidates(ENV.parse, W17.outbox, Some(SMS), SUSPEND, 0, NO_EXCLUSION) == {ID};
    assert |{ID}| == 1;
    assert Lease(W17.outbox, {ID}, 9) == W18.outbox;
    assert map[SMS := H.Snapshot([])][SMS := H.Between] == map[SMS := H.Between];
    assert H.SetPhase(W17.drains, 7, SMS, H.Between) == W16.drains;
  }

  // ------------------------------------------------------------------ the run

  // A run with atomic ticks in which the switch's drain never finishes.
  ghost predicate Fine(js: seq<Joint>, steps: seq<Step>) {
    Run(ENV, js, steps) && AtomicTicks(js, steps) && NotFinished(steps, 0, |steps|, 7)
  }

  ghost predicate Reads(h: H.Step) {
    h.ClaimReadEngaged? || h.ClaimReadDraining?
  }

  lemma Extend(js: seq<Joint>, steps: seq<Step>, st: Step, b: Joint) returns (js': seq<Joint>, steps': seq<Step>)
    requires Fine(js, steps) && Moves(ENV, js[|steps|], st, b) && st != Control(H.DrainFinish(7))
    requires st.Control? && Reads(st.h) ==> js[|steps|].w.pending == map[]
    ensures js' == js + [b] && steps' == steps + [st] && Fine(js', steps')
  {
    js', steps' := js + [b], steps + [st];
    forall i | 0 <= i < |steps'| ensures MovesAt(ENV, js', steps', i) {
      if i < |steps| {
        assert MovesAt(ENV, js, steps, i);
      }
    }
  }

  lemma Go(js: seq<Joint>, steps: seq<Step>, h: H.Step, w: H.World) returns (js': seq<Joint>, steps': seq<Step>)
    requires Fine(js, steps) && Goes(js[|steps|].w, h, w) && !TakesRows(h) && !h.Elsewhere? && !h.DrainFinish?
    requires Reads(h) ==> js[|steps|].w.pending == map[]
    ensures js' == js + [js[|steps|].(w := w)] && steps' == steps + [Control(h)] && Fine(js', steps')
  {
    js', steps' := Extend(js, steps, Control(h), js[|steps|].(w := w));
  }

  lemma Do(js: seq<Joint>, steps: seq<Step>, st: D.Step, d: D.State) returns (js': seq<Joint>, steps': seq<Step>)
    requires Fine(js, steps) && Does(js[|steps|].d, st, d) && !st.ClaimOne? && js[|steps|].discards == {}
    ensures js' == js + [Joint(js[|steps|].w.(outbox := d.t.outbox), d, {})] && steps' == steps + [Deliver(st)]
    ensures Fine(js', steps')
  {
    js', steps' := Extend(js, steps, Deliver(st), Joint(js[|steps|].w.(outbox := d.t.outbox), d, {}));
  }

  lemma Take(js: seq<Joint>, steps: seq<Step>, h: H.Step, w: H.World, d: D.State)
    returns (js': seq<Joint>, steps': seq<Step>)
    requires Fine(js, steps) && Goes(js[|steps|].w, h, w) && Does(js[|steps|].d, CLAIM, d) && js[|steps|].discards == {}
    requires TakesRows(h) && h.now == 0 && h.until == 9 && h.batch == {ID}
    ensures js' == js + [Joint(w, d, {})] && steps' == steps + [Batch(h, [CLAIM])] && Fine(js', steps')
  {
    D.ReachesOne(js[|steps|].d, CLAIM);
    assert RowsOf([CLAIM]) == {ID};
    assert ClaimsRow([CLAIM][0], h);
    js', steps' := Extend(js, steps, Batch(h, [CLAIM]), Joint(w, d, {}));
  }

  // The run so far, and where it stands.
  ghost predicate StandsAt(js: seq<Joint>, steps: seq<Step>, n: nat, w: H.World, d: D.State) {
    Fine(js, steps) && |steps| == n && js[n] == Joint(w, d, {})
  }

  lemma Begins() returns (js: seq<Joint>, steps: seq<Step>)
    ensures StandsAt(js, steps, 0, W0, D0)
  {
    assert W0.claims == map ch | ch in ENV.channels :: H.Idle;
    js, steps := [Joint(W0, D0, {})], [];
  }

  lemma Ingests(js: seq<Joint>, steps: seq<Step>) returns (js': seq<Joint>, steps': seq<Step>)
    requires StandsAt(js, steps, 0, W0, D0)
    ensures StandsAt(js', steps', 1, W1, D1)
  {
    Queued();
    js', steps' := Do(js, steps, D.IngestNew("k", ID, MESSAGE), D1);
  }

  lemma ReadsList(js: seq<Joint>, steps: seq<Step>) returns (js': seq<Joint>, steps': seq<Step>)
    requires StandsAt(js, steps, 1, W1, D1)
    ensures StandsAt(js', steps', 3, W3, D1)
  {
    StaleReads();
    js', steps' := Go(js, steps, H.ClaimReadEngaged(SMS, []), W2);
    js', steps' := Go(js', steps', H.ClaimReadDraining(SMS, []), W3);
  }

  lemma Ticks(js: seq<Joint>, steps: seq<Step>) returns (js': seq<Joint>, steps': seq<Step>)
    requires StandsAt(js, steps, 3, W3, D1)
    ensures StandsAt(js', steps', 7, W7, D1)
  {
    FirstTick();
    FirstSwap();
    js', steps' := Go(js, steps, H.Engage(SUSPEND), W4);
    js', steps' := Go(js', steps', H.ReadTenant([SUSPEND]), W5);
    js', steps' := Go(js', steps', H.ReadPlatform(Some([])), W6);
    js', steps' := Go(js', steps', H.Swap, W7);
  }

  lemma StaleClaim(js: seq<Joint>, steps: seq<Step>) returns (js': seq<Joint>, steps': seq<Step>)
    requires StandsAt(js, steps, 7, W7, D1)
    ensures StandsAt(js', steps', 9, W8, D3) && js <= js'
  {
    Claimed();
    Takes();
    Delivered();
    js', steps' := Take(js, steps, H.ClaimRows(SMS, 0, 9, {ID}), W8, D2);
    js', steps' := Do(js', steps', D.Recheck(0), D3);
  }

  lemma StaleCall(js: seq<Joint>, steps: seq<Step>) returns (js': seq<Joint>, steps': seq<Step>)
    requires StandsAt(js, steps, 9, W8, D3)
    ensures StandsAt(js', steps', 11, W11, D5) && js <= js' && steps'[9] == Deliver(D.Hand(0, D.Retryable))
  {
    Delivered();
    Rescheduled();
    js', steps' := Do(js, steps, D.Hand(0, D.Retryable), D4);
    js', steps' := Do(js', steps', D.Settle(0, 0, 0), D5);
  }

  lemma Releases(js: seq<Joint>, steps: seq<Step>) returns (js': seq<Joint>, steps': seq<Step>)
    requires StandsAt(js, steps, 11, W11, D5)
    ensures StandsAt(js', steps', 15, W15, D5) && js <= js' && steps <= steps'
  {
    SecondTick();
    SecondSwap();
    js', steps' := Go(js, steps, H.Release(7), W12);
    js', steps' := Go(js', steps', H.ReadTenant([]), W13);
    js', steps' := Go(js', steps', H.ReadPlatform(Some([])), W14);
    js', steps' := Go(js', steps', H.Swap, W15);
  }

  lemma DrainClaims(js: seq<Joint>, steps: seq<Step>) returns (js': seq<Joint>, steps': seq<Step>)
    requires StandsAt(js, steps, 15, W15, D5)
    ensures StandsAt(js', steps', 18, W18, D6) && js <= js' && steps <= steps'
  {
    DrainStarts();
    DrainReads();
    DrainTakes();
    Claimed();
    js', steps' := Go(js, steps, H.StartDrain(7), W16);
    js', steps' := Go(js', steps', H.DrainReadEngaged(7, SMS, []), W17);
    js', steps' := Take(js', steps', H.DrainClaim(7, SMS, 0, 9, {ID}), W18, D6);
  }

  lemma DrainCalls(js: seq<Joint>, steps: seq<Step>) returns (js': seq<Joint>, steps': seq<Step>)
    requires StandsAt(js, steps, 18, W18, D6)
    ensures StandsAt(js', steps', 20, W18, D8) && js <= js' && steps <= steps'
    ensures js'[19] == Joint(W18, D7, {}) && steps'[19] == Deliver(D.Hand(0, D.Accepted("a")))
  {
    DeliveredAgain();
    js', steps' := Do(js, steps, D.Recheck(0), D7);
    js', steps' := Do(js', steps', D.Hand(0, D.Accepted("a")), D8);
  }

  lemma UpToSeen() returns (js: seq<Joint>, steps: seq<Step>)
    ensures StandsAt(js, steps, 7, W7, D1)
  {
    js, steps := Begins();
    js, steps := Ingests(js, steps);
    js, steps := ReadsList(js, steps);
    js, steps := Ticks(js, steps);
  }

  // Both calls: seen at 7, called at 9 and at 19.
  lemma BothCalls() returns (js: seq<Joint>, steps: seq<Step>)
    ensures StandsAt(js, steps, 20, W18, D8) && js[7] == Joint(W7, D1, {})
    ensures js[9] == Joint(W8, D3, {}) && steps[9] == Deliver(D.Hand(0, D.Retryable))
    ensures js[19] == Joint(W18, D7, {}) && steps[19] == Deliver(D.Hand(0, D.Accepted("a")))
  {
    js, steps := UpToSeen();
    js, steps := StaleClaim(js, steps);
    js, steps := StaleCall(js, steps);
    js, steps := Releases(js, steps);
    js, steps := DrainClaims(js, steps);
    js, steps := DrainCalls(js, steps);
  }

  lemma CallsUnder()
    ensures CallUnder(ENV, Joint(W8, D3, {}), Deliver(D.Hand(0, D.Retryable)), SUSPEND)
    ensures CallUnder(ENV, Joint(W18, D7, {}), Deliver(D.Hand(0, D.Accepted("a"))), SUSPEND)
  {
  }

  // Seen at 7 and not lifted since, the switch covers both calls: the first
  // by a claim that read its exclusion at 1, the second by its own drain.
  lemma HeldCallsHappen() returns (js: seq<Joint>, steps: seq<Step>)
    ensures Run(ENV, js, steps) && AtomicTicks(js, steps) && |steps| == 20
    ensures HeldFrom(js, steps, 7, 9, 7) && CallUnder(ENV, js[9], steps[9], js[7].w.cache.switches[7])
    ensures HeldFrom(js, steps, 7, 19, 7) && CallUnder(ENV, js[19], steps[19], js[7].w.cache.switches[7])
  {
    js, steps := BothCalls();
    CallsUnder();
    assert W7.cache.switches[7] == SUSPEND;
  }
}
