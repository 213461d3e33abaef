/**
 * The gap inside a refresh tick is real: a run in which the normal loop
 * claims a row of a released `hold` switch whose drain has not started,
 * because both of its reads landed between the cache swap and the
 * callback's insert into `draining`.
 */
module TickRace {
  import opened Base
  import opened KillSwitch
  import opened SwitchCache
  import opened Outbox
  import opened HoldProtocol
  import opened HoldSafety

  const SMS := "sms"
  const ENV := Env(_ => None, 0, {SMS}, 500)
  const SUSPEND := Switch(1, Global, None, Hold)
  const ROW: Uuid := 9
  const MESSAGE := OutboxRow(Target(SMS, 5, None), Transactional, 1, 0, None, None, 0, None)
  const EMPTY := ActiveSet(map[], {})
  const ENGAGED := ActiveSet(map[1 := SUSPEND], {})

  function At(rows: map<Uuid, Switch>, released: set<Uuid>, cache: ActiveSet, pending: map<Uuid, Switch>,
              phase: ClaimPhase): World
  {
    World(rows, map[], released, None, None, cache, pending, map[], map[], map[SMS := phase], map[ROW := MESSAGE])
  }

  const Q0 := At(map[], {}, EMPTY, map[], Idle)
  const Q1 := At(map[1 := SUSPEND], {}, EMPTY, map[], Idle)
  const Q2 := Q1.(readTenant := Some([SUSPEND]))
  const Q3 := Q2.(readPlatform := Some(Some([])))
  const Q4 := At(map[1 := SUSPEND], {}, ENGAGED, map[], Idle)
  const Q5 := At(map[1 := SUSPEND], {1}, ENGAGED, map[], Idle)
  const Q6 := Q5.(readTenant := Some([]))
  const Q7 := Q6.(readPlatform := Some(Some([])))
  const Q8 := At(map[1 := SUSPEND], {1}, EMPTY, map[1 := SUSPEND], Idle)
  const Q9 := Q8.(claims := map[SMS := SawEngaged([])])
  const Q10 := Q8.(claims := map[SMS := HasList([])])
  const Q11 := Q8.(outbox := Lease(map[ROW := MESSAGE], {ROW}, 1))

  const WORLDS := [Q0, Q1, Q2, Q3, Q4, Q5, Q6, Q7, Q8, Q9, Q10, Q11]
  const STEPS := [
    Engage(SUSPEND), ReadTenant([SUSPEND]), ReadPlatform(Some([])), Swap,
    Release(1), ReadTenant([]), ReadPlatform(Some([])), Swap,
    ClaimReadEngaged(SMS, []), ClaimReadDraining(SMS, []), ClaimRows(SMS, 0, 1, {ROW})]

  ghost predicate Goes(w: World, st: Step, w': World) {
    Enabled(ENV, w, st) && w' == Apply(ENV, w, st)
  }

  lemma FirstTick()
    ensures Goes(Q0, Engage(SUSPEND), Q1) && Goes(Q1, ReadTenant([SUSPEND]), Q2)
    ensures Goes(Q2, ReadPlatform(Some([])), Q3)
  {
  }

  lemma Collected()
    ensures FromList([SUSPEND]) == map[1 := SUSPEND] && FromList([]) == map[]
    ensures AsKillSwitches([]) == []
  {
    assert [SUSPEND][..0] == [];
  }

  lemma FirstSwap()
    ensures Goes(Q3, Swap, Q4)
  {
    Collected();
    assert SwapCache(Q3).switches == map[1 := SUSPEND];
    assert SwapCache(Q3) == ENGAGED;
    assert HoldReleases(EMPTY, ENGAGED) == map[];
  }

  lemma SecondTick()
    ensures Goes(Q4, Release(1), Q5) && Goes(Q5, ReadTenant([]), Q6) && Goes(Q6, ReadPlatform(Some([])), Q7)
  {
  }

  lemma SecondSwap()
    ensures Goes(Q7, Swap, Q8)
  {
    Collected();
    assert SwapCache(Q7).switches == map[];
    assert SwapCache(Q7) == EMPTY;
    assert HoldReleases(ENGAGED, EMPTY) == map[1 := SUSPEND];
  }

  lemma Reads()
    ensures Goes(Q8, ClaimReadEngaged(SMS, []), Q9) && Goes(Q9, ClaimReadDraining(SMS, []), Q10)
  {
    var none: seq<Switch> := [];
    assert none + none == none;
  }

  lemma Takes()
    ensures Goes(Q10, ClaimRows(SMS, 0, 1, {ROW}), Q11)
  {
    assert ExclusionFor(ENV.parse, [], SMS) == NO_EXCLUSION;
    assert ClaimCandidates(Q10.outbox, SMS, 0, NO_EXCLUSION) == {ROW};
    assert |{ROW}| == 1;
  }

  lemma TickSteps(i: nat)
    requires i < 4
    ensures StepAt(ENV, WORLDS, STEPS, i)
  {
    FirstTick();
    FirstSwap();
    assert Goes(WORLDS[i], STEPS[i], WORLDS[i + 1]);
  }

  lemma ReleaseSteps(i: nat)
    requires 4 <= i < 8
    ensures StepAt(ENV, WORLDS, STEPS, i)
  {
    SecondTick();
    SecondSwap();
    assert Goes(WORLDS[i], STEPS[i], WORLDS[i + 1]);
  }

  lemma ClaimSteps(i: nat)
    requires 8 <= i < 11
    ensures StepAt(ENV, WORLDS, STEPS, i)
  {
    Reads();
    Takes();
    assert Goes(WORLDS[i], STEPS[i], WORLDS[i + 1]);
  }

  lemma RaceRuns()
    ensures Run(ENV, WORLDS, STEPS)
  {
    forall i | 0 <= i < |STEPS|
      ensures StepAt(ENV, WORLDS, STEPS, i)
    {
      if i < 4 {
        TickSteps(i);
      } else if i < 8 {
        ReleaseSteps(i);
      } else {
        ClaimSteps(i);
      }
    }
    assert Q0.claims == map ch | ch in ENV.channels :: Idle;
  }

  // The run, and what it does: switch 1 is held throughout, the claim's two
  // reads are adjacent, and the row it takes matches the switch.
  lemma HoldCanLeak()
    ensures Run(ENV, WORLDS, STEPS)
    ensures ReadPair(STEPS, 8, 9, SMS) && ClaimOf(STEPS, 9, 10, SMS)
    ensures forall k :: 8 <= k <= 10 ==> Held(WORLDS[k], 1)
    ensures ROW in STEPS[10].batch && Known(WORLDS[9], 1)
    ensures Matches(ENV.parse, RowOf(WORLDS[9], 1), WORLDS[10].outbox[ROW].target)
  {
    RaceRuns();
    assert WORLDS[8] == Q8 && WORLDS[9] == Q9 && WORLDS[10] == Q10;
  }
}
