/**
 * Why the lease sweep needs a process without running tasks: drains and
 * discards are spawned by the refresh loop, which starts before leadership
 * is won, and a sweep that clears the lease of a row one of them holds lets
 * a second task send the same message.
 */
module SweepRace {
  import opened Base
  import opened KillSwitch
  import opened Outbox
  import opened Delivery
  import opened DeliverySafety
  import opened SweepSafety

  const ID: Uuid := 1
  const MESSAGE := OutboxRow(Target("sms", 5, None), Transactional, 1, 0, None, None, 0, None)

  function Holding(leased: Option<Instant>, attempts: int, tasks: map<nat, Task>, calls: multiset<Uuid>): State {
    State(Tables(map[ID := MESSAGE.(attempts := attempts, leasedUntil := leased)],
                 map[ID := Request(5, None)], {}, map[(5, "k") := ID]),
          tasks, calls, calls, multiset{}, multiset{})
  }

  const FIRST := Task(ID, 1, Gating)
  const SENT := Task(ID, 1, Answered(Accepted("a")))
  const SECOND := Task(ID, 2, Gating)

  const Q0 := State(Tables(map[], map[], {}, map[]), map[], multiset{}, multiset{}, multiset{}, multiset{})
  const Q1 := Holding(None, 0, map[], multiset{})
  const Q2 := Holding(Some(9), 1, map[0 := FIRST], multiset{})
  const Q3 := Holding(Some(9), 1, map[0 := FIRST.(phase := Cleared)], multiset{})
  const Q4 := Holding(Some(9), 1, map[0 := SENT], multiset{ID})
  const Q5 := Holding(None, 1, map[0 := SENT], multiset{ID})
  const Q6 := Holding(Some(9), 2, map[0 := SENT, 1 := SECOND], multiset{ID})
  const Q7 := Holding(Some(9), 2, map[0 := SENT, 1 := SECOND.(phase := Cleared)], multiset{ID})
  const Q8 := Holding(Some(9), 2, map[0 := SENT, 1 := SECOND.(phase := Answered(Accepted("b")))], multiset{ID, ID})

  const STATES := [Q0, Q1, Q2, Q3, Q4, Q5, Q6, Q7, Q8]
  const STEPS := [
    IngestNew("k", ID, MESSAGE), ClaimOne(0, ID, 0, 9), Recheck(0), Hand(0, Accepted("a")),
    Sweep, ClaimOne(1, ID, 0, 9), Recheck(1), Hand(1, Accepted("b"))]

  ghost predicate Goes(s: State, st: Step, s': State) {
    Enabled(false, s, st) && s' == Apply(false, s, st)
  }

  lemma FirstSend()
    ensures Goes(Q0, IngestNew("k", ID, MESSAGE), Q1) && Goes(Q1, ClaimOne(0, ID, 0, 9), Q2)
  {
  }

  lemma FirstCall()
    ensures Goes(Q2, Recheck(0), Q3) && Goes(Q3, Hand(0, Accepted("a")), Q4)
  {
  }

  lemma SecondClaim()
    ensures Goes(Q4, Sweep, Q5) && Goes(Q5, ClaimOne(1, ID, 0, 9), Q6)
  {
  }

  lemma SecondSend()
    ensures Goes(Q6, Recheck(1), Q7) && Goes(Q7, Hand(1, Accepted("b")), Q8)
  {
  }

  lemma FirstSteps(i: nat)
    requires i < 4
    ensures StepAt(false, STATES, STEPS, i)
  {
    FirstSend();
    FirstCall();
    assert Goes(STATES[i], STEPS[i], STATES[i + 1]);
  }

  lemma SecondSteps(i: nat)
    requires 4 <= i < 8
    ensures StepAt(false, STATES, STEPS, i)
  {
    SecondClaim();
    SecondSend();
    assert Goes(STATES[i], STEPS[i], STATES[i + 1]);
  }

  lemma RaceRuns()
    ensures Run(false, STATES, STEPS)
  {
    forall i | 0 <= i < |STEPS|
      ensures StepAt(false, STATES, STEPS, i)
    {
      if i < 4 {
        FirstSteps(i);
      } else {
        SecondSteps(i);
      }
    }
  }

  // Two accepted sends of one message, with a sweep while a task holds it.
  lemma SweepCanDoubleSend()
    ensures Run(false, STATES, STEPS)
    ensures AcceptedCalls(STATES, STEPS, 8, ID) == 2
  {
    RaceRuns();
    assert AcceptedCalls(STATES, STEPS, 1, ID) == 0;
    assert AcceptedCalls(STATES, STEPS, 3, ID) == 0;
    assert AcceptedCalls(STATES, STEPS, 4, ID) == 1;
    assert AcceptedCalls(STATES, STEPS, 5, ID) == 1;
    assert AcceptedCalls(STATES, STEPS, 6, ID) == 1;
    assert AcceptedCalls(STATES, STEPS, 7, ID) == 1;
  }

  // ---------------------------------------------- a write lost after the call

  const CRASHED := Q3.(
    t := Q4.t, tasks := map[], handed := multiset{ID}, accepted := multiset{ID},
    lost := multiset{ID}, lostAccepted := multiset{ID})

  const RESTARTED := CRASHED.(t := Q5.t)

  lemma Crashes()
    ensures Reaches(Q0, [IngestNew("k", ID, MESSAGE), ClaimOne(0, ID, 0, 9), Recheck(0), Hand(0, Accepted("a")),
                         Abandon(0)], CRASHED)
  {
    FirstSend();
    FirstCall();
    assert Apply(true, Q4, Abandon(0)) == CRASHED;
    ReachesOne(Q4, Abandon(0));
    ReachesMore(Q3, Hand(0, Accepted("a")), [Abandon(0)], CRASHED);
    ReachesMore(Q2, Recheck(0), [Hand(0, Accepted("a"))] + [Abandon(0)], CRASHED);
    ReachesMore(Q1, ClaimOne(0, ID, 0, 9), [Recheck(0)] + ([Hand(0, Accepted("a"))] + [Abandon(0)]), CRASHED);
    ReachesMore(Q0, IngestNew("k", ID, MESSAGE),
                [ClaimOne(0, ID, 0, 9)] + ([Recheck(0)] + ([Hand(0, Accepted("a"))] + [Abandon(0)])), CRASHED);
    assert [IngestNew("k", ID, MESSAGE)] +
           ([ClaimOne(0, ID, 0, 9)] + ([Recheck(0)] + ([Hand(0, Accepted("a"))] + [Abandon(0)])))
        == [IngestNew("k", ID, MESSAGE), ClaimOne(0, ID, 0, 9), Recheck(0), Hand(0, Accepted("a")), Abandon(0)];
  }

  lemma Resends() returns (tail: seq<Step>, after: State)
    ensures Reaches(CRASHED, tail, after) && after.accepted[ID] == 2 && after.lostAccepted[ID] == 1
  {
    assert Apply(true, CRASHED, Sweep) == RESTARTED;
    var first, mid := ClaimAndClear(RESTARTED, ID, 0);
    var second, end := Accept(mid, 0);
    ReachesOn(RESTARTED, first, mid, second, end);
    ReachesMore(CRASHED, Sweep, first + second, end);
    tail, after := [Sweep] + (first + second), end;
  }

  // A crash between the provider's acceptance and the write, then the sweep
  // of the restart, which runs without tasks: the message is sent again.
  lemma CrashCanDoubleSend() returns (tail: seq<Step>, after: State)
    ensures Init(Q0)
    ensures Reaches(Q0, [IngestNew("k", ID, MESSAGE), ClaimOne(0, ID, 0, 9), Recheck(0), Hand(0, Accepted("a")),
                         Abandon(0)] + tail, after)
    ensures after.accepted[ID] == 2 && after.lostAccepted[ID] == 1
  {
    Crashes();
    tail, after := Resends();
    ReachesOn(Q0, [IngestNew("k", ID, MESSAGE), ClaimOne(0, ID, 0, 9), Recheck(0), Hand(0, Accepted("a")), Abandon(0)],
              CRASHED, tail, after);
  }
}
