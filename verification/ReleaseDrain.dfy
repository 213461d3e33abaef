/** A released switch drained on every channel, and then no longer excluded. */
module ReleaseDrain {
  import opened Base
  import opened KillSwitch
  import opened Outbox
  import opened Gates
  import opened Drain
  import opened DrainRegistry

  // A hand-over never moves a message to another channel.
  lemma OnceTarget(d: DrainTask, t: Tables, id: Uuid)
    ensures id in d.Once(t, id).outbox ==> id in t.outbox && d.Once(t, id).outbox[id].target == t.outbox[id].target
  {
  }

  lemma {:induction false} TimesTarget(d: DrainTask, t: Tables, id: Uuid, n: nat)
    ensures id in d.Times(t, id, n).outbox ==>
              id in t.outbox && d.Times(t, id, n).outbox[id].target == t.outbox[id].target
  {
    if n == 0 {
    } else {
      TimesTarget(d, t, id, n - 1);
      OnceTarget(d, d.Times(t, id, n - 1), id);
    }
  }

  // Draining one channel leaves another's backlog as it was.
  lemma OtherChannel(d: DrainTask, other: DrainTask, t: Tables, t': Tables, times: map<Uuid, nat>, id: Uuid)
    requires Draining(d, t, t', times) && other.channel != d.channel
    ensures id in other.Backlog(t') <==> id in other.Backlog(t)
    ensures id in other.Backlog(t) ==> t'.outbox[id] == t.outbox[id]
  {
    BacklogIsClaimable(other, t, id);
    BacklogIsClaimable(other, t', id);
    if id in times {
      assert Reached(d, t, t', id, times[id]);
      SameEntryClaimable(t', d.Times(t, id, times[id]), id, other.now);
      TimesTarget(d, t, id, times[id]);
      BacklogIsClaimable(d, t, id);
    } else {
      EntryKept(t, t', times.Keys, id);
      SameEntryClaimable(t', t, id, other.now);
    }
  }

  lemma CoverageKept(d: DrainTask, other: DrainTask, t: Tables, t': Tables, times: map<Uuid, nat>, engaged: seq<Switch>)
    requires Draining(d, t, t', times) && other.channel != d.channel && Covered(other, t, engaged)
    ensures Covered(other, t', engaged)
  {
    forall id | id in other.Backlog(t') ensures MatchedBySome(other.parse, engaged, t'.outbox[id].target) {
      OtherChannel(d, other, t, t', times, id);
    }
  }

  ghost predicate Channels(tasks: seq<DrainTask>) {
    forall i, j :: 0 <= i < j < |tasks| ==> tasks[i].channel != tasks[j].channel
  }

  // `last` is the number of the last turn of each channel's drain. One that
  // ended left nothing claimable in its scope but rows under a switch that
  // turn saw.
  ghost predicate Settled(tasks: seq<DrainTask>, i: nat, ended: seq<bool>, last: seq<nat>,
                          engaged: (nat, nat) -> seq<Switch>, t: Tables)
    requires i < |tasks| && |ended| == |last| && i < |ended|
  {
    ended[i] ==> Covered(tasks[i], t, engaged(i, last[i]))
  }

  // Drains every channel, then lifts the exclusion, which nothing else does:
  // exactly when each drain has ended or its task died, and then every
  // channel whose drain ended is settled still.
  method RunReleaseDrain(registry: Registry, worker: Worker, s: Switch, tasks: seq<DrainTask>, rate: nat,
                         engaged: (nat, nat) -> seq<Switch>, dies: nat -> bool, fuel: nat)
    returns (finished: bool, ghost ended: seq<bool>, ghost last: seq<nat>)
    requires registry.Keyed() && Counted(worker.db.View()) && Channels(tasks)
    modifies registry`draining, worker.db
    ensures registry.Keyed() && |ended| == |last| == |tasks|
    ensures registry.draining == if finished then old(registry.draining) - {s.id} else old(registry.draining)
    ensures finished <==> forall i :: 0 <= i < |tasks| ==> ended[i] || dies(i)
    ensures forall i :: 0 <= i < |tasks| && ended[i] ==> last[i] < fuel
    ensures rate >= 1 ==> forall i :: 0 <= i < |tasks| ==> Settled(tasks, i, ended, last, engaged, worker.db.View())
  {
    finished, ended, last := true, [], [];
    for i := 0 to |tasks|
      invariant Counted(worker.db.View()) && registry.Keyed() && |ended| == |last| == i
      invariant registry.draining == old(registry.draining)
      invariant finished <==> forall j :: 0 <= j < i ==> ended[j] || dies(j)
      invariant forall j :: 0 <= j < i && ended[j] ==> last[j] < fuel
      invariant rate >= 1 ==> forall j :: 0 <= j < i ==> Settled(tasks, j, ended, last, engaged, worker.db.View())
    {
      var done, turn := DrainChannel(worker, tasks, i, rate, engaged, fuel, ended, last);
      ended, last := ended + [done], last + [turn];
      finished := finished && (done || dies(i));
    }
    if finished {
      registry.FinishDrain(s);
    }
  }

  // One more channel: it settles if its drain ends, and those before stay so.
  method DrainChannel(worker: Worker, tasks: seq<DrainTask>, i: nat, rate: nat, engaged: (nat, nat) -> seq<Switch>,
                      fuel: nat, ghost ended: seq<bool>, ghost last: seq<nat>)
    returns (done: bool, ghost turn: nat)
    requires Counted(worker.db.View()) && Channels(tasks) && i < |tasks| && |ended| == |last| == i
    requires rate >= 1 ==> forall j :: 0 <= j < i ==> Settled(tasks, j, ended, last, engaged, worker.db.View())
    modifies worker.db
    ensures Counted(worker.db.View()) && (done ==> turn < fuel)
    ensures rate >= 1 ==>
              forall j :: 0 <= j <= i ==>
                Settled(tasks, j, ended + [done], last + [turn], engaged, worker.db.View())
  {
    ghost var t := worker.db.View();
    var seen := (k: nat) => engaged(i, k);
    ghost var log;
    done, log := DrainReleasedScope(worker, tasks[i], rate, seen, fuel);
    turn := if done then log.turns - 1 else 0;
    if rate >= 1 {
      assert done ==> seen(turn) == engaged(i, turn);
      forall j | 0 <= j <= i
        ensures Settled(tasks, j, ended + [done], last + [turn], engaged, worker.db.View())
      {
        if j < i {
          StaysSettled(tasks, i, j, ended, last, engaged, t, worker.db.View(), log.times);
        }
      }
    }
  }

  lemma StaysSettled(tasks: seq<DrainTask>, i: nat, j: nat, ended: seq<bool>, last: seq<nat>,
                     engaged: (nat, nat) -> seq<Switch>, t: Tables, t': Tables, times: map<Uuid, nat>)
    requires j < i < |tasks| && Channels(tasks) && |ended| == |last| == i
    requires Draining(tasks[i], t, t', times) && Settled(tasks, j, ended, last, engaged, t)
    ensures Settled(tasks, j, ended, last, engaged, t')
  {
    if ended[j] {
      CoverageKept(tasks[i], tasks[j], t, t', times, engaged(j, last[j]));
    }
  }
}
