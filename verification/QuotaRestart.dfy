/**
 * A dispatcher restart seen by one quota key: counters are flushed to
 * `producer_usage` from time to time, and a fresh process rebuilds them from
 * the rows of the windows it starts in.
 */
module QuotaRestart {
  import opened Base
  import opened Quota

  // The key's rows of producer_usage, by granularity and window start.
  type Usage = map<(Granularity, Instant), (nat, nat)>

  datatype KeyState = KeyState(live: Counters, usage: Usage)

  datatype Event =
    | Call(now: Instant, quota: Option<EffectiveQuota>)   // quotas may be reconfigured between calls
    | Flush(now: Instant)
    | Restart(now: Instant)

  function FlushWindow(usage: Usage, g: Granularity, w: Window): Usage {
    if w.start.None? then usage else usage[(g, w.start.value) := (w.sent, w.blocked)]
  }

  function FlushBoth(usage: Usage, c: Counters): Usage {
    FlushWindow(FlushWindow(usage, Minute, c.minute), Day, c.day)
  }

  function LoadWindow(usage: Usage, g: Granularity, start: Instant): Window {
    if (g, start) in usage then Window(Some(start), usage[(g, start)].0, usage[(g, start)].1) else NO_WINDOW
  }

  function Rebuild(z: Zone, usage: Usage, now: Instant): Counters {
    Counters(LoadWindow(usage, Minute, MinuteStart(now)), LoadWindow(usage, Day, DayStart(z, now)))
  }

  function Step(z: Zone, s: KeyState, e: Event): KeyState {
    match e
    case Call(now, quota) => s.(live := Check(z, quota, s.live, now).0)
    case Flush(_) => s.(usage := FlushBoth(s.usage, s.live))
    case Restart(now) => s.(live := Rebuild(z, s.usage, now))
  }

  function Run(z: Zone, events: seq<Event>): KeyState {
    if events == [] then KeyState(NO_COUNTERS, map[])
    else Step(z, Run(z, events[..|events| - 1]), events[|events| - 1])
  }

  ghost predicate InOrder(events: seq<Event>) {
    forall i, j :: 0 <= i <= j < |events| ==> events[i].now <= events[j].now
  }

  // ------------------------------------------------------------- one window

  // A window some instant up to now fell into.
  ghost predicate Been(z: Zone, g: Granularity, start: Instant, now: Instant) {
    exists t :: t <= now && StartOf(z, g, t) == start
  }

  // Everything stored or live has been, and a stored row of the present
  // window is one the live counters know of.
  ghost predicate KnownWindow(z: Zone, usage: Usage, g: Granularity, w: Window, now: Instant) {
    && (forall start :: (g, start) in usage ==> Been(z, g, start, now))
    && ((g, StartOf(z, g, now)) in usage ==> w.start == Some(StartOf(z, g, now)))
    && (w.start.Some? ==> Been(z, g, w.start.value, now))
  }

  // And the stored row, if the window has begun, is up to date.
  ghost predicate FlushedWindow(z: Zone, usage: Usage, g: Granularity, w: Window, now: Instant) {
    var current := StartOf(z, g, now);
    && KnownWindow(z, usage, g, w, now)
    && (w.start == Some(current) ==> (g, current) in usage && usage[(g, current)] == (w.sent, w.blocked))
  }

  ghost predicate Known(z: Zone, s: KeyState, now: Instant) {
    KnownWindow(z, s.usage, Minute, s.live.minute, now) && KnownWindow(z, s.usage, Day, s.live.day, now)
  }

  ghost predicate Flushed(z: Zone, s: KeyState, now: Instant) {
    FlushedWindow(z, s.usage, Minute, s.live.minute, now) && FlushedWindow(z, s.usage, Day, s.live.day, now)
  }

  // A window that has been is the present one or lies behind for good.
  lemma BehindForGood(z: Zone, g: Granularity, start: Instant, now: Instant, later: Instant)
    requires NoReturn(z, g) && Been(z, g, start, now) && now <= later
    ensures Been(z, g, start, later)
    ensures StartOf(z, g, later) == start ==> StartOf(z, g, now) == start
  {
    var t :| t <= now && StartOf(z, g, t) == start;
  }

  // Rolled to the window it is read in, a rebuilt window equals the live one.
  lemma LoadIsLive(z: Zone, usage: Usage, g: Granularity, w: Window, now: Instant, loadedAt: Instant, later: Instant)
    requires NoReturn(z, g) && FlushedWindow(z, usage, g, w, now) && now <= loadedAt <= later
    ensures var end := StartOf(z, g, later);
            Roll(LoadWindow(usage, g, StartOf(z, g, loadedAt)), end) == Roll(w, end)
  {
    var loaded := StartOf(z, g, loadedAt);
    if (g, loaded) in usage {
      BehindForGood(z, g, loaded, now, loadedAt);
    }
    if w.start == Some(StartOf(z, g, later)) {
      BehindForGood(z, g, w.start.value, now, later);
    }
  }

  // ------------------------------------------------------------- every run

  lemma WindowLater(z: Zone, usage: Usage, g: Granularity, w: Window, now: Instant, later: Instant)
    requires NoReturn(z, g) && now <= later && KnownWindow(z, usage, g, w, now)
    ensures KnownWindow(z, usage, g, w, later)
  {
    forall start | Been(z, g, start, now)
      ensures Been(z, g, start, later)
      ensures StartOf(z, g, later) == start ==> StartOf(z, g, now) == start
    {
      BehindForGood(z, g, start, now, later);
    }
  }

  lemma KnownLater(z: Zone, s: KeyState, now: Instant, later: Instant)
    requires Genuine(z) && NoDateReturns(z) && now <= later && Known(z, s, now)
    ensures Known(z, s, later)
  {
    NoMinuteReturns(z);
    NoDayReturns(z);
    WindowLater(z, s.usage, Minute, s.live.minute, now, later);
    WindowLater(z, s.usage, Day, s.live.day, now, later);
  }

  lemma NowBeen(z: Zone, g: Granularity, now: Instant)
    ensures Been(z, g, StartOf(z, g, now), now)
  {
  }

  lemma KnownStep(z: Zone, s: KeyState, e: Event)
    requires Known(z, s, e.now)
    ensures Known(z, Step(z, s, e), e.now)
    ensures !e.Call? ==> Flushed(z, Step(z, s, e), e.now)
  {
    NowBeen(z, Minute, e.now);
    NowBeen(z, Day, e.now);
  }

  lemma {:induction false} RunKnown(z: Zone, events: seq<Event>)
    requires Genuine(z) && NoDateReturns(z) && InOrder(events) && events != []
    ensures Known(z, Run(z, events), events[|events| - 1].now)
    ensures !events[|events| - 1].Call? ==> Flushed(z, Run(z, events), events[|events| - 1].now)
  {
    var last := |events| - 1;
    var init, now := events[..last], events[last].now;
    if init == [] {
    } else {
      RunKnown(z, init);
      KnownLater(z, Run(z, init), init[last - 1].now, now);
    }
    KnownStep(z, Run(z, init), events[last]);
  }

  // ------------------------------------------------------------ transparency

  function Decisions(z: Zone, c: Counters, calls: seq<(Instant, Option<EffectiveQuota>)>): seq<Decision>
    decreases |calls|
  {
    if calls == [] then []
    else
      var (after, decision) := Check(z, calls[0].1, c, calls[0].0);
      [decision] + Decisions(z, after, calls[1..])
  }

  // A check sees counters only through their roll to the present.
  lemma SameRollSameDecisions(z: Zone, c: Counters, c': Counters, calls: seq<(Instant, Option<EffectiveQuota>)>)
    requires calls != [] ==> RollBoth(z, c, calls[0].0) == RollBoth(z, c', calls[0].0)
    ensures Decisions(z, c, calls) == Decisions(z, c', calls)
  {
  }

  // After any history, flushed and not called since, a tracker rebuilt at
  // any later time answers every later sequence of calls as the live one.
  lemma {:induction false} RestartInvisible(z: Zone, events: seq<Event>, now: Instant, calls: seq<(Instant, Option<EffectiveQuota>)>)
    requires Genuine(z) && NoDateReturns(z) && InOrder(events) && events != [] && events[|events| - 1].Flush?
    requires events[|events| - 1].now <= now
    requires calls != [] ==> now <= calls[0].0
    ensures var s := Run(z, events);
            Decisions(z, Rebuild(z, s.usage, now), calls) == Decisions(z, s.live, calls)
  {
    var s, flushedAt := Run(z, events), events[|events| - 1].now;
    RunKnown(z, events);
    if calls != [] {
      RebuiltIsLive(z, s, flushedAt, now, calls[0].0);
    }
    SameRollSameDecisions(z, Rebuild(z, s.usage, now), s.live, calls);
  }

  lemma {:induction false} RebuiltIsLive(z: Zone, s: KeyState, flushedAt: Instant, now: Instant, later: Instant)
    requires Genuine(z) && NoDateReturns(z) && Flushed(z, s, flushedAt) && flushedAt <= now <= later
    ensures RollBoth(z, Rebuild(z, s.usage, now), later) == RollBoth(z, s.live, later)
  {
    NoMinuteReturns(z);
    NoDayReturns(z);
    LoadIsLive(z, s.usage, Minute, s.live.minute, flushedAt, now, later);
    LoadIsLive(z, s.usage, Day, s.live.day, flushedAt, now, later);
  }

  // --------------------------------------------------------------- shortfall

  function AfterCalls(z: Zone, c: Counters, calls: seq<(Instant, Option<EffectiveQuota>)>): Counters {
    if calls == [] then c
    else
      var last := |calls| - 1;
      Check(z, calls[last].1, AfterCalls(z, c, calls[..last]), calls[last].0).0
  }

  // How many of the calls were let through.
  function LetThroughCount(z: Zone, c: Counters, calls: seq<(Instant, Option<EffectiveQuota>)>): nat {
    if calls == [] then 0
    else
      var last := |calls| - 1;
      LetThroughCount(z, c, calls[..last]) +
      if Check(z, calls[last].1, AfterCalls(z, c, calls[..last]), calls[last].0).1.Defer? then 0 else 1
  }

  ghost predicate CallsInOrder(since: Instant, calls: seq<(Instant, Option<EffectiveQuota>)>, until: Instant) {
    && since <= until
    && (forall i :: 0 <= i < |calls| ==> since <= calls[i].0 <= until)
    && (forall i, j :: 0 <= i <= j < |calls| ==> calls[i].0 <= calls[j].0)
  }

  // A window counts at least what it did and at most that plus `extra`.
  ghost predicate Ahead(w: Window, w': Window, current: Instant, extra: nat) {
    Roll(w, current).sent <= Roll(w', current).sent <= Roll(w, current).sent + extra
  }

  // A live window that has been.
  ghost predicate Behind(z: Zone, g: Granularity, w: Window, now: Instant) {
    w.start.Some? ==> Been(z, g, w.start.value, now)
  }

  lemma AheadLater(z: Zone, g: Granularity, w: Window, w': Window, now: Instant, later: Instant, extra: nat)
    requires NoReturn(z, g) && now <= later && Behind(z, g, w, now) && Behind(z, g, w', now)
    requires Ahead(w, w', StartOf(z, g, now), extra)
    ensures Behind(z, g, w, later) && Behind(z, g, w', later)
    ensures Ahead(w, w', StartOf(z, g, later), extra)
  {
    if w.start.Some? {
      BehindForGood(z, g, w.start.value, now, later);
    }
    if w'.start.Some? {
      BehindForGood(z, g, w'.start.value, now, later);
    }
  }

  ghost predicate NotAhead(z: Zone, c: Counters, now: Instant) {
    Behind(z, Minute, c.minute, now) && Behind(z, Day, c.day, now)
  }

  lemma CallNotAhead(z: Zone, quota: Option<EffectiveQuota>, c: Counters, now: Instant)
    ensures NotAhead(z, Check(z, quota, c, now).0, now)
  {
    NowBeen(z, Minute, now);
    NowBeen(z, Day, now);
  }

  lemma CallCounts(z: Zone, quota: Option<EffectiveQuota>, base: Counters, c: Counters, now: Instant, extra: nat)
    requires Ahead(base.minute, c.minute, MinuteStart(now), extra)
    requires Ahead(base.day, c.day, DayStart(z, now), extra)
    ensures var (after, decision) := Check(z, quota, c, now);
            var extra' := extra + if decision.Defer? then 0 else 1;
            && Ahead(base.minute, after.minute, MinuteStart(now), extra')
            && Ahead(base.day, after.day, DayStart(z, now), extra')
  {
  }

  lemma BothAheadLater(z: Zone, c: Counters, c': Counters, now: Instant, later: Instant, extra: nat)
    requires Genuine(z) && NoDateReturns(z) && now <= later && NotAhead(z, c, now) && NotAhead(z, c', now)
    requires Ahead(c.minute, c'.minute, MinuteStart(now), extra) && Ahead(c.day, c'.day, DayStart(z, now), extra)
    ensures NotAhead(z, c, later) && NotAhead(z, c', later)
    ensures Ahead(c.minute, c'.minute, MinuteStart(later), extra) && Ahead(c.day, c'.day, DayStart(z, later), extra)
  {
    NoMinuteReturns(z);
    NoDayReturns(z);
    AheadLater(z, Minute, c.minute, c'.minute, now, later, extra);
    AheadLater(z, Day, c.day, c'.day, now, later, extra);
  }

  lemma {:induction false} CallsCount(z: Zone, c: Counters, since: Instant,
                                      calls: seq<(Instant, Option<EffectiveQuota>)>, until: Instant)
    requires Genuine(z) && NoDateReturns(z) && CallsInOrder(since, calls, until) && NotAhead(z, c, since)
    ensures NotAhead(z, c, until) && NotAhead(z, AfterCalls(z, c, calls), until)
    ensures Ahead(c.minute, AfterCalls(z, c, calls).minute, MinuteStart(until), LetThroughCount(z, c, calls))
    ensures Ahead(c.day, AfterCalls(z, c, calls).day, DayStart(z, until), LetThroughCount(z, c, calls))
  {
    if calls == [] {
      BothAheadLater(z, c, c, since, until, 0);
    } else {
      var last := |calls| - 1;
      var at, init := calls[last].0, calls[..last];
      CallsCount(z, c, since, init, at);
      CallCounts(z, calls[last].1, c, AfterCalls(z, c, init), at, LetThroughCount(z, c, init));
      CallNotAhead(z, calls[last].1, AfterCalls(z, c, init), at);
      BothAheadLater(z, c, AfterCalls(z, c, calls), at, until, LetThroughCount(z, c, calls));
    }
  }

  // A crash after further calls loses at most what they let through since
  // the last flush, in each window, and never invents a send.
  lemma ShortfallBound(z: Zone, events: seq<Event>, calls: seq<(Instant, Option<EffectiveQuota>)>, now: Instant)
    requires Genuine(z) && NoDateReturns(z) && InOrder(events) && events != [] && events[|events| - 1].Flush?
    requires CallsInOrder(events[|events| - 1].now, calls, now)
    ensures var s := Run(z, events);
            var live, lost := AfterCalls(z, s.live, calls), LetThroughCount(z, s.live, calls);
            && Ahead(Rebuild(z, s.usage, now).minute, live.minute, MinuteStart(now), lost)
            && Ahead(Rebuild(z, s.usage, now).day, live.day, DayStart(z, now), lost)
  {
    var s, flushedAt := Run(z, events), events[|events| - 1].now;
    RunKnown(z, events);
    RebuiltIsLive(z, s, flushedAt, now, now);
    CallsCount(z, s.live, flushedAt, calls, now);
  }

  // ------------------------------------------- exactly in which zones it holds

  // A tracker rebuilt at `now` answers these calls as the live one.
  ghost predicate Invisible(z: Zone, events: seq<Event>, now: Instant, calls: seq<(Instant, Option<EffectiveQuota>)>) {
    var s := Run(z, events);
    Decisions(z, Rebuild(z, s.usage, now), calls) == Decisions(z, s.live, calls)
  }

  // A history flushed last, a restart after it, and calls after that.
  ghost predicate RestartAfter(events: seq<Event>, now: Instant, calls: seq<(Instant, Option<EffectiveQuota>)>) {
    && InOrder(events) && events != [] && events[|events| - 1].Flush? && events[|events| - 1].now <= now
    && (calls != [] ==> now <= calls[0].0)
  }

  ghost predicate NeverShows(z: Zone) {
    forall events, now, calls {:trigger Invisible(z, events, now, calls)} ::
      RestartAfter(events, now, calls) ==> Invisible(z, events, now, calls)
  }

  // One call on a date, one on another, each flushed; then the first date
  // comes back, and the rebuilt tracker remembers what the live one forgot.
  lemma ReturnShows(z: Zone, s: Instant, t: Instant, u: Instant)
    requires Genuine(z) && s <= t <= u && z.localDay(s) == z.localDay(u) != z.localDay(t)
    ensures var events := [Call(s, None), Flush(s), Call(t, None), Flush(t)];
            var calls := [(u, Some(Only(Day, 1)))];
            RestartAfter(events, u, calls) && !Invisible(z, events, u, calls)
  {
    var events := [Call(s, None), Flush(s), Call(t, None), Flush(t)];
    var calls := [(u, Some(Only(Day, 1)))];
    SameMidnight(z, z.localDay(s), z.localDay(t));
    var k := Seen(z, s, t);
    assert Decisions(z, Rebuild(z, k.usage, u), calls)[0] != Decisions(z, k.live, calls)[0];
  }

  lemma Seen(z: Zone, s: Instant, t: Instant) returns (k: KeyState)
    requires DayStart(z, s) != DayStart(z, t)
    ensures k == Run(z, [Call(s, None), Flush(s), Call(t, None), Flush(t)])
    ensures (Day, DayStart(z, s)) in k.usage && k.usage[(Day, DayStart(z, s))].0 == 1
    ensures k.live.day.start == Some(DayStart(z, t))
  {
    var k0 := KeyState(NO_COUNTERS, map[]);
    var k1 := Step(z, k0, Call(s, None));
    var k2 := Step(z, k1, Flush(s));
    var k3 := Step(z, k2, Call(t, None));
    var one, two, three := [Call(s, None)], [Call(s, None), Flush(s)], [Call(s, None), Flush(s), Call(t, None)];
    RunMore(z, [], Call(s, None));
    RunMore(z, one, Flush(s));
    RunMore(z, two, Call(t, None));
    RunMore(z, three, Flush(t));
    assert [] + [Call(s, None)] == one && one + [Flush(s)] == two && two + [Call(t, None)] == three;
    assert three + [Flush(t)] == [Call(s, None), Flush(s), Call(t, None), Flush(t)];
    k := Step(z, k3, Flush(t));
  }

  lemma RunMore(z: Zone, events: seq<Event>, e: Event)
    ensures Run(z, events + [e]) == Step(z, Run(z, events), e)
  {
    assert (events + [e])[..|events|] == events;
  }

  lemma NoReturnHides(z: Zone)
    requires Genuine(z) && NoDateReturns(z)
    ensures NeverShows(z)
  {
    forall events, now, calls | RestartAfter(events, now, calls)
      ensures Invisible(z, events, now, calls)
    {
      RestartInvisible(z, events, now, calls);
    }
  }

  lemma ReturnNotHidden(z: Zone)
    requires Genuine(z) && !NoDateReturns(z)
    ensures !NeverShows(z)
  {
    var s, t, u :| s <= t <= u && z.localDay(s) == z.localDay(u) && z.localDay(t) != z.localDay(u);
    ReturnShows(z, s, t, u);
  }

  // No restart ever shows, whatever the history, the restart and the calls,
  // exactly in the zones in which no local date comes back.
  lemma RestartExact(z: Zone)
    requires Genuine(z)
    ensures NeverShows(z) <==> NoDateReturns(z)
  {
    if NoDateReturns(z) {
      NoReturnHides(z);
    } else {
      ReturnNotHidden(z);
    }
  }

  // A zone whose clocks go back over midnight is one in which it shows.
  lemma GoingBackShows()
    ensures Genuine(GOES_BACK) && !NeverShows(GOES_BACK)
  {
    GoesBackIsGenuine();
    ReturnNotHidden(GOES_BACK);
  }
}
