/**
 * Producer send quotas: rolling minute and local-day windows per (producer,
 * channel, class), the in-process tracker, and its snapshot in
 * `producer_usage` that a restart rebuilds from.
 */
module Quota {
  import opened Base

  // ------------------------------------------------------------------ time

  // What the tracker asks of a time zone: the local calendar day of an
  // instant, and the earliest instant of a day's local midnight, if that
  // wall-clock time exists. Days are numbered from the epoch.
  datatype Zone = Zone(localDay: Instant -> int, midnight: int -> Option<Instant>)

  function MinuteStart(now: Instant): Instant {
    now - now % MINUTE
  }

  // A midnight that does not exist falls back to the naive time read as UTC.
  function ResolveMidnight(z: Zone, day: int): Instant {
    match z.midnight(day)
    case Some(at) => at
    case None => day * DAY
  }

  function DayStart(z: Zone, now: Instant): Instant {
    ResolveMidnight(z, z.localDay(now))
  }

  function NextDayStart(z: Zone, now: Instant): Instant {
    ResolveMidnight(z, z.localDay(now) + 1)
  }

  ghost predicate PlacedAt(z: Zone, day: int, at: Instant) {
    && z.localDay(at) == day && (day - 1) * DAY < at < (day + 1) * DAY
    && forall t :: t < at ==> z.localDay(t) < day
  }

  // A midnight that exists is the first instant of its day, less than a day
  // from its reading as UTC. Midnights may be missing, and dates run back.
  ghost predicate Genuine(z: Zone) {
    forall day :: z.midnight(day).Some? ==> PlacedAt(z, day, z.midnight(day).value)
  }

  // Zone offsets are whole minutes.
  ghost predicate WholeMinutes(z: Zone) {
    forall day :: ResolveMidnight(z, day) % MINUTE == 0
  }

  lemma MinuteWindow(now: Instant, later: Instant)
    requires now <= later
    ensures MinuteStart(now) <= now < MinuteStart(now) + MINUTE
    ensures MinuteStart(MinuteStart(now) + MINUTE) == MinuteStart(now) + MINUTE
    ensures MinuteStart(now) <= MinuteStart(later)
  {
  }

  // Days keep their order, whichever midnights are missing.
  lemma MidnightsGrow(z: Zone, day: int, later: int)
    requires Genuine(z) && day < later
    ensures ResolveMidnight(z, day) < ResolveMidnight(z, later)
  {
    assert day * DAY < (day + 1) * DAY <= later * DAY;
    assert day * DAY <= (later - 1) * DAY;
    if z.midnight(day).Some? && z.midnight(later).Some? {
      assert PlacedAt(z, day, z.midnight(day).value) && PlacedAt(z, later, z.midnight(later).value);
    }
  }

  lemma SameMidnight(z: Zone, day: int, other: int)
    requires Genuine(z)
    ensures ResolveMidnight(z, day) == ResolveMidnight(z, other) <==> day == other
  {
    if day < other {
      MidnightsGrow(z, day, other);
    } else if other < day {
      MidnightsGrow(z, other, day);
    }
  }

  // Tomorrow's midnight, as the tracker takes it, is no later than now: the
  // date has already been there, or there is no such midnight and the UTC
  // date is there already.
  ghost predicate TomorrowPast(z: Zone, now: Instant) {
    var day := z.localDay(now);
    if z.midnight(day + 1).Some? then exists t :: t <= now && z.localDay(t) > day else now / DAY > day
  }

  // Today's midnight is yet to come: there is none, and the UTC date is
  // behind.
  predicate TodayAhead(z: Zone, now: Instant) {
    z.midnight(z.localDay(now)).None? && now / DAY < z.localDay(now)
  }

  lemma TomorrowExact(z: Zone, now: Instant)
    requires Genuine(z)
    ensures NextDayStart(z, now) > now <==> !TomorrowPast(z, now)
  {
    var day := z.localDay(now);
    if z.midnight(day + 1).Some? {
      var at := z.midnight(day + 1).value;
      assert PlacedAt(z, day + 1, at);
      if at <= now {
        assert z.localDay(at) > day;
      }
    }
  }

  // In any zone: a day window has begun, ends later, and hands over to the
  // next, exactly unless a missing midnight or a date run back is in the way.
  lemma DayWindow(z: Zone, now: Instant)
    requires Genuine(z)
    ensures DayStart(z, now) <= now <==> !TodayAhead(z, now)
    ensures now < NextDayStart(z, now) <==> !TomorrowPast(z, now)
    ensures var day := z.localDay(now);
            DayStart(z, NextDayStart(z, now)) == NextDayStart(z, now) <==>
            z.midnight(day + 1).Some? || z.localDay((day + 1) * DAY) == day + 1
  {
    var day := z.localDay(now);
    TomorrowExact(z, now);
    SameMidnight(z, z.localDay(NextDayStart(z, now)), day + 1);
    if z.midnight(day).Some? {
      assert PlacedAt(z, day, z.midnight(day).value);
    }
    if z.midnight(day + 1).Some? {
      assert PlacedAt(z, day + 1, z.midnight(day + 1).value);
    }
  }

  // ------------------------------------------------------- one key's counters

  datatype Window = Window(start: Option<Instant>, sent: nat, blocked: nat)

  datatype Counters = Counters(minute: Window, day: Window)

  const NO_WINDOW := Window(None, 0, 0)
  const NO_COUNTERS := Counters(NO_WINDOW, NO_WINDOW)

  // `hard` is `enforcement = 'hard'`; a limit that is absent is unlimited.
  datatype EffectiveQuota = EffectiveQuota(perMinute: Option<int>, perDay: Option<int>, hard: bool)

  datatype Decision = Admit | SoftBreach | Defer(at: Instant)

  function Roll(w: Window, start: Instant): Window {
    if w.start == Some(start) then w else Window(Some(start), 0, 0)
  }

  function RollBoth(z: Zone, c: Counters, now: Instant): Counters {
    Counters(Roll(c.minute, MinuteStart(now)), Roll(c.day, DayStart(z, now)))
  }

  function CountSend(c: Counters): Counters {
    Counters(c.minute.(sent := c.minute.sent + 1), c.day.(sent := c.day.sent + 1))
  }

  predicate Breached(limit: Option<int>, w: Window) {
    limit.Some? && w.sent >= limit.value
  }

  // The gate for one key. `quota` is `None` for the `auth` class and for a
  // key nobody configured: admitted, and still counted.
  function Check(z: Zone, quota: Option<EffectiveQuota>, c: Counters, now: Instant): (Counters, Decision) {
    var rolled := RollBoth(z, c, now);
    if quota.None? then (CountSend(rolled), Admit)
    else
      var dayBreach := Breached(quota.value.perDay, rolled.day);
      var minuteBreach := Breached(quota.value.perMinute, rolled.minute);
      if !dayBreach && !minuteBreach then (CountSend(rolled), Admit)
      else if !quota.value.hard then (CountSend(rolled), SoftBreach)
      else if dayBreach then
        (rolled.(day := rolled.day.(blocked := rolled.day.blocked + 1)), Defer(NextDayStart(z, now)))
      else
        (rolled.(minute := rolled.minute.(blocked := rolled.minute.blocked + 1)), Defer(MinuteStart(now) + MINUTE))
  }

  // --------------------------------------------------- a sequence of calls

  function After(z: Zone, quota: Option<EffectiveQuota>, c: Counters, nows: seq<Instant>): Counters {
    if nows == [] then c
    else
      var last := |nows| - 1;
      Check(z, quota, After(z, quota, c, nows[..last]), nows[last]).0
  }

  // The decision on the last call of a non-empty sequence.
  function LastDecision(z: Zone, quota: Option<EffectiveQuota>, c: Counters, nows: seq<Instant>): Decision
    requires nows != []
  {
    var last := |nows| - 1;
    Check(z, quota, After(z, quota, c, nows[..last]), nows[last]).1
  }

  ghost predicate NonDecreasing(nows: seq<Instant>) {
    forall i, j :: 0 <= i <= j < |nows| ==> nows[i] <= nows[j]
  }

  datatype Granularity = Minute | Day

  function StartOf(z: Zone, span: Granularity, now: Instant): Instant {
    if span.Minute? then MinuteStart(now) else DayStart(z, now)
  }

  function WindowOf(c: Counters, span: Granularity): Window {
    if span.Minute? then c.minute else c.day
  }

  function LimitOf(quota: EffectiveQuota, span: Granularity): Option<int> {
    if span.Minute? then quota.perMinute else quota.perDay
  }

  // Calls let through (admitted or past a soft limit) in one window.
  function SentIn(z: Zone, span: Granularity, quota: Option<EffectiveQuota>, nows: seq<Instant>, window: Instant): nat {
    if nows == [] then 0
    else
      var last := |nows| - 1;
      SentIn(z, span, quota, nows[..last], window) +
      if StartOf(z, span, nows[last]) == window && !LastDecision(z, quota, NO_COUNTERS, nows).Defer? then 1 else 0
  }

  // The calls never come back to a window they have left.
  ghost predicate Contiguous(z: Zone, span: Granularity, nows: seq<Instant>) {
    forall i, k, j :: 0 <= i <= k <= j < |nows| && StartOf(z, span, nows[i]) == StartOf(z, span, nows[j]) ==>
      StartOf(z, span, nows[k]) == StartOf(z, span, nows[i])
  }

  // No local date comes back after another.
  ghost predicate NoDateReturns(z: Zone) {
    forall s, t, u :: s <= t <= u && z.localDay(s) == z.localDay(u) ==> z.localDay(t) == z.localDay(u)
  }

  // No window of this span is come back to as time goes on.
  ghost predicate NoReturn(z: Zone, span: Granularity) {
    forall s, t, u :: s <= t <= u && StartOf(z, span, s) == StartOf(z, span, u) ==>
      StartOf(z, span, t) == StartOf(z, span, u)
  }

  lemma NoMinuteReturns(z: Zone)
    ensures NoReturn(z, Minute)
  {
    forall s, t, u | s <= t <= u && MinuteStart(s) == MinuteStart(u)
      ensures MinuteStart(t) == MinuteStart(u)
    {
      MinuteWindow(s, t);
      MinuteWindow(t, u);
    }
  }

  lemma NoDayReturns(z: Zone)
    requires Genuine(z) && NoDateReturns(z)
    ensures NoReturn(z, Day)
  {
    forall s, t, u | s <= t <= u && DayStart(z, s) == DayStart(z, u)
      ensures DayStart(z, t) == DayStart(z, u)
    {
      SameMidnight(z, z.localDay(s), z.localDay(u));
      assert z.localDay(t) == z.localDay(u);
    }
  }

  lemma OrderedContiguous(z: Zone, span: Granularity, nows: seq<Instant>)
    requires NoReturn(z, span) && NonDecreasing(nows)
    ensures Contiguous(z, span, nows)
  {
  }

  // Calls in the order of time never come back to a minute; they never come
  // back to a day exactly when no local date does.
  lemma InOrderContiguous(z: Zone)
    requires Genuine(z)
    ensures forall nows :: NonDecreasing(nows) ==> Contiguous(z, Minute, nows)
    ensures (forall nows :: NonDecreasing(nows) ==> Contiguous(z, Day, nows)) <==> NoDateReturns(z)
  {
    NoMinuteReturns(z);
    forall nows | NonDecreasing(nows) ensures Contiguous(z, Minute, nows) {
      OrderedContiguous(z, Minute, nows);
    }
    if NoDateReturns(z) {
      NoDayReturns(z);
      forall nows | NonDecreasing(nows) ensures Contiguous(z, Day, nows) {
        OrderedContiguous(z, Day, nows);
      }
    } else {
      var s, t, u :| s <= t <= u && z.localDay(s) == z.localDay(u) && z.localDay(t) != z.localDay(u);
      ReturnNotContiguous(z, s, t, u);
    }
  }

  lemma ReturnNotContiguous(z: Zone, s: Instant, t: Instant, u: Instant)
    requires Genuine(z) && s <= t <= u && z.localDay(s) == z.localDay(u) && z.localDay(t) != z.localDay(u)
    ensures NonDecreasing([s, t, u]) && !Contiguous(z, Day, [s, t, u])
  {
    var nows := [s, t, u];
    SameMidnight(z, z.localDay(t), z.localDay(s));
    assert StartOf(z, Day, nows[0]) == StartOf(z, Day, nows[2]) != StartOf(z, Day, nows[1]);
  }

  lemma {:induction false} NoneSent(z: Zone, span: Granularity, quota: Option<EffectiveQuota>, nows: seq<Instant>,
                                    window: Instant)
    requires forall k :: 0 <= k < |nows| ==> StartOf(z, span, nows[k]) != window
    ensures SentIn(z, span, quota, nows, window) == 0
  {
    if nows == [] {
    } else {
      NoneSent(z, span, quota, nows[..|nows| - 1], window);
    }
  }

  // Each window stands where the last call fell.
  lemma StandsAtLast(z: Zone, span: Granularity, quota: Option<EffectiveQuota>, nows: seq<Instant>)
    requires nows != []
    ensures WindowOf(After(z, quota, NO_COUNTERS, nows), span).start == Some(StartOf(z, span, nows[|nows| - 1]))
  {
  }

  // What the last call adds to the window it falls into.
  lemma CallCounted(z: Zone, span: Granularity, quota: Option<EffectiveQuota>, c: Counters, now: Instant)
    ensures var w := WindowOf(c, span);
            var sent := if w.start == Some(StartOf(z, span, now)) then w.sent else 0;
            var (after, decision) := Check(z, quota, c, now);
            WindowOf(after, span).sent == sent + if decision.Defer? then 0 else 1
  {
  }

  // After any calls each window's `sent` is exactly what was let through in
  // it, if the calls never came back to it.
  lemma {:induction false} SentExact(z: Zone, span: Granularity, quota: Option<EffectiveQuota>, nows: seq<Instant>)
    requires Contiguous(z, span, nows) && nows != []
    ensures var w, window := WindowOf(After(z, quota, NO_COUNTERS, nows), span), StartOf(z, span, nows[|nows| - 1]);
            w.start == Some(window) && w.sent == SentIn(z, span, quota, nows, window)
  {
    var last := |nows| - 1;
    var init, window := nows[..last], StartOf(z, span, nows[last]);
    StandsAtLast(z, span, quota, nows);
    CallCounted(z, span, quota, After(z, quota, NO_COUNTERS, init), nows[last]);
    if init == [] {
      NoneSent(z, span, quota, init, window);
    } else {
      StandsAtLast(z, span, quota, init);
      if StartOf(z, span, nows[last - 1]) == window {
        InitContiguous(z, span, nows);
        SentExact(z, span, quota, init);
      } else {
        NotBefore(z, span, nows);
        NoneSent(z, span, quota, init, window);
      }
    }
  }

  lemma InitContiguous(z: Zone, span: Granularity, nows: seq<Instant>)
    requires Contiguous(z, span, nows) && nows != []
    ensures Contiguous(z, span, nows[..|nows| - 1])
  {
  }

  lemma NotBefore(z: Zone, span: Granularity, nows: seq<Instant>)
    requires Contiguous(z, span, nows) && |nows| >= 2
    requires StartOf(z, span, nows[|nows| - 2]) != StartOf(z, span, nows[|nows| - 1])
    ensures forall k :: 0 <= k < |nows| - 1 ==> StartOf(z, span, nows[k]) != StartOf(z, span, nows[|nows| - 1])
  {
  }

  // A hard quota lets a call through only with room left in both windows.
  lemma LetThrough(z: Zone, span: Granularity, quota: EffectiveQuota, c: Counters, now: Instant)
    requires quota.hard
    ensures var (after, decision) := Check(z, Some(quota), c, now);
            && !decision.SoftBreach?
            && (decision.Admit? && LimitOf(quota, span).Some? ==>
                  WindowOf(after, span).sent <= LimitOf(quota, span).value)
  {
  }

  // With a hard quota no window lets more through than its limit.
  lemma {:induction false} HardBound(z: Zone, span: Granularity, quota: EffectiveQuota, nows: seq<Instant>, window: Instant)
    requires Contiguous(z, span, nows) && quota.hard
    requires LimitOf(quota, span).Some? && LimitOf(quota, span).value >= 0
    ensures SentIn(z, span, Some(quota), nows, window) <= LimitOf(quota, span).value
  {
    if nows == [] {
    } else {
      var last := |nows| - 1;
      InitContiguous(z, span, nows);
      HardBound(z, span, quota, nows[..last], window);
      SentExact(z, span, Some(quota), nows);
      LetThrough(z, span, quota, After(z, Some(quota), NO_COUNTERS, nows[..last]), nows[last]);
    }
  }

  // The same for a clock that does not run backwards, in a zone no date of
  // which comes back.
  lemma HardBoundInOrder(z: Zone, quota: EffectiveQuota, nows: seq<Instant>, window: Instant)
    requires NonDecreasing(nows) && quota.hard
    ensures quota.perMinute.Some? && quota.perMinute.value >= 0 ==>
              SentIn(z, Minute, Some(quota), nows, window) <= quota.perMinute.value
    ensures Genuine(z) && NoDateReturns(z) && quota.perDay.Some? && quota.perDay.value >= 0 ==>
              SentIn(z, Day, Some(quota), nows, window) <= quota.perDay.value
  {
    NoMinuteReturns(z);
    OrderedContiguous(z, Minute, nows);
    if quota.perMinute.Some? && quota.perMinute.value >= 0 {
      HardBound(z, Minute, quota, nows, window);
    }
    if Genuine(z) && NoDateReturns(z) && quota.perDay.Some? && quota.perDay.value >= 0 {
      NoDayReturns(z);
      OrderedContiguous(z, Day, nows);
      HardBound(z, Day, quota, nows, window);
    }
  }

  // ------------------------------------------- exactly when the bound holds

  // A hard quota with this one limit.
  function Only(span: Granularity, limit: nat): EffectiveQuota {
    if span.Minute? then EffectiveQuota(Some(limit), None, true) else EffectiveQuota(None, Some(limit), true)
  }

  ghost predicate Bounded(z: Zone, span: Granularity, nows: seq<Instant>, limit: nat) {
    forall window :: SentIn(z, span, Some(Only(span, limit)), nows, window) <= limit
  }

  // Call `n` enters its window anew.
  predicate Enters(z: Zone, span: Granularity, nows: seq<Instant>, n: nat)
    requires n < |nows|
  {
    n == 0 || StartOf(z, span, nows[n - 1]) != StartOf(z, span, nows[n])
  }

  lemma EntryCounts(z: Zone, span: Granularity, nows: seq<Instant>, n: nat)
    requires n < |nows| && Enters(z, span, nows, n)
    ensures var window := StartOf(z, span, nows[n]);
            var quota := Some(Only(span, 1));
            SentIn(z, span, quota, nows[..n + 1], window) == SentIn(z, span, quota, nows[..n], window) + 1
  {
    var quota, init := Some(Only(span, 1)), nows[..n];
    assert nows[..n + 1][..n] == init;
    if n > 0 {
      StandsAtLast(z, span, quota, init);
    }
    EntryAdmitted(z, span, After(z, quota, NO_COUNTERS, init), nows[n]);
  }

  lemma EntryAdmitted(z: Zone, span: Granularity, c: Counters, now: Instant)
    requires WindowOf(c, span).start != Some(StartOf(z, span, now))
    ensures Check(z, Some(Only(span, 1)), c, now).1 == Admit
  {
  }

  lemma {:induction false} SentGrows(z: Zone, span: Granularity, quota: Option<EffectiveQuota>, nows: seq<Instant>,
                                     m: nat, n: nat, window: Instant)
    requires m <= n <= |nows|
    ensures SentIn(z, span, quota, nows[..m], window) <= SentIn(z, span, quota, nows[..n], window)
    decreases n
  {
    if m == n {
    } else {
      SentGrows(z, span, quota, nows, m, n - 1, window);
      assert nows[..n][..n - 1] == nows[..n - 1];
    }
  }

  // The call at or before `j`, after `k`, that entered `j`'s window.
  lemma {:induction false} LastEntry(z: Zone, span: Granularity, nows: seq<Instant>, k: int, j: nat) returns (n: nat)
    requires -1 <= k < j < |nows|
    requires k >= 0 ==> StartOf(z, span, nows[k]) != StartOf(z, span, nows[j])
    ensures k < n <= j && Enters(z, span, nows, n) && StartOf(z, span, nows[n]) == StartOf(z, span, nows[j])
    decreases j
  {
    if Enters(z, span, nows, j) {
      n := j;
    } else {
      n := LastEntry(z, span, nows, k, j - 1);
    }
  }

  // Coming back to a window lets a limit of one be used twice in it.
  lemma ReturnDoubles(z: Zone, span: Granularity, nows: seq<Instant>, i: nat, k: nat, j: nat)
    requires i < k < j < |nows|
    requires StartOf(z, span, nows[i]) == StartOf(z, span, nows[j]) != StartOf(z, span, nows[k])
    ensures SentIn(z, span, Some(Only(span, 1)), nows, StartOf(z, span, nows[i])) >= 2
  {
    var m := LastEntry(z, span, nows, -1, i);
    var n := LastEntry(z, span, nows, k, j);
    EnteredTwice(z, span, nows, m, n, StartOf(z, span, nows[i]));
  }

  lemma EnteredTwice(z: Zone, span: Granularity, nows: seq<Instant>, m: nat, n: nat, window: Instant)
    requires m < n < |nows| && Enters(z, span, nows, m) && Enters(z, span, nows, n)
    requires StartOf(z, span, nows[m]) == window && StartOf(z, span, nows[n]) == window
    ensures SentIn(z, span, Some(Only(span, 1)), nows, window) >= 2
  {
    SentOnce(z, span, nows, m, n, window);
    SentAgain(z, span, nows, n, |nows|, window, 1);
    assert nows[..|nows|] == nows;
  }

  lemma SentOnce(z: Zone, span: Granularity, nows: seq<Instant>, m: nat, n: nat, window: Instant)
    requires m < n <= |nows| && Enters(z, span, nows, m) && StartOf(z, span, nows[m]) == window
    ensures SentIn(z, span, Some(Only(span, 1)), nows[..n], window) >= 1
  {
    SentAgain(z, span, nows, m, n, window, 0);
  }

  lemma SentAgain(z: Zone, span: Granularity, nows: seq<Instant>, n: nat, end: nat, window: Instant, sent: nat)
    requires n < end <= |nows| && Enters(z, span, nows, n) && StartOf(z, span, nows[n]) == window
    requires SentIn(z, span, Some(Only(span, 1)), nows[..n], window) >= sent
    ensures SentIn(z, span, Some(Only(span, 1)), nows[..end], window) >= sent + 1
  {
    EntryCounts(z, span, nows, n);
    SentGrows(z, span, Some(Only(span, 1)), nows, n + 1, end, window);
  }

  // A hard limit on calls at these times is kept, whatever the limit, exactly
  // when they never come back to a window they have left.
  lemma HardBoundExact(z: Zone, span: Granularity, nows: seq<Instant>)
    ensures (forall limit: nat :: Bounded(z, span, nows, limit)) <==> Contiguous(z, span, nows)
  {
    if Contiguous(z, span, nows) {
      forall limit: nat ensures Bounded(z, span, nows, limit) {
        OnlyBounded(z, span, nows, limit);
      }
    } else {
      NotBounded(z, span, nows);
    }
  }

  lemma NotBounded(z: Zone, span: Granularity, nows: seq<Instant>)
    requires !Contiguous(z, span, nows)
    ensures !Bounded(z, span, nows, 1)
  {
    var i, k, j :| 0 <= i <= k <= j < |nows| && StartOf(z, span, nows[i]) == StartOf(z, span, nows[j])
                   && StartOf(z, span, nows[k]) != StartOf(z, span, nows[i]);
    ReturnDoubles(z, span, nows, i, k, j);
  }

  lemma OnlyBounded(z: Zone, span: Granularity, nows: seq<Instant>, limit: nat)
    requires Contiguous(z, span, nows)
    ensures Bounded(z, span, nows, limit)
  {
    forall window ensures SentIn(z, span, Some(Only(span, limit)), nows, window) <= limit {
      HardBound(z, span, Only(span, limit), nows, window);
    }
  }

  const UTC := Zone(now => now / DAY, day => Some(day * DAY))

  // A clock that steps back one minute and forward again does it.
  lemma BackwardsClockDoubles()
    ensures SentIn(UTC, Minute, Some(EffectiveQuota(Some(1), None, true)), [MINUTE, 0, MINUTE], MINUTE) >= 2
  {
    ReturnDoubles(UTC, Minute, [MINUTE, 0, MINUTE], 0, 1, 2);
  }

  // ------------------------------------------------------- deferral progress

  // The day's limit is used up when the call comes.
  predicate DayBreached(z: Zone, quota: Option<EffectiveQuota>, c: Counters, now: Instant) {
    quota.Some? && Breached(quota.value.perDay, RollBoth(z, c, now).day)
  }

  // A deferral is to a later instant, in any zone, exactly unless the day's
  // limit is used up and tomorrow's midnight is already past.
  lemma DeferIsLater(z: Zone, quota: Option<EffectiveQuota>, c: Counters, now: Instant)
    requires Genuine(z)
    ensures var (_, decision) := Check(z, quota, c, now);
            decision.Defer? ==> (decision.at > now <==> !(DayBreached(z, quota, c, now) && TomorrowPast(z, now)))
  {
    MinuteWindow(now, now);
    TomorrowExact(z, now);
  }

  // A zone four hours west of UTC until it skips the midnight of day 1.
  const SKIPS := Zone(
    (now: Instant) => (if now < DAY + 4 * HOUR then now - 4 * HOUR else now - 3 * HOUR) / DAY,
    (day: int) => if day == 1 then None else if day < 1 then Some(day * DAY + 4 * HOUR) else Some(day * DAY + 3 * HOUR))

  lemma SkipsIsGenuine()
    ensures Genuine(SKIPS) && NoDateReturns(SKIPS)
  {
    forall day | SKIPS.midnight(day).Some?
      ensures PlacedAt(SKIPS, day, SKIPS.midnight(day).value)
    {
      SkipsPlaced(day);
    }
  }

  lemma SkipsPlaced(day: int)
    requires day != 1
    ensures PlacedAt(SKIPS, day, SKIPS.midnight(day).value)
  {
    var at := SKIPS.midnight(day).value;
    assert (day * DAY) / DAY == day;
    forall t | t < at
      ensures SKIPS.localDay(t) < day
    {
      assert SKIPS.localDay(t) * DAY < day * DAY;
    }
  }

  // An hour before the skip, with the day's limit used up, a call is put off
  // to three hours ago; called then, it is put off to the same time again.
  lemma SkippedMidnightDefersToThePast()
    ensures var now, c := DAY + 3 * HOUR, Counters(NO_WINDOW, Window(Some(4 * HOUR), 1, 0));
            var quota := Some(EffectiveQuota(None, Some(1), true));
            && Check(SKIPS, quota, c, now).1 == Defer(DAY) && DAY < now
            && Check(SKIPS, quota, Check(SKIPS, quota, c, now).0, DAY).1 == Defer(DAY)
  {
  }

  // A zone whose clocks go back an hour at one minute past midnight.
  const GOES_BACK := Zone(
    (now: Instant) => (if now < DAY + MINUTE then now else now - HOUR) / DAY,
    (day: int) => if day <= 1 then Some(day * DAY) else Some(day * DAY + HOUR))

  lemma GoesBackPlaced(day: int)
    ensures PlacedAt(GOES_BACK, day, GOES_BACK.midnight(day).value)
  {
    var at := GOES_BACK.midnight(day).value;
    assert (day * DAY) / DAY == day;
    forall t | t < at
      ensures GOES_BACK.localDay(t) < day
    {
      assert GOES_BACK.localDay(t) * DAY < day * DAY;
    }
  }

  lemma GoesBackIsGenuine()
    ensures Genuine(GOES_BACK) && !NoDateReturns(GOES_BACK)
  {
    forall day ensures PlacedAt(GOES_BACK, day, GOES_BACK.midnight(day).value) {
      GoesBackPlaced(day);
    }
    var evening := DAY + 2 * MINUTE;
    assert GOES_BACK.localDay(0) == 0 && GOES_BACK.localDay(evening) == 0 && GOES_BACK.localDay(DAY) == 1;
  }

  // Back on the evening before, with the day's limit used up, a call is put
  // off to the midnight already gone by.
  lemma DateRunBackDefersToThePast()
    ensures var now, c := DAY + 2 * MINUTE, Counters(NO_WINDOW, Window(Some(0), 1, 0));
            && Check(GOES_BACK, Some(EffectiveQuota(None, Some(1), true)), c, now).1 == Defer(DAY)
            && DAY < now
  {
  }

  // The deferred call, made at exactly the time it was deferred to with no
  // other call on the key in between, is admitted, in any zone, exactly when
  // the limits are positive, a minute window it shares with the breach has
  // room, and so has a day window it shares.
  lemma DeferredCallAdmitted(z: Zone, quota: EffectiveQuota, c: Counters, now: Instant)
    requires Check(z, Some(quota), c, now).1.Defer?
    ensures var (c1, decision) := Check(z, Some(quota), c, now);
            var positive := (quota.perMinute.Some? ==> quota.perMinute.value >= 1)
                            && (quota.perDay.Some? ==> quota.perDay.value >= 1);
            var sameMinute := MinuteStart(decision.at) == MinuteStart(now);
            var sameDay := DayStart(z, decision.at) == DayStart(z, now);
            Check(z, Some(quota), c1, decision.at).1 == Admit <==>
              && positive && (sameMinute ==> !Breached(quota.perMinute, c1.minute))
              && (sameDay ==> !Breached(quota.perDay, c1.day))
  {
  }

  // It shares the day of a day breach exactly if tomorrow's midnight is
  // missing and its UTC reading still falls on that day, and the minute only
  // if it is put off to the past or to a fraction of a minute.
  lemma DeferredWindows(z: Zone, quota: EffectiveQuota, c: Counters, now: Instant)
    requires Genuine(z) && Check(z, Some(quota), c, now).1.Defer?
    ensures var (c1, decision) := Check(z, Some(quota), c, now);
            var day := z.localDay(now);
            && (DayBreached(z, Some(quota), c, now) ==>
                  (DayStart(z, decision.at) == DayStart(z, now) <==>
                   z.midnight(day + 1).None? && z.localDay((day + 1) * DAY) == day))
            && (WholeMinutes(z) && decision.at > now ==> MinuteStart(decision.at) != MinuteStart(now))
  {
    var decision := Check(z, Some(quota), c, now).1;
    var day := z.localDay(now);
    MinuteWindow(now, now);
    SameMidnight(z, z.localDay(decision.at), day);
    if z.midnight(day + 1).Some? {
      assert PlacedAt(z, day + 1, z.midnight(day + 1).value);
    }
    if WholeMinutes(z) && decision.at == NextDayStart(z, now) {
      assert MinuteStart(decision.at) == decision.at;
    }
  }
}
