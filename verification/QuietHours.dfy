/** The quiet-hours window and the instant a message held by it moves to. */
module QuietHours {
  import opened Base

  const JITTER_MAX := 30 * MINUTE
  const MAX_GAP_SEARCH := 4 * HOUR

  datatype LocalResult = Gap | Single(at: Instant) | Ambiguous(earliest: Instant, latest: Instant)

  // A time zone: the wall clock of an instant (milliseconds from a local
  // epoch midnight) and the instants a wall-clock time stands for.
  datatype Clock = Clock(local: Instant -> int, resolve: int -> LocalResult)

  // Wall-clock times of day.
  datatype Policy = Policy(startLocal: int, endLocal: int)

  predicate ValidPolicy(p: Policy) {
    0 <= p.startLocal < DAY && 0 <= p.endLocal < DAY
  }

  function TimeOfDay(local: int): int {
    local % DAY
  }

  function Midnight(local: int): int {
    local - local % DAY
  }

  predicate Wraps(p: Policy) {
    p.startLocal > p.endLocal
  }

  predicate InWindow(p: Policy, local: int) {
    if Wraps(p) then TimeOfDay(local) >= p.startLocal || TimeOfDay(local) < p.endLocal
    else TimeOfDay(local) >= p.startLocal && TimeOfDay(local) < p.endLocal
  }

  // The wall-clock time the window that contains `local` ends at.
  function EndWallClock(p: Policy, local: int): int {
    Midnight(local) + (if Wraps(p) && TimeOfDay(local) >= p.startLocal then DAY else 0) + p.endLocal
  }

  // ------------------------------------------------------- wall clock to UTC

  // `k` minutes on is the first wall-clock time that exists.
  ghost predicate FirstExisting(c: Clock, wall: int, k: nat) {
    !c.resolve(wall + k * MINUTE).Gap? && forall j: nat :: j < k ==> c.resolve(wall + j * MINUTE).Gap?
  }

  function InstantOf(r: LocalResult): Instant
    requires !r.Gap?
  {
    if r.Single? then r.at else r.earliest
  }

  // Rounds a gap forward a minute at a time, for at most four hours: the
  // result is the first existing minute step, found within 241 tries.
  method ResolveLocal(c: Clock, wall: int) returns (r: Option<Instant>, tries: nat)
    ensures 1 <= tries <= 241
    ensures r.Some? <==> exists k: nat :: k <= 240 && FirstExisting(c, wall, k)
    ensures r.Some? ==> FirstExisting(c, wall, tries - 1) && r.value == InstantOf(c.resolve(wall + (tries - 1) * MINUTE))
  {
    var candidate := wall;
    var deadline := wall + MAX_GAP_SEARCH;
    tries := 1;
    while true
      invariant 1 <= tries <= 241 && candidate == wall + (tries - 1) * MINUTE
      invariant forall j: nat :: j < tries - 1 ==> c.resolve(wall + j * MINUTE).Gap?
      decreases 241 - tries
    {
      match c.resolve(candidate)
      case Single(at) =>
        assert FirstExisting(c, wall, tries - 1);
        return Some(at), tries;
      case Ambiguous(earliest, _) =>
        assert FirstExisting(c, wall, tries - 1);
        return Some(earliest), tries;
      case Gap =>
        candidate := candidate + MINUTE;
        if candidate > deadline {
          return None, tries;
        }
        tries := tries + 1;
    }
  }

  // What ResolveLocal returns, as a function.
  ghost function Resolved(c: Clock, wall: int): Option<Instant> {
    if exists k: nat :: k <= 240 && FirstExisting(c, wall, k)
    then var k: nat :| k <= 240 && FirstExisting(c, wall, k); Some(InstantOf(c.resolve(wall + k * MINUTE)))
    else None
  }

  lemma FirstExistingUnique(c: Clock, wall: int, k: nat, l: nat)
    requires FirstExisting(c, wall, k) && FirstExisting(c, wall, l)
    ensures k == l
  {
  }

  // The end of the quiet period `now` lies in, before jitter.
  ghost function QuietEnd(c: Clock, now: Instant, p: Policy): Option<Instant> {
    if InWindow(p, c.local(now)) then Resolved(c, EndWallClock(p, c.local(now))) else None
  }

  // What a message held by the window is rescheduled to, with this jitter.
  ghost function QuietUntil(c: Clock, now: Instant, p: Policy, jitter: nat): Option<Instant> {
    match QuietEnd(c, now, p)
    case None => None
    case Some(end) => Some(end + jitter)
  }

  // `zones` parses IANA names; an unknown customer zone falls back to the
  // tenant's, and with neither known the gate is skipped.
  method ResolveReschedule(now: Instant, customerTz: string, tenantTz: string, zones: string -> Option<Clock>,
                           p: Policy, jitter: nat)
    returns (at: Option<Instant>)
    requires jitter <= JITTER_MAX
    ensures zones(customerTz).None? && zones(tenantTz).None? ==> at.None?
    ensures zones(customerTz).Some? || zones(tenantTz).Some? ==>
              var c := if zones(customerTz).Some? then zones(customerTz).value else zones(tenantTz).value;
              at == QuietUntil(c, now, p, jitter)
  {
    var tz := if zones(customerTz).Some? then zones(customerTz) else zones(tenantTz);
    if tz.None? {
      return None;
    }
    var local := tz.value.local(now);
    if !InWindow(p, local) {
      return None;
    }
    var end, tries := ResolveLocal(tz.value, EndWallClock(p, local));
    if end.None? {
      return None;
    }
    ghost var wall := EndWallClock(p, local);
    forall k: nat | k <= 240 && FirstExisting(tz.value, wall, k)
      ensures k == tries - 1
    {
      FirstExistingUnique(tz.value, wall, k, tries - 1);
    }
    at := Some(end.value + jitter);
  }

  // ----------------------------------------------------------- fixed offsets

  function FixedOffset(offset: int): Clock {
    Clock(now => now + offset, wall => Single(wall - offset))
  }

  lemma WindowEnd(p: Policy, local: int)
    requires ValidPolicy(p) && InWindow(p, local)
    ensures local < EndWallClock(p, local) <= local + DAY
    ensures !InWindow(p, EndWallClock(p, local))
    ensures forall t :: local <= t < EndWallClock(p, local) ==> InWindow(p, t)
  {
    var end := EndWallClock(p, local);
    assert TimeOfDay(end) == p.endLocal;
    forall t | local <= t < end
      ensures InWindow(p, t)
    {
      SameOrNextDay(local, t);
    }
  }

  lemma SameOrNextDay(local: int, t: int)
    requires local <= t < Midnight(local) + 2 * DAY
    ensures Midnight(t) == Midnight(local) || Midnight(t) == Midnight(local) + DAY
    ensures t < Midnight(local) + DAY <==> Midnight(t) == Midnight(local)
  {
  }

  // In a zone of constant offset, whatever the policy (wrapping midnight or
  // not, or empty), the quiet period ends at the first instant after `now`
  // that is outside the window, at most a day away.
  lemma QuietEndExact(offset: int, now: Instant, p: Policy)
    requires ValidPolicy(p)
    ensures var c := FixedOffset(offset);
            var end := QuietEnd(c, now, p);
            && (end.None? <==> !InWindow(p, c.local(now)))
            && (end.Some? ==>
                  && now < end.value <= now + DAY
                  && !InWindow(p, c.local(end.value))
                  && forall t :: now <= t < end.value ==> InWindow(p, c.local(t)))
  {
    var c := FixedOffset(offset);
    if InWindow(p, c.local(now)) {
      var wall := EndWallClock(p, c.local(now));
      WindowEnd(p, c.local(now));
      assert FirstExisting(c, wall, 0);
      forall k: nat | FirstExisting(c, wall, k)
        ensures k == 0
      {
        FirstExistingUnique(c, wall, k, 0);
      }
      assert QuietEnd(c, now, p) == Some(wall - offset);
    }
  }

  // -------------------------------------------------------------- other zones

  // A wall-clock time resolves to the first instant that shows it, and is a
  // gap only if none does. Clocks never go back by a day or more.
  ghost predicate Faithful(c: Clock) {
    && (forall wall :: !c.resolve(wall).Gap? ==> c.local(InstantOf(c.resolve(wall))) == wall)
    && (forall t :: !c.resolve(c.local(t)).Gap? && InstantOf(c.resolve(c.local(t))) <= t)
    && (forall t, u :: t <= u ==> c.local(t) - c.local(u) < DAY)
  }

  ghost predicate NeverRunsBack(c: Clock) {
    forall t, u :: t <= u ==> c.local(t) <= c.local(u)
  }

  ghost predicate AlwaysEndsLater(c: Clock) {
    forall p, now, jitter: nat {:trigger QuietUntil(c, now, p, jitter)} ::
      ValidPolicy(p) && QuietUntil(c, now, p, jitter).Some? ==> QuietUntil(c, now, p, jitter).value > now
  }

  // The wall clock already showed this time, at `now` or before.
  ghost predicate Shown(c: Clock, wall: int, now: Instant) {
    exists t :: t <= now && c.local(t) == wall
  }

  // For one call: the message moves to a later time exactly when the wall
  // clock had not shown the end of the window, gaps rounded up, by as long
  // ago as the jitter.
  lemma EndsLaterHere(c: Clock, now: Instant, p: Policy, jitter: nat, k: nat)
    requires Faithful(c) && InWindow(p, c.local(now))
    requires k <= 240 && FirstExisting(c, EndWallClock(p, c.local(now)), k)
    ensures QuietUntil(c, now, p, jitter).Some?
    ensures QuietUntil(c, now, p, jitter).value > now <==>
            !Shown(c, EndWallClock(p, c.local(now)) + k * MINUTE, now - jitter)
  {
    var wall := EndWallClock(p, c.local(now));
    forall l: nat | FirstExisting(c, wall, l) ensures l == k {
      FirstExistingUnique(c, wall, k, l);
    }
    var end := QuietEnd(c, now, p).value;
    assert end == InstantOf(c.resolve(wall + k * MINUTE));
    assert c.local(end) == wall + k * MINUTE;
    if t :| t <= now - jitter && c.local(t) == wall + k * MINUTE {
      assert InstantOf(c.resolve(c.local(t))) <= t;
    }
  }

  lemma EndsLater(c: Clock, now: Instant, p: Policy, jitter: nat)
    requires Faithful(c) && NeverRunsBack(c) && ValidPolicy(p) && QuietUntil(c, now, p, jitter).Some?
    ensures QuietUntil(c, now, p, jitter).value > now
  {
    WindowEnd(p, c.local(now));
    var wall := EndWallClock(p, c.local(now));
    var k: nat :| k <= 240 && FirstExisting(c, wall, k);
    EndsLaterHere(c, now, p, jitter, k);
  }

  // The policy whose window opens at one wall-clock time and closes at a
  // later one less than a day on.
  function Between(from: int, to: int): Policy {
    Policy(TimeOfDay(from), TimeOfDay(to))
  }

  lemma BetweenEnds(from: int, to: int)
    requires from < to < from + DAY
    ensures ValidPolicy(Between(from, to)) && InWindow(Between(from, to), from)
    ensures EndWallClock(Between(from, to), from) == to
  {
    SameOrNextDay(from, to);
  }

  lemma RunningBackFails(c: Clock, t: Instant, u: Instant)
    requires Faithful(c) && t <= u && c.local(t) > c.local(u)
    ensures var p := Between(c.local(u), c.local(t));
            ValidPolicy(p) && QuietUntil(c, u, p, 0).Some? && QuietUntil(c, u, p, 0).value <= u
  {
    BetweenEnds(c.local(u), c.local(t));
    assert c.local(t) + 0 * MINUTE == c.local(t);
    assert FirstExisting(c, c.local(t), 0);
    EndsLaterHere(c, u, Between(c.local(u), c.local(t)), 0, 0);
  }

  // Every message held by a window moves to a later time, in a zone and for
  // all policies and jitters, exactly when its clock never runs backwards.
  lemma EndsLaterExact(c: Clock)
    requires Faithful(c)
    ensures AlwaysEndsLater(c) <==> NeverRunsBack(c)
  {
    if NeverRunsBack(c) {
      forall p, now, jitter: nat | ValidPolicy(p) && QuietUntil(c, now, p, jitter).Some?
        ensures QuietUntil(c, now, p, jitter).value > now
      {
        EndsLater(c, now, p, jitter);
      }
    } else {
      var t, u :| t <= u && c.local(t) > c.local(u);
      RunningBackFails(c, t, u);
    }
  }

  // Clocks go back from 02:00 to 01:00 at 01:00 UTC.
  const AUTUMN := Clock(
    (now: Instant) => if now < HOUR then now + HOUR else now,
    (wall: int) => if HOUR <= wall < 2 * HOUR then Ambiguous(wall - HOUR, wall)
                   else if wall < HOUR then Single(wall - HOUR) else Single(wall))

  // In the second pass through the repeated hour the end of the window is
  // taken in the first pass, and no jitter brings it back to the present.
  lemma FallBackReschedulesIntoThePast()
    ensures var p, now := Policy(0, 90 * MINUTE), 75 * MINUTE;
            && QuietEnd(AUTUMN, now, p) == Some(30 * MINUTE)
            && 30 * MINUTE + JITTER_MAX < now
  {
    var wall := 90 * MINUTE;
    assert FirstExisting(AUTUMN, wall, 0);
    forall k: nat | FirstExisting(AUTUMN, wall, k)
      ensures k == 0
    {
      FirstExistingUnique(AUTUMN, wall, k, 0);
    }
  }

  lemma AutumnIsFaithful()
    ensures Faithful(AUTUMN) && !NeverRunsBack(AUTUMN)
  {
    assert AUTUMN.local(HOUR - 1) > AUTUMN.local(HOUR);
  }
}
