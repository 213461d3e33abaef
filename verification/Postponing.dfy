/**
 * Where a deferral to the past comes from: the answers of the quota and
 * quiet-hours gates put together with the drain.
 */
module Postponing {
  import opened Base
  import opened KillSwitch
  import opened Outbox
  import opened Delivery
  import opened Gates
  import opened Drain
  import Quota
  import opened QuietHours

  function QuotaAnswerOf(d: Quota.Decision): QuotaAnswer {
    match d
    case Admit => QuotaAnswer.Admit
    case SoftBreach => QuotaAnswer.SoftBreach
    case Defer(at) => DeferUntil(at)
  }

  // The two deferring gates asked at `now`: the tracker for this key, and the
  // quiet-hours window in the customer's zone.
  ghost predicate AnsweredBy(a: Answers, now: Instant, z: Quota.Zone, quota: Option<Quota.EffectiveQuota>,
                             counters: Quota.Counters, c: Clock, p: Policy, jitter: nat)
  {
    && a.quota == QuotaAnswerOf(Quota.Check(z, quota, counters, now).1)
    && a.quietUntil == QuietUntil(c, now, p, jitter)
  }

  // By as long ago as the jitter, the wall clock had shown the end of the
  // window, gaps rounded up.
  ghost predicate EndShown(c: Clock, now: Instant, p: Policy, jitter: nat) {
    var end := EndWallClock(p, c.local(now));
    exists k: nat :: k <= 240 && FirstExisting(c, end, k) && Shown(c, end + k * MINUTE, now - jitter)
  }

  lemma QuietComesBack(c: Clock, now: Instant, p: Policy, jitter: nat)
    requires Faithful(c) && QuietUntil(c, now, p, jitter).Some?
    ensures QuietUntil(c, now, p, jitter).value <= now <==> EndShown(c, now, p, jitter)
  {
    var end := EndWallClock(p, c.local(now));
    var k: nat :| k <= 240 && FirstExisting(c, end, k);
    EndsLaterHere(c, now, p, jitter, k);
    forall l: nat | l <= 240 && FirstExisting(c, end, l)
      ensures l == k
    {
      FirstExistingUnique(c, end, k, l);
    }
  }

  // A deferred row comes back at once exactly when the gate that put it off
  // meets its own condition on the clock: for the quota, the day's limit used
  // up with tomorrow's midnight already past; for quiet hours, the end of the
  // window already shown, longer ago than the jitter.
  lemma ComesBackExact(row: OutboxRow, now: Instant, a: Answers, z: Quota.Zone, quota: Option<Quota.EffectiveQuota>,
                       counters: Quota.Counters, c: Clock, p: Policy, jitter: nat)
    requires Quota.Genuine(z) && Faithful(c) && AnsweredBy(a, now, z, quota, counters, c, p, jitter)
    ensures ComesBack(row, now, a) <==>
            && Gate(row, now, a).0.Deferred?
            && if a.quota.DeferUntil? then Quota.DayBreached(z, quota, counters, now) && Quota.TomorrowPast(z, now)
               else EndShown(c, now, p, jitter)
  {
    Quota.DeferIsLater(z, quota, counters, now);
    if QuietUntil(c, now, p, jitter).Some? {
      QuietComesBack(c, now, p, jitter);
    }
  }

  // Where the wall clock never runs back and tomorrow's midnight is ahead,
  // nothing is put off to the past, so every turn of a drain that takes a row
  // makes progress.
  lemma NeverComesBack(row: OutboxRow, now: Instant, a: Answers, z: Quota.Zone, quota: Option<Quota.EffectiveQuota>,
                       counters: Quota.Counters, c: Clock, p: Policy, jitter: nat)
    requires Quota.Genuine(z) && AnsweredBy(a, now, z, quota, counters, c, p, jitter) && !Quota.TomorrowPast(z, now)
    requires Faithful(c) && NeverRunsBack(c) && ValidPolicy(p)
    ensures !ComesBack(row, now, a)
  {
    Quota.DeferIsLater(z, quota, counters, now);
    if QuietUntil(c, now, p, jitter).Some? {
      EndsLater(c, now, p, jitter);
    }
  }

  const ROW := OutboxRow(Target("sms", 5, None), Transactional, 1, 0, None, None, 0, None)

  // The second pass through an autumn hour: the window ended in the first.
  const NOW := 75 * MINUTE
  const AUTUMN_ANSWERS := Answers(
    _ => false, false, true, false, true, QuotaAnswer.Admit, true, Some(30 * MINUTE + JITTER_MAX), Retryable, false, 0, 0, 0)
  const AUTUMN_DRAIN := DrainTask(
    _ => None, "sms", Switch(1, Global, None, Hold), NOW, NOW + 1, _ => AUTUMN_ANSWERS, (_, _) => false)

  // Quiet hours as they answer there, with the greatest jitter, hand a drain
  // its own row back: the turn leaves the backlog as it was, one attempt on.
  lemma AutumnTurnWithoutProgress(t: Tables)
    requires t.outbox == map[1 := ROW]
    ensures AnsweredBy(AUTUMN_ANSWERS, NOW, Quota.UTC, None, Quota.NO_COUNTERS, AUTUMN, Policy(0, 90 * MINUTE),
                       JITTER_MAX)
    ensures TurnDone(AUTUMN_DRAIN, t, AUTUMN_DRAIN.Once(t, 1), {1})
    ensures AUTUMN_DRAIN.Backlog(t) == {1} && AUTUMN_DRAIN.Backlog(AUTUMN_DRAIN.Once(t, 1)) == {1}
    ensures 1 in AUTUMN_DRAIN.Once(t, 1).outbox && AUTUMN_DRAIN.Once(t, 1).outbox[1].attempts == 1
  {
    FallBackReschedulesIntoThePast();
    assert AUTUMN_DRAIN.Backlog(t) == {1};
    LoneRowReturns(AUTUMN_DRAIN, t, 1);
    OnceReturns(AUTUMN_DRAIN, t, 1);
  }

  // The evening before a skipped midnight, the day's limit used up.
  const EVENING := DAY + 3 * HOUR
  const USED_UP := Quota.Counters(Quota.NO_WINDOW, Quota.Window(Some(4 * HOUR), 1, 0))
  const ONE_A_DAY := Quota.EffectiveQuota(None, Some(1), true)
  const EVENING_ANSWERS := Answers(
    _ => false, false, true, false, true, DeferUntil(DAY), false, None, Retryable, false, 0, 0, 0)
  const EVENING_DRAIN := DrainTask(
    _ => None, "sms", Switch(1, Global, None, Hold), EVENING, EVENING + 1, _ => EVENING_ANSWERS, (_, _) => false)

  // The quota as it answers there does the same.
  lemma SkippedMidnightTurnWithoutProgress(t: Tables)
    requires t.outbox == map[1 := ROW]
    ensures EVENING_ANSWERS.quota == QuotaAnswerOf(Quota.Check(Quota.SKIPS, Some(ONE_A_DAY), USED_UP, EVENING).1)
    ensures TurnDone(EVENING_DRAIN, t, EVENING_DRAIN.Once(t, 1), {1})
    ensures EVENING_DRAIN.Backlog(t) == {1} && EVENING_DRAIN.Backlog(EVENING_DRAIN.Once(t, 1)) == {1}
    ensures 1 in EVENING_DRAIN.Once(t, 1).outbox && EVENING_DRAIN.Once(t, 1).outbox[1].attempts == 1
  {
    Quota.SkippedMidnightDefersToThePast();
    assert EVENING_DRAIN.Backlog(t) == {1};
    LoneRowReturns(EVENING_DRAIN, t, 1);
    OnceReturns(EVENING_DRAIN, t, 1);
  }
}
