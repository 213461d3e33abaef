/** The tracker object: configuration, counters, flush and rebuild. */
module QuotaTracker {
  import opened Base
  import opened Quota
  import opened QuotaRestart

  // (producer_id, channel, class)
  type Key = (Uuid, string, string)

  const AUTH := "auth"

  datatype QuotaRow = QuotaRow(key: Key, perMinute: Option<int>, perDay: Option<int>, hard: bool)

  datatype OverrideRow = OverrideRow(key: Key, perDay: int, validFrom: Instant, validTo: Instant)

  // producer_usage, all keys.
  type UsageTable = map<(Key, Granularity, Instant), (nat, nat)>

  function KeyUsage(table: UsageTable, key: Key): Usage {
    map e: (Key, Granularity, Instant) | e in table && e.0 == key :: (e.1, e.2) := table[e]
  }

  function CountersOf(counters: map<Key, Counters>, key: Key): Counters {
    if key in counters then counters[key] else NO_COUNTERS
  }

  function QuotaFor(config: map<Key, EffectiveQuota>, key: Key): Option<EffectiveQuota> {
    if key.2 == AUTH || key !in config then None else Some(config[key])
  }

  // --------------------------------------------------------- configuration

  function BaseConfig(quotas: seq<QuotaRow>): map<Key, EffectiveQuota> {
    if quotas == [] then map[]
    else
      var last := quotas[|quotas| - 1];
      BaseConfig(quotas[..|quotas| - 1])[last.key := EffectiveQuota(last.perMinute, last.perDay, last.hard)]
  }

  function Raise(q: EffectiveQuota, perDay: int): EffectiveQuota {
    q.(perDay := Some(if q.perDay.Some? then Max(q.perDay.value, perDay) else perDay))
  }

  function WithOverrides(config: map<Key, EffectiveQuota>, overrides: seq<OverrideRow>): map<Key, EffectiveQuota> {
    if overrides == [] then config
    else
      var last := overrides[|overrides| - 1];
      var before := WithOverrides(config, overrides[..|overrides| - 1]);
      if last.key in before then before[last.key := Raise(before[last.key], last.perDay)] else before
  }

  predicate IsActive(o: OverrideRow, now: Instant) {
    o.validFrom <= now < o.validTo
  }

  // The overrides of the table that are active now.
  function Active(table: seq<OverrideRow>, now: Instant): (active: seq<OverrideRow>)
    ensures forall o :: o in active <==> o in table && IsActive(o, now)
  {
    if table == [] then []
    else
      var last := table[|table| - 1];
      Active(table[..|table| - 1], now) + if IsActive(last, now) then [last] else []
  }

  lemma OneMoreActive(config: map<Key, EffectiveQuota>, table: seq<OverrideRow>, now: Instant, i: nat)
    requires i < |table|
    ensures var o := table[i];
            var before := WithOverrides(config, Active(table[..i], now));
            WithOverrides(config, Active(table[..i + 1], now))
            == if IsActive(o, now) && o.key in before then before[o.key := Raise(before[o.key], o.perDay)] else before
  {
    var active := Active(table[..i], now);
    assert table[..i + 1][..i] == table[..i];
    assert (active + [table[i]])[..|active|] == active;
    assert active + [] == active;
  }

  predicate Overridden(overrides: seq<OverrideRow>, key: Key) {
    exists o :: o in overrides && o.key == key
  }

  // What an active override does to a key: nothing without a base row; a
  // set ceiling becomes the highest of base and overrides; an unlimited key
  // gets a ceiling it did not have.
  lemma {:induction false} OverrideEffect(config: map<Key, EffectiveQuota>, overrides: seq<OverrideRow>, key: Key)
    ensures key in WithOverrides(config, overrides) <==> key in config
    ensures key in config ==>
              var base, q := config[key], WithOverrides(config, overrides)[key];
              && q.perMinute == base.perMinute && q.hard == base.hard
              && (!Overridden(overrides, key) ==> q == base)
              && (Overridden(overrides, key) ==>
                    && q.perDay.Some?
                    && (base.perDay.Some? ==> q.perDay.value >= base.perDay.value)
                    && (forall o :: o in overrides && o.key == key ==> q.perDay.value >= o.perDay)
                    && (q.perDay == base.perDay || exists o :: o in overrides && o.key == key && q.perDay.value == o.perDay))
  {
    if overrides == [] {
    } else {
      var last := |overrides| - 1;
      OverrideEffect(config, overrides[..last], key);
      assert overrides == overrides[..last] + [overrides[last]];
    }
  }

  predicate AllowsDay(q: EffectiveQuota, sent: nat) {
    q.perDay.Some? ==> sent < q.perDay.value
  }

  // "An override only ever raises a ceiling" holds exactly for keys that
  // have a daily ceiling, or no override.
  lemma OverrideOnlyRaises(config: map<Key, EffectiveQuota>, overrides: seq<OverrideRow>, key: Key)
    requires key in config
    ensures key in WithOverrides(config, overrides)
    ensures (forall sent: nat :: AllowsDay(config[key], sent) ==> AllowsDay(WithOverrides(config, overrides)[key], sent))
            <==> config[key].perDay.Some? || !Overridden(overrides, key)
  {
    OverrideEffect(config, overrides, key);
    var q := WithOverrides(config, overrides)[key];
    if config[key].perDay.None? && Overridden(overrides, key) {
      var sent: nat := if q.perDay.value >= 0 then q.perDay.value else 0;
      assert AllowsDay(config[key], sent) && !AllowsDay(q, sent);
    }
  }

  // An unlimited key with an override of 5 stops at the fifth send of a day.
  lemma OverrideCanLower()
    ensures var key := (1, "sms", "marketing");
            var config: map<Key, EffectiveQuota> := map[key := EffectiveQuota(None, None, true)];
            var after := WithOverrides(config, [OverrideRow(key, 5, 0, DAY)]);
            key in after && AllowsDay(config[key], 5) && !AllowsDay(after[key], 5)
  {
    var key := (1, "sms", "marketing");
    var config: map<Key, EffectiveQuota> := map[key := EffectiveQuota(None, None, true)];
    assert [OverrideRow(key, 5, 0, DAY)][..0] == [];
    assert WithOverrides(config, []) == config;
  }

  class Tracker {
    const zone: Zone
    var config: map<Key, EffectiveQuota>
    var counters: map<Key, Counters>

    constructor (zone: Zone)
      ensures this.zone == zone && config == map[] && counters == map[]
    {
      this.zone, config, counters := zone, map[], map[];
    }

    // `table` is producer_quota_override, `now` the clock of the refresh.
    method RefreshConfig(quotas: seq<QuotaRow>, table: seq<OverrideRow>, now: Instant)
      modifies this`config
      ensures config == WithOverrides(BaseConfig(quotas), Active(table, now))
    {
      var merged: map<Key, EffectiveQuota> := map[];
      for i := 0 to |quotas|
        invariant merged == BaseConfig(quotas[..i])
      {
        var q := quotas[i];
        merged := merged[q.key := EffectiveQuota(q.perMinute, q.perDay, q.hard)];
        assert quotas[..i + 1][..i] == quotas[..i];
      }
      assert quotas[..|quotas|] == quotas;
      for i := 0 to |table|
        invariant merged == WithOverrides(BaseConfig(quotas), Active(table[..i], now))
      {
        var o := table[i];
        OneMoreActive(BaseConfig(quotas), table, now, i);
        if IsActive(o, now) && o.key in merged {
          merged := merged[o.key := Raise(merged[o.key], o.perDay)];
        }
      }
      assert table[..|table|] == table;
      config := merged;
    }

    method CheckAndRecord(key: Key, now: Instant) returns (decision: Decision)
      modifies this`counters
      ensures key in counters
      ensures (counters[key], decision) ==
              Check(zone, QuotaFor(config, key), CountersOf(old(counters), key), now)
      ensures counters == old(counters)[key := counters[key]]
    {
      if key.2 == AUTH || key !in config {
        RecordAdmit(key, now);
        return Admit;
      }
      var quota := config[key];
      var entry := if key in counters then counters[key] else NO_COUNTERS;
      entry := entry.(minute := Roll(entry.minute, MinuteStart(now)));
      entry := entry.(day := Roll(entry.day, DayStart(zone, now)));

      var dayBreach := quota.perDay.Some? && entry.day.sent >= quota.perDay.value;
      var minuteBreach := quota.perMinute.Some? && entry.minute.sent >= quota.perMinute.value;
      if dayBreach || minuteBreach {
        if quota.hard {
          if dayBreach {
            entry := entry.(day := entry.day.(blocked := entry.day.blocked + 1));
            counters := counters[key := entry];
            return Defer(NextDayStart(zone, now));
          }
          entry := entry.(minute := entry.minute.(blocked := entry.minute.blocked + 1));
          counters := counters[key := entry];
          return Defer(MinuteStart(now) + MINUTE);
        }
        counters := counters[key := CountSend(entry)];
        return SoftBreach;
      }
      counters := counters[key := CountSend(entry)];
      decision := Admit;
    }

    method RecordAdmit(key: Key, now: Instant)
      modifies this`counters
      ensures counters == old(counters)[key := Check(zone, None, CountersOf(old(counters), key), now).0]
    {
      var entry := if key in counters then counters[key] else NO_COUNTERS;
      entry := entry.(minute := Roll(entry.minute, MinuteStart(now)));
      entry := entry.(day := Roll(entry.day, DayStart(zone, now)));
      counters := counters[key := CountSend(entry)];
    }

    // The table after every tracked key's windows are written over it.
    method Flush(table: UsageTable) returns (after: UsageTable)
      ensures forall key: Key :: KeyFlushed(table, after, counters, {}, key)
    {
      after := table;
      var left := counters.Keys;
      while left != {}
        invariant left <= counters.Keys
        invariant forall key: Key :: KeyFlushed(table, after, counters, left, key)
        decreases |left|
      {
        var key :| key in left;
        FlushStep(table, after, counters, left, key);
        after := WriteWindow(after, key, Minute, counters[key].minute);
        after := WriteWindow(after, key, Day, counters[key].day);
        left := left - {key};
      }
    }

    // Seeds the counters from the current windows' rows; a window without a
    // row keeps whatever the tracker held.
    method RebuildFromDb(table: UsageTable, now: Instant)
      modifies this`counters
      ensures forall key: Key ::
                CountersOf(counters, key) == Seeded(zone, table, CountersOf(old(counters), key), key, now)
    {
      var minuteStart, dayStart := MinuteStart(now), DayStart(zone, now);
      var rows := set e | e in table && ((e.1 == Minute && e.2 == minuteStart) || (e.1 == Day && e.2 == dayStart));
      ghost var all := rows;
      while rows != {}
        invariant rows <= all
        invariant forall key: Key ::
                    CountersOf(counters, key) == SeededBy(all - rows, table, CountersOf(old(counters), key), key, minuteStart, dayStart)
        decreases |rows|
      {
        var e :| e in rows;
        var entry := if e.0 in counters then counters[e.0] else NO_COUNTERS;
        var w := Window(Some(e.2), table[e].0, table[e].1);
        entry := if e.1 == Minute then entry.(minute := w) else entry.(day := w);
        counters := counters[e.0 := entry];
        rows := rows - {e};
      }
      assert all - rows == all;
    }
  }

  function WriteWindow(table: UsageTable, key: Key, g: Granularity, w: Window): UsageTable {
    if w.start.None? then table else table[(key, g, w.start.value) := (w.sent, w.blocked)]
  }

  // A tracked key outside `left` has its two windows written; every other
  // key's rows are as they were.
  ghost predicate KeyFlushed(table: UsageTable, after: UsageTable, counters: map<Key, Counters>, left: set<Key>, key: Key)
  {
    KeyUsage(after, key) ==
    if key in counters && key !in left then FlushBoth(KeyUsage(table, key), counters[key]) else KeyUsage(table, key)
  }

  lemma FlushStep(table: UsageTable, before: UsageTable, counters: map<Key, Counters>, left: set<Key>, key: Key)
    requires key in left && key in counters && forall other: Key :: KeyFlushed(table, before, counters, left, other)
    ensures var after := WriteWindow(WriteWindow(before, key, Minute, counters[key].minute), key, Day, counters[key].day);
            forall other: Key :: KeyFlushed(table, after, counters, left - {key}, other)
  {
    var after := WriteWindow(WriteWindow(before, key, Minute, counters[key].minute), key, Day, counters[key].day);
    forall other: Key ensures KeyFlushed(table, after, counters, left - {key}, other) {
      assert KeyFlushed(table, before, counters, left, other);
      WriteBothAt(before, key, counters[key], other);
    }
  }

  lemma WriteBothAt(before: UsageTable, key: Key, c: Counters, other: Key)
    ensures KeyUsage(WriteWindow(WriteWindow(before, key, Minute, c.minute), key, Day, c.day), other) ==
            if other == key then FlushBoth(KeyUsage(before, key), c) else KeyUsage(before, other)
  {
    WriteWindowAt(before, key, Minute, c.minute, other);
    WriteWindowAt(WriteWindow(before, key, Minute, c.minute), key, Day, c.day, other);
  }

  lemma WriteWindowAt(table: UsageTable, key: Key, g: Granularity, w: Window, other: Key)
    ensures KeyUsage(WriteWindow(table, key, g, w), other) ==
            if other == key then FlushWindow(KeyUsage(table, key), g, w) else KeyUsage(table, other)
  {
  }

  // The counters a rebuild gives a key that held `c`.
  function Seeded(z: Zone, table: UsageTable, c: Counters, key: Key, now: Instant): Counters {
    SeededBy(table.Keys, table, c, key, MinuteStart(now), DayStart(z, now))
  }

  function SeededBy(rows: set<(Key, Granularity, Instant)>, table: UsageTable, c: Counters, key: Key,
                    minuteStart: Instant, dayStart: Instant): Counters
  {
    Counters(SeedWindow(rows, table, c.minute, (key, Minute, minuteStart)),
             SeedWindow(rows, table, c.day, (key, Day, dayStart)))
  }

  function SeedWindow(rows: set<(Key, Granularity, Instant)>, table: UsageTable, w: Window,
                      e: (Key, Granularity, Instant)): Window
  {
    if e in rows && e in table then Window(Some(e.2), table[e].0, table[e].1) else w
  }

  // On a fresh tracker a rebuild is each key's own rebuild.
  lemma SeededFresh(z: Zone, table: UsageTable, key: Key, now: Instant)
    ensures Seeded(z, table, NO_COUNTERS, key, now) == Rebuild(z, KeyUsage(table, key), now)
  {
  }
}
