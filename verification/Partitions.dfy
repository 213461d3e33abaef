/**
 * The monthly partitions of the ledger tables: created ahead, moved to the
 * cold tablespace after 18 months, dropped past the tenant's retention.
 */
module Partitions {
  import opened Base

  const MOVE_AFTER_MONTHS := 18
  const COLD_TABLESPACE := "messgr_cold"
  const COMMS_REQUEST := "comms_request"
  const COMMS_EVENT := "comms_event"

  // A month is its number, year * 12 + (month - 1); that number stands for
  // its first day.
  type Month = int

  function YearOf(m: Month): int {
    m / 12
  }

  function MonthOf(m: Month): int {
    m % 12 + 1
  }

  // ------------------------------------------------------------------ names

  function Digit(d: int): char
    requires 0 <= d <= 9
  {
    '0' + d as char
  }

  predicate IsDigit(c: char) {
    '0' <= c <= '9'
  }

  function DigitValue(c: char): int
    requires IsDigit(c)
  {
    c as int - '0' as int
  }

  // Decimal digits, zero-padded on the left to at least `width`.
  function Padded(n: nat, width: nat): (s: string)
    ensures |s| >= width && |s| >= 1
    ensures forall k :: 0 <= k < |s| ==> IsDigit(s[k])
    decreases n, width
  {
    if n < 10 && width <= 1 then [Digit(n)]
    else Padded(n / 10, if width == 0 then 0 else width - 1) + [Digit(n % 10)]
  }

  function Value(s: string): (n: nat)
    requires forall k :: 0 <= k < |s| ==> IsDigit(s[k])
  {
    if s == "" then 0
    else 10 * Value(s[..|s| - 1]) + DigitValue(s[|s| - 1])
  }

  // The width counts the sign: year -7 prints as "-007".
  function YearText(y: int): string {
    if y >= 0 then Padded(y, 4) else "-" + Padded(-y, 3)
  }

  function PartitionName(table: string, m: Month): string {
    table + "_" + YearText(YearOf(m)) + "_" + Padded(MonthOf(m), 2)
  }

  function StripPrefix(s: string, prefix: string): (r: Option<string>)
    ensures r.Some? <==> prefix <= s
    ensures r.Some? ==> s == prefix + r.value
  {
    if prefix <= s then Some(s[|prefix|..]) else None
  }

  predicate AllDigits(s: string) {
    forall k :: 0 <= k < |s| ==> IsDigit(s[k])
  }

  function ParseSuffix(suffix: string): Option<Month> {
    match SplitOnce(suffix, '_')
    case None => None
    case Some((year, month)) =>
      if |year| != 4 || |month| != 2 || !AllDigits(year) || !AllDigits(month) then None
      else if 1 <= Value(month) <= 12 then Some(Value(year) * 12 + Value(month) - 1)
      else None
  }

  function ParseMonth(table: string, relname: string): Option<Month> {
    match StripPrefix(relname, table + "_")
    case None => None
    case Some(suffix) => ParseSuffix(suffix)
  }

  function Pow10(k: nat): (p: nat)
    ensures p >= 1
  {
    if k == 0 then 1 else 10 * Pow10(k - 1)
  }

  lemma {:induction false} PaddedValue(n: nat, width: nat)
    ensures Value(Padded(n, width)) == n
    decreases n, width
  {
    if n < 10 && width <= 1 {
      assert Padded(n, width)[..0] == "";
    } else {
      var w := if width == 0 then 0 else width - 1;
      PaddedValue(n / 10, w);
      assert Padded(n, width)[..|Padded(n, width)| - 1] == Padded(n / 10, w);
    }
  }

  lemma {:induction false} PaddedWidth(n: nat, width: nat)
    requires width >= 1
    ensures |Padded(n, width)| == width <==> n < Pow10(width)
    decreases width
  {
    if width == 1 {
      assert Pow10(1) == 10 * Pow10(0);
    } else {
      PaddedWidth(n / 10, width - 1);
      TenthBelow(n, Pow10(width - 1));
    }
  }

  lemma TenthBelow(n: nat, p: nat)
    ensures n / 10 < p <==> n < 10 * p
  {
  }

  // Digits determine the number and the number determines the digits.
  lemma {:induction false} PaddedInverse(s: string)
    requires s != "" && AllDigits(s)
    ensures Padded(Value(s), |s|) == s
    decreases |s|
  {
    var front, last := s[..|s| - 1], DigitValue(s[|s| - 1]);
    assert s == front + [Digit(last)];
    TenTimes(Value(front), last);
    if front == "" {
    } else {
      PaddedInverse(front);
    }
  }

  lemma TenTimes(n: nat, d: int)
    requires 0 <= d <= 9
    ensures (10 * n + d) / 10 == n && (10 * n + d) % 10 == d
  {
  }

  lemma {:induction false} SplitAtFirst(a: string, b: string, sep: char)
    requires sep !in a
    ensures SplitOnce(a + [sep] + b, sep) == Some((a, b))
  {
    var s := a + [sep] + b;
    if a == "" {
      assert s[1..] == b;
    } else {
      SplitAtFirst(a[1..], b, sep);
      assert s[1..] == a[1..] + [sep] + b;
      assert [s[0]] + a[1..] == a;
    }
  }

  lemma YearTextExact(y: int)
    ensures |YearText(y)| == 4 && AllDigits(YearText(y)) <==> 0 <= y <= 9999
    ensures 0 <= y <= 9999 ==> Value(YearText(y)) == y
    ensures '_' !in YearText(y)
  {
    assert Pow10(4) == 10 * (10 * (10 * (10 * 1)));
    if y >= 0 {
      PaddedWidth(y, 4);
      PaddedValue(y, 4);
    } else {
      assert YearText(y)[0] == '-';
      assert forall k :: 1 <= k < |YearText(y)| ==> YearText(y)[k] == Padded(-y, 3)[k - 1];
    }
  }

  lemma MonthTextExact(m: int)
    requires 1 <= m <= 12
    ensures |Padded(m, 2)| == 2 && AllDigits(Padded(m, 2)) && Value(Padded(m, 2)) == m
  {
    assert Pow10(2) == 10 * (10 * 1);
    PaddedWidth(m, 2);
    PaddedValue(m, 2);
  }

  /**
   * Parsing undoes naming for the years 0 to 9999; a name built for any other
   * year is skipped, never read as a different month.
   */
  lemma ParseName(table: string, m: Month)
    ensures ParseMonth(table, PartitionName(table, m))
            == if 0 <= YearOf(m) <= 9999 then Some(m) else None
  {
    var year, month := YearText(YearOf(m)), Padded(MonthOf(m), 2);
    StripName(table, year + "_" + month);
    assert PartitionName(table, m) == table + "_" + (year + "_" + month);
    SuffixParsed(m);
  }

  lemma StripName(table: string, suffix: string)
    ensures StripPrefix(table + "_" + suffix, table + "_") == Some(suffix)
  {
  }

  lemma SuffixParsed(m: Month)
    ensures ParseSuffix(YearText(YearOf(m)) + "_" + Padded(MonthOf(m), 2))
            == if 0 <= YearOf(m) <= 9999 then Some(m) else None
  {
    YearTextExact(YearOf(m));
    MonthTextExact(MonthOf(m));
    SplitAtFirst(YearText(YearOf(m)), Padded(MonthOf(m), 2), '_');
  }

  /** Only a name built for a month parses to that month. */
  lemma NameParsed(table: string, relname: string)
    requires ParseMonth(table, relname).Some?
    ensures relname == PartitionName(table, ParseMonth(table, relname).value)
  {
    var suffix := StripPrefix(relname, table + "_").value;
    var (year, month) := SplitOnce(suffix, '_').value;
    PaddedInverse(year);
    PaddedInverse(month);
    var m := ParseMonth(table, relname).value;
    MonthParts(Value(year), Value(month));
    assert YearText(YearOf(m)) == year && Padded(MonthOf(m), 2) == month;
    assert relname == table + "_" + (year + "_" + month);
  }

  lemma MonthParts(year: int, month: int)
    requires 1 <= month <= 12
    ensures YearOf(year * 12 + month - 1) == year && MonthOf(year * 12 + month - 1) == month
  {
  }

  // -------------------------------------------------------------------- run

  // A relation's parent table and tablespace, as the catalog lists them; no
  // tablespace means the database's default.
  datatype Relation = Relation(parent: Option<string>, tablespace: Option<string>)

  type Relations = map<string, Relation>

  predicate Listed(rels: Relations, table: string, name: string) {
    name in rels && rels[name].parent == Some(table) && ParseMonth(table, name).Some?
  }

  // Every listed partition with the month its name gives.
  function Partitions(rels: Relations, table: string): map<string, Month> {
    map name | name in rels && Listed(rels, table, name) :: ParseMonth(table, name).value
  }

  function CreateOne(rels: Relations, table: string, m: Month): Relations {
    var name := PartitionName(table, m);
    if name in rels then rels else rels[name := Relation(Some(table), None)]
  }

  function CreateAhead(rels: Relations, table: string, now: Month): Relations {
    CreateOne(CreateOne(rels, table, now), table, now + 1)
  }

  function ToMove(rels: Relations, partitions: map<string, Month>, now: Month): set<string>
    requires partitions.Keys <= rels.Keys
  {
    set name | name in partitions
      && partitions[name] + 1 <= now - MOVE_AFTER_MONTHS
      && rels[name].tablespace != Some(COLD_TABLESPACE)
  }

  function ToDrop(partitions: map<string, Month>, now: Month, years: Option<nat>): set<string> {
    match years
    case None => {}
    case Some(y) => set name | name in partitions && partitions[name] + 1 <= now - 12 * y
  }

  function Moved(rels: Relations, names: set<string>): Relations {
    map name | name in rels ::
      if name in names then rels[name].(tablespace := Some(COLD_TABLESPACE)) else rels[name]
  }

  function AfterTable(rels: Relations, table: string, now: Month, years: Option<nat>): Relations {
    var ahead := CreateAhead(rels, table, now);
    var partitions := Partitions(ahead, table);
    Moved(ahead, ToMove(ahead, partitions, now)) - ToDrop(partitions, now, years)
  }

  function AfterRun(rels: Relations, now: Month, years: Option<nat>): Relations {
    AfterTable(AfterTable(rels, COMMS_REQUEST, now, years), COMMS_EVENT, now, years)
  }

  datatype Report = Report(
    created: seq<string>, moved: set<string>, dropped: set<string>, retentionSkipped: bool)

  function Created(rels: Relations, table: string, m: Month): seq<string> {
    if PartitionName(table, m) in rels then [] else [PartitionName(table, m)]
  }

  function TableReport(rels: Relations, table: string, now: Month, years: Option<nat>): Report {
    var ahead := CreateAhead(rels, table, now);
    Report(
      Created(rels, table, now) + Created(CreateOne(rels, table, now), table, now + 1),
      ToMove(ahead, Partitions(ahead, table), now),
      ToDrop(Partitions(ahead, table), now, years), years.None?)
  }

  // What one run reports: the two tables' reports put together.
  function RunReport(rels: Relations, now: Month, years: Option<nat>): Report {
    var first := TableReport(rels, COMMS_REQUEST, now, years);
    var second := TableReport(
      AfterTable(rels, COMMS_REQUEST, now, years), COMMS_EVENT, now, years);
    Report(
      first.created + second.created, first.moved + second.moved,
      first.dropped + second.dropped, years.None?)
  }

  lemma MovedOne(rels: Relations, names: set<string>, name: string)
    requires name in rels
    ensures Moved(rels, names + {name})
            == Moved(rels, names)[name := rels[name].(tablespace := Some(COLD_TABLESPACE))]
  {
  }

  lemma ToMoveOne(rels: Relations, partitions: map<string, Month>, now: Month, left: set<string>, name: string)
    requires partitions.Keys <= rels.Keys && left <= partitions.Keys && name in left
    ensures var due := ToMove(rels, partitions, now);
            due - (left - {name}) == due - left + if name in due then {name} else {}
  {
  }

  /** The tenant database's relation catalog, changed by one statement at a time. */
  class Catalog {
    var rels: Relations

    // The catalog lists partitions in no particular order.
    method MoveOld(partitions: map<string, Month>, now: Month) returns (moved: set<string>)
      requires partitions.Keys <= rels.Keys
      modifies this
      ensures moved == ToMove(old(rels), partitions, now)
      ensures rels == Moved(old(rels), moved)
    {
      var listing := rels;
      var left := partitions.Keys;
      moved := {};
      while left != {}
        invariant left <= partitions.Keys
        invariant moved == ToMove(listing, partitions, now) - left
        invariant rels == Moved(listing, moved)
        decreases |left|
      {
        var name :| name in left;
        ToMoveOne(listing, partitions, now, left, name);
        MovedOne(listing, moved, name);
        left := left - {name};
        if partitions[name] + 1 <= now - MOVE_AFTER_MONTHS
           && listing[name].tablespace != Some(COLD_TABLESPACE) {
          rels := rels[name := rels[name].(tablespace := Some(COLD_TABLESPACE))];
          moved := moved + {name};
        }
      }
    }

    method DropExpired(partitions: map<string, Month>, now: Month, years: nat)
      returns (dropped: set<string>)
      requires partitions.Keys <= rels.Keys
      modifies this
      ensures dropped == ToDrop(partitions, now, Some(years))
      ensures rels == old(rels) - dropped
    {
      var left := partitions.Keys;
      dropped := {};
      while left != {}
        invariant left <= partitions.Keys
        invariant dropped == ToDrop(partitions, now, Some(years)) - left
        invariant rels == old(rels) - dropped
        decreases |left|
      {
        var name :| name in left;
        left := left - {name};
        if partitions[name] + 1 <= now - 12 * years {
          rels := rels - {name};
          dropped := dropped + {name};
        }
      }
    }

    method RunTable(table: string, now: Month, years: Option<nat>) returns (report: Report)
      modifies this
      ensures rels == AfterTable(old(rels), table, now, years)
      ensures report == TableReport(old(rels), table, now, years)
    {
      var created := [];
      for k := 0 to 2
        invariant k == 0 ==> rels == old(rels) && created == []
        invariant k == 1 ==> rels == CreateOne(old(rels), table, now)
        invariant k == 1 ==> created == Created(old(rels), table, now)
        invariant k == 2 ==> rels == CreateAhead(old(rels), table, now)
        invariant k == 2 ==> created == TableReport(old(rels), table, now, years).created
      {
        var name := PartitionName(table, now + k);
        if name !in rels {
          rels := rels[name := Relation(Some(table), None)];
          created := created + [name];
        }
      }
      var partitions := Partitions(rels, table);
      var moved := MoveOld(partitions, now);
      var dropped := {};
      match years {
        case Some(y) => dropped := DropExpired(partitions, now, y);
        case None =>
      }
      report := Report(created, moved, dropped, years.None?);
    }

    /** The lifecycle over both partitioned tables. */
    method Run(now: Month, years: Option<nat>) returns (report: Report)
      modifies this
      ensures rels == AfterRun(old(rels), now, years)
      ensures report == RunReport(old(rels), now, years)
    {
      report := Report([], {}, {}, false);
      var tables := [COMMS_REQUEST, COMMS_EVENT];
      for k := 0 to |tables|
        invariant k == 0 ==> rels == old(rels) && report == Report([], {}, {}, false)
        invariant k == 1 ==> rels == AfterTable(old(rels), COMMS_REQUEST, now, years)
        invariant k == 1 ==> report == TableReport(old(rels), COMMS_REQUEST, now, years)
        invariant k == 2 ==> rels == AfterRun(old(rels), now, years)
        invariant k == 2 ==> report == RunReport(old(rels), now, years)
      {
        var one := RunTable(tables[k], now, years);
        report := Report(report.created + one.created, report.moved + one.moved,
          report.dropped + one.dropped, report.retentionSkipped || one.retentionSkipped);
      }
    }
  }

  // ------------------------------------------------------------- guarantees

  predicate IsTable(table: string) {
    table == COMMS_REQUEST || table == COMMS_EVENT
  }

  // No name belongs to both tables.
  lemma OneTable(a: string, b: string, name: string)
    requires IsTable(a) && IsTable(b) && a != b
    requires a + "_" <= name
    ensures ParseMonth(b, name).None?
  {
    assert name[6] == (a + "_")[6];
    assert b + "_" <= name ==> name[6] == (b + "_")[6];
  }

  // A listed partition whose month has ended by `boundary`.
  predicate EndedBy(rels: Relations, table: string, name: string, boundary: Month) {
    Listed(rels, table, name) && ParseMonth(table, name).value + 1 <= boundary
  }

  predicate Expired(rels: Relations, table: string, name: string, now: Month, years: Option<nat>) {
    years.Some? && EndedBy(rels, table, name, now - 12 * years.value)
  }

  // The relation one run leaves of a relation it does not drop.
  function Aged(rels: Relations, table: string, name: string, now: Month): Relation
    requires name in rels
  {
    if EndedBy(rels, table, name, now - MOVE_AFTER_MONTHS)
    then rels[name].(tablespace := Some(COLD_TABLESPACE)) else rels[name]
  }

  predicate IsAhead(table: string, name: string, now: Month) {
    name == PartitionName(table, now) || name == PartitionName(table, now + 1)
  }

  // The steps after creating ahead, one name at a time.
  lemma SweepExact(rels: Relations, table: string, now: Month, years: Option<nat>, name: string)
    ensures var partitions := Partitions(rels, table);
            var swept := Moved(rels, ToMove(rels, partitions, now)) - ToDrop(partitions, now, years);
            && (name in swept <==> name in rels && !Expired(rels, table, name, now, years))
            && (name in swept ==> swept[name] == Aged(rels, table, name, now))
  {
  }

  lemma AheadExact(rels: Relations, table: string, now: Month, name: string)
    ensures var ahead := CreateAhead(rels, table, now);
            && (name in ahead <==> name in rels || IsAhead(table, name, now))
            && (name in rels ==> ahead[name] == rels[name])
            && (name in ahead && name !in rels ==> ahead[name] == Relation(Some(table), None))
  {
  }

  lemma AheadIsRecent(rels: Relations, table: string, now: Month, name: string, boundary: Month)
    requires IsAhead(table, name, now) && boundary <= now
    ensures !EndedBy(rels, table, name, boundary)
  {
    ParseName(table, now);
    ParseName(table, now + 1);
  }

  lemma TableExact(rels: Relations, table: string, now: Month, years: Option<nat>, name: string)
    ensures var after := AfterTable(rels, table, now, years);
            && (name in after
                <==> IsAhead(table, name, now)
                     || (name in rels && !Expired(rels, table, name, now, years)))
            && (name in rels && name in after ==> after[name] == Aged(rels, table, name, now))
            && (name !in rels && name in after ==> after[name] == Relation(Some(table), None))
  {
    var ahead := CreateAhead(rels, table, now);
    SweepExact(ahead, table, now, years, name);
    AheadExact(rels, table, now, name);
    if IsAhead(table, name, now) {
      AheadIsRecent(ahead, table, now, name, now - MOVE_AFTER_MONTHS);
      if years.Some? {
        AheadIsRecent(ahead, table, now, name, now - 12 * years.value);
      }
    }
  }

  // Nothing is left to do for this table.
  ghost predicate Quiet(rels: Relations, table: string, now: Month, years: Option<nat>) {
    && PartitionName(table, now) in rels && PartitionName(table, now + 1) in rels
    && forall name :: Settled(rels, table, name, now, years)
  }

  predicate Settled(rels: Relations, table: string, name: string, now: Month, years: Option<nat>) {
    && !Expired(rels, table, name, now, years)
    && (name in rels ==> Aged(rels, table, name, now) == rels[name])
  }

  lemma QuietTable(rels: Relations, table: string, now: Month, years: Option<nat>)
    requires Quiet(rels, table, now, years)
    ensures AfterTable(rels, table, now, years) == rels
    ensures TableReport(rels, table, now, years) == Report([], {}, {}, years.None?)
  {
    var partitions := Partitions(rels, table);
    forall name | name in partitions
      ensures name !in ToMove(rels, partitions, now) && name !in ToDrop(partitions, now, years)
    {
      assert Settled(rels, table, name, now, years);
    }
    assert ToMove(rels, partitions, now) == {};
    assert ToDrop(partitions, now, years) == {};
    assert Moved(rels, {}) == rels;
    assert rels - {} == rels;
  }

  lemma TableQuiets(rels: Relations, table: string, now: Month, years: Option<nat>)
    ensures Quiet(AfterTable(rels, table, now, years), table, now, years)
  {
    var after := AfterTable(rels, table, now, years);
    TableExact(rels, table, now, years, PartitionName(table, now));
    TableExact(rels, table, now, years, PartitionName(table, now + 1));
    forall name ensures Settled(after, table, name, now, years) {
      TableExact(rels, table, now, years, name);
      if IsAhead(table, name, now) {
        AheadIsRecent(after, table, now, name, now - MOVE_AFTER_MONTHS);
        if years.Some? {
          AheadIsRecent(after, table, now, name, now - 12 * years.value);
        }
      }
    }
  }

  lemma NameStays(rels: Relations, table: string, other: string, now: Month, years: Option<nat>,
                  m: Month)
    requires IsTable(table) && IsTable(other) && table != other
    requires PartitionName(other, m) in rels
    ensures PartitionName(other, m) in AfterTable(rels, table, now, years)
  {
    var name := PartitionName(other, m);
    assert name == other + "_" + (YearText(YearOf(m)) + "_" + Padded(MonthOf(m), 2));
    OneTable(other, table, name);
    TableExact(rels, table, now, years, name);
  }

  lemma SettledStays(rels: Relations, table: string, other: string, now: Month,
                     years: Option<nat>, name: string)
    requires table != other && Settled(rels, other, name, now, years)
    ensures Settled(AfterTable(rels, table, now, years), other, name, now, years)
  {
    TableExact(rels, table, now, years, name);
  }

  lemma QuietStays(rels: Relations, table: string, other: string, now: Month, years: Option<nat>)
    requires IsTable(table) && IsTable(other) && table != other
    requires Quiet(rels, other, now, years)
    ensures Quiet(AfterTable(rels, table, now, years), other, now, years)
  {
    NameStays(rels, table, other, now, years, now);
    NameStays(rels, table, other, now, years, now + 1);
    forall name ensures Settled(AfterTable(rels, table, now, years), other, name, now, years) {
      SettledStays(rels, table, other, now, years, name);
    }
  }

  /** A second run in the same month changes nothing and reports nothing. */
  lemma RunTwice(rels: Relations, now: Month, years: Option<nat>)
    ensures var once := AfterRun(rels, now, years);
            && AfterRun(once, now, years) == once
            && RunReport(once, now, years) == Report([], {}, {}, years.None?)
  {
    var first := AfterTable(rels, COMMS_REQUEST, now, years);
    var once := AfterRun(rels, now, years);
    TableQuiets(rels, COMMS_REQUEST, now, years);
    QuietStays(first, COMMS_EVENT, COMMS_REQUEST, now, years);
    TableQuiets(first, COMMS_EVENT, now, years);
    QuietTable(once, COMMS_REQUEST, now, years);
    QuietTable(once, COMMS_EVENT, now, years);
  }

  /** Whatever was there before, a run leaves this month and the next with a partition. */
  lemma RunCreatesAhead(rels: Relations, now: Month, years: Option<nat>, table: string)
    requires IsTable(table)
    ensures PartitionName(table, now) in AfterRun(rels, now, years)
    ensures PartitionName(table, now + 1) in AfterRun(rels, now, years)
  {
    var first := AfterTable(rels, COMMS_REQUEST, now, years);
    TableQuiets(rels, COMMS_REQUEST, now, years);
    QuietStays(first, COMMS_EVENT, COMMS_REQUEST, now, years);
    TableQuiets(first, COMMS_EVENT, now, years);
  }

  /**
   * What one run does to a relation that was there before it: gone exactly when
   * it is a partition of one of the tables whose month ended at least the
   * retention ago, otherwise kept under its parent, and on the cold tablespace
   * exactly when it already was or its month ended at least 18 months ago.
   * A partition whose name is malformed is thus never touched.
   */
  lemma RunExact(rels: Relations, now: Month, years: Option<nat>, name: string)
    requires name in rels
    ensures var after := AfterRun(rels, now, years);
            && (name !in after
                <==> exists table :: IsTable(table) && Expired(rels, table, name, now, years))
            && (name in after ==> after[name].parent == rels[name].parent)
            && (name in after ==>
                  if exists table :: IsTable(table)
                       && EndedBy(rels, table, name, now - MOVE_AFTER_MONTHS)
                  then after[name].tablespace == Some(COLD_TABLESPACE)
                  else after[name].tablespace == rels[name].tablespace)
  {
    var first := AfterTable(rels, COMMS_REQUEST, now, years);
    TableExact(rels, COMMS_REQUEST, now, years, name);
    TableExact(first, COMMS_EVENT, now, years, name);
    assert IsTable(COMMS_REQUEST) && IsTable(COMMS_EVENT);
    AheadKept(rels, COMMS_REQUEST, now, years, name);
    AheadKept(rels, COMMS_EVENT, now, years, name);
    if IsAhead(COMMS_REQUEST, name, now) {
      AheadIsOurs(COMMS_REQUEST, COMMS_EVENT, now, name);
    }
    if IsAhead(COMMS_EVENT, name, now) {
      AheadIsOurs(COMMS_EVENT, COMMS_REQUEST, now, name);
    }
  }

  lemma AheadKept(rels: Relations, table: string, now: Month, years: Option<nat>, name: string)
    ensures IsAhead(table, name, now) ==> !Expired(rels, table, name, now, years)
  {
    if IsAhead(table, name, now) && years.Some? {
      AheadIsRecent(rels, table, now, name, now - 12 * years.value);
    }
  }

  lemma AheadIsOurs(table: string, other: string, now: Month, name: string)
    requires IsTable(table) && IsTable(other) && table != other
    requires IsAhead(table, name, now)
    ensures ParseMonth(other, name).None?
  {
    var m := if name == PartitionName(table, now) then now else now + 1;
    assert name == table + "_" + (YearText(YearOf(m)) + "_" + Padded(MonthOf(m), 2));
    OneTable(table, other, name);
  }

  // --------------------------------------------------------- months covered

  predicate HasParent(rels: Relations, table: string, name: string) {
    name in rels && rels[name].parent == Some(table)
  }

  predicate Attached(rels: Relations, table: string, m: Month) {
    HasParent(rels, table, PartitionName(table, m))
  }

  // The month's name is held by a relation that is no partition of the table.
  predicate Taken(rels: Relations, table: string, m: Month) {
    var name := PartitionName(table, m);
    name in rels && rels[name].parent != Some(table)
  }

  // One run per entry: the month it runs in and the retention it is given.
  function AfterRuns(rels: Relations, runs: seq<(Month, Option<nat>)>): Relations {
    if runs == [] then rels
    else
      var last := runs[|runs| - 1];
      AfterRun(AfterRuns(rels, runs[..|runs| - 1]), last.0, last.1)
  }

  // Some run in every month, none out of order, all in years 0 to 9999.
  predicate Monthly(runs: seq<(Month, Option<nat>)>) {
    forall k :: 0 <= k < |runs| ==>
      && 0 <= runs[k].0 < 12 * 10_000 - 1
      && (k > 0 ==> runs[k - 1].0 <= runs[k].0 <= runs[k - 1].0 + 1)
  }

  predicate PastRetention(run: (Month, Option<nat>), m: Month) {
    run.1.Some? && m + 1 <= run.0 - 12 * run.1.value
  }

  lemma ParsesBack(table: string, m: Month)
    requires 0 <= m < 12 * 10_000
    ensures ParseMonth(table, PartitionName(table, m)) == Some(m)
  {
    ParseName(table, m);
  }

  lemma NameOfMonth(table: string, now: Month, m: Month)
    requires 0 <= m < 12 * 10_000 && 0 <= now < 12 * 10_000
    ensures PartitionName(table, m) == PartitionName(table, now) <==> m == now
  {
    ParsesBack(table, m);
    ParsesBack(table, now);
  }

  lemma AheadMonth(table: string, now: Month, m: Month)
    requires 0 <= m < 12 * 10_000 && 0 <= now < 12 * 10_000 - 1
    ensures IsAhead(table, PartitionName(table, m), now) <==> m == now || m == now + 1
  {
    NameOfMonth(table, now, m);
    NameOfMonth(table, now + 1, m);
  }

  lemma OwnName(rels: Relations, now: Month, years: Option<nat>, table: string, m: Month)
    requires IsTable(table) && ParseMonth(table, PartitionName(table, m)) == Some(m)
    ensures var after := AfterTable(rels, table, now, years);
            && (Attached(after, table, m)
                <==> !Taken(rels, table, m)
                     && (|| (Attached(rels, table, m) && !PastRetention((now, years), m))
                         || IsAhead(table, PartitionName(table, m), now)))
            && (Taken(after, table, m) <==> Taken(rels, table, m))
  {
    TableExact(rels, table, now, years, PartitionName(table, m));
  }

  lemma OwnTurn(rels: Relations, now: Month, years: Option<nat>, table: string, m: Month)
    requires IsTable(table)
    requires 0 <= m < 12 * 10_000 && 0 <= now < 12 * 10_000 - 1
    ensures var after := AfterTable(rels, table, now, years);
            && (Attached(after, table, m)
                <==> !Taken(rels, table, m)
                     && (|| (Attached(rels, table, m) && !PastRetention((now, years), m))
                         || m == now || m == now + 1))
            && (Taken(after, table, m) <==> Taken(rels, table, m))
  {
    AheadMonth(table, now, m);
    ParsesBack(table, m);
    OwnName(rels, now, years, table, m);
  }

  lemma OtherTurn(rels: Relations, now: Month, years: Option<nat>, other: string, table: string,
                  m: Month)
    requires IsTable(table) && IsTable(other) && table != other
    requires 0 <= m < 12 * 10_000
    ensures var after := AfterTable(rels, other, now, years);
            && (Attached(after, table, m) <==> Attached(rels, table, m))
            && (Taken(after, table, m) <==> Taken(rels, table, m))
  {
    var name := PartitionName(table, m);
    assert IsAhead(table, name, m);
    AheadIsOurs(table, other, m, name);
    TableExact(rels, other, now, years, name);
    if IsAhead(other, name, now) {
      AheadIsOurs(other, table, now, name);
      ParsesBack(table, m);
      assert false;
    }
  }

  lemma OneRun(rels: Relations, now: Month, years: Option<nat>, table: string, m: Month)
    requires IsTable(table)
    requires 0 <= m < 12 * 10_000 && 0 <= now < 12 * 10_000 - 1
    ensures var after := AfterRun(rels, now, years);
            && (Attached(after, table, m)
                <==> !Taken(rels, table, m)
                     && (|| (Attached(rels, table, m) && !PastRetention((now, years), m))
                         || m == now || m == now + 1))
            && (Taken(after, table, m) <==> Taken(rels, table, m))
  {
    var first := AfterTable(rels, COMMS_REQUEST, now, years);
    if table == COMMS_REQUEST {
      OwnTurn(rels, now, years, table, m);
      OtherTurn(first, now, years, COMMS_EVENT, table, m);
    } else {
      OtherTurn(rels, now, years, COMMS_REQUEST, table, m);
      OwnTurn(first, now, years, table, m);
    }
  }

  lemma {:induction false} StaysTaken(rels: Relations, runs: seq<(Month, Option<nat>)>, table: string,
                                      m: Month)
    requires Monthly(runs) && IsTable(table) && 0 <= m < 12 * 10_000
    ensures Taken(AfterRuns(rels, runs), table, m) <==> Taken(rels, table, m)
  {
    if runs == [] {
    } else {
      var before, last := runs[..|runs| - 1], runs[|runs| - 1];
      StaysTaken(rels, before, table, m);
      OneRun(AfterRuns(rels, before), last.0, last.1, table, m);
    }
  }

  lemma {:induction false} MonthsGrow(runs: seq<(Month, Option<nat>)>, i: nat, j: nat)
    requires Monthly(runs) && i <= j < |runs|
    ensures runs[i].0 <= runs[j].0
    decreases j
  {
    if i == j {
    } else {
      MonthsGrow(runs, i, j - 1);
    }
  }

  ghost predicate NeverPast(runs: seq<(Month, Option<nat>)>, m: Month) {
    forall k :: 0 <= k < |runs| ==> !PastRetention(runs[k], m)
  }

  lemma RecentNeverPast(runs: seq<(Month, Option<nat>)>, m: Month)
    requires Monthly(runs) && runs != [] && m >= runs[|runs| - 1].0
    ensures NeverPast(runs, m)
  {
    forall k | 0 <= k < |runs| ensures !PastRetention(runs[k], m) {
      MonthsGrow(runs, k, |runs| - 1);
    }
  }

  lemma LastMonth(runs: seq<(Month, Option<nat>)>, m: Month)
    requires Monthly(runs) && runs != [] && runs[0].0 <= m < runs[|runs| - 1].0
    ensures var before := runs[..|runs| - 1];
            && before != [] && Monthly(before) && before[0] == runs[0]
            && m <= before[|before| - 1].0
            && (NeverPast(runs, m)
                <==> NeverPast(before, m) && !PastRetention(runs[|runs| - 1], m))
  {
    var n := |runs| - 1;
    var before := runs[..n];
    assert n > 0;
    assert forall k :: 0 <= k < n ==> runs[k] == before[k];
  }

  /**
   * With a run in every month, every month from the first run's to the one
   * after the last run's has its partition, except exactly those some run
   * found past the retention it was given and those whose name another
   * relation held from the start: no gap ever opens.
   */
  lemma {:induction false} NoGap(rels: Relations, runs: seq<(Month, Option<nat>)>, table: string,
                                 m: Month)
    requires IsTable(table) && Monthly(runs) && runs != []
    requires runs[0].0 <= m <= runs[|runs| - 1].0 + 1
    ensures Attached(AfterRuns(rels, runs), table, m) <==> NeverPast(runs, m) && !Taken(rels, table, m)
    decreases |runs|
  {
    var before, last := runs[..|runs| - 1], runs[|runs| - 1];
    StaysTaken(rels, before, table, m);
    OneRun(AfterRuns(rels, before), last.0, last.1, table, m);
    if m >= last.0 {
      RecentNeverPast(runs, m);
    } else {
      LastMonth(runs, m);
      NoGap(rels, before, table, m);
    }
  }
}
