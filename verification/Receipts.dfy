/**
 * Delivery receipts: which of them may move a request's final status, and
 * the reconcile pass over receipts that arrived before their message could
 * be matched.
 */
module Receipts {
  import opened Base
  import opened Outbox

  // The position in STATUS_ORDER, or -1.
  function Rank(e: EventType): int {
    match e
    case Queued => 0
    case Sent => 1
    case Delivered => 2
    case Read => 3
    case _ => -1
  }

  // ABSORBING_STATUSES
  predicate IsAbsorbing(e: EventType) {
    || e.Failed? || e.Bounced? || e.Complaint? || e.Expired? || e.Cancelled?
    || e.SuppressedConsent? || e.SuppressedList? || e.UnverifiedAddress?
  }

  predicate IsOrdered(e: EventType) {
    Rank(e) >= 0
  }

  predicate IsRecognized(e: EventType) {
    IsOrdered(e) || IsAbsorbing(e)
  }

  predicate ShouldAdvance(current: Option<EventType>, e: EventType) {
    match current
    case None => true
    case Some(cur) =>
      || IsAbsorbing(e)
      || (IsOrdered(cur) && IsOrdered(e) && Rank(e) > Rank(cur))
  }

  function Promoted(current: Option<EventType>, e: EventType): Option<EventType> {
    if ShouldAdvance(current, e) then Some(e) else current
  }

  function AfterReceipts(current: Option<EventType>, receipts: seq<EventType>): Option<EventType> {
    if receipts == [] then current
    else
      var last := |receipts| - 1;
      Promoted(AfterReceipts(current, receipts[..last]), receipts[last])
  }

  // --------------------------------------------- what a sequence amounts to

  // The last absorbing receipt, if there is one.
  function LastAbsorbing(receipts: seq<EventType>): (r: Option<EventType>)
    ensures r.Some? ==> r.value in receipts && IsAbsorbing(r.value)
    ensures r.None? ==> forall e :: e in receipts ==> !IsAbsorbing(e)
  {
    if receipts == [] then None
    else
      var last := |receipts| - 1;
      if IsAbsorbing(receipts[last]) then Some(receipts[last]) else LastAbsorbing(receipts[..last])
  }

  // -1 for no status yet.
  function RankOf(s: Option<EventType>): int {
    if s.None? then -1 else Rank(s.value)
  }

  // `m` is the highest rank among the start and the receipts.
  ghost predicate IsHighest(m: int, start: Option<EventType>, receipts: seq<EventType>) {
    && RankOf(start) <= m
    && (forall e :: e in receipts ==> Rank(e) <= m)
    && (m == RankOf(start) || exists e :: e in receipts && Rank(e) == m)
  }

  // An absorbing status is never replaced by a non-absorbing one, whatever
  // arrives, and it is always the latest absorbing receipt.
  lemma {:induction false} AbsorbingWins(current: Option<EventType>, receipts: seq<EventType>)
    ensures LastAbsorbing(receipts).Some? ==> AfterReceipts(current, receipts) == LastAbsorbing(receipts)
    ensures LastAbsorbing(receipts).None? && current.Some? && IsAbsorbing(current.value) ==>
              AfterReceipts(current, receipts) == current
  {
    if receipts == [] {
    } else {
      var last := |receipts| - 1;
      AbsorbingWins(current, receipts[..last]);
    }
  }

  lemma RankInjective(a: EventType, b: EventType)
    requires IsOrdered(a) && IsOrdered(b) && Rank(a) == Rank(b)
    ensures a == b
  {
  }

  lemma {:induction false} HighestWins(start: Option<EventType>, receipts: seq<EventType>)
    requires start.Some? ==> IsOrdered(start.value)
    requires forall e :: e in receipts ==> IsOrdered(e)
    ensures var end := AfterReceipts(start, receipts);
            && (end.Some? ==> IsOrdered(end.value))
            && IsHighest(RankOf(end), start, receipts)
  {
    if receipts == [] {
    } else {
      var last := |receipts| - 1;
      HighestWins(start, receipts[..last]);
      assert receipts == receipts[..last] + [receipts[last]];
    }
  }

  // From no status or an ordered one, any permutation of ordered receipts
  // ends at the same status.
  lemma OrderIrrelevant(start: Option<EventType>, receipts: seq<EventType>, permuted: seq<EventType>)
    requires start.Some? ==> IsOrdered(start.value)
    requires forall e :: e in receipts ==> IsOrdered(e)
    requires multiset(receipts) == multiset(permuted)
    ensures AfterReceipts(start, receipts) == AfterReceipts(start, permuted)
  {
    forall e
      ensures e in receipts <==> e in permuted
    {
      assert e in multiset(receipts) <==> e in receipts;
      assert e in multiset(permuted) <==> e in permuted;
    }
    HighestWins(start, receipts);
    HighestWins(start, permuted);
    var a, b := AfterReceipts(start, receipts), AfterReceipts(start, permuted);
    assert RankOf(a) == RankOf(b);
    if a.Some? && b.Some? {
      RankInjective(a.value, b.value);
    }
  }

  // ---------------------------------------------------------- the reconcile

  datatype Orphan = Orphan(providerRef: string, eventType: EventType, occurredAt: Instant, attempts: int)

  datatype Report = Report(reconciled: nat, agedOut: nat, stillPending: nat)

  predicate Carries(e: Event, ledger: map<Uuid, Request>, providerRef: string) {
    e.providerRef == providerRef && providerRef != "" && e.request in ledger
  }

  // Some event of a known request carries this reference.
  predicate HasMatch(events: set<Event>, ledger: map<Uuid, Request>, providerRef: string) {
    exists e :: e in events && Carries(e, ledger, providerRef)
  }

  // ORDER BY occurred_at DESC, comms_request_id DESC
  predicate Later(a: Event, b: Event) {
    a.occurredAt > b.occurredAt || (a.occurredAt == b.occurredAt && a.request >= b.request)
  }

  predicate IsLatest(e: Event, events: set<Event>, ledger: map<Uuid, Request>, providerRef: string) {
    && e in events && Carries(e, ledger, providerRef)
    && forall other :: other in events && Carries(other, ledger, providerRef) ==> Later(e, other)
  }

  lemma {:induction false} LatestExists(events: set<Event>, ledger: map<Uuid, Request>, providerRef: string)
    returns (e: Event)
    requires HasMatch(events, ledger, providerRef)
    ensures IsLatest(e, events, ledger, providerRef)
    decreases |events|
  {
    e :| e in events && Carries(e, ledger, providerRef);
    if HasMatch(events - {e}, ledger, providerRef) {
      var other := LatestExists(events - {e}, ledger, providerRef);
      if Later(other, e) {
        e := other;
      }
    }
  }

  predicate IsMatched(o: Orphan, events: set<Event>, ledger: map<Uuid, Request>) {
    IsRecognized(o.eventType) && HasMatch(events, ledger, o.providerRef)
  }

  // What a pass leaves of the pending rows.
  function Remaining(orphans: map<Uuid, Orphan>, events: set<Event>, ledger: map<Uuid, Request>, cap: int)
    : map<Uuid, Orphan>
  {
    map id | id in orphans && !IsMatched(orphans[id], events, ledger) && orphans[id].attempts + 1 < cap
           :: orphans[id].(attempts := orphans[id].attempts + 1)
  }

  // No request loses an absorbing status, and none is added or removed.
  ghost predicate KeepsAbsorbing(before: map<Uuid, Request>, after: map<Uuid, Request>) {
    && after.Keys == before.Keys
    && forall id :: id in before && before[id].finalStatus.Some? && IsAbsorbing(before[id].finalStatus.value) ==>
         after[id].finalStatus.Some? && IsAbsorbing(after[id].finalStatus.value)
  }

  function EventFor(o: Orphan, request: Uuid): Event {
    Event(request, o.occurredAt, o.eventType, o.providerRef)
  }

  function Advanced(ledger: map<Uuid, Request>, o: Orphan, request: Uuid): map<Uuid, Request> {
    if request !in ledger then ledger
    else ledger[request := ledger[request].(finalStatus := Promoted(ledger[request].finalStatus, o.eventType))]
  }

  // One promotion of a pass: the pending row and the request it went to.
  datatype Promotion = Promotion(id: Uuid, receipt: Orphan, request: Uuid)

  function EventsAfter(events: set<Event>, log: seq<Promotion>): set<Event> {
    if log == [] then events
    else
      var last := log[|log| - 1];
      EventsAfter(events, log[..|log| - 1]) + {EventFor(last.receipt, last.request)}
  }

  function LedgerAfter(ledger: map<Uuid, Request>, log: seq<Promotion>): map<Uuid, Request> {
    if log == [] then ledger
    else
      var last := log[|log| - 1];
      Advanced(LedgerAfter(ledger, log[..|log| - 1]), last.receipt, last.request)
  }

  // Each promotion went to the request of the latest event carrying the
  // receipt's reference at that moment.
  ghost predicate Targeted(events: set<Event>, ledger: map<Uuid, Request>, log: seq<Promotion>) {
    log != [] ==>
      var before, last := log[..|log| - 1], log[|log| - 1];
      && Targeted(events, ledger, before)
      && exists e: Event :: e.request == last.request
                     && IsLatest(e, EventsAfter(events, before), LedgerAfter(ledger, before), last.receipt.providerRef)
  }

  // The receipts a log promoted to one request, in order.
  function ReceiptsFor(log: seq<Promotion>, request: Uuid): seq<EventType> {
    if log == [] then []
    else
      var last := log[|log| - 1];
      ReceiptsFor(log[..|log| - 1], request) + if last.request == request then [last.receipt.eventType] else []
  }

  // A pass moves each request's status as its receipts, one after the other.
  lemma {:induction false} StatusFollowsReceipts(ledger: map<Uuid, Request>, log: seq<Promotion>, request: Uuid)
    requires request in ledger
    ensures request in LedgerAfter(ledger, log)
    ensures LedgerAfter(ledger, log)[request]
            == ledger[request].(finalStatus := AfterReceipts(ledger[request].finalStatus, ReceiptsFor(log, request)))
  {
    if log == [] {
    } else {
      var before, last := log[..|log| - 1], log[|log| - 1];
      StatusFollowsReceipts(ledger, before, request);
      if last.request == request {
        ReceiptsSnoc(ledger[request].finalStatus, ReceiptsFor(before, request), last.receipt.eventType);
      } else {
        assert ReceiptsFor(log, request) == ReceiptsFor(before, request);
      }
    }
  }

  lemma {:induction false} ReceiptsSnoc(status: Option<EventType>, receipts: seq<EventType>, e: EventType)
    ensures AfterReceipts(status, receipts + [e]) == Promoted(AfterReceipts(status, receipts), e)
  {
    assert (receipts + [e])[..|receipts|] == receipts;
  }

  class Reconciler {
    var orphans: map<Uuid, Orphan>
    var ledger: map<Uuid, Request>
    var events: set<Event>

    constructor (orphans: map<Uuid, Orphan>, ledger: map<Uuid, Request>, events: set<Event>)
      ensures this.orphans == orphans && this.ledger == ledger && this.events == events
    {
      this.orphans, this.ledger, this.events := orphans, ledger, events;
    }

    method FindMatch(providerRef: string) returns (m: Option<Uuid>)
      ensures m.None? <==> !HasMatch(events, ledger, providerRef)
      ensures m.Some? ==> exists e :: IsLatest(e, events, ledger, providerRef) && e.request == m.value
    {
      if !HasMatch(events, ledger, providerRef) {
        return None;
      }
      ghost var _ := LatestExists(events, ledger, providerRef);
      var e :| e in events && IsLatest(e, events, ledger, providerRef);
      m := Some(e.request);
    }

    // One transaction: the event, the status if it advances, the delete.
    method Promote(id: Uuid, request: Uuid)
      requires id in orphans && request in ledger
      modifies this
      ensures orphans == old(orphans) - {id}
      ensures events == old(events) + {EventFor(old(orphans)[id], request)}
      ensures ledger == Advanced(old(ledger), old(orphans)[id], request)
    {
      var o := orphans[id];
      events := events + {Event(request, o.occurredAt, o.eventType, o.providerRef)};
      if ShouldAdvance(ledger[request].finalStatus, o.eventType) {
        ledger := ledger[request := ledger[request].(finalStatus := Some(o.eventType))];
      } else {
        assert ledger == ledger[request := ledger[request]];
      }
      orphans := orphans - {id};
    }

    method RecordMiss(id: Uuid, cap: int)
      requires id in orphans
      modifies this`orphans
      ensures orphans == if old(orphans)[id].attempts + 1 >= cap then old(orphans) - {id}
                         else old(orphans)[id := old(orphans)[id].(attempts := old(orphans)[id].attempts + 1)]
    {
      orphans := orphans[id := orphans[id].(attempts := orphans[id].attempts + 1)];
      if orphans[id].attempts >= cap {
        orphans := orphans - {id};
      }
    }

    // One listed row: promote it, age it, or age it out.
    method ReconcileOne(id: Uuid, cap: int) returns (fate: Fate, ghost log: seq<Promotion>)
      requires id in orphans
      modifies this
      ensures fate == FateOf(old(orphans)[id], old(events), old(ledger), cap)
      ensures orphans == if fate.StillPending? then old(orphans)[id := Aged(old(orphans)[id])] else old(orphans) - {id}
      ensures if fate.Reconciled? then |log| == 1 && log[0].id == id && log[0].receipt == old(orphans)[id]
              else log == []
      ensures Targeted(old(events), old(ledger), log)
      ensures events == EventsAfter(old(events), log) && ledger == LedgerAfter(old(ledger), log)
      ensures Extends(old(events), old(ledger), events, ledger)
    {
      var o := orphans[id];
      var m := None;
      if IsRecognized(o.eventType) {
        m := FindMatch(o.providerRef);
      }
      log := [];
      if m.Some? {
        ghost var events0, ledger0 := events, ledger;
        log := [Promotion(id, o, m.value)];
        assert log[..0] == [];
        Promote(id, m.value);
        PromotedSameMatches(events0, ledger0, EventFor(o, m.value), ledger);
        fate := Reconciled;
        return;
      }
      RecordMiss(id, cap);
      fate := if o.attempts + 1 >= cap then AgedOut else StillPending;
    }

    // The three counts partition the listed rows; matched rows are promoted
    // and deleted, the others age by one and go at the cap.
    method Reconcile(cap: int) returns (report: Report, ghost log: seq<Promotion>)
      modifies this
      ensures report == ReportOn(old(orphans), old(orphans).Keys, old(events), old(ledger), cap)
      ensures report.reconciled + report.agedOut + report.stillPending == |old(orphans)|
      ensures orphans == Remaining(old(orphans), old(events), old(ledger), cap)
      ensures LogOf(old(orphans), old(orphans).Keys, old(events), old(ledger), cap, log)
      ensures Targeted(old(events), old(ledger), log)
      ensures events == EventsAfter(old(events), log) && ledger == LedgerAfter(old(ledger), log)
      ensures Extends(old(events), old(ledger), events, ledger)
    {
      report, log := Report(0, 0, 0), [];
      ghost var orphans0, ledger0, events0 := orphans, ledger, events;
      var left := orphans.Keys;
      while left != {}
        invariant left <= orphans0.Keys
        invariant orphans == Partly(orphans0, left, events0, ledger0, cap)
        invariant Extends(events0, ledger0, events, ledger)
        invariant LogOf(orphans0, orphans0.Keys - left, events0, ledger0, cap, log)
        invariant Targeted(events0, ledger0, log)
        invariant events == EventsAfter(events0, log) && ledger == LedgerAfter(ledger0, log)
        invariant report == ReportOn(orphans0, orphans0.Keys - left, events0, ledger0, cap)
        decreases |left|
      {
        var id :| id in left;
        ghost var events1, ledger1 := events, ledger;
        SameFate(orphans[id], events0, ledger0, events, ledger, cap);
        var fate;
        ghost var one;
        fate, one := ReconcileOne(id, cap);
        LogMore(orphans0, left, id, events0, ledger0, cap, log, one);
        log := log + one;
        ExtendsTwice(events0, ledger0, events1, ledger1, events, ledger);
        PartlyMore(orphans0, left, id, events0, ledger0, cap);
        report := match fate
          case Reconciled => report.(reconciled := report.reconciled + 1)
          case AgedOut => report.(agedOut := report.agedOut + 1)
          case StillPending => report.(stillPending := report.stillPending + 1);
        ReportMore(orphans0, left, id, events0, ledger0, cap);
        left := left - {id};
      }
      assert orphans0.Keys - left == orphans0.Keys;
      PartlyNone(orphans0, events0, ledger0, cap);
      ReportTotal(orphans0, orphans0.Keys, events0, ledger0, cap);
    }
  }

  // One entry for each reconciled row among `ids`.
  ghost predicate LogOf(orphans: map<Uuid, Orphan>, ids: set<Uuid>, events: set<Event>, ledger: map<Uuid, Request>,
                        cap: int, log: seq<Promotion>)
  {
    && (forall p :: p in log ==> p.id in orphans && p.receipt == orphans[p.id])
    && (set p | p in log :: p.id) == WithFate(orphans, ids, events, ledger, cap, Reconciled)
    && (forall i, j :: 0 <= i < j < |log| ==> log[i].id != log[j].id)
  }

  lemma LogMore(orphans: map<Uuid, Orphan>, left: set<Uuid>, id: Uuid, events: set<Event>, ledger: map<Uuid, Request>,
                cap: int, log: seq<Promotion>, one: seq<Promotion>)
    requires left <= orphans.Keys && id in left
    requires LogOf(orphans, orphans.Keys - left, events, ledger, cap, log)
    requires if FateOf(orphans[id], events, ledger, cap).Reconciled?
             then |one| == 1 && one[0].id == id && one[0].receipt == orphans[id] else one == []
    requires Targeted(events, ledger, log)
    requires Targeted(EventsAfter(events, log), LedgerAfter(ledger, log), one)
    ensures LogOf(orphans, orphans.Keys - (left - {id}), events, ledger, cap, log + one)
    ensures Targeted(events, ledger, log + one)
    ensures EventsAfter(events, log + one) == EventsAfter(EventsAfter(events, log), one)
    ensures LedgerAfter(ledger, log + one) == LedgerAfter(LedgerAfter(ledger, log), one)
  {
    LogGrows(orphans, left, id, events, ledger, cap, log, one);
    if one == [] {
      assert log + one == log;
    } else {
      assert one[..0] == [] && (log + one)[..|log|] == log;
    }
  }

  lemma FateGrows(orphans: map<Uuid, Orphan>, left: set<Uuid>, id: Uuid, events: set<Event>,
                  ledger: map<Uuid, Request>, cap: int)
    requires left <= orphans.Keys && id in left
    ensures WithFate(orphans, orphans.Keys - (left - {id}), events, ledger, cap, Reconciled)
            == WithFate(orphans, orphans.Keys - left, events, ledger, cap, Reconciled)
               + if FateOf(orphans[id], events, ledger, cap).Reconciled? then {id} else {}
  {
  }

  lemma IdsGrow(log: seq<Promotion>, p: Promotion)
    ensures (set q | q in log + [p] :: q.id) == (set q | q in log :: q.id) + {p.id}
  {
    assert forall q :: q in log + [p] <==> q in log || q == p;
  }

  lemma LogGrows(orphans: map<Uuid, Orphan>, left: set<Uuid>, id: Uuid, events: set<Event>,
                 ledger: map<Uuid, Request>, cap: int, log: seq<Promotion>, one: seq<Promotion>)
    requires left <= orphans.Keys && id in left
    requires LogOf(orphans, orphans.Keys - left, events, ledger, cap, log)
    requires if FateOf(orphans[id], events, ledger, cap).Reconciled?
             then |one| == 1 && one[0].id == id && one[0].receipt == orphans[id] else one == []
    ensures LogOf(orphans, orphans.Keys - (left - {id}), events, ledger, cap, log + one)
  {
    FateGrows(orphans, left, id, events, ledger, cap);
    var ids := set p | p in log :: p.id;
    assert id !in ids;
    assert forall i :: 0 <= i < |log| ==> log[i].id in ids;
    if one == [] {
      assert log + one == log;
    } else {
      assert one == [one[0]];
      IdsGrow(log, one[0]);
    }
  }

  datatype Fate = Reconciled | AgedOut | StillPending

  function FateOf(o: Orphan, events: set<Event>, ledger: map<Uuid, Request>, cap: int): Fate {
    if IsMatched(o, events, ledger) then Reconciled
    else if o.attempts + 1 >= cap then AgedOut
    else StillPending
  }

  function Aged(o: Orphan): Orphan {
    o.(attempts := o.attempts + 1)
  }

  ghost function WithFate(orphans: map<Uuid, Orphan>, ids: set<Uuid>, events: set<Event>, ledger: map<Uuid, Request>,
                          cap: int, fate: Fate): set<Uuid>
  {
    set id | id in orphans && id in ids && FateOf(orphans[id], events, ledger, cap) == fate
  }

  ghost function ReportOn(orphans: map<Uuid, Orphan>, ids: set<Uuid>, events: set<Event>, ledger: map<Uuid, Request>,
                          cap: int): Report
  {
    Report(|WithFate(orphans, ids, events, ledger, cap, Reconciled)|,
           |WithFate(orphans, ids, events, ledger, cap, AgedOut)|,
           |WithFate(orphans, ids, events, ledger, cap, StillPending)|)
  }

  lemma CountOne(orphans: map<Uuid, Orphan>, left: set<Uuid>, id: Uuid, events: set<Event>,
                 ledger: map<Uuid, Request>, cap: int, fate: Fate)
    requires left <= orphans.Keys && id in left
    ensures |WithFate(orphans, orphans.Keys - (left - {id}), events, ledger, cap, fate)| ==
            |WithFate(orphans, orphans.Keys - left, events, ledger, cap, fate)| +
            if FateOf(orphans[id], events, ledger, cap) == fate then 1 else 0
  {
    var before := WithFate(orphans, orphans.Keys - left, events, ledger, cap, fate);
    var after := WithFate(orphans, orphans.Keys - (left - {id}), events, ledger, cap, fate);
    assert after == if FateOf(orphans[id], events, ledger, cap) == fate then before + {id} else before;
  }

  lemma ReportMore(orphans: map<Uuid, Orphan>, left: set<Uuid>, id: Uuid, events: set<Event>,
                   ledger: map<Uuid, Request>, cap: int)
    requires left <= orphans.Keys && id in left
    ensures var before := ReportOn(orphans, orphans.Keys - left, events, ledger, cap);
            ReportOn(orphans, orphans.Keys - (left - {id}), events, ledger, cap) ==
            match FateOf(orphans[id], events, ledger, cap)
            case Reconciled => before.(reconciled := before.reconciled + 1)
            case AgedOut => before.(agedOut := before.agedOut + 1)
            case StillPending => before.(stillPending := before.stillPending + 1)
  {
    CountOne(orphans, left, id, events, ledger, cap, Reconciled);
    CountOne(orphans, left, id, events, ledger, cap, AgedOut);
    CountOne(orphans, left, id, events, ledger, cap, StillPending);
  }

  lemma ReportTotal(orphans: map<Uuid, Orphan>, ids: set<Uuid>, events: set<Event>, ledger: map<Uuid, Request>, cap: int)
    requires ids <= orphans.Keys
    ensures var r := ReportOn(orphans, ids, events, ledger, cap); r.reconciled + r.agedOut + r.stillPending == |ids|
  {
    var a := WithFate(orphans, ids, events, ledger, cap, Reconciled);
    var b := WithFate(orphans, ids, events, ledger, cap, AgedOut);
    var c := WithFate(orphans, ids, events, ledger, cap, StillPending);
    assert ids == a + b + c;
    assert a !! b && (a + b) !! c;
    assert |a + b| == |a| + |b|;
    assert |a + b + c| == |a + b| + |c|;
  }

  // Promoting a matched receipt neither creates nor destroys a match.
  lemma PromotedSameMatches(events: set<Event>, ledger: map<Uuid, Request>, e: Event, ledger': map<Uuid, Request>)
    requires HasMatch(events, ledger, e.providerRef) && ledger'.Keys == ledger.Keys
    ensures SameMatches(events, ledger, events + {e}, ledger')
  {
    forall providerRef
      ensures HasMatch(events, ledger, providerRef) <==> HasMatch(events + {e}, ledger', providerRef)
    {
      if HasMatch(events, ledger, providerRef) {
        var w :| w in events && Carries(w, ledger, providerRef);
        assert w in events + {e} && Carries(w, ledger', providerRef);
      }
    }
  }

  lemma SameFate(o: Orphan, events: set<Event>, ledger: map<Uuid, Request>, events': set<Event>,
                 ledger': map<Uuid, Request>, cap: int)
    requires SameMatches(events, ledger, events', ledger')
    ensures FateOf(o, events, ledger, cap) == FateOf(o, events', ledger', cap)
  {
  }

  // The pending rows after the rows outside `left` have been dealt with.
  function Partly(orphans: map<Uuid, Orphan>, left: set<Uuid>, events: set<Event>, ledger: map<Uuid, Request>, cap: int)
    : map<Uuid, Orphan>
  {
    map id | id in orphans && (id in left || (!IsMatched(orphans[id], events, ledger) && orphans[id].attempts + 1 < cap))
           :: if id in left then orphans[id] else orphans[id].(attempts := orphans[id].attempts + 1)
  }

  lemma PartlyMore(orphans: map<Uuid, Orphan>, left: set<Uuid>, id: Uuid, events: set<Event>,
                   ledger: map<Uuid, Request>, cap: int)
    requires left <= orphans.Keys && id in left
    ensures var before := Partly(orphans, left, events, ledger, cap);
            Partly(orphans, left - {id}, events, ledger, cap) ==
            if FateOf(orphans[id], events, ledger, cap).StillPending? then before[id := Aged(orphans[id])] else before - {id}
  {
  }

  lemma PartlyNone(orphans: map<Uuid, Orphan>, events: set<Event>, ledger: map<Uuid, Request>, cap: int)
    ensures Partly(orphans, {}, events, ledger, cap) == Remaining(orphans, events, ledger, cap)
  {
  }

  // Events are only added, no match appears or goes, no absorbing status is
  // lost.
  ghost predicate Extends(events: set<Event>, ledger: map<Uuid, Request>, events': set<Event>,
                          ledger': map<Uuid, Request>)
  {
    events <= events' && KeepsAbsorbing(ledger, ledger') && SameMatches(events, ledger, events', ledger')
  }

  lemma ExtendsTwice(events: set<Event>, ledger: map<Uuid, Request>, events1: set<Event>, ledger1: map<Uuid, Request>,
                     events2: set<Event>, ledger2: map<Uuid, Request>)
    requires Extends(events, ledger, events1, ledger1) && Extends(events1, ledger1, events2, ledger2)
    ensures Extends(events, ledger, events2, ledger2)
  {
  }

  ghost predicate SameMatches(events: set<Event>, ledger: map<Uuid, Request>, events': set<Event>,
                              ledger': map<Uuid, Request>)
  {
    forall providerRef :: HasMatch(events, ledger, providerRef) <==> HasMatch(events', ledger', providerRef)
  }

  // ----------------------------------------------------------- ageing out

  // The pending rows after one pass over each view of the other tables.
  function AfterPasses(orphans: map<Uuid, Orphan>, views: seq<(set<Event>, map<Uuid, Request>)>, cap: int)
    : map<Uuid, Orphan>
  {
    if views == [] then orphans
    else
      var last := views[|views| - 1];
      Remaining(AfterPasses(orphans, views[..|views| - 1], cap), last.0, last.1, cap)
  }

  // A fresh orphan nothing ever matches is kept, one attempt older each time,
  // and goes on exactly its cap-th pass (its first, for a cap below 1).
  lemma {:induction false} AgesOutAtCap(orphans: map<Uuid, Orphan>, id: Uuid,
                                        views: seq<(set<Event>, map<Uuid, Request>)>, cap: int)
    requires id in orphans && orphans[id].attempts == 0
    requires forall k :: 0 <= k < |views| ==> !IsMatched(orphans[id], views[k].0, views[k].1)
    ensures id in AfterPasses(orphans, views, cap) <==> views == [] || |views| < cap
    ensures id in AfterPasses(orphans, views, cap) ==>
              AfterPasses(orphans, views, cap)[id] == orphans[id].(attempts := |views|)
  {
    if views == [] {
    } else {
      AgesOutAtCap(orphans, id, views[..|views| - 1], cap);
    }
  }
}
