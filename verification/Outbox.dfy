/**
 * The tenant tables the dispatcher and ingest share, each SQL statement or
 * transaction on them as a function of the table contents, and the class
 * whose methods carry those statements out.
 */
module Outbox {
  import opened Base
  import opened KillSwitch

  datatype EventType =
    | Queued | Sent | Delivered | Read
    | Failed | Bounced | Complaint | Expired | Cancelled
    | SuppressedConsent | SuppressedList | UnverifiedAddress
    | OtherEvent(text: string)

  const DISCARDED := OtherEvent("discarded")

  // The `class` column; `auth` messages never reach the outbox.
  datatype MessageClass = Transactional | Marketing | OtherClass(text: string)

  datatype OutboxRow = OutboxRow(
    target: Target,
    category: MessageClass,
    priority: int,
    nextAttemptAt: Instant,
    expiresAt: Option<Instant>,
    cancelledAt: Option<Instant>,
    attempts: int,
    leasedUntil: Option<Instant>)

  // A `comms_request` row: the columns that ever change or are looked up.
  datatype Request = Request(producer: Uuid, finalStatus: Option<EventType>)

  // The unique key of a `comms_event` row; '' is "the provider gave none".
  datatype Event = Event(request: Uuid, occurredAt: Instant, eventType: EventType, providerRef: string)

  datatype Tables = Tables(
    outbox: map<Uuid, OutboxRow>,
    ledger: map<Uuid, Request>,
    events: set<Event>,
    idempotency: map<(Uuid, string), Uuid>)

  // `attempts` is a smallint: bumping it past this fails the statement.
  const MAX_SMALLINT := 32767

  // ---------------------------------------------------------------- claims

  predicate Ready(row: OutboxRow, now: Instant) {
    row.nextAttemptAt <= now && row.leasedUntil.None?
  }

  predicate PassesFilter(ex: ChannelExclusion, t: Target) {
    && t.producer !in ex.blockedProducers
    && (t.campaign.None? || t.campaign.value !in ex.blockedCampaigns)
  }

  // The rows a channel's claim may take, given its exclusion.
  function ClaimCandidates(outbox: map<Uuid, OutboxRow>, channel: string, now: Instant, ex: ChannelExclusion)
    : set<Uuid>
  {
    if ex.blockedEntirely then {}
    else
      set id | id in outbox && outbox[id].target.channel == channel && Ready(outbox[id], now)
               && PassesFilter(ex, outbox[id].target)
  }

  // The rows a scope query may take: a released switch's drain (pinned to a
  // channel) or an engaged switch's discard (no pin, no exclusion).
  function ScopeCandidates(parse: UuidParser, outbox: map<Uuid, OutboxRow>, pin: Option<string>, s: Switch,
                           now: Instant, ex: ChannelExclusion)
    : set<Uuid>
  {
    if ex.blockedEntirely then {}
    else
      set id | id in outbox && Ready(outbox[id], now) && ScopeSelects(parse, pin, s, outbox[id].target)
               && PassesFilter(ex, outbox[id].target)
  }

  // A claim built from a switch list takes exactly the ready rows of its
  // channel that no listed switch matches.
  lemma ClaimCandidatesExact(parse: UuidParser, outbox: map<Uuid, OutboxRow>, channel: string, now: Instant,
                             switches: seq<Switch>, id: Uuid)
    ensures id in ClaimCandidates(outbox, channel, now, ExclusionFor(parse, switches, channel)) <==>
            && id in outbox && outbox[id].target.channel == channel && Ready(outbox[id], now)
            && !MatchedBySome(parse, switches, outbox[id].target)
  {
    if id in outbox && outbox[id].target.channel == channel {
      ExclusionExact(parse, switches, outbox[id].target);
    }
  }

  // A pinned scope query takes exactly the ready rows of that channel the
  // switch matches and no switch of the exclusion's list matches.
  lemma ScopeCandidatesExact(parse: UuidParser, outbox: map<Uuid, OutboxRow>, channel: string, s: Switch,
                             now: Instant, switches: seq<Switch>, id: Uuid)
    ensures id in ScopeCandidates(parse, outbox, Some(channel), s, now, ExclusionFor(parse, switches, channel)) <==>
            && id in outbox && outbox[id].target.channel == channel && Ready(outbox[id], now)
            && Matches(parse, s, outbox[id].target)
            && !MatchedBySome(parse, switches, outbox[id].target)
  {
    if id in outbox && outbox[id].target.channel == channel {
      ExclusionExact(parse, switches, outbox[id].target);
      ScopeSelectsExact(parse, Some(channel), s, outbox[id].target);
    }
  }

  // ORDER BY priority, next_attempt_at
  predicate NoLater(a: OutboxRow, b: OutboxRow) {
    a.priority < b.priority || (a.priority == b.priority && a.nextAttemptAt <= b.nextAttemptAt)
  }

  // ORDER BY ... LIMIT: as many candidates as the limit allows, none of them
  // after one left behind. Ties may be broken either way.
  predicate IsBatch(outbox: map<Uuid, OutboxRow>, candidates: set<Uuid>, limit: nat, batch: set<Uuid>)
    requires candidates <= outbox.Keys
  {
    && batch <= candidates
    && |batch| == Min(limit, |candidates|)
    && forall b, c :: b in batch && c in candidates - batch ==> NoLater(outbox[b], outbox[c])
  }

  lemma {:induction false} EarliestExists(outbox: map<Uuid, OutboxRow>, ids: set<Uuid>) returns (first: Uuid)
    requires ids <= outbox.Keys && ids != {}
    ensures first in ids && forall c :: c in ids ==> NoLater(outbox[first], outbox[c])
    decreases |ids|
  {
    var any :| any in ids;
    var rest := ids - {any};
    if rest == {} {
      assert ids == {any};
      first := any;
    } else {
      var other := EarliestExists(outbox, rest);
      first := if NoLater(outbox[other], outbox[any]) then other else any;
      forall c | c in ids ensures NoLater(outbox[first], outbox[c]) {
        if c != any {
          assert c in rest;
        }
      }
    }
  }

  lemma {:induction false} BatchExists(outbox: map<Uuid, OutboxRow>, candidates: set<Uuid>, limit: nat)
    returns (batch: set<Uuid>)
    requires candidates <= outbox.Keys
    ensures IsBatch(outbox, candidates, limit, batch)
    decreases limit
  {
    if limit == 0 || candidates == {} {
      batch := {};
    } else {
      var first := EarliestExists(outbox, candidates);
      var rest := BatchExists(outbox, candidates - {first}, limit - 1);
      batch := {first} + rest;
      assert candidates - batch == candidates - {first} - rest;
    }
  }

  // A batch is empty only when nothing was claimable (or the limit is 0).
  lemma EmptyBatch(outbox: map<Uuid, OutboxRow>, candidates: set<Uuid>, limit: nat, batch: set<Uuid>)
    requires candidates <= outbox.Keys && IsBatch(outbox, candidates, limit, batch)
    ensures batch == {} <==> limit == 0 || candidates == {}
  {
    if |batch| == 0 {
      assert batch == {};
    }
  }

  function Leased(row: OutboxRow, until: Instant): OutboxRow {
    row.(leasedUntil := Some(until), attempts := row.attempts + 1)
  }

  function Lease(outbox: map<Uuid, OutboxRow>, batch: set<Uuid>, until: Instant): map<Uuid, OutboxRow> {
    map id | id in outbox :: if id in batch then Leased(outbox[id], until) else outbox[id]
  }

  // ----------------------------------------------- claims that cannot happen

  // Bumping `attempts` of one of these rows overflows the column.
  ghost predicate Overflows(outbox: map<Uuid, OutboxRow>, batch: set<Uuid>) {
    exists id :: id in batch && id in outbox && outbox[id].attempts >= MAX_SMALLINT
  }

  // What one claim does, whichever of several equal batches it picks.
  ghost predicate ClaimStep(outbox: map<Uuid, OutboxRow>, candidates: set<Uuid>, limit: nat, until: Instant,
                            claimed: Option<set<Uuid>>, outbox': map<Uuid, OutboxRow>)
    requires candidates <= outbox.Keys
  {
    exists batch :: IsBatch(outbox, candidates, limit, batch) && Claims(outbox, batch, until, claimed, outbox')
  }

  // The picked batch is leased as a whole, or, exactly when it holds a row at
  // the column's limit, the statement fails and nothing changes.
  ghost predicate Claims(outbox: map<Uuid, OutboxRow>, batch: set<Uuid>, until: Instant, claimed: Option<set<Uuid>>,
                         outbox': map<Uuid, OutboxRow>)
  {
    && (claimed.None? <==> Overflows(outbox, batch))
    && if claimed.None? then outbox' == outbox else claimed.value == batch && outbox' == Lease(outbox, batch, until)
  }

  // A row strictly before all other candidates is in every batch.
  lemma FirstIsPicked(outbox: map<Uuid, OutboxRow>, candidates: set<Uuid>, limit: nat, batch: set<Uuid>, first: Uuid)
    requires candidates <= outbox.Keys && IsBatch(outbox, candidates, limit, batch)
    requires limit >= 1 && first in candidates
    requires forall c :: c in candidates && c != first ==> !NoLater(outbox[c], outbox[first])
    ensures first in batch
  {
    EmptyBatch(outbox, candidates, limit, batch);
    var b :| b in batch;
    if b != first {
      assert !NoLater(outbox[b], outbox[first]);
    }
  }

  // One claim of the channel loop: the queue it finds, when and with what it
  // is made, and what it returns and leaves.
  datatype Try = Try(found: map<Uuid, OutboxRow>, now: Instant, ex: ChannelExclusion, limit: nat, until: Instant,
                     claimed: Option<set<Uuid>>, left: map<Uuid, OutboxRow>)

  ghost predicate Tried(channel: string, t: Try) {
    ClaimStep(t.found, ClaimCandidates(t.found, channel, t.now, t.ex), t.limit, t.until, t.claimed, t.left)
  }

  // The row may be taken, and comes strictly before all others that may.
  ghost predicate IsFirst(channel: string, t: Try, first: Uuid) {
    var candidates := ClaimCandidates(t.found, channel, t.now, t.ex);
    && t.limit >= 1 && first in candidates
    && forall c :: c in candidates && c != first ==> !NoLater(t.found[c], t.found[first])
  }

  // Attempts only ever grow from one claim to the next, whatever else others
  // do to the queue meanwhile.
  ghost predicate KeepsCount(t: Try, next: Try, first: Uuid) {
    first in t.left && first in next.found ==> next.found[first].attempts >= t.left[first].attempts
  }

  lemma FirstFails(channel: string, t: Try, first: Uuid)
    requires Tried(channel, t) && IsFirst(channel, t, first) && t.found[first].attempts >= MAX_SMALLINT
    ensures t.claimed.None? && t.left == t.found
  {
    var candidates := ClaimCandidates(t.found, channel, t.now, t.ex);
    var batch :| IsBatch(t.found, candidates, t.limit, batch) && Claims(t.found, batch, t.until, t.claimed, t.left);
    FirstIsPicked(t.found, candidates, t.limit, batch, first);
  }

  // A row at the limit fails every claim of its channel for as long as it
  // stays first, whatever the time, the exclusion and the limit of each, and
  // whatever arrives behind it: no claim takes or changes anything.
  lemma {:induction false} StuckForEver(channel: string, tries: seq<Try>, first: Uuid, n: nat)
    requires n < |tries| && first in tries[0].found && tries[0].found[first].attempts >= MAX_SMALLINT
    requires forall k :: 0 <= k < |tries| ==> Tried(channel, tries[k]) && IsFirst(channel, tries[k], first)
    requires forall k :: 0 < k < |tries| ==> KeepsCount(tries[k - 1], tries[k], first)
    ensures tries[n].claimed.None? && tries[n].left == tries[n].found
    ensures first in tries[n].found && tries[n].found[first].attempts >= MAX_SMALLINT
    decreases n
  {
    if n == 0 {
    } else {
      StuckForEver(channel, tries, first, n - 1);
      assert KeepsCount(tries[n - 1], tries[n], first);
    }
    FirstFails(channel, tries[n], first);
  }

  // One row at the limit is enough.
  lemma LimitRowIsStuck(claimed: Option<set<Uuid>>, outbox': map<Uuid, OutboxRow>)
    requires var outbox: map<Uuid, OutboxRow> :=
               map[1 := OutboxRow(Target("sms", 5, None), Transactional, 1, 0, None, None, MAX_SMALLINT, None)];
             ClaimStep(outbox, ClaimCandidates(outbox, "sms", 0, NO_EXCLUSION), 20, 9, claimed, outbox')
    ensures claimed.None?
    ensures outbox' == map[1 := OutboxRow(Target("sms", 5, None), Transactional, 1, 0, None, None, MAX_SMALLINT, None)]
  {
    var outbox: map<Uuid, OutboxRow> :=
      map[1 := OutboxRow(Target("sms", 5, None), Transactional, 1, 0, None, None, MAX_SMALLINT, None)];
    var candidates := ClaimCandidates(outbox, "sms", 0, NO_EXCLUSION);
    assert candidates == {1};
    var batch :| IsBatch(outbox, candidates, 20, batch) && Claims(outbox, batch, 9, claimed, outbox');
    FirstIsPicked(outbox, candidates, 20, batch, 1);
  }

  // ------------------------------------------------------ other statements

  function Reschedule(outbox: map<Uuid, OutboxRow>, id: Uuid, at: Instant): map<Uuid, OutboxRow> {
    if id in outbox then outbox[id := outbox[id].(leasedUntil := None, nextAttemptAt := at)] else outbox
  }

  function ClearLeases(outbox: map<Uuid, OutboxRow>): map<Uuid, OutboxRow> {
    map id | id in outbox :: outbox[id].(leasedUntil := None)
  }

  function RecordEvent(t: Tables, id: Uuid, now: Instant, eventType: EventType): Tables {
    t.(events := t.events + {Event(id, now, eventType, "")})
  }

  // The event insert, the ledger update and the queue delete of one commit.
  function WriteTerminal(t: Tables, id: Uuid, now: Instant, eventType: EventType, providerRef: string): Tables {
    t.(events := t.events + {Event(id, now, eventType, providerRef)},
       ledger := if id in t.ledger then t.ledger[id := t.ledger[id].(finalStatus := Some(eventType))] else t.ledger,
       outbox := t.outbox - {id})
  }

  datatype InsertOutcome = Created | Replayed(request: Uuid)

  function Ingest(t: Tables, key: string, id: Uuid, row: OutboxRow): (Tables, InsertOutcome) {
    var claim := (row.target.producer, key);
    if claim in t.idempotency then (t, Replayed(t.idempotency[claim]))
    else
      (t.(idempotency := t.idempotency[claim := id],
          ledger := t.ledger[id := Request(row.target.producer, None)],
          outbox := t.outbox[id := row]),
       Created)
  }

  datatype CancelOutcome = DidCancel | AlreadySent | NotFound

  function MarkCancelled(outbox: map<Uuid, OutboxRow>, id: Uuid, now: Instant): map<Uuid, OutboxRow>
    requires id in outbox
  {
    var row := outbox[id];
    outbox[id := row.(cancelledAt := if row.cancelledAt.Some? then row.cancelledAt else Some(now))]
  }

  predicate Owns(t: Tables, id: Uuid, producer: Uuid) {
    id in t.outbox && t.outbox[id].target.producer == producer
  }

  function Cancel(t: Tables, id: Uuid, producer: Uuid, now: Instant): (Tables, CancelOutcome) {
    if Owns(t, id, producer) then (t.(outbox := MarkCancelled(t.outbox, id, now)), DidCancel)
    else if id in t.ledger && t.ledger[id].producer == producer && t.ledger[id].finalStatus.Some? then
      (t, if t.ledger[id].finalStatus.value == EventType.Cancelled then DidCancel else AlreadySent)
    else (t, NotFound)
  }

  // ------------------------------------------------------------- the class

  class Database {
    var outbox: map<Uuid, OutboxRow>
    var ledger: map<Uuid, Request>
    var events: set<Event>
    var idempotency: map<(Uuid, string), Uuid>

    function View(): Tables
      reads this
    {
      Tables(outbox, ledger, events, idempotency)
    }

    constructor ()
      ensures View() == Tables(map[], map[], {}, map[])
    {
      outbox, ledger, events, idempotency := map[], map[], {}, map[];
    }

    // The one statement behind both claims: picks a batch and leases it.
    method LeaseBatch(candidates: set<Uuid>, limit: nat, until: Instant)
      returns (claimed: Option<set<Uuid>>, ghost batch: set<Uuid>)
      requires candidates <= outbox.Keys
      modifies this`outbox
      ensures IsBatch(old(outbox), candidates, limit, batch)
      ensures Claims(old(outbox), batch, until, claimed, outbox)
    {
      ghost var _ := BatchExists(outbox, candidates, limit);
      var picked: set<Uuid> :| picked <= candidates && IsBatch(outbox, candidates, limit, picked);
      batch := picked;
      if exists id :: id in picked && outbox[id].attempts >= MAX_SMALLINT {
        claimed := None;
        return;
      }
      outbox := Lease(outbox, picked, until);
      claimed := Some(picked);
    }

    method Claim(channel: string, limit: nat, now: Instant, until: Instant, ex: ChannelExclusion)
      returns (claimed: Option<set<Uuid>>, ghost batch: set<Uuid>)
      modifies this`outbox
      ensures IsBatch(old(outbox), ClaimCandidates(old(outbox), channel, now, ex), limit, batch)
      ensures Claims(old(outbox), batch, until, claimed, outbox)
    {
      claimed, batch := LeaseBatch(ClaimCandidates(outbox, channel, now, ex), limit, until);
    }

    method ClaimForScope(parse: UuidParser, pin: Option<string>, s: Switch, limit: nat, now: Instant,
                         until: Instant, ex: ChannelExclusion)
      returns (claimed: Option<set<Uuid>>, ghost batch: set<Uuid>)
      modifies this`outbox
      ensures IsBatch(old(outbox), ScopeCandidates(parse, old(outbox), pin, s, now, ex), limit, batch)
      ensures Claims(old(outbox), batch, until, claimed, outbox)
    {
      claimed, batch := LeaseBatch(ScopeCandidates(parse, outbox, pin, s, now, ex), limit, until);
    }

    method RescheduleRetry(id: Uuid, at: Instant)
      modifies this`outbox
      ensures outbox == Reschedule(old(outbox), id, at)
    {
      if id in outbox {
        outbox := outbox[id := outbox[id].(leasedUntil := None, nextAttemptAt := at)];
      }
    }

    // Every row is claimable again once its time has come, whoever held it;
    // a second sweep finds nothing to do.
    method ClearStaleLeases() returns (cleared: nat)
      modifies this`outbox
      ensures outbox == ClearLeases(old(outbox)) && outbox.Keys == old(outbox).Keys
      ensures cleared == |set id | id in old(outbox) && old(outbox)[id].leasedUntil.Some?|
      ensures forall id, now :: id in outbox ==> (Ready(outbox[id], now) <==> old(outbox)[id].nextAttemptAt <= now)
      ensures ClearLeases(outbox) == outbox && (cleared == 0 ==> outbox == old(outbox))
    {
      ghost var held := set id | id in outbox && outbox[id].leasedUntil.Some?;
      cleared := |set id | id in outbox && outbox[id].leasedUntil.Some?|;
      outbox := ClearLeases(outbox);
      if cleared == 0 {
        assert held == {};
        forall id | id in old(outbox) ensures old(outbox)[id].leasedUntil.None? {
          assert id !in held;
        }
      }
    }

    // `None` is the missing-row error.
    method IsCancelled(id: Uuid) returns (r: Option<bool>)
      ensures r.None? <==> id !in outbox
      ensures r.Some? ==> r.value == outbox[id].cancelledAt.Some?
    {
      r := if id in outbox then Some(outbox[id].cancelledAt.Some?) else None;
    }

    method RecordObserved(id: Uuid, now: Instant, eventType: EventType)
      modifies this`events
      ensures View() == RecordEvent(old(View()), id, now, eventType)
    {
      events := events + {Event(id, now, eventType, "")};
    }

    method Finalize(id: Uuid, now: Instant, eventType: EventType, providerRef: string)
      modifies this`events, this`ledger, this`outbox
      ensures View() == WriteTerminal(old(View()), id, now, eventType, providerRef)
    {
      events := events + {Event(id, now, eventType, providerRef)};
      if id in ledger {
        ledger := ledger[id := ledger[id].(finalStatus := Some(eventType))];
      }
      outbox := outbox - {id};
    }

    // Whatever this call is answered, any repeat of the request under the
    // same key is from now on answered with the same request and stores
    // nothing.
    method InsertTransactional(key: string, id: Uuid, row: OutboxRow) returns (outcome: InsertOutcome)
      modifies this`idempotency, this`ledger, this`outbox
      ensures (View(), outcome) == Ingest(old(View()), key, id, row)
      ensures forall other, again: OutboxRow :: again.target.producer == row.target.producer ==>
                Ingest(View(), key, other, again)
                == (View(), Replayed(if outcome.Created? then id else outcome.request))
    {
      var claim := (row.target.producer, key);
      if claim in idempotency {
        return Replayed(idempotency[claim]);
      }
      idempotency := idempotency[claim := id];
      ledger := ledger[id := Request(row.target.producer, None)];
      outbox := outbox[id := row];
      outcome := Created;
    }

    // Cancelling again changes nothing and is answered alike, and nothing but
    // the one row of the asking producer is ever touched.
    method CancelRequest(id: Uuid, producer: Uuid, now: Instant) returns (outcome: CancelOutcome)
      modifies this`outbox
      ensures (View(), outcome) == Cancel(old(View()), id, producer, now)
      ensures forall later :: Cancel(View(), id, producer, later) == (View(), outcome)
      ensures forall other :: other in old(outbox) && (other != id || old(outbox)[id].target.producer != producer) ==>
                other in outbox && outbox[other] == old(outbox)[other]
    {
      if id in outbox && outbox[id].target.producer == producer {
        outbox := MarkCancelled(outbox, id, now);
        assert forall later :: MarkCancelled(outbox, id, later) == outbox;
        return DidCancel;
      }
      if id in ledger && ledger[id].producer == producer && ledger[id].finalStatus.Some? {
        return if ledger[id].finalStatus.value == EventType.Cancelled then DidCancel else AlreadySent;
      }
      outcome := NotFound;
    }
  }
}
