/**
 * Kill-switch rows and the three forms in which the system asks whether a
 * queued message falls under one: the per-request test (`Matches`), the
 * exclusion the claim query carries (`ExclusionFor` / `Blocks`) and the
 * scope query of a drain (`ScopeSelects`).
 */
module KillSwitch {
  import opened Base

  // The `scope` column: the five recognised values, or any other text.
  datatype Scope = Global | Channel | Producer | ProducerChannel | Campaign | OtherScope(text: string)

  // The `on_queued` column.
  datatype OnQueued = Hold | Discard | OtherAction(text: string)

  datatype Switch = Switch(id: Uuid, scope: Scope, scopeKey: Option<string>, onQueued: OnQueued)

  // Uuid text parsing is a parameter: every statement holds for any parser.
  type UuidParser = string -> Option<Uuid>

  // The columns of an outbox row (or of an ingest request) a switch looks at.
  datatype Target = Target(channel: string, producer: Uuid, campaign: Option<string>)

  function ProducerId(parse: UuidParser, s: Switch): Option<Uuid> {
    if s.scopeKey.None? then None else parse(s.scopeKey.value)
  }

  function ProducerChannelParts(parse: UuidParser, s: Switch): Option<(Uuid, string)> {
    if s.scopeKey.None? then None
    else
      match SplitOnce(s.scopeKey.value, ':')
      case None => None
      case Some((producer, channel)) =>
        match parse(producer)
        case None => None
        case Some(id) => Some((id, channel))
  }

  predicate Matches(parse: UuidParser, s: Switch, t: Target) {
    match s.scope
    case Global => true
    case Channel => s.scopeKey == Some(t.channel)
    case Producer => ProducerId(parse, s) == Some(t.producer)
    case ProducerChannel => ProducerChannelParts(parse, s) == Some((t.producer, t.channel))
    case Campaign => t.campaign.Some? && s.scopeKey == t.campaign
    case OtherScope(_) => false
  }

  predicate MatchedBySome(parse: UuidParser, switches: seq<Switch>, t: Target) {
    exists s :: s in switches && Matches(parse, s, t)
  }

  // ------------------------------------------------------------- exclusion

  datatype ChannelExclusion = ChannelExclusion(
    blockedEntirely: bool,
    blockedProducers: seq<Uuid>,
    blockedCampaigns: seq<string>)

  const NO_EXCLUSION := ChannelExclusion(false, [], [])

  // One turn of the loop that folds a switch list into an exclusion.
  function AddToExclusion(parse: UuidParser, ex: ChannelExclusion, s: Switch, channel: string): ChannelExclusion {
    match s.scope
    case Global => ex.(blockedEntirely := true)
    case Channel =>
      if s.scopeKey == Some(channel) then ex.(blockedEntirely := true) else ex
    case Producer =>
      (match ProducerId(parse, s)
       case None => ex
       case Some(id) => ex.(blockedProducers := ex.blockedProducers + [id]))
    case ProducerChannel =>
      (match ProducerChannelParts(parse, s)
       case None => ex
       case Some((id, ch)) =>
         if ch == channel then ex.(blockedProducers := ex.blockedProducers + [id]) else ex)
    case Campaign =>
      (match s.scopeKey
       case None => ex
       case Some(c) => ex.(blockedCampaigns := ex.blockedCampaigns + [c]))
    case OtherScope(_) => ex
  }

  function ExclusionFor(parse: UuidParser, switches: seq<Switch>, channel: string): ChannelExclusion {
    if switches == [] then NO_EXCLUSION
    else
      var last := |switches| - 1;
      AddToExclusion(parse, ExclusionFor(parse, switches[..last], channel), switches[last], channel)
  }

  method BuildExclusion(parse: UuidParser, switches: seq<Switch>, channel: string)
    returns (result: ChannelExclusion)
    ensures result == ExclusionFor(parse, switches, channel)
    ensures forall t: Target | t.channel == channel ::
              Blocks(result, t) <==> MatchedBySome(parse, switches, t)
  {
    result := NO_EXCLUSION;
    for i := 0 to |switches|
      invariant result == ExclusionFor(parse, switches[..i], channel)
    {
      result := AddToExclusion(parse, result, switches[i], channel);
      assert switches[..i + 1][..i] == switches[..i];
    }
    assert switches[..|switches|] == switches;
    forall t: Target | t.channel == channel
      ensures Blocks(result, t) <==> MatchedBySome(parse, switches, t)
    {
      ExclusionExact(parse, switches, t);
    }
  }

  // The claim query's filter: `blocked_entirely` skips the query, the two
  // lists are `<> ALL` predicates, and a NULL campaign passes.
  predicate Blocks(ex: ChannelExclusion, t: Target) {
    || ex.blockedEntirely
    || t.producer in ex.blockedProducers
    || (t.campaign.Some? && t.campaign.value in ex.blockedCampaigns)
  }

  lemma AddToExclusionExact(parse: UuidParser, ex: ChannelExclusion, s: Switch, t: Target)
    ensures Blocks(AddToExclusion(parse, ex, s, t.channel), t) <==> Blocks(ex, t) || Matches(parse, s, t)
  {
  }

  // A row is dropped by the claim filter exactly when some switch matches it.
  lemma {:induction false} ExclusionExact(parse: UuidParser, switches: seq<Switch>, t: Target)
    ensures Blocks(ExclusionFor(parse, switches, t.channel), t) <==> MatchedBySome(parse, switches, t)
  {
    if switches == [] {
    } else {
      var last := |switches| - 1;
      ExclusionExact(parse, switches[..last], t);
      AddToExclusionExact(parse, ExclusionFor(parse, switches[..last], t.channel), switches[last], t);
      assert switches == switches[..last] + [switches[last]];
    }
  }

  // ------------------------------------------------------------ scope query

  // The WHERE clause a scope query builds, with its early empty results:
  // `pin` is the channel the caller pins the result to, if any.
  predicate ScopeSelects(parse: UuidParser, pin: Option<string>, s: Switch, t: Target) {
    && (pin.Some? ==> t.channel == pin.value)
    && match s.scope
       case Global => true
       case Channel =>
         s.scopeKey.Some? && (if pin.Some? then pin.value == s.scopeKey.value else t.channel == s.scopeKey.value)
       case Producer =>
         var id := ProducerId(parse, s);
         id.Some? && t.producer == id.value
       case ProducerChannel =>
         var parts := ProducerChannelParts(parse, s);
         && parts.Some?
         && (if pin.Some? then pin.value == parts.value.1 else t.channel == parts.value.1)
         && t.producer == parts.value.0
       case Campaign =>
         s.scopeKey.Some? && t.campaign == Some(s.scopeKey.value)
       case OtherScope(_) => false
  }

  lemma ScopeSelectsExact(parse: UuidParser, pin: Option<string>, s: Switch, t: Target)
    ensures ScopeSelects(parse, pin, s, t) <==>
            (pin.Some? ==> t.channel == pin.value) && Matches(parse, s, t)
  {
  }

  // ---------------------------------------------------------- platform tier

  datatype PlatformScope = Platform | Tenant | OtherPlatformScope(text: string)

  datatype PlatformSwitch = PlatformSwitch(id: Uuid, scope: PlatformScope, tenantId: Option<Uuid>)

  predicate AppliesTo(p: PlatformSwitch, tenant: Uuid) {
    match p.scope
    case Platform => true
    case Tenant => p.tenantId == Some(tenant)
    case OtherPlatformScope(_) => false
  }

  function AsKillSwitch(p: PlatformSwitch): Switch {
    Switch(p.id, Global, None, Hold)
  }
}
