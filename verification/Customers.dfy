/**
 * Resolving a send to a customer and an address, with any number of calls in
 * any number of processes interleaving one statement or transaction at a time.
 */
module Customers {
  import opened Base
  import opened Aliases

  // Data keys are compared, never looked into.
  type Key = nat
  type Hash = nat

  datatype Wrapped = Wrapped(key: Key)

  // An authenticated ciphertext: it opens only under its key and its aad.
  datatype Cipher = Cipher(key: Key, aad: Uuid, plain: string)

  function Decrypt(key: Key, aad: Uuid, c: Cipher): Option<string> {
    if c.key == key && c.aad == aad then Some(c.plain) else None
  }

  datatype Channel = Sms | Email | Whatsapp

  function KindForChannel(channel: Channel): string {
    match channel
    case Sms => "msisdn"
    case Email => "email"
    case Whatsapp => "whatsapp"
  }

  datatype Address = Address(customer: Uuid, kind: string, hmac: Hash, rank: nat, cipher: Cipher)

  datatype Tables = Tables(
    customers: set<Uuid>,
    externals: map<(string, string), Uuid>,
    addresses: map<Uuid, Address>,
    deks: map<Uuid, Wrapped>)

  // ------------------------------------------------------------- statements

  predicate Hit(t: Tables, kind: string, hmac: Hash, a: Uuid) {
    a in t.addresses && t.addresses[a].kind == kind && t.addresses[a].hmac == hmac
  }

  // Some active row carries this destination.
  predicate Taken(t: Tables, kind: string, hmac: Hash) {
    exists a :: a in t.addresses && Hit(t, kind, hmac, a)
  }

  // A row the lookup by destination may return.
  predicate Finds(t: Tables, kind: string, hmac: Hash, found: Option<Uuid>) {
    match found
    case Some(a) => Hit(t, kind, hmac, a)
    case None => !Taken(t, kind, hmac)
  }

  predicate Owned(t: Tables, customer: Uuid, kind: string, a: Uuid) {
    a in t.addresses && t.addresses[a].customer == customer && t.addresses[a].kind == kind
  }

  predicate FindsFor(t: Tables, customer: Uuid, kind: string, hmac: Hash, found: Option<Uuid>) {
    match found
    case Some(a) => Hit(t, kind, hmac, a) && t.addresses[a].customer == customer
    case None =>
      forall a :: a in t.addresses && Hit(t, kind, hmac, a) ==> t.addresses[a].customer != customer
  }

  // One more than the greatest rank this customer has for the kind.
  predicate NextRank(t: Tables, customer: Uuid, kind: string, rank: nat) {
    && rank >= 1
    && (forall a :: a in t.addresses && Owned(t, customer, kind, a) ==> t.addresses[a].rank < rank)
    && (rank == 1
        || exists a :: a in t.addresses && Owned(t, customer, kind, a)
                       && t.addresses[a].rank == rank - 1)
  }

  function InsertCustomer(t: Tables, id: Uuid): Tables {
    t.(customers := t.customers + {id})
  }

  function InsertExternal(t: Tables, system: string, ext: string, id: Uuid): Tables {
    t.(externals := t.externals[(system, ext) := id])
  }

  function InsertAddress(t: Tables, a: Uuid, row: Address): Tables {
    t.(addresses := t.addresses[a := row])
  }

  function InsertDek(t: Tables, customer: Uuid, wrapped: Wrapped): Tables {
    if customer in t.deks then t else t.(deks := t.deks[customer := wrapped])
  }

  // Customer, address and key committed together.
  function Minted(t: Tables, customer: Uuid, a: Uuid, row: Address, wrapped: Wrapped): Tables {
    InsertDek(InsertAddress(InsertCustomer(t, customer), a, row), customer, wrapped)
  }

  // ---------------------------------------------------------------- calls

  datatype Input =
    | Explicit(id: Uuid)
    | External(system: string, ext: string)
    | AddressOnly

  // Where a call stands; each name is the statement it is about to issue.
  datatype Phase =
    | Begin
    | Walking(current: Uuid, hops: nat)
    | FindExplicit(id: Uuid)
    | MintExplicit(id: Uuid)
    | CheckExternal(id: Uuid)
    | MintExternal
    | RereadExternal
    | LookUp(customer: Uuid)
    | DekCached(customer: Uuid)
    | DekFind(customer: Uuid)
    | DekCreate(customer: Uuid)
    | DekReread(customer: Uuid)
    | DekPut(customer: Uuid, key: Key)
    | TakeRank(customer: Uuid, key: Key)
    | Insert(customer: Uuid, key: Key, rank: nat)
    | MintAddress
    | MintPut(customer: Uuid, address: Uuid, key: Key)
    | RereadAddress(named: Option<Uuid>)
    | FindLocale(customer: Uuid, address: Uuid)
    | Done(customer: Uuid, address: Uuid)
    | Panicked
    | Failed

  datatype Call = Call(
    process: nat, input: Input, channel: Channel, destination: string, phase: Phase)

  datatype Env = Env(hmac: string -> Hash, aliases: AliasTable)

  datatype State = State(tables: Tables, caches: map<(nat, Uuid), Key>, calls: map<nat, Call>)

  datatype Step =
    | Start(process: nat, input: Input, channel: Channel, destination: string)
    // The call's next statement; the parameters are what it draws or reads.
    | ReadAlias
    | ReadExplicit
    | ReadExternal
    | ReadAddress(found: Option<Uuid>)
    | MintCustomer
    | FindCustomer
    | MintWithExternal(freshId: Uuid)
    | ReadWinner
    | ReadOwnAddress(found: Option<Uuid>)
    | ReadCache
    | ReadDek
    | CreateDek(key: Key)
    | ReadWinnerDek
    | PutDek
    | LockRank(rank: nat)
    | CommitAddress(freshId: Uuid)
    | MintWithAddress(freshId: Uuid, address: Uuid, key: Key)
    | PutMinted
    | ReadWinnerAddress(found: Option<Uuid>)
    | ReadLocale
    // A database or vault error, or the caller going away, at any point.
    | Fail
    // Elsewhere: a cache entry expires or is evicted; the batch command
    // provisions a key.
    | Evict(process: nat, customer: Uuid)
    | PreProvision(customer: Uuid, key: Key)

  function Kind(call: Call): string {
    KindForChannel(call.channel)
  }

  function Hmac(env: Env, call: Call): Hash {
    env.hmac(call.destination)
  }

  // The customer row's lock is held by some call between reading the rank
  // and committing the address.
  predicate Locked(s: State, customer: Uuid) {
    exists c :: c in s.calls && s.calls[c].phase.Insert? && s.calls[c].phase.customer == customer
  }

  predicate Ended(p: Phase) {
    p.Done? || p.Panicked? || p.Failed?
  }

  predicate Enabled(env: Env, s: State, c: nat, st: Step) {
    if st.Start? then c !in s.calls
    else if st.Evict? || st.PreProvision? then true
    else
      c in s.calls &&
      var call := s.calls[c];
      var p := call.phase;
      var t := s.tables;
      match st
      case ReadAlias => p.Walking?
      case ReadExplicit => p.FindExplicit?
      case ReadExternal => p.Begin? && call.input.External?
      case ReadAddress(found) =>
        p.Begin? && call.input.AddressOnly? && Finds(t, Kind(call), Hmac(env, call), found)
      case MintCustomer => p.MintExplicit?
      case FindCustomer => p.CheckExternal?
      case MintWithExternal(id) => p.MintExternal? && call.input.External? && id !in t.customers
      case ReadWinner => p.RereadExternal? && call.input.External?
      case ReadOwnAddress(found) =>
        p.LookUp? && FindsFor(t, p.customer, Kind(call), Hmac(env, call), found)
      case ReadCache => p.DekCached?
      case ReadDek => p.DekFind?
      case CreateDek(_) => p.DekCreate?
      case ReadWinnerDek => p.DekReread?
      case PutDek => p.DekPut?
      case LockRank(rank) =>
        p.TakeRank? && !Locked(s, p.customer)
        && (p.customer in t.customers ==> NextRank(t, p.customer, Kind(call), rank))
      case CommitAddress(a) => p.Insert? && a !in t.addresses
      case MintWithAddress(id, a, _) =>
        p.MintAddress? && id !in t.customers && id !in t.deks && a !in t.addresses
      case PutMinted => p.MintPut?
      case ReadWinnerAddress(found) =>
        p.RereadAddress? && Finds(t, Kind(call), Hmac(env, call), found)
      case ReadLocale => p.FindLocale?
      case _ => st.Fail? && !Ended(p)
  }

  function NewAddress(env: Env, call: Call, a: Uuid, customer: Uuid, key: Key, rank: nat): Address {
    Address(customer, Kind(call), Hmac(env, call), rank, Cipher(key, a, call.destination))
  }

  // What the statement does to the tables.
  function TablesAfter(env: Env, s: State, c: nat, st: Step): Tables
    requires Enabled(env, s, c, st)
  {
    var t := s.tables;
    match st
    case MintCustomer => InsertCustomer(t, s.calls[c].phase.id)
    case MintWithExternal(id) =>
      var input := s.calls[c].input;
      if (input.system, input.ext) in t.externals then t
      else InsertExternal(InsertCustomer(t, id), input.system, input.ext, id)
    case CreateDek(key) => InsertDek(t, s.calls[c].phase.customer, Wrapped(key))
    case CommitAddress(a) =>
      var call := s.calls[c];
      var p := call.phase;
      if Taken(t, Kind(call), Hmac(env, call)) then t
      else InsertAddress(t, a, NewAddress(env, call, a, p.customer, p.key, p.rank))
    case MintWithAddress(id, a, key) =>
      var call := s.calls[c];
      if Taken(t, Kind(call), Hmac(env, call)) then t
      else Minted(t, id, a, NewAddress(env, call, a, id, key, 1), Wrapped(key))
    case PreProvision(customer, key) => InsertDek(t, customer, Wrapped(key))
    case _ => t
  }

  function CachesAfter(env: Env, s: State, c: nat, st: Step): map<(nat, Uuid), Key>
    requires Enabled(env, s, c, st)
  {
    match st
    case PutDek =>
      s.caches[(s.calls[c].process, s.calls[c].phase.customer) := s.calls[c].phase.key]
    case PutMinted =>
      s.caches[(s.calls[c].process, s.calls[c].phase.customer) := s.calls[c].phase.key]
    case Evict(process, customer) => s.caches - {(process, customer)}
    case _ => s.caches
  }

  // Where the call goes next.
  function PhaseAfter(env: Env, s: State, c: nat, st: Step): Phase
    requires Enabled(env, s, c, st) && c in s.calls
  {
    var call := s.calls[c];
    var p := call.phase;
    var t := s.tables;
    match st
    case ReadAlias =>
      if p.current !in env.aliases then FindExplicit(p.current)
      else if p.hops + 1 >= ALIAS_HOP_LIMIT then FindExplicit(env.aliases[p.current])
      else Walking(env.aliases[p.current], p.hops + 1)
    case ReadExplicit => if p.id in t.customers then LookUp(p.id) else MintExplicit(p.id)
    case ReadExternal =>
      var key := (call.input.system, call.input.ext);
      if key in t.externals then CheckExternal(t.externals[key]) else MintExternal
    case ReadAddress(found) =>
      if found.Some? then FindLocale(t.addresses[found.value].customer, found.value) else MintAddress
    case MintCustomer => LookUp(p.id)
    case FindCustomer => if p.id in t.customers then LookUp(p.id) else Panicked
    case MintWithExternal(id) =>
      if (call.input.system, call.input.ext) in t.externals then RereadExternal else LookUp(id)
    case ReadWinner =>
      var key := (call.input.system, call.input.ext);
      if key in t.externals then LookUp(t.externals[key]) else Panicked
    case ReadOwnAddress(found) =>
      if found.Some? then Done(p.customer, found.value) else DekCached(p.customer)
    case ReadCache =>
      var slot := (call.process, p.customer);
      if slot in s.caches then TakeRank(p.customer, s.caches[slot]) else DekFind(p.customer)
    case ReadDek =>
      if p.customer in t.deks then DekPut(p.customer, t.deks[p.customer].key)
      else DekCreate(p.customer)
    case CreateDek(key) =>
      if p.customer in t.deks then DekReread(p.customer) else DekPut(p.customer, key)
    case ReadWinnerDek =>
      if p.customer in t.deks then DekPut(p.customer, t.deks[p.customer].key) else Panicked
    case PutDek => TakeRank(p.customer, p.key)
    case LockRank(rank) =>
      if p.customer in t.customers then Insert(p.customer, p.key, rank) else Panicked
    case CommitAddress(a) =>
      if Taken(t, Kind(call), Hmac(env, call)) then RereadAddress(Some(p.customer)) else Done(p.customer, a)
    case MintWithAddress(id, a, key) =>
      if Taken(t, Kind(call), Hmac(env, call)) then RereadAddress(None) else MintPut(id, a, key)
    case PutMinted => Done(p.customer, p.address)
    case ReadWinnerAddress(found) =>
      if found.None? then Panicked
      else
        var owner := t.addresses[found.value].customer;
        // the minting path knows its locale, and so does the winner's owner
        if p.named.None? || p.named == Some(owner) then Done(owner, found.value) else FindLocale(owner, found.value)
    case ReadLocale => Done(p.customer, p.address)
    case Fail => Failed
    case _ => p
  }

  function CallsAfter(env: Env, s: State, c: nat, st: Step): map<nat, Call>
    requires Enabled(env, s, c, st)
  {
    match st
    case Start(process, input, channel, destination) =>
      s.calls[c := Call(process, input, channel, destination,
                        if input.Explicit? then Walking(input.id, 0) else Begin)]
    case Evict(_, _) => s.calls
    case PreProvision(_, _) => s.calls
    case _ => s.calls[c := s.calls[c].(phase := PhaseAfter(env, s, c, st))]
  }

  function Apply(env: Env, s: State, c: nat, st: Step): State
    requires Enabled(env, s, c, st)
  {
    State(TablesAfter(env, s, c, st), CachesAfter(env, s, c, st), CallsAfter(env, s, c, st))
  }

  predicate StepAt(env: Env, ss: seq<State>, steps: seq<(nat, Step)>, i: nat)
    requires i < |steps| && |ss| == |steps| + 1
  {
    && Enabled(env, ss[i], steps[i].0, steps[i].1)
    && ss[i + 1] == Apply(env, ss[i], steps[i].0, steps[i].1)
  }

  ghost predicate Run(env: Env, ss: seq<State>, steps: seq<(nat, Step)>) {
    && |ss| == |steps| + 1
    && Init(env, ss[0])
    && forall i :: 0 <= i < |steps| ==> StepAt(env, ss, steps, i)
  }

  // ------------------------------------------------------------- invariants

  // Each row's customer exists.
  ghost predicate OwnersOk(t: Tables) {
    && (forall a :: a in t.addresses ==> t.addresses[a].customer in t.customers)
    && (forall e :: e in t.externals ==> t.externals[e] in t.customers)
  }

  ghost predicate OnePerDestination(t: Tables) {
    forall a, b :: a in t.addresses && b in t.addresses
      && t.addresses[a].kind == t.addresses[b].kind && t.addresses[a].hmac == t.addresses[b].hmac
      ==> a == b
  }

  ghost predicate RanksDistinct(t: Tables) {
    forall a, b :: a in t.addresses && b in t.addresses
      && t.addresses[a].customer == t.addresses[b].customer
      && t.addresses[a].kind == t.addresses[b].kind && t.addresses[a].rank == t.addresses[b].rank
      ==> a == b
  }

  // The stored ciphertext opens under the customer's persisted key, to a
  // destination with the stored hash.
  predicate Readable(env: Env, t: Tables, a: Uuid)
    requires a in t.addresses
  {
    var row := t.addresses[a];
    && row.customer in t.deks
    && var plain := Decrypt(t.deks[row.customer].key, a, row.cipher);
       plain.Some? && env.hmac(plain.value) == row.hmac
  }

  ghost predicate AllReadable(env: Env, t: Tables) {
    forall a :: a in t.addresses ==> Readable(env, t, a)
  }

  predicate HasKey(t: Tables, customer: Uuid, key: Key) {
    customer in t.deks && t.deks[customer].key == key
  }

  ghost predicate CachesOk(s: State) {
    forall slot :: slot in s.caches ==> HasKey(s.tables, slot.1, s.caches[slot])
  }

  predicate Belongs(env: Env, t: Tables, call: Call, customer: Uuid, a: Uuid) {
    Hit(t, Kind(call), Hmac(env, call), a) && t.addresses[a].customer == customer
  }

  // An existing customer, the one the request names.
  predicate Named(env: Env, t: Tables, input: Input, customer: Uuid) {
    && customer in t.customers
    && match input
       case Explicit(id) => customer == Walk(env.aliases, id, ALIAS_HOP_LIMIT)
       case External(system, ext) =>
         (system, ext) in t.externals && t.externals[(system, ext)] == customer
       case AddressOnly => false
  }

  predicate CallOk(env: Env, t: Tables, call: Call) {
    match call.phase
    case Begin => !call.input.Explicit?
    case Walking(current, hops) =>
      && call.input.Explicit? && hops < ALIAS_HOP_LIMIT
      && Walk(env.aliases, current, ALIAS_HOP_LIMIT - hops) == Walk(env.aliases, call.input.id, ALIAS_HOP_LIMIT)
    case FindExplicit(id) =>
      call.input.Explicit? && id == Walk(env.aliases, call.input.id, ALIAS_HOP_LIMIT)
    case MintExplicit(id) =>
      call.input.Explicit? && id == Walk(env.aliases, call.input.id, ALIAS_HOP_LIMIT)
    case CheckExternal(id) => Named(env, t, call.input, id)
    case MintExternal => call.input.External?
    case RereadExternal =>
      call.input.External? && (call.input.system, call.input.ext) in t.externals
    case LookUp(customer) => Named(env, t, call.input, customer)
    case DekCached(customer) => Named(env, t, call.input, customer)
    case DekFind(customer) => Named(env, t, call.input, customer)
    case DekCreate(customer) => Named(env, t, call.input, customer)
    case DekReread(customer) => Named(env, t, call.input, customer) && customer in t.deks
    case DekPut(customer, key) => Named(env, t, call.input, customer) && HasKey(t, customer, key)
    case TakeRank(customer, key) => Named(env, t, call.input, customer) && HasKey(t, customer, key)
    case Insert(customer, key, _) => Named(env, t, call.input, customer) && HasKey(t, customer, key)
    case MintAddress => call.input.AddressOnly?
    case MintPut(customer, a, key) =>
      HasKey(t, customer, key) && Belongs(env, t, call, customer, a)
    case RereadAddress(_) => Taken(t, Kind(call), Hmac(env, call))
    case FindLocale(customer, a) => Belongs(env, t, call, customer, a)
    case Done(customer, a) => Belongs(env, t, call, customer, a)
    case Panicked => false
    case Failed => true
  }

  ghost predicate CallsOk(env: Env, s: State) {
    forall c :: c in s.calls ==> CallOk(env, s.tables, s.calls[c])
  }

  predicate RankFree(t: Tables, call: Call) {
    call.phase.Insert? ==>
      forall a :: a in t.addresses && Owned(t, call.phase.customer, Kind(call), a)
        ==> t.addresses[a].rank < call.phase.rank
  }

  // A rank read under the lock is still above every rank in use.
  ghost predicate RanksOk(s: State) {
    forall c :: c in s.calls ==> RankFree(s.tables, s.calls[c])
  }

  // At most one call holds a customer's lock.
  ghost predicate LocksOk(s: State) {
    forall c, d :: c in s.calls && d in s.calls && s.calls[c].phase.Insert?
      && s.calls[d].phase.Insert? && s.calls[c].phase.customer == s.calls[d].phase.customer
      ==> c == d
  }

  ghost predicate TablesOk(env: Env, t: Tables) {
    OwnersOk(t) && OnePerDestination(t) && RanksDistinct(t) && AllReadable(env, t)
  }

  // Any consistent database, before any call.
  ghost predicate Init(env: Env, s: State) {
    TablesOk(env, s.tables) && s.caches == map[] && s.calls == map[]
  }

  ghost predicate Inv(env: Env, s: State) {
    TablesOk(env, s.tables) && CachesOk(s) && CallsOk(env, s) && RanksOk(s) && LocksOk(s)
  }
}
