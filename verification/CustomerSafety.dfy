/** What every interleaving of resolutions keeps, and what each call returns. */
module CustomerSafety {
  import opened Base
  import opened Aliases
  import opened Customers

  // Rows are only ever added.
  ghost predicate Grows(t: Tables, u: Tables) {
    && t.customers <= u.customers
    && (forall e :: e in t.externals ==> e in u.externals && u.externals[e] == t.externals[e])
    && (forall a :: a in t.addresses ==> a in u.addresses && u.addresses[a] == t.addresses[a])
    && (forall c :: c in t.deks ==> c in u.deks && u.deks[c] == t.deks[c])
  }

  lemma StepGrows(env: Env, s: State, c: nat, st: Step)
    requires Enabled(env, s, c, st)
    ensures Grows(s.tables, TablesAfter(env, s, c, st))
  {
  }

  // -------------------------------------------------------- table invariants

  lemma CustomerInserted(env: Env, t: Tables, id: Uuid)
    requires TablesOk(env, t)
    ensures TablesOk(env, InsertCustomer(t, id))
  {
    var u := InsertCustomer(t, id);
    assert forall a :: a in u.addresses ==> Readable(env, t, a);
  }

  lemma ExternalInserted(env: Env, t: Tables, system: string, ext: string, id: Uuid)
    requires TablesOk(env, t) && id in t.customers
    ensures TablesOk(env, InsertExternal(t, system, ext, id))
  {
    var u := InsertExternal(t, system, ext, id);
    assert forall a :: a in u.addresses ==> Readable(env, t, a);
  }

  lemma DekInserted(env: Env, t: Tables, customer: Uuid, wrapped: Wrapped)
    requires TablesOk(env, t)
    ensures TablesOk(env, InsertDek(t, customer, wrapped))
  {
    var u := InsertDek(t, customer, wrapped);
    assert forall a :: a in u.addresses ==> Readable(env, t, a);
  }

  predicate Admissible(env: Env, t: Tables, a: Uuid, row: Address) {
    && a !in t.addresses && row.customer in t.customers
    && !Taken(t, row.kind, row.hmac)
    && (forall b :: b in t.addresses && Owned(t, row.customer, row.kind, b)
          ==> t.addresses[b].rank < row.rank)
    && HasKey(t, row.customer, row.cipher.key)
    && row.cipher.aad == a && env.hmac(row.cipher.plain) == row.hmac
  }

  lemma AddressInserted(env: Env, t: Tables, a: Uuid, row: Address)
    requires TablesOk(env, t) && Admissible(env, t, a, row)
    ensures TablesOk(env, InsertAddress(t, a, row))
  {
    DestinationsInserted(env, t, a, row);
    RanksInserted(env, t, a, row);
    ReadableInserted(env, t, a, row);
  }

  lemma DestinationsInserted(env: Env, t: Tables, a: Uuid, row: Address)
    requires OnePerDestination(t) && Admissible(env, t, a, row)
    ensures OnePerDestination(InsertAddress(t, a, row))
  {
    assert forall b :: b in t.addresses ==> !Hit(t, row.kind, row.hmac, b);
  }

  lemma RanksInserted(env: Env, t: Tables, a: Uuid, row: Address)
    requires RanksDistinct(t) && Admissible(env, t, a, row)
    ensures RanksDistinct(InsertAddress(t, a, row))
  {
    forall b | b in t.addresses && t.addresses[b].customer == row.customer
               && t.addresses[b].kind == row.kind
      ensures t.addresses[b].rank < row.rank
    {
      assert Owned(t, row.customer, row.kind, b);
    }
  }

  lemma ReadableInserted(env: Env, t: Tables, a: Uuid, row: Address)
    requires AllReadable(env, t) && Admissible(env, t, a, row)
    ensures AllReadable(env, InsertAddress(t, a, row))
  {
    var u := InsertAddress(t, a, row);
    forall b | b in u.addresses ensures Readable(env, u, b) {
      if b != a {
        assert Readable(env, t, b);
      }
    }
  }

  lemma CommitOk(env: Env, s: State, c: nat, a: Uuid)
    requires Inv(env, s) && Enabled(env, s, c, CommitAddress(a))
    ensures TablesOk(env, TablesAfter(env, s, c, CommitAddress(a)))
  {
    var call := s.calls[c];
    var p := call.phase;
    if !Taken(s.tables, Kind(call), Hmac(env, call)) {
      assert CallOk(env, s.tables, call) && RankFree(s.tables, call);
      AddressInserted(env, s.tables, a, NewAddress(env, call, a, p.customer, p.key, p.rank));
    }
  }

  lemma MintOk(env: Env, s: State, c: nat, id: Uuid, a: Uuid, key: Key)
    requires TablesOk(env, s.tables) && Enabled(env, s, c, MintWithAddress(id, a, key))
    ensures TablesOk(env, TablesAfter(env, s, c, MintWithAddress(id, a, key)))
  {
    var call, t := s.calls[c], s.tables;
    if !Taken(t, Kind(call), Hmac(env, call)) {
      MintedOk(env, t, id, a, NewAddress(env, call, a, id, key, 1));
    }
  }

  lemma MintedOk(env: Env, t: Tables, customer: Uuid, a: Uuid, row: Address)
    requires TablesOk(env, t) && customer !in t.customers && customer !in t.deks
    requires a !in t.addresses && row.customer == customer && row.rank == 1
    requires !Taken(t, row.kind, row.hmac)
    requires row.cipher.aad == a && env.hmac(row.cipher.plain) == row.hmac
    ensures TablesOk(env, Minted(t, customer, a, row, Wrapped(row.cipher.key)))
  {
    var wrapped := Wrapped(row.cipher.key);
    var u := InsertDek(InsertCustomer(t, customer), customer, wrapped);
    CustomerInserted(env, t, customer);
    DekInserted(env, InsertCustomer(t, customer), customer, wrapped);
    NotTaken(t, u, row.kind, row.hmac);
    NoneOwned(t, u, customer, row.kind);
    AddressInserted(env, u, a, row);
  }

  lemma NotTaken(t: Tables, u: Tables, kind: string, hmac: Hash)
    requires t.addresses == u.addresses
    ensures Taken(t, kind, hmac) <==> Taken(u, kind, hmac)
  {
    assert forall a :: Hit(t, kind, hmac, a) <==> Hit(u, kind, hmac, a);
  }

  lemma NoneOwned(t: Tables, u: Tables, id: Uuid, kind: string)
    requires OwnersOk(t) && id !in t.customers && u.addresses == t.addresses
    ensures forall b :: b in u.addresses ==> !Owned(u, id, kind, b)
  {
  }

  lemma TablesStep(env: Env, s: State, c: nat, st: Step)
    requires Inv(env, s) && Enabled(env, s, c, st)
    ensures TablesOk(env, TablesAfter(env, s, c, st))
  {
    var t := s.tables;
    match st {
      case MintCustomer => CustomerInserted(env, t, s.calls[c].phase.id);
      case MintWithExternal(id) =>
        var input := s.calls[c].input;
        CustomerInserted(env, t, id);
        ExternalInserted(env, InsertCustomer(t, id), input.system, input.ext, id);
      case CreateDek(key) => DekInserted(env, t, s.calls[c].phase.customer, Wrapped(key));
      case CommitAddress(a) => CommitOk(env, s, c, a);
      case MintWithAddress(id, a, key) => MintOk(env, s, c, id, a, key);
      case PreProvision(customer, key) => DekInserted(env, t, customer, Wrapped(key));
      case _ =>
    }
  }

  // --------------------------------------------------------- call invariants

  lemma CallKept(env: Env, t: Tables, u: Tables, call: Call)
    requires Grows(t, u) && CallOk(env, t, call)
    ensures CallOk(env, u, call)
  {
    if call.phase.RereadAddress? {
      var a :| a in t.addresses && Hit(t, Kind(call), Hmac(env, call), a);
      assert Hit(u, Kind(call), Hmac(env, call), a);
    }
  }

  predicate DekStep(st: Step) {
    st.ReadCache? || st.ReadDek? || st.CreateDek? || st.ReadWinnerDek? || st.PutDek?
  }

  lemma DekCallOk(env: Env, s: State, c: nat, st: Step)
    requires CachesOk(s) && Enabled(env, s, c, st) && DekStep(st) && CallOk(env, s.tables, s.calls[c])
    ensures CallOk(env, TablesAfter(env, s, c, st),
                   s.calls[c].(phase := PhaseAfter(env, s, c, st)))
  {
    if st.ReadCache? {
      var slot := (s.calls[c].process, s.calls[c].phase.customer);
      assert slot in s.caches ==> HasKey(s.tables, slot.1, s.caches[slot]);
    }
  }

  // The call that moved, wherever its statement took it.
  lemma MovedCallOk(env: Env, s: State, c: nat, st: Step)
    requires OwnersOk(s.tables) && Enabled(env, s, c, st) && c in s.calls && !st.Start?
    requires CallOk(env, s.tables, s.calls[c])
    requires !DekStep(st) && !st.CommitAddress? && !st.MintWithAddress?
    requires !st.Evict? && !st.PreProvision?
    ensures CallOk(env, TablesAfter(env, s, c, st),
                   s.calls[c].(phase := PhaseAfter(env, s, c, st)))
  {
    if st.ReadAlias? {
      var p := s.calls[c].phase;
      OneHop(env.aliases, p.current, ALIAS_HOP_LIMIT - p.hops);
    }
  }

  lemma OneHop(aliases: AliasTable, id: Uuid, n: nat)
    requires n >= 1
    ensures Walk(aliases, id, n) == if id in aliases then Walk(aliases, aliases[id], n - 1) else id
    ensures n == 1 && id in aliases ==> Walk(aliases, id, n) == aliases[id]
  {
  }

  lemma CommitCallOk(env: Env, s: State, c: nat, a: Uuid)
    requires Inv(env, s) && Enabled(env, s, c, CommitAddress(a))
    ensures CallOk(env, TablesAfter(env, s, c, CommitAddress(a)),
                   s.calls[c].(phase := PhaseAfter(env, s, c, CommitAddress(a))))
  {
    assert CallOk(env, s.tables, s.calls[c]);
  }

  lemma MintCallOk(env: Env, s: State, c: nat, id: Uuid, a: Uuid, key: Key)
    requires Enabled(env, s, c, MintWithAddress(id, a, key))
    ensures CallOk(env, TablesAfter(env, s, c, MintWithAddress(id, a, key)),
                   s.calls[c].(phase := PhaseAfter(env, s, c, MintWithAddress(id, a, key))))
  {
  }

  lemma CallsStep(env: Env, s: State, c: nat, st: Step)
    requires Inv(env, s) && Enabled(env, s, c, st)
    ensures CallsOk(env, Apply(env, s, c, st))
  {
    var n := Apply(env, s, c, st);
    StepGrows(env, s, c, st);
    forall d | d in n.calls ensures CallOk(env, n.tables, n.calls[d]) {
      if d != c || st.Evict? || st.PreProvision? {
        CallKept(env, s.tables, n.tables, s.calls[d]);
      } else if st.CommitAddress? {
        CommitCallOk(env, s, c, st.freshId);
      } else if st.MintWithAddress? {
        MintCallOk(env, s, c, st.freshId, st.address, st.key);
      } else if !st.Start? {
        assert CallOk(env, s.tables, s.calls[c]);
        if DekStep(st) {
          DekCallOk(env, s, c, st);
        } else {
          MovedCallOk(env, s, c, st);
        }
      }
    }
  }

  lemma CachesStep(env: Env, s: State, c: nat, st: Step)
    requires Inv(env, s) && Enabled(env, s, c, st)
    ensures CachesOk(Apply(env, s, c, st))
  {
    var n := Apply(env, s, c, st);
    StepGrows(env, s, c, st);
    if st.PutDek? || st.PutMinted? {
      assert CallOk(env, s.tables, s.calls[c]);
    }
    forall slot | slot in n.caches ensures HasKey(n.tables, slot.1, n.caches[slot]) {
      assert slot in s.caches ==> HasKey(s.tables, slot.1, s.caches[slot]);
    }
  }

  // Only reading the rank takes a lock, and only when nobody has it.
  lemma Locking(env: Env, s: State, c: nat, st: Step, d: nat)
    requires Enabled(env, s, c, st) && d in Apply(env, s, c, st).calls
    ensures var n := Apply(env, s, c, st);
            n.calls[d].phase.Insert? ==>
              || (d in s.calls && s.calls[d].phase == n.calls[d].phase)
              || (d == c && !Locked(s, n.calls[d].phase.customer))
  {
  }

  lemma LocksStep(env: Env, s: State, c: nat, st: Step)
    requires LocksOk(s) && Enabled(env, s, c, st)
    ensures LocksOk(Apply(env, s, c, st))
  {
    var n := Apply(env, s, c, st);
    forall d, e | d in n.calls && e in n.calls && n.calls[d].phase.Insert? && n.calls[e].phase.Insert?
                  && n.calls[d].phase.customer == n.calls[e].phase.customer
      ensures d == e
    {
      Locking(env, s, c, st, d);
      Locking(env, s, c, st, e);
    }
  }

  lemma RankKept(t: Tables, u: Tables, call: Call)
    requires RankFree(t, call)
    requires call.phase.Insert? ==>
      forall a :: a in u.addresses && a !in t.addresses ==>
        u.addresses[a].customer != call.phase.customer
    requires forall a :: a in t.addresses ==> a in u.addresses && u.addresses[a] == t.addresses[a]
    ensures RankFree(u, call)
  {
    if call.phase.Insert? {
      forall a | a in u.addresses && Owned(u, call.phase.customer, Kind(call), a)
        ensures u.addresses[a].rank < call.phase.rank
      {
        assert Owned(t, call.phase.customer, Kind(call), a);
      }
    }
  }

  // A row for a customer is only added under that customer's lock, or for a
  // customer no other call can know yet.
  lemma NewRowsOfOthers(env: Env, s: State, c: nat, st: Step, d: nat)
    requires Inv(env, s) && Enabled(env, s, c, st)
    requires d in s.calls && d != c && s.calls[d].phase.Insert?
    ensures forall a :: a in TablesAfter(env, s, c, st).addresses && a !in s.tables.addresses ==>
      TablesAfter(env, s, c, st).addresses[a].customer != s.calls[d].phase.customer
  {
    assert CallOk(env, s.tables, s.calls[d]);
  }

  lemma RanksStep(env: Env, s: State, c: nat, st: Step)
    requires Inv(env, s) && Enabled(env, s, c, st)
    ensures RanksOk(Apply(env, s, c, st))
  {
    var n := Apply(env, s, c, st);
    StepGrows(env, s, c, st);
    forall d | d in n.calls ensures RankFree(n.tables, n.calls[d]) {
      if d != c {
        if s.calls[d].phase.Insert? {
          NewRowsOfOthers(env, s, c, st, d);
        }
        RankKept(s.tables, n.tables, s.calls[d]);
      } else {
        MovedRank(env, s, c, st);
      }
    }
  }

  lemma MovedRank(env: Env, s: State, c: nat, st: Step)
    requires Inv(env, s) && Enabled(env, s, c, st)
    ensures var n := Apply(env, s, c, st); c in n.calls ==> RankFree(n.tables, n.calls[c])
  {
    if c in s.calls && (st.Evict? || st.PreProvision?) {
      RankKept(s.tables, TablesAfter(env, s, c, st), s.calls[c]);
    } else if !st.Evict? && !st.PreProvision? {
      NewRank(env, s, c, st);
    }
  }

  lemma NewRank(env: Env, s: State, c: nat, st: Step)
    requires Enabled(env, s, c, st) && !st.Evict? && !st.PreProvision?
    ensures var n := Apply(env, s, c, st); RankFree(n.tables, n.calls[c])
  {
    if !st.LockRank? {
      NoRank(env, s, c, st);
    }
  }

  lemma NoRank(env: Env, s: State, c: nat, st: Step)
    requires Enabled(env, s, c, st) && !st.Evict? && !st.PreProvision? && !st.LockRank?
    ensures !Apply(env, s, c, st).calls[c].phase.Insert?
  {
  }

  lemma StepInv(env: Env, s: State, c: nat, st: Step)
    requires Inv(env, s) && Enabled(env, s, c, st)
    ensures Inv(env, Apply(env, s, c, st))
  {
    TablesStep(env, s, c, st);
    CachesStep(env, s, c, st);
    CallsStep(env, s, c, st);
    LocksStep(env, s, c, st);
    RanksStep(env, s, c, st);
  }

  // ------------------------------------------------------------ whole runs

  lemma {:induction false} RunInv(env: Env, ss: seq<State>, steps: seq<(nat, Step)>, i: nat)
    requires Run(env, ss, steps) && i < |ss|
    ensures Inv(env, ss[i])
    decreases i
  {
    if i == 0 {
    } else {
      RunInv(env, ss, steps, i - 1);
      assert StepAt(env, ss, steps, i - 1);
      StepInv(env, ss[i - 1], steps[i - 1].0, steps[i - 1].1);
    }
  }

  lemma {:induction false} RunGrows(env: Env, ss: seq<State>, steps: seq<(nat, Step)>, i: nat, j: nat)
    requires Run(env, ss, steps) && i <= j < |ss|
    ensures Grows(ss[i].tables, ss[j].tables)
    decreases j
  {
    if i == j {
    } else {
      RunGrows(env, ss, steps, i, j - 1);
      assert StepAt(env, ss, steps, j - 1);
      StepGrows(env, ss[j - 1], steps[j - 1].0, steps[j - 1].1);
    }
  }

  /**
   * At every point of every interleaving: one active address per destination,
   * distinct ranks per customer and kind, no row without its customer, every
   * ciphertext readable under its customer's persisted key.
   */
  lemma DirectoryConsistent(env: Env, ss: seq<State>, steps: seq<(nat, Step)>, i: nat)
    requires Run(env, ss, steps) && i < |ss|
    ensures var t := ss[i].tables;
            && (forall a :: a in t.addresses ==> t.addresses[a].customer in t.customers)
            && (forall e :: e in t.externals ==> t.externals[e] in t.customers)
            && OnePerDestination(t) && RanksDistinct(t) && AllReadable(env, t)
  {
    RunInv(env, ss, steps, i);
  }

  /** None of the rows a lost race expects to find is ever missing. */
  lemma NoPanic(env: Env, ss: seq<State>, steps: seq<(nat, Step)>, i: nat, c: nat)
    requires Run(env, ss, steps) && i < |ss| && c in ss[i].calls
    ensures !ss[i].calls[c].phase.Panicked?
  {
    RunInv(env, ss, steps, i);
    assert CallOk(env, ss[i].tables, ss[i].calls[c]);
  }

  /**
   * A completed call's answer is right and stays right: from then on the
   * address has the requested kind and hash, belongs to the returned customer,
   * that customer exists, and the stored ciphertext opens under the customer's
   * persisted key to a destination with the requested hash.
   */
  lemma ResolvedForGood(env: Env, ss: seq<State>, steps: seq<(nat, Step)>, i: nat, j: nat, c: nat)
    requires Run(env, ss, steps) && i <= j < |ss|
    requires c in ss[i].calls && ss[i].calls[c].phase.Done?
    ensures var call, t := ss[i].calls[c], ss[j].tables;
            var customer, a := call.phase.customer, call.phase.address;
            && a in t.addresses && customer in t.customers && customer in t.deks
            && t.addresses[a].kind == KindForChannel(call.channel)
            && t.addresses[a].hmac == env.hmac(call.destination)
            && t.addresses[a].customer == customer
            && var plain := Decrypt(t.deks[customer].key, a, t.addresses[a].cipher);
               plain.Some? && env.hmac(plain.value) == env.hmac(call.destination)
  {
    RunInv(env, ss, steps, i);
    RunInv(env, ss, steps, j);
    RunGrows(env, ss, steps, i, j);
    assert CallOk(env, ss[i].tables, ss[i].calls[c]);
    assert Readable(env, ss[j].tables, ss[i].calls[c].phase.address);
  }

  /**
   * A call ends with the customer its request names whenever it finds that
   * customer's address or adds one; an address is never added for anyone else.
   */
  lemma NamedCustomerServed(env: Env, ss: seq<State>, steps: seq<(nat, Step)>, i: nat)
    requires Run(env, ss, steps) && i < |steps|
    requires var (c, st) := steps[i];
             && (st.ReadOwnAddress? || st.CommitAddress?)
             && c in ss[i + 1].calls && ss[i + 1].calls[c].phase.Done?
    ensures var call := ss[i + 1].calls[steps[i].0];
            Named(env, ss[i + 1].tables, call.input, call.phase.customer)
  {
    RunInv(env, ss, steps, i);
    assert StepAt(env, ss, steps, i);
    var c := steps[i].0;
    assert CallOk(env, ss[i].tables, ss[i].calls[c]);
    StepGrows(env, ss[i], c, steps[i].1);
  }

  /** Any two completed calls for one destination, whenever and wherever, agree. */
  lemma SameAnswer(env: Env, ss: seq<State>, steps: seq<(nat, Step)>,
                   i: nat, j: nat, c: nat, d: nat)
    requires Run(env, ss, steps) && i < |ss| && j < |ss|
    requires c in ss[i].calls && ss[i].calls[c].phase.Done?
    requires d in ss[j].calls && ss[j].calls[d].phase.Done?
    requires ss[i].calls[c].channel == ss[j].calls[d].channel
    requires env.hmac(ss[i].calls[c].destination) == env.hmac(ss[j].calls[d].destination)
    ensures ss[i].calls[c].phase == ss[j].calls[d].phase
  {
    var last := |ss| - 1;
    ResolvedForGood(env, ss, steps, i, last, c);
    ResolvedForGood(env, ss, steps, j, last, d);
    RunInv(env, ss, steps, last);
    assert OnePerDestination(ss[last].tables);
  }

  // The key this call took from the cache, the table or the key store.
  predicate Holds(s: State, c: nat, customer: Uuid, key: Key) {
    && c in s.calls
    && var p := s.calls[c].phase;
       && (p.DekPut? || p.TakeRank? || p.Insert? || p.MintPut?)
       && p.customer == customer && p.key == key
  }

  /**
   * One key per customer: whatever key any call in any process holds at any
   * time, and whatever any cache holds, is the unwrap of the one persisted row
   * from that moment on.
   */
  lemma KeyPersisted(env: Env, ss: seq<State>, steps: seq<(nat, Step)>, i: nat, j: nat,
                     customer: Uuid, key: Key)
    requires Run(env, ss, steps) && i <= j < |ss|
    requires (exists c :: Holds(ss[i], c, customer, key))
             || (exists process :: (process, customer) in ss[i].caches
                                   && ss[i].caches[(process, customer)] == key)
    ensures HasKey(ss[j].tables, customer, key)
  {
    RunInv(env, ss, steps, i);
    RunGrows(env, ss, steps, i, j);
    if c :| Holds(ss[i], c, customer, key) {
      assert CallOk(env, ss[i].tables, ss[i].calls[c]);
    } else {
      var process :| (process, customer) in ss[i].caches
                     && ss[i].caches[(process, customer)] == key;
      var slot := (process, customer);
      assert HasKey(ss[i].tables, slot.1, ss[i].caches[slot]);
    }
  }

  lemma KeyAgreement(env: Env, ss: seq<State>, steps: seq<(nat, Step)>, i: nat, j: nat,
                     c: nat, d: nat, customer: Uuid, k: Key, l: Key)
    requires Run(env, ss, steps) && i < |ss| && j < |ss|
    requires Holds(ss[i], c, customer, k) && Holds(ss[j], d, customer, l)
    ensures k == l
  {
    KeyPersisted(env, ss, steps, i, |ss| - 1, customer, k);
    KeyPersisted(env, ss, steps, j, |ss| - 1, customer, l);
  }

  // --------------------------------------------------------------- progress

  // The most statements a call has still to issue.
  function Left(p: Phase): nat {
    match p
    case Walking(_, hops) => 12 + Max(ALIAS_HOP_LIMIT - hops, 1)
    case Begin => 13
    case FindExplicit(_) => 12
    case MintExternal => 12
    case MintExplicit(_) => 11
    case CheckExternal(_) => 11
    case RereadExternal => 11
    case LookUp(_) => 10
    case DekCached(_) => 9
    case DekFind(_) => 8
    case DekCreate(_) => 7
    case DekReread(_) => 6
    case DekPut(_, _) => 5
    case TakeRank(_, _) => 4
    case Insert(_, _, _) => 3
    case MintAddress => 3
    case RereadAddress(_) => 2
    case MintPut(_, _, _) => 1
    case FindLocale(_, _) => 1
    case Done(_, _) => 0
    case Panicked => 0
    case Failed => 0
  }

  predicate IsStatement(st: Step) {
    !st.Start? && !st.Evict? && !st.PreProvision?
  }

  // The statements call `c` issues in steps i to j - 1.
  function Statements(steps: seq<(nat, Step)>, c: nat, i: nat, j: nat): nat
    requires i <= j <= |steps|
    decreases j
  {
    if i == j then 0
    else
      Statements(steps, c, i, j - 1)
      + if steps[j - 1].0 == c && IsStatement(steps[j - 1].1) then 1 else 0
  }

  lemma FirstStatement(env: Env, s: State, c: nat, st: Step)
    requires Enabled(env, s, c, st) && c in s.calls && Left(s.calls[c].phase) > 12
    ensures var n := Apply(env, s, c, st);
            && c in n.calls
            && Left(n.calls[c].phase) + (if IsStatement(st) then 1 else 0) <= Left(s.calls[c].phase)
  {
  }

  // Until the customer is known.
  lemma EarlyStatement(env: Env, s: State, c: nat, st: Step)
    requires Enabled(env, s, c, st) && c in s.calls && 10 < Left(s.calls[c].phase) <= 12
    ensures var n := Apply(env, s, c, st);
            && c in n.calls
            && Left(n.calls[c].phase) + (if IsStatement(st) then 1 else 0) <= Left(s.calls[c].phase)
  {
  }

  lemma LateStatement(env: Env, s: State, c: nat, st: Step)
    requires Enabled(env, s, c, st) && c in s.calls && Left(s.calls[c].phase) <= 10
    ensures var n := Apply(env, s, c, st);
            && c in n.calls
            && Left(n.calls[c].phase) + (if IsStatement(st) then 1 else 0) <= Left(s.calls[c].phase)
  {
  }

  lemma OthersStatement(env: Env, s: State, d: nat, st: Step, c: nat)
    requires Enabled(env, s, d, st) && c in s.calls && d != c
    ensures var n := Apply(env, s, d, st);
            c in n.calls && n.calls[c] == s.calls[c]
  {
  }

  lemma StatementUsed(env: Env, s: State, d: nat, st: Step, c: nat)
    requires Enabled(env, s, d, st) && c in s.calls
    ensures var n := Apply(env, s, d, st);
            && c in n.calls
            && Left(n.calls[c].phase) + (if d == c && IsStatement(st) then 1 else 0)
               <= Left(s.calls[c].phase)
  {
    if d == c && Left(s.calls[c].phase) > 12 {
      FirstStatement(env, s, c, st);
    } else if d == c && Left(s.calls[c].phase) > 10 {
      EarlyStatement(env, s, c, st);
    } else if d == c {
      LateStatement(env, s, c, st);
    } else {
      OthersStatement(env, s, d, st, c);
    }
  }

  /**
   * However the calls interleave, a call ends after at most twenty steps of
   * its own: up to eight alias rows, and for an explicit id that mints, draws a
   * key and loses the address race, ten statements or parts of a transaction and
   * two cache accesses.
   */
  lemma {:induction false} EndsWithinTwenty(env: Env, ss: seq<State>, steps: seq<(nat, Step)>,
                                            c: nat, i: nat, j: nat)
    requires Run(env, ss, steps) && i <= j < |ss| && c in ss[i].calls
    ensures c in ss[j].calls
    ensures Statements(steps, c, i, j) + Left(ss[j].calls[c].phase) <= Left(ss[i].calls[c].phase)
    ensures Statements(steps, c, i, j) <= 20
    decreases j
  {
    if i == j {
    } else {
      EndsWithinTwenty(env, ss, steps, c, i, j - 1);
      assert StepAt(env, ss, steps, j - 1);
      StatementUsed(env, ss[j - 1], steps[j - 1].0, steps[j - 1].1, c);
    }
  }

  // The rank a call reads under the lock always exists.
  lemma RankExists(t: Tables, customer: Uuid, kind: string) returns (rank: nat)
    ensures NextRank(t, customer, kind, rank)
  {
    var ranks := set a | a in t.addresses && Owned(t, customer, kind, a) :: t.addresses[a].rank;
    rank := 0;
    if ranks != {} {
      rank := MaxOf(ranks);
      var a :| a in t.addresses && Owned(t, customer, kind, a) && t.addresses[a].rank == rank;
    }
    forall a | a in t.addresses && Owned(t, customer, kind, a) ensures t.addresses[a].rank <= rank {
      assert t.addresses[a].rank in ranks;
    }
    rank := rank + 1;
  }

  lemma Lookup(t: Tables, kind: string, hmac: Hash) returns (found: Option<Uuid>)
    ensures Finds(t, kind, hmac, found)
  {
    if a :| a in t.addresses && Hit(t, kind, hmac, a) {
      found := Some(a);
    } else {
      found := None;
    }
  }

  lemma OwnLookup(t: Tables, customer: Uuid, kind: string, hmac: Hash) returns (found: Option<Uuid>)
    ensures FindsFor(t, customer, kind, hmac, found)
  {
    if a :| a in t.addresses && Hit(t, kind, hmac, a) && t.addresses[a].customer == customer {
      found := Some(a);
    } else {
      found := None;
    }
  }

  lemma CanBegin(env: Env, s: State, c: nat) returns (st: Step)
    requires c in s.calls && s.calls[c].phase.Begin? && !s.calls[c].input.Explicit?
    ensures IsStatement(st) && !st.Fail? && Enabled(env, s, c, st)
  {
    var call := s.calls[c];
    match call.input {
      case External(_, _) => st := ReadExternal;
      case AddressOnly =>
        var found := Lookup(s.tables, Kind(call), Hmac(env, call));
        st := ReadAddress(found);
    }
  }

  lemma CanWrite(env: Env, s: State, c: nat) returns (st: Step)
    requires c in s.calls && CallOk(env, s.tables, s.calls[c])
    requires var p := s.calls[c].phase; p.MintExternal? || p.Insert? || p.MintAddress?
    ensures IsStatement(st) && !st.Fail? && Enabled(env, s, c, st)
  {
    var t := s.tables;
    var a := FreshId(t.addresses.Keys);
    var id := FreshId(t.customers + t.deks.Keys);
    match s.calls[c].phase {
      case MintExternal => st := MintWithExternal(id);
      case Insert(_, _, _) => st := CommitAddress(a);
      case MintAddress => st := MintWithAddress(id, a, 0);
    }
  }

  lemma CanSearch(env: Env, s: State, c: nat) returns (st: Step)
    requires c in s.calls && CallOk(env, s.tables, s.calls[c])
    requires var p := s.calls[c].phase; p.LookUp? || p.TakeRank? || p.RereadAddress?
    requires s.calls[c].phase.TakeRank? ==> !Locked(s, s.calls[c].phase.customer)
    ensures IsStatement(st) && !st.Fail? && Enabled(env, s, c, st)
  {
    var call, t := s.calls[c], s.tables;
    match call.phase {
      case LookUp(customer) =>
        var found := OwnLookup(t, customer, Kind(call), Hmac(env, call));
        st := ReadOwnAddress(found);
      case TakeRank(customer, _) =>
        var rank := RankExists(t, customer, Kind(call));
        st := LockRank(rank);
      case RereadAddress(_) =>
        var found := Lookup(t, Kind(call), Hmac(env, call));
        st := ReadWinnerAddress(found);
    }
  }

  predicate KeyPhase(p: Phase) {
    p.DekCached? || p.DekFind? || p.DekCreate? || p.DekReread? || p.DekPut? || p.MintPut?
  }

  lemma CanKey(env: Env, s: State, c: nat) returns (st: Step)
    requires CallsOk(env, s) && c in s.calls && KeyPhase(s.calls[c].phase)
    ensures IsStatement(st) && !st.Fail? && Enabled(env, s, c, st)
  {
    assert CallOk(env, s.tables, s.calls[c]);
    st := match s.calls[c].phase
      case DekCached(_) => ReadCache
      case DekFind(_) => ReadDek
      case DekCreate(_) => CreateDek(0)
      case DekReread(_) => ReadWinnerDek
      case DekPut(_, _) => PutDek
      case _ => PutMinted;
  }

  /**
   * A call that has not ended can always issue its next statement, unless it
   * waits for the lock on its customer's row; the call holding that lock can.
   */
  lemma NeverStuck(env: Env, s: State, c: nat) returns (st: Step)
    requires CallsOk(env, s) && c in s.calls && !Ended(s.calls[c].phase)
    requires s.calls[c].phase.TakeRank? ==> !Locked(s, s.calls[c].phase.customer)
    ensures IsStatement(st) && !st.Fail? && Enabled(env, s, c, st)
  {
    assert CallOk(env, s.tables, s.calls[c]);
    match s.calls[c].phase {
      case Begin => st := CanBegin(env, s, c);
      case Walking(_, _) => st := ReadAlias;
      case FindExplicit(_) => st := ReadExplicit;
      case MintExplicit(_) => st := MintCustomer;
      case CheckExternal(_) => st := FindCustomer;
      case RereadExternal => st := ReadWinner;
      case DekCached(_) => st := CanKey(env, s, c);
      case DekFind(_) => st := CanKey(env, s, c);
      case DekCreate(_) => st := CanKey(env, s, c);
      case DekReread(_) => st := CanKey(env, s, c);
      case DekPut(_, _) => st := CanKey(env, s, c);
      case MintPut(_, _, _) => st := CanKey(env, s, c);
      case LookUp(_) => st := CanSearch(env, s, c);
      case TakeRank(_, _) => st := CanSearch(env, s, c);
      case RereadAddress(_) => st := CanSearch(env, s, c);
      case FindLocale(_, _) => st := ReadLocale;
      case MintExternal => st := CanWrite(env, s, c);
      case Insert(_, _, _) => st := CanWrite(env, s, c);
      case MintAddress => st := CanWrite(env, s, c);
    }
  }
}
