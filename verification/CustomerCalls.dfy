/**
 * One resolution and one provisioning batch as code over the tenant's tables,
 * with whatever other processes commit between any two of its statements.
 */
module CustomerCalls {
  import opened Base
  import opened Aliases
  import opened Customers
  import opened CustomerSafety

  // Identifiers and the data key this call draws at random.
  datatype Draws = Draws(customer: Uuid, address: Uuid, key: Key)

  // The tables after other processes ran, given the tables before they did.
  type Others = (nat, Tables) -> Tables

  predicate Unused(t: Tables, draws: Draws) {
    && draws.customer !in t.customers && draws.customer !in t.deks
    && draws.address !in t.addresses
  }

  // The same while this call holds a customer's row lock.
  type Waiting = (Uuid, nat, Tables) -> Tables

  // Others only add rows, keep the tables consistent, and never hit on an
  // identifier this call drew.
  ghost predicate Fair(env: Env, draws: Draws, t: Tables, u: Tables) {
    && Grows(t, u)
    && (TablesOk(env, t) ==> TablesOk(env, u))
    && (Unused(t, draws) ==> Unused(u, draws))
    && (draws.address !in t.addresses ==> draws.address !in u.addresses)
  }

  // And none of them adds an address of the customer whose row is locked.
  ghost predicate Barred(customer: Uuid, t: Tables, u: Tables) {
    forall a :: a in u.addresses && u.addresses[a].customer == customer ==> a in t.addresses
  }

  class Session {
    const env: Env
    const others: Others
    const waiting: Waiting
    const draws: Draws
    var tables: Tables
    var cache: map<Uuid, Key>
    var clock: nat

    ghost predicate Valid()
      reads this
    {
      && TablesOk(env, tables)
      && (forall c :: c in cache ==> HasKey(tables, c, cache[c]))
      && (forall n, t :: Fair(env, draws, t, others(n, t)))
      && (forall c, n, t :: Fair(env, draws, t, waiting(c, n, t)) && Barred(c, t, waiting(c, n, t)))
    }

    // Nobody else writes.
    ghost predicate Alone() {
      && (forall n, t :: others(n, t) == t)
      && (forall c, n, t :: waiting(c, n, t) == t)
    }

    // The address is the one with the requested kind and hash, it can be
    // read back, and it is the customer's.
    ghost predicate Right(channel: Channel, destination: string, customer: Uuid, address: Uuid)
      reads this
    {
      && Hit(tables, KindForChannel(channel), env.hmac(destination), address)
      && tables.addresses[address].customer == customer && customer in tables.customers
      && Readable(env, tables, address)
    }

    // Other processes commit before the next statement.
    method Yield()
      requires Valid()
      modifies this`tables, this`clock
      ensures Valid() && tables == others(old(clock), old(tables))
      ensures Grows(old(tables), tables)
      ensures Unused(old(tables), draws) ==> Unused(tables, draws)
      ensures draws.address !in old(tables).addresses ==> draws.address !in tables.addresses
    {
      assert Fair(env, draws, tables, others(clock, tables));
      tables := others(clock, tables);
      clock := clock + 1;
    }

    // Others commit while this call holds the customer's row lock.
    method YieldLocked(customer: Uuid)
      requires Valid()
      modifies this`tables, this`clock
      ensures Valid() && tables == waiting(customer, old(clock), old(tables))
      ensures Grows(old(tables), tables) && Barred(customer, old(tables), tables)
      ensures draws.address !in old(tables).addresses ==> draws.address !in tables.addresses
    {
      var after := waiting(customer, clock, tables);
      assert Fair(env, draws, tables, after) && Barred(customer, tables, after);
      tables := after;
      clock := clock + 1;
    }

    // The persisted key, created if nobody has yet.
    method FetchDek(customer: Uuid) returns (key: Key)
      requires Valid()
      modifies this`tables, this`clock
      ensures Valid() && HasKey(tables, customer, key) && Grows(old(tables), tables)
      ensures draws.address !in old(tables).addresses ==> draws.address !in tables.addresses
      ensures Alone() ==> tables.addresses == old(tables).addresses
    {
      Yield();
      if customer in tables.deks {
        return tables.deks[customer].key;
      }
      Yield();
      var inserted := customer !in tables.deks;
      DekInserted(env, tables, customer, Wrapped(draws.key));
      tables := InsertDek(tables, customer, Wrapped(draws.key));
      if inserted {
        return draws.key;
      }
      Yield();
      key := tables.deks[customer].key;
    }

    method GetOrCreateDek(customer: Uuid) returns (key: Key)
      requires Valid()
      modifies this
      ensures Valid() && HasKey(tables, customer, key) && Grows(old(tables), tables)
      ensures cache == old(cache)[customer := key]
      ensures draws.address !in old(tables).addresses ==> draws.address !in tables.addresses
      ensures Alone() ==> tables.addresses == old(tables).addresses
    {
      if customer in cache {
        return cache[customer];
      }
      key := FetchDek(customer);
      cache := cache[customer := key];
    }

    // Under a caller-supplied id: someone else having it is not a conflict.
    method MintCustomer(id: Uuid)
      requires Valid()
      modifies this`tables, this`clock
      ensures Valid() && id in tables.customers && Grows(old(tables), tables)
      ensures draws.address !in old(tables).addresses ==> draws.address !in tables.addresses
      ensures Alone() ==> tables.addresses == old(tables).addresses
    {
      Yield();
      CustomerInserted(env, tables, id);
      tables := InsertCustomer(tables, id);
    }

    method MintWithExternal(system: string, ext: string) returns (customer: Uuid)
      requires Valid() && Unused(tables, draws)
      modifies this`tables, this`clock
      ensures Valid() && Grows(old(tables), tables)
      ensures (system, ext) in tables.externals && tables.externals[(system, ext)] == customer
      ensures customer in tables.customers
      ensures draws.address !in tables.addresses
      ensures Alone() ==> tables.addresses == old(tables).addresses
    {
      Yield();
      if (system, ext) !in tables.externals {
        var id := draws.customer;
        CustomerInserted(env, tables, id);
        ExternalInserted(env, InsertCustomer(tables, id), system, ext, id);
        tables := InsertExternal(InsertCustomer(tables, id), system, ext, id);
        return id;
      }
      Yield();
      customer := tables.externals[(system, ext)];
    }

    // The row the lookup by destination returns, if any.
    method FindByHmac(kind: string, hmac: Hash) returns (found: Option<Uuid>)
      ensures Finds(tables, kind, hmac, found)
    {
      var hits := set a | a in tables.addresses && Hit(tables, kind, hmac, a);
      if hits == {} {
        assert forall a :: a in tables.addresses && Hit(tables, kind, hmac, a) ==> a in hits;
        return None;
      }
      var a :| a in hits;
      found := Some(a);
    }

    // The winner's row, after a transaction lost on the destination index.
    method ReadWinner(kind: string, hmac: Hash) returns (customer: Uuid, address: Uuid)
      requires Valid() && Taken(tables, kind, hmac) && draws.address !in tables.addresses
      modifies this`tables, this`clock
      ensures Valid() && Grows(old(tables), tables) && address != draws.address
      ensures Hit(tables, kind, hmac, address) && tables.addresses[address].customer == customer
    {
      Yield();
      StillTaken(old(tables), tables, kind, hmac);
      var found := FindByHmac(kind, hmac);
      address := found.value;
      customer := tables.addresses[address].customer;
    }

    method MintWithAddress(channel: Channel, destination: string)
      returns (customer: Uuid, address: Uuid)
      requires Valid() && Unused(tables, draws)
      modifies this
      ensures Valid() && Grows(old(tables), tables) && Right(channel, destination, customer, address)
      ensures Alone() ==> (address == draws.address
                           <==> !Taken(old(tables), KindForChannel(channel), env.hmac(destination)))
    {
      var kind, hmac := KindForChannel(channel), env.hmac(destination);
      customer, address := draws.customer, draws.address;
      var cipher := Cipher(draws.key, address, destination);
      Yield();
      var found := FindByHmac(kind, hmac);
      if found.None? {
        var row := Address(customer, kind, hmac, 1, cipher);
        MintedOk(env, tables, customer, address, row);
        tables := Minted(tables, customer, address, row, Wrapped(draws.key));
        cache := cache[customer := draws.key];
        return;
      }
      customer, address := ReadWinner(kind, hmac);
    }

    // The customer's row stays locked from here to the commit: others add no
    // address of this customer in between.
    method NextRankForUpdate(customer: Uuid, kind: string) returns (rank: nat)
      ensures NextRank(tables, customer, kind, rank)
    {
      var left := set a | a in tables.addresses && Owned(tables, customer, kind, a);
      ghost var owned := left;
      rank := 0;
      while left != {}
        invariant left <= owned
        invariant forall a :: a in owned && a !in left ==> tables.addresses[a].rank <= rank
        invariant rank == 0 || exists a :: a in owned && tables.addresses[a].rank == rank
        decreases |left|
      {
        var a :| a in left;
        left := left - {a};
        if tables.addresses[a].rank > rank {
          rank := tables.addresses[a].rank;
        }
      }
      forall a | a in tables.addresses && Owned(tables, customer, kind, a)
        ensures tables.addresses[a].rank <= rank
      {
        assert a in owned;
      }
      rank := rank + 1;
    }

    // The rank, and what others commit before this call does.
    method LockedRank(customer: Uuid, kind: string) returns (rank: nat)
      requires Valid()
      modifies this`tables, this`clock
      ensures Valid() && Grows(old(tables), tables) && rank >= 1
      ensures draws.address !in old(tables).addresses ==> draws.address !in tables.addresses
      ensures forall a :: a in tables.addresses && Owned(tables, customer, kind, a) ==> tables.addresses[a].rank < rank
      ensures Alone() ==> tables == old(tables)
    {
      rank := NextRankForUpdate(customer, kind);
      ghost var ranked := tables;
      YieldLocked(customer);
      StillNext(ranked, tables, customer, kind, rank);
    }

    // The insert, under the lock and with the destination free.
    method CommitAddress(customer: Uuid, key: Key, channel: Channel, destination: string, rank: nat)
      requires Valid() && customer in tables.customers && HasKey(tables, customer, key)
      requires draws.address !in tables.addresses
      requires !Taken(tables, KindForChannel(channel), env.hmac(destination))
      requires forall a :: a in tables.addresses && Owned(tables, customer, KindForChannel(channel), a)
                           ==> tables.addresses[a].rank < rank
      modifies this`tables
      ensures Valid() && Grows(old(tables), tables) && Right(channel, destination, customer, draws.address)
    {
      var row := Address(customer, KindForChannel(channel), env.hmac(destination), rank,
                         Cipher(key, draws.address, destination));
      AddressInserted(env, tables, draws.address, row);
      tables := InsertAddress(tables, draws.address, row);
    }

    method AddAddress(customer: Uuid, key: Key, channel: Channel, destination: string)
      returns (owner: Uuid, address: Uuid)
      requires Valid() && customer in tables.customers && HasKey(tables, customer, key)
      requires draws.address !in tables.addresses
      modifies this`tables, this`clock
      ensures Valid() && Grows(old(tables), tables) && Right(channel, destination, owner, address)
      ensures address == draws.address ==> owner == customer
      ensures Alone() ==> (address == draws.address
                           <==> !Taken(old(tables), KindForChannel(channel), env.hmac(destination)))
    {
      var kind, hmac := KindForChannel(channel), env.hmac(destination);
      Yield();
      var rank := LockedRank(customer, kind);
      var found := FindByHmac(kind, hmac);
      if found.None? {
        CommitAddress(customer, key, channel, destination, rank);
        return customer, draws.address;
      }
      owner, address := ReadWinner(kind, hmac);
    }

    method FindForCustomer(customer: Uuid, kind: string, hmac: Hash) returns (found: Option<Uuid>)
      ensures FindsFor(tables, customer, kind, hmac, found)
    {
      var hits := set a | a in tables.addresses && Hit(tables, kind, hmac, a)
                          && tables.addresses[a].customer == customer;
      if hits == {} {
        assert forall a :: a in tables.addresses && Hit(tables, kind, hmac, a)
                           ==> a in hits || tables.addresses[a].customer != customer;
        return None;
      }
      var a :| a in hits;
      found := Some(a);
    }

    // The customer named by the request, minted if nobody has it yet.
    method ResolveCustomer(input: Input) returns (customer: Uuid)
      requires Valid() && Unused(tables, draws) && !input.AddressOnly?
      modifies this`tables, this`clock
      ensures Valid() && Grows(old(tables), tables) && draws.address !in tables.addresses
      ensures Named(env, tables, input, customer)
      ensures Alone() ==> tables.addresses == old(tables).addresses
    {
      match input {
        case Explicit(id) =>
          customer := ExpandAlias(env.aliases, id);
          Yield();
          if customer !in tables.customers {
            MintCustomer(customer);
          }
        case External(system, ext) =>
          Yield();
          if (system, ext) in tables.externals {
            customer := tables.externals[(system, ext)];
            Yield();
          } else {
            customer := MintWithExternal(system, ext);
          }
      }
    }

    method ResolveByAddress(channel: Channel, destination: string)
      returns (customer: Uuid, address: Uuid)
      requires Valid() && Unused(tables, draws)
      modifies this
      ensures Valid() && Grows(old(tables), tables) && Right(channel, destination, customer, address)
      ensures Alone() ==> (address == draws.address
                           <==> !Taken(old(tables), KindForChannel(channel), env.hmac(destination)))
    {
      Yield();
      var found := FindByHmac(KindForChannel(channel), env.hmac(destination));
      if found.Some? {
        return tables.addresses[found.value].customer, found.value;
      }
      customer, address := MintWithAddress(channel, destination);
    }

    // The named customer's address: found, added, or another's by now.
    method ResolveFor(named: Uuid, channel: Channel, destination: string)
      returns (customer: Uuid, address: Uuid)
      requires Valid() && named in tables.customers && draws.address !in tables.addresses
      modifies this
      ensures Valid() && Grows(old(tables), tables) && Right(channel, destination, customer, address)
      ensures address == draws.address ==> customer == named
      ensures Alone() ==> (address == draws.address
                           <==> !Taken(old(tables), KindForChannel(channel), env.hmac(destination)))
    {
      Yield();
      var found := FindForCustomer(named, KindForChannel(channel), env.hmac(destination));
      if found.Some? {
        return named, found.value;
      }
      ghost var before := tables;
      var key := GetOrCreateDek(named);
      StillNotTaken(before, tables, KindForChannel(channel), env.hmac(destination));
      customer, address := AddAddress(named, key, channel, destination);
    }

    /**
     * Whatever others commit meanwhile, the answer is an address with the
     * requested kind and hash, readable, owned by the returned customer. A row
     * this call adds is the named customer's, and with nobody else writing it
     * adds one exactly when the destination was free.
     */
    method Resolve(input: Input, channel: Channel, destination: string)
      returns (customer: Uuid, address: Uuid)
      requires Valid() && Unused(tables, draws)
      modifies this
      ensures Valid() && Grows(old(tables), tables) && Right(channel, destination, customer, address)
      ensures address == draws.address && !input.AddressOnly? ==> Named(env, tables, input, customer)
      ensures Alone() ==> (address == draws.address
                           <==> !Taken(old(tables), KindForChannel(channel), env.hmac(destination)))
    {
      if input.AddressOnly? {
        customer, address := ResolveByAddress(channel, destination);
      } else {
        var named := ResolveCustomer(input);
        StillNotTaken(old(tables), tables, KindForChannel(channel), env.hmac(destination));
        customer, address := ResolveFor(named, channel, destination);
      }
    }

    method ProvisionOne(id: Uuid, key: Key) returns (created: bool)
      requires Valid()
      modifies this`tables, this`clock
      ensures Valid() && Grows(old(tables), tables) && id in tables.deks
      ensures id in old(tables).deks ==> !created
      ensures Alone() ==> tables.deks == InsertDek(old(tables), id, Wrapped(key)).deks
      ensures Alone() ==> created == (id !in old(tables).deks)
    {
      Yield();
      if id in tables.deks {
        return false;
      }
      Yield();
      created := id !in tables.deks;
      DekInserted(env, tables, id, Wrapped(key));
      tables := InsertDek(tables, id, Wrapped(key));
    }

    /**
     * Every id ends up with a key row; each is counted once. A batch whose ids
     * all have rows creates nothing, and with nobody else writing the created
     * count is exactly the number of new rows.
     */
    method PreProvisionDeks(ids: seq<Uuid>, keys: nat -> Key) returns (created: nat, existed: nat)
      requires Valid()
      modifies this`tables, this`clock
      ensures Valid() && Grows(old(tables), tables)
      ensures created + existed == |ids|
      ensures Counted(old(tables), tables, ids, |ids|, created, Alone())
    {
      created, existed := 0, 0;
      for k := 0 to |ids|
        invariant Valid() && Grows(old(tables), tables)
        invariant created + existed == k
        invariant Counted(old(tables), tables, ids, k, created, Alone())
      {
        ghost var before := tables;
        var one := ProvisionOne(ids[k], keys(k));
        CountOne(old(tables), before, tables, ids, k, created, one, keys(k), Alone());
        if one {
          created := created + 1;
        } else {
          existed := existed + 1;
        }
      }
    }
  }

  // The first `k` ids handled, `created` of them with a new row.
  ghost predicate Counted(before: Tables, now: Tables, ids: seq<Uuid>, k: nat, created: nat,
                          alone: bool)
    requires k <= |ids|
  {
    && (forall i :: 0 <= i < k ==> ids[i] in now.deks)
    && ((forall i :: 0 <= i < k ==> ids[i] in before.deks) ==> created == 0)
    && (alone ==> |now.deks| == |before.deks| + created)
    && (alone ==> forall id :: id in now.deks && id !in before.deks ==> id in ids)
  }

  lemma CountOne(before: Tables, t: Tables, u: Tables, ids: seq<Uuid>, k: nat, created: nat,
                 one: bool, key: Key, alone: bool)
    requires k < |ids| && Counted(before, t, ids, k, created, alone)
    requires before.deks.Keys <= t.deks.Keys <= u.deks.Keys && ids[k] in u.deks
    requires ids[k] in t.deks ==> !one
    requires alone ==> u.deks == InsertDek(t, ids[k], Wrapped(key)).deks
    requires alone ==> one == (ids[k] !in t.deks)
    ensures Counted(before, u, ids, k + 1, if one then created + 1 else created, alone)
  {
    assert ids[k] in before.deks ==> ids[k] in t.deks;
    if alone && one {
      assert u.deks.Keys == t.deks.Keys + {ids[k]};
    }
  }

  lemma StillNotTaken(t: Tables, u: Tables, kind: string, hmac: Hash)
    ensures t.addresses == u.addresses ==> (Taken(t, kind, hmac) <==> Taken(u, kind, hmac))
  {
    if t.addresses == u.addresses {
      NotTaken(t, u, kind, hmac);
    }
  }

  lemma StillTaken(t: Tables, u: Tables, kind: string, hmac: Hash)
    requires Grows(t, u) && Taken(t, kind, hmac)
    ensures Taken(u, kind, hmac)
  {
    var a :| a in t.addresses && Hit(t, kind, hmac, a);
    assert Hit(u, kind, hmac, a);
  }

  // A rank read under the lock stays above every rank in use.
  lemma StillNext(t: Tables, u: Tables, customer: Uuid, kind: string, rank: nat)
    requires NextRank(t, customer, kind, rank) && Grows(t, u) && Barred(customer, t, u)
    ensures forall a :: a in u.addresses && Owned(u, customer, kind, a) ==> u.addresses[a].rank < rank
  {
    forall a | a in u.addresses && Owned(u, customer, kind, a)
      ensures u.addresses[a].rank < rank
    {
      assert a in t.addresses && Owned(t, customer, kind, a);
    }
  }
}
