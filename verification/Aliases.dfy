/** Customer merges: following an alias forward and collecting them back. */
module Aliases {
  import opened Base

  const ALIAS_HOP_LIMIT: nat := 8

  // customer_alias: old_customer_id (primary key) to customer_id.
  type AliasTable = map<Uuid, Uuid>

  // `n` hops from `id`, stopping early where no row matches.
  function Walk(aliases: AliasTable, id: Uuid, n: nat): Uuid
    decreases n
  {
    if n == 0 || id !in aliases then id else Walk(aliases, aliases[id], n - 1)
  }

  method ExpandAlias(aliases: AliasTable, id: Uuid) returns (current: Uuid)
    ensures current == Walk(aliases, id, ALIAS_HOP_LIMIT)
  {
    current := id;
    for hop := 0 to ALIAS_HOP_LIMIT
      invariant Walk(aliases, id, ALIAS_HOP_LIMIT) == Walk(aliases, current, ALIAS_HOP_LIMIT - hop)
    {
      if current !in aliases {
        return;
      }
      current := aliases[current];
    }
  }

  // The rows of the recursive query at one depth.
  function Level(aliases: AliasTable, id: Uuid, depth: nat): set<Uuid> {
    if depth == 0 then {id}
    else set oldId | oldId in aliases && aliases[oldId] in Level(aliases, id, depth - 1)
  }

  function Levels(aliases: AliasTable, id: Uuid, depth: nat): set<Uuid> {
    Level(aliases, id, depth) + if depth == 0 then {} else Levels(aliases, id, depth - 1)
  }

  function AliasSet(aliases: AliasTable, canonical: Uuid): set<Uuid> {
    Levels(aliases, canonical, ALIAS_HOP_LIMIT)
  }

  // ----------------------------------------------------------------- chains

  // `to` is exactly `n` alias rows away from `from`.
  predicate Hops(aliases: AliasTable, from: Uuid, to: Uuid, n: nat)
    decreases n
  {
    if n == 0 then from == to else from in aliases && Hops(aliases, aliases[from], to, n - 1)
  }

  lemma {:induction false} LevelIsHops(aliases: AliasTable, id: Uuid, depth: nat, x: Uuid)
    ensures x in Level(aliases, id, depth) <==> Hops(aliases, x, id, depth)
  {
    if depth > 0 && x in aliases {
      LevelIsHops(aliases, id, depth - 1, aliases[x]);
    }
  }

  lemma {:induction false} LevelsAreHops(aliases: AliasTable, id: Uuid, depth: nat, x: Uuid)
    ensures x in Levels(aliases, id, depth) <==> ReachedWithin(aliases, x, id, depth)
  {
    LevelIsHops(aliases, id, depth, x);
    if depth == 0 {
    } else {
      LevelsAreHops(aliases, id, depth - 1, x);
    }
  }

  lemma HopsInLevels(aliases: AliasTable, id: Uuid, depth: nat, x: Uuid, n: nat)
    requires n <= depth && Hops(aliases, x, id, n)
    ensures x in Levels(aliases, id, depth)
  {
    LevelsAreHops(aliases, id, depth, x);
    assert ReachedWithin(aliases, x, id, depth);
  }

  lemma {:induction false} WalkHops(aliases: AliasTable, x: Uuid, limit: nat) returns (n: nat)
    ensures n <= limit && Hops(aliases, x, Walk(aliases, x, limit), n)
    ensures n == limit || Walk(aliases, x, limit) !in aliases
    decreases limit
  {
    if limit == 0 || x !in aliases {
      n := 0;
    } else {
      n := WalkHops(aliases, aliases[x], limit - 1);
      n := n + 1;
    }
  }

  lemma {:induction false} HopsToEnd(aliases: AliasTable, x: Uuid, end: Uuid, n: nat, limit: nat)
    requires Hops(aliases, x, end, n) && n <= limit && end !in aliases
    ensures Walk(aliases, x, limit) == end
    decreases n
  {
    if n == 0 {
    } else {
      HopsToEnd(aliases, aliases[x], end, n - 1, limit - 1);
    }
  }

  // -------------------------------------------------------- the two agree

  // Whatever an id expands to, the reverse closure of the result finds the
  // id again, in every alias table, cyclic ones included.
  lemma ExpandedIsFound(aliases: AliasTable, x: Uuid)
    ensures x in AliasSet(aliases, Walk(aliases, x, ALIAS_HOP_LIMIT))
  {
    FoundWithin(aliases, x, ALIAS_HOP_LIMIT);
  }

  lemma FoundWithin(aliases: AliasTable, x: Uuid, limit: nat)
    ensures x in Levels(aliases, Walk(aliases, x, limit), limit)
  {
    var n := WalkHops(aliases, x, limit);
    HopsInLevels(aliases, Walk(aliases, x, limit), limit, x, n);
  }

  // For an id that was not itself merged away the closure is exactly the
  // set of ids that expand to it.
  lemma ClosureExact(aliases: AliasTable, canonical: Uuid, x: Uuid)
    requires canonical !in aliases
    ensures x in AliasSet(aliases, canonical) <==> Walk(aliases, x, ALIAS_HOP_LIMIT) == canonical
  {
    LevelsAreHops(aliases, canonical, ALIAS_HOP_LIMIT, x);
    if x in AliasSet(aliases, canonical) {
      var n: nat :| n <= ALIAS_HOP_LIMIT && Hops(aliases, x, canonical, n);
      HopsToEnd(aliases, x, canonical, n, ALIAS_HOP_LIMIT);
    } else if Walk(aliases, x, ALIAS_HOP_LIMIT) == canonical {
      ExpandedIsFound(aliases, x);
    }
  }

  // Expanding reaches a canonical id, and expanding again changes nothing,
  // exactly when the chain ends within the hop limit; a longer chain, or a
  // cycle, leaves an id that is itself merged away.
  lemma ExpansionEnds(aliases: AliasTable, x: Uuid)
    ensures Walk(aliases, x, ALIAS_HOP_LIMIT) !in aliases <==> EndsWithin(aliases, x, ALIAS_HOP_LIMIT)
    ensures Walk(aliases, x, ALIAS_HOP_LIMIT) !in aliases ==>
              Walk(aliases, Walk(aliases, x, ALIAS_HOP_LIMIT), ALIAS_HOP_LIMIT) == Walk(aliases, x, ALIAS_HOP_LIMIT)
  {
    EndsExact(aliases, x, ALIAS_HOP_LIMIT);
  }

  ghost predicate ReachedWithin(aliases: AliasTable, x: Uuid, id: Uuid, limit: nat) {
    exists n: nat :: n <= limit && Hops(aliases, x, id, n)
  }

  ghost predicate EndsWithin(aliases: AliasTable, x: Uuid, limit: nat) {
    exists n: nat, end :: n <= limit && Hops(aliases, x, end, n) && end !in aliases
  }

  lemma EndsExact(aliases: AliasTable, x: Uuid, limit: nat)
    ensures Walk(aliases, x, limit) !in aliases <==> EndsWithin(aliases, x, limit)
  {
    var n := WalkHops(aliases, x, limit);
    if EndsWithin(aliases, x, limit) {
      var m: nat, end :| m <= limit && Hops(aliases, x, end, m) && end !in aliases;
      HopsToEnd(aliases, x, end, m, limit);
    }
  }
}
