/** Names shared by every part of the model. */
module Base {

  datatype Option<+T> = None | Some(value: T)

  // A database identifier. Only equality of identifiers is ever used.
  type Uuid = nat

  // A UTC instant, in milliseconds.
  type Instant = int

  const MINUTE: int := 60_000
  const HOUR: int := 60 * MINUTE
  const DAY: int := 24 * HOUR

  function Min(a: int, b: int): (m: int)
    ensures m <= a && m <= b && (m == a || m == b)
  {
    if a <= b then a else b
  }

  function Max(a: int, b: int): (m: int)
    ensures m >= a && m >= b && (m == a || m == b)
  {
    if a >= b then a else b
  }

  // Splits at the first separator, as `str::split_once` does.
  function SplitOnce(s: string, sep: char): (r: Option<(string, string)>)
    ensures r.None? <==> sep !in s
    ensures r.Some? ==> s == r.value.0 + [sep] + r.value.1 && sep !in r.value.0
  {
    if s == [] then None
    else if s[0] == sep then Some(("", s[1..]))
    else
      match SplitOnce(s[1..], sep)
      case None => None
      case Some((a, b)) => Some(([s[0]] + a, b))
  }

  lemma {:induction false} MaxOf(s: set<nat>) returns (m: nat)
    requires s != {}
    ensures m in s && forall x :: x in s ==> x <= m
    decreases |s|
  {
    var x :| x in s;
    var rest := s - {x};
    if rest == {} {
      assert s == {x};
      m := x;
    } else {
      var r := MaxOf(rest);
      m := if r > x then r else x;
      assert forall y :: y in s ==> y == x || y in rest;
    }
  }

  lemma FreshId(used: set<nat>) returns (id: nat)
    ensures id !in used
  {
    id := 0;
    if used != {} {
      var m := MaxOf(used);
      id := m + 1;
    }
  }
}
