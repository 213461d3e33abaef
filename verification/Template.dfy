/**
 * Template rendering: the scan-and-replace loop against the reading of a
 * body as literal text and `{{ key }}` placeholders.
 */
module Template {
  import opened Base

  datatype RenderError = MissingVariable(key: string) | UnterminatedPlaceholder(rest: string)

  datatype Rendered = Ok(text: string) | Err(error: RenderError)

  // Unicode White_Space, which `str::trim` strips.
  predicate IsSpace(c: char) {
    || '\U{9}' <= c <= '\U{D}' || c == ' ' || c == '\U{85}' || c == '\U{A0}' || c == '\U{1680}'
    || '\U{2000}' <= c <= '\U{200A}' || c == '\U{2028}' || c == '\U{2029}' || c == '\U{202F}'
    || c == '\U{205F}' || c == '\U{3000}'
  }

  function TrimStart(s: string): string {
    if s != [] && IsSpace(s[0]) then TrimStart(s[1..]) else s
  }

  function TrimEnd(s: string): string {
    if s != [] && IsSpace(s[|s| - 1]) then TrimEnd(s[..|s| - 1]) else s
  }

  function Trim(s: string): string {
    TrimEnd(TrimStart(s))
  }

  // ---------------------------------------------------------------- finding

  // `pair` occurs at `i`.
  predicate OccursAt(s: string, pair: string, i: nat)
    requires |pair| == 2
  {
    i + 2 <= |s| && s[i] == pair[0] && s[i + 1] == pair[1]
  }

  // `str::find` for a two-character needle.
  function Find(s: string, pair: string): (r: Option<nat>)
    requires |pair| == 2
    ensures r.Some? ==> r.value + 2 <= |s|
  {
    if |s| < 2 then None
    else if OccursAt(s, pair, 0) then Some(0)
    else
      var r := Find(s[1..], pair);
      if r.None? then None else Some(r.value + 1)
  }

  // It returns the first occurrence.
  lemma {:induction false} FindFirst(s: string, pair: string)
    requires |pair| == 2
    ensures Find(s, pair).None? ==> forall i: nat :: !OccursAt(s, pair, i)
    ensures Find(s, pair).Some? ==>
              OccursAt(s, pair, Find(s, pair).value) && forall i: nat :: i < Find(s, pair).value ==> !OccursAt(s, pair, i)
  {
    if |s| >= 2 && !OccursAt(s, pair, 0) {
      FindFirst(s[1..], pair);
      assert forall i: nat :: i > 0 ==> (OccursAt(s, pair, i) <==> OccursAt(s[1..], pair, i - 1));
    }
  }

  lemma FindUnique(s: string, pair: string, i: nat)
    requires |pair| == 2 && OccursAt(s, pair, i) && forall j: nat :: j < i ==> !OccursAt(s, pair, j)
    ensures Find(s, pair) == Some(i)
  {
    FindFirst(s, pair);
  }

  // ---------------------------------------------------------------- reading

  const OPEN := "{{"
  const CLOSE := "}}"

  // A body: literal text, then a placeholder and the rest, or nothing more.
  // An unterminated `{{` ends it.
  datatype Body =
    | Text(text: string)
    | Unterminated(text: string, tail: string)
    | Slot(text: string, raw: string, rest: Body)

  function Parse(s: string): Body
    decreases |s|
  {
    match Find(s, OPEN)
    case None => Text(s)
    case Some(start) =>
      var after := s[start + 2..];
      match Find(after, CLOSE)
      case None => Unterminated(s[..start], after)
      case Some(end) => Slot(s[..start], after[..end], Parse(after[end + 2..]))
  }

  function Print(b: Body): string {
    match b
    case Text(text) => text
    case Unterminated(text, tail) => text + OPEN + tail
    case Slot(text, raw, rest) => text + OPEN + raw + CLOSE + Print(rest)
  }

  // Each part ends at the first chance to end it.
  ghost predicate Canonical(b: Body) {
    match b
    case Text(text) => Find(text, OPEN) == None
    case Unterminated(text, tail) => Find(text + OPEN, OPEN) == Some(|text|) && Find(tail, CLOSE) == None
    case Slot(text, raw, rest) =>
      Find(text + OPEN, OPEN) == Some(|text|) && Find(raw + CLOSE, CLOSE) == Some(|raw|) && Canonical(rest)
  }

  // Only what precedes the end of the first occurrence matters to a find.
  lemma FindPrefix(s: string, pair: string, more: string)
    requires |pair| == 2
    ensures Find(s + pair, pair) == Some(|s|) <==> Find(s + pair + more, pair) == Some(|s|)
  {
    var t, u := s + pair, s + pair + more;
    assert forall i: nat :: i <= |s| ==> (OccursAt(t, pair, i) <==> OccursAt(u, pair, i));
    assert OccursAt(t, pair, |s|);
    FindFirst(t, pair);
    FindFirst(u, pair);
    if Find(t, pair) == Some(|s|) {
      FindUnique(u, pair, |s|);
    }
    if Find(u, pair) == Some(|s|) {
      FindUnique(t, pair, |s|);
    }
  }

  // A string around its first occurrence of a pair.
  lemma SplitAt(s: string, pair: string, i: nat)
    requires |pair| == 2 && Find(s, pair) == Some(i)
    ensures i + 2 <= |s| && s == s[..i] + pair + s[i + 2..]
    ensures Find(s[..i] + pair, pair) == Some(i)
  {
    FindFirst(s, pair);
    assert s == s[..i] + pair + s[i + 2..];
    FindPrefix(s[..i], pair, s[i + 2..]);
  }

  lemma Regroup(text: string, open: string, raw: string, close: string, rest: string)
    ensures text + open + raw + close + rest == text + open + (raw + close + rest)
  {
  }

  // Reading and printing are inverse on every body.
  lemma {:induction false} PrintParse(s: string)
    ensures Print(Parse(s)) == s
    decreases |s|
  {
    match Find(s, OPEN)
    case None =>
    case Some(start) =>
      var after := s[start + 2..];
      SplitAt(s, OPEN, start);
      match Find(after, CLOSE)
      case None =>
      case Some(end) =>
        SplitAt(after, CLOSE, end);
        PrintParse(after[end + 2..]);
        Regroup(s[..start], OPEN, after[..end], CLOSE, after[end + 2..]);
  }

  lemma {:induction false} ParseCanonical(s: string)
    ensures Canonical(Parse(s))
    decreases |s|
  {
    match Find(s, OPEN)
    case None =>
    case Some(start) =>
      var after := s[start + 2..];
      SplitAt(s, OPEN, start);
      match Find(after, CLOSE)
      case None =>
      case Some(end) =>
        SplitAt(after, CLOSE, end);
        ParseCanonical(after[end + 2..]);
  }

  lemma {:induction false} ParsePrint(b: Body)
    requires Canonical(b)
    ensures Parse(Print(b)) == b
  {
    var s := Print(b);
    match b
    case Text(_) =>
    case Unterminated(text, tail) =>
      FindPrefix(text, OPEN, tail);
      assert s[..|text|] == text && s[|text| + 2..] == tail;
    case Slot(text, raw, rest) =>
      var after := raw + CLOSE + Print(rest);
      assert s == text + OPEN + after;
      FindPrefix(text, OPEN, after);
      assert s[..|text|] == text && s[|text| + 2..] == after;
      FindPrefix(raw, CLOSE, Print(rest));
      assert after[..|raw|] == raw && after[|raw| + 2..] == Print(rest);
      ParsePrint(rest);
  }

  // ------------------------------------------------------------- rendering

  // Each placeholder is replaced by its own value; what a value contains is
  // never looked at again.
  function Substitute(b: Body, variables: map<string, string>): Rendered {
    match b
    case Text(text) => Ok(text)
    case Unterminated(text, tail) => Err(UnterminatedPlaceholder(OPEN + tail))
    case Slot(text, raw, rest) =>
      if Trim(raw) !in variables then Err(MissingVariable(Trim(raw)))
      else
        match Substitute(rest, variables)
        case Ok(more) => Ok(text + variables[Trim(raw)] + more)
        case Err(error) => Err(error)
  }

  function Prepend(prefix: string, r: Rendered): Rendered {
    if r.Ok? then Ok(prefix + r.text) else r
  }

  // One placeholder of the loop.
  lemma SlotStep(rest: string, start: nat, end: nat, variables: map<string, string>)
    requires Find(rest, OPEN) == Some(start) && Find(rest[start + 2..], CLOSE) == Some(end)
    ensures var after := rest[start + 2..];
            var key := Trim(after[..end]);
            Substitute(Parse(rest), variables) ==
            if key !in variables then Err(MissingVariable(key))
            else Prepend(rest[..start] + variables[key], Substitute(Parse(after[end + 2..]), variables))
  {
  }

  lemma PrependTwice(a: string, b: string, r: Rendered)
    ensures Prepend(a, Prepend(b, r)) == Prepend(a + b, r)
  {
    if r.Ok? {
      assert a + (b + r.text) == (a + b) + r.text;
    }
  }

  // The loop equals reading the body and substituting segment by segment.
  method Render(body: string, variables: map<string, string>) returns (r: Rendered)
    ensures r == Substitute(Parse(body), variables)
  {
    var result := "";
    var rest := body;
    ghost var whole := Substitute(Parse(body), variables);
    var start := Find(rest, OPEN);
    while start.Some?
      invariant start == Find(rest, OPEN)
      invariant whole == Prepend(result, Substitute(Parse(rest), variables))
      decreases |rest|
    {
      var afterOpen := rest[start.value + 2..];
      var end := Find(afterOpen, CLOSE);
      if end.None? {
        SplitAt(rest, OPEN, start.value);
        assert rest[start.value..] == OPEN + afterOpen;
        return Err(UnterminatedPlaceholder(rest[start.value..]));
      }
      SlotStep(rest, start.value, end.value, variables);
      var key := Trim(afterOpen[..end.value]);
      if key !in variables {
        return Err(MissingVariable(key));
      }
      var piece := rest[..start.value] + variables[key];
      PrependTwice(result, piece, Substitute(Parse(afterOpen[end.value + 2..]), variables));
      result := result + piece;
      rest := afterOpen[end.value + 2..];
      start := Find(rest, OPEN);
    }
    r := Ok(result + rest);
  }

  // The keys of a body, left to right, and whether it ends unterminated.
  function Keys(b: Body): seq<string> {
    if b.Slot? then [Trim(b.raw)] + Keys(b.rest) else []
  }

  function Broken(b: Body): bool {
    match b
    case Text(_) => false
    case Unterminated(_, _) => true
    case Slot(_, _, rest) => Broken(rest)
  }

  // The error is the leftmost one: the first missing key, or, with every
  // key present, the unterminated placeholder that ends the body.
  lemma {:induction false} LeftmostError(b: Body, variables: map<string, string>)
    ensures Substitute(b, variables).Ok? <==> !Broken(b) && forall k :: k in Keys(b) ==> k in variables
    ensures forall i :: 0 <= i < |Keys(b)| && Keys(b)[i] !in variables
                        && (forall j :: 0 <= j < i ==> Keys(b)[j] in variables)
                        ==> Substitute(b, variables) == Err(MissingVariable(Keys(b)[i]))
    ensures Broken(b) && (forall k :: k in Keys(b) ==> k in variables) ==>
              Substitute(b, variables).Err? && Substitute(b, variables).error.UnterminatedPlaceholder?
  {
    if b.Slot? {
      LeftmostError(b.rest, variables);
      var keys := Keys(b);
      assert keys[0] == Trim(b.raw) && keys[1..] == Keys(b.rest);
      assert forall k :: k in keys <==> k == keys[0] || k in Keys(b.rest);
      forall i | 0 <= i < |keys| && keys[i] !in variables && (forall j :: 0 <= j < i ==> keys[j] in variables)
        ensures Substitute(b, variables) == Err(MissingVariable(keys[i]))
      {
        if i > 0 {
          assert Keys(b.rest)[i - 1] == keys[i];
          assert forall j :: 0 <= j < i - 1 ==> Keys(b.rest)[j] == keys[j + 1];
        }
      }
    }
  }

  // Variables a body does not mention make no difference.
  lemma {:induction false} OnlyReferencedKeysMatter(b: Body, v: map<string, string>, w: map<string, string>)
    requires forall k :: k in Keys(b) ==> (k in v <==> k in w) && (k in v ==> v[k] == w[k])
    ensures Substitute(b, v) == Substitute(b, w)
  {
    if b.Slot? {
      assert Trim(b.raw) in Keys(b);
      OnlyReferencedKeysMatter(b.rest, v, w);
    }
  }
}
