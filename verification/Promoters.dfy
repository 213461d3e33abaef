/**
 * Any number of promoters at work on one request. Each reads the status in one
 * statement and writes its receipt in a later transaction, by the verdict it
 * reached on what it read.
 */
module Promoters {
  import opened Base
  import opened Outbox
  import opened Receipts

  datatype Promoter = Promoter(read: Option<EventType>, event: EventType)

  datatype Board = Board(status: Option<EventType>, pending: map<nat, Promoter>)

  datatype Move =
    | Look(p: nat, event: EventType)
    | Put(p: nat)
    | GiveUp(p: nat)

  predicate Enabled(b: Board, m: Move) {
    if m.Look? then m.p !in b.pending else m.p in b.pending
  }

  function Apply(b: Board, m: Move): Board
    requires Enabled(b, m)
  {
    match m
    case Look(p, event) => b.(pending := b.pending[p := Promoter(b.status, event)])
    case Put(p) =>
      var it := b.pending[p];
      Board(if ShouldAdvance(it.read, it.event) then Some(it.event) else b.status, b.pending - {p})
    case GiveUp(p) => b.(pending := b.pending - {p})
  }

  predicate MoveAt(bs: seq<Board>, moves: seq<Move>, i: nat)
    requires |bs| == |moves| + 1 && i < |moves|
  {
    Enabled(bs[i], moves[i]) && bs[i + 1] == Apply(bs[i], moves[i])
  }

  ghost predicate Run(bs: seq<Board>, moves: seq<Move>) {
    && |bs| == |moves| + 1 && bs[0].pending == map[]
    && forall i :: 0 <= i < |moves| ==> MoveAt(bs, moves, i)
  }

  predicate Absorbed(b: Board) {
    b.status.Some? && IsAbsorbing(b.status.value)
  }

  // ------------------------------------------------------ what a write knows

  // The look at `i` and the write at `k` are one promotion.
  ghost predicate Pair(moves: seq<Move>, i: nat, k: nat) {
    && i < k < |moves| && moves[i].Look? && moves[k] == Put(moves[i].p)
    && forall j :: i < j < k ==> moves[j].p != moves[i].p
  }

  lemma {:induction false} ReadKept(bs: seq<Board>, moves: seq<Move>, i: nat, k: nat, j: nat)
    requires Run(bs, moves) && Pair(moves, i, k) && i < j <= k
    ensures moves[i].p in bs[j].pending && bs[j].pending[moves[i].p] == Promoter(bs[i].status, moves[i].event)
    decreases j
  {
    if j == i + 1 {
      assert MoveAt(bs, moves, i);
    } else {
      ReadKept(bs, moves, i, k, j - 1);
      assert MoveAt(bs, moves, j - 1);
    }
  }

  // A write replaces an absorbing status by another kind exactly when its
  // receipt is of another kind and advanced the status its look saw.
  lemma LostExact(bs: seq<Board>, moves: seq<Move>, i: nat, k: nat)
    requires Run(bs, moves) && Pair(moves, i, k) && Absorbed(bs[k])
    ensures !Absorbed(bs[k + 1]) <==>
            !IsAbsorbing(moves[i].event) && ShouldAdvance(bs[i].status, moves[i].event)
  {
    ReadKept(bs, moves, i, k, k);
    assert MoveAt(bs, moves, k);
  }

  // Some write between `i` and `k` stored an absorbing receipt.
  ghost predicate AbsorbingBetween(bs: seq<Board>, moves: seq<Move>, i: nat, k: nat)
    requires |bs| == |moves| + 1 && k <= |moves|
  {
    exists j :: i < j < k && moves[j].Put? && !Absorbed(bs[j]) && Absorbed(bs[j + 1])
  }

  lemma {:induction false} BecameAbsorbed(bs: seq<Board>, moves: seq<Move>, i: nat, k: nat)
    requires Run(bs, moves) && i < k < |bs| && moves[i].Look? && !Absorbed(bs[i]) && Absorbed(bs[k])
    ensures AbsorbingBetween(bs, moves, i, k)
    decreases k
  {
    assert MoveAt(bs, moves, k - 1);
    if !Absorbed(bs[k - 1]) {
      assert moves[k - 1].Put?;
    } else {
      BecameAbsorbed(bs, moves, i, k - 1);
      var j :| i < j < k - 1 && moves[j].Put? && !Absorbed(bs[j]) && Absorbed(bs[j + 1]);
    }
  }

  // An absorbing status is lost only to a promotion in the middle of which it
  // landed: over every run, if no absorbing receipt lands between another
  // promoter's look and its write, none is ever lost.
  lemma LostNeedsOverlap(bs: seq<Board>, moves: seq<Move>, i: nat, k: nat)
    requires Run(bs, moves) && Pair(moves, i, k) && Absorbed(bs[k]) && !Absorbed(bs[k + 1])
    ensures AbsorbingBetween(bs, moves, i, k)
  {
    LostExact(bs, moves, i, k);
    BecameAbsorbed(bs, moves, i, k);
  }

  // -------------------------------------------------------- one at a time

  // No two promotions overlap.
  ghost predicate Serial(moves: seq<Move>) {
    forall i, k, j :: Pair(moves, i, k) && i < j < k ==> !moves[j].Put?
  }

  // The receipts written by the first `n` moves, in order.
  ghost function Written(bs: seq<Board>, moves: seq<Move>, n: nat): seq<EventType>
    requires Run(bs, moves) && n <= |moves|
  {
    if n == 0 then []
    else
      assert MoveAt(bs, moves, n - 1);
      Written(bs, moves, n - 1) + if moves[n - 1].Put? then [bs[n - 1].pending[moves[n - 1].p].event] else []
  }

  // Every write has its look.
  lemma {:induction false} HasLook(bs: seq<Board>, moves: seq<Move>, k: nat, p: nat) returns (i: nat)
    requires Run(bs, moves) && k <= |moves| && p in bs[k].pending
    ensures i < k && moves[i].Look? && moves[i].p == p && forall j :: i < j < k ==> moves[j].p != p
    decreases k
  {
    assert MoveAt(bs, moves, k - 1);
    if moves[k - 1].p == p {
      i := k - 1;
    } else {
      i := HasLook(bs, moves, k - 1, p);
    }
  }

  lemma {:induction false} StatusStays(bs: seq<Board>, moves: seq<Move>, i: nat, k: nat)
    requires Run(bs, moves) && i <= k <= |moves| && forall j :: i <= j < k ==> !moves[j].Put?
    ensures bs[k].status == bs[i].status
    decreases k
  {
    if i == k {
    } else {
      StatusStays(bs, moves, i, k - 1);
      assert MoveAt(bs, moves, k - 1);
    }
  }

  lemma WriteIsCurrent(bs: seq<Board>, moves: seq<Move>, k: nat)
    requires Run(bs, moves) && Serial(moves) && k < |moves| && moves[k].Put?
    ensures moves[k].p in bs[k].pending && bs[k].pending[moves[k].p].read == bs[k].status
  {
    assert MoveAt(bs, moves, k);
    var i := HasLook(bs, moves, k, moves[k].p);
    assert Pair(moves, i, k);
    ReadKept(bs, moves, i, k, k);
    StatusStays(bs, moves, i, k);
  }

  // Promotions that do not overlap fold the receipts, however many promoters
  // there are: the lattice's guarantees hold of the run.
  lemma {:induction false} SerialFolds(bs: seq<Board>, moves: seq<Move>, n: nat)
    requires Run(bs, moves) && Serial(moves) && n <= |moves|
    ensures bs[n].status == AfterReceipts(bs[0].status, Written(bs, moves, n))
  {
    if n == 0 {
    } else {
      SerialFolds(bs, moves, n - 1);
      assert MoveAt(bs, moves, n - 1);
      if moves[n - 1].Put? {
        WriteIsCurrent(bs, moves, n - 1);
        ReceiptsSnoc(bs[0].status, Written(bs, moves, n - 1), bs[n - 1].pending[moves[n - 1].p].event);
      } else {
        assert Written(bs, moves, n) == Written(bs, moves, n - 1);
      }
    }
  }

  // Two promoters: a bounce lands between the other's look and its write.
  lemma BounceCanBeLost() returns (bs: seq<Board>, moves: seq<Move>)
    ensures Run(bs, moves) && |moves| == 4 && bs[0].status == Some(Sent)
    ensures bs[3].status == Some(Bounced) && bs[4].status == Some(Delivered)
  {
    moves := [Look(0, Delivered), Look(1, Bounced), Put(1), Put(0)];
    var b0 := Board(Some(Sent), map[]);
    var b1 := Apply(b0, moves[0]);
    var b2 := Apply(b1, moves[1]);
    var b3 := Apply(b2, moves[2]);
    bs := [b0, b1, b2, b3, Apply(b3, moves[3])];
    forall i | 0 <= i < |moves| ensures MoveAt(bs, moves, i) {
    }
  }
}
