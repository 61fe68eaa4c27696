/**
 Block ids as records.  An id stands for the whole block: it carries the id of the previous block and
 what the block contains, so equal ids mean equal blocks, and a block's number is one more than its
 predecessor's.  `Zero` is the empty id that precedes block 1.
 */
module Blocks {

  datatype BlockId = Zero | Block(previous: BlockId, content: nat)

  function Num(id: BlockId): (n: nat)
    ensures n == 0 <==> id == Zero
  {
    match id
    case Zero => 0
    case Block(previous, _) => Num(previous) + 1
  }

  /** The block `k` steps back on the chain of `id`. */
  function Back(id: BlockId, k: nat): (r: BlockId)
    requires k <= Num(id)
    ensures Num(r) == Num(id) - k && (k == 0 ==> r == id)
  {
    if k == 0 then id else Back(id.previous, k - 1)
  }

  lemma {:induction false} BackBack(id: BlockId, j: nat, k: nat)
    requires j + k <= Num(id)
    ensures Back(Back(id, j), k) == Back(id, j + k)
    decreases j
  {
    if j > 0 {
      BackBack(id.previous, j - 1, k);
    }
  }

  /** `a` is on the chain that ends in `b`. */
  ghost predicate IsAncestor(a: BlockId, b: BlockId)
  {
    Num(a) <= Num(b) && Back(b, Num(b) - Num(a)) == a
  }

  /** The `n` blocks from `id` down, newest first. */
  function Descend(id: BlockId, n: nat): (r: seq<BlockId>)
    requires n <= Num(id)
    ensures |r| == n && forall i :: 0 <= i < n ==> r[i] == Back(id, i)
  {
    if n == 0 then [] else Descend(id, n - 1) + [Back(id, n - 1)]
  }

  /** One step further back than `Back(id, k)` is that block's predecessor. */
  lemma {:induction false} BackStep(id: BlockId, k: nat)
    requires k < Num(id)
    ensures Back(id, k).Block? && Back(id, k).previous == Back(id, k + 1)
    ensures Num(Back(id, k)) == Num(Back(id, k + 1)) + 1
    ensures Back(id, k + 1).Block? <==> k + 1 < Num(id)
  {
    BackBack(id, k, 1);
  }

  /** The first n blocks of the chain that ends in `id`, block 1 first. */
  ghost function Chain(id: BlockId, n: nat): (r: seq<BlockId>)
    requires n <= Num(id)
    ensures |r| == n && forall i :: 0 <= i < n ==> r[i] == Back(id, Num(id) - 1 - i)
  {
    seq(n, i requires 0 <= i < n => Back(id, Num(id) - 1 - i))
  }

  /** Chains that part at or above block n start with the same n blocks. */
  lemma {:induction false} SwitchKeepsChain(old': BlockId, new': BlockId, point: BlockId, n: nat)
    requires IsAncestor(point, old') && IsAncestor(point, new') && n <= Num(point)
    ensures Chain(old', n) == Chain(new', n)
  {
    var a, b := Chain(old', n), Chain(new', n);
    forall i | 0 <= i < n ensures a[i] == b[i] {
      BackBack(old', Num(old') - Num(point), Num(point) - 1 - i);
      BackBack(new', Num(new') - Num(point), Num(point) - 1 - i);
    }
  }
}
