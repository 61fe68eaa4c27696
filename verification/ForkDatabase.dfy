/**
 The fork database: the recent blocks of all forks, with one of the highest blocks as its head.

 A block is kept in an item that points to the item of its predecessor.  That pointer is weak: it can be followed
 only while the item it names is in the index, is the head, or is held by a caller.  A block that is pushed again
 gets a new item, so a pointer to the old one is not restored by that; serial numbers tell the items apart.
 */
module ForkDatabases {
  import opened Common
  import opened Blocks

  datatype Item = Linked(prev: Item, content: nat, serial: nat) | Loose(previous: BlockId, content: nat, serial: nat)

  function Id(i: Item): (id: BlockId)
    ensures id.Block?
  {
    match i
    case Linked(prev, content, _) => Block(Id(prev), content)
    case Loose(previous, content, _) => Block(previous, content)
  }

  /** How many pointers there are from an item down. */
  function Depth(i: Item): (n: nat)
    ensures n < Num(Id(i))
  {
    match i
    case Linked(prev, _, _) => Depth(prev) + 1
    case Loose(_, _, _) => 0
  }

  /** The item k pointers down. */
  function Up(i: Item, k: nat): (r: Item)
    requires k <= Depth(i)
    ensures Id(r) == Back(Id(i), k) && Depth(r) == Depth(i) - k && (k == 0 ==> r == i)
    decreases k
  {
    if k == 0 then i else Up(i.prev, k - 1)
  }

  lemma {:induction false} UpUp(i: Item, j: nat, k: nat)
    requires j + k <= Depth(i)
    ensures Up(Up(i, j), k) == Up(i, j + k)
    decreases j
  {
    if j > 0 {
      UpUp(i.prev, j - 1, k);
    }
  }

  lemma {:induction false} UpStep(i: Item, k: nat)
    requires k < Depth(i)
    ensures Up(i, k).Linked? && Up(i, k).prev == Up(i, k + 1)
  {
    UpUp(i, k, 1);
    assert Up(Up(i, k), 1) == Up(Up(i, k).prev, 0);
  }

  /** The pointers from an item can be followed n steps down. */
  ghost predicate CanFollow(live: set<Item>, i: Item, n: nat)
  {
    n <= Depth(i) && forall j :: 0 < j <= n ==> Up(i, j) in live
  }

  /** One step further is one more item that must be there. */
  lemma {:induction false} FollowStep(live: set<Item>, i: Item, n: nat)
    requires CanFollow(live, i, n)
    ensures CanFollow(live, i, n + 1) <==> Up(i, n).Linked? && Up(i, n).prev in live
    ensures Up(i, n).Linked? ==> n < Depth(i) && Up(i, n).prev == Up(i, n + 1)
  {
    if n < Depth(i) {
      UpStep(i, n);
    }
  }

  /** Where two chains part, as fetch_branch_from finds it: the number of blocks on either side. */
  ghost predicate Parts(first: BlockId, second: BlockId, n: nat, m: nat)
  {
    && 0 < n <= Num(first) && 0 < m <= Num(second)
    && Num(first) - n == Num(second) - m
    && Back(first, n) == Back(second, m)
    && Apart(first, second, n - 1, m - 1)
  }

  /** The two chains have no block in common among those up to n and m steps back, the two themselves aside. */
  ghost predicate Apart(first: BlockId, second: BlockId, n: nat, m: nat)
    requires n <= Num(first) && m <= Num(second) && Num(first) - n == Num(second) - m
  {
    forall k :: 0 < k <= n && 0 < k - n + m ==> Back(first, k) != Back(second, k - n + m)
  }

  /**
   The common parent of two branches is a common ancestor, and none is more recent unless one block is
   itself an ancestor of the other; then, and only then, the last blocks of the branches coincide.
   */
  lemma {:induction false} BranchPoint(first: BlockId, second: BlockId, n: nat, m: nat)
    requires Parts(first, second, n, m)
    ensures var parent := Back(first, n);
            && IsAncestor(parent, first) && IsAncestor(parent, second)
            && (Back(first, n - 1) == Back(second, m - 1) <==> IsAncestor(first, second) || IsAncestor(second, first))
            && (Back(first, n - 1) != Back(second, m - 1) ==>
                 forall c :: IsAncestor(c, first) && IsAncestor(c, second) ==> Num(c) <= Num(parent))
  {
    var parent := Back(first, n);
    if Back(first, n - 1) == Back(second, m - 1) {
      CoincideOnlyAtTop(first, second, n, m);
    }
    if IsAncestor(first, second) {
      AncestorTop(first, second, n, m);
    }
    if IsAncestor(second, first) {
      AncestorTop(second, first, m, n);
    }
    if Back(first, n - 1) != Back(second, m - 1) {
      forall c | IsAncestor(c, first) && IsAncestor(c, second) ensures Num(c) <= Num(parent) {
        if Num(c) > Num(parent) {
          var gap := Num(c) - Num(parent) - 1;
          BackBack(first, n - 1 - gap, gap);
          BackBack(second, m - 1 - gap, gap);
        }
      }
    }
  }

  lemma {:induction false} CoincideOnlyAtTop(first: BlockId, second: BlockId, n: nat, m: nat)
    requires Parts(first, second, n, m) && Back(first, n - 1) == Back(second, m - 1)
    ensures IsAncestor(first, second) || IsAncestor(second, first)
  {
    assert (n - 1) - (n - 1) + (m - 1) == m - 1;
  }

  lemma {:induction false} AncestorTop(a: BlockId, b: BlockId, n: nat, m: nat)
    requires IsAncestor(a, b) && 0 < n <= Num(a) && 0 < m <= Num(b) && Num(a) - n == Num(b) - m
    ensures Back(a, n - 1) == Back(b, m - 1)
  {
    BackBack(b, Num(b) - Num(a), n - 1);
  }

  /** The branch of the higher block reaches at least below the height of the other. */
  lemma {:induction false} PartsAtLeast(first: BlockId, second: BlockId, k: nat)
    requires Num(first) >= Num(second) && k <= Num(first) - Num(second) + 1
    ensures forall n: nat, m: nat :: Parts(first, second, n, m) ==> n >= k
    ensures forall n: nat, m: nat :: Parts(second, first, n, m) ==> m >= k
  {
  }

  /** Chains that still differ after n and m blocks part further down. */
  lemma {:induction false} PartsBelow(first: BlockId, second: BlockId, n: nat, m: nat)
    requires 0 < n <= Num(first) && 0 < m <= Num(second) && Num(first) - n == Num(second) - m
    requires Apart(first, second, n, m)
    ensures forall i: nat, j: nat :: Parts(first, second, i, j) ==> i > n && j > m
  {
    forall i: nat, j: nat | Parts(first, second, i, j) ensures i > n && j > m {
      assert i - n + m == j;
    }
  }

  /** One more block on each side that is not where the chains part. */
  lemma {:induction false} ApartStep(first: BlockId, second: BlockId, n: nat, m: nat)
    requires n < Num(first) && m < Num(second) && Num(first) - n == Num(second) - m
    requires Apart(first, second, n, m) && Back(first, n + 1) != Back(second, m + 1)
    ensures Apart(first, second, n + 1, m + 1)
  {
    hide Back;
    forall k | 0 < k <= n + 1 && 0 < k - n + m
      ensures Back(first, k) != Back(second, k - (n + 1) + (m + 1))
    {
      assert k - (n + 1) + (m + 1) == k - n + m;
      if k == n + 1 {
        assert k - n + m == m + 1;
      }
    }
  }

  lemma {:induction false} ApartAtFirst(first: BlockId, second: BlockId, n: nat, m: nat)
    requires n <= Num(first) && m <= Num(second) && Num(first) - n == Num(second) - m
    requires n == 0 || m == 0
    ensures Apart(first, second, n, m)
  {
  }

  /** Chains that differ at some height differ above the bottom. */
  lemma {:induction false} NotAtBottom(first: BlockId, second: BlockId, n: nat, m: nat)
    requires n <= Num(first) && m <= Num(second) && Num(first) - n == Num(second) - m
    requires Back(first, n) != Back(second, m)
    ensures n < Num(first) && m < Num(second)
  {
    assert Num(Back(first, n)) == Num(first) - n;
    assert Num(Back(second, m)) == Num(second) - m;
  }

  /** The last block on each side comes where the predecessors agree. */
  lemma {:induction false} PartsHere(first: BlockId, second: BlockId, n: nat, m: nat)
    requires n < Num(first) && m < Num(second) && Num(first) - n == Num(second) - m
    requires Apart(first, second, n, m) && Back(first, n + 1) == Back(second, m + 1)
    ensures Parts(first, second, n + 1, m + 1)
  {
  }

  /** A pointer that is missing above the parting point is a missing pointer. */
  lemma {:induction false} CannotFollow(live: set<Item>, f: Item, s: Item, n: nat, m: nat)
    requires 0 < n <= Num(Id(f)) && 0 < m <= Num(Id(s)) && Num(Id(f)) - n == Num(Id(s)) - m
    requires Apart(Id(f), Id(s), n, m)
    requires !CanFollow(live, f, n) || !CanFollow(live, s, m)
    ensures forall i: nat, j: nat :: Parts(Id(f), Id(s), i, j) ==>
      !CanFollow(live, f, i - 1) || !CanFollow(live, s, j - 1)
  {
    PartsBelow(Id(f), Id(s), n, m);
    hide Back, Parts, Apart, Up;
    forall i: nat, j: nat | Parts(Id(f), Id(s), i, j)
      ensures !CanFollow(live, f, i - 1) || !CanFollow(live, s, j - 1)
    {
      assert n <= i - 1 && m <= j - 1;
    }
  }

  /** The known blocks of the given number. */
  function AtNumber(index: set<BlockId>, num: nat): (r: set<BlockId>)
  {
    set b | b in index && Num(b) == num
  }

  /** The n items from an item down, newest first. */
  function Trail(i: Item, n: nat): (r: seq<Item>)
    requires 0 < n <= Depth(i) + 1
    ensures |r| == n && forall k :: 0 <= k < n ==> r[k] == Up(i, k)
  {
    seq(n, k requires 0 <= k < n => Up(i, k))
  }

  function Ids(items: seq<Item>): (r: seq<BlockId>)
    ensures |r| == |items| && forall k :: 0 <= k < |r| ==> r[k] == Id(items[k])
  {
    seq(|items|, k requires 0 <= k < |items| => Id(items[k]))
  }

  /** The blocks of a trail are those of the chain. */
  lemma {:induction false} TrailIds(i: Item, n: nat)
    requires 0 < n <= Depth(i) + 1
    ensures n <= Num(Id(i)) && Ids(Trail(i, n)) == Descend(Id(i), n)
  {
    hide Back, Num;
  }

  class ForkDatabase {
    var items: map<BlockId, Item>  // _index
    var at: Option<Item>           // _head
    var held: set<Item>            // the items a caller holds on to
    var maxSize: nat               // _max_size
    var serial: nat                // how many items have been made

    /** The block of the head, with Zero for an empty database. */
    function Head(): (id: BlockId)
      reads this
      ensures id == Zero <==> at.None?
    {
      if at.Some? then Id(at.value) else Zero
    }

    /** The items a weak pointer can still be followed to. */
    function Live(): (r: set<Item>)
      reads this
    {
      items.Values + held + if at.Some? then {at.value} else {}
    }

    ghost predicate Valid()
      reads this
    {
      && (forall k :: k in items ==> Id(items[k]) == k)
      && (forall i :: i in Live() ==> i.serial < serial)
    }

    /** The item a block gets: it points to its predecessor's if that is known. */
    ghost function NewItem(b: BlockId): (i: Item)
      requires b.Block?
      reads this
      ensures Valid() ==> Id(i) == b
    {
      if at.Some? && b.previous != Zero && b.previous in items then Linked(items[b.previous], b.content, serial)
      else Loose(b.previous, b.content, serial)
    }

    /** The index with the block: a known one keeps its item. */
    ghost function NextItems(b: BlockId): map<BlockId, Item>
      requires b.Block?
      reads this
    {
      if b in items then items else items[b := NewItem(b)]
    }

    /** The head with the block: only a higher one becomes it. */
    ghost function NextAt(b: BlockId): Item
      requires b.Block?
      reads this
    {
      if at.None? || Num(b) > Num(Head()) then NewItem(b) else at.value
    }

    /** A block is taken if it is not too old and links to a known one. */
    ghost predicate Takes(b: BlockId)
      requires b.Block?
      reads this
    {
      || at.None?
      || (Num(b) > Num(Head()) - maxSize && (b.previous == Zero || b.previous in items))
    }

    constructor ()
      ensures Valid() && items == map[] && held == {} && at == None && maxSize == 1024
    {
      items, held, at, maxSize, serial := map[], {}, None, 1024, 0;
    }

    /**
     Takes a block that links to a known one.  Its item is new; it goes into the index unless the block is there
     already, and becomes the head only if it is higher.  No item that could not be followed to comes back.
     */
    method PushBlock(b: BlockId) returns (ok: bool)
      requires Valid() && b.Block?
      modifies this`items, this`at, this`serial
      ensures Valid() && old(serial) <= serial
      ensures ok <==> old(Takes(b))
      ensures items == if ok then old(NextItems(b)) else old(items)
      ensures at == if ok then Some(old(NextAt(b))) else old(at)
      ensures Live() <= old(Live()) + {old(NewItem(b))} && old(NewItem(b)) !in old(Live())
    {
      if at.Some? && Num(b) <= (if Num(Head()) > maxSize then Num(Head()) - maxSize else 0) {
        return false;  // too old
      }
      var item := Loose(b.previous, b.content, serial);
      if at.Some? && b.previous != Zero {
        if b.previous !in items {
          return false;  // does not link to a known chain
        }
        item := Linked(items[b.previous], b.content, serial);
      }
      serial := serial + 1;
      if b !in items {
        items := items[b := item];
      }
      if at.None? || Num(b) > Num(Head()) {
        at := Some(item);
      }
      ok := true;
    }

    /** Moves the head to its predecessor, if that is still there. */
    method PopBlock() returns (ok: bool)
      requires Valid()
      modifies this`at
      ensures Valid() && Live() <= old(Live())
      ensures ok <==> old(at).Some? && old(at).value.Linked? && old(at).value.prev in old(Live())
      ensures at == if ok then Some(old(at).value.prev) else old(at)
    {
      ok := at.Some? && at.value.Linked? && at.value.prev in Live();
      if ok {
        at := Some(at.value.prev);
      }
    }

    method Remove(id: BlockId)
      requires Valid()
      modifies this`items
      ensures Valid() && items == old(items) - {id}
    {
      items := items - {id};
    }

    /** A caller keeps some items. */
    method Hold(some: set<Item>)
      requires Valid() && some <= Live()
      modifies this`held
      ensures Valid() && held == old(held) + some && Live() == old(Live())
    {
      held := held + some;
    }

    /** The caller is done: what only it held can no longer be followed to. */
    method Release()
      requires Valid()
      modifies this`held
      ensures Valid() && held == {}
    {
      held := {};
    }

    method SetHead(i: Item)
      requires Valid() && i in held
      modifies this`at
      ensures Valid() && at == Some(i)
    {
      at := Some(i);
    }

    /** Erases every block further than `size` below the head. */
    method SetMaxSize(size: nat)
      requires Valid()
      modifies this`items, this`maxSize
      ensures Valid() && maxSize == size
      ensures items == if at.None? then old(items)
        else map k | k in old(items) && Num(k) >= Num(Head()) - size :: old(items)[k]
    {
      maxSize := size;
      if at.None? {
        return;
      }
      var low := if Num(Head()) > size then Num(Head()) - size else 0;
      var erased := set k | k in items && Num(k) < low;
      while erased != {}
        invariant Valid() && maxSize == size
        invariant forall k :: k in erased ==> k in items && Num(k) < low
        invariant forall k :: k in items <==> k in old(items) && (Num(k) >= low || k in erased)
        invariant forall k :: k in items ==> items[k] == old(items)[k]
        decreases erased
      {
        var k :| k in erased;
        Remove(k);
        erased := erased - {k};
      }
    }

    /** Follows the pointers from an item down to the given height. */
    method DescendTo(i: Item, height: nat) returns (ok: bool, n: nat)
      requires Valid()
      ensures n <= Num(Id(i)) && (ok <==> CanFollow(Live(), i, n))
      ensures ok ==> n == if Num(Id(i)) > height then Num(Id(i)) - height else 0
      ensures !ok ==> n <= Num(Id(i)) - height
    {
      hide Up, Back, Num;
      n := 0;
      var x := i;
      FollowNothing(Live(), i);
      while Num(Id(x)) > height
        invariant n <= Depth(i) && x == Up(i, n) && (Num(Id(x)) >= height || n == 0)
        invariant CanFollow(Live(), i, n)
        decreases Num(Id(x))
      {
        FollowStep(Live(), i, n);
        n := n + 1;
        if x.Loose? || x.prev !in Live() {
          return false, n;
        }
        x := x.prev;
      }
      ok := true;
    }

    /** The branches that lead from two known blocks back to where they part, newest item first. */
    method FetchBranchFrom(first: BlockId, second: BlockId) returns (ok: bool, left: seq<Item>, right: seq<Item>)
      requires Valid()
      ensures ok ==> first in items && second in items && left != [] && right != []
      ensures ok ==> Parts(first, second, |left|, |right|)
      ensures ok ==> CanFollow(Live(), items[first], |left| - 1) && CanFollow(Live(), items[second], |right| - 1)
      ensures ok ==> left == Trail(items[first], |left|) && right == Trail(items[second], |right|)
      ensures !ok && first in items && second in items ==>
        forall n: nat, m: nat :: Parts(first, second, n, m) ==>
          !CanFollow(Live(), items[first], n - 1) || !CanFollow(Live(), items[second], m - 1)
    {
      hide Up, Back, Num, CanFollow;
      left, right := [], [];
      if first !in items || second !in items {
        return false, left, right;
      }
      var f, s, n, m := items[first], items[second], 0, 0;
      ok, n := DescendTo(f, Num(second));
      if !ok {
        PartsAtLeast(first, second, n + 1);
        ShortFollow(Live(), f, n);
        return;
      }
      ok, m := DescendTo(s, Num(first) - n);
      if !ok {
        FollowNothing(Live(), s);
        PartsAtLeast(second, first, m + 1);
        ShortFollow(Live(), s, m);
        return;
      }
      ok, n, m := DescendTogether(f, s, n, m);
      if ok {
        FollowDepth(Live(), f, n - 1);
        FollowDepth(Live(), s, m - 1);
        left, right := Trail(f, n), Trail(s, m);
      }
    }

    /** Follows two chains from the same height until the predecessors agree. */
    method DescendTogether(first: Item, second: Item, n0: nat, m0: nat) returns (ok: bool, n: nat, m: nat)
      requires Valid() && Num(Id(first)) - n0 == Num(Id(second)) - m0
      requires n0 == 0 || m0 == 0
      requires CanFollow(Live(), first, n0) && CanFollow(Live(), second, m0)
      ensures ok ==> Parts(Id(first), Id(second), n, m)
      ensures ok ==> CanFollow(Live(), first, n - 1) && CanFollow(Live(), second, m - 1)
      ensures !ok ==>
        forall i: nat, j: nat :: Parts(Id(first), Id(second), i, j) ==>
          !CanFollow(Live(), first, i - 1) || !CanFollow(Live(), second, j - 1)
    {
      hide Back, Num, Parts, Apart, CanFollow, Up, Id, Depth, ForkDatabase.Valid, ForkDatabase.Live;
      ghost var live := Live();
      n, m := n0, m0;
      FollowDepth(live, first, n);
      FollowDepth(live, second, m);
      var f, s := Up(first, n), Up(second, m);
      ApartAtFirst(Id(first), Id(second), n, m);
      BelowUp(first, n);
      BelowUp(second, m);
      while Id(f).previous != Id(s).previous
        invariant n <= Depth(first) && m <= Depth(second) && Num(Id(first)) - n == Num(Id(second)) - m
        invariant f == Up(first, n) && Id(f).previous == Back(Id(first), n + 1)
        invariant s == Up(second, m) && Id(s).previous == Back(Id(second), m + 1)
        invariant Apart(Id(first), Id(second), n, m)
        invariant CanFollow(live, first, n) && CanFollow(live, second, m)
        decreases Depth(first) - n
      {
        ApartStep(Id(first), Id(second), n, m);
        NotAtBottom(Id(first), Id(second), n + 1, m + 1);
        FollowStep(live, first, n);
        FollowStep(live, second, m);
        n, m := n + 1, m + 1;
        if f.Loose? || f.prev !in Live() || s.Loose? || s.prev !in Live() {
          CannotFollow(live, first, second, n, m);
          return false, n, m;
        }
        f, s := f.prev, s.prev;
        BelowUp(first, n);
        BelowUp(second, m);
      }
      PartsHere(Id(first), Id(second), n, m);
      ok, n, m := true, n + 1, m + 1;
    }

    /** The block of the given number that the pointers from the head lead to, or Zero. */
    ghost function Walked(num: nat): BlockId
      requires at.Some?
      reads this
    {
      if num <= Num(Head()) && CanFollow(Live(), at.value, Num(Head()) - num) then Back(Head(), Num(Head()) - num)
      else Zero
    }

    method WalkMainBranchTo(num: nat) returns (r: BlockId)
      requires Valid() && at.Some?
      ensures r == Walked(num)
    {
      if num > Num(Head()) {
        return Zero;
      }
      var ok, n := DescendTo(at.value, num);
      r := if ok then Id(Up(at.value, n)) else Zero;
    }

    /** The only block of that number, whichever branch it is on; if there are several, the one on the head's branch. */
    method FetchOnMainBranch(num: nat) returns (r: BlockId)
      requires Valid() && at.Some?
      ensures |AtNumber(items.Keys, num)| == 0 ==> r == Zero
      ensures |AtNumber(items.Keys, num)| == 1 ==> r in AtNumber(items.Keys, num)
      ensures |AtNumber(items.Keys, num)| > 1 ==> r == Walked(num)
      ensures Walked(num) in items ==> r == Walked(num)
    {
      var found := AtNumber(items.Keys, num);
      if |found| == 1 {
        r :| r in found;
        if Walked(num) in items {
          assert |found - {r}| == 0;
          assert Walked(num) !in found - {r};
        }
        return;
      }
      assert Walked(num) in items ==> Walked(num) in found;
      if |found| == 0 {
        return Zero;
      }
      r := WalkMainBranchTo(num);
    }
  }

  /** What lies below an item of a trail. */
  lemma {:induction false} BelowUp(i: Item, n: nat)
    requires n <= Depth(i)
    ensures n < Num(Id(i)) && Id(Up(i, n)).previous == Back(Id(i), n + 1)
  {
    BackStep(Id(i), n);
  }

  lemma {:induction false} FollowNothing(live: set<Item>, i: Item)
    ensures CanFollow(live, i, 0)
  {
  }

  lemma {:induction false} FollowDepth(live: set<Item>, i: Item, n: nat)
    requires CanFollow(live, i, n)
    ensures n <= Depth(i)
  {
  }

  /** What cannot be followed so far cannot be followed further. */
  lemma {:induction false} ShortFollow(live: set<Item>, i: Item, n: nat)
    requires !CanFollow(live, i, n)
    ensures forall k: nat :: k >= n ==> !CanFollow(live, i, k)
  {
  }

  /**
   Two blocks, the first of which is removed; both are then pushed again.  The second keeps its old item, which no
   longer leads to the first, so its branch cannot be fetched although every block of it is known.
   */
  method PointerStaysLost(x: nat, y: nat, z: nat) returns (known: bool, ok: bool)
    requires x != z
    ensures known && !ok
  {
    hide Depth, CanFollow, Up, Num, Id, ForkDatabase.Valid;
    var p, q := Block(Zero, x), Block(Zero, z);
    var r, c := Block(p, y), Block(q, y);
    Numbers(p, r);
    Numbers(q, c);
    var db, item := RemovedBelow(p, r);
    PushLow(db, p, item.prev);
    PushLow(db, r, item.prev);
    PushLow(db, q, item.prev);
    PushLow(db, c, item.prev);
    known := p in db.items && r in db.items && q in db.items && c in db.items;
    var left, right;
    ok, left, right := db.FetchBranchFrom(r, c);
    if ok {
      PartApart(p, r, q, c, |left|, |right|);
      LostPointer(db.Live(), item);
      assert false;
    }
  }

  /** A block on top of one that has been removed. */
  method RemovedBelow(p: BlockId, r: BlockId) returns (db: ForkDatabase, item: Item)
    requires p.Block? && p.previous == Zero && r.Block? && r.previous == p && Num(p) == 1 && Num(r) == 2
    ensures fresh(db) && Low(db) && r in db.items && db.items[r] == item
    ensures item.Linked? && item.prev !in db.Live() && item.prev.serial < db.serial
  {
    hide Num;
    db := new ForkDatabase();
    var _ := db.PushBlock(p);
    var _ := db.PushBlock(r);
    item := db.items[r];
    db.Remove(p);
  }

  /** A fork database that holds nothing above number 2. */
  ghost predicate Low(db: ForkDatabase)
    reads db
  {
    db.Valid() && db.at.Some? && Num(db.Head()) <= 2 && db.maxSize == 1024
  }

  /** An item that is gone stays gone, and a known block keeps its item. */
  method PushLow(db: ForkDatabase, b: BlockId, ghost lost: Item)
    requires Low(db) && b.Block? && 0 < Num(b) <= 2 && (b.previous == Zero || b.previous in db.items)
    requires lost !in db.Live() && lost.serial < db.serial
    modifies db
    ensures Low(db) && b in db.items && lost !in db.Live() && lost.serial < db.serial
    ensures forall k :: k in old(db.items) ==> k in db.items && db.items[k] == old(db.items[k])
  {
    hide Num, Id, ForkDatabase.Valid, ForkDatabase.Live;
    var _ := db.PushBlock(b);
  }

  lemma {:induction false} Numbers(p: BlockId, r: BlockId)
    requires p.Block? && p.previous == Zero && r.Block? && r.previous == p
    ensures Num(p) == 1 && Num(r) == 2
  {
  }

  lemma {:induction false} PartApart(p: BlockId, r: BlockId, q: BlockId, c: BlockId, n: nat, m: nat)
    requires p.Block? && p.previous == Zero && r.Block? && r.previous == p
    requires q.Block? && q.previous == Zero && c.Block? && c.previous == q
    requires p != q && Parts(r, c, n, m)
    ensures n == 2
  {
  }

  lemma {:induction false} LostPointer(live: set<Item>, i: Item)
    requires i.Linked? && i.prev !in live
    ensures !CanFollow(live, i, 1)
  {
    FollowNothing(live, i);
    FollowStep(live, i, 0);
  }
}
