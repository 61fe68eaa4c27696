/**
 How blocks reach the block log: fetched by number from the fork database, from wherever its head happens to be.

 While a fork switch is under way that head has been lowered, and it never is the chain's own head; so a fetch
 can fail, and what it finds has to be shown to lie on the chain.
 */
module ForkLogs {
  import opened Blocks
  import opened ForkDatabases

  /** The fork database as the blocks that are applied one after the other find it. */
  datatype View = View(items: map<BlockId, Item>, held: set<Item>, at: Item)
  {
    const index: set<BlockId> := items.Keys
    const head: BlockId := Id(at)
  }

  /** What is left of the index once everything below `floor` has been forgotten. */
  ghost function Pruned(index: set<BlockId>, floor: nat): (r: set<BlockId>)
  {
    set b | b in index && Num(b) >= floor
  }

  ghost function Left(items: map<BlockId, Item>, floor: nat): (r: map<BlockId, Item>)
    ensures r.Keys == Pruned(items.Keys, floor)
  {
    map b | b in items && Num(b) >= floor :: items[b]
  }

  lemma {:induction false} LeftAll(items: map<BlockId, Item>)
    ensures Left(items, 0) == items && Pruned(items.Keys, 0) == items.Keys
  {
  }

  /** The items that can still be followed to. */
  ghost function Living(v: View, floor: nat): (r: set<Item>)
  {
    Left(v.items, floor).Values + v.held + {v.at}
  }

  /** The pointers from the head lead to the block of number n. */
  ghost predicate Leads(v: View, floor: nat, n: nat)
  {
    n <= Num(v.head) && CanFollow(Living(v, floor), v.at, Num(v.head) - n)
  }

  /**
   Block number n can be fetched: it has not been forgotten, and there is only one of that number or the head's
   branch still leads to one.  In particular it cannot be fetched if it lies above the head and has a rival.
   */
  ghost predicate CanLog(v: View, floor: nat, n: nat)
  {
    && n >= floor && AtNumber(v.index, n) != {}
    && (|AtNumber(v.index, n)| == 1 || Leads(v, floor, n))
  }

  /** How long the log is after an attempt to write it up to `level`. */
  ghost function LogTo(v: View, floor: nat, logged: nat, level: nat): (r: nat)
    ensures logged <= r && (r <= level || r == logged)
    decreases level - logged
  {
    if logged < level && CanLog(v, floor, logged + 1) then LogTo(v, floor, logged + 1, level) else logged
  }

  lemma {:induction false} LogToStep(v: View, floor: nat, logged: nat, level: nat)
    requires logged < level
    ensures LogTo(v, floor, logged, level) ==
            if CanLog(v, floor, logged + 1) then LogTo(v, floor, logged + 1, level) else logged
  {
  }

  lemma {:induction false} LogToEnd(v: View, floor: nat, logged: nat, level: nat)
    requires logged >= level
    ensures LogTo(v, floor, logged, level) == logged
  {
  }

  /** Writing fails if and only if some number that is needed cannot be fetched. */
  lemma {:induction false} WriteFails(v: View, floor: nat, logged: nat, level: nat)
    ensures LogTo(v, floor, logged, level) < level <==> exists n: nat :: logged < n <= level && !CanLog(v, floor, n)
    decreases level - logged
  {
    if logged < level {
      if CanLog(v, floor, logged + 1) {
        WriteFails(v, floor, logged + 1, level);
      } else {
        assert logged < logged + 1 <= level;
      }
    }
  }

  /** While nothing is forgotten and all pointers hold, some needed number lies above the head and has a rival. */
  lemma {:induction false} WriteFailsAbove(v: View, logged: nat, level: nat)
    requires forall n: nat :: logged < n <= level ==> AtNumber(v.index, n) != {}
    requires forall n: nat :: logged < n <= level && n <= Num(v.head) ==> Leads(v, 0, n)
    ensures LogTo(v, 0, logged, level) < level <==>
            exists n: nat :: logged < n <= level && n > Num(v.head) && |AtNumber(v.index, n)| > 1
  {
    WriteFails(v, 0, logged, level);
    forall n: nat | logged < n <= level
      ensures !CanLog(v, 0, n) <==> n > Num(v.head) && |AtNumber(v.index, n)| > 1
    {
    }
  }

  /** What a fetch of number n finds: the only one, or the one the head's branch leads to. */
  ghost predicate Fetched(v: View, n: nat, x: BlockId)
  {
    || AtNumber(v.index, n) == {x}
    || (|AtNumber(v.index, n)| > 1 && n <= Num(v.head) && x == Back(v.head, Num(v.head) - n))
  }

  /** The log has grown by fetched blocks. */
  ghost predicate Appended(v: View, before: seq<BlockId>, after: seq<BlockId>)
  {
    before <= after && forall i :: |before| <= i < |after| ==> Fetched(v, i + 1, after[i])
  }

  lemma {:induction false} AppendedTwice(v: View, a: seq<BlockId>, b: seq<BlockId>, c: seq<BlockId>)
    requires Appended(v, a, b) && Appended(v, b, c)
    ensures Appended(v, a, c)
  {
    hide Fetched;
    forall i | |a| <= i < |c| ensures Fetched(v, i + 1, c[i]) {
      if i < |b| {
        assert c[i] == b[i];
      }
    }
  }

  lemma {:induction false} AppendedNothing(v: View, log: seq<BlockId>)
    ensures Appended(v, log, log)
  {
  }

  lemma {:induction false} AppendedOne(v: View, before: seq<BlockId>, log: seq<BlockId>, x: BlockId)
    requires Appended(v, before, log) && Fetched(v, |log| + 1, x)
    ensures Appended(v, before, log + [x])
  {
    hide Fetched;
  }

  /** The block of number n on the chain that ends in c. */
  ghost function On(c: BlockId, n: nat): (r: BlockId)
    requires n <= Num(c)
    ensures Num(r) == n
  {
    Back(c, Num(c) - n)
  }

  /** Every block of the chain above the log is known, or it and everything as low as it has been forgotten. */
  ghost predicate Tracked(index: set<BlockId>, c: BlockId, logged: nat)
  {
    forall n: nat :: logged < n <= Num(c) ==> On(c, n) in index || forall x :: x in index ==> Num(x) > n
  }

  /** Where several blocks have a number, the head's branch leads to the one on the chain. */
  ghost predicate Agrees(v: View, c: BlockId, low: nat, high: nat)
    requires high <= Num(c)
  {
    forall n: nat :: low < n <= high && n <= Num(v.head) && |AtNumber(v.index, n)| > 1 ==> On(v.head, n) == On(c, n)
  }

  /** A log that is written from a tracked chain stays the start of that chain. */
  lemma {:induction false} LogRight(v: View, c: BlockId, before: seq<BlockId>, after: seq<BlockId>)
    requires |after| <= Num(c) && |before| <= Num(c) && before == Chain(c, |before|) && Appended(v, before, after)
    requires Tracked(v.index, c, |before|) && Agrees(v, c, |before|, |after|)
    ensures after == Chain(c, |after|)
  {
    hide Back, Num;
    var chain := Chain(c, |after|);
    forall i | 0 <= i < |after| ensures after[i] == chain[i] {
      assert chain[i] == On(c, i + 1);
      if i < |before| {
        assert after[i] == before[i];
      } else {
        FetchRight(v, c, |before|, |after|, i + 1, after[i]);
      }
    }
  }

  lemma {:induction false} FetchRight(v: View, c: BlockId, low: nat, high: nat, n: nat, x: BlockId)
    requires low < n <= high <= Num(c) && Fetched(v, n, x) && Tracked(v.index, c, low) && Agrees(v, c, low, high)
    ensures x == On(c, n)
  {
    hide Back, Num;
    if AtNumber(v.index, n) == {x} {
      assert x in AtNumber(v.index, n);
      assert On(c, n) in v.index ==> On(c, n) in AtNumber(v.index, n);
    }
  }

  /** Blocks have gone: those named, and such as are lower than every block left. */
  ghost predicate Shrunk(before: set<BlockId>, after: set<BlockId>, named: set<BlockId>)
  {
    && after <= before
    && forall x :: x in before && x !in after ==> x in named || forall y :: y in after ==> Num(y) > Num(x)
  }

  lemma {:induction false} ShrunkTwice(
    a: set<BlockId>, b: set<BlockId>, c: set<BlockId>, m: set<BlockId>, n: set<BlockId>)
    requires Shrunk(a, b, m) && Shrunk(b, c, n)
    ensures Shrunk(a, c, m + n)
  {
  }

  lemma {:induction false} PrunedShrinks(index: set<BlockId>, f: nat, g: nat)
    requires f <= g
    ensures Shrunk(Pruned(index, f), Pruned(index, g), {})
  {
  }

  lemma {:induction false} TrackedShrunk(
    before: set<BlockId>, after: set<BlockId>, named: set<BlockId>, c: BlockId, logged: nat)
    requires Tracked(before, c, logged) && Shrunk(before, after, named)
    requires forall n: nat :: logged < n <= Num(c) ==> On(c, n) !in named
    ensures Tracked(after, c, logged)
  {
    hide On;
  }

  lemma {:induction false} TrackedLess(index: set<BlockId>, c: BlockId, logged: nat, logged': nat)
    requires Tracked(index, c, logged) && logged <= logged'
    ensures Tracked(index, c, logged')
  {
    hide On;
  }

  /** Numbers of an ancestor's chain are those of the chain. */
  lemma {:induction false} OnAncestor(a: BlockId, c: BlockId, n: nat)
    requires IsAncestor(a, c) && n <= Num(a)
    ensures On(a, n) == On(c, n)
  {
    hide Num, Back;
    BackBack(c, Num(c) - Num(a), Num(a) - n);
  }

  lemma {:induction false} TrackedAncestor(index: set<BlockId>, a: BlockId, c: BlockId, logged: nat)
    requires Tracked(index, c, logged) && IsAncestor(a, c)
    ensures Tracked(index, a, logged)
  {
    hide On;
    forall n: nat | logged < n <= Num(a) ensures On(a, n) in index || forall x :: x in index ==> Num(x) > n {
      OnAncestor(a, c, n);
    }
  }

  /** The log of a chain is the log of every ancestor that is not below it. */
  lemma {:induction false} ChainOfAncestor(a: BlockId, c: BlockId, n: nat)
    requires IsAncestor(a, c) && n <= Num(a)
    ensures Chain(a, n) == Chain(c, n)
  {
    assert Back(a, 0) == a;
    SwitchKeepsChain(a, c, a, n);
  }

  /**
   A new block keeps a chain tracked unless it is a first block and
   some of the chain above the log has been forgotten.
   */
  lemma {:induction false} TrackedPush(index: set<BlockId>, b: BlockId, c: BlockId, logged: nat)
    requires Tracked(index, c, logged) && b.Block? && (b.previous in index || b.previous == Zero)
    requires b.previous == Zero ==> forall n: nat :: logged < n <= Num(c) ==> On(c, n) in index + {b}
    ensures Tracked(index + {b}, c, logged)
  {
    hide On;
    var index' := index + {b};
    forall n: nat | logged < n <= Num(c) ensures On(c, n) in index' || forall x :: x in index' ==> Num(x) > n {
    }
  }

  // ---------- Across a switch ----------

  /** Where a switch stands: n blocks of the new branch, m of the old one, and the log not above where they part. */
  ghost predicate Switching(v: View, h: BlockId, tip: BlockId, n: nat, m: nat, logged: nat)
  {
    && Parts(tip, h, n, m) && Num(tip) > Num(h) && v.head == Back(tip, m)
    && logged <= Num(h) - m
    && Tracked(v.index, h, logged)
    && forall i :: 0 <= i < n ==> Back(tip, i) in v.index
  }

  lemma {:induction false} SharedBelow(h: BlockId, tip: BlockId, n: nat, m: nat, k: nat)
    requires Parts(tip, h, n, m) && k <= Num(h) - m
    ensures On(tip, k) == On(h, k) && Chain(tip, k) == Chain(h, k)
  {
    BackIsAncestor(tip, n);
    BackIsAncestor(h, m);
    OnAncestor(Back(tip, n), tip, k);
    OnAncestor(Back(h, m), h, k);
    SwitchKeepsChain(tip, h, Back(tip, n), k);
  }

  lemma {:induction false} BackIsAncestor(c: BlockId, k: nat)
    requires k <= Num(c)
    ensures IsAncestor(Back(c, k), c)
  {
  }

  lemma {:induction false} NewBranchTracked(v: View, h: BlockId, tip: BlockId, n: nat, m: nat, logged: nat)
    requires Switching(v, h, tip, n, m, logged)
    ensures Tracked(v.index, tip, logged)
  {
    forall k: nat | logged < k <= Num(tip) ensures On(tip, k) in v.index || forall x :: x in v.index ==> Num(x) > k {
      if k <= Num(h) - m {
        SharedBelow(h, tip, n, m, k);
      } else {
        assert Num(tip) - k < n;
      }
    }
  }

  /** Whatever is logged while the new branch is tried is the start of the new branch's chain. */
  lemma {:induction false} SwitchLogs(
    v: View, h: BlockId, tip: BlockId, n: nat, m: nat, before: seq<BlockId>, after: seq<BlockId>)
    requires Switching(v, h, tip, n, m, |before|) && before == Chain(h, |before|)
    requires Appended(v, before, after) && |after| <= Num(tip)
    ensures after == Chain(tip, |after|)
  {
    hide Parts, Back, Num, Tracked, Appended;
    SharedBelow(h, tip, n, m, |before|);
    NewBranchTracked(v, h, tip, n, m, |before|);
    PartsNumbers(tip, h, n, m);
    BackIsAncestor(tip, m);
    forall k: nat | k <= Num(v.head) && k <= |after| ensures On(v.head, k) == On(tip, k) {
      OnAncestor(v.head, tip, k);
    }
    LogRight(v, tip, before, after);
  }

  lemma {:induction false} PartsNumbers(first: BlockId, second: BlockId, n: nat, m: nat)
    requires Parts(first, second, n, m) && Num(first) > Num(second)
    ensures 0 < m < n <= Num(first) && m <= Num(second) && Num(first) - n == Num(second) - m
  {
  }

  /** The blocks of the new branch that were never applied. */
  ghost function Untried(tip: BlockId, k: nat): (r: set<BlockId>)
    requires k <= Num(tip)
    ensures forall b :: b in r ==> Num(tip) - k < Num(b) <= Num(tip) && b == On(tip, Num(b))
  {
    var blocks := Descend(tip, k);
    var r := set b | b in blocks;
    assert forall b :: b in r ==> exists i :: 0 <= i < k && b == blocks[i];
    r
  }

  /** On the new head, or on one of its ancestors that was applied. */
  lemma {:induction false} SwitchedLog(
    v: View, h: BlockId, tip: BlockId, n: nat, m: nat, done: nat, c: BlockId, before: seq<BlockId>,
    after: seq<BlockId>, index: set<BlockId>)
    requires Switching(v, h, tip, n, m, |before|) && before == Chain(h, |before|) && Appended(v, before, after)
    requires done <= n <= Num(tip) && IsAncestor(c, Back(tip, n - done)) && |after| <= Num(c)
    requires Shrunk(v.index, index, Untried(tip, n - done))
    ensures after == Chain(c, |after|) && Tracked(index, c, |after|)
  {
    hide Parts, Switching, Back, Num, Tracked, Appended, Shrunk, On, Untried, IsAncestor;
    AncestorOfBack(c, tip, n - done);
    SwitchLogs(v, h, tip, n, m, before, after);
    ChainOfAncestor(c, tip, |after|);
    NewBranchTracked(v, h, tip, n, m, |before|);
    TrackedAncestor(v.index, c, tip, |before|);
    TrackedShrunk(v.index, index, Untried(tip, n - done), c, |before|);
    LogGrew(v, before, after);
    TrackedLess(index, c, |before|, |after|);
  }

  lemma {:induction false} LogGrew(v: View, before: seq<BlockId>, after: seq<BlockId>)
    requires Appended(v, before, after)
    ensures |before| <= |after|
  {
  }

  lemma {:induction false} AncestorOfBack(c: BlockId, tip: BlockId, k: nat)
    requires k <= Num(tip) && IsAncestor(c, Back(tip, k))
    ensures IsAncestor(c, tip) && Num(c) <= Num(tip) - k
  {
    BackBack(tip, k, Num(tip) - k - Num(c));
  }

  /** Back on the old head: the log stayed within what the branches share, and no block of the old one was removed. */
  lemma {:induction false} RestoredLog(
    v: View, h: BlockId, tip: BlockId, n: nat, m: nat, done: nat, before: seq<BlockId>, after: seq<BlockId>,
    index: set<BlockId>)
    requires Switching(v, h, tip, n, m, |before|) && before == Chain(h, |before|) && Appended(v, before, after)
    requires done <= n <= Num(tip) && |after| <= Num(h) - m && (h == Back(tip, n - 1) ==> done > 0)
    requires Shrunk(v.index, index, Untried(tip, n - done))
    ensures after == Chain(h, |after|) && Tracked(index, h, |after|)
  {
    hide Back, Num, Tracked, Appended, Shrunk, On, Untried;
    SwitchLogs(v, h, tip, n, m, before, after);
    SharedBelow(h, tip, n, m, |after|);
    forall k: nat | |before| < k <= Num(h) ensures On(h, k) !in Untried(tip, n - done) {
      NotUntried(h, tip, n, m, done, k);
    }
    TrackedShrunk(v.index, index, Untried(tip, n - done), h, |before|);
    LogGrew(v, before, after);
    TrackedLess(index, h, |before|, |after|);
  }

  lemma {:induction false} NotUntried(h: BlockId, tip: BlockId, n: nat, m: nat, done: nat, k: nat)
    requires Parts(tip, h, n, m) && Num(tip) > Num(h) && done <= n && k <= Num(h)
    requires h == Back(tip, n - 1) ==> done > 0
    ensures On(h, k) !in Untried(tip, n - done)
  {
    hide Num, Back, Untried, IsAncestor, Apart;
    var x := On(h, k);
    if x in Untried(tip, n - done) {
      BackIsAncestor(tip, Num(tip) - k);
      BackIsAncestor(h, Num(h) - k);
      BranchPoint(tip, h, n, m);
      CoincidingTop(h, tip, n, m);
    }
  }

  /** If the last blocks of the two branches are the same, it is the old head. */
  lemma {:induction false} CoincidingTop(h: BlockId, tip: BlockId, n: nat, m: nat)
    requires Parts(tip, h, n, m) && Num(tip) > Num(h) && Back(tip, n - 1) == Back(h, m - 1)
    ensures m == 1 && h == Back(tip, n - 1)
  {
  }

  /** Where a switch can end: on the new branch as far as it was applied, or below that; or back on the old head. */
  ghost predicate EndsAt(h: BlockId, tip: BlockId, n: nat, m: nat, done: nat, c: BlockId, logged: nat)
    requires done <= n <= Num(tip) && 0 < n
  {
    || IsAncestor(c, Back(tip, n - done))
    || (c == h && logged <= Num(h) - m && (h == Back(tip, n - 1) ==> done > 0))
  }

  /** Wherever it ends, the log is the start of the chain there. */
  lemma {:induction false} LogConcludes(
    v: View, h: BlockId, tip: BlockId, n: nat, m: nat, done: nat, c: BlockId, before: seq<BlockId>,
    after: seq<BlockId>, index: set<BlockId>)
    requires Switching(v, h, tip, n, m, |before|) && before == Chain(h, |before|) && Appended(v, before, after)
    requires done <= n <= Num(tip) && 0 < n && EndsAt(h, tip, n, m, done, c, |after|) && |after| <= Num(c)
    requires Shrunk(v.index, index, Untried(tip, n - done))
    ensures after == Chain(c, |after|) && Tracked(index, c, |after|)
  {
    hide Parts, Switching, Back, Num, Tracked, Appended, Shrunk, Untried, Chain;
    if IsAncestor(c, Back(tip, n - done)) {
      SwitchedLog(v, h, tip, n, m, done, c, before, after, index);
    } else {
      RestoredLog(v, h, tip, n, m, done, before, after, index);
    }
  }

  // ---------- A first block where the first ones have been forgotten ----------

  /** The log is right, and every block above it is tracked but for a first block that is among the known ones. */
  ghost predicate Spoils(index: set<BlockId>, head: BlockId, log: seq<BlockId>, b: BlockId)
  {
    && b.Block? && b.previous == Zero && b in index
    && |log| <= Num(head) && log == Chain(head, |log|) && Tracked(index - {b}, head, |log|)
    && exists n: nat :: Missing(index, head, |log|, n)
  }

  /** Block n of a chain is still to be logged and is not known. */
  ghost predicate Missing(index: set<BlockId>, head: BlockId, logged: nat, n: nat)
  {
    logged < n <= Num(head) && On(head, n) !in index
  }

  /** Nothing but the first block is as low as the missing one. */
  lemma {:induction false} OnlyForeign(index: set<BlockId>, h: BlockId, log: seq<BlockId>, b: BlockId, n: nat)
    requires Spoils(index, h, log, b) && Missing(index, h, |log|, n)
    ensures Num(b) == 1 && forall x :: x in index && x != b ==> Num(x) > n
    ensures AtNumber(index, 1) == {b} && forall k: nat :: 1 < k <= n ==> AtNumber(index, k) == {}
    ensures b == On(h, 1) ==> n > 1
  {
    hide On, Back;
    assert On(h, n) !in index - {b};
    forall x | x in index && x != b ensures Num(x) > n {
      assert x in index - {b};
    }
  }

  /** What is logged from such blocks can only be the first one, and no more if that one is right. */
  lemma {:induction false} LogsForeign(
    v: View, h: BlockId, before: seq<BlockId>, after: seq<BlockId>, b: BlockId, n: nat)
    requires Spoils(v.index, h, before, b) && Missing(v.index, h, |before|, n) && Appended(v, before, after)
    ensures after != before ==> before == [] && after[0] == b && (b == On(h, 1) ==> |after| == 1)
  {
    hide On, Back, Tracked, Chain;
    OnlyForeign(v.index, h, before, b, n);
    if after != before {
      var k := |before| + 1;
      assert Fetched(v, k, after[k - 1]);
      assert k == 1;
      assert after[0] in AtNumber(v.index, 1);
      assert |after| > 1 ==> Fetched(v, 2, after[1]);
    }
  }

  /** The log and the blocks still to be logged are right again: the first block is gone, or nothing is left to log. */
  ghost predicate Mended(
    h: BlockId, before: seq<BlockId>, index: set<BlockId>, c: BlockId, after: seq<BlockId>, b: BlockId)
  {
    && (after == before || (h != Zero && b == On(h, 1)))
    && (b !in index || Num(c) == |after| || c == b)
  }

  /** Such a block leaves the log right exactly if it is mended again. */
  lemma {:induction false} ForeignTracked(
    index: set<BlockId>, h: BlockId, before: seq<BlockId>, b: BlockId, n: nat, index': set<BlockId>, c: BlockId,
    after: seq<BlockId>)
    requires Spoils(index, h, before, b) && Missing(index, h, |before|, n)
    requires index' <= index && |before| <= |after| <= Num(c)
    requires forall k: nat :: k <= n && k <= Num(c) ==> On(c, k) == On(h, k)
    requires after != before ==> before == [] && after[0] == b && (b == On(h, 1) ==> |after| == 1)
    requires b !in index' ==> Tracked(index', c, |before|)
    ensures after == Chain(c, |after|) && Tracked(index', c, |after|) <==> Mended(h, before, index', c, after, b)
  {
    hide On, Back, Num;
    OnlyForeign(index, h, before, b, n);
    ChainOns(h, |before|);
    ChainOns(c, |after|);
    if after == before || b == On(h, 1) {
      assert after == Chain(c, |after|);
      if b !in index' {
        TrackedLess(index', c, |before|, |after|);
      } else if Num(c) > |after| && c != b {
        ForeignUntracked(index, index', h, c, b, n, |before|, |after|);
      } else if c == b {
        OwnNumber(c);
      }
    } else {
      assert Chain(c, |after|)[0] == On(h, 1) != b;
    }
  }

  lemma {:induction false} OwnNumber(c: BlockId)
    ensures On(c, Num(c)) == c
  {
  }

  lemma {:induction false} ChainOns(c: BlockId, n: nat)
    requires n <= Num(c)
    ensures |Chain(c, n)| == n && forall i :: 0 <= i < n ==> Chain(c, n)[i] == On(c, i + 1)
  {
  }

  lemma {:induction false} ForeignUntracked(
    index: set<BlockId>, index': set<BlockId>, h: BlockId, c: BlockId, b: BlockId, n: nat, logged: nat, logged': nat)
    requires logged <= logged' < Num(c) && logged < n && index' <= index && b in index' && Num(b) == 1 && c != b
    requires forall x :: x in index && x != b ==> Num(x) > n
    requires n <= Num(h) && forall k: nat :: k <= n && k <= Num(c) ==> On(c, k) == On(h, k)
    requires (logged' == logged || (logged == 0 && b == On(h, 1) && logged' == 1))
    requires b == On(h, 1) ==> n > 1
    ensures !Tracked(index', c, logged')
  {
    hide Back, Num;
    var k := logged' + 1;
    if k == 1 && b == On(h, 1) {
      OwnNumber(c);
      assert Num(c) > 1;
      assert On(c, 2) !in index';
    } else {
      assert On(c, k) !in index';
    }
  }

  /** How a switch ends for a log that a first block has spoiled. */
  lemma {:induction false} ForeignSwitch(
    v: View, h: BlockId, tip: BlockId, n: nat, m: nat, done: nat, c: BlockId, before: seq<BlockId>,
    after: seq<BlockId>, index': set<BlockId>, b: BlockId)
    requires Spoils(v.index, h, before, b) && Parts(tip, h, n, m) && Num(tip) > Num(h) && v.head == Back(tip, m)
    requires |before| <= Num(h) - m && (forall i :: 0 <= i < n ==> Back(tip, i) in v.index)
    requires forall i :: 0 <= i < m ==> Back(h, i) in v.index
    requires Appended(v, before, after) && |after| <= Num(c)
    requires done <= n <= Num(tip) && 0 < n && EndsAt(h, tip, n, m, done, c, |after|)
    requires Shrunk(v.index, index', Untried(tip, n - done))
    ensures after == Chain(c, |after|) && Tracked(index', c, |after|) <==> Mended(h, before, index', c, after, b)
  {
    hide Parts, Tracked, Chain, Untried, Back, Num, Mended;
    var k: nat :| Missing(v.index, h, |before|, k);
    PartsNumbers(tip, h, n, m);
    OnlyForeign(v.index, h, before, b, k);
    LogGrew(v, before, after);
    LogsForeign(v, h, before, after, b, k);
    assert k <= Num(h) - m;
    forall j: nat | j <= k && j <= Num(c) ensures On(c, j) == On(h, j) {
      EndShares(h, tip, n, m, done, c, |after|, j);
    }
    if b !in index' {
      var w := View(v.items - {b}, v.held, v.at);
      assert w.index == v.index - {b};
      AppendedNothing(w, before);
      hide On;
      LogConcludes(w, h, tip, n, m, done, c, before, before, index');
    }
    ForeignTracked(v.index, h, before, b, k, index', c, after);
  }

  /** Wherever a switch ends, what the branches share stays. */
  lemma {:induction false} EndShares(
    h: BlockId, tip: BlockId, n: nat, m: nat, done: nat, c: BlockId, logged: nat, j: nat)
    requires Parts(tip, h, n, m) && done <= n <= Num(tip) && 0 < n && EndsAt(h, tip, n, m, done, c, logged)
    requires j <= Num(h) - m && j <= Num(c)
    ensures j <= Num(h) && On(c, j) == On(h, j)
  {
    hide Parts, Back, Num, Chain;
    if c != h {
      AncestorOfBack(c, tip, n - done);
      OnAncestor(c, tip, j);
      SharedBelow(h, tip, n, m, j);
    }
  }

  /** The same if the chain only went back. */
  lemma {:induction false} ForeignPopped(index: set<BlockId>, h: BlockId, c: BlockId, log: seq<BlockId>, b: BlockId)
    requires Spoils(index, h, log, b) && IsAncestor(c, h) && |log| <= Num(c)
    ensures log == Chain(c, |log|) && Tracked(index, c, |log|) <==> Mended(h, log, index, c, log, b)
  {
    hide Tracked, Chain, Back, Num, Mended;
    var k: nat :| Missing(index, h, |log|, k);
    forall j: nat | j <= k && j <= Num(c) ensures On(c, j) == On(h, j) {
      OnAncestor(c, h, j);
    }
    ForeignTracked(index, h, log, b, k, index, c, log);
  }
}
