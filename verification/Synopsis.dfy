/**
 The summary of a chain that a node sends to ask for more: ids at ever shorter distances, the last known
 one included.  The chain gives the part it knows; the network code adds the ids that peer has already sent.
 */
module Synopses {
  import opened Common
  import opened Blocks
  import opened ForkDatabases

  /** The block numbers of a synopsis: each step skips half of what is left. */
  function Halve(low: nat, high: nat): (r: seq<nat>)
    decreases high + 1 - low
  {
    if low > high then [] else [low] + Halve(low + (high - low + 2) / 2, high)
  }

  function Log2(n: nat): nat
    requires n > 0
  {
    if n == 1 then 0 else Log2(n / 2) + 1
  }

  ghost predicate Increasing(s: seq<nat>)
  {
    forall i, j :: 0 <= i < j < |s| ==> s[i] < s[j]
  }

  /** A halving pass rises from low to exactly high in as many entries as the span has binary digits. */
  lemma {:induction false} HalveShape(low: nat, high: nat)
    requires low <= high
    ensures var s := Halve(low, high);
            && |s| == Log2(high - low + 1) + 1
            && s[0] == low && s[|s| - 1] == high && Increasing(s)
    decreases high - low
  {
    var next := low + (high - low + 2) / 2;
    if next <= high {
      HalveShape(next, high);
      assert high - next + 1 == (high - low + 1) / 2;
    }
  }

  /** The numbers of a halving pass up to `top`. */
  function UpTo(low: nat, high: nat, top: nat): (r: seq<nat>)
    ensures forall i :: 0 <= i < |r| ==> low <= r[i] <= high && r[i] <= top
    decreases high + 1 - low
  {
    if low > high || low > top then [] else [low] + UpTo(low + (high - low + 2) / 2, high, top)
  }

  /** The numbers of a halving pass from `first` on. */
  function From(low: nat, high: nat, first: nat): (r: seq<nat>)
    ensures forall i :: 0 <= i < |r| ==> low <= r[i] <= high && r[i] >= first
    decreases high + 1 - low
  {
    if low > high then [] else (if low >= first then [low] else []) + From(low + (high - low + 2) / 2, high, first)
  }

  lemma {:induction false} FromAll(low: nat, high: nat, first: nat)
    requires first <= low
    ensures From(low, high, first) == Halve(low, high)
    decreases high + 1 - low
  {
    if low <= high {
      FromAll(low + (high - low + 2) / 2, high, first);
    }
  }

  /** The two halves are one pass. */
  lemma {:induction false} HalvesJoin(low: nat, high: nat, top: nat)
    ensures UpTo(low, high, top) + From(low, high, top + 1) == Halve(low, high)
    decreases high + 1 - low
  {
    if low <= high {
      if low > top {
        FromAll(low, high, top + 1);
      } else {
        HalvesJoin(low + (high - low + 2) / 2, high, top);
      }
    }
  }

  /** The blocks of a chain, block 1 first, with the given numbers. */
  ghost function Pick(chain: seq<BlockId>, nums: seq<nat>): (r: seq<BlockId>)
    requires forall i :: 0 <= i < |nums| ==> 0 < nums[i] <= |chain|
    ensures |r| == |nums| && forall i :: 0 <= i < |nums| ==> r[i] == chain[nums[i] - 1]
  {
    seq(|nums|, i requires 0 <= i < |nums| => chain[nums[i] - 1])
  }

  /** The ids are numbered in sequence. */
  ghost predicate Consecutive(ids: seq<BlockId>)
  {
    forall i :: 0 <= i < |ids| ==> Num(ids[i]) == Num(ids[0]) + i
  }

  /** The chain as a peer knows it: ours up to the reference point, and the ids it has sent us after that. */
  ghost function Combined(reference: BlockId, items: seq<BlockId>): (r: seq<BlockId>)
  {
    Chain(reference, Num(reference)) + items
  }

  /** The lowest number in a synopsis of a chain of `high` blocks. */
  function Low(lib: nat, high: nat): (r: nat)
    ensures r > 0 && (high > 0 ==> r <= high)
  {
    var low := if high < lib then high else lib;
    if low == 0 then 1 else low
  }

  /** The whole synopsis: one halving pass over the combined chain. */
  ghost function Synopsis(lib: nat, reference: BlockId, items: seq<BlockId>): (r: seq<BlockId>)
  {
    var chain := Combined(reference, items);
    HalveRange(Low(lib, Num(reference)), |chain|);
    Pick(chain, Halve(Low(lib, Num(reference)), |chain|))
  }

  lemma {:induction false} HalveRange(low: nat, high: nat)
    requires low > 0
    ensures forall i :: 0 <= i < |Halve(low, high)| ==> 0 < Halve(low, high)[i] <= high
  {
    if low <= high {
      HalveShape(low, high);
      var s := Halve(low, high);
      forall i | 0 <= i < |s| ensures 0 < s[i] <= high {
        assert i > 0 ==> s[0] < s[i];
        assert i < |s| - 1 ==> s[i] < s[|s| - 1];
      }
    }
  }

  /** The reference point is on our chain, or on a fork that we know back to a block we can still undo to. */
  ghost predicate Usable(fork: ForkDatabase, head: BlockId, lib: nat, reference: BlockId)
    reads fork
  {
    || reference == Zero
    || (&& Num(reference) <= Num(head)
        && (IsAncestor(reference, head) || OnKnownFork(fork, head, lib, reference)))
  }

  ghost predicate OnKnownFork(fork: ForkDatabase, head: BlockId, lib: nat, reference: BlockId)
    reads fork
  {
    exists n: nat, m: nat ::
      && Parts(head, reference, n, m) && Num(head) - n >= lib
      && head in fork.items && reference in fork.items
      && CanFollow(fork.Live(), fork.items[head], n - 1) && CanFollow(fork.Live(), fork.items[reference], m - 1)
  }

  lemma {:induction false} PickMore(chain: seq<BlockId>, n: nat, rest: seq<nat>)
    requires 0 < n <= |chain| && forall i :: 0 <= i < |rest| ==> 0 < rest[i] <= |chain|
    ensures Pick(chain, [n] + rest) == [chain[n - 1]] + Pick(chain, rest)
  {
  }

  /** The ids of the numbers up to `top`. */
  ghost function PickUpTo(chain: seq<BlockId>, low: nat, high: nat, top: nat): (r: seq<BlockId>)
    requires low > 0 && top <= |chain|
  {
    Pick(chain, UpTo(low, high, top))
  }

  lemma {:induction false} PickUpToStep(chain: seq<BlockId>, low: nat, high: nat, top: nat)
    requires low > 0 && top <= |chain| && top <= high
    ensures low > top ==> PickUpTo(chain, low, high, top) == []
    ensures low <= top ==>
      PickUpTo(chain, low, high, top) == [chain[low - 1]] + PickUpTo(chain, low + (high - low + 2) / 2, high, top)
  {
    if low <= top {
      PickMore(chain, low, UpTo(low + (high - low + 2) / 2, high, top));
    }
  }

  /** The ids of the numbers from `first` on. */
  ghost function PickFrom(chain: seq<BlockId>, low: nat, first: nat): (r: seq<BlockId>)
    requires low > 0
  {
    Pick(chain, From(low, |chain|, first))
  }

  lemma {:induction false} PickFromStep(chain: seq<BlockId>, low: nat, first: nat)
    requires low > 0
    ensures low > |chain| ==> PickFrom(chain, low, first) == []
    ensures low <= |chain| ==>
              (PickFrom(chain, low, first) ==
               (if low >= first then [chain[low - 1]] else []) + PickFrom(chain, low + (|chain| - low + 2) / 2, first))
  {
    if low <= |chain| {
      var next := low + (|chain| - low + 2) / 2;
      PickMore(chain, low, From(next, |chain|, first));
      assert From(low, |chain|, first) == (if low >= first then [low] else []) + From(next, |chain|, first);
      assert [] + From(next, |chain|, first) == From(next, |chain|, first);
    }
  }

  /** Two chains agree up to a common block. */
  lemma {:induction false} SameBelow(head: BlockId, reference: BlockId, point: BlockId, n: nat)
    requires IsAncestor(point, head) && IsAncestor(point, reference) && 0 < n <= Num(point)
    ensures n <= Num(head) && Back(head, Num(head) - n) == Chain(reference, Num(reference))[n - 1]
  {
    SwitchKeepsChain(head, reference, point, n);
    assert Chain(head, n)[n - 1] == Chain(reference, n)[n - 1];
  }

  /** The ids for the numbers of a halving pass that our chain and the fork it is asked about cover. */
  method PickFromChain(
    head: BlockId, ghost reference: BlockId, ghost point: BlockId, history: seq<BlockId>, low0: nat, nonFork: nat,
    high: nat, after: nat) returns (synopsis: seq<BlockId>)
    requires IsAncestor(point, head) && IsAncestor(point, reference) && nonFork == Num(point) && high == Num(reference)
    requires |history| == high - nonFork
    requires forall i :: 0 <= i < |history| ==> history[i] == Back(reference, |history| - 1 - i)
    requires 0 < low0 <= high
    ensures synopsis == PickUpTo(Chain(reference, high), low0, high + after, high)
  {
    hide Back, Num, IsAncestor, Chain, PickUpTo;
    synopsis := [];
    var low := low0;
    ghost var chain := Chain(reference, high);
    while low <= high
      invariant low > 0
      invariant synopsis + PickUpTo(chain, low, high + after, high) == PickUpTo(chain, low0, high + after, high)
      decreases high + 1 - low
    {
      var next := low + (high + after - low + 2) / 2;
      PickUpToStep(chain, low, high + after, high);
      if low <= nonFork {
        SameBelow(head, reference, point, low);
        synopsis := synopsis + [Back(head, Num(head) - low)];
      } else {
        synopsis := synopsis + [history[low - nonFork - 1]];
      }
      low := next;
    }
    PickUpToStep(chain, low, high + after, high);
  }

  /** What the chain knows: nothing if the chain is empty, an error if the reference point is of no use. */
  method GetBlockchainSynopsis(fork: ForkDatabase, head: BlockId, lib: nat, reference: BlockId, after: nat)
    returns (r: Option<seq<BlockId>>)
    requires fork.Valid() && lib <= Num(head)
    ensures r.Some? <==> Usable(fork, head, lib, reference)
    ensures r.Some? ==>
      var top := if reference == Zero then head else reference;
      r.value == PickUpTo(Chain(top, Num(top)), Low(lib, Num(top)), Num(top) + after, Num(top))
  {
    hide Parts, Back, CanFollow, PickUpTo, Chain, Num;
    if reference == Zero {
      if head == Zero {
        PickUpToStep(Chain(Zero, 0), 1, after, 0);
        return Some([]);
      }
      assert Back(head, 0) == head;
      var s := PickFromChain(head, head, head, [], Low(lib, Num(head)), Num(head), Num(head), after);
      return Some(s);
    }
    if Num(reference) > Num(head) {
      return None;  // no such block on the chain
    }
    if reference == Back(head, Num(head) - Num(reference)) {
      assert Back(reference, 0) == reference;
      var s := PickFromChain(head, reference, reference, [], Low(lib, Num(reference)), Num(reference),
        Num(reference), after);
      return Some(s);
    }
    r := ForkSynopsis(fork, head, lib, reference, after);
  }

  /** The same for a reference point on a fork. */
  method ForkSynopsis(fork: ForkDatabase, head: BlockId, lib: nat, reference: BlockId, after: nat)
    returns (r: Option<seq<BlockId>>)
    requires fork.Valid() && lib <= Num(head)
    ensures r.Some? <==> OnKnownFork(fork, head, lib, reference)
    ensures r.Some? ==>
      r.value == PickUpTo(Chain(reference, Num(reference)), Low(lib, Num(reference)), Num(reference) + after,
        Num(reference))
  {
    hide Parts, Back, CanFollow, IsAncestor, PickUpTo, Chain, Num;
    var ok, left, right := fork.FetchBranchFrom(head, reference);
    if !ok {
      return None;
    }
    var m := |right|;
    ForkPoint(head, reference, |left|, m);
    if Num(reference) - m < lib {
      return None;  // the fork began too long ago
    }
    FollowDepth(fork.Live(), fork.items[reference], m - 1);
    TrailIds(fork.items[reference], m);
    var ids := Ids(right);
    var history := seq(m, i requires 0 <= i < m => ids[m - 1 - i]);
    var s := PickFromChain(head, reference, Back(reference, m), history, Low(lib, Num(reference)),
      Num(reference) - m, Num(reference), after);
    r := Some(s);
  }

  lemma {:induction false} ForkPoint(head: BlockId, reference: BlockId, n: nat, m: nat)
    requires Parts(head, reference, n, m)
    ensures var point := Back(reference, m); IsAncestor(point, head) && IsAncestor(point, reference)
    ensures 0 < m <= Num(reference) && n <= Num(head) && Num(reference) - m == Num(head) - n
    ensures forall i: nat, j: nat :: Parts(head, reference, i, j) ==> i == n && j == m
  {
  }

  /** The queued ids with the given numbers, if the first of them has number `first`. */
  ghost function Places(items: seq<BlockId>, first: nat, nums: seq<nat>): (r: seq<BlockId>)
    requires forall i :: 0 <= i < |nums| ==> first <= nums[i] < first + |items|
    ensures |r| == |nums| && forall i :: 0 <= i < |nums| ==> r[i] == items[nums[i] - first]
  {
    seq(|nums|, i requires 0 <= i < |nums| => items[nums[i] - first])
  }

  lemma {:induction false} PlacesMore(items: seq<BlockId>, first: nat, n: nat, rest: seq<nat>)
    requires first <= n < first + |items| && forall i :: 0 <= i < |rest| ==> first <= rest[i] < first + |items|
    ensures Places(items, first, [n] + rest) == [items[n - first]] + Places(items, first, rest)
  {
  }

  /** Those at the numbers that a halving pass from `low` reaches. */
  ghost function Queued(items: seq<BlockId>, first: nat, low: nat): (r: seq<BlockId>)
    requires items != []
  {
    Places(items, first, From(low, first + |items| - 1, first))
  }

  lemma {:induction false} QueuedStep(items: seq<BlockId>, first: nat, low: nat)
    requires items != []
    ensures var high := first + |items| - 1;
            Queued(items, first, low) ==
            if low > high then []
            else (if low >= first then [items[low - first]] else []) + Queued(items, first, low + (high - low + 2) / 2)
  {
    hide Places;
    var high := first + |items| - 1;
    if low <= high {
      var rest := From(low + (high - low + 2) / 2, high, first);
      assert [] + rest == rest;
      if low >= first {
        PlacesMore(items, first, low, rest);
      }
    }
  }

  /** Ids that follow a chain are picked as from the chain as a whole. */
  lemma {:induction false} QueuedIsPick(chain: seq<BlockId>, items: seq<BlockId>, first: nat, low: nat)
    requires items != [] && first > 0 && low > 0 && |chain| == first - 1 + |items| && chain[first - 1..] == items
    ensures Queued(items, first, low) == PickFrom(chain, low, first)
  {
    var nums := From(low, |chain|, first);
    forall i | 0 <= i < |nums| ensures items[nums[i] - first] == chain[nums[i] - 1] {
    }
  }

  /**
   The network code's half: the ids a peer has sent, at the numbers a pass from the first id of the synopsis
   reaches.  If that one lies beyond the queue, the code reads past the end of the queue.
   */
  method AddQueued(synopsis: seq<BlockId>, items: seq<BlockId>) returns (r: Option<seq<BlockId>>)
    requires items != []
    ensures var low := if synopsis == [] then 1 else Num(synopsis[0]);
            && (r.Some? <==> low < Num(items[0]) + |items|)
            && (r.Some? ==> r.value == synopsis + Queued(items, Num(items[0]), low))
  {
    hide Num, Queued;
    var first := Num(items[0]);
    var high := first + |items| - 1;
    var low := if synopsis == [] then 1 else Num(synopsis[0]);
    if low > high {
      return None;
    }
    var all := synopsis;
    ghost var low0 := low;
    while low <= high
      invariant all + Queued(items, first, low) == synopsis + Queued(items, first, low0)
      decreases high + 1 - low
    {
      QueuedStep(items, first, low);
      if low >= first {
        all := all + [items[low - first]];
      }
      low := low + (high - low + 2) / 2;
    }
    QueuedStep(items, first, low);
    r := Some(all);
  }

  /** The queued ids come right after the reference point, or after our head if there is none. */
  ghost predicate Follows(reference: BlockId, items: seq<BlockId>)
  {
    Consecutive(items) && (items != [] ==> Num(items[0]) == Num(reference) + 1)
  }

  lemma {:induction false} CombinedNumbers(reference: BlockId, items: seq<BlockId>)
    requires Follows(reference, items)
    ensures forall i :: 0 <= i < |Combined(reference, items)| ==> Num(Combined(reference, items)[i]) == i + 1
  {
  }

  /** The ids up to the reference point are those of the combined chain, and the two parts make one pass over it. */
  lemma {:induction false} PartsJoin(reference: BlockId, items: seq<BlockId>, low: nat)
    requires low > 0
    ensures var chain := Combined(reference, items);
            var n := Num(reference);
            && (forall i :: 0 <= i < |Halve(low, |chain|)| ==> 0 < Halve(low, |chain|)[i] <= |chain|)
            && PickUpTo(Chain(reference, n), low, |chain|, n) + PickFrom(chain, low, n + 1)
              == Pick(chain, Halve(low, |chain|))
  {
    var chain, n := Combined(reference, items), Num(reference);
    hide Chain, Halve, Num;
    HalveRange(low, |chain|);
    HalvesJoin(low, |chain|, n);
    var a, b := UpTo(low, |chain|, n), From(low, |chain|, n + 1);
    PickPrefix(Chain(reference, n), items, a);
    PickJoin(chain, a, b);
  }

  lemma {:induction false} PickPrefix(chain: seq<BlockId>, more: seq<BlockId>, nums: seq<nat>)
    requires forall i :: 0 <= i < |nums| ==> 0 < nums[i] <= |chain|
    ensures Pick(chain + more, nums) == Pick(chain, nums)
  {
  }

  lemma {:induction false} PickJoin(chain: seq<BlockId>, a: seq<nat>, b: seq<nat>)
    requires forall i :: 0 <= i < |a| ==> 0 < a[i] <= |chain|
    requires forall i :: 0 <= i < |b| ==> 0 < b[i] <= |chain|
    ensures forall i :: 0 <= i < |a + b| ==> 0 < (a + b)[i] <= |chain|
    ensures Pick(chain, a + b) == Pick(chain, a) + Pick(chain, b)
  {
  }

  lemma {:induction false} FirstPicked(reference: BlockId, low: nat, high: nat)
    requires 0 < low <= Num(reference) <= high
    ensures var s := PickUpTo(Chain(reference, Num(reference)), low, high, Num(reference)); s != [] && Num(s[0]) == low
  {
    PickUpToStep(Chain(reference, Num(reference)), low, high, Num(reference));
  }

  lemma {:induction false} NothingPicked(chain: seq<BlockId>, low: nat)
    requires low > 0
    ensures PickFrom(chain, low, |chain| + 1) == []
    decreases |chain| + 1 - low
  {
    PickFromStep(chain, low, |chain| + 1);
    if low <= |chain| {
      NothingPicked(chain, low + (|chain| - low + 2) / 2);
    }
  }

  /** What a synopsis consists of, wherever the queued ids start: our part, and the queued ids its pass reaches. */
  ghost function Halves(lib: nat, reference: BlockId, items: seq<BlockId>): (r: seq<BlockId>)
  {
    var n, low := Num(reference), Low(lib, Num(reference));
    PickUpTo(Chain(reference, n), low, n + |items|, n) + if items == [] then [] else Queued(items, Num(items[0]), low)
  }

  /** If the queued ids follow the reference point, the two halves are a single halving pass over the combined chain. */
  lemma {:induction false} HalvesAreSynopsis(lib: nat, reference: BlockId, items: seq<BlockId>)
    requires Follows(reference, items)
    ensures Halves(lib, reference, items) == Synopsis(lib, reference, items)
    ensures items != [] ==> Low(lib, Num(reference)) < Num(items[0]) + |items|
  {
    hide Num, Chain, PickUpTo, PickFrom, Queued, Halve;
    var low, chain := Low(lib, Num(reference)), Combined(reference, items);
    PartsJoin(reference, items, low);
    if items == [] {
      NothingPicked(chain, low);
    } else {
      QueuedIsPick(chain, items, Num(items[0]), low);
    }
  }

  /**
   Chain half and network half.  It fails if the reference point is of no use, or if the queue ends below the first
   number of the pass; for ids that follow the reference point it is one halving pass.
   */
  method CreateBlockchainSynopsis(fork: ForkDatabase, head: BlockId, lib: nat, lastSeen: BlockId, items: seq<BlockId>)
    returns (r: Option<seq<BlockId>>)
    requires fork.Valid() && lib <= Num(head)
    ensures var top := if lastSeen == Zero then head else lastSeen;
            && (r.Some? <==> && Usable(fork, head, lib, lastSeen)
                             && (items != [] ==> Low(lib, Num(top)) < Num(items[0]) + |items|))
            && (r.Some? ==> r.value == Halves(lib, top, items))
            && (Follows(top, items) && Usable(fork, head, lib, lastSeen) ==> r == Some(Synopsis(lib, top, items)))
  {
    hide Num, Chain, PickUpTo, PickFrom, Usable, Queued, Follows, Synopsis, Low;
    r := GetBlockchainSynopsis(fork, head, lib, lastSeen, |items|);
    ghost var top := if lastSeen == Zero then head else lastSeen;
    ghost var low := Low(lib, Num(top));
    if Follows(top, items) {
      HalvesAreSynopsis(lib, top, items);
    }
    if r.Some? && items != [] {
      if Num(top) > 0 {
        FirstPicked(top, low, Num(top) + |items|);
      } else {
        LowOfNothing(lib);
        PickUpToStep(Chain(top, 0), low, |items|, 0);
      }
      r := AddQueued(r.value, items);
    }
  }

  lemma {:induction false} LowOfNothing(lib: nat)
    ensures Low(lib, 0) == 1
  {
  }

  /**
   A synopsis names real blocks with rising numbers, the last one that of
   the combined chain, and is logarithmic in length.
   */
  lemma {:induction false} SynopsisShape(lib: nat, reference: BlockId, items: seq<BlockId>)
    requires Follows(reference, items) && Combined(reference, items) != []
    ensures var chain := Combined(reference, items);
            var s := Synopsis(lib, reference, items);
            && s != [] && s[|s| - 1] == chain[|chain| - 1]
            && |s| == Log2(|chain| - Low(lib, Num(reference)) + 1) + 1
            && Zero !in s && (forall i, j :: 0 <= i < j < |s| ==> Num(s[i]) < Num(s[j]))
  {
    hide Chain, Halve, Log2;
    var chain, low := Combined(reference, items), Low(lib, Num(reference));
    HalveShape(low, |chain|);
    HalveRange(low, |chain|);
    CombinedNumbers(reference, items);
    var nums, s := Halve(low, |chain|), Synopsis(lib, reference, items);
    forall i | 0 <= i < |s| ensures Num(s[i]) == nums[i] {
    }
  }
}
