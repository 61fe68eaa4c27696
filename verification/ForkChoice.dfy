/**
 Pushing blocks onto the chain: extending the head, switching to a longer fork, and coming back when
 a block of that fork turns out to be bad; and with it the block log.

 What a block does to the chain state is a parameter, `apply`: it either yields the next state or fails.
 On its way it may declare blocks irreversible.  That drops undo sessions for good, and writes the log through
 the fork database, which can make the block fail although its own content is sound.  The undo sessions of the
 state database are a stack of earlier states.
 */
module ForkChoice {
  import opened Common
  import opened Blocks
  import opened ForkDatabases
  import opened ForkLogs

  /** A block's effect: a new state, or a failure, after the step that makes `reached` irreversible if it got there. */
  datatype Applied<+S> = Done(state: S) | Failed(reached: Option<nat>)

  /** The deterministic replay of the whole chain that ends in `id`. */
  ghost function Replay<S>(apply: (S, BlockId) -> Applied<S>, genesis: S, id: BlockId): (r: Option<S>)
  {
    match id
    case Zero => Some(genesis)
    case Block(previous, _) =>
      match Replay(apply, genesis, previous)
      case None => None
      case Some(s) =>
        match apply(s, id)
        case Done(t) => Some(t)
        case Failed(_) => None
  }

  /** Every block of a chain that replays was applied to the replay of its predecessor. */
  lemma {:induction false} ReplayBack<S>(apply: (S, BlockId) -> Applied<S>, genesis: S, id: BlockId, k: nat)
    requires k <= Num(id) && Replay(apply, genesis, id).Some?
    ensures Replay(apply, genesis, Back(id, k)).Some?
    decreases k
  {
    if k > 0 {
      ReplayBack(apply, genesis, id.previous, k - 1);
    }
  }

  /** The irreversible number that a block of the chain reached is within the log. */
  ghost predicate LibsLogged<S>(
    apply: (S, BlockId) -> Applied<S>, lib: S -> nat, genesis: S, head: BlockId, logged: nat)
  {
    forall n: nat :: n <= Num(head) && Replay(apply, genesis, On(head, n)).Some? ==>
      lib(Replay(apply, genesis, On(head, n)).value) <= logged
  }

  lemma {:induction false} LibsOfAncestor<S>(
    apply: (S, BlockId) -> Applied<S>, lib: S -> nat, genesis: S, a: BlockId, head: BlockId, logged: nat,
    logged': nat)
    requires LibsLogged(apply, lib, genesis, head, logged) && IsAncestor(a, head) && logged <= logged'
    ensures LibsLogged(apply, lib, genesis, a, logged')
  {
    hide On, Replay;
    forall n: nat | n <= Num(a) ensures On(a, n) == On(head, n) {
      OnAncestor(a, head, n);
    }
  }

  lemma {:induction false} LibsStay<S>(
    apply: (S, BlockId) -> Applied<S>, lib: S -> nat, genesis: S, head: BlockId, logged: nat, logged': nat)
    requires LibsLogged(apply, lib, genesis, head, logged) && logged <= logged'
    ensures LibsLogged(apply, lib, genesis, head, logged')
  {
    hide On, Replay;
  }

  lemma {:induction false} LibsOfNext<S>(
    apply: (S, BlockId) -> Applied<S>, lib: S -> nat, genesis: S, b: BlockId, t: S, logged: nat, logged': nat)
    requires b.Block? && LibsLogged(apply, lib, genesis, b.previous, logged) && logged <= logged'
    requires Replay(apply, genesis, b) == Some(t) && lib(t) <= logged'
    ensures LibsLogged(apply, lib, genesis, b, logged')
  {
    hide Replay, On;
    forall n: nat | n <= Num(b) ensures On(b, n) == if n == Num(b) then b else On(b.previous, n) {
      NextOn(b, n);
    }
  }

  lemma {:induction false} NextOn(b: BlockId, n: nat)
    requires b.Block? && n <= Num(b)
    ensures Num(b) == Num(b.previous) + 1 && On(b, n) == if n == Num(b) then b else On(b.previous, n)
    ensures IsAncestor(b.previous, b)
  {
    assert Back(b, 1) == b.previous;
  }

  function Max(a: nat, b: nat): nat { if a < b then b else a }

  function Min(a: nat, b: nat): nat { if a < b then a else b }

  // ---------- Trying blocks ----------

  /**
   What trying blocks leaves behind: how many were applied, the highest level made irreversible, the height below
   which the fork database has forgotten blocks, the length of the log, and whether the last one cannot be undone.
   */
  datatype Trace = Trace(done: nat, level: nat, floor: nat, logged: nat, stuck: bool)

  /**
   The fork database keeps as many blocks below its head as the new
   block is above the irreversible one, and one more.
   */
  function Floor(height: nat, b: BlockId, level: nat): nat
  {
    if height + level > Num(b) + 1 then height + level - Num(b) - 1 else 0
  }

  /** A block that makes `level` irreversible, and then succeeds or fails. */
  ghost function Settle(v: View, floor: nat, logged: nat, b: BlockId, level: nat, done: bool): (r: Trace)
  {
    var end := LogTo(v, floor, logged, level);
    if end < level then Trace(0, level, floor, end, level == Num(b))
    else Trace(if done then 1 else 0, level, Max(floor, Floor(Num(v.head), b, level)), end, !done && level == Num(b))
  }

  /** One block applied on s: it fails by itself, or because the log cannot be written. */
  ghost function Trial<S>(
    apply: (S, BlockId) -> Applied<S>, lib: S -> nat, v: View, floor: nat, logged: nat, s: S, b: BlockId): (r: Trace)
    ensures r.done <= 1 && (r.done == 1 ==> apply(s, b).Done?) && floor <= r.floor && logged <= r.logged
  {
    match apply(s, b)
    case Failed(None) => Trace(0, 0, floor, logged, false)
    case Failed(Some(level)) => Settle(v, floor, logged, b, level, false)
    case Done(t) => Settle(v, floor, logged, b, lib(t), true)
  }

  ghost function Then(t: Trace, u: Trace): (r: Trace)
  {
    Trace(t.done + u.done, Max(t.level, u.level), u.floor, u.logged, u.stuck)
  }

  /** Applying the last n blocks of a chain, oldest first, until one fails. */
  ghost function Attempt<S>(
    apply: (S, BlockId) -> Applied<S>, lib: S -> nat, v: View, floor: nat, logged: nat, s: S, tip: BlockId, n: nat)
    : (r: Trace)
    requires n <= Num(tip)
    ensures r.done <= n && floor <= r.floor && logged <= r.logged
    decreases n
  {
    if n == 0 then Trace(0, 0, floor, logged, false)
    else
      var b := Back(tip, n - 1);
      var t := Trial(apply, lib, v, floor, logged, s, b);
      if t.done == 0 then t else Then(t, Attempt(apply, lib, v, t.floor, t.logged, apply(s, b).state, tip, n - 1))
  }

  lemma {:induction false} AttemptNone<S(!new)>(apply: (S, BlockId) -> Applied<S>, lib: S -> nat, v: View, tip: BlockId)
    ensures forall s, floor, logged ::
      Attempt(apply, lib, v, floor, logged, s, tip, 0) == Trace(0, 0, floor, logged, false)
  {
  }

  lemma {:induction false} AttemptStep<S>(
    apply: (S, BlockId) -> Applied<S>, lib: S -> nat, v: View, s: S, tip: BlockId, n: nat, before: Trace)
    requires 0 < n <= Num(tip)
    ensures var b := Back(tip, n - 1);
            var t := Trial(apply, lib, v, before.floor, before.logged, s, b);
            var u := Then(before, t);
            Then(before, Attempt(apply, lib, v, before.floor, before.logged, s, tip, n)) ==
              if t.done == 1 then Then(u, Attempt(apply, lib, v, u.floor, u.logged, apply(s, b).state, tip, n - 1))
                else u
  {
  }

  lemma {:induction false} ThenAdds(base: nat, t: Trace, u: Trace)
    ensures Then(t, u).done == t.done + u.done && Then(t, u).floor == u.floor && Then(t, u).logged == u.logged
    ensures Then(t, u).stuck == u.stuck
    ensures Max(base, Then(t, u).level) == Max(Max(base, t.level), u.level)
  {
  }

  lemma {:induction false} ThenNothing(t: Trace)
    ensures !t.stuck ==> Then(t, Trace(0, 0, t.floor, t.logged, false)) == t
  {
  }

  /** Blocks that applied once apply again: they need nothing of the log that is not there. */
  lemma {:induction false} AttemptReplays<S>(
    apply: (S, BlockId) -> Applied<S>, lib: S -> nat, genesis: S, v: View, floor: nat, logged: nat, s: S,
    tip: BlockId, n: nat)
    requires n <= Num(tip) && Replay(apply, genesis, tip).Some? && Replay(apply, genesis, Back(tip, n)) == Some(s)
    requires LibsLogged(apply, lib, genesis, tip, logged)
    ensures var t := Attempt(apply, lib, v, floor, logged, s, tip, n); t.done == n && t.logged == logged && !t.stuck
    decreases n
  {
    hide Back, Num, Replay, LibsLogged, Trial;
    if n > 0 {
      var b := Back(tip, n - 1);
      TrialReplays(apply, lib, genesis, v, floor, logged, s, tip, n);
      var t := Trial(apply, lib, v, floor, logged, s, b);
      AttemptReplays(apply, lib, genesis, v, t.floor, logged, apply(s, b).state, tip, n - 1);
    }
  }

  lemma {:induction false} TrialReplays<S>(
    apply: (S, BlockId) -> Applied<S>, lib: S -> nat, genesis: S, v: View, floor: nat, logged: nat, s: S,
    tip: BlockId, n: nat)
    requires 0 < n <= Num(tip) && Replay(apply, genesis, tip).Some? && Replay(apply, genesis, Back(tip, n)) == Some(s)
    requires LibsLogged(apply, lib, genesis, tip, logged)
    ensures var b := Back(tip, n - 1);
            var t := Trial(apply, lib, v, floor, logged, s, b);
            && t.done == 1 && t.logged == logged && !t.stuck
            && apply(s, b).Done? && Replay(apply, genesis, b) == Some(apply(s, b).state)
  {
    hide Num, Back;
    ReplayBack(apply, genesis, tip, n - 1);
    BackStep(tip, n - 1);
    var b := Back(tip, n - 1);
    assert On(tip, Num(tip) - (n - 1)) == b;
    LogToEnd(v, floor, logged, lib(apply(s, b).state));
  }

  // ---------- How a switch ends ----------

  /** The latest m items of a trail are held, and nothing as low as those below them. */
  ghost predicate OwnHeld(held: set<Item>, i: Item, m: nat)
  {
    && 0 < m <= Depth(i) + 1
    && (forall j :: 0 <= j < m ==> Up(i, j) in held)
    && (forall x :: x in held ==> Num(Id(x)) > Num(Id(i)) - m)
  }

  ghost predicate Keyed(items: map<BlockId, Item>)
  {
    forall k :: k in items ==> Id(items[k]) == k
  }

  /**
   Which pointers down from the old head are left after a failed switch, when blocks of the other branch have been
   removed and those below the floor forgotten.
   */
  lemma {:induction false} FollowLeft(
    v: View, items: map<BlockId, Item>, rest: set<BlockId>, i: Item, m: nat, floor: nat, k: nat)
    requires Keyed(v.items) && items == Left(v.items, floor) - rest && OwnHeld(v.held, i, m)
    requires CanFollow(Living(v, 0), i, m - 1) && Num(v.head) > Num(Id(i)) - m
    requires forall b :: b in rest ==> Num(b) > Num(Id(i)) - m
    ensures CanFollow(items.Values + v.held + {i}, i, k) <==>
      k < m || (CanFollow(Living(v, 0), i, k) && floor <= Num(Id(i)) - k)
  {
    hide Up, Back, Num, Id, Depth;
    var live := items.Values + v.held + {i};
    forall j | 0 < j <= Depth(i)
      ensures Num(Id(Up(i, j))) == Num(Id(i)) - j
      ensures j < m ==> Up(i, j) in live
      ensures j >= m ==> (Up(i, j) in live <==> Up(i, j) in Living(v, 0) && Num(Id(i)) - j >= floor)
    {
      if j >= m {
        KeyedLeft(v.items, rest, floor, Up(i, j));
        LeftAll(v.items);
      }
    }
    if k >= m {
      if CanFollow(live, i, k) {
        assert Up(i, k) in live;
        assert CanFollow(Living(v, 0), i, k);
      }
      if CanFollow(Living(v, 0), i, k) && floor <= Num(Id(i)) - k {
        assert CanFollow(live, i, k);
      }
    }
  }

  lemma {:induction false} KeyedLeft(items: map<BlockId, Item>, rest: set<BlockId>, floor: nat, x: Item)
    requires Keyed(items) && Id(x) !in rest
    ensures x in (Left(items, floor) - rest).Values <==> x in items.Values && Num(Id(x)) >= floor
  {
    if x in items.Values && Num(Id(x)) >= floor {
      assert items[Id(x)] == x;
      assert (Left(items, floor) - rest)[Id(x)] == x;
    }
  }

  /**
   Extended and Switched: on a new head.  Ignored and Refused: on the old one.  Lost: the old head was left and
   could not be reached again.  Stuck: a block that cannot be undone any more failed half way.
   */
  datatype Outcome = Extended | Switched | Ignored | Refused | Lost | Stuck

  /** The chain before the fork database's branches are looked at. */
  datatype Moment<+S> = Moment(
    v: View, state: S, head: BlockId, sessions: nat, log: seq<BlockId>, base: nat, size: nat)

  /** The fork database knows both branches, and its head is higher and not just one block longer. */
  ghost predicate CanSwitch(v: View, head: BlockId, n: nat, m: nat)
  {
    && v.head.previous != head && Num(v.head) > Num(head) && Parts(v.head, head, n, m)
    && v.head in v.items && head in v.items
    && CanFollow(Living(v, 0), v.items[v.head], n - 1) && CanFollow(Living(v, 0), v.items[head], m - 1)
  }

  /** The items of the two branches of a switch. */
  ghost function Branches(v: View, head: BlockId, n: nat, m: nat): (r: set<Item>)
    requires CanSwitch(v, head, n, m)
  {
    (set i | i in Trail(v.items[v.head], n)) + (set i | i in Trail(v.items[head], m))
  }

  /** The fork database while the new branch is tried: both branches are held, and its head is m blocks lower. */
  ghost function Trying(v: View, head: BlockId, n: nat, m: nat): (r: View)
    requires CanSwitch(v, head, n, m) && m <= Depth(v.at)
  {
    View(v.items, Branches(v, head, n, m), Up(v.at, m))
  }

  /**
   How a switch from `head` to the head of the fork database ends.  The branches are n blocks on the new side and m
   on the old one; `s` is the state where they part, `sessions` the number of blocks that can be undone, `logged`
   the length of the log.
   */
  ghost function SwitchOutcome<S>(
    apply: (S, BlockId) -> Applied<S>, lib: S -> nat, s: S, v: View, sessions: nat, logged: nat, head: BlockId,
    n: nat, m: nat): (r: Outcome)
    requires CanSwitch(v, head, n, m)
    ensures r in {Switched, Refused, Lost, Stuck} && (sessions == 0 < m ==> r == Refused)
  {
    if !CanFollow(Living(v, 0), v.at, m) then Refused
    else if sessions < m then
      if sessions == 0 then Refused else Lost
    else
      var w := Trying(v, head, n, m);
      TrialOutcome(Attempt(apply, lib, w, 0, logged, s, v.head, n), w, head, n, m)
  }

  /**
   The same once the chain is where the branches part.  After a failure the old head is reached again if nothing
   above that point has become irreversible, the pointers from it lead far enough down, and the blocks that were
   applied can still be fetched, which undoing them takes.
   */
  ghost function TrialOutcome(t: Trace, w: View, head: BlockId, n: nat, m: nat): (r: Outcome)
    requires m <= Num(head) && head in w.items
    ensures r in {Switched, Refused, Lost, Stuck}
  {
    if t.stuck then Stuck
    else if t.done == n then Switched
    else if && t.level <= Num(head) - m
            && (if t.done == 0 then true
                else if t.done < m then t.floor <= Num(head) - m + 1
                else CanFollow(Living(w, 0), w.items[head], t.done) && t.floor <= Num(head) - t.done) then Refused
    else Lost
  }

  /** The situation of a switch once the chain is where the branches part: both of them are known and held. */
  ghost predicate InSwitch(w: View, h: BlockId, tip: BlockId, n: nat, m: nat)
  {
    && Parts(tip, h, n, m) && Num(tip) > Num(h) && w.head == Back(tip, m)
    && Keyed(w.items) && h in w.items && (forall i :: 0 <= i < n ==> Back(tip, i) in w.items)
    && (forall i :: 0 <= i < m ==> Back(h, i) in w.items)
    && CanFollow(Living(w, 0), w.items[h], m - 1) && OwnHeld(w.held, w.items[h], m)
  }

  lemma {:induction false} SwitchNumbers(w: View, h: BlockId, tip: BlockId, n: nat, m: nat)
    requires InSwitch(w, h, tip, n, m)
    ensures 0 < m < n <= Num(tip) && m <= Num(h) && Num(tip) - n == Num(h) - m && Back(tip, n) == Back(h, m)
    ensures h in w.items && Id(w.items[h]) == h && w.items[h] in w.held
  {
    PartsFacts(tip, h, n, m);
    assert Up(w.items[h], 0) in w.held;
  }

  /** Which pointers lead back from the old head once the rest of the new branch has been removed. */
  lemma {:induction false} ReturnLeft(w: View, h: BlockId, tip: BlockId, n: nat, m: nat, floor: nat, done: nat)
    requires InSwitch(w, h, tip, n, m) && done <= n <= Num(tip)
    ensures h in w.items && m <= Num(h)
    ensures var rest := (Left(w.items, floor) - Untried(tip, n - done)).Values + w.held + {w.items[h]};
            CanFollow(rest, w.items[h], done) <==>
              done < m || (CanFollow(Living(w, 0), w.items[h], done) && floor <= Num(h) - done)
  {
    hide Up, Back, Num, Depth, CanFollow, Left, Living, OwnHeld, Untried;
    SwitchNumbers(w, h, tip, n, m);
    FollowLeft(w, Left(w.items, floor) - Untried(tip, n - done), Untried(tip, n - done), w.items[h], m, floor, done);
  }

  /** The blocks of the new branch that were applied can be fetched exactly if the lowest has not been forgotten. */
  lemma {:induction false} AppliedStored(w: View, floor: nat, tip: BlockId, n: nat, done: nat, log: seq<BlockId>)
    requires done <= n <= Num(tip) && |log| <= Num(tip) - n && forall i :: 0 <= i < n ==> Back(tip, i) in w.items
    ensures var c := Back(tip, n - done);
            AllStored(Left(w.items, floor) - Untried(tip, n - done), log, c, done) <==>
            done == 0 || floor <= Num(tip) - n + 1
  {
    hide Back, Num, Untried;
    var c := Back(tip, n - done);
    var items := Left(w.items, floor) - Untried(tip, n - done);
    forall i | 0 <= i < done ensures InStore(items, log, Back(c, i)) <==> Num(tip) - n + done - i >= floor {
      BackBack(tip, n - done, i);
    }
    if done > 0 {
      var lowest := done - 1;
      assert InStore(items, log, Back(c, lowest)) <==> Num(tip) - n + done - lowest >= floor;
    }
  }

  /** After a failure, whether sessions, pointers and blocks lead back is what decides the outcome. */
  lemma {:induction false} RestoreDecides(
    w: View, t: Trace, h: BlockId, tip: BlockId, n: nat, m: nat, base: nat, sessions: nat, log: seq<BlockId>)
    requires InSwitch(w, h, tip, n, m) && t.done < n <= Num(tip) && m <= Num(h) && !t.stuck && base <= Num(h) - m
    requires h in w.items && sessions == Num(h) - m + t.done - Max(base, t.level) && |log| <= Max(base, t.level)
    ensures var items := Left(w.items, t.floor) - Untried(tip, n - t.done);
            var back := && t.done <= sessions && CanFollow(items.Values + w.held + {w.items[h]}, w.items[h], t.done)
                        && AllStored(items, log, Back(tip, n - t.done), t.done);
            TrialOutcome(t, w, h, n, m) == if t.done == 0 || back then Refused else Lost
  {
    hide Up, Back, Num, Depth, CanFollow, Left, Living, Untried, AllStored;
    SwitchNumbers(w, h, tip, n, m);
    ReturnLeft(w, h, tip, n, m, t.floor, t.done);
    if t.done <= sessions {
      AppliedStored(w, t.floor, tip, n, t.done, log);
    }
  }

  lemma {:induction false} LeftShrinks(items: map<BlockId, Item>, floor: nat)
    ensures Shrunk(items.Keys, Left(items, floor).Keys, {})
  {
    LeftAll(items);
    PrunedShrinks(items.Keys, 0, floor);
  }

  /** There is only one place where two chains part. */
  lemma {:induction false} PartsOnce(first: BlockId, second: BlockId, n: nat, m: nat, i: nat, j: nat)
    requires Parts(first, second, n, m) && Parts(first, second, i, j)
    ensures n == i && m == j
  {
  }

  lemma {:induction false} PartsFacts(first: BlockId, second: BlockId, n: nat, m: nat)
    requires Parts(first, second, n, m) && Num(first) > Num(second)
    ensures 0 < m < n <= Num(first) && m <= Num(second) && Num(first) - n == Num(second) - m
    ensures Back(first, n) == Back(second, m) && first.Block? && second.Block?
  {
  }

  /** What is alive and is not the head is in the index. */
  lemma {:induction false} InIndex(v: View, x: Item)
    requires Keyed(v.items) && v.held == {} && x in Living(v, 0) && Id(x) != v.head
    ensures Id(x) in v.items && v.items[Id(x)] == x
  {
    LeftAll(v.items);
  }

  /** Below the head of the fork database its branch runs through the index, unless its own pointer is gone. */
  lemma {:induction false} HeadFollows(v: View, head: BlockId, n: nat, m: nat)
    requires Keyed(v.items) && v.held == {} && CanSwitch(v, head, n, m)
    ensures 0 < m < n && (CanFollow(Living(v, 0), v.at, m) <==> CanFollow(Living(v, 0), v.at, 1))
    ensures CanFollow(Living(v, 0), v.at, m) ==>
      forall j :: 0 < j <= m ==> Up(v.at, j) == Up(v.items[v.head], j)
  {
    hide Back, Num, Parts, Up, Depth;
    PartsFacts(v.head, head, n, m);
    var top := v.items[v.head];
    if CanFollow(Living(v, 0), v.at, 1) {
      UpStep(v.at, 0);
      UpStep(top, 0);
      BackStep(v.head, 0);
      assert Num(Id(Up(v.at, 1))) == Num(v.head) - 1 && Num(Id(Up(top, 1))) == Num(v.head) - 1;
      InIndex(v, Up(v.at, 1));
      InIndex(v, Up(top, 1));
      assert Up(v.at, 1) == Up(top, 1);
      forall j | 0 < j <= m ensures j <= Depth(v.at) && Up(v.at, j) == Up(top, j) {
        UpUp(top, 1, j - 1);
        UpUp(v.at, 1, j - 1);
      }
    }
  }

  /** The branches are in the index, and reach as low as the branch point but not to it. */
  lemma {:induction false} BranchesHeld(v: View, head: BlockId, n: nat, m: nat)
    requires Keyed(v.items) && v.held == {} && CanSwitch(v, head, n, m)
    ensures OwnHeld(Branches(v, head, n, m), v.items[head], m)
    ensures forall x :: x in Branches(v, head, n, m) ==> x in v.items.Values
    ensures forall i :: 0 <= i < n ==> Back(v.head, i) in v.items
    ensures forall i :: 0 <= i < m ==> Back(head, i) in v.items
  {
    hide Back, Num, Parts, Up, Depth;
    PartsFacts(v.head, head, n, m);
    TrailKnown(v, v.head, n);
    TrailKnown(v, head, m);
    var left, right := Trail(v.items[v.head], n), Trail(v.items[head], m);
    forall j | 0 <= j < m ensures Up(v.items[head], j) in Branches(v, head, n, m) {
      assert right[j] in right;
    }
  }

  lemma {:induction false} TrailKnown(v: View, id: BlockId, n: nat)
    requires Keyed(v.items) && v.held == {} && id in v.items && 0 < n && CanFollow(Living(v, 0), v.items[id], n - 1)
    requires Num(id) <= Num(v.head) && n <= Num(id)
    ensures forall i :: 0 <= i < n ==> Back(id, i) in v.items && v.items[Back(id, i)] == Up(v.items[id], i)
    ensures forall x :: x in Trail(v.items[id], n) ==> x in v.items.Values && Num(id) - n < Num(Id(x)) <= Num(id)
  {
    hide Up, Depth;
    var top := v.items[id];
    forall i | 0 <= i < n ensures Back(id, i) in v.items && v.items[Back(id, i)] == Up(top, i) {
      assert Id(Up(top, i)) == Back(id, i);
      if i > 0 {
        assert Num(Back(id, i)) < Num(v.head);
        InIndex(v, Up(top, i));
      }
    }
    forall x | x in Trail(top, n) ensures x in v.items.Values && Num(id) - n < Num(Id(x)) <= Num(id) {
      var i :| 0 <= i < n && Trail(top, n)[i] == x;
      assert v.items[Back(id, i)] == x;
    }
  }

  datatype Fate = Accepted | Rejected | Stopped

  class ChainDatabase<S(!new)> {
    const genesis: S
    const apply: (S, BlockId) -> Applied<S>
    const lib: S -> nat
    const fork: ForkDatabase
    var state: S
    var head: BlockId                 // head_block_id
    var undo: seq<(S, BlockId)>       // undo sessions, oldest first: the state and head each one restores
    var log: seq<BlockId>             // the block log

    /** A block never makes more than itself irreversible, and nothing is irreversible at genesis. */
    ghost predicate Behaved()
    {
      && lib(genesis) == 0
      && forall s, b ::
           match apply(s, b)
           case Done(t) => lib(t) <= Num(b)
           case Failed(None) => true
           case Failed(Some(level)) => level <= Num(b)
    }

    /** The state is the replay of the head's chain, and the undo stack restores exactly the latest predecessors. */
    ghost predicate StateOk()
      reads this
    {
      && Behaved()
      && Replay(apply, genesis, head) == Some(state)
      && |undo| <= Num(head) && UndoOk(undo, head)
    }

    ghost predicate UndoOk(undo: seq<(S, BlockId)>, head: BlockId)
    {
      && |undo| <= Num(head)
      && forall i :: 0 <= i < |undo| ==>
           && undo[i].1 == Back(head, |undo| - i)
           && Replay(apply, genesis, undo[i].1) == Some(undo[i].0)
    }

    /** The oldest block the chain can still go back to. */
    ghost function Base(): (r: nat)
      requires |undo| <= Num(head)
      reads this
    {
      Num(head) - |undo|
    }

    /** The chain never goes back below the log, and all that is irreversible is in it. */
    ghost predicate LogLong()
      requires |undo| <= Num(head)
      reads this
    {
      |log| <= Base() && LibsLogged(apply, lib, genesis, head, |log|)
    }

    ghost predicate ChainOk()
      reads this, fork
    {
      StateOk() && |undo| <= Num(head) && LogLong() && fork.Valid() && (fork.at.None? ==> head == Zero)
    }

    /** The log is the start of the head's chain, and what is still to be logged can be told from its rivals. */
    ghost predicate LogOk()
      reads this, fork
    {
      |log| <= Num(head) && log == Chain(head, |log|) && Tracked(fork.items.Keys, head, |log|)
    }

    /** Between pushes: chain and log are right, and nobody holds blocks. */
    ghost predicate Valid()
      reads this, fork
    {
      ChainOk() && LogOk() && fork.held == {}
    }

    constructor (genesis: S, apply: (S, BlockId) -> Applied<S>, lib: S -> nat)
      requires lib(genesis) == 0
      requires forall s, b ::
        match apply(s, b)
        case Done(t) => lib(t) <= Num(b)
        case Failed(None) => true
        case Failed(Some(level)) => level <= Num(b)
      ensures Valid() && fresh(fork) && head == Zero && state == genesis && undo == [] && log == []
      ensures fork.at == None && fork.items == map[] && Straight()
      ensures this.genesis == genesis && this.apply == apply && this.lib == lib
    {
      this.genesis, this.apply, this.lib := genesis, apply, lib;
      fork := new ForkDatabase();
      state, head, undo, log := genesis, Zero, [], [];
    }

    /** The fork database is as the view says, with everything below the floor forgotten. */
    ghost predicate Looks(v: View, floor: nat)
      reads this, fork
    {
      fork.held == v.held && fork.at == Some(v.at) && fork.items == Left(v.items, floor)
    }

    /** Drops the sessions up to revision `level`. */
    method Commit(level: nat)
      requires UndoOk(undo, head)
      modifies this`undo
      ensures UndoOk(undo, head)
      ensures Base() == Max(old(Base()), if level < Num(head) then level else Num(head))
    {
      while undo != [] && Num(undo[0].1) + 1 <= level
        invariant UndoOk(undo, head)
        invariant Base() == old(Base()) || old(Base()) < Base() <= level
        decreases |undo|
      {
        undo := undo[1..];
      }
    }

    method Undo()
      requires StateOk()
      modifies this`state, this`head, this`undo
      ensures StateOk()
      ensures old(undo) == [] ==> head == old(head) && state == old(state) && undo == old(undo)
      ensures old(undo) != [] ==> head == Back(old(head), 1) && Base() == old(Base())
    {
      if undo != [] {
        var n := |undo| - 1;
        ghost var h := head;
        state, head := undo[n].0, undo[n].1;
        undo := undo[..n];
        forall i | 0 <= i < n ensures undo[i].1 == Back(head, n - i) {
          BackBack(h, 1, n - i);
        }
      }
    }

    /** Opens an undo session and makes a block the head. */
    method PushSession(b: BlockId, t: S)
      requires StateOk() && b.Block? && b.previous == head && apply(state, b) == Done(t)
      modifies this`state, this`head, this`undo
      ensures StateOk() && head == b && state == t && Base() == old(Base())
    {
      hide Back, Num, ChainDatabase.UndoOk, ChainDatabase.Behaved;
      UndoPushed(undo, state, b, t);
      undo := undo + [(state, head)];
      state, head := t, b;
    }

    lemma {:induction false} UndoPushed(undo: seq<(S, BlockId)>, s: S, b: BlockId, t: S)
      requires b.Block? && UndoOk(undo, b.previous) && Replay(apply, genesis, b.previous) == Some(s)
      requires apply(s, b) == Done(t)
      ensures UndoOk(undo + [(s, b.previous)], b) && Replay(apply, genesis, b) == Some(t)
      ensures Num(b) == Num(b.previous) + 1
    {
      var r := undo + [(s, b.previous)];
      forall i | 0 <= i < |r| ensures r[i].1 == Back(b, |r| - i) && Replay(apply, genesis, r[i].1) == Some(r[i].0) {
        assert Back(b, |r| - i) == Back(b.previous, |undo| - i);
      }
    }

    /**
     Moves blocks from the fork database to the log, up to the
     irreversible one; stops where one cannot be fetched.
     */
    method WriteLog(level: nat, ghost v: View, ghost floor: nat) returns (ok: bool)
      requires fork.Valid() && Looks(v, floor)
      modifies this`log
      ensures |log| == LogTo(v, floor, |old(log)|, level) && (ok <==> |log| >= level)
      ensures Appended(v, old(log), log)
    {
      hide LogTo, CanLog, Appended, Fetched, Left, ForkDatabase.Valid;
      AppendedNothing(v, log);
      while |log| < level
        invariant LogTo(v, floor, |log|, level) == LogTo(v, floor, |old(log)|, level)
        invariant Appended(v, old(log), log)
        decreases level - |log|
      {
        LogToStep(v, floor, |log|, level);
        var block := FetchToLog(|log| + 1, v, floor);
        if block == Zero {
          return false;
        }
        AppendedOne(v, old(log), log, block);
        log := log + [block];
      }
      LogToEnd(v, floor, |log|, level);
      ok := true;
    }

    /** Block number n, as the fork database finds it. */
    method FetchToLog(n: nat, ghost v: View, ghost floor: nat) returns (block: BlockId)
      requires fork.Valid() && Looks(v, floor) && n > 0
      ensures block != Zero <==> CanLog(v, floor, n)
      ensures block != Zero ==> Fetched(v, n, block)
    {
      hide Back, Left, Pruned, AtNumber, CanFollow, Num, CanLog, Fetched, ForkDatabase.Valid;
      block := fork.FetchOnMainBranch(n);
      FetchedIs(fork, v, floor, n, block);
    }

    /** Applies one block in an undo session of its own. */
    method ApplyBlock(b: BlockId, ghost v: View, ghost floor: nat) returns (r: Fate)
      requires ChainOk() && b.Block? && fork.at.Some? && Looks(v, floor)
      modifies this`state, this`head, this`undo, this`log, fork`items, fork`maxSize
      ensures r != Stopped ==> ChainOk()
      ensures fork.Valid() && Appended(v, old(log), log)
      ensures b.previous != old(head) || apply(old(state), b) == Failed(None) ==>
        && r == Rejected && log == old(log) && undo == old(undo)
        && fork.items == old(fork.items) && fork.maxSize == old(fork.maxSize)
      ensures r == Accepted ==> head == b && apply(old(state), b).Done? && state == apply(old(state), b).state
      ensures r == Accepted ==> fork.maxSize == Num(b) - lib(state) + 1
      ensures r == Rejected ==> head == old(head) && state == old(state)
      ensures b.previous == old(head) ==>
        var t := Trial(apply, lib, v, floor, |old(log)|, old(state), b);
        && (r == Accepted <==> t.done == 1) && (r == Stopped <==> t.stuck)
        && |log| == t.logged && Looks(v, t.floor)
        && (r != Stopped ==> Base() == Max(old(Base()), t.level))
    {
      hide LogTo, Settle, Left, Pruned, LibsLogged, CanFollow, ChainDatabase.UndoOk;
      if b.previous != head {
        AppendedNothing(v, log);
        return Rejected;
      }
      NextOn(b, Num(b));
      match apply(state, b) {
        case Failed(None) =>
          AppendedNothing(v, log);
          r := Rejected;
        case Failed(Some(level)) =>
          r := ApplyBad(b, level, v, floor);
        case Done(t) =>
          r := ApplyGood(b, t, v, floor);
      }
    }

    /** A block that fails after it has made `level` irreversible. */
    method ApplyBad(b: BlockId, level: nat, ghost v: View, ghost floor: nat) returns (r: Fate)
      requires ChainOk() && fork.at.Some? && Looks(v, floor) && Num(b) == Num(head) + 1 && level <= Num(b)
      modifies this`undo, this`log, fork`items, fork`maxSize
      ensures fork.Valid() && Appended(v, old(log), log) && (r != Stopped ==> ChainOk())
      ensures var t := Settle(v, floor, |old(log)|, b, level, false);
              && r == (if t.stuck then Stopped else Rejected) && |log| == t.logged && Looks(v, t.floor)
              && (r != Stopped ==> Base() == Max(old(Base()), t.level))
    {
      hide LogTo, Left, Pruned, LibsLogged, CanFollow, Appended, Replay, ChainDatabase.UndoOk, ChainDatabase.Behaved;
      var _ := Irreversible(b, level, v, floor);
      if level == Num(b) {
        return Stopped;  // its own session is committed, so nothing brings the old state back
      }
      KeepBlock(level);
      LibsStay(apply, lib, genesis, head, |old(log)|, |log|);
      r := Rejected;
    }

    /** A block that is sound by itself, and fails if the log cannot be written. */
    method ApplyGood(b: BlockId, t: S, ghost v: View, ghost floor: nat) returns (r: Fate)
      requires ChainOk() && fork.at.Some? && Looks(v, floor) && b.Block? && b.previous == head
      requires apply(state, b) == Done(t)
      requires Num(b) == Num(head) + 1 && lib(t) <= Num(b)
      modifies this`state, this`head, this`undo, this`log, fork`items, fork`maxSize
      ensures fork.Valid() && Appended(v, old(log), log) && (r != Stopped ==> ChainOk())
      ensures if r == Accepted then head == b && state == t else head == old(head) && state == old(state)
      ensures r == Accepted ==> fork.maxSize == Num(b) - lib(t) + 1
      ensures var t' := Settle(v, floor, |old(log)|, b, lib(t), true);
              && (r == Accepted <==> t'.done == 1) && (r == Stopped <==> t'.stuck) && |log| == t'.logged
              && Looks(v, t'.floor)
              && (r != Stopped ==> Base() == Max(old(Base()), t'.level))
    {
      hide LogTo, Left, Pruned, LibsLogged, CanFollow, Appended, Replay, ChainDatabase.UndoOk, ChainDatabase.Behaved;
      var wrote := Irreversible(b, lib(t), v, floor);
      if wrote {
        PushSession(b, t);
        Commit(lib(t));
        LibsOfNext(apply, lib, genesis, b, t, |old(log)|, |log|);
        r := Accepted;
      } else if lib(t) == Num(b) {
        r := Stopped;
      } else {
        KeepBlock(lib(t));
        LibsStay(apply, lib, genesis, head, |old(log)|, |log|);
        r := Rejected;
      }
    }

    /** The block is undone; the sessions it committed are gone. */
    method KeepBlock(level: nat)
      requires StateOk() && level <= Num(head)
      modifies this`undo
      ensures StateOk() && Base() == Max(old(Base()), level)
    {
      Commit(level);
    }

    /**
     What becomes irreversible is logged, and the fork database
     shrinks; the commit of sessions is left to the caller.
     */
    method Irreversible(b: BlockId, level: nat, ghost v: View, ghost floor: nat) returns (wrote: bool)
      requires fork.Valid() && fork.at.Some? && Looks(v, floor) && level <= Num(b)
      modifies this`log, fork`items, fork`maxSize
      ensures fork.Valid() && Appended(v, old(log), log)
      ensures |log| == LogTo(v, floor, |old(log)|, level) && (wrote <==> |log| >= level)
      ensures Looks(v, if wrote then Max(floor, Floor(Num(v.head), b, level)) else floor)
      ensures wrote ==> fork.maxSize == Num(b) - level + 1
    {
      hide LogTo, CanFollow;
      wrote := WriteLog(level, v, floor);
      if wrote {
        fork.SetMaxSize(Num(b) - level + 1);
      }
    }

    /** Applies the last blocks of a chain on top of the head, oldest first, until one fails. */
    method ApplyBranch(ghost tip: BlockId, branch: seq<BlockId>, ghost v: View, ghost floor: nat)
      returns (done: nat, stopped: bool)
      requires ChainOk() && fork.at.Some? && Looks(v, floor)
      requires |branch| <= Num(tip) && branch == Descend(tip, |branch|) && Back(tip, |branch|) == head
      modifies this`state, this`head, this`undo, this`log, fork`items, fork`maxSize
      ensures fork.Valid() && Appended(v, old(log), log)
      ensures !stopped ==> ChainOk()
      ensures var t := Attempt(apply, lib, v, floor, |old(log)|, old(state), tip, |branch|);
              && done == t.done && stopped == t.stuck && |log| == t.logged && Looks(v, t.floor)
              && (!stopped ==> head == Back(tip, |branch| - done) && Base() == Max(old(Base()), t.level))
    {
      hide Descend, Attempt, Trial, Settle, Left, Pruned, Back, Num, Max, Then, Replay, LibsLogged, Appended;
      hide ChainDatabase.StateOk, ChainDatabase.LogLong, ForkDatabase.Valid;
      ghost var total := Attempt(apply, lib, v, floor, |log|, state, tip, |branch|);
      AttemptNone(apply, lib, v, tip);
      done, stopped := 0, false;
      ghost var trace := Trace(0, 0, floor, |log|, false);
      ghost var base := Base();
      ThenFirst(base, floor, |log|, total);
      var n: nat := |branch|;
      AppendedNothing(v, log);
      while n > 0
        invariant n + done == |branch| && ChainOk() && |undo| <= Num(head) && head == Back(tip, n)
        invariant trace.done == done && !trace.stuck && trace.logged == |log| && Looks(v, trace.floor)
        invariant Then(trace, Attempt(apply, lib, v, trace.floor, trace.logged, state, tip, n)) == total
        invariant Base() == Max(base, trace.level)
        invariant Appended(v, old(log), log)
      {
        BackStep(tip, n - 1);
        AttemptStep(apply, lib, v, state, tip, n, trace);
        ghost var t := Trial(apply, lib, v, trace.floor, trace.logged, state, branch[n - 1]);
        ghost var log0 := log;
        var r := ApplyBlock(branch[n - 1], v, trace.floor);
        AppendedTwice(v, old(log), log0, log);
        ThenAdds(base, trace, t);
        trace := Then(trace, t);
        if r != Accepted {
          stopped := r == Stopped;
          return;
        }
        n, done := n - 1, done + 1;
      }
      ThenNothing(trace);
    }

    /** A block can be fetched by its id: from the fork database, or from the log. */
    predicate Fetchable(b: BlockId)
      reads this, fork
    {
      InStore(fork.items, log, b)
    }

    /** No further block can be popped: the head cannot be fetched, or the fork database's head has lost its pointer. */
    ghost predicate Blocked()
      reads this, fork
    {
      !Fetchable(head) || fork.at.None? || fork.at.value.Loose? || fork.at.value.prev !in fork.Live()
    }

    /** Undoes the head block, if it can be fetched and the fork database's head can be lowered with it. */
    method PopOne() returns (ok: bool)
      requires ChainOk() && fork.at.Some?
      modifies this`state, this`head, this`undo, fork`at
      ensures ChainOk() && Base() == old(Base()) && fork.Live() <= old(fork.Live())
      ensures ok <==>
        InStore(fork.items, log, old(head)) && old(fork.at).value.Linked? && old(fork.at).value.prev in old(fork.Live())
      ensures fork.at == if ok then Some(old(fork.at).value.prev) else old(fork.at)
      ensures if ok && old(undo) != [] then head == Back(old(head), 1) && |undo| == |old(undo)| - 1
              else head == old(head) && undo == old(undo) && state == old(state)
    {
      hide Back, Num, Replay, LibsLogged, InStore, Id, ChainDatabase.UndoOk, ChainDatabase.Behaved, ForkDatabase.Valid;
      if !Fetchable(head) {
        return false;
      }
      ok := fork.PopBlock();
      if ok {
        ghost var before := head;
        Undo();
        BackIsAncestor(before, if head == before then 0 else 1);
        LibsOfAncestor(apply, lib, genesis, head, before, |log|, |log|);
      }
    }

    /**
     Undoes blocks until the head is the given one.  Each has to be fetched first, and lowers the fork database's
     head as well; a session that is gone cannot be undone.
     */
    method PopTo(target: BlockId, ghost steps: nat) returns (ok: bool, ghost pops: nat)
      requires ChainOk() && fork.at.Some? && steps <= Num(head) && target == Back(head, steps)
      modifies this`state, this`head, this`undo, fork`at
      ensures ChainOk() && Base() == old(Base()) && fork.Live() <= old(fork.Live())
      ensures CanFollow(old(fork.Live()), old(fork.at).value, pops) && fork.at == Some(Up(old(fork.at).value, pops))
      ensures head == Back(old(head), Min(pops, |old(undo)|))
      ensures ok ==> head == target && pops == steps
      ensures !ok ==> Blocked()
      ensures !ok ==> !InStore(fork.items, log, head) || !CanFollow(old(fork.Live()), old(fork.at).value, pops + 1)
      ensures ok <==> steps == 0 || (&& steps <= |old(undo)| && CanFollow(old(fork.Live()), old(fork.at).value, steps)
                                     && AllStored(fork.items, log, old(head), steps))
      ensures old(undo) == [] ==> head == old(head) && state == old(state)
    {
      hide Back, Num, Up, Depth, CanFollow, InStore, Id, ForkDatabase.Valid;
      hide ChainDatabase.StateOk, ChainDatabase.LogLong;
      pops := 0;
      ghost var undone: nat := 0;
      ghost var h, top, live := head, fork.at.value, fork.Live();
      FollowNothing(live, top);
      while head != target
        invariant ChainOk() && fork.at.Some? && Base() == old(Base()) && fork.Live() <= live
        invariant undone <= steps && undone == |old(undo)| - |undo| && head == Back(h, undone)
        invariant pops == undone || (undo == [] && undone < pops && undone < steps)
        invariant CanFollow(live, top, pops) && pops <= Depth(top) && fork.at.value == Up(top, pops)
        invariant forall i :: 0 <= i < undone ==> InStore(fork.items, log, Back(h, i))
        invariant old(undo) == [] ==> state == old(state)
        decreases Depth(fork.at.value)
      {
        PopStays(fork.items, fork.held, top, pops);
        FollowStep(live, top, pops);
        ok := PopOne();
        if !ok {
          if InStore(fork.items, log, head) {
            ShortFollow(live, top, pops + 1);
          }
          return;
        }
        FollowDepth(live, top, pops + 1);
        BackBack(h, undone, 1);
        pops := pops + 1;
        undone := |old(undo)| - |undo|;
      }
      ok := true;
    }

    /** The rest of a bad branch leaves the fork database. */
    method Forget(blocks: seq<BlockId>)
      requires fork.Valid()
      modifies fork`items
      ensures fork.Valid() && fork.items == old(fork.items) - Elements(blocks)
    {
      for i := 0 to |blocks|
        invariant fork.Valid() && fork.items == old(fork.items) - Elements(blocks[|blocks| - i..])
      {
        var b := blocks[|blocks| - 1 - i];
        assert blocks[|blocks| - 1 - i..] == [b] + blocks[|blocks| - i..];
        fork.Remove(b);
      }
      assert blocks[0..] == blocks;
    }

    /** Blocks of the old branch apply as they did before. */
    method Reapply(ghost h: BlockId, right: seq<BlockId>)
      requires ChainOk() && fork.at.Some? && Replay(apply, genesis, h).Some?
      requires LibsLogged(apply, lib, genesis, h, |log|)
      requires |right| <= Num(h) && right == Descend(h, |right|) && Back(h, |right|) == head
      modifies this`state, this`head, this`undo, this`log, fork`items, fork`maxSize
      ensures ChainOk() && log == old(log) && head == h && Shrunk(old(fork.items).Keys, fork.items.Keys, {})
      ensures Base() >= old(Base())
    {
      hide Back, Num, Descend, CanFollow, Attempt, Left, Replay, LibsLogged, Shrunk;
      hide ChainDatabase.UndoOk, ChainDatabase.Behaved;
      ghost var v := View(fork.items, fork.held, fork.at.value);
      LeftAll(fork.items);
      AttemptReplays(apply, lib, genesis, v, 0, |log|, state, h, |right|);
      ghost var t := Attempt(apply, lib, v, 0, |log|, state, h, |right|);
      var _, _ := ApplyBranch(h, right, v, 0);
      PrunedShrinks(v.index, 0, t.floor);
    }

    /**
     Goes back to the old head, whose item is `first`, after `done` blocks of a bad branch.  Nothing new reaches the
     log.
     */
    method Restore(ghost h: BlockId, first: Item, rest: seq<BlockId>, right: seq<BlockId>, ghost done: nat)
      returns (r: Outcome)
      requires ChainOk() && Replay(apply, genesis, h).Some? && LibsLogged(apply, lib, genesis, h, |log|)
      requires 0 < |right| <= Num(h) && right == Descend(h, |right|) && Id(first) == h && first in fork.held
      requires done <= Num(head) && Back(head, done) == Back(h, |right|)
      modifies this`state, this`head, this`undo, this`log, fork`items, fork`maxSize, fork`at
      ensures ChainOk() && log == old(log) && Base() >= old(Base())
      ensures var items := old(fork.items) - Elements(rest);
              var back := && done <= |old(undo)| && CanFollow(items.Values + fork.held + {first}, first, done)
                          && AllStored(items, log, old(head), done);
              r == if done == 0 || back then Refused else Lost
      ensures r == Refused ==> head == h
      ensures r == Lost ==>
        && fork.items == old(fork.items) - Elements(rest)
        && Blocked() && Base() == old(Base()) && IsAncestor(head, old(head)) && fork.maxSize == old(fork.maxSize)
        && OnTrail(fork.at, first)
      ensures Shrunk(old(fork.items).Keys, fork.items.Keys, Elements(rest))
    {
      hide Back, Num, Descend, CanFollow, Attempt, Left, Replay, LibsLogged, Appended, Shrunk, Up, Depth;
      hide InStore, AllStored, IsAncestor, Elements, ChainDatabase.UndoOk, ChainDatabase.Behaved, ChainDatabase.LogLong;
      hide ChainDatabase.Blocked, ForkDatabase.Valid;
      ghost var before, h0 := fork.items.Keys, head;
      Forget(rest);
      RemovedShrinks(old(fork.items), Elements(rest));
      fork.SetHead(first);
      BackStep(h, |right| - 1);
      var ok, pops := PopTo(right[|right| - 1].previous, done);
      FollowDepth(fork.items.Values + fork.held + {first}, first, pops);
      BackIsAncestor(h0, Min(pops, |old(undo)|));
      if !ok {
        return Lost;
      }
      ghost var index := fork.items.Keys;
      Reapply(h, right);
      ShrunkTwice(before, index, fork.items.Keys, Elements(rest), {});
      assert Elements(rest) + {} == Elements(rest);
      r := Refused;
    }

    /** Where a failed switch leaves the chain if it cannot be restored. */
    ghost predicate Stranded(w: View, t: Trace, h: BlockId, tip: BlockId, n: nat)
      requires h in w.items && t.done <= n <= Num(tip)
      reads this, fork
    {
      && fork.items == Left(w.items, t.floor) - Untried(tip, n - t.done)
      && IsAncestor(head, Back(tip, n - t.done)) && Blocked() && OnTrail(fork.at, w.items[h])
    }

    /** A block of the new branch has failed, after `done` that were applied. */
    method FailBranch(
      ghost h: BlockId, ghost tip: BlockId, first: Item, left: seq<BlockId>, right: seq<BlockId>, ghost w: View,
      ghost t: Trace, done: nat, ghost base: nat) returns (r: Outcome)
      requires ChainOk() && Replay(apply, genesis, h).Some? && LibsLogged(apply, lib, genesis, h, |log|)
      requires 0 < |left| && 0 < |right| && InSwitch(w, h, tip, |left|, |right|) && Looks(w, t.floor)
      requires t.done == done < |left| <= Num(tip) && |right| <= Num(h) && !t.stuck && first == w.items[h]
      requires left == Descend(tip, |left|) && right == Descend(h, |right|)
      requires head == Back(tip, |left| - done) && Base() == Max(base, t.level) && base <= Num(h) - |right|
      modifies this`state, this`head, this`undo, this`log, fork`items, fork`maxSize, fork`at
      ensures ChainOk() && log == old(log) && r == TrialOutcome(t, w, h, |left|, |right|) && Base() >= old(Base())
      ensures Shrunk(w.index, fork.items.Keys, Untried(tip, |left| - done))
      ensures r == Lost ==> Stranded(w, t, h, tip, |left|) && Base() == old(Base())
      ensures r != Switched && r != Stuck && (r == Refused ==> head == h)
    {
      hide Back, Num, Descend, CanFollow, Left, Pruned, Replay, LibsLogged, Shrunk, Untried, IsAncestor, OwnHeld,
        InSwitch;
      hide InStore, AllStored, Elements, Living, Depth, OnTrail, TrialOutcome;
      hide ChainDatabase.UndoOk, ChainDatabase.Behaved, ChainDatabase.Blocked, ForkDatabase.Valid;
      SwitchNumbers(w, h, tip, |left|, |right|);
      LeftShrinks(w.items, t.floor);
      UntriedAre(tip, left, |left| - done);
      BackBack(tip, |left| - done, done);
      ghost var rest := Untried(tip, |left| - done);
      RestoreDecides(w, t, h, tip, |left|, |right|, base, |undo|, log);
      ghost var index := fork.items.Keys;
      r := Restore(h, first, left[..|left| - done], right, done);
      ShrunkTwice(w.index, index, fork.items.Keys, {}, rest);
      assert {} + rest == rest;
    }

    /** Applies the new branch where the two part, and goes back if a block of it fails. */
    method TryBranch(
      ghost h: BlockId, ghost tip: BlockId, first: Item, left: seq<BlockId>, right: seq<BlockId>, ghost w: View)
      returns (r: Outcome)
      requires ChainOk() && Looks(w, 0) && Replay(apply, genesis, h).Some? && LibsLogged(apply, lib, genesis, h, |log|)
      requires 0 < |left| && 0 < |right| && InSwitch(w, h, tip, |left|, |right|) && first == w.items[h]
      requires |left| <= Num(tip) && left == Descend(tip, |left|) && Back(tip, |left|) == head
      requires |right| <= Num(h) && right == Descend(h, |right|) && Back(h, |right|) == head
      modifies this`state, this`head, this`undo, this`log, fork`items, fork`maxSize, fork`at
      ensures fork.Valid() && Appended(w, old(log), log) && (r != Stuck ==> ChainOk() && Base() >= old(Base()))
      ensures var t := Attempt(apply, lib, w, 0, |old(log)|, old(state), tip, |left|);
              && r == TrialOutcome(t, w, h, |left|, |right|) && |log| == t.logged
              && (r != Stuck ==> Shrunk(w.index, fork.items.Keys, Untried(tip, |left| - t.done)))
              && (r == Lost ==> Stranded(w, t, h, tip, |left|) && Base() == Max(old(Base()), t.level))
      ensures r == Switched ==> head == tip
      ensures r == Refused ==> head == h
    {
      hide Back, Num, Descend, CanFollow, Attempt, Left, Pruned, Replay, LibsLogged, Appended, Shrunk, Untried,
        IsAncestor, InSwitch;
      hide ChainDatabase.UndoOk, ChainDatabase.Behaved, ChainDatabase.Stranded;
      ghost var base := Base();
      ghost var t := Attempt(apply, lib, w, 0, |log|, state, tip, |left|);
      ghost var logged := |log|;
      var done, stopped := ApplyBranch(tip, left, w, 0);
      if stopped {
        return Stuck;
      }
      if done == |left| {
        LeftShrinks(w.items, t.floor);
        ShrunkMore(w.index, fork.items.Keys, Untried(tip, 0));
        return Switched;
      }
      LibsStay(apply, lib, genesis, h, logged, |log|);
      r := FailBranch(h, tip, first, left, right, w, t, done, base);
    }

    /** The same, and what it means for the log. */
    method TryAndLog(
      ghost h: BlockId, ghost tip: BlockId, first: Item, left: seq<BlockId>, right: seq<BlockId>, ghost w: View)
      returns (r: Outcome)
      requires ChainOk() && Looks(w, 0) && Replay(apply, genesis, h).Some? && LibsLogged(apply, lib, genesis, h, |log|)
      requires 0 < |left| && 0 < |right| && InSwitch(w, h, tip, |left|, |right|) && first == w.items[h]
      requires |left| <= Num(tip) && left == Descend(tip, |left|) && Back(tip, |left|) == head
      requires |right| <= Num(h) && right == Descend(h, |right|) && Back(h, |right|) == head
      modifies this`state, this`head, this`undo, this`log, fork`items, fork`maxSize, fork`at
      ensures fork.Valid() && Appended(w, old(log), log) && (r != Stuck ==> ChainOk() && Base() >= old(Base()))
      ensures var t := Attempt(apply, lib, w, 0, |old(log)|, old(state), tip, |left|);
              && r == TrialOutcome(t, w, h, |left|, |right|) && |log| == t.logged
              && (r == Lost ==> Stranded(w, t, h, tip, |left|) && Base() == Max(old(Base()), t.level))
      ensures r == Switched ==> head == tip
      ensures r == Refused ==> head == h
      ensures r != Stuck && old(log) == Chain(h, |old(log)|) && Tracked(w.index, h, |old(log)|) ==> LogOk()
      ensures forall b :: r != Stuck && Spoils(w.index, h, old(log), b) ==>
        (LogOk() <==> Mended(h, old(log), fork.items.Keys, head, log, b))
    {
      hide Back, Num, Descend, CanFollow, Attempt, Left, Pruned, Replay, LibsLogged, Shrunk, Untried, TrialOutcome;
      hide Chain, Tracked, IsAncestor, InSwitch, Appended, Spoils, Mended, EndsAt, Id, ForkDatabase.Valid;
      hide ChainDatabase.UndoOk, ChainDatabase.Behaved, ChainDatabase.Stranded;
      ghost var t := Attempt(apply, lib, w, 0, |log|, state, tip, |left|);
      SwitchNumbers(w, h, tip, |left|, |right|);
      r := TryBranch(h, tip, first, left, right, w);
      if r != Stuck {
        if r == Lost {
          StrandedAt(w, t, h, tip, |left|);
        }
        SwitchEnds(apply, lib, genesis, w, t, h, tip, |left|, |right|, head, |old(log)|, |log|, r);
        TriedLogs(w, h, tip, |left|, |right|, t.done, old(log));
      }
    }

    /** What having tried a branch means for the log. */
    lemma TriedLogs(w: View, h: BlockId, tip: BlockId, n: nat, m: nat, done: nat, before: seq<BlockId>)
      requires InSwitch(w, h, tip, n, m) && m <= Num(h) && |before| <= Num(h) - m && |log| <= Num(head)
      requires done <= n <= Num(tip) && 0 < n && EndsAt(h, tip, n, m, done, head, |log|)
      requires Appended(w, before, log) && Shrunk(w.index, fork.items.Keys, Untried(tip, n - done))
      ensures before == Chain(h, |before|) && Tracked(w.index, h, |before|) ==> LogOk()
      ensures forall b :: Spoils(w.index, h, before, b) ==>
        (LogOk() <==> Mended(h, before, fork.items.Keys, head, log, b))
    {
      hide Chain, Tracked, InSwitch, Appended, Spoils, Mended, EndsAt, Shrunk, Untried, Num;
      if before == Chain(h, |before|) && Tracked(w.index, h, |before|) {
        SwitchIsSwitching(w, h, tip, n, m, |before|);
        LogConcludes(w, h, tip, n, m, done, head, before, log, fork.items.Keys);
      }
      forall b | Spoils(w.index, h, before, b)
        ensures LogOk() <==> Mended(h, before, fork.items.Keys, head, log, b)
      {
        SwitchForeign(w, h, tip, n, m, done, head, before, log, fork.items.Keys, b);
      }
    }

    lemma StrandedAt(w: View, t: Trace, h: BlockId, tip: BlockId, n: nat)
      requires h in w.items && t.done <= n <= Num(tip) && Stranded(w, t, h, tip, n)
      ensures IsAncestor(head, Back(tip, n - t.done))
    {
    }

    /** Pops the old branch, and tries the new one if that leads to where they part. */
    method SwitchHeld(ghost v: View, first: Item, left: seq<BlockId>, right: seq<BlockId>) returns (r: Outcome)
      requires ChainOk() && Keyed(v.items) && v.held == {} && CanSwitch(v, head, |left|, |right|)
      requires fork.items == v.items && fork.at == Some(v.at) && fork.held == Branches(v, head, |left|, |right|)
      requires |left| <= Num(v.head) && left == Descend(v.head, |left|) && first == v.items[head]
      requires |right| <= Num(head) && right == Descend(head, |right|)
      modifies this`state, this`head, this`undo, this`log, fork`items, fork`maxSize, fork`at
      ensures fork.Valid() && old(log) <= log && (r != Stuck ==> ChainOk() && Base() >= old(Base()))
      ensures Switches(v, old(head), |left|, |right|, |old(undo)|, |old(log)|, old(Base()), r)
      ensures r in {Switched, Refused, Lost, Stuck} && (r == Switched ==> head == v.head)
      ensures r == Lost ==> |old(undo)| > 0
      ensures r == Refused ==> head == old(head) && state == old(state)
      ensures r != Stuck && old(LogOk()) ==> LogOk()
      ensures forall b :: r != Stuck && Spoils(v.index, old(head), old(log), b) ==>
        (LogOk() <==> Mended(old(head), old(log), fork.items.Keys, head, log, b))
    {
      hide Back, Num, Descend, Parts, CanFollow, Attempt, TrialOutcome, Left, Living, Replay, LibsLogged, Branches,
        Trying;
      hide Chain, Tracked, IsAncestor, InSwitch, Appended, Spoils, Mended, Keyed, Up, Depth, Id;
      hide CanSwitch, InStore, AllStored, SwitchOutcome, ChainDatabase.UndoOk, ChainDatabase.Behaved;
      hide ChainDatabase.Stranded, ChainDatabase.Switches;
      hide ChainDatabase.Blocked, ForkDatabase.Valid;
      SwitchFacts(v, head, |left|, |right|);
      BackStep(head, |right| - 1);
      ReplayBack(apply, genesis, head, |right|);
      var h := head;
      KnownStored(v.items, log, head, |right|);
      var ok, pops := PopTo(right[|right| - 1].previous, |right|);
      if !ok {
        r := if head == h then Refused else Lost;
        BlockedPops(v, h, head, |left|, |right|, |old(undo)|, pops, log);
        BackIsAncestor(h, Min(pops, |old(undo)|));
        PoppedLogs(h);
        SwitchesPopped(v, h, |left|, |right|, |old(undo)|, |old(log)|, old(Base()), r);
        return;
      }
      ghost var w := Trying(v, h, |left|, |right|);
      TryingIs(v, h, |left|, |right|);
      LeftAll(v.items);
      ghost var t := Attempt(apply, lib, w, 0, |log|, state, v.head, |left|);
      r := TryAndLog(h, v.head, first, left, right, w);
      GrowsOnly(w, old(log), log);
      SwitchesTried(v, h, |left|, |right|, |old(undo)|, |old(log)|, old(Base()), r, w, t);
    }

    lemma SwitchesPopped(
      v: View, h: BlockId, n: nat, m: nat, sessions: nat, logged: nat, base: nat, r: Outcome)
      requires CanSwitch(v, h, n, m) && m <= Num(h) && Replay(apply, genesis, Back(h, m)).Some?
      requires r == if head == h then Refused else Lost
      requires if CanFollow(Living(v, 0), v.at, m) then sessions < m && (head == h <==> sessions == 0) else head == h
      ensures Switches(v, h, n, m, sessions, logged, base, r)
    {
      hide Replay, Back, Num, CanFollow, Living, Attempt, Trying, ChainDatabase.Stranded;
    }

    lemma SwitchesTried(
      v: View, h: BlockId, n: nat, m: nat, sessions: nat, logged: nat, base: nat, r: Outcome, w: View, t: Trace)
      requires CanSwitch(v, h, n, m) && 0 < m <= Num(h) && n <= Num(v.head) && Replay(apply, genesis, Back(h, m)).Some?
      requires CanFollow(Living(v, 0), v.at, m) && m <= sessions && m <= Depth(v.at) && w == Trying(v, h, n, m)
      requires t == Attempt(apply, lib, w, 0, logged, Replay(apply, genesis, Back(h, m)).value, v.head, n)
      requires h in w.items && r == TrialOutcome(t, w, h, n, m)
      requires |log| == t.logged && (r == Switched ==> head == v.head)
      requires r == Lost ==> |undo| <= Num(head) && Stranded(w, t, h, v.head, n) && Base() == Max(base, t.level)
      ensures Switches(v, h, n, m, sessions, logged, base, r)
    {
      hide Replay, Back, Num, CanFollow, Living, Attempt, Trying, TrialOutcome, ChainDatabase.Stranded;
    }

    /** What going back means for the log. */
    lemma PoppedLogs(h: BlockId)
      requires IsAncestor(head, h) && |log| <= Num(head) && |log| <= Num(h)
      ensures log == Chain(h, |log|) && Tracked(fork.items.Keys, h, |log|) ==> LogOk()
      ensures forall b :: Spoils(fork.items.Keys, h, log, b) ==>
        (LogOk() <==> Mended(h, log, fork.items.Keys, head, log, b))
    {
      hide Chain, Tracked, IsAncestor, Spoils, Mended, Num;
      if log == Chain(h, |log|) && Tracked(fork.items.Keys, h, |log|) {
        PoppedLog(fork.items.Keys, h, head, log);
      }
      forall b | Spoils(fork.items.Keys, h, log, b) ensures LogOk() <==> Mended(h, log, fork.items.Keys, head, log, b) {
        ForeignPopped(fork.items.Keys, h, head, log, b);
      }
    }

    /** How a switch ends, in terms of the fork database and the chain before it. */
    ghost predicate Switches(
      v: View, h: BlockId, n: nat, m: nat, sessions: nat, logged: nat, base: nat, r: Outcome)
      requires CanSwitch(v, h, n, m)
      reads this, fork
    {
      var point := Replay(apply, genesis, Back(h, m));
      && point.Some?
      && r == SwitchOutcome(apply, lib, point.value, v, sessions, logged, h, n, m)
      && (r == Switched ==> head == v.head)
      && (CanFollow(Living(v, 0), v.at, m) && m <= sessions ==>
            var w := Trying(v, h, n, m);
            var t := Attempt(apply, lib, w, 0, logged, point.value, v.head, n);
            && |log| == t.logged
            && (r == Lost ==> |undo| <= Num(head) && Stranded(w, t, h, v.head, n) && Base() == Max(base, t.level)))
    }

    /** Leaves the head's branch for a higher one, and goes back if a block of the new branch fails. */
    method SwitchFork(ghost v: View, left: seq<Item>, right: seq<Item>) returns (r: Outcome)
      requires ChainOk() && fork.held == {} && fork.at.Some? && v == View(fork.items, fork.held, fork.at.value)
      requires CanSwitch(v, head, |left|, |right|)
      requires left == Trail(v.items[v.head], |left|) && right == Trail(v.items[head], |right|)
      modifies this`state, this`head, this`undo, this`log, fork`items, fork`held, fork`maxSize, fork`at
      ensures fork.Valid() && fork.held == {} && old(log) <= log && (r != Stuck ==> ChainOk() && Base() >= old(Base()))
      ensures Switches(v, old(head), |left|, |right|, |old(undo)|, |old(log)|, old(Base()), r)
      ensures r in {Switched, Refused, Lost, Stuck} && (r == Switched ==> head == v.head)
      ensures r == Lost ==> |old(undo)| > 0
      ensures r == Refused ==> head == old(head) && state == old(state)
      ensures old(LogOk()) && r != Stuck ==> LogOk()
      ensures forall b :: r != Stuck && Spoils(v.index, old(head), old(log), b) ==>
        (LogOk() <==> Mended(old(head), old(log), fork.items.Keys, head, log, b))
    {
      hide Back, Num, Descend, CanFollow, SwitchOutcome, Left, Replay, LibsLogged, Attempt, Trying, Up, Depth, Ids;
      hide Chain, Tracked, IsAncestor, Branches, Spoils, Mended, Parts, Untried, OnTrail, CanSwitch, Trail, Keyed, Id;
      hide ChainDatabase.StateOk, ChainDatabase.LogLong, ChainDatabase.Switches, ForkDatabase.Valid, Living;
      ForkKeyed(fork);
      LivingIs(v);
      SwitchFacts(v, head, |left|, |right|);
      TrailIds(v.items[v.head], |left|);
      TrailIds(v.items[head], |right|);
      BranchesAre(v, head, left, right);
      fork.Hold((set i | i in left) + (set i | i in right));
      r := SwitchHeld(v, right[0], Ids(left), Ids(right));
      LetGo(v, old(head), |left|, |right|, |old(undo)|, |old(log)|, old(Base()), r);
    }

    /** The branches are no longer held; a pointer that is lost with them does not change how the switch has ended. */
    method LetGo(
      ghost v: View, ghost h: BlockId, ghost n: nat, ghost m: nat, ghost sessions: nat, ghost logged: nat,
      ghost base: nat, ghost r: Outcome)
      requires fork.Valid() && CanSwitch(v, h, n, m) && Switches(v, h, n, m, sessions, logged, base, r)
      modifies fork`held
      ensures fork.Valid() && fork.held == {} && Switches(v, h, n, m, sessions, logged, base, r)
    {
      hide Back, Num, CanFollow, SwitchOutcome, Left, Replay, Attempt, Trying, IsAncestor, Untried, OnTrail, InStore,
        Up, Depth;
      fork.Release();
    }

    /** A block on top of the head; it leaves the fork database again if it fails. */
    method Extend(b: BlockId) returns (r: Outcome)
      requires ChainOk() && fork.held == {} && b.Block? && b in fork.items && fork.at.Some?
      requires fork.Head().previous == head
      modifies this`state, this`head, this`undo, this`log, fork`items, fork`maxSize
      ensures fork.Valid() && old(log) <= log && (r != Stuck ==> ChainOk() && Base() >= old(Base()))
      ensures var v := old(View(fork.items, fork.held, fork.at.value));
              var t := Trial(apply, lib, v, 0, |old(log)|, old(state), b);
              && (r == Extended <==> b.previous == old(head) && t.done == 1)
              && (r == Stuck <==> b.previous == old(head) && t.stuck)
              && (r == Extended ==>
                Looks(v, t.floor) && |log| == t.logged && Base() == Max(old(Base()), t.level)
                  && Appended(v, old(log), log))
      ensures r in {Extended, Refused, Stuck}
      ensures b.previous != old(head) || apply(old(state), b) == Failed(None) ==>
        && r == Refused && log == old(log) && undo == old(undo)
        && fork.items == old(fork.items) - {b} && fork.maxSize == old(fork.maxSize)
      ensures r == Extended ==>
        head == b && state == apply(old(state), b).state && fork.maxSize == Num(b) - lib(state) + 1
      ensures r == Refused ==> head == old(head) && state == old(state)
      ensures r == Refused || r == Stuck ==> b !in fork.items
      ensures old(LogOk()) && r != Stuck ==>
        (LogOk() <==> !Misplaced(apply, lib, old(state), old(fork.items).Keys, old(head), |old(log)|, fork.Head(), b))
      ensures Spoils(old(fork.items).Keys, old(head), old(log), b) ==>
        (LogOk() && Mended(old(head), old(log), fork.items.Keys, head, log, b))
    {
      hide Back, Num, Descend, CanFollow, Trial, Left, Pruned, Replay, LibsLogged, Chain, Tracked, IsAncestor,
        Misplaced, Appended;
      hide ChainDatabase.UndoOk, ChainDatabase.Behaved;
      ghost var v := View(fork.items, fork.held, fork.at.value);
      ghost var t := Trial(apply, lib, v, 0, |log|, state, b);
      ghost var right := LogOk();
      LeftAll(fork.items);
      var fate := ApplyBlock(b, v, 0);
      GrowsOnly(v, old(log), log);
      match fate {
        case Accepted =>
          r := Extended;
          if right {
            ExtendedLog(apply, lib, old(state), v, old(head), b, t, old(log), log);
          }
        case Rejected =>
          ghost var index := fork.items.Keys;
          fork.Remove(b);
          r := Refused;
          assert fork.items.Keys == index - {b};
          if right {
            RefusedLog(apply, lib, old(state), v, old(head), b, t, old(log), log, index, fork.items.Keys);
          }
        case Stopped =>
          fork.Remove(b);
          r := Stuck;
      }
    }

    lemma LogWithin()
      requires ChainOk()
      ensures |log| <= Num(head)
    {
    }

    /** The chain as it stands, with the fork database looking like `v`. */
    ghost function Now(v: View): Moment<S>
      requires |undo| <= Num(head)
      reads this, fork
    {
      Moment(v, state, head, |undo|, log, Base(), fork.maxSize)
    }

    /**
     How a push ends once the fork database has taken the block.  On top of the head it is applied, or leaves the fork
     database again; if the highest branch is elsewhere and higher there is a switch, or an error when the branches
     cannot be fetched; otherwise nothing else happens.
     */
    ghost predicate Pushed(p: Moment<S>, b: BlockId, r: Outcome)
      requires b.Block?
      reads this, fork
    {
      if p.v.head.Block? && p.v.head.previous == p.head then
        var t := Trial(apply, lib, p.v, 0, |p.log|, p.state, b);
        && r == (if b.previous == p.head && t.done == 1 then Extended
                 else if b.previous == p.head && t.stuck then Stuck else Refused)
        && (r == Extended ==>
              && head == b && apply(p.state, b).Done? && state == apply(p.state, b).state && |undo| <= Num(head)
              && Looks(p.v, t.floor) && |log| == t.logged && Appended(p.v, p.log, log)
              && Base() == Max(p.base, t.level) && fork.maxSize == Num(b) - lib(state) + 1)
        && (r != Extended ==> b !in fork.items)
        && (r == Refused ==> head == p.head && state == p.state)
        && (b.previous != p.head || apply(p.state, b) == Failed(None) ==>
              r == Refused && Stays(p, p.v.items - {b}))
      else if Num(p.v.head) <= Num(p.head) then
        r == Ignored && Stays(p, p.v.items)
      else if exists n: nat, m: nat :: CanSwitch(p.v, p.head, n, m) then
        forall n: nat, m: nat :: CanSwitch(p.v, p.head, n, m) ==>
          Switches(p.v, p.head, n, m, p.sessions, |p.log|, p.base, r)
      else
        r == Refused && Stays(p, p.v.items)
    }

    /** Nothing has happened to chain and log, and the fork database has the given items. */
    ghost predicate Stays(p: Moment<S>, items: map<BlockId, Item>)
      reads this, fork
    {
      && head == p.head && state == p.state && |undo| == p.sessions && log == p.log
      && fork.items == items && fork.at == Some(p.v.at) && fork.maxSize == p.size
    }

    /** What the chain does once the fork database has taken a block and says which branch is highest. */
    method Advance(b: BlockId) returns (r: Outcome)
      requires ChainOk() && fork.held == {} && b.Block? && b in fork.items && fork.at.Some?
      modifies this`state, this`head, this`undo, this`log, fork`items, fork`held, fork`maxSize, fork`at
      ensures fork.Valid() && fork.held == {} && old(log) <= log && (r != Stuck ==> ChainOk() && Base() >= old(Base()))
      ensures Pushed(old(Now(View(fork.items, fork.held, fork.at.value))), b, r)
      ensures r == Extended ==>
        b.previous == old(head) && head == b && apply(old(state), b).Done? && state == apply(old(state), b).state
      ensures r == Ignored || r == Refused ==> head == old(head) && state == old(state)
      ensures r == Switched ==> head == old(fork.Head()) && Num(head) > Num(old(head))
      ensures r == Lost ==> |old(undo)| > 0
      ensures old(LogOk()) && r != Stuck ==>
        (LogOk() <==>
          !Misplaced(apply, lib, old(state), old(fork.items).Keys, old(head), |old(log)|, old(fork.Head()), b))
      ensures r != Stuck && Spoils(old(fork.items).Keys, old(head), old(log), b) ==>
        (LogOk() <==> Mended(old(head), old(log), fork.items.Keys, head, log, b))
    {
      hide Back, Parts, CanFollow, Replay, Attempt, SwitchOutcome, Trial, LibsLogged, Chain, Tracked, Left, Living,
        Trail;
      hide Spoils, Mended, Num, IsAncestor, Appended, Up, Depth, Id;
      hide Misplaced, ChainDatabase.StateOk, ChainDatabase.LogLong, ChainDatabase.Switches, ForkDatabase.Valid;
      var tip := fork.Head();
      ghost var v := View(fork.items, fork.held, fork.at.value);
      ghost var h := head;
      if tip.previous == head {
        r := Extend(b);
        return;
      }
      LogWithin();
      if Spoils(v.index, h, log, b) {
        SelfAncestor(h);
        ForeignPopped(v.index, h, h, log, b);
      }
      NotMisplaced(apply, lib, state, v.index, head, |log|, tip, b);
      if Num(tip) <= Num(head) {
        return Ignored;
      }
      LeftAll(fork.items);
      LivingIs(v);
      var ok, left, right := fork.FetchBranchFrom(tip, head);
      if !ok {
        return Refused;
      }
      assert CanSwitch(v, head, |left|, |right|);
      forall n: nat, m: nat | CanSwitch(v, head, n, m) ensures n == |left| && m == |right| {
        PartsOnce(tip, head, n, m, |left|, |right|);
      }
      HigherThanPrevious(tip);
      r := SwitchFork(v, left, right);
    }

    /** The fork database once it has taken the block. */
    ghost function Next(b: BlockId): View
      requires b.Block?
      reads this, fork
    {
      View(fork.NextItems(b), fork.held, fork.NextAt(b))
    }

    /** The head of the fork database once it has taken the block. */
    ghost function Tip(b: BlockId): BlockId
      reads this, fork
    {
      if Num(b) > Num(fork.Head()) then b else fork.Head()
    }

    /** A first block arrives although some of the chain that is still to be logged has been forgotten. */
    ghost predicate Foreign(b: BlockId)
      requires b.Block?
      reads this, fork
    {
      b.previous == Zero && exists n: nat :: Missing(fork.items.Keys + {b}, head, |log|, n)
    }

    ghost predicate Harms(b: BlockId)
      requires b.Block?
      reads this, fork
    {
      fork.Takes(b) && (Foreign(b) || Misplaced(apply, lib, state, fork.items.Keys + {b}, head, |log|, Tip(b), b))
    }

    /** The highest block so far, unless it claims to be the first, does no harm. */
    lemma {:induction false} HighestIsHarmless(b: BlockId)
      requires b.Block? && b.previous != Zero && Num(b) > Num(fork.Head())
      ensures !Harms(b)
    {
      NextOn(b, Num(b));
    }

    /** A block never lowers the irreversible number of the state it is applied to. */
    ghost predicate Rises()
    {
      forall s, b :: apply(s, b).Done? ==> lib(s) <= lib(apply(s, b).state)
    }

    lemma LibLogged()
      requires StateOk() && |undo| <= Num(head) && LogLong()
      ensures lib(state) <= |log|
    {
      hide Replay, Num, Back;
      assert On(head, Num(head)) == head;
    }

    /** The fork database's head is the chain's, and its index leads down to what is not logged yet. */
    ghost predicate Straight()
      reads this, fork
    {
      if fork.at.None? then head == Zero
      else fork.Head() == head && Leading(fork.items, head, |log|)
    }

    lemma StraightTrial(b: BlockId)
      requires ChainOk() && fork.held == {} && Straight() && b.Block? && b.previous == head && b !in fork.items
      requires apply(state, b).Done?
      ensures var v := Next(b);
              var t := Trial(apply, lib, v, 0, |log|, state, b);
              && v.head == b && t.done == 1 && Leading(Left(v.items, t.floor), b, t.logged)
      ensures fork.Takes(b)
    {
      hide Leading, Trial, Left, Num, Replay, LibsLogged, ChainDatabase.UndoOk;
      HigherThanPrevious(b);
      ForkKeyed(fork);
      LeadingHead(fork.items, head, |log|);
      LeadingTrial(apply, lib, fork.items, head, |log|, state, b, fork.NewItem(b));
    }

    /**
     A block arrives.  Unless it gets stuck, the state is the replay of the head's chain; unless a switch is lost,
     the head stays or becomes a higher block, and an error leaves it and the state as they were.  The log only
     grows, and so does what cannot be undone; the irreversible number of the state can fall, but only if the head's
     branch is left, and what it was is in the log.  The log is the start of the head's chain, and stays so exactly
     unless the block is misplaced, or a foreign one that stays.
     */
    method PushBlock(b: BlockId) returns (r: Outcome)
      requires ChainOk() && fork.held == {} && b.Block?
      modifies this`state, this`head, this`undo, this`log, fork`items, fork`held, fork`maxSize, fork`at, fork`serial
      ensures fork.Valid() && fork.held == {} && old(log) <= log && (r != Stuck ==> ChainOk() && Base() >= old(Base()))
      ensures old(fork.Takes(b)) ==> Pushed(old(Now(Next(b))), b, r)
      ensures !old(fork.Takes(b)) ==>
        && r == Refused && log == old(log) && undo == old(undo)
        && fork.items == old(fork.items) && fork.at == old(fork.at) && fork.maxSize == old(fork.maxSize)
      ensures && old(fork.Takes(b)) && b.previous == old(head) && Num(b) > Num(old(fork.Head()))
              && apply(old(state), b).Done? && lib(apply(old(state), b).state) <= |old(log)| ==>
        r == Extended && state == apply(old(state), b).state
      ensures old(Straight()) && b.previous == old(head) && b !in old(fork.items) && apply(old(state), b).Done? ==>
        r == Extended && state == apply(old(state), b).state && Straight()
          && fork.items.Keys <= old(fork.items).Keys + {b}
      ensures r == Extended ==> head == b && b.previous == old(head)
      ensures r == Switched ==> head == old(Tip(b)) && Num(head) > Num(old(head))
      ensures r == Ignored || r == Refused ==> head == old(head) && state == old(state)
      ensures r == Lost ==> |old(undo)| > 0
      ensures lib(old(state)) <= |log|
      ensures Rises() && r != Stuck && lib(state) < lib(old(state)) ==> r == Switched || r == Lost
      ensures old(LogOk()) && r != Stuck && !old(Harms(b)) ==> LogOk()
      ensures old(LogOk()) && r != Stuck && old(fork.Takes(b)) && !old(Foreign(b)) && old(Harms(b)) ==> !LogOk()
      ensures old(LogOk()) && r != Stuck && old(fork.Takes(b)) && old(Foreign(b)) ==>
        (LogOk() <==> Mended(old(head), old(log), fork.items.Keys, head, log, b))
    {
      hide Num, Back, CanFollow, Replay, LibsLogged, Chain, Misplaced, Trial, SwitchOutcome, CanSwitch, Left, Living;
      hide Mended, Missing, ChainDatabase.UndoOk, ChainDatabase.Behaved, ChainDatabase.LogLong, ChainDatabase.Switches;
      hide ChainDatabase.Harms, ChainDatabase.Foreign, ChainDatabase.LogOk, ChainDatabase.Rises, Leading;
      ghost var v := Next(b);
      ghost var straight := Straight() && b.previous == head && b !in fork.items && apply(state, b).Done?;
      if straight {
        StraightTrial(b);
      }
      if apply(state, b).Done? && lib(apply(state, b).state) <= |log| {
        SoundTrial(apply, lib, v, |log|, state, b);
      }
      r := Take(b);
    }

    /** The fork database takes the block, and the chain follows it. */
    method Take(b: BlockId) returns (r: Outcome)
      requires ChainOk() && fork.held == {} && b.Block?
      modifies this`state, this`head, this`undo, this`log, fork`items, fork`held, fork`maxSize, fork`at, fork`serial
      ensures fork.Valid() && fork.held == {} && old(log) <= log && (r != Stuck ==> ChainOk() && Base() >= old(Base()))
      ensures old(fork.Takes(b)) ==> Pushed(old(Now(Next(b))), b, r)
      ensures !old(fork.Takes(b)) ==>
        && r == Refused && log == old(log) && undo == old(undo)
        && fork.items == old(fork.items) && fork.at == old(fork.at) && fork.maxSize == old(fork.maxSize)
      ensures r == Extended ==> head == b && b.previous == old(head)
      ensures r == Switched ==> head == old(Tip(b)) && Num(head) > Num(old(head))
      ensures r == Ignored || r == Refused ==> head == old(head) && state == old(state)
      ensures r == Lost ==> |old(undo)| > 0
      ensures lib(old(state)) <= |log|
      ensures Rises() && r != Stuck && lib(state) < lib(old(state)) ==> r == Switched || r == Lost
      ensures old(LogOk()) && r != Stuck && !old(Harms(b)) ==> LogOk()
      ensures old(LogOk()) && r != Stuck && old(fork.Takes(b)) && !old(Foreign(b)) && old(Harms(b)) ==> !LogOk()
      ensures old(LogOk()) && r != Stuck && old(fork.Takes(b)) && old(Foreign(b)) ==>
        (LogOk() <==> Mended(old(head), old(log), fork.items.Keys, head, log, b))
    {
      hide Num, Back, CanFollow, Replay, LibsLogged, Chain, Misplaced, Trial, SwitchOutcome, CanSwitch, Left, Living;
      hide Mended, Missing, ChainDatabase.UndoOk, ChainDatabase.Behaved, ChainDatabase.LogLong, ChainDatabase.Switches;
      hide ChainDatabase.Pushed;
      HigherThanPrevious(b);
      LibLogged();
      ghost var index, right, foreign := fork.items.Keys, LogOk(), Foreign(b);
      ghost var empty := fork.at.None?;
      var ok := fork.PushBlock(b);
      if !ok {
        return Refused;
      }
      assert fork.items.Keys == index + {b};
      if right && foreign {
        ForeignSpoils(index, head, log, b);
      } else if right {
        PushTracked(index, empty, b, head, |log|);
      }
      r := Advance(b);
    }

    /** Blocks that are not known, each on top of the last, and sound to the end. */
    ghost predicate SoundOn(blocks: seq<BlockId>)
      reads this, fork
    {
      && Chained(head, blocks) && (forall b :: b in blocks ==> b !in fork.items)
      && (blocks != [] ==> Replay(apply, genesis, blocks[|blocks| - 1]).Some?)
    }

    lemma SoundNext(c: BlockId, blocks: seq<BlockId>, i: nat)
      requires StateOk() && Chained(c, blocks) && i < |blocks| && head == (if i == 0 then c else blocks[i - 1])
      requires Replay(apply, genesis, blocks[|blocks| - 1]).Some?
      ensures blocks[i].Block? && blocks[i].previous == head && apply(state, blocks[i]).Done?
      ensures forall j :: i < j < |blocks| ==> blocks[j] != blocks[i]
    {
      hide Num, Replay;
      ChainedReplay(apply, genesis, c, blocks, i);
      forall j | i < j < |blocks| ensures blocks[j] != blocks[i] {
        ChainedNum(c, blocks, j);
      }
      assert blocks[i].previous == ([c] + blocks)[i];
    }

    /** The first i of some sound blocks have been applied, and the fork database has followed. */
    ghost predicate Following(c: BlockId, blocks: seq<BlockId>, i: nat)
      reads this, fork
    {
      && i <= |blocks| && Straight() && Chained(c, blocks) && head == (if i == 0 then c else blocks[i - 1])
      && (blocks != [] ==> Replay(apply, genesis, blocks[|blocks| - 1]).Some?)
      && (forall j :: i <= j < |blocks| ==> blocks[j] !in fork.items)
    }

    /** The next block of a sequence. */
    method PushNext(ghost c: BlockId, blocks: seq<BlockId>, i: nat) returns (r: Outcome)
      requires ChainOk() && fork.held == {} && i < |blocks| && blocks[i].Block?
      modifies this`state, this`head, this`undo, this`log, fork`items, fork`held, fork`maxSize, fork`at, fork`serial
      ensures fork.held == {} && old(log) <= log && (r != Stuck ==> ChainOk() && Base() >= old(Base()))
      ensures r == Extended || r == Switched ==> Num(head) > Num(old(head))
      ensures r == Ignored || r == Refused ==> head == old(head) && state == old(state)
      ensures old(LogOk()) && r != Stuck && !old(Harms(blocks[i])) ==> LogOk()
      ensures old(Following(c, blocks, i)) ==> r == Extended && Following(c, blocks, i + 1)
    {
      hide Num, Replay, LibsLogged, Chain, Tracked, ChainDatabase.StateOk, ChainDatabase.LogLong, Mended,
        ChainDatabase.Harms, ChainDatabase.Foreign, ChainDatabase.LogOk, ChainDatabase.Pushed, ChainDatabase.Straight,
        Chained;
      HigherThanPrevious(blocks[i]);
      if Following(c, blocks, i) {
        SoundNext(c, blocks, i);
      }
      r := PushBlock(blocks[i]);
    }

    /**
     Any sequence of blocks, up to one that gets stuck: the state is always the replay of the head's chain, and as
     long as no switch is lost the head never falls; the log and what cannot be undone only grow; as long as no
     block does harm the log is the start of the head's chain.  New sound blocks, each on top of the last, are all
     applied, from a new database or wherever the fork database has followed the chain.
     */
    method PushBlocks(blocks: seq<BlockId>) returns (lost: bool, stuck: bool, ghost harmed: bool)
      requires Valid() && forall b :: b in blocks ==> b.Block?
      modifies this`state, this`head, this`undo, this`log, fork`items, fork`held, fork`maxSize, fork`at, fork`serial
      ensures old(log) <= log && (!stuck ==> ChainOk() && Base() >= old(Base())) && (!stuck && !harmed ==> Valid())
      ensures !stuck && !lost ==>
        Num(head) >= Num(old(head)) && (Num(head) == Num(old(head)) ==> head == old(head) && state == old(state))
      ensures blocks != [] && old(Straight() && SoundOn(blocks)) ==>
        !lost && !stuck && head == blocks[|blocks| - 1] && Straight()
    {
      hide Num, Replay, LibsLogged, Chain, Tracked, ChainDatabase.StateOk, ChainDatabase.LogLong,
        ChainDatabase.Harms, ChainDatabase.Straight, Chained;
      lost, stuck, harmed := false, false, false;
      ghost var c, sound := head, Following(head, blocks, 0);
      for i := 0 to |blocks|
        invariant old(log) <= log && fork.held == {} && !stuck && ChainOk() && (!harmed ==> LogOk())
        invariant |undo| <= Num(head) && Base() >= old(Base())
        invariant !lost ==>
          Num(head) >= Num(old(head)) && (Num(head) == Num(old(head)) ==> head == old(head) && state == old(state))
        invariant sound ==> !lost && Following(c, blocks, i)
      {
        harmed := harmed || Harms(blocks[i]);
        var r := PushNext(c, blocks, i);
        lost := lost || r == Lost;
        if r == Stuck {
          stuck := true;
          return;
        }
      }
    }
  }

  /** Blocks that follow one another on top of c. */
  ghost predicate Chained(c: BlockId, blocks: seq<BlockId>)
  {
    forall i :: 0 <= i < |blocks| ==> blocks[i].Block? && blocks[i].previous == ([c] + blocks)[i]
  }

  lemma {:induction false} ChainedNum(c: BlockId, blocks: seq<BlockId>, i: nat)
    requires Chained(c, blocks) && i < |blocks|
    ensures Num(blocks[i]) == Num(c) + i + 1
    ensures forall j :: 0 <= j < i ==> blocks[j] != blocks[i]
  {
    hide Num;
    HigherThanPrevious(blocks[i]);
    assert blocks[i].previous == ([c] + blocks)[i];
    if i > 0 {
      ChainedNum(c, blocks, i - 1);
      forall j | 0 <= j < i ensures blocks[j] != blocks[i] {
        ChainedNum(c, blocks, j);
      }
    }
  }

  /** If the last of some blocks replays, so does each of them. */
  lemma {:induction false} ChainedReplay<S>(
    apply: (S, BlockId) -> Applied<S>, genesis: S, c: BlockId, blocks: seq<BlockId>, i: nat)
    requires Chained(c, blocks) && i < |blocks| && Replay(apply, genesis, blocks[|blocks| - 1]).Some?
    ensures Replay(apply, genesis, blocks[i]).Some?
    ensures Replay(apply, genesis, blocks[i].previous).Some?
    ensures apply(Replay(apply, genesis, blocks[i].previous).value, blocks[i]).Done?
    decreases |blocks| - i
  {
    if i + 1 < |blocks| {
      ChainedReplay(apply, genesis, c, blocks, i + 1);
      assert blocks[i + 1].previous == ([c] + blocks)[i + 1] == blocks[i];
    }
  }

  /** The index leads from a block down to the first one that is not logged. */
  ghost predicate Leading(items: map<BlockId, Item>, head: BlockId, logged: nat)
  {
    head in items && CanFollow(items.Values, items[head], if Num(head) > logged + 1 then Num(head) - logged - 1 else 0)
  }

  lemma {:induction false} LeadingHead(items: map<BlockId, Item>, head: BlockId, logged: nat)
    ensures Leading(items, head, logged) ==> head in items
  {
  }

  /** A block that needs nothing new of the log applies if it is sound. */
  lemma {:induction false} SoundTrial<S>(
    apply: (S, BlockId) -> Applied<S>, lib: S -> nat, v: View, logged: nat, s: S, b: BlockId)
    requires apply(s, b).Done? && lib(apply(s, b).state) <= logged
    ensures Trial(apply, lib, v, 0, logged, s, b).done == 1
  {
    LogToEnd(v, 0, logged, lib(apply(s, b).state));
  }

  /** The pointers lead to number n, and its item is in the index. */
  ghost predicate Follows(v: View, item: Item, n: nat)
  {
    && n <= Num(Id(item)) <= Depth(item) + n && Leads(v, 0, n)
    && Up(item, Num(Id(item)) - n) in v.items.Values
  }

  /** From a new block on top of such a head everything that is not logged can be followed. */
  lemma {:induction false} LeadingNext(items: map<BlockId, Item>, head: BlockId, logged: nat, b: BlockId, item: Item)
    requires b.Block? && b.previous == head && b !in items && Id(item) == b && Keyed(items)
    requires head != Zero ==> Leading(items, head, logged) && item.Linked? && item.prev == items[head]
    ensures var v := View(items[b := item], {}, item);
            && Leading(v.items, b, logged)
            && forall n: nat :: logged < n <= Num(b) ==> Follows(v, item, n)
  {
    hide Num;
    var v := View(items[b := item], {}, item);
    LivingIs(v);
    HigherThanPrevious(b);
    assert v.items[b] == item;
    forall j | 0 < j && logged + j <= Num(head) ensures j <= Depth(item) && Up(item, j) in v.items.Values {
      assert Id(items[head]) == head && j - 1 <= Depth(items[head]);
      assert Up(item, j) == Up(items[head], j - 1);
      assert Up(items[head], j - 1) in items.Values;
      var k :| k in items && items[k] == Up(items[head], j - 1);
      assert v.items[k] == Up(item, j);
    }
    forall n: nat | logged < n <= Num(b) ensures Follows(v, item, n) {
      var j := Num(b) - n;
      assert j == 0 ==> Up(item, j) == v.items[b];
    }
  }

  /** So a sound block on top of it can always be logged as far as it needs. */
  lemma {:induction false} LeadingLogs(
    items: map<BlockId, Item>, head: BlockId, logged: nat, b: BlockId, item: Item, level: nat)
    requires b.Block? && b.previous == head && b !in items && Id(item) == b && Keyed(items) && level <= Num(b)
    requires head != Zero ==> Leading(items, head, logged) && item.Linked? && item.prev == items[head]
    ensures LogTo(View(items[b := item], {}, item), 0, logged, level) >= level
  {
    hide Num, Up, Leads, Leading, CanFollow;
    var v := View(items[b := item], {}, item);
    LeadingNext(items, head, logged, b, item);
    WriteFails(v, 0, logged, level);
    forall n: nat | logged < n <= level ensures CanLog(v, 0, n) {
      assert Follows(v, item, n);
      var i := Up(item, Num(b) - n);
      var k :| k in v.items && v.items[k] == i;
      assert Id(i) == k;
      assert k in AtNumber(v.index, n);
    }
  }

  /** A sound block on top of such a head extends the chain, and the index leads down from it again. */
  lemma {:induction false} LeadingTrial<S>(
    apply: (S, BlockId) -> Applied<S>, lib: S -> nat, items: map<BlockId, Item>, head: BlockId, logged: nat, s: S,
    b: BlockId, item: Item)
    requires b.Block? && b.previous == head && b !in items && Id(item) == b && Keyed(items)
    requires head != Zero ==> Leading(items, head, logged) && item.Linked? && item.prev == items[head]
    requires apply(s, b).Done? && lib(apply(s, b).state) <= Num(b)
    ensures var v := View(items[b := item], {}, item);
            var t := Trial(apply, lib, v, 0, logged, s, b);
            t.done == 1 && Leading(Left(v.items, t.floor), b, t.logged)
  {
    hide Leading, Num, LogTo, Left;
    var v := View(items[b := item], {}, item);
    var t := Trial(apply, lib, v, 0, logged, s, b);
    LeadingLogs(items, head, logged, b, item, lib(apply(s, b).state));
    LeadingNext(items, head, logged, b, item);
    LeadingLeft(v.items, b, logged, t.logged, t.floor);
  }

  /** What is forgotten below the log is not missed. */
  lemma {:induction false} LeadingLeft(items: map<BlockId, Item>, b: BlockId, logged: nat, logged': nat, floor: nat)
    requires Leading(items, b, logged) && logged <= logged' && floor <= logged' + 1 && floor <= Num(b) && Keyed(items)
    ensures Leading(Left(items, floor), b, logged')
  {
    hide Num, Id, Depth;
    var i := items[b];
    assert Left(items, floor)[b] == i;
    forall j | 0 < j && logged' + 1 + j <= Num(b) ensures j <= Depth(i) && Up(i, j) in Left(items, floor).Values {
      var k :| k in items && items[k] == Up(i, j);
      assert Num(k) == Num(b) - j;
      assert Left(items, floor)[k] == Up(i, j);
    }
  }

  ghost predicate OnTrail(at: Option<Item>, first: Item)
  {
    exists k: nat :: k <= Depth(first) && at == Some(Up(first, k))
  }

  function Elements(blocks: seq<BlockId>): (r: set<BlockId>)
  {
    set b | b in blocks
  }

  /** A block is among the items or in the log. */
  predicate InStore(items: map<BlockId, Item>, log: seq<BlockId>, b: BlockId)
  {
    b in items || (0 < Num(b) <= |log| && log[Num(b) - 1] == b)
  }

  /** So are the latest k blocks of a chain. */
  ghost predicate AllStored(items: map<BlockId, Item>, log: seq<BlockId>, c: BlockId, k: nat)
    requires k <= Num(c)
  {
    forall i :: 0 <= i < k ==> InStore(items, log, Back(c, i))
  }

  /** Popping takes away no item that lies below. */
  lemma {:induction false} PopStays(items: map<BlockId, Item>, held: set<Item>, top: Item, pops: nat)
    requires pops <= Depth(top)
    ensures var at := Up(top, pops);
            at.Linked? ==>
              (at.prev in items.Values + held + {at} <==> at.prev in items.Values + held + {top})
  {
    var at := Up(top, pops);
    if at.Linked? {
      assert Depth(at.prev) < Depth(at) <= Depth(top);
    }
  }

  lemma {:induction false} RemovedShrinks(items: map<BlockId, Item>, gone: set<BlockId>)
    ensures Shrunk(items.Keys, (items - gone).Keys, gone)
  {
  }

  lemma {:induction false} HigherThanPrevious(b: BlockId)
    requires b.Block?
    ensures Num(b) == Num(b.previous) + 1
  {
  }

  lemma {:induction false} PushTracked(index: set<BlockId>, empty: bool, b: BlockId, head: BlockId, logged: nat)
    requires Tracked(index, head, logged) && b.Block? && (empty ==> head == Zero)
    requires empty || b.previous == Zero || b.previous in index
    requires b.previous == Zero ==> !exists n: nat :: Missing(index + {b}, head, logged, n)
    ensures Tracked(index + {b}, head, logged)
  {
    if !empty {
      forall n: nat | b.previous == Zero && logged < n <= Num(head) ensures On(head, n) in index + {b} {
        assert !Missing(index + {b}, head, logged, n);
      }
      TrackedPush(index, b, head, logged);
    }
  }

  lemma {:induction false} ForeignSpoils(index: set<BlockId>, head: BlockId, log: seq<BlockId>, b: BlockId)
    requires |log| <= Num(head) && log == Chain(head, |log|) && Tracked(index, head, |log|)
    requires b.Block? && b.previous == Zero && exists n: nat :: Missing(index + {b}, head, |log|, n)
    ensures Spoils(index + {b}, head, log, b)
  {
    hide Chain, On;
    var n: nat :| Missing(index + {b}, head, |log|, n);
    assert b !in index by {
      assert On(head, n) !in index;
    }
    assert index + {b} - {b} == index;
  }

  lemma {:induction false} BranchesAre(v: View, head: BlockId, left: seq<Item>, right: seq<Item>)
    requires CanSwitch(v, head, |left|, |right|) && 0 < |left| <= Depth(v.items[v.head]) + 1
    requires 0 < |right| <= Depth(v.items[head]) + 1
    requires left == Trail(v.items[v.head], |left|) && right == Trail(v.items[head], |right|)
    ensures (set i | i in left) + (set i | i in right) == Branches(v, head, |left|, |right|)
  {
  }

  lemma {:induction false} ForkKeyed(fork: ForkDatabase)
    requires fork.Valid()
    ensures Keyed(fork.items)
  {
  }

  lemma {:induction false} LivingIs(v: View)
    ensures Living(v, 0) == v.items.Values + v.held + {v.at}
  {
    LeftAll(v.items);
  }

  /**
   The log goes wrong, or can: a block of the head's chain that is not logged yet is taken for a failed one and
   removed, or a block that is irreversible at once is not the one the fork database has as its head.
   */
  ghost predicate Misplaced<S>(
    apply: (S, BlockId) -> Applied<S>, lib: S -> nat, s: S, index: set<BlockId>, head: BlockId, logged: nat,
    tip: BlockId, b: BlockId)
  {
    && tip.Block? && tip.previous == head
    && (|| (&& Num(b) > logged && IsAncestor(b, head)
            && exists x :: x in index && x != b && Num(x) <= Num(b))
        || (&& tip != b && b.Block? && b.previous == head && logged < Num(b)
            && apply(s, b).Done? && lib(apply(s, b).state) == Num(b) && |AtNumber(index, Num(b))| > 1))
  }

  lemma {:induction false} NotMisplaced<S>(
    apply: (S, BlockId) -> Applied<S>, lib: S -> nat, s: S, index: set<BlockId>, head: BlockId, logged: nat,
    tip: BlockId, b: BlockId)
    requires tip.Block? && tip.previous != head
    ensures !Misplaced(apply, lib, s, index, head, logged, tip, b)
  {
  }

  lemma {:induction false} GrowsOnly(v: View, before: seq<BlockId>, after: seq<BlockId>)
    requires Appended(v, before, after)
    ensures before <= after
  {
  }

  lemma {:induction false} ExtendedLog<S>(
    apply: (S, BlockId) -> Applied<S>, lib: S -> nat, s: S, v: View, h: BlockId, b: BlockId, t: Trace,
    before: seq<BlockId>, after: seq<BlockId>)
    requires |before| <= Num(h) && before == Chain(h, |before|) && Tracked(v.index, h, |before|)
    requires Appended(v, before, after)
    requires b.Block? && b.previous == h && b in v.index && v.head.Block? && v.head.previous == h
    requires t == Trial(apply, lib, v, 0, |before|, s, b) && t.done == 1 && |after| == t.logged && |after| <= Num(b)
    ensures after == Chain(b, |after|) && Tracked(Pruned(v.index, t.floor), b, |after|)
            <==> !Misplaced(apply, lib, s, v.index, h, |before|, v.head, b)
  {
    hide Appended, LogTo, Back, Pruned;
    NextOn(b, Num(b));
    TipLeads(v, h, b);
    if Misplaced(apply, lib, s, v.index, h, |before|, v.head, b) {
      assert |after| == Num(b);
      WrongEntry(v, b, before, after);
    } else {
      NextTracked(v.index, h, b, |before|);
      ChainOfAncestor(h, b, |before|);
      LogRight(v, b, before, after);
      PrunedTracked(v.index, t.floor, b, |before|, |after|) by {
        LogGrew(v, before, after);
      }
    }
  }

  /** The fork database's head and the block agree up to the chain's head. */
  lemma {:induction false} TipLeads(v: View, h: BlockId, b: BlockId)
    requires v.head.Block? && v.head.previous == h
    ensures forall n: nat :: n <= Num(h) ==> On(v.head, n) == On(h, n)
    ensures Num(v.head) == Num(h) + 1 && On(v.head, Num(v.head)) == v.head
    ensures b.Block? && b.previous == h ==>
      Num(b) == Num(h) + 1 && forall n: nat :: n <= Num(h) ==> On(b, n) == On(h, n)
  {
    forall n: nat | n <= Num(h) ensures On(v.head, n) == On(h, n) {
      NextOn(v.head, n);
    }
    if b.Block? && b.previous == h {
      forall n: nat | n <= Num(h) ensures On(b, n) == On(h, n) {
        NextOn(b, n);
      }
    }
  }

  lemma {:induction false} WrongEntry(v: View, b: BlockId, before: seq<BlockId>, after: seq<BlockId>)
    requires Appended(v, before, after) && |before| < Num(b) == |after| && Num(v.head) == Num(b)
    requires v.head != b && |AtNumber(v.index, Num(b))| > 1
    ensures after != Chain(b, |after|)
  {
    var i := Num(b) - 1;
    assert Fetched(v, i + 1, after[i]);
    assert after[i] == Back(v.head, 0) == v.head;
    assert Chain(b, |after|)[i] == Back(b, 0) == b;
  }

  lemma {:induction false} NextTracked(index: set<BlockId>, h: BlockId, b: BlockId, logged: nat)
    requires b.Block? && b.previous == h && b in index && Tracked(index, h, logged)
    ensures Tracked(index, b, logged)
  {
    hide On;
    forall n: nat | logged < n <= Num(b) ensures On(b, n) in index || forall x :: x in index ==> Num(x) > n {
      NextOn(b, n);
    }
  }

  lemma {:induction false} PrunedTracked(index: set<BlockId>, floor: nat, c: BlockId, logged: nat, logged': nat)
    requires Tracked(index, c, logged) && logged <= logged'
    ensures Tracked(Pruned(index, floor), c, logged')
  {
    hide On;
    PrunedShrinks(index, 0, floor);
    assert Pruned(index, 0) == index;
    TrackedShrunk(index, Pruned(index, floor), {}, c, logged);
    TrackedLess(Pruned(index, floor), c, logged, logged');
  }

  lemma {:induction false} RefusedLog<S>(
    apply: (S, BlockId) -> Applied<S>, lib: S -> nat, s: S, v: View, h: BlockId, b: BlockId, t: Trace,
    before: seq<BlockId>, after: seq<BlockId>, index: set<BlockId>, index': set<BlockId>)
    requires |before| <= Num(h) && before == Chain(h, |before|) && Tracked(v.index, h, |before|)
    requires Appended(v, before, after)
    requires |after| <= Num(h) && b.Block? && v.head.Block? && v.head.previous == h
    requires index' == index - {b}
    requires b.previous == h ==>
      t == Trial(apply, lib, v, 0, |before|, s, b) && t.done == 0 && !t.stuck && index == Pruned(v.index, t.floor)
    requires b.previous != h ==> index == v.index && after == before
    ensures after == Chain(h, |after|) && Tracked(index', h, |after|)
            <==> !Misplaced(apply, lib, s, v.index, h, |before|, v.head, b)
  {
    hide Appended, LogTo, Back, Pruned, Chain;
    if b.previous == h {
      TipLeads(v, h, b);
      LogRight(v, h, before, after);
      PrunedTracked(v.index, t.floor, h, |before|, |after|) by {
        LogGrew(v, before, after);
      }
      forall n: nat | |after| < n <= Num(h) ensures On(h, n) !in {b} {
      }
      TrackedShrunk(index, index', {b}, h, |after|);
    } else {
      RemovedTracked(v.index, b, h, |before|);
    }
  }

  /** Removing a block breaks tracking exactly if it is on the chain above the log and not the lowest known one. */
  lemma {:induction false} RemovedTracked(index: set<BlockId>, b: BlockId, h: BlockId, logged: nat)
    requires Tracked(index, h, logged)
    ensures Tracked(index - {b}, h, logged) <==>
            !(Num(b) > logged && IsAncestor(b, h) && exists x :: x in index && x != b && Num(x) <= Num(b))
  {
    var index' := index - {b};
    if Num(b) > logged && IsAncestor(b, h) && exists x :: x in index && x != b && Num(x) <= Num(b) {
      var x :| x in index && x != b && Num(x) <= Num(b);
      assert On(h, Num(b)) == b && x in index';
    } else {
      forall n: nat | logged < n <= Num(h) ensures On(h, n) in index' || forall x :: x in index' ==> Num(x) > n {
        if On(h, n) == b {
          assert IsAncestor(b, h);
        }
      }
    }
  }

  lemma {:induction false} PoppedLog(index: set<BlockId>, h: BlockId, head: BlockId, log: seq<BlockId>)
    requires IsAncestor(head, h) && |log| <= Num(head) && log == Chain(h, |log|) && Tracked(index, h, |log|)
    ensures log == Chain(head, |log|) && Tracked(index, head, |log|)
  {
    ChainOfAncestor(head, h, |log|);
    TrackedAncestor(index, head, h, |log|);
  }

  lemma {:induction false} UntriedAre(tip: BlockId, left: seq<BlockId>, k: nat)
    requires k <= |left| <= Num(tip) && left == Descend(tip, |left|)
    ensures Elements(left[..k]) == Untried(tip, k)
  {
    assert left[..k] == Descend(tip, k);
  }

  lemma {:induction false} ShrunkMore(before: set<BlockId>, after: set<BlockId>, named: set<BlockId>)
    requires Shrunk(before, after, {})
    ensures Shrunk(before, after, named)
  {
  }

  /** Trying blocks logs no more than they make irreversible. */
  lemma {:induction false} AttemptLogs<S>(
    apply: (S, BlockId) -> Applied<S>, lib: S -> nat, v: View, floor: nat, logged: nat, s: S, tip: BlockId, n: nat)
    requires n <= Num(tip)
    ensures var t := Attempt(apply, lib, v, floor, logged, s, tip, n); t.logged <= Max(logged, t.level)
    decreases n
  {
    if n > 0 {
      var t := Trial(apply, lib, v, floor, logged, s, Back(tip, n - 1));
      if t.done == 1 {
        AttemptLogs(apply, lib, v, t.floor, t.logged, apply(s, Back(tip, n - 1)).state, tip, n - 1);
      }
    }
  }

  /** The old head itself, if it comes first on the new branch, applies again. */
  lemma {:induction false} OldHeadApplies<S>(
    apply: (S, BlockId) -> Applied<S>, lib: S -> nat, genesis: S, v: View, logged: nat, s: S, h: BlockId,
    tip: BlockId, n: nat)
    requires 0 < n <= Num(tip) && h == Back(tip, n - 1) && h.Block? && Replay(apply, genesis, h).Some?
    requires Replay(apply, genesis, h.previous) == Some(s) && LibsLogged(apply, lib, genesis, h, logged)
    ensures Attempt(apply, lib, v, 0, logged, s, tip, n).done > 0
  {
    assert On(h, Num(h)) == h;
  }

  /** What the outcome of a switch says about where it ends. */
  lemma {:induction false} SwitchEnds<S>(
    apply: (S, BlockId) -> Applied<S>, lib: S -> nat, genesis: S, w: View, t: Trace, h: BlockId, tip: BlockId, n: nat,
    m: nat, c: BlockId, logged: nat, logged': nat, r: Outcome)
    requires InSwitch(w, h, tip, n, m) && Replay(apply, genesis, h).Some? && LibsLogged(apply, lib, genesis, h, logged)
    requires 0 < n <= Num(tip) && m <= Num(h) && logged <= Num(h) - m && Replay(apply, genesis, Back(h, m)).Some?
    requires t == Attempt(apply, lib, w, 0, logged, Replay(apply, genesis, Back(h, m)).value, tip, n)
    requires logged' == t.logged && h in w.items && r == TrialOutcome(t, w, h, n, m) && r != Stuck
    requires r == Switched ==> c == tip
    requires r == Refused ==> c == h
    requires r == Lost ==> IsAncestor(c, Back(tip, n - t.done))
    ensures EndsAt(h, tip, n, m, t.done, c, logged')
  {
    hide LibsLogged, Replay, Attempt, CanFollow, Num, Living;
    AttemptLogs(apply, lib, w, 0, logged, Replay(apply, genesis, Back(h, m)).value, tip, n);
    if r == Refused {
      if h == Back(tip, n - 1) {
        PartsAtTop(h, tip, n, m);
        OldHeadApplies(apply, lib, genesis, w, logged, Replay(apply, genesis, Back(h, m)).value, h, tip, n);
      }
    } else if r == Switched {
      SelfAncestor(tip);
      assert Back(tip, 0) == tip;
    }
  }

  lemma {:induction false} SwitchIsSwitching(w: View, h: BlockId, tip: BlockId, n: nat, m: nat, logged: nat)
    requires InSwitch(w, h, tip, n, m) && m <= Num(h) && logged <= Num(h) - m && Tracked(w.index, h, logged)
    ensures Switching(w, h, tip, n, m, logged)
  {
    hide Parts, Tracked, Back, Num;
  }

  lemma {:induction false} SwitchForeign(
    w: View, h: BlockId, tip: BlockId, n: nat, m: nat, done: nat, c: BlockId, before: seq<BlockId>,
    after: seq<BlockId>, index: set<BlockId>, b: BlockId)
    requires InSwitch(w, h, tip, n, m) && m <= Num(h) && |before| <= Num(h) - m && Spoils(w.index, h, before, b)
    requires Appended(w, before, after) && |after| <= Num(c)
    requires done <= n <= Num(tip) && 0 < n && EndsAt(h, tip, n, m, done, c, |after|)
    requires Shrunk(w.index, index, Untried(tip, n - done))
    ensures after == Chain(c, |after|) && Tracked(index, c, |after|) <==> Mended(h, before, index, c, after, b)
  {
    hide Parts, Tracked, Back, Num, Spoils, Mended, Appended, EndsAt, Shrunk, Untried, Chain;
    ForeignSwitch(w, h, tip, n, m, done, c, before, after, index, b);
  }

  /** What holds of the two branches of a switch at its start. */
  lemma {:induction false} SwitchFacts(v: View, head: BlockId, n: nat, m: nat)
    requires Keyed(v.items) && v.held == {} && CanSwitch(v, head, n, m)
    ensures 0 < m < n <= Num(v.head) && m <= Num(head) && Num(v.head) - n == Num(head) - m
    ensures Back(v.head, n) == Back(head, m) && head.Block?
    ensures v.head in v.items && head in v.items && n <= Depth(v.items[v.head]) + 1 && m <= Depth(v.items[head]) + 1
    ensures Id(v.items[v.head]) == v.head && Id(v.items[head]) == head
    ensures v.items.Values + Branches(v, head, n, m) + {v.at} == Living(v, 0)
    ensures forall i :: 0 <= i < m ==> Back(head, i) in v.items
  {
    hide Parts, Back, Num, Branches, CanFollow;
    PartsFacts(v.head, head, n, m);
    FollowDepth(Living(v, 0), v.items[v.head], n - 1);
    FollowDepth(Living(v, 0), v.items[head], m - 1);
    BranchesHeld(v, head, n, m);
    LeftAll(v.items);
  }

  lemma {:induction false} KnownStored(items: map<BlockId, Item>, log: seq<BlockId>, c: BlockId, m: nat)
    requires m <= Num(c) && forall i :: 0 <= i < m ==> Back(c, i) in items
    ensures AllStored(items, log, c, m)
  {
  }

  /** Popping stops short of the branch point only because the sessions are gone, or at once. */
  lemma {:induction false} BlockedPops(
    v: View, h: BlockId, c: BlockId, n: nat, m: nat, sessions: nat, pops: nat, log: seq<BlockId>)
    requires Keyed(v.items) && v.held == {} && CanSwitch(v, h, n, m) && m <= Num(h) && sessions <= Num(h)
    requires CanFollow(Living(v, 0), v.at, pops) && c == Back(h, Min(pops, sessions))
    requires !InStore(v.items, log, c) || !CanFollow(Living(v, 0), v.at, pops + 1)
    requires !(m <= sessions && CanFollow(Living(v, 0), v.at, m))
    ensures if CanFollow(Living(v, 0), v.at, m) then sessions < m && (c == h <==> sessions == 0) else c == h
  {
    hide Parts, Num, Up, Depth, Living;
    HeadFollows(v, h, n, m);
    BranchesHeld(v, h, n, m);
    assert CanFollow(Living(v, 0), v.at, m) ==> pops >= m && Num(c) == Num(h) - sessions;
  }

  /** The view while the new branch is tried. */
  lemma {:induction false} TryingIs(v: View, h: BlockId, n: nat, m: nat)
    requires Keyed(v.items) && v.held == {} && CanSwitch(v, h, n, m) && CanFollow(Living(v, 0), v.at, m)
    ensures m <= Depth(v.at) && InSwitch(Trying(v, h, n, m), h, v.head, n, m)
    ensures var w := Trying(v, h, n, m);
            w.items == v.items && w.held == Branches(v, h, n, m) && w.at == Up(v.at, m)
  {
    hide Parts, Num, Up, Depth, Back;
    PartsFacts(v.head, h, n, m);
    HeadFollows(v, h, n, m);
    BranchesHeld(v, h, n, m);
    var w := Trying(v, h, n, m);
    forall j | 0 < j <= m - 1 ensures Up(v.items[h], j) in Living(w, 0) {
      assert Up(v.items[h], j) in w.held;
    }
  }

  lemma {:induction false} PartsAtTop(h: BlockId, tip: BlockId, n: nat, m: nat)
    requires Parts(tip, h, n, m) && Num(tip) > Num(h) && h == Back(tip, n - 1)
    ensures m == 1 && h.Block? && h.previous == Back(h, m)
  {
    BackStep(tip, n - 1);
  }

  lemma {:induction false} ThenFirst(base: nat, floor: nat, logged: nat, t: Trace)
    ensures Then(Trace(0, 0, floor, logged, false), t) == t && Max(base, 0) == base
  {
  }

  lemma {:induction false} SelfAncestor(c: BlockId)
    ensures IsAncestor(c, c)
  {
    assert Back(c, 0) == c;
  }

  lemma {:induction false} PrunedAt(index: set<BlockId>, floor: nat, n: nat)
    ensures AtNumber(Pruned(index, floor), n) == if n >= floor then AtNumber(index, n) else {}
  {
  }

  /** A fetch finds a block exactly if the number can be logged. */
  lemma {:induction false} FetchedIs(fork: ForkDatabase, v: View, floor: nat, n: nat, x: BlockId)
    requires fork.Valid() && fork.at == Some(v.at) && fork.items == Left(v.items, floor) && fork.held == v.held
    requires n > 0
    requires |AtNumber(fork.items.Keys, n)| == 0 ==> x == Zero
    requires |AtNumber(fork.items.Keys, n)| == 1 ==> x in AtNumber(fork.items.Keys, n)
    requires |AtNumber(fork.items.Keys, n)| > 1 ==> x == fork.Walked(n)
    ensures x != Zero <==> CanLog(v, floor, n)
    ensures x != Zero ==> Fetched(v, n, x)
  {
    hide Back, Left, Pruned, AtNumber, CanFollow, Num, ForkDatabase.Valid;
    PrunedAt(v.index, floor, n);
    AtNumberIs(fork.items.Keys, n, x);
    WalkedIs(fork, n);
  }

  lemma {:induction false} AtNumberIs(index: set<BlockId>, n: nat, x: BlockId)
    requires n > 0
    ensures x in AtNumber(index, n) ==> x != Zero
    ensures |AtNumber(index, n)| == 1 && x in AtNumber(index, n) ==> AtNumber(index, n) == {x}
  {
    var at := AtNumber(index, n);
    if |at| == 1 && x in at {
      assert |at - {x}| == 0;
      assert at == {x};
    }
  }

  lemma {:induction false} WalkedIs(fork: ForkDatabase, n: nat)
    requires n > 0 && fork.at.Some?
    ensures fork.Walked(n) != Zero <==>
      n <= Num(fork.Head()) && CanFollow(fork.Live(), fork.at.value, Num(fork.Head()) - n)
    ensures fork.Walked(n) != Zero ==> fork.Walked(n) == Back(fork.Head(), Num(fork.Head()) - n)
  {
    hide Back, CanFollow;
  }
}
