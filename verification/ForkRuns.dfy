/**
 Runs, from genesis on, that go wrong.  Three of them lose the old head: a bad block behind one that is irreversible
 at once; a branch without any bad block on which the log cannot be written; and a short way back on which a block to
 undo can no longer be fetched.  In the other two a block of another chain reaches the log, and the irreversible
 number falls.
 */
module ForkRuns {
  import opened Common
  import opened Blocks
  import opened ForkDatabases
  import opened ForkLogs
  import opened ForkChoice

  /** The state is the irreversible number.  Content 7 fails, 2 makes itself irreversible, 9 the block two below. */
  function Effect(s: nat, b: BlockId): Applied<nat>
  {
    if b.Zero? then Failed(None)
    else if b.content == 7 then Failed(None)
    else if b.content == 2 then Done(Num(b))
    else if b.content == 9 && Num(b) >= 2 then Done(Num(b) - 2)
    else Done(if s <= Num(b) then s else 0)
  }

  function Itself(s: nat): nat { s }

  /** A block without any such effect. */
  predicate Plain(b: BlockId)
  {
    b.Block? && b.content != 2 && b.content != 7 && b.content != 9
  }

  /** Every known block is linked to its predecessor, down to a first block. */
  ghost predicate Tidy(items: map<BlockId, Item>)
  {
    && Keyed(items)
    && forall b :: b in items && b.Block? && b.previous != Zero ==>
         b.previous in items && items[b].Linked? && items[b].prev == items[b.previous]
  }

  /** So the pointers lead all the way down. */
  lemma {:induction false} TidyFollows(items: map<BlockId, Item>, live: set<Item>, b: BlockId, n: nat)
    requires Tidy(items) && b in items && n < Num(b) && items.Values <= live
    ensures CanFollow(live, items[b], n) && Back(b, n) in items && Up(items[b], n) == items[Back(b, n)]
    decreases n
  {
    hide Num, Back, Depth, Up;
    if n == 0 {
      BackSelf(b);
    } else {
      TidyFollows(items, live, b, n - 1);
      FollowStep(live, items[b], n - 1);
      BackStep(b, n - 1);
      var c := Back(b, n - 1);
      assert items[c].prev in items.Values;
    }
  }

  lemma {:induction false} BackSelf(b: BlockId)
    ensures Back(b, 0) == b
  {
  }

  /** A chain on which number s is irreversible and logged, with nothing higher in the fork database. */
  ghost predicate Quiet(db: ChainDatabase<nat>, s: nat)
    reads db, db.fork
  {
    && db.ChainOk() && db.fork.held == {} && db.apply == Effect && db.lib == Itself && db.genesis == 0
    && db.state == s && |db.log| == s <= Num(db.head) && |db.undo| == Num(db.head) - s
    && Tidy(db.fork.items) && (db.head == Zero || db.head in db.fork.items)
    && Num(db.fork.Head()) <= Num(db.head)
    && (db.fork.at.Some? ==> db.fork.Head() in db.fork.items && db.fork.items[db.fork.Head()] == db.fork.at.value)
  }

  /** Blocks can still be pushed that are as low as the first. */
  ghost predicate Roomy(db: ChainDatabase<nat>, s: nat)
    reads db, db.fork
  {
    db.fork.at.Some? && Num(db.head) + 1 <= db.fork.maxSize + s
  }

  lemma {:induction false} QuietTrial(v: View, logged: nat, s: nat, b: BlockId)
    requires Plain(b) && Num(v.head) <= Num(b) && s <= 1 && s <= logged
    ensures var t := Trial(Effect, Itself, v, 0, logged, s, b);
            t.done == 1 && t.level == s && t.floor == 0 && t.logged == logged && !t.stuck
    ensures Effect(s, b) == Done(s)
  {
    LogToEnd(v, 0, logged, s);
  }

  lemma {:induction false} HigherThanZero(b: BlockId)
    requires b.Block?
    ensures Num(b) > 0
  {
  }

  /** The fork database takes a block it does not know yet. */
  lemma {:induction false} TakesNew(db: ChainDatabase<nat>, b: BlockId)
    requires db.fork.Valid() && Tidy(db.fork.items) && b.Block? && b !in db.fork.items
    requires b.previous == Zero || b.previous in db.fork.items
    requires db.fork.at.None? ==> b.previous == Zero
    requires db.fork.at.Some? ==> Num(b) > Num(db.fork.Head()) - db.fork.maxSize
    ensures var v := db.Next(b);
            && db.fork.Takes(b) && Tidy(v.items) && b in v.items && Id(v.items[b]) == b
            && v.items == db.fork.items[b := v.items[b]] && v.held == db.fork.held
            && v.index == db.fork.items.Keys + {b}
            && v.head == (if Num(b) > Num(db.fork.Head()) then b else db.fork.Head())
            && (if Num(b) > Num(db.fork.Head()) then v.at == v.items[b] else db.fork.at == Some(v.at))
            && db.Tip(b) == v.head
  {
    hide Num;
    HigherThanZero(b);
  }

  /** A block that makes nothing new irreversible extends the chain and is remembered. */
  method Grow(db: ChainDatabase<nat>, ghost s: nat, b: BlockId) returns (r: Outcome)
    requires Quiet(db, s) && s <= 1 && Plain(b) && b.previous == db.head && b !in db.fork.items
    modifies db, db.fork
    ensures r == Extended && Quiet(db, s) && db.head == b && Roomy(db, s)
    ensures db.fork.items.Keys == old(db.fork.items).Keys + {b}
  {
    hide Trial, CanSwitch, SwitchOutcome, Misplaced, Replay, LibsLogged, Chain, Tracked, Left, Effect, Back,
      CanFollow, Num, Tidy, Appended, Mended;
    hide ChainDatabase.StateOk, ChainDatabase.LogLong, ForkDatabase.Valid, ChainDatabase.Switches;
    HigherThanPrevious(b);
    TakesNew(db, b);
    ghost var v := db.Next(b);
    LeftAll(v.items);
    QuietTrial(v, s, s, b);
    r := db.PushBlock(b);
  }

  /** A block of another branch that is not higher is only remembered. */
  method Remember(db: ChainDatabase<nat>, ghost s: nat, b: BlockId) returns (r: Outcome)
    requires Quiet(db, s) && Roomy(db, s) && s <= 1 && db.head.Block?
    requires b.Block? && Num(b) <= Num(db.head) && b !in db.fork.items
    requires b.previous == Zero || b.previous in db.fork.items
    modifies db, db.fork
    ensures r == Ignored && Quiet(db, s) && Roomy(db, s) && db.head == old(db.head)
    ensures db.fork.items.Keys == old(db.fork.items).Keys + {b}
  {
    hide Trial, CanSwitch, SwitchOutcome, Misplaced, Replay, LibsLogged, Chain, Tracked, Left, Effect, Back,
      CanFollow, Num, Tidy, Appended, Mended;
    hide ChainDatabase.StateOk, ChainDatabase.LogLong, ForkDatabase.Valid, ChainDatabase.Switches;
    HigherThanPrevious(b);
    TakesNew(db, b);
    HigherThanPrevious(db.Tip(b));
    r := db.PushBlock(b);
  }

  function Times(n: nat, o: Outcome): (r: seq<Outcome>)
    ensures |r| == n && forall i :: 0 <= i < n ==> r[i] == o
  {
    seq(n, i => o)
  }

  method GrowAll(db: ChainDatabase<nat>, ghost s: nat, blocks: seq<BlockId>) returns (r: seq<Outcome>)
    requires Quiet(db, s) && s <= 1 && blocks != [] && Chained(db.head, blocks)
    requires forall b :: b in blocks ==> Plain(b) && b !in db.fork.items
    modifies db, db.fork
    ensures r == Times(|blocks|, Extended) && Quiet(db, s) && Roomy(db, s) && db.head == blocks[|blocks| - 1]
    ensures db.fork.items.Keys == old(db.fork.items).Keys + Elements(blocks)
  {
    hide Num, Quiet, Plain;
    r := [];
    ghost var c := db.head;
    for i := 0 to |blocks|
      invariant Quiet(db, s) && r == Times(i, Extended) && (i > 0 ==> Roomy(db, s))
      invariant db.head == if i == 0 then c else blocks[i - 1]
      invariant db.fork.items.Keys == old(db.fork.items).Keys + Elements(blocks[..i])
    {
      ChainedNum(c, blocks, i);
      assert blocks[i] in blocks && blocks[i].previous == ([c] + blocks)[i];
      assert blocks[..i + 1] == blocks[..i] + [blocks[i]];
      var o := Grow(db, s, blocks[i]);
      r := r + [o];
    }
    assert blocks[..|blocks|] == blocks;
  }

  /** Blocks none of which is known, each on top of a known one, a first block, or one that comes before it. */
  ghost predicate Rooted(known: set<BlockId>, blocks: seq<BlockId>)
  {
    && (forall i :: 0 <= i < |blocks| ==>
          && blocks[i].Block? && blocks[i] !in known
          && (blocks[i].previous == Zero || blocks[i].previous in known || blocks[i].previous in blocks[..i]))
    && (forall i, j :: 0 <= i < j < |blocks| ==> blocks[i] != blocks[j])
  }

  method RememberAll(db: ChainDatabase<nat>, ghost s: nat, blocks: seq<BlockId>) returns (r: seq<Outcome>)
    requires Quiet(db, s) && Roomy(db, s) && s <= 1 && db.head.Block? && Rooted(db.fork.items.Keys, blocks)
    requires forall b :: b in blocks ==> Num(b) <= Num(db.head)
    modifies db, db.fork
    ensures r == Times(|blocks|, Ignored) && Quiet(db, s) && Roomy(db, s) && db.head == old(db.head)
    ensures db.fork.items.Keys == old(db.fork.items).Keys + Elements(blocks)
  {
    hide Num, Quiet;
    r := [];
    for i := 0 to |blocks|
      invariant Quiet(db, s) && Roomy(db, s) && db.head == old(db.head) && r == Times(i, Ignored)
      invariant db.fork.items.Keys == old(db.fork.items).Keys + Elements(blocks[..i])
    {
      assert blocks[..i + 1] == blocks[..i] + [blocks[i]];
      var o := Remember(db, s, blocks[i]);
      r := r + [o];
    }
    assert blocks[..|blocks|] == blocks;
  }

  /** With tidy pointers a higher branch can be tried. */
  lemma {:induction false} TidySwitch(v: View, head: BlockId, n: nat, m: nat)
    requires Tidy(v.items) && v.head in v.items && v.items[v.head] == v.at && head in v.items
    requires Parts(v.head, head, n, m) && Num(v.head) > Num(head) && v.head.previous != head
    ensures CanSwitch(v, head, n, m) && CanFollow(Living(v, 0), v.at, m)
  {
    hide Parts, Tidy, CanFollow, Num;
    PartsFacts(v.head, head, n, m);
    LivingIs(v);
    TidyFollows(v.items, Living(v, 0), v.head, n - 1);
    TidyFollows(v.items, Living(v, 0), v.head, m);
    TidyFollows(v.items, Living(v, 0), head, m - 1);
  }

  /** The block that makes another branch the highest: a switch, with m blocks to undo and n to try. */
  method TakeOver(db: ChainDatabase<nat>, ghost s: nat, ghost point: nat, tip: BlockId, ghost n: nat, ghost m: nat)
    returns (r: Outcome, ghost w: View, ghost t: Trace)
    requires Quiet(db, s) && db.head.Block? && tip.Block? && tip !in db.fork.items && tip.previous in db.fork.items
    requires tip.previous != db.head && Num(tip) > Num(db.head) && Parts(tip, db.head, n, m) && m <= |db.undo|
    requires m <= Num(db.head) && n <= Num(tip) && Replay(Effect, 0, Back(db.head, m)) == Some(point)
    modifies db, db.fork
    ensures w.index == old(db.fork.items).Keys + {tip} && m <= Num(tip) && w.head == Back(tip, m) && Tidy(w.items)
    ensures t == Attempt(Effect, Itself, w, 0, s, point, tip, n) && r == TrialOutcome(t, w, old(db.head), n, m)
    ensures old(db.head) in w.items && |db.log| == t.logged && (r == Switched ==> db.head == tip)
    ensures db.apply == Effect && db.lib == Itself && db.genesis == 0 && (r != Stuck ==> db.ChainOk())
    ensures db.fork.held == {}
    ensures r == Lost ==>
      && |db.undo| <= Num(db.head) && db.Base() == Max(s, t.level) && db.Stranded(w, t, old(db.head), tip, n)
  {
    hide Trial, CanSwitch, TrialOutcome, Misplaced, Replay, LibsLogged, Chain, Tracked, Left, Effect, Back,
      CanFollow, Num, Tidy, Appended, Mended, Parts, Attempt, Living, Up, Depth;
    hide ChainDatabase.StateOk, ChainDatabase.LogLong, ForkDatabase.Valid, ChainDatabase.Stranded;
    PartsFacts(tip, db.head, n, m);
    TakesNew(db, tip);
    ghost var v := db.Next(tip);
    TidySwitch(v, db.head, n, m);
    FollowDepth(Living(v, 0), v.at, m);
    w := Trying(v, db.head, n, m);
    t := Attempt(Effect, Itself, w, 0, s, point, tip, n);
    r := db.PushBlock(tip);
    assert db.Switches(v, old(db.head), n, m, |old(db.undo)|, |old(db.log)|, old(db.Base()), r);
  }

  method NewDatabase() returns (db: ChainDatabase<nat>)
    ensures fresh(db) && fresh(db.fork) && Quiet(db, 0) && db.head == Zero && db.fork.items == map[]
  {
    db := new ChainDatabase<nat>(0, Effect, Itself);
  }

  lemma {:induction false} Step(b: BlockId)
    requires b.Block?
    ensures Num(b) == Num(b.previous) + 1 && Back(b, 0) == b && Back(b, 1) == b.previous
  {
  }

  lemma {:induction false} Further(b: BlockId, k: nat)
    requires k < Num(b)
    ensures Back(b, k).Block? && Back(b, k + 1) == Back(b, k).previous
  {
    BackStep(b, k);
  }

  lemma {:induction false} GenesisReplays()
    ensures Replay(Effect, 0, Zero) == Some(0)
  {
  }

  /** Going back along blocks that follow one another. */
  lemma {:induction false} ChainedBack(c: BlockId, blocks: seq<BlockId>, k: nat)
    requires Chained(c, blocks) && blocks != [] && k <= |blocks|
    ensures Num(blocks[|blocks| - 1]) == Num(c) + |blocks|
    ensures Back(blocks[|blocks| - 1], k) == ([c] + blocks)[|blocks| - k]
    decreases k
  {
    hide Num, Back;
    ChainedNum(c, blocks, |blocks| - 1);
    if k == 0 {
      BackSelf(blocks[|blocks| - 1]);
    } else {
      ChainedBack(c, blocks, k - 1);
      Further(blocks[|blocks| - 1], k - 1);
      assert blocks[|blocks| - k].previous == ([c] + blocks)[|blocks| - k];
    }
  }

  lemma {:induction false} AttemptUnfolds(w: View, floor: nat, logged: nat, s: nat, tip: BlockId, n: nat)
    requires 0 < n <= Num(tip)
    ensures var b := Back(tip, n - 1);
            var t := Trial(Effect, Itself, w, floor, logged, s, b);
            && (t.done == 1 ==> Effect(s, b).Done?)
            && Attempt(Effect, Itself, w, floor, logged, s, tip, n) ==
               if t.done == 0 then t
               else Then(t, Attempt(Effect, Itself, w, t.floor, t.logged, Effect(s, b).state, tip, n - 1))
  {
  }

  /** Plain blocks that are not below the fork database's head change nothing but the count. */
  lemma {:induction false} PlainAttempt(w: View, logged: nat, s: nat, tip: BlockId, n: nat, k: nat)
    requires k <= n <= Num(tip) && s <= 1 && s <= logged
    requires forall i :: n - k <= i < n ==> Plain(Back(tip, i)) && Num(w.head) <= Num(Back(tip, i))
    ensures var t := Attempt(Effect, Itself, w, 0, logged, s, tip, n);
            var u := Attempt(Effect, Itself, w, 0, logged, s, tip, n - k);
            && t.done == u.done + k && t.floor == u.floor && t.logged == u.logged && t.stuck == u.stuck
            && (k > 0 ==> t.level == Max(s, u.level))
    decreases k
  {
    hide Back, Num, Trial, Attempt, Effect, Plain;
    if k > 0 {
      var b := Back(tip, n - 1);
      AttemptUnfolds(w, 0, logged, s, tip, n);
      QuietTrial(w, logged, s, b);
      PlainAttempt(w, logged, s, tip, n - 1, k - 1);
    }
  }

  lemma {:induction false} NothingTried(w: View, floor: nat, logged: nat, s: nat, tip: BlockId)
    ensures Attempt(Effect, Itself, w, floor, logged, s, tip, 0) == Trace(0, 0, floor, logged, false)
  {
  }

  lemma {:induction false} BadTrial(w: View, floor: nat, logged: nat, s: nat, b: BlockId)
    requires b.Block? && b.content == 7
    ensures Trial(Effect, Itself, w, floor, logged, s, b) == Trace(0, 0, floor, logged, false)
  {
  }

  /** A first block that is irreversible at once, while the fork database's head is that low. */
  lemma {:induction false} FirstTrial(w: View, b: BlockId)
    requires b.Block? && b.previous == Zero && b.content == 2 && w.head == b && b in w.index
    ensures Trial(Effect, Itself, w, 0, 0, 0, b) == Trace(1, 1, 0, 1, false) && Effect(0, b) == Done(1)
  {
    hide Back;
    assert b in AtNumber(w.index, 1);
    FollowNothing(Living(w, 0), w.at);
    assert CanLog(w, 0, 1);
    LogToStep(w, 0, 0, 1);
    LogToEnd(w, 0, 1, 1);
  }

  // ---------- A bad block behind an irreversible one ----------

  /** Such a block and a bad one on top of it, tried first, bring the chain past the branch point. */
  lemma {:induction false} BadBehind(w: View, tip: BlockId, n: nat, q: BlockId)
    requires 2 <= n <= Num(tip) && Back(tip, n - 1) == q && w.head == q && q in w.index
    requires q.Block? && q.previous == Zero && q.content == 2
    requires Back(tip, n - 2).Block? && Back(tip, n - 2).content == 7
    ensures Attempt(Effect, Itself, w, 0, 0, 0, tip, n) == Trace(1, 1, 0, 1, false)
  {
    hide Back, Num, Trial, Attempt, Effect;
    FirstTrial(w, q);
    AttemptUnfolds(w, 0, 0, 0, tip, n);
    BadTrial(w, 0, 1, 1, Back(tip, n - 2));
    AttemptUnfolds(w, 0, 1, 1, tip, n - 1);
  }

  /** Three blocks are enough: the switch that the third one starts cannot be undone. */
  method BadBlockBehindIrreversible(x: nat) returns (r: seq<Outcome>)
    requires Plain(Block(Zero, x))
    ensures r == [Extended, Ignored, Lost]
  {
    hide Num, Back, Replay, Effect, Quiet, Attempt, ChainDatabase.Stranded, ChainDatabase.ChainOk;
    var a, b := Block(Zero, x), Block(Zero, 2);
    var c := Block(b, 7);
    Step(a);
    Step(b);
    Step(c);
    Further(c, 1);
    PartsAbove(c, a, 2, 1);
    var db := NewDatabase();
    var r1 := Grow(db, 0, a);
    var r2 := Remember(db, 0, b);
    GenesisReplays();
    QuietFacts(db, 0);
    var r3, w, t := TakeOver(db, 0, 0, c, 2, 1);
    BadBehind(w, c, 2, b);
    r := [r1, r2, r3];
  }

  lemma {:induction false} QuietFacts(db: ChainDatabase<nat>, s: nat)
    requires Quiet(db, s)
    ensures |db.undo| == Num(db.head) - s && db.genesis == 0 && db.ChainOk() && db.state == s
  {
  }

  /** Chains part where they last agree. */
  lemma {:induction false} PartsAbove(tip: BlockId, h: BlockId, n: nat, m: nat)
    requires 0 < n <= Num(tip) && 0 < m <= Num(h) && Num(tip) - n == Num(h) - m && Back(tip, n) == Back(h, m)
    requires Back(tip, n - 1) != Back(h, m - 1)
    ensures Parts(tip, h, n, m)
  {
    forall k | 0 < k <= n - 1 && 0 < k - (n - 1) + (m - 1)
      ensures Back(tip, k) != Back(h, k - (n - 1) + (m - 1))
    {
      BackBack(tip, k, n - 1 - k);
      BackBack(h, m + k - n, n - 1 - k);
    }
  }

  // ---------- Towers of blocks ----------

  /** Blocks on top of c with the given contents. */
  function Tower(c: BlockId, contents: seq<nat>): (r: seq<BlockId>)
    ensures |r| == |contents|
    decreases |contents|
  {
    if contents == [] then []
    else
      var below := Tower(c, contents[..|contents| - 1]);
      below + [Block(([c] + below)[|below|], contents[|contents| - 1])]
  }

  lemma {:induction false} TowerStands(c: BlockId, contents: seq<nat>)
    ensures Chained(c, Tower(c, contents))
    ensures forall i :: 0 <= i < |contents| ==>
      Tower(c, contents)[i].Block? && Tower(c, contents)[i].content == contents[i]
    decreases |contents|
  {
    if contents != [] {
      var n := |contents| - 1;
      var below, all := Tower(c, contents[..n]), Tower(c, contents);
      TowerStands(c, contents[..n]);
      forall i | 0 <= i < |all|
        ensures all[i].Block? && all[i].previous == ([c] + all)[i] && all[i].content == contents[i]
      {
        if i < n {
          assert all[i] == below[i] && ([c] + all)[i] == ([c] + below)[i];
        }
      }
    }
  }

  /** A block is not among others if the one of its number has another content. */
  lemma {:induction false} NotAmong(c: BlockId, blocks: seq<BlockId>, b: BlockId)
    requires Chained(c, blocks)
    requires forall i :: 0 <= i < |blocks| && Num(c) + i + 1 == Num(b) ==> blocks[i] != b
    ensures b !in blocks
  {
    hide Num;
    forall i | 0 <= i < |blocks| ensures blocks[i] != b {
      ChainedNum(c, blocks, i);
    }
  }

  /** A tower on a known block is rooted if none of its blocks is known. */
  lemma {:induction false} TowerRooted(known: set<BlockId>, c: BlockId, blocks: seq<BlockId>)
    requires Chained(c, blocks) && (c == Zero || c in known) && forall b :: b in blocks ==> b !in known
    ensures Rooted(known, blocks)
  {
    hide Num;
    forall i | 0 <= i < |blocks|
      ensures blocks[i].Block? && blocks[i] !in known
      ensures blocks[i].previous == Zero || blocks[i].previous in known || blocks[i].previous in blocks[..i]
      ensures forall j :: 0 <= j < i ==> blocks[j] != blocks[i]
    {
      ChainedNum(c, blocks, i);
      assert blocks[i] in blocks;
      if i > 0 {
        assert blocks[..i][i - 1] == blocks[i - 1] == ([c] + blocks)[i];
      }
    }
  }

  // ---------- A sound branch on which the log cannot be written ----------

  /** The second of three numbers has two candidates and lies above the fork database's head. */
  lemma {:induction false} RivalsAbove(w: View, logged: nat, level: nat, x: BlockId, y: BlockId)
    requires x in w.index && y in w.index && x != y && Num(x) == Num(y) > Num(w.head) && logged < Num(x) <= level
    ensures LogTo(w, 0, logged, level) < level
  {
    hide Back, Num, LogTo;
    var at := AtNumber(w.index, Num(x));
    assert x in at && y in at - {x};
    assert |at| == |at - {x}| + 1 > 1;
    assert !CanLog(w, 0, Num(x));
    WriteFails(w, 0, logged, level);
  }

  lemma {:induction false} UnloggedTrial(w: View, s: nat, b: BlockId)
    requires b.Block? && b.content == 9 && Num(b) >= 3 && LogTo(w, 0, 0, Num(b) - 2) < Num(b) - 2
    ensures var t := Trial(Effect, Itself, w, 0, 0, s, b); t.done == 0 && t.level == Num(b) - 2 && !t.stuck
  {
  }

  /** Three sound blocks, and one whose irreversible number cannot be logged. */
  lemma {:induction false} UnloggedAttempt(w: View, tip: BlockId, low: seq<BlockId>, a: BlockId)
    requires Num(tip) == 5 && tip.Block? && tip.content == 9 && tip.previous.Block? && |low| == 3
    requires Back(tip, 1) == low[2] && Back(tip, 2) == low[1] && Back(tip, 3) == low[0] && w.head == low[0]
    requires Plain(low[0]) && Plain(low[1]) && Plain(low[2])
    requires a in w.index && low[1] in w.index && a != low[1] && Num(a) == 3
    ensures var t := Attempt(Effect, Itself, w, 0, 0, 0, tip, 4); t.done == 3 && t.level == 3 && !t.stuck
  {
    hide Back, Num, LogTo, Trial, Attempt, Effect, Plain;
    RivalsAbove(w, 0, 3, a, low[1]);
    UnloggedTrial(w, 0, tip);
    BackSelf(tip);
    forall i | 1 <= i < 4 ensures Plain(Back(tip, i)) && Num(w.head) <= Num(Back(tip, i)) {
      assert i == 1 || i == 2 || i == 3;
    }
    PlainAttempt(w, 0, 0, tip, 4, 3);
    AttemptUnfolds(w, 0, 0, 0, tip, 1);
  }

  /** Eight blocks, none of them bad: the last one makes number 3 irreversible, which cannot be fetched. */
  method SoundBranchLost(x: nat, y: nat) returns (r: seq<Outcome>)
    requires x != y && Plain(Block(Zero, x)) && Plain(Block(Zero, y))
    ensures r == Times(4, Extended) + Times(3, Ignored) + [Lost]
  {
    hide Num, Back, Replay, Effect, Quiet, Roomy, Attempt, Parts, Elements, Tower, Chained, Rooted, Plain, Tidy;
    hide ChainDatabase.Stranded, ChainDatabase.ChainOk;
    var xs, ys := [x, x, x, x], [y, y, y];
    var old' := Tower(Zero, xs);
    var new' := Tower(old'[0], ys);
    var tip := Block(new'[2], 9);
    TowerPlain(Zero, xs);
    TowerPlain(old'[0], ys);
    BothBranches(old', new', tip);
    var db := NewDatabase();
    var r1 := GrowAll(db, 0, old');
    assert db.fork.items.Keys == Elements(old');
    var r2 := RememberAll(db, 0, new');
    QuietFacts(db, 0);
    PlainReplays(old'[0]);
    var r3, w, t := TakeOver(db, 0, 0, tip, 4, 3);
    UnloggedAttempt(w, tip, new', old'[2]);
    r := r1 + r2 + [r3];
  }

  lemma {:induction false} TowerPlain(c: BlockId, contents: seq<nat>)
    requires forall i :: 0 <= i < |contents| ==> Plain(Block(Zero, contents[i]))
    ensures Chained(c, Tower(c, contents)) && forall b :: b in Tower(c, contents) ==> Plain(b)
    ensures forall i :: 0 <= i < |contents| ==>
      Tower(c, contents)[i].Block? && Tower(c, contents)[i].content == contents[i] && Plain(Tower(c, contents)[i])
  {
    hide Tower, Chained;
    TowerStands(c, contents);
  }

  /** Four blocks, and three on top of the first of them and a fourth. */
  lemma {:induction false} BothBranches(old': seq<BlockId>, new': seq<BlockId>, tip: BlockId)
    requires |old'| == 4 && |new'| == 3 && Chained(Zero, old') && Chained(old'[0], new') && tip.Block?
    requires tip.previous == new'[2] && forall i, j :: 0 <= i < 4 && 0 <= j < 3 ==> old'[i].content != new'[j].content
    ensures old'[0].Block? && old'[0].previous == Zero && new'[2].Block? && tip.previous != old'[3] && old'[3].Block?
    ensures Num(old'[2]) == 3 && Num(old'[3]) == 4 && Num(tip) == 5 && forall b :: b in new' ==> Num(b) <= 4
    ensures Rooted(Elements(old'), new') && tip !in Elements(old') + Elements(new') && tip.previous in Elements(new')
    ensures old'[2] in Elements(old') && new'[1] in Elements(new') && old'[2] != new'[1]
    ensures Back(tip, 1) == new'[2] && Back(tip, 2) == new'[1] && Back(tip, 3) == new'[0]
    ensures Back(old'[3], 3) == old'[0] && Parts(tip, old'[3], 4, 3)
  {
    hide Num, Back, Parts, Rooted;
    ChainedNum(Zero, old', 2);
    ChainedBack(Zero, old', 3);
    ChainedBack(Zero, old', 2);
    assert old'[0].previous == ([Zero] + old')[0];
    assert Num(old'[0]) == 1 by {
      ChainedNum(Zero, old', 0);
    }
    TipStands(old'[0], new', tip);
    var all := new' + [tip];
    ChainedBack(old'[0], all, 1);
    ChainedBack(old'[0], all, 2);
    ChainedBack(old'[0], all, 3);
    ChainedBack(old'[0], all, 4);
    LowTower(old'[0], new', 4);
    assert Differ(old'[0], new', Zero, old');
    Disjoint(old'[0], new', Zero, old');
    assert old'[0] in old' && new'[2] in new' && new'[1] in new';
    TowerRooted(Elements(old'), old'[0], new');
    NotAmong(Zero, old', tip);
    NotAmong(old'[0], new', tip);
    PartsAbove(tip, old'[3], 4, 3);
  }

  lemma {:induction false} TipStands(c: BlockId, blocks: seq<BlockId>, tip: BlockId)
    requires Chained(c, blocks) && blocks != [] && tip.Block? && tip.previous == blocks[|blocks| - 1]
    ensures Chained(c, blocks + [tip])
  {
    var all := blocks + [tip];
    forall i | 0 <= i < |all| ensures all[i].Block? && all[i].previous == ([c] + all)[i] {
      if i < |blocks| {
        assert blocks[i].previous == ([c] + blocks)[i];
      }
    }
  }

  lemma {:induction false} PlainReplays(p: BlockId)
    requires Plain(p) && p.previous == Zero
    ensures Replay(Effect, 0, p) == Some(0)
  {
    assert Replay(Effect, 0, Zero) == Some(0);
  }

  // ---------- A block to undo that cannot be fetched ----------

  /** Two blocks of the new branch, the second one bad, while the fork database's head is at number 5. */
  lemma {:induction false} ForgottenAttempt(w: View, tip: BlockId, n: nat)
    requires 2 <= n <= Num(tip) && Plain(Back(tip, n - 1)) && Num(Back(tip, n - 1)) == 2 && Num(w.head) == 5
    requires Back(tip, n - 2).Block? && Back(tip, n - 2).content == 7
    ensures Attempt(Effect, Itself, w, 0, 1, 1, tip, n) == Trace(1, 1, 3, 1, false)
  {
    hide Back, Num, Attempt;
    var b := Back(tip, n - 1);
    LogToEnd(w, 0, 1, 1);
    assert Trial(Effect, Itself, w, 0, 1, 1, b) == Trace(1, 1, 3, 1, false) && Effect(1, b) == Done(1);
    AttemptUnfolds(w, 0, 1, 1, tip, n);
    BadTrial(w, 3, 1, 1, Back(tip, n - 2));
    AttemptUnfolds(w, 3, 1, 1, tip, n - 1);
  }

  /** What is left of tidy items stays tidy if nothing that is left stood on something that is gone. */
  lemma {:induction false} TidyLeft(items: map<BlockId, Item>, gone: set<BlockId>)
    requires Tidy(items) && forall b :: b in items && b !in gone && b.Block? ==> b.previous !in gone
    ensures Tidy(items - gone)
  {
  }

  /** A blocked chain whose head is known has its fork database's head at a first block. */
  lemma {:induction false} BlockedAtFirst(
    items: map<BlockId, Item>, live: set<Item>, at: Item, first: BlockId, left: map<BlockId, Item>)
    requires Tidy(items) && Tidy(left) && first in items && OnTrail(Some(at), items[first]) && left.Values <= live
    requires forall k :: 0 <= k < Num(first) ==>
      Back(first, k) in left && Back(first, k) in items && left[Back(first, k)] == items[Back(first, k)]
    requires at.Loose? || at.prev !in live
    ensures Num(Id(at)) == 1 && Id(at) in left && left[Id(at)] == at
  {
    hide Num, Back, Up, Depth, Tidy;
    var k: nat :| k <= Depth(items[first]) && at == Up(items[first], k);
    KeyedTidy(items, first);
    TidyFollows(items, items.Values, first, k);
    var b := Back(first, k);
    KeyedTidy(left, b);
    BackStep(first, k);
    if k + 1 < Num(first) {
      TidyFollows(left, live, b, 1);
      UpStep(left[b], 0);
    }
  }

  lemma {:induction false} KeyedTidy(items: map<BlockId, Item>, b: BlockId)
    requires Tidy(items) && b in items
    ensures Id(items[b]) == b && Depth(items[b]) < Num(b)
  {
  }

  /** The blocks of the run. */
  datatype Story = Story(a: seq<BlockId>, q: BlockId, d: seq<BlockId>, t: seq<BlockId>, e: seq<BlockId>)

  /**
   Six blocks that become the chain; a first block that is irreversible at once; on top of that one six blocks, the
   second bad; six more, the first bad; and two sound ones.
   */
  ghost predicate Told(s: Story)
  {
    && |s.a| == 6 && |s.d| == 6 && |s.t| == 6 && |s.e| == 2 && s.q == Block(Zero, 2)
    && Chained(Zero, s.a) && Chained(s.q, s.d) && Chained(s.q, s.t) && Chained(s.q, s.e)
    && (forall i :: 0 <= i < 6 ==> Plain(s.a[i])) && Plain(s.d[0]) && s.d[1].content == 7 && s.t[0].content == 7
    && (forall i :: 0 <= i < 2 ==> Plain(s.e[i]))
    && Differ(Zero, s.a, s.q, s.d) && Differ(Zero, s.a, s.q, s.t) && Differ(Zero, s.a, s.q, s.e)
    && Differ(s.q, s.d, s.q, s.t) && Differ(s.q, s.d, s.q, s.e) && Differ(s.q, s.t, s.q, s.e)
  }

  /** Of two towers, blocks of the same number have different contents. */
  ghost predicate Differ(c: BlockId, s: seq<BlockId>, c': BlockId, t: seq<BlockId>)
  {
    && Chained(c, s) && Chained(c', t)
    && forall i, j :: 0 <= i < |s| && 0 <= j < |t| && Num(c) + i == Num(c') + j ==> s[i].content != t[j].content
  }

  lemma {:induction false} Disjoint(c: BlockId, s: seq<BlockId>, c': BlockId, t: seq<BlockId>)
    requires Differ(c, s, c', t)
    ensures forall b :: b in s ==> b !in t
  {
    hide Num;
    forall b | b in s ensures b !in t {
      var i :| 0 <= i < |s| && s[i] == b;
      ChainedNum(c, s, i);
      NotAmong(c', t, b);
    }
  }

  lemma {:induction false} Above(c: BlockId, s: seq<BlockId>, b: BlockId)
    requires Chained(c, s) && Num(b) <= Num(c)
    ensures b !in s
  {
    NotAmong(c, s, b);
  }

  /** The branches on top of the irreversible block have nothing in common with each other or with the chain. */
  lemma {:induction false} StoryApart(s: Story)
    requires Told(s)
    ensures Num(s.q) == 1 && s.q !in Elements(s.a) + Elements(s.d) + Elements(s.t) + Elements(s.e)
    ensures Elements(s.a) !! Elements(s.d) && Elements(s.a) !! Elements(s.t) && Elements(s.a) !! Elements(s.e)
    ensures Elements(s.d) !! Elements(s.t) && Elements(s.d) !! Elements(s.e)
  {
    hide Num, Chained, Differ;
    Step(s.q);
    NotAmong(Zero, s.a, s.q);
    Above(s.q, s.d, s.q);
    Above(s.q, s.t, s.q);
    Above(s.q, s.e, s.q);
    Disjoint(Zero, s.a, s.q, s.d);
    Disjoint(Zero, s.a, s.q, s.t);
    Disjoint(Zero, s.a, s.q, s.e);
    Disjoint(s.q, s.d, s.q, s.t);
    Disjoint(s.q, s.d, s.q, s.e);
  }

  /** The last block of a tower and those below it. */
  lemma {:induction false} LastApart(c: BlockId, blocks: seq<BlockId>)
    requires Chained(c, blocks) && |blocks| > 1
    ensures var n := |blocks| - 1;
            && Elements(blocks) == Elements(blocks[..n]) + {blocks[n]} && blocks[n] !in Elements(blocks[..n])
            && blocks[n - 1] in Elements(blocks[..n]) && blocks[n].Block? && blocks[n].previous == blocks[n - 1]
  {
    hide Num;
    var n := |blocks| - 1;
    ChainedNum(c, blocks, n);
    assert blocks == blocks[..n] + [blocks[n]];
    assert blocks[..n][n - 1] == blocks[n - 1];
    assert blocks[n].previous == ([c] + blocks)[n];
  }

  lemma {:induction false} Member(blocks: seq<BlockId>, i: nat)
    requires i < |blocks|
    ensures blocks[i] in Elements(blocks)
  {
  }

  /** How far back the three highest blocks lead. */
  lemma {:induction false} StoryBack(s: Story)
    requires Told(s)
    ensures Num(s.a[5]) == 6 && Num(s.t[5]) == 7 && Num(s.d[5]) == 7 && Num(s.e[1]) == 3
    ensures Back(s.t[5], 5) == s.t[0] && Back(s.t[5], 6) == s.q && Parts(s.t[5], s.a[5], 7, 6)
    ensures Back(s.d[5], 2) == s.d[3] && Back(s.d[5], 4) == s.d[1] && Back(s.d[5], 5) == s.d[0]
    ensures Back(s.e[1], 2) == s.q && Parts(s.d[5], s.e[1], 6, 2) && Back(s.a[5], 6) == Zero
  {
    hide Num, Back, Parts, Chained, Differ, Elements;
    Step(s.q);
    StoryApart(s);
    ChainedBack(Zero, s.a, 5);
    ChainedBack(Zero, s.a, 6);
    ChainedBack(s.q, s.t, 5);
    ChainedBack(s.q, s.t, 6);
    Further(s.t[5], 6);
    Member(s.a, 0);
    PartsAbove(s.t[5], s.a[5], 7, 6);
    ChainedBack(s.q, s.d, 2);
    ChainedBack(s.q, s.d, 4);
    ChainedBack(s.q, s.d, 5);
    ChainedBack(s.q, s.d, 6);
    ChainedBack(s.q, s.e, 1);
    ChainedBack(s.q, s.e, 2);
    Member(s.d, 0);
    Member(s.e, 0);
    PartsAbove(s.d[5], s.e[1], 6, 2);
  }

  lemma {:induction false} PrefixStands(c: BlockId, blocks: seq<BlockId>, n: nat)
    requires Chained(c, blocks) && n <= |blocks|
    ensures Chained(c, blocks[..n])
  {
    forall i | 0 <= i < n ensures blocks[..n][i].previous == ([c] + blocks[..n])[i] {
      assert blocks[i].previous == ([c] + blocks)[i];
    }
  }

  /** The first half of the run: all but the highest blocks are known, and six of them are the chain. */
  method Prepare(db: ChainDatabase<nat>, s: Story) returns (r: seq<Outcome>)
    requires Told(s) && Quiet(db, 0) && db.head == Zero && db.fork.items == map[]
    modifies db, db.fork
    ensures r == Times(6, Extended) + Times(11, Ignored) && Quiet(db, 0) && db.head == s.a[5]
    ensures db.fork.items.Keys == Elements(s.a) + {s.q} + Elements(s.d[..5]) + Elements(s.t[..5])
  {
    hide Num, Quiet, Roomy, Told, Elements, Rooted, Chained, Plain;
    StoryRooted(s);
    var r1 := GrowAll(db, 0, s.a);
    assert db.fork.items.Keys == Elements(s.a);
    var r2 := RememberAll(db, 0, [s.q]);
    assert db.fork.items.Keys == Elements(s.a) + {s.q};
    var r3 := RememberAll(db, 0, s.d[..5]);
    var r4 := RememberAll(db, 0, s.t[..5]);
    r := r1 + (r2 + r3 + r4);
    assert r2 + r3 + r4 == Times(11, Ignored);
  }

  /** What the blocks of the run stand on. */
  lemma {:induction false} StoryRooted(s: Story)
    requires Told(s)
    ensures |s.a| == |s.d| == |s.t| == 6 && |s.e| == 2 && Chained(Zero, s.a) && s.a[5].Block? && Num(s.a[5]) == 6
    ensures forall b :: b in s.a ==> Plain(b)
    ensures Rooted(Elements(s.a), [s.q]) && Rooted(Elements(s.a) + {s.q}, s.d[..5]) && Elements([s.q]) == {s.q}
    ensures Rooted(Elements(s.a) + {s.q} + Elements(s.d[..5]), s.t[..5])
    ensures forall b :: b in [s.q] || b in s.d[..5] || b in s.t[..5] ==> Num(b) <= 6
  {
    hide Num, Differ, Rooted, Chained, Plain;
    hide Elements;
    StoryApart(s);
    StoryBack(s);
    LastApart(s.q, s.d);
    LastApart(s.q, s.t);
    PrefixStands(s.q, s.d, 5);
    PrefixStands(s.q, s.t, 5);
    LowTower(s.q, s.d[..5], 6);
    LowTower(s.q, s.t[..5], 6);
    ElementsIs(s.d[..5]);
    ElementsIs(s.t[..5]);
    ElementsIs(s.a);
    ElementsIs([s.q]);
    OneRooted(Elements(s.a), s.q);
    TowerRooted(Elements(s.a) + {s.q}, s.q, s.d[..5]);
    TowerRooted(Elements(s.a) + {s.q} + Elements(s.d[..5]), s.q, s.t[..5]);
    ChainedIs(Zero, s.a);
  }

  lemma {:induction false} ElementsIs(blocks: seq<BlockId>)
    ensures forall b :: b in Elements(blocks) <==> b in blocks
    ensures |blocks| == 1 ==> Elements(blocks) == {blocks[0]}
  {
  }

  lemma {:induction false} ChainedIs(c: BlockId, blocks: seq<BlockId>)
    requires Chained(c, blocks)
    ensures forall i :: 0 <= i < |blocks| ==> blocks[i].Block?
  {
  }

  lemma {:induction false} OneRooted(known: set<BlockId>, q: BlockId)
    requires q.Block? && q.previous == Zero && q !in known
    ensures Rooted(known, [q])
  {
  }

  lemma {:induction false} LowTower(c: BlockId, blocks: seq<BlockId>, top: nat)
    requires Chained(c, blocks) && Num(c) + |blocks| <= top
    ensures forall b :: b in blocks ==> Num(b) <= top
  {
    hide Num;
    forall b | b in blocks ensures Num(b) <= top {
      var i :| 0 <= i < |blocks| && blocks[i] == b;
      ChainedNum(c, blocks, i);
    }
  }

  lemma {:induction false} UntriedTower(c: BlockId, blocks: seq<BlockId>)
    requires Chained(c, blocks) && blocks != []
    ensures |blocks| <= Num(blocks[|blocks| - 1])
    ensures Untried(blocks[|blocks| - 1], |blocks|) == Elements(blocks)
  {
    hide Num, Back;
    var tip, n := blocks[|blocks| - 1], |blocks|;
    ChainedNum(c, blocks, n - 1);
    var down := Descend(tip, n);
    forall i | 0 <= i < n ensures down[i] == blocks[n - 1 - i] {
      ChainedBack(c, blocks, i);
    }
    forall b | b in blocks ensures b in down {
      var i :| 0 <= i < n && blocks[i] == b;
      assert down[n - 1 - i] == b;
    }
  }

  /** What a tower stands on is its own block below or its base. */
  lemma {:induction false} StandsOn(c: BlockId, blocks: seq<BlockId>, b: BlockId)
    requires Chained(c, blocks) && b in Elements(blocks)
    ensures b.Block? && (b.previous == c || b.previous in Elements(blocks))
  {
    var i :| 0 <= i < |blocks| && blocks[i] == b;
    assert blocks[i].previous == ([c] + blocks)[i];
    assert i > 0 ==> ([c] + blocks)[i] == blocks[i - 1];
  }

  /** Nothing else stands on the blocks that are removed. */
  lemma {:induction false} StoryKeeps(s: Story, b: BlockId)
    requires Told(s) && (b in Elements(s.a) || b == s.q || b in Elements(s.d))
    ensures b.Block? && b.previous !in Elements(s.t)
  {
    hide Num, Differ, Chained, Elements;
    StoryApart(s);
    Above(s.q, s.t, Zero);
    ElementsIs(s.t);
    if b in Elements(s.a) {
      StandsOn(Zero, s.a, b);
    } else if b in Elements(s.d) {
      StandsOn(s.q, s.d, b);
    }
  }

  lemma {:induction false} StoryTidy(s: Story, items: map<BlockId, Item>, left: map<BlockId, Item>)
    requires Told(s) && Tidy(items) && left == items - Elements(s.t)
    requires items.Keys == Elements(s.a) + {s.q} + Elements(s.d[..5]) + Elements(s.t)
    ensures Tidy(left) && left.Keys == Elements(s.a) + {s.q} + Elements(s.d[..5])
    ensures forall k :: 0 <= k < Num(s.a[5]) ==>
      Back(s.a[5], k) in left && Back(s.a[5], k) in items && left[Back(s.a[5], k)] == items[Back(s.a[5], k)]
  {
    hide Num, Back, Tidy, Chained, Differ, Elements;
    StoryApart(s);
    LastApart(s.q, s.d);
    forall b | b in items && b !in Elements(s.t) && b.Block? ensures b.previous !in Elements(s.t) {
      StoryKeeps(s, b);
    }
    TidyLeft(items, Elements(s.t));
    StoryBack(s);
    forall k | 0 <= k < Num(s.a[5]) ensures Back(s.a[5], k) in Elements(s.a) {
      ChainedBack(Zero, s.a, k);
      Member(s.a, 5 - k);
    }
  }

  lemma {:induction false} IrreversibleReplays(q: BlockId)
    requires q == Block(Zero, 2)
    ensures Replay(Effect, 0, q) == Some(1)
  {
    assert Replay(Effect, 0, Zero) == Some(0);
  }

  lemma {:induction false} FirstOnly(c: BlockId, q: BlockId)
    requires IsAncestor(c, q) && Num(c) >= 1 == Num(q)
    ensures c == q
  {
  }

  /** The switch that brings the chain down to the irreversible block. */
  method DropBack(db: ChainDatabase<nat>, s: Story) returns (r: Outcome)
    requires Told(s) && Quiet(db, 0) && db.head == s.a[5]
    requires db.fork.items.Keys == Elements(s.a) + {s.q} + Elements(s.d[..5]) + Elements(s.t[..5])
    modifies db, db.fork
    ensures r == Lost && Quiet(db, 1) && db.head == s.q
    ensures db.fork.items.Keys == Elements(s.a) + {s.q} + Elements(s.d[..5])
  {
    hide Num, Back, Replay, Effect, Attempt, Parts, Told, Tidy, Left, Untried, LibsLogged, IsAncestor, OnTrail,
      Elements, Chained;
    hide ChainDatabase.UndoOk, ChainDatabase.Behaved, ForkDatabase.Valid;
    StoryFacts(s);
    StoryBack(s);
    GenesisReplays();
    ghost var w, t;
    r, w, t := TakeOver(db, 0, 0, s.t[5], 7, 6);
    BadBehind(w, s.t[5], 7, s.q);
    UntriedTower(s.q, s.t);
    LeftAll(w.items);
    StoryTidy(s, w.items, db.fork.items);
    FirstOnly(db.head, s.q);
    IrreversibleReplays(s.q);
    BlockedAtFirst(w.items, db.fork.Live(), db.fork.at.value, s.a[5], db.fork.items);
  }

  lemma {:induction false} StoryFacts(s: Story)
    requires Told(s)
    ensures |s.a| == |s.d| == |s.t| == 6 && |s.e| == 2 && s.q == Block(Zero, 2) && Num(s.q) == 1
    ensures Chained(s.q, s.t) && s.a[5].Block? && s.t[5].Block? && s.t[5].previous == s.t[4] && s.t[0].content == 7
    ensures s.t[0].Block? && s.t[4] != s.a[5]
    ensures var known := Elements(s.a) + {s.q} + Elements(s.d[..5]) + Elements(s.t[..5]);
            && s.t[5] !in known && s.t[4] in known
            && known + {s.t[5]} == Elements(s.a) + {s.q} + Elements(s.d[..5]) + Elements(s.t)
  {
    hide Num, Differ, Elements, Chained;
    StoryApart(s);
    LastApart(s.q, s.t);
    LastApart(s.q, s.d);
    Member(s.t, 4);
    Member(s.t, 5);
    Member(s.a, 5);
    ChainedIs(Zero, s.a);
    ChainedIs(s.q, s.t);
  }

  lemma {:induction false} StoryEnd(s: Story)
    requires Told(s)
    ensures |s.d| == 6 && |s.e| == 2 && s.q == Block(Zero, 2) && Chained(s.q, s.e) && s.e[1].Block?
    ensures s.d[5].Block? && s.d[5].previous == s.d[4] && s.d[4] != s.e[1]
    ensures var known := Elements(s.a) + {s.q} + Elements(s.d[..5]);
            && s.d[4] in known && s.d[5] !in known + Elements(s.e) && forall b :: b in s.e ==> Plain(b) && b !in known
    ensures Plain(s.d[0]) && Num(s.d[0]) == 2 && s.d[1].Block? && s.d[1].content == 7 && Num(s.d[3]) == 5
  {
    hide Num, Differ, Plain, Elements, Chained;
    StoryApart(s);
    LastApart(s.q, s.d);
    ChainedNum(s.q, s.d, 0);
    ChainedNum(s.q, s.d, 3);
    Member(s.d, 4);
    Member(s.d, 5);
    Member(s.e, 1);
    ChainedIs(s.q, s.d);
    ChainedIs(s.q, s.e);
    ElementsIs(s.e);
  }

  /** The second half: two blocks extend the chain again, and the highest of all leads to a switch that is lost. */
  method Strand(db: ChainDatabase<nat>, s: Story) returns (r: seq<Outcome>)
    requires Told(s) && Quiet(db, 1) && db.head == s.q
    requires db.fork.items.Keys == Elements(s.a) + {s.q} + Elements(s.d[..5])
    modifies db, db.fork
    ensures r == [Extended, Extended, Lost]
  {
    hide Num, Back, Replay, Effect, Attempt, Parts, Told, Plain, Quiet, Roomy, Elements, Chained, Tidy;
    hide ChainDatabase.Stranded, ChainDatabase.ChainOk;
    StoryEnd(s);
    StoryBack(s);
    var r1 := GrowAll(db, 1, s.e);
    IrreversibleReplays(s.q);
    QuietFacts(db, 1);
    var r2, w, t := TakeOver(db, 1, 1, s.d[5], 6, 2);
    ForgottenAttempt(w, s.d[5], 6);
    r := r1 + [r2];
  }

  /**
   A way back of two blocks that fails although nothing above the branch point is irreversible and the pointers from
   the old head are all there: the one block to be undone has been forgotten meanwhile.
   */
  method BlockForgotten(x: nat, y: nat, z: nat, u: nat) returns (r: seq<Outcome>)
    requires Plain(Block(Zero, x)) && Plain(Block(Zero, y)) && Plain(Block(Zero, z)) && Plain(Block(Zero, u))
    requires x != y && x != z && x != u && y != z && y != u && z != u
    ensures r == Times(6, Extended) + Times(11, Ignored) + [Lost] + [Extended, Extended, Lost]
  {
    var s := Tell(x, y, z, u);
    var db := NewDatabase();
    var r1 := Prepare(db, s);
    var r2 := DropBack(db, s);
    var r3 := Strand(db, s);
    r := r1 + [r2] + r3;
  }

  method Tell(x: nat, y: nat, z: nat, u: nat) returns (s: Story)
    requires Plain(Block(Zero, x)) && Plain(Block(Zero, y)) && Plain(Block(Zero, z)) && Plain(Block(Zero, u))
    requires x != y && x != z && x != u && y != z && y != u && z != u
    ensures Told(s)
  {
    hide Told, Tower;
    var a, e := seq(6, i => x), seq(2, i => u);
    var d, t := seq(6, i => if i == 1 then 7 else y), seq(6, i => if i == 0 then 7 else z);
    var q := Block(Zero, 2);
    s := Story(Tower(Zero, a), q, Tower(q, d), Tower(q, t), Tower(q, e));
    ToldIs(s, a, d, t, e, x, y, z, u);
  }

  lemma {:induction false} ToldIs(
    s: Story, a: seq<nat>, d: seq<nat>, t: seq<nat>, e: seq<nat>, x: nat, y: nat, z: nat, u: nat)
    requires Plain(Block(Zero, x)) && Plain(Block(Zero, y)) && Plain(Block(Zero, z)) && Plain(Block(Zero, u))
    requires x != y && x != z && x != u && y != z && y != u && z != u
    requires |a| == |d| == |t| == 6 && |e| == 2 && (forall i :: 0 <= i < 6 ==> a[i] == x)
    requires (forall i :: 0 <= i < 6 ==> d[i] == if i == 1 then 7 else y)
    requires (forall i :: 0 <= i < 6 ==> t[i] == if i == 0 then 7 else z) && (forall i :: 0 <= i < 2 ==> e[i] == u)
    requires s == Story(Tower(Zero, a), Block(Zero, 2), Tower(s.q, d), Tower(s.q, t), Tower(s.q, e))
    ensures Told(s)
  {
    hide Num, Tower, Chained, Differ;
    Step(s.q);
    TowerStands(Zero, a);
    TowerStands(s.q, d);
    TowerStands(s.q, t);
    TowerStands(s.q, e);
    TowersDiffer(Zero, a, s.q, d);
    TowersDiffer(Zero, a, s.q, t);
    TowersDiffer(Zero, a, s.q, e);
    TowersDiffer(s.q, d, s.q, t);
    TowersDiffer(s.q, d, s.q, e);
    TowersDiffer(s.q, t, s.q, e);
  }

  lemma {:induction false} TowersDiffer(c: BlockId, xs: seq<nat>, c': BlockId, ys: seq<nat>)
    requires forall i, j :: 0 <= i < |xs| && 0 <= j < |ys| && Num(c) + i == Num(c') + j ==> xs[i] != ys[j]
    ensures Differ(c, Tower(c, xs), c', Tower(c', ys))
  {
    hide Num, Tower;
    TowerStands(c, xs);
    TowerStands(c', ys);
  }

  // ---------- The irreversible number falls ----------

  /** A third block that makes the only first block irreversible. */
  lemma {:induction false} LoggingTrial(v: View, c: BlockId, q: BlockId)
    requires c.Block? && c.content == 9 && Num(c) == 3 && Num(v.head) == 3 && AtNumber(v.index, 1) == {q}
    ensures Trial(Effect, Itself, v, 0, 0, 0, c) == Trace(1, 1, 0, 1, false) && Effect(0, c) == Done(1)
    ensures CanLog(v, 0, 1)
  {
    assert |AtNumber(v.index, 1)| == 1;
    LogToStep(v, 0, 0, 1);
    LogToEnd(v, 0, 1, 1);
  }

  method GrowLogging(db: ChainDatabase<nat>, c: BlockId, ghost p: BlockId) returns (r: Outcome)
    requires Quiet(db, 0) && c.Block? && c.content == 9 && c.previous == db.head && Num(c) == 3 && c !in db.fork.items
    requires db.fork.items.Keys == {p, db.head} && Num(p) == 1
    modifies db, db.fork
    ensures r == Extended && Quiet(db, 1) && db.head == c && Roomy(db, 1)
    ensures db.fork.items.Keys == old(db.fork.items).Keys + {c}
  {
    hide Trial, CanSwitch, SwitchOutcome, Misplaced, Replay, LibsLogged, Chain, Tracked, Left, Effect, Back,
      CanFollow, Num, Tidy, Appended, Mended;
    hide ChainDatabase.StateOk, ChainDatabase.LogLong, ForkDatabase.Valid, ChainDatabase.Switches;
    HigherThanPrevious(c);
    TakesNew(db, c);
    ghost var v := db.Next(c);
    LeftAll(v.items);
    assert AtNumber(v.index, 1) == {p};
    LoggingTrial(v, c, p);
    r := db.PushBlock(c);
  }

  lemma {:induction false} PlainTower(c: BlockId, blocks: seq<BlockId>, i: nat)
    requires Chained(c, blocks) && i < |blocks| && Replay(Effect, 0, c) == Some(0)
    requires forall b :: b in blocks ==> Plain(b)
    ensures Replay(Effect, 0, blocks[i]) == Some(0)
  {
    hide Num;
    assert blocks[i] in blocks && blocks[i].previous == ([c] + blocks)[i];
    if i > 0 {
      PlainTower(c, blocks, i - 1);
    }
  }

  /**
   A branch that is longer and has fewer confirmations: after the switch to it the irreversible number of the state
   has fallen, while the log has not.
   */
  method IrreversibleNumberFalls(x: nat, y: nat) returns (r: seq<Outcome>, before: nat, after: nat, logged: nat)
    requires x != y && Plain(Block(Zero, x)) && Plain(Block(Zero, y))
    ensures r == [Extended, Extended, Extended, Ignored, Ignored, Switched]
    ensures before == 1 && after == 0 && logged == 1
  {
    hide Num, Back, Replay, Effect, Quiet, Roomy, Attempt, Parts, Elements, Tower, Chained, Rooted, Plain, Tidy;
    hide ChainDatabase.Stranded, ChainDatabase.LogLong, ChainDatabase.UndoOk, ChainDatabase.Behaved, ForkDatabase.Valid;
    var xs, ys := [x, x], [y, y, y];
    var old' := Tower(Zero, xs);
    var new' := Tower(old'[0], ys);
    var c := Block(old'[1], 9);
    TowerPlain(Zero, xs);
    TowerPlain(old'[0], ys);
    PlainContent(Block(Zero, y));
    ShortBranches(old', c, new');
    var db := NewDatabase();
    var r1 := GrowAll(db, 0, old');
    assert db.fork.items.Keys == {old'[0], old'[1]};
    var r2 := GrowLogging(db, c, old'[0]);
    QuietFacts(db, 1);
    before := db.state;
    var r3 := RememberAll(db, 1, new'[..2]);
    QuietFacts(db, 1);
    PlainReplays(old'[0]);
    var r4, w, t := TakeOver(db, 1, 0, new'[2], 3, 2);
    LowerAttempt(w, new'[2], new');
    PlainTower(old'[0], new', 2);
    after, logged := db.state, |db.log|;
    r := r1 + [r2] + r3 + [r4];
  }

  lemma {:induction false} LowerAttempt(w: View, tip: BlockId, blocks: seq<BlockId>)
    requires |blocks| == 3 && Num(tip) == 4 && Back(tip, 0) == blocks[2] && Back(tip, 1) == blocks[1]
    requires Back(tip, 2) == blocks[0] && w.head == blocks[0] && forall b :: b in blocks ==> Plain(b)
    ensures var t := Attempt(Effect, Itself, w, 0, 1, 0, tip, 3); t.done == 3 && t.logged == 1 && !t.stuck
  {
    hide Back, Num, Attempt, Plain;
    forall i | 0 <= i < 3 ensures Plain(Back(tip, i)) && Num(w.head) <= Num(Back(tip, i)) {
      assert i == 0 || i == 1 || i == 2;
      assert blocks[2 - i] in blocks;
    }
    PlainAttempt(w, 1, 0, tip, 3, 3);
    NothingTried(w, 0, 1, 0, tip);
  }

  lemma {:induction false} PlainContent(b: BlockId)
    requires Plain(b)
    ensures b.content != 2 && b.content != 7 && b.content != 9
  {
  }

  /** Two blocks and a third, and three on top of the first of them. */
  lemma {:induction false} ShortBranches(old': seq<BlockId>, c: BlockId, new': seq<BlockId>)
    requires |old'| == 2 && |new'| == 3 && Chained(Zero, old') && Chained(old'[0], new')
    requires c.Block? && c.previous == old'[1] && forall j :: 0 <= j < 3 ==> new'[j].content != c.content
    requires forall i, j :: 0 <= i < 2 && 0 <= j < 3 ==> old'[i].content != new'[j].content
    ensures Num(old'[0]) == 1 && Num(c) == 3 && Num(new'[2]) == 4 && Elements(old') == {old'[0], old'[1]}
    ensures old'[0].Block? && old'[0].previous == Zero && c !in {old'[0], old'[1]}
    ensures new'[2].Block? && new'[2].previous != c
    ensures var known := {old'[0], old'[1]} + {c};
            && Rooted(known, new'[..2]) && new'[2].previous in known + Elements(new'[..2])
            && new'[2] !in known + Elements(new'[..2])
    ensures forall b :: b in new'[..2] ==> Num(b) <= 3
    ensures Back(new'[2], 0) == new'[2] && Back(new'[2], 1) == new'[1] && Back(new'[2], 2) == new'[0]
    ensures Back(c, 2) == old'[0] && Parts(new'[2], c, 3, 2)
  {
    hide Num, Back, Parts, Rooted;
    TipStands(Zero, old', c);
    var all := old' + [c];
    assert all[2] == c && all[0] == old'[0] && all[1] == old'[1];
    PrefixStands(old'[0], new', 2);
    ChainedNum(Zero, all, 0);
    ChainedNum(Zero, all, 2);
    ChainedNum(old'[0], new', 2);
    LowTower(old'[0], new'[..2], 3);
    assert Differ(old'[0], new', Zero, all);
    Disjoint(old'[0], new', Zero, all);
    assert old'[0].previous == ([Zero] + old')[0] && new'[2].previous == ([old'[0]] + new')[2];
    assert new'[..2][1] == new'[1] && new'[1] in new' && new'[2] in new';
    TowerRooted({old'[0], old'[1]} + {c}, old'[0], new'[..2]) by {
      forall b | b in new'[..2] ensures b !in {old'[0], old'[1]} + {c} {
        assert b in new' && c in all && old'[0] in all && old'[1] in all;
      }
    }
    ChainedBack(old'[0], new', 0);
    ChainedBack(old'[0], new', 1);
    ChainedBack(old'[0], new', 2);
    ChainedBack(old'[0], new', 3);
    ChainedBack(Zero, all, 1);
    ChainedBack(Zero, all, 2);
    assert old'[1] in all && c in all;
    PartsAbove(new'[2], c, 3, 2);
  }

  // ---------- A block of another chain in the log ----------

  /** A quiet chain whose fork database has a failed block on top of the chain's head as its head. */
  ghost predicate Failing(db: ChainDatabase<nat>, bad: BlockId)
    reads db, db.fork
  {
    && db.ChainOk() && db.fork.held == {} && db.apply == Effect && db.lib == Itself
    && db.state == 0 && db.log == [] && db.fork.Head() == bad && bad.Block? && bad.previous == db.head
    && db.fork.maxSize >= Num(db.head) + 1
  }

  method FailOnTop(db: ChainDatabase<nat>, bad: BlockId) returns (r: Outcome)
    requires Quiet(db, 0) && Roomy(db, 0) && bad.Block? && bad.content == 7
    requires bad.previous == db.head && bad !in db.fork.items && db.head != Zero
    modifies db, db.fork
    ensures r == Refused && Failing(db, bad) && db.head == old(db.head)
    ensures db.fork.items.Keys == old(db.fork.items).Keys
  {
    hide Num, Back, Replay, Effect, Trial, CanSwitch, SwitchOutcome, Misplaced, LibsLogged, Chain, Tracked, Left,
      CanFollow, Tidy, Mended;
    hide ChainDatabase.StateOk, ChainDatabase.LogLong, ForkDatabase.Valid, ChainDatabase.Switches;
    Step(bad);
    BadFails(bad);
    TakesNew(db, bad);
    r := db.PushBlock(bad);
  }

  /** A first block arrives again. */
  method Again(db: ChainDatabase<nat>, ghost bad: BlockId, p: BlockId) returns (r: Outcome)
    requires Failing(db, bad) && p.Block? && p.previous == Zero && p in db.fork.items && db.head != Zero
    modifies db, db.fork
    ensures r == Refused && Failing(db, bad) && db.head == old(db.head)
    ensures db.fork.items.Keys == old(db.fork.items).Keys - {p}
  {
    hide Num, Back, Replay, Effect, Trial, CanSwitch, SwitchOutcome, Misplaced, LibsLogged, Chain, Tracked, Left,
      CanFollow, Mended;
    hide ChainDatabase.StateOk, ChainDatabase.LogLong, ForkDatabase.Valid, ChainDatabase.Switches;
    Step(p);
    Step(bad);
    HigherThanPrevious(db.head);
    r := db.PushBlock(p);
  }

  /** A block that makes number 1 irreversible. */
  method LogFirst(db: ChainDatabase<nat>, ghost bad: BlockId, c: BlockId, q: BlockId) returns (r: Outcome)
    requires Failing(db, bad) && c.Block? && c.content == 9 && c.previous == db.head && Num(c) == 3 && Num(q) == 1
    requires db.head != Zero && db.fork.items.Keys == {q, db.head}
    modifies db, db.fork
    ensures r == Extended && db.log == [q]
  {
    hide Num, Back, Replay, Effect, Trial, CanSwitch, SwitchOutcome, Misplaced, LibsLogged, Chain, Tracked, Left,
      CanFollow, Mended;
    hide ChainDatabase.StateOk, ChainDatabase.LogLong, ForkDatabase.Valid, ChainDatabase.Switches;
    Step(c);
    Step(bad);
    ghost var v := db.Next(c);
    assert AtNumber(v.index, 1) == {q};
    LoggingTrial(v, c, q);
    r := db.PushBlock(c);
    assert Fetched(v, 1, db.log[0]);
    assert db.log[0] in AtNumber(v.index, 1);
  }

  /**
   Once a block on top of the head has failed, the fork database's head stays on it.  If an older block of the chain
   then arrives a second time it is taken for another failure and removed; and if a rival of it is known, that is
   what reaches the log.
   */
  method RivalLogged(x: nat, y: nat) returns (outcomes: seq<Outcome>, log: seq<BlockId>)
    requires x != y && Plain(Block(Zero, x)) && Plain(Block(Zero, y))
    ensures outcomes == [Extended, Extended, Ignored, Refused, Refused, Extended]
    ensures log == [Block(Zero, y)]
  {
    hide Num, Effect, Failing, Quiet, Roomy;
    var p, q := Block(Zero, x), Block(Zero, y);
    var r := Block(p, x);
    var bad, c := Block(r, 7), Block(r, 9);
    Step(p);
    Step(q);
    Step(r);
    Step(bad);
    Step(c);
    var db := NewDatabase();
    var r1 := Grow(db, 0, p);
    var r2 := Grow(db, 0, r);
    var r3 := Remember(db, 0, q);
    var r4 := FailOnTop(db, bad);
    var r5 := Again(db, bad, p);
    assert db.fork.items.Keys == {q, r};
    var r6 := LogFirst(db, bad, c, q);
    outcomes, log := [r1, r2, r3, r4, r5, r6], db.log;
  }

  lemma {:induction false} BadFails(b: BlockId)
    requires b.Block? && b.content == 7
    ensures forall s :: Effect(s, b) == Failed(None)
  {
  }
}
