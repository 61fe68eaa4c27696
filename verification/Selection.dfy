/**
 Who produces blocks in the next round: the most voted witnesses, miners from the proof-of-work
 queue, and the running witnesses in the lead, followed by the shuffle.
 */
module Selection {
  import opened Common
  import opened ProxyForest
  import opened VirtualTime

  type Witnesses = map<Name, Witness>

  /** The witnesses with a block signing key. */
  ghost function Keyed(ws: Witnesses): set<Name>
  {
    set w | w in ws && ws[w].hasKey
  }

  /** The order of the index by votes and name. */
  predicate VotedBefore(ws: Witnesses, a: Name, b: Name)
    requires a in ws && b in ws
  {
    ws[a].votes > ws[b].votes || (ws[a].votes == ws[b].votes && a < b)
  }

  /** The order of the index by scheduled time and id. */
  predicate RunsBefore(ws: Witnesses, a: Name, b: Name)
    requires a in ws && b in ws
  {
    ws[a].scheduledTime < ws[b].scheduledTime || (ws[a].scheduledTime == ws[b].scheduledTime && ws[a].id <= ws[b].id)
  }

  /** Two witnesses that run before each other have the same time and id. */
  lemma {:induction false} RunsOnce(ws: Witnesses, a: Name, b: Name)
    requires a in ws && b in ws
    ensures RunsBefore(ws, a, b) || RunsBefore(ws, b, a)
    ensures RunsBefore(ws, a, b) && RunsBefore(ws, b, a) <==>
      ws[a].scheduledTime == ws[b].scheduledTime && ws[a].id == ws[b].id
    ensures ws[a].scheduledTime < ws[b].scheduledTime ==> !RunsBefore(ws, b, a)
  {
  }

  method FirstByVotes(ws: Witnesses, pool: set<Name>) returns (first: Name)
    requires pool != {} && forall w :: w in pool ==> w in ws
    ensures first in pool
    ensures forall w :: w in pool && w != first ==> VotedBefore(ws, first, w)
  {
    first :| first in pool;
    var rest := pool - {first};
    while rest != {}
      invariant rest <= pool && first in pool && first !in rest
      invariant forall w :: w in pool && w !in rest && w != first ==> VotedBefore(ws, first, w)
      decreases rest
    {
      var w :| w in rest;
      if VotedBefore(ws, w, first) {
        first := w;
      }
      rest := rest - {w};
    }
  }

  method FirstByTime(ws: Witnesses, pool: set<Name>) returns (first: Name)
    requires pool != {} && forall w :: w in pool ==> w in ws
    ensures first in pool
    ensures forall w :: w in pool ==> RunsBefore(ws, first, w)
  {
    first :| first in pool;
    var rest := pool - {first};
    while rest != {}
      invariant rest <= pool && first in pool && first !in rest
      invariant forall w :: w in pool && w !in rest ==> RunsBefore(ws, first, w)
      decreases rest
    {
      var w :| w in rest;
      if !RunsBefore(ws, first, w) {
        first := w;
      }
      rest := rest - {w};
    }
  }

  method FirstByWork(ws: Witnesses, pool: set<Name>) returns (first: Name)
    requires pool != {} && forall w :: w in pool ==> w in ws
    ensures first in pool
    ensures forall w :: w in pool ==> ws[first].powWorker <= ws[w].powWorker
  {
    first :| first in pool;
    var rest := pool - {first};
    while rest != {}
      invariant rest <= pool && first in pool && first !in rest
      invariant forall w :: w in pool && w !in rest ==> ws[first].powWorker <= ws[w].powWorker
      decreases rest
    {
      var w :| w in rest;
      if ws[w].powWorker < ws[first].powWorker {
        first := w;
      }
      rest := rest - {w};
    }
  }

  /** `active` lists the members of `chosen`, each once. */
  ghost predicate Lists(active: seq<Name>, chosen: set<Name>)
  {
    && |active| == |chosen|
    && (forall w :: w in active <==> w in chosen)
    && (forall i, j :: 0 <= i < j < |active| ==> active[i] != active[j])
  }

  lemma {:induction false} ListsLength(active: seq<Name>, chosen: set<Name>)
    requires Lists(active, chosen)
    ensures |active| == |chosen|
  {
  }

  /** `active` lists witnesses by falling votes. */
  ghost predicate ByVotes(ws: Witnesses, active: seq<Name>)
  {
    forall i, j :: 0 <= i < j < |active| ==> active[i] in ws && active[j] in ws && VotedBefore(ws, active[i], active[j])
  }

  /** The witnesses with a key that come first by votes, as many as there are up to the limit, in that order. */
  ghost predicate Elected(ws: Witnesses, first: seq<Name>, limit: nat)
  {
    && |first| == (if |Keyed(ws)| < limit then |Keyed(ws)| else limit)
    && ByVotes(ws, first)
    && (forall i :: 0 <= i < |first| ==> first[i] in Keyed(ws))
    && forall i, w :: 0 <= i < |first| && w in Keyed(ws) && w !in first ==> VotedBefore(ws, first[i], w)
  }

  /** There is only one such list. */
  lemma {:induction false} ElectedOnce(ws: Witnesses, a: seq<Name>, b: seq<Name>, limit: nat)
    requires Elected(ws, a, limit) && Elected(ws, b, limit)
    ensures a == b
  {
    hide Keyed;
    for i := 0 to |a|
      invariant a[..i] == b[..i]
    {
      if a[i] != b[i] {
        ElectedBefore(ws, a, limit, i, b[i], b);
        ElectedBefore(ws, b, limit, i, a[i], a);
        assert false;
      }
    }
    assert a == a[..|a|] && b == b[..|a|];
  }

  /** Whoever is elected elsewhere in a list that starts alike comes after the one in this place. */
  lemma {:induction false} ElectedBefore(ws: Witnesses, a: seq<Name>, limit: nat, i: nat, w: Name, b: seq<Name>)
    requires Elected(ws, a, limit) && Elected(ws, b, limit) && i < |a| && a[..i] == b[..i] && w == b[i] != a[i]
    ensures a[i] in ws && w in ws && VotedBefore(ws, a[i], w)
  {
    hide VotedBefore;
    assert a[i] in Keyed(ws) && w in Keyed(ws);
    if w in a {
      var j :| 0 <= j < |a| && a[j] == w;
      if j < i {
        assert b[j] == a[..i][j] == b[i];
        ByVotesDistinct(ws, b, j, i);
        assert false;
      }
    }
  }

  lemma {:induction false} ByVotesDistinct(ws: Witnesses, active: seq<Name>, i: nat, j: nat)
    requires ByVotes(ws, active) && i < j < |active|
    ensures active[i] != active[j]
  {
  }

  /** The witnesses listed come one after the other in the queue, none of the rest before them. */
  ghost predicate ByWork(ws: Witnesses, mined: seq<Name>, rest: set<Name>)
  {
    && (forall i, j :: 0 <= i < j < |mined| ==>
          mined[i] in ws && mined[j] in ws && ws[mined[i]].powWorker <= ws[mined[j]].powWorker)
    && forall i :: 0 <= i < |mined| ==>
         mined[i] in ws && forall w :: w in rest ==> w in ws && ws[mined[i]].powWorker <= ws[w].powWorker
  }

  /**
   The queue is worked off from its front until there are enough miners: those taken off it that have a key and are
   not elected are the miners, in the order of the queue.
   */
  ghost predicate Mining(ws: Witnesses, first: seq<Name>, mined: seq<Name>, dequeued: set<Name>, limit: nat)
  {
    && |mined| <= limit && ByWork(ws, mined, {})
    && (forall w :: w in dequeued ==> w in ws && ws[w].powWorker > 0)
    && (forall w :: w in mined <==> w in dequeued && ws[w].hasKey && w !in first)
    && (forall a, b :: a in dequeued && b in ws && ws[b].powWorker > 0 && b !in dequeued ==>
          ws[a].powWorker <= ws[b].powWorker)
    && (if |mined| < limit then forall w :: w in ws && ws[w].powWorker > 0 ==> w in dequeued
        else forall w :: w in dequeued ==>
          mined != [] && ws[w].powWorker <= ws[mined[|mined| - 1]].powWorker)
  }

  /** The witnesses listed come one after the other by scheduled time, none of the rest before them. */
  ghost predicate ByTime(ws: Witnesses, rest: seq<Name>, pool: set<Name>)
  {
    && (forall i, j :: 0 <= i < j < |rest| ==> rest[i] in ws && rest[j] in ws && RunsBefore(ws, rest[i], rest[j]))
    && forall i :: 0 <= i < |rest| ==>
         rest[i] in ws && forall w :: w in pool ==> w in ws && RunsBefore(ws, rest[i], w)
  }

  /**
   Witnesses are looked at by scheduled time until the places are filled; those with a key that were not taken
   before get them, in that order.  The clock stands at the last one looked at.
   */
  ghost predicate Running(
    ws: Witnesses, now: nat, taken: seq<Name>, rest: seq<Name>, processed: set<Name>, time: nat, limit: nat)
  {
    && processed <= ws.Keys && ByTime(ws, rest, {})
    && (forall w :: w in rest <==> w in processed && ws[w].hasKey && w !in taken)
    && (forall a, b :: a in processed && b in ws && b !in processed ==> RunsBefore(ws, a, b))
    && (if |taken| + |rest| < limit then processed == ws.Keys
        else forall w :: w in processed ==> rest != [] && rest[|rest| - 1] in ws && RunsBefore(ws, w, rest[|rest| - 1]))
    && (processed == {} ==> time == now)
    && (forall w :: w in processed ==> ws[w].scheduledTime <= time)
    && (processed != {} ==> exists w :: w in processed && ws[w].scheduledTime == time)
  }

  /** The highest voted witnesses that have a key, in the order of their votes. */
  method SelectVoted(ws: Witnesses, limit: nat) returns (active: seq<Name>, chosen: set<Name>)
    ensures Lists(active, chosen) && chosen <= Keyed(ws)
    ensures |chosen| == if |Keyed(ws)| < limit then |Keyed(ws)| else limit
    ensures Elected(ws, active, limit)
  {
    hide Lists, Keyed, VotedBefore, ByVotes, Voted, Elected;
    active, chosen := [], {};
    ListsNone();
    var pool := ws.Keys;
    VotedNone(ws);
    while pool != {} && |chosen| < limit
      invariant pool <= ws.Keys && Voted(ws, pool, chosen)
      invariant Lists(active, chosen) && |chosen| <= limit && ByVotes(ws, active)
      decreases pool
    {
      var w := FirstByVotes(ws, pool);
      VotedNext(ws, pool, chosen, w);
      ByVotesNext(ws, pool, chosen, active, w);
      pool := pool - {w};
      if ws[w].hasKey {
        active := Append(active, chosen, w);
        chosen := chosen + {w};
      }
    }
    VotedIs(ws, pool, chosen);
    ElectedIs(ws, active, chosen, limit);
  }

  lemma {:induction false} ElectedIs(ws: Witnesses, active: seq<Name>, chosen: set<Name>, limit: nat)
    requires Lists(active, chosen) && chosen <= Keyed(ws) && ByVotes(ws, active)
    requires |chosen| == if |Keyed(ws)| < limit then |Keyed(ws)| else limit
    requires forall a, b :: a in chosen && b in Keyed(ws) && b !in chosen ==> VotedBefore(ws, a, b)
    ensures Elected(ws, active, limit)
  {
    hide Keyed, VotedBefore, ByVotes;
    forall i | 0 <= i < |active| ensures active[i] in chosen {
      assert active[i] in active;
    }
  }

  /** The pool is worked off by falling votes; who has a key is chosen. */
  ghost predicate Voted(ws: Witnesses, pool: set<Name>, chosen: set<Name>)
  {
    && (forall w :: w in chosen ==> w in ws && w !in pool)
    && (forall w :: w in ws && w !in pool ==> (w in chosen <==> ws[w].hasKey))
    && (forall a, b :: a in chosen && b in pool ==> a in ws && b in ws && VotedBefore(ws, a, b))
  }

  lemma {:induction false} VotedNone(ws: Witnesses)
    ensures Voted(ws, ws.Keys, {}) && ByVotes(ws, [])
  {
  }

  lemma {:induction false} VotedNext(ws: Witnesses, pool: set<Name>, chosen: set<Name>, w: Name)
    requires Voted(ws, pool, chosen) && w in pool && pool <= ws.Keys
    requires forall v :: v in pool && v != w ==> VotedBefore(ws, w, v)
    ensures w !in chosen && Voted(ws, pool - {w}, if ws[w].hasKey then chosen + {w} else chosen)
  {
    hide VotedBefore;
  }

  lemma {:induction false} ByVotesNext(ws: Witnesses, pool: set<Name>, chosen: set<Name>, active: seq<Name>, w: Name)
    requires Voted(ws, pool, chosen) && w in pool && pool <= ws.Keys && ByVotes(ws, active) && Lists(active, chosen)
    ensures ByVotes(ws, active + [w])
  {
    hide VotedBefore;
    forall i | 0 <= i < |active| ensures active[i] in chosen {
      assert active[i] in active;
    }
  }

  lemma {:induction false} VotedIs(ws: Witnesses, pool: set<Name>, chosen: set<Name>)
    requires Voted(ws, pool, chosen) && pool <= ws.Keys
    ensures chosen <= Keyed(ws) && |chosen| <= |Keyed(ws)| && (pool == {} ==> |chosen| == |Keyed(ws)|)
    ensures forall a, b :: a in chosen && b in Keyed(ws) && b !in chosen ==> VotedBefore(ws, a, b)
  {
    hide VotedBefore;
    Cardinality(chosen, Keyed(ws));
    if pool == {} {
      assert chosen == Keyed(ws);
    }
  }

  lemma {:induction false} KeyedIs(ws: Witnesses)
    ensures forall w :: w in Keyed(ws) <==> w in ws && ws[w].hasKey
  {
  }

  lemma {:induction false} ListsBoth(first: seq<Name>, voted: set<Name>, mined: seq<Name>, chosen: set<Name>)
    requires Lists(first, voted) && Lists(mined, chosen) && voted !! chosen
    ensures Lists(first + mined, voted + chosen)
  {
    var active := first + mined;
    forall i, j | 0 <= i < j < |active| ensures active[i] != active[j] {
      assert i < |first| ==> active[i] in first;
      assert j >= |first| ==> active[j] in mined;
    }
  }

  lemma {:induction false} ListsNone()
    ensures Lists([], {})
  {
  }

  lemma {:induction false} Cardinality(s: set<Name>, t: set<Name>)
    requires s <= t
    ensures |s| <= |t|
    decreases |s|
  {
    if s != {} {
      var x :| x in s;
      Cardinality(s - {x}, t - {x});
    }
  }

  /**
   Miners from the front of the proof-of-work queue that are not
   voted in; all that were looked at leave the queue.
   */
  method SelectMiners(ws: Witnesses, voted: set<Name>, limit: nat, before: seq<Name>)
    returns (active: seq<Name>, mined: seq<Name>, chosen: set<Name>, dequeued: set<Name>)
    requires Lists(before, voted) && voted <= Keyed(ws)
    ensures chosen !! voted && chosen <= Keyed(ws) && active == before + mined
    ensures Lists(active, voted + chosen) && Lists(mined, chosen) && dequeued <= ws.Keys
    ensures Mining(ws, before, mined, dequeued, limit)
  {
    hide Lists, Keyed, Mined, Mining, ByWork, LastMined;
    active, mined, chosen, dequeued := before, [], {}, {};
    var queue := set w | w in ws && ws[w].powWorker > 0;
    MinedNone(ws, voted, queue);
    ListsNone();
    while queue != {} && |chosen| < limit
      invariant |chosen| <= limit && queue <= ws.Keys && Mined(ws, voted, queue, chosen, dequeued, mined)
      invariant Lists(mined, chosen) && active == before + mined
      invariant |chosen| == limit ==> LastMined(ws, mined, dequeued)
      decreases queue
    {
      var w := FirstByWork(ws, queue);
      MinedNext(ws, voted, queue, chosen, dequeued, mined, w);
      if w !in voted && ws[w].hasKey {
        active := active + [w];
        mined := Append(mined, chosen, w);
        chosen := chosen + {w};
      }
      dequeued := dequeued + {w};
      queue := queue - {w};
      ListsLength(mined, chosen);
    }
    MinedIs(ws, voted, queue, chosen, dequeued, mined, before, limit);
    ListsBoth(before, voted, mined, chosen);
  }

  /** The queue is worked off from its front; who is taken off it and eligible is chosen. */
  ghost predicate Mined(
    ws: Witnesses, voted: set<Name>, queue: set<Name>, chosen: set<Name>, dequeued: set<Name>, mined: seq<Name>)
  {
    && (forall w :: w in queue <==> w in ws && ws[w].powWorker > 0 && w !in dequeued)
    && (forall w :: w in dequeued ==> w in ws && ws[w].powWorker > 0)
    && (forall w :: w in chosen <==> w in dequeued && ws[w].hasKey && w !in voted)
    && (forall a, b :: a in dequeued && b in queue ==> ws[a].powWorker <= ws[b].powWorker)
    && ByWork(ws, mined, queue)
  }

  /** Nobody was looked at after the last miner. */
  ghost predicate LastMined(ws: Witnesses, mined: seq<Name>, dequeued: set<Name>)
  {
    forall w :: w in dequeued ==>
      mined != [] && mined[|mined| - 1] in ws && w in ws && ws[w].powWorker <= ws[mined[|mined| - 1]].powWorker
  }

  lemma {:induction false} MinedNone(ws: Witnesses, voted: set<Name>, queue: set<Name>)
    requires forall w :: w in queue <==> w in ws && ws[w].powWorker > 0
    ensures Mined(ws, voted, queue, {}, {}, []) && LastMined(ws, [], {})
  {
  }

  lemma {:induction false} MinedNext(
    ws: Witnesses, voted: set<Name>, queue: set<Name>, chosen: set<Name>, dequeued: set<Name>, mined: seq<Name>,
    w: Name)
    requires Mined(ws, voted, queue, chosen, dequeued, mined) && w in queue && w in ws
    requires forall v :: v in queue ==> v in ws && ws[w].powWorker <= ws[v].powWorker
    ensures w !in chosen
    ensures w !in voted && ws[w].hasKey ==>
      && Mined(ws, voted, queue - {w}, chosen + {w}, dequeued + {w}, mined + [w])
      && LastMined(ws, mined + [w], dequeued + {w})
    ensures w in voted || !ws[w].hasKey ==> Mined(ws, voted, queue - {w}, chosen, dequeued + {w}, mined)
  {
  }

  lemma {:induction false} MinedIs(
    ws: Witnesses, voted: set<Name>, queue: set<Name>, chosen: set<Name>, dequeued: set<Name>, mined: seq<Name>,
    before: seq<Name>, limit: nat)
    requires Mined(ws, voted, queue, chosen, dequeued, mined) && Lists(before, voted) && Lists(mined, chosen)
    requires |chosen| <= limit && (|chosen| < limit ==> queue == {})
    requires |chosen| == limit ==> LastMined(ws, mined, dequeued)
    ensures chosen !! voted && chosen <= Keyed(ws) && dequeued <= ws.Keys
    ensures Mining(ws, before, mined, dequeued, limit)
  {
  }

  method Append(active: seq<Name>, chosen: set<Name>, w: Name) returns (r: seq<Name>)
    requires Lists(active, chosen) && w !in chosen
    ensures Lists(r, chosen + {w}) && r == active + [w]
  {
    r := active + [w];
  }

  ghost predicate ClockBehind(ws: Witnesses, now: nat)
  {
    forall w :: w in ws ==> OnTime(ws[w], now)
  }

  /** The running witnesses in the lead fill the round; the clock moves to the last one looked at. */
  method SelectRunning(ws: Witnesses, now: nat, taken: set<Name>, limit: nat, before: seq<Name>)
    returns (active: seq<Name>, rest: seq<Name>, picked: set<Name>, processed: set<Name>, newTime: nat)
    requires Lists(before, taken) && taken <= Keyed(ws) && now <= MAX_TIME
    requires forall w :: w in ws ==> now <= ws[w].scheduledTime <= MAX_TIME
    ensures taken <= picked <= Keyed(ws) && Lists(active, picked) && active == before + rest
    ensures |picked| == if limit <= |taken| then |taken| else if |Keyed(ws)| < limit then |Keyed(ws)| else limit
    ensures now <= newTime <= MAX_TIME
    ensures Running(ws, now, before, rest, processed, newTime, limit)
  {
    hide Lists, Keyed, Looked, Running, ByTime, LastLooked;
    active, rest, picked, processed, newTime := before, [], taken, {}, now;
    var pool := ws.Keys;
    ListsLength(before, taken);
    LookedNone(ws, taken, now);
    while pool != {} && |active| < limit
      invariant pool <= ws.Keys && Looked(ws, now, taken, pool, picked, processed, rest, newTime)
      invariant Lists(active, picked) && active == before + rest
      invariant |picked| == |active| && (|active| <= limit || picked == taken)
      invariant |active| >= limit ==> LastLooked(ws, rest, processed)
      invariant now <= newTime <= MAX_TIME
      decreases pool
    {
      var w := FirstByTime(ws, pool);
      LookedNext(ws, now, taken, pool, picked, processed, rest, newTime, w);
      newTime := ws[w].scheduledTime;
      processed := processed + {w};
      pool := pool - {w};
      if ws[w].hasKey && w !in taken {
        active := Append(active, picked, w);
        rest := rest + [w];
        picked := picked + {w};
      }
    }
    LookedIs(ws, now, taken, pool, picked, processed, rest, newTime, before, limit);
  }

  /** The pool is worked off by scheduled time, the last one looked at being at `time`; who is eligible is picked. */
  ghost predicate Looked(
    ws: Witnesses, now: nat, taken: set<Name>, pool: set<Name>, picked: set<Name>, processed: set<Name>,
    rest: seq<Name>, time: nat)
  {
    && taken <= Keyed(ws)
    && (forall w :: w in ws <==> w in pool || w in processed)
    && (forall w :: w in pool ==> w !in processed)
    && (forall w :: w in picked <==> w in taken || (w in processed && ws[w].hasKey))
    && (forall w :: w in rest <==> w in processed && ws[w].hasKey && w !in taken)
    && (forall a, b :: a in processed && b in pool ==> RunsBefore(ws, a, b))
    && ByTime(ws, rest, pool)
    && At(ws, now, processed, time)
    && (forall w :: w in pool ==> time <= ws[w].scheduledTime)
  }

  /** The clock stands at the last one looked at. */
  ghost predicate At(ws: Witnesses, now: nat, processed: set<Name>, time: nat)
  {
    && (processed == {} ==> time == now)
    && (forall w :: w in processed ==> w in ws && ws[w].scheduledTime <= time)
    && (processed != {} ==> exists w :: w in processed && w in ws && ws[w].scheduledTime == time)
  }

  /** Nobody was looked at after the last one picked. */
  ghost predicate LastLooked(ws: Witnesses, rest: seq<Name>, processed: set<Name>)
  {
    forall w :: w in processed ==>
      rest != [] && rest[|rest| - 1] in ws && w in ws && RunsBefore(ws, w, rest[|rest| - 1])
  }

  lemma {:induction false} LookedNone(ws: Witnesses, taken: set<Name>, now: nat)
    requires taken <= Keyed(ws) && forall w :: w in ws ==> now <= ws[w].scheduledTime
    ensures Looked(ws, now, taken, ws.Keys, taken, {}, [], now) && LastLooked(ws, [], {})
  {
  }

  lemma {:induction false} LookedNext(
    ws: Witnesses, now: nat, taken: set<Name>, pool: set<Name>, picked: set<Name>, processed: set<Name>,
    rest: seq<Name>, time: nat, w: Name)
    requires Looked(ws, now, taken, pool, picked, processed, rest, time) && w in pool && w in ws
    requires forall v :: v in pool ==> v in ws && RunsBefore(ws, w, v)
    ensures time <= ws[w].scheduledTime && (w in picked ==> w in taken)
    ensures ws[w].hasKey && w !in taken ==>
      && Looked(ws, now, taken, pool - {w}, picked + {w}, processed + {w}, rest + [w], ws[w].scheduledTime)
      && LastLooked(ws, rest + [w], processed + {w})
    ensures !ws[w].hasKey || w in taken ==>
      Looked(ws, now, taken, pool - {w}, picked, processed + {w}, rest, ws[w].scheduledTime)
  {
    hide ByTime, At, RunsBefore, LastLooked;
    ByTimeNext(ws, rest, pool, w);
    AtNext(ws, now, processed, time, w);
    LastNext(ws, rest, processed, pool, w);
    forall v | v in pool ensures ws[w].scheduledTime <= ws[v].scheduledTime {
      RunsLater(ws, w, v);
    }
  }

  lemma {:induction false} ByTimeNext(ws: Witnesses, rest: seq<Name>, pool: set<Name>, w: Name)
    requires ByTime(ws, rest, pool) && w in pool && w in ws
    requires forall v :: v in pool ==> v in ws && RunsBefore(ws, w, v)
    ensures ByTime(ws, rest, pool - {w}) && ByTime(ws, rest + [w], pool - {w})
  {
    hide RunsBefore;
  }

  lemma {:induction false} RunsLater(ws: Witnesses, w: Name, v: Name)
    requires w in ws && v in ws && RunsBefore(ws, w, v)
    ensures ws[w].scheduledTime <= ws[v].scheduledTime
  {
  }

  lemma {:induction false} AtNext(ws: Witnesses, now: nat, processed: set<Name>, time: nat, w: Name)
    requires At(ws, now, processed, time) && w in ws && time <= ws[w].scheduledTime
    ensures At(ws, now, processed + {w}, ws[w].scheduledTime)
  {
    assert w in processed + {w};
  }

  lemma {:induction false} LastNext(
    ws: Witnesses, rest: seq<Name>, processed: set<Name>, pool: set<Name>, w: Name)
    requires w in pool && w in ws && forall a :: a in processed ==> a in ws && RunsBefore(ws, a, w)
    ensures LastLooked(ws, rest + [w], processed + {w})
  {
  }

  lemma {:induction false} LookedIs(
    ws: Witnesses, now: nat, taken: set<Name>, pool: set<Name>, picked: set<Name>, processed: set<Name>,
    rest: seq<Name>, time: nat, before: seq<Name>, limit: nat)
    requires Looked(ws, now, taken, pool, picked, processed, rest, time) && Lists(before, taken)
    requires if |before| + |rest| < limit then pool == {} else LastLooked(ws, rest, processed)
    ensures taken <= picked <= Keyed(ws) && |picked| <= |Keyed(ws)| && (pool == {} ==> |picked| == |Keyed(ws)|)
    ensures Running(ws, now, before, rest, processed, time, limit)
  {
    Cardinality(picked, Keyed(ws));
    if pool == {} {
      assert picked == Keyed(ws) && processed == ws.Keys;
    }
  }

  /** The same witnesses with the same votes and keys. */
  ghost predicate SameBut(ws: Witnesses, ws': Witnesses)
  {
    && (forall w :: w in ws' <==> w in ws)
    && forall w :: w in ws ==> ws'[w].votes == ws[w].votes && ws'[w].id == ws[w].id && ws'[w].hasKey == ws[w].hasKey
  }

  /** Some lap would end beyond 128 bits. */
  ghost predicate Overflows(ws: Witnesses, processed: set<Name>, time: nat)
    requires processed <= ws.Keys && forall w :: w in ws ==> 0 <= ws[w].votes
  {
    exists w :: w in processed && time + LAP_LENGTH / (ws[w].votes + 1) > MAX_TIME
  }

  /** Every processed witness starts a new lap now, unless the end of one leaves 128 bits. */
  method RestartProcessed(ws: Witnesses, processed: set<Name>, newTime: nat) returns (r: Witnesses, overflow: bool)
    requires processed <= ws.Keys && newTime <= MAX_TIME
    requires forall w :: w in ws ==> 0 <= ws[w].votes
    ensures r.Keys == ws.Keys && forall w :: w in ws ==> r[w] == ws[w] || r[w] == Restart(ws[w], newTime)
    ensures overflow <==> Overflows(ws, processed, newTime)
    ensures !overflow ==> forall w :: w in ws ==> r[w] == if w in processed then Restart(ws[w], newTime) else ws[w]
  {
    r := ws;
    var todo := processed;
    while todo != {}
      invariant todo <= processed && r.Keys == ws.Keys
      invariant forall w :: w in ws ==> r[w] == if w in processed && w !in todo then Restart(ws[w], newTime) else ws[w]
      invariant forall w :: w in processed && w !in todo ==> newTime + LAP_LENGTH / (ws[w].votes + 1) <= MAX_TIME
      decreases todo
    {
      var w :| w in todo;
      RestartOnTime(ws[w], newTime);
      var restarted := Restart(r[w], newTime);
      if restarted.scheduledTime < newTime {
        return r, true;
      }
      r := r[w := restarted];
      todo := todo - {w};
    }
    overflow := false;
  }

  /** reset_virtual_schedule_time: the clock and every witness go back to the start. */
  method ResetAll(ws: Witnesses) returns (r: Witnesses)
    requires forall w :: w in ws ==> 0 <= ws[w].votes
    ensures r.Keys == ws.Keys && (forall w :: w in ws ==> r[w] == Restart(ws[w], 0)) && ClockBehind(r, 0)
  {
    r := ws;
    var todo := ws.Keys;
    while todo != {}
      invariant todo <= ws.Keys && r.Keys == ws.Keys
      invariant forall w :: w in ws ==> r[w] == if w in todo then ws[w] else Restart(ws[w], 0)
      invariant forall w :: w in ws && w !in todo ==> OnTime(r[w], 0)
      decreases todo
    {
      var w :| w in todo;
      RestartOnTime(r[w], 0);
      r := r[w := Restart(r[w], 0)];
      todo := todo - {w};
    }
  }

  /** What a round decides. */
  datatype Plan = Plan(
    active: seq<Name>,        // elected, then miners, then running witnesses
    elected: nat,
    miners: nat,
    dequeued: set<Name>,      // who leaves the proof-of-work queue
    processed: set<Name>,     // who was looked at by scheduled time
    time: nat)                // the scheduled time of the last one looked at

  /** How a witness is scheduled. */
  function Class(p: Plan, w: Name, before: Schedule): Schedule
    requires p.elected + p.miners <= |p.active|
  {
    if w in p.active[..p.elected] then Top19
    else if w in p.active[p.elected..p.elected + p.miners] then Miner
    else if w in p.active[p.elected + p.miners..] then Timeshare
    else before
  }

  /** Marks how each witness was scheduled; miners that were looked at leave the queue. */
  function Marked(ws: Witnesses, p: Plan): (r: Witnesses)
    requires p.elected + p.miners <= |p.active|
    ensures r.Keys == ws.Keys
  {
    map w | w in ws ::
      ws[w].(schedule := Class(p, w, ws[w].schedule), powWorker := if w in p.dequeued then 0 else ws[w].powWorker)
  }

  /**
   The clock after a round without overflow: nobody is passed, whether processed or not.
   */
  lemma {:induction false} RoundOnTime(ws: Witnesses, r: Witnesses, processed: set<Name>, now: nat, newTime: nat)
    requires ClockBehind(ws, now) && processed <= ws.Keys && now <= newTime <= MAX_TIME
    requires forall w :: w in ws && w !in processed ==> newTime <= ws[w].scheduledTime
    requires forall w :: w in processed ==> newTime + LAP_LENGTH / (ws[w].votes + 1) <= MAX_TIME
    requires forall w :: w in r <==> w in ws
    requires forall w :: w in ws ==> r[w] == if w in processed then Restart(ws[w], newTime) else ws[w]
    ensures ClockBehind(r, newTime)
  {
    forall w | w in r ensures OnTime(r[w], newTime) {
      RestartOnTime(ws[w], newTime);
    }
  }

  /** Marking changes nobody's clock. */
  lemma {:induction false} MarkedOnTime(ws: Witnesses, p: Plan, now: nat)
    requires ClockBehind(ws, now) && p.elected + p.miners <= |p.active|
    ensures SameBut(ws, Marked(ws, p)) && ClockBehind(Marked(ws, p), now)
    ensures forall w :: w in ws ==> 0 <= Marked(ws, p)[w].votes && now <= ws[w].scheduledTime <= MAX_TIME
    ensures forall w :: w in ws ==> Marked(ws, p)[w].scheduledTime == ws[w].scheduledTime
  {
    hide Class;
    forall w | w in ws ensures OnTime(Marked(ws, p)[w], now) {
      assert OnTime(ws[w], now);
    }
  }

  /** The three selections follow one another in the list, and everybody is in at most one of them. */
  lemma {:induction false} ThreeClasses(ws: Witnesses, p: Plan)
    requires Distinct(p.active) && p.elected + p.miners <= |p.active|
    requires forall i :: 0 <= i < |p.active| ==> p.active[i] in ws
    ensures var r := Marked(ws, p);
            && (forall i :: 0 <= i < p.elected ==> r[p.active[i]].schedule == Top19)
            && (forall i :: p.elected <= i < p.elected + p.miners ==> r[p.active[i]].schedule == Miner)
            && (forall i :: p.elected + p.miners <= i < |p.active| ==> r[p.active[i]].schedule == Timeshare)
            && (forall w :: w in ws && w !in p.active ==> r[w].schedule == ws[w].schedule)
            && (forall w :: w in ws ==> r[w].powWorker == if w in p.dequeued then 0 else ws[w].powWorker)
  {
    forall i | 0 <= i < |p.active|
      ensures Class(p, p.active[i], ws[p.active[i]].schedule)
        == if i < p.elected then Top19 else if i < p.elected + p.miners then Miner else Timeshare
    {
      var w := p.active[i];
      if i < p.elected {
        assert w == p.active[..p.elected][i];
      } else if i < p.elected + p.miners {
        assert w == p.active[p.elected..p.elected + p.miners][i - p.elected];
      } else {
        assert w == p.active[p.elected + p.miners..][i - p.elected - p.miners];
      }
    }
  }

  ghost predicate Distinct(active: seq<Name>)
  {
    forall i, j :: 0 <= i < j < |active| ==> active[i] != active[j]
  }

  lemma {:induction false} ListsDistinct(active: seq<Name>, chosen: set<Name>)
    requires Lists(active, chosen)
    ensures Distinct(active) && forall i :: 0 <= i < |active| ==> active[i] in chosen
  {
    forall i | 0 <= i < |active| ensures active[i] in chosen {
      assert active[i] in active;
    }
  }

  /** The three selections of a round, each as the rules say. */
  ghost predicate Planned(ws: Witnesses, now: nat, maxVoted: nat, maxMiners: nat, maxWitnesses: nat, p: Plan)
  {
    && p.elected + p.miners <= |p.active| && Distinct(p.active)
    && Elected(ws, p.active[..p.elected], maxVoted)
    && Mining(ws, p.active[..p.elected], p.active[p.elected..p.elected + p.miners], p.dequeued, maxMiners)
    && Running(ws, now, p.active[..p.elected + p.miners], p.active[p.elected + p.miners..], p.processed, p.time,
               maxWitnesses)
  }

  /** Who is chosen and in which class, and how far the clock has to move. */
  method ChooseActive(ws: Witnesses, now: nat, maxVoted: nat, maxMiners: nat, maxWitnesses: nat) returns (p: Plan)
    requires forall w :: w in ws ==> now <= ws[w].scheduledTime <= MAX_TIME
    requires now <= MAX_TIME && maxVoted + maxMiners <= maxWitnesses
    ensures Planned(ws, now, maxVoted, maxMiners, maxWitnesses, p)
    ensures forall i :: 0 <= i < |p.active| ==> p.active[i] in Keyed(ws)
    ensures |p.active| == if |Keyed(ws)| < maxWitnesses then |Keyed(ws)| else maxWitnesses
    ensures now <= p.time <= MAX_TIME && p.processed <= ws.Keys
    ensures forall w :: w in ws && w !in p.processed ==> p.time <= ws[w].scheduledTime
  {
    hide Lists, Keyed, VotedBefore, Distinct, Elected, Mining, Running;
    KeyedIs(ws);
    var first, voted := SelectVoted(ws, maxVoted);
    var second, mined, chosen, dequeued := SelectMiners(ws, voted, maxMiners, first);
    var active, rest, picked, processed, time := SelectRunning(ws, now, voted + chosen, maxWitnesses, second);
    p := Plan(active, |first|, |mined|, dequeued, processed, time);
    assert active[..|first|] == first && active[|first|..|first| + |mined|] == mined;
    assert active[..|first| + |mined|] == second && active[|first| + |mined|..] == rest;
    ListsLength(first, voted);
    ListsLength(mined, chosen);
    ListsLength(second, voted + chosen);
    ListsLength(active, picked);
    Cardinality(voted + chosen, Keyed(ws));
    ListsDistinct(active, picked);
    MiningWithin(ws, first, mined, dequeued, maxMiners);
    RunningPassed(ws, now, second, rest, processed, time, maxWitnesses);
  }

  lemma {:induction false} MiningWithin(
    ws: Witnesses, first: seq<Name>, mined: seq<Name>, dequeued: set<Name>, limit: nat)
    requires Mining(ws, first, mined, dequeued, limit)
    ensures |mined| <= limit
  {
  }

  lemma {:induction false} RunningPassed(
    ws: Witnesses, now: nat, taken: seq<Name>, rest: seq<Name>, processed: set<Name>, time: nat, limit: nat)
    requires Running(ws, now, taken, rest, processed, time, limit)
    requires forall w :: w in ws ==> now <= ws[w].scheduledTime
    ensures processed <= ws.Keys && forall w :: w in ws && w !in processed ==> time <= ws[w].scheduledTime
  {
  }

  /** The witnesses and the clock after a round: the processed ones restart, or everything does. */
  ghost predicate Reclocks(ws: Witnesses, r: Witnesses, processed: set<Name>, time: nat, newTime: nat)
    requires processed <= ws.Keys && forall w :: w in ws ==> 0 <= ws[w].votes
  {
    && r.Keys == ws.Keys
    && if Overflows(ws, processed, time) then newTime == 0 && forall w :: w in ws ==> r[w] == Restart(ws[w], 0)
       else newTime == time && forall w :: w in ws ==> r[w] == if w in processed then Restart(ws[w], time) else ws[w]
  }

  /** The plan is carried out: witnesses are marked, and the clock has moved. */
  ghost predicate CarriedOut(ws: Witnesses, p: Plan, r: Witnesses, newTime: nat)
  {
    && p.elected + p.miners <= |p.active| && p.processed <= ws.Keys && (forall w :: w in ws ==> 0 <= ws[w].votes)
    && Reclocks(Marked(ws, p), r, p.processed, p.time, newTime)
  }

  /**
   One scheduling round: who is active, in which class, and the witnesses and the clock after it.
   It is refused exactly when there are fewer witnesses with a key than places while some witness
   has no key.
   */
  method PlanRound(ws: Witnesses, now: nat, maxVoted: nat, maxMiners: nat, maxWitnesses: nat)
    returns (ok: bool, p: Plan, timeshare: nat, r: Witnesses, newTime: nat)
    requires ClockBehind(ws, now) && now <= MAX_TIME && maxVoted + maxMiners <= maxWitnesses
    ensures ok <==> |Keyed(ws)| >= maxWitnesses || |Keyed(ws)| == |ws.Keys|
    ensures Planned(ws, now, maxVoted, maxMiners, maxWitnesses, p) && CarriedOut(ws, p, r, newTime)
    ensures SameBut(ws, r) && ClockBehind(r, newTime) && newTime <= MAX_TIME && (now <= newTime || newTime == 0)
    ensures Distinct(p.active) && forall i :: 0 <= i < |p.active| ==> p.active[i] in Keyed(ws)
    ensures |p.active| == if |Keyed(ws)| < maxWitnesses then |Keyed(ws)| else maxWitnesses
    ensures p.elected + p.miners + timeshare == |p.active|
  {
    hide Keyed, Distinct, ClockBehind, OnTime, Elected, Mining, Running, Marked, Reclocks, SameBut;
    MarkedOnTime(ws, Plan([], 0, 0, {}, {}, 0), now);
    p := ChooseActive(ws, now, maxVoted, maxMiners, maxWitnesses);
    timeshare := |p.active| - p.miners - p.elected;
    MarkedOnTime(ws, p, now);
    var marked := Marked(ws, p);
    SameKeys(ws, marked);
    r, newTime := MoveClock(marked, p.processed, now, p.time);
    SameTwice(ws, marked, r);
    KeyedIs(ws);
    KeyedWithin(ws);
    ok := |p.active| == if |ws.Keys| < maxWitnesses then |ws.Keys| else maxWitnesses;
  }

  lemma {:induction false} SameKeys(ws: Witnesses, r: Witnesses)
    requires SameBut(ws, r)
    ensures r.Keys == ws.Keys && forall w :: w in ws ==> r[w].votes == ws[w].votes
  {
  }

  lemma {:induction false} SameTwice(ws: Witnesses, marked: Witnesses, r: Witnesses)
    requires SameBut(ws, marked) && SameBut(marked, r)
    ensures SameBut(ws, r)
  {
  }

  lemma {:induction false} KeyedWithin(ws: Witnesses)
    ensures |Keyed(ws)| <= |ws.Keys|
  {
    Cardinality(Keyed(ws), ws.Keys);
  }

  /** Moves the clock to the given time, or back to the start if some lap would then end beyond 128 bits. */
  method MoveClock(ws: Witnesses, processed: set<Name>, now: nat, time: nat) returns (r: Witnesses, newTime: nat)
    requires ClockBehind(ws, now) && processed <= ws.Keys && now <= time <= MAX_TIME
    requires forall w :: w in ws ==> 0 <= ws[w].votes
    requires forall w :: w in ws && w !in processed ==> time <= ws[w].scheduledTime
    ensures Reclocks(ws, r, processed, time, newTime)
    ensures SameBut(ws, r) && ClockBehind(r, newTime) && (newTime == time || newTime == 0)
  {
    hide OnTime;
    var overflow;
    r, overflow := RestartProcessed(ws, processed, time);
    newTime := time;
    if overflow {
      newTime := 0;
      r := ResetAll(r);
    } else {
      RoundOnTime(ws, r, processed, now, time);
    }
  }

  /* ---- The shuffle ---- */

  /** The xorshift generator, in 64-bit arithmetic that wraps around. */
  function Random(nowHi: bv64, i: bv64): (k: bv64)
  {
    var k0: bv64 := nowHi + i * 2685821657736338717;
    var k1: bv64 := k0 ^ (k0 >> 12);
    var k2: bv64 := k1 ^ (k1 << 25);
    var k3: bv64 := k2 ^ (k2 >> 27);
    k3 * 2685821657736338717
  }

  /** The entries after the first i swaps of the shuffle of the first n. */
  ghost function Shuffled<T>(s: seq<T>, n: nat, nowHi: bv64, i: nat): (r: seq<T>)
    requires i <= n <= |s| && n < 256
    ensures |r| == |s|
  {
    if i == 0 then s
    else
      var t := Shuffled(s, n, nowHi, i - 1);
      var j := i - 1 + Random(nowHi, (i - 1) as bv64) as int % (n - (i - 1));
      t[i - 1 := t[j]][j := t[i - 1]]
  }

  lemma {:induction false} ShuffledStart<T>(s: seq<T>, n: nat, nowHi: bv64)
    requires n <= |s| && n < 256
    ensures Shuffled(s, n, nowHi, 0) == s
  {
  }

  /** However far it has come, the shuffle has permuted the first n entries. */
  lemma {:induction false} ShuffledPermutes<T>(s: seq<T>, n: nat, nowHi: bv64, i: nat)
    requires i <= n <= |s| && n < 256
    ensures multiset(Shuffled(s, n, nowHi, i)[..n]) == multiset(s[..n]) && Shuffled(s, n, nowHi, i)[n..] == s[n..]
  {
    hide Random;
    if i > 0 {
      ShuffledPermutes(s, n, nowHi, i - 1);
      var t := Shuffled(s, n, nowHi, i - 1);
      var j := i - 1 + Random(nowHi, (i - 1) as bv64) as int % (n - (i - 1));
      SwapPermutes(t, n, i - 1, j);
    }
  }

  lemma {:induction false} SwapPermutes<T>(t: seq<T>, n: nat, i: nat, j: nat)
    requires i < n <= |t| && j < n
    ensures var r := t[i := t[j]][j := t[i]];
            multiset(r[..n]) == multiset(t[..n]) && r[n..] == t[n..]
  {
    var before := t[..n];
    assert t[i := t[j]][j := t[i]][..n] == before[i := before[j]][j := before[i]];
  }

  /** Shuffles the first n entries in place; the rest stays as it is. */
  method Shuffle(a: array<Option<Name>>, n: nat, nowHi: bv64)
    requires n <= a.Length && n < 256
    modifies a
    ensures a[..] == Shuffled(old(a[..]), n, nowHi, n)
    ensures multiset(a[..n]) == multiset(old(a[..n]))
    ensures a[n..] == old(a[n..])
  {
    hide Random, Shuffled;
    ghost var start := a[..];
    ShuffledStart(start, n, nowHi);
    for i := 0 to n
      invariant a[..] == Shuffled(start, n, nowHi, i)
    {
      var k := Random(nowHi, i as bv64) as int;
      var j := i + k % (n - i);
      ghost var before := a[..];
      a[i], a[j] := a[j], a[i];
      assert a[..] == before[i := before[j]][j := before[i]];
      ShuffledNext(start, n, nowHi, i);
    }
    ShuffledPermutes(start, n, nowHi, n);
    assert a[..][..n] == a[..n] && a[..][n..] == a[n..] && start[..n] == old(a[..n]) && start[n..] == old(a[n..]);
  }

  lemma {:induction false} ShuffledNext<T>(s: seq<T>, n: nat, nowHi: bv64, i: nat)
    requires i < n <= |s| && n < 256
    ensures var t := Shuffled(s, n, nowHi, i);
            var j := i + Random(nowHi, i as bv64) as int % (n - i);
            Shuffled(s, n, nowHi, i + 1) == t[i := t[j]][j := t[i]]
  {
    hide Random;
  }

  function Named(active: seq<Name>): (r: seq<Option<Name>>)
    ensures |r| == |active| && forall i :: 0 <= i < |active| ==> r[i] == Some(active[i])
  {
    seq(|active|, i requires 0 <= i < |active| => Some(active[i]))
  }

  /** The schedule before the shuffle: the active witnesses, then empty places. */
  function Scheduled(active: seq<Name>, places: nat): (r: seq<Option<Name>>)
    requires |active| <= places
    ensures |r| == places
  {
    seq(places, i requires 0 <= i < places => if i < |active| then Some(active[i]) else None)
  }

  function AtLeastOne(n: nat): nat
  {
    if n < 1 then 1 else n
  }

  /** Writes the active witnesses into the schedule, empties the rest, and shuffles. */
  method StoreShuffled(a: array<Option<Name>>, active: seq<Name>, nowHi: bv64) returns (n: nat)
    requires |active| <= a.Length && 0 < a.Length < 256
    modifies a
    ensures n == AtLeastOne(|active|) && a[..] == Shuffled(Scheduled(active, a.Length), n, nowHi, n)
    ensures multiset(a[..|active|]) == multiset(Named(active))
    ensures forall i :: |active| <= i < a.Length ==> a[i] == None
  {
    hide Shuffled;
    for i := 0 to |active|
      invariant forall j :: 0 <= j < i ==> a[j] == Some(active[j])
    {
      a[i] := Some(active[i]);
    }
    for i := |active| to a.Length
      invariant forall j :: 0 <= j < |active| ==> a[j] == Some(active[j])
      invariant forall j :: |active| <= j < i ==> a[j] == None
    {
      a[i] := None;
    }
    n := if |active| < 1 then 1 else |active|;
    ghost var before := a[..];
    assert before == Scheduled(active, a.Length);
    Shuffle(a, n, nowHi);
    StoredEntries(active, a[..], n);
    assert a[..][..n] == a[..n] && a[..][n..] == a[n..] && a[..][..|active|] == a[..|active|];
    forall i | |active| <= i < a.Length ensures a[i] == None {
      assert a[..][i] == None;
    }
  }

  lemma {:induction false} StoredEntries(active: seq<Name>, after: seq<Option<Name>>, n: nat)
    requires |active| <= |after| && n == AtLeastOne(|active|) && n <= |after|
    requires multiset(after[..n]) == multiset(Scheduled(active, |after|)[..n])
    requires after[n..] == Scheduled(active, |after|)[n..]
    ensures multiset(after[..|active|]) == multiset(Named(active))
    ensures forall i :: |active| <= i < |after| ==> after[i] == None
  {
    var before := Scheduled(active, |after|);
    assert before[..|active|] == Named(active);
    if active == [] {
      assert before[..1] == [None];
      assert after[0] in multiset(after[..1]);
    }
    forall i | |active| <= i < |after| ensures after[i] == None {
      if n <= i {
        assert after[i] == after[n..][i - n] == before[n..][i - n];
      }
    }
  }
}
