/**
 The queue of block ids still to be fetched from one peer: filled by inventory messages, emptied from the
 front as blocks arrive, cleared when synchronisation starts over.
 */
module SyncQueues {
  import opened Common
  import opened Blocks
  import opened Synopses
  import opened Sync

  /** The queue after an inventory that starts at one of its ids, or at none of them. */
  function Splice(queue: seq<BlockId>, received: seq<BlockId>): (r: seq<BlockId>)
    requires received != []
  {
    if queue == [] then received[1..]
    else
      var n := |queue| - 1;
      if queue[n] == received[0] then queue[..n] + received else Splice(queue[..n], received)
  }

  /** The number of leading ids that are already known. */
  function KnownPrefix(ids: seq<BlockId>, known: set<BlockId>): (n: nat)
    ensures n <= |ids|
  {
    if ids == [] || ids[0] !in known then 0 else KnownPrefix(ids[1..], known) + 1
  }

  /** Splicing numbered runs gives a numbered run, and splicing linked ones a linked one. */
  lemma {:induction false} SpliceKeeps(queue: seq<BlockId>, received: seq<BlockId>)
    requires received != [] && Consecutive(queue) && Consecutive(received)
    ensures Consecutive(Splice(queue, received))
    ensures Linked(queue) && Linked(received) ==> Linked(Splice(queue, received))
    decreases |queue|
  {
    if queue != [] {
      var n := |queue| - 1;
      if queue[n] == received[0] {
        SpliceJoint(queue, received);
      } else {
        SpliceKeeps(queue[..n], received);
      }
    } else {
      var r := received[1..];
      assert forall i :: 0 <= i < |r| ==> Num(r[i]) == Num(received[0]) + i + 1;
    }
  }

  lemma {:induction false} SpliceJoint(queue: seq<BlockId>, received: seq<BlockId>)
    requires queue != [] && received != [] && Consecutive(queue) && Consecutive(received)
    requires queue[|queue| - 1] == received[0]
    ensures Consecutive(queue[..|queue| - 1] + received)
    ensures Linked(queue) && Linked(received) ==> Linked(queue[..|queue| - 1] + received)
  {
    var n := |queue| - 1;
    var r := queue[..n] + received;
    forall i | 0 <= i < |r| ensures Num(r[i]) == Num(queue[0]) + i {
      if i >= n {
        assert r[i] == received[i - n];
      }
    }
    if Linked(queue) && Linked(received) {
      forall i | 0 < i < |r| ensures r[i].Block? && r[i].previous == r[i - 1] {
        if i > n {
          assert r[i] == received[i - n] && r[i - 1] == received[i - n - 1];
        } else {
          assert r[i] == queue[i] && r[i - 1] == queue[i - 1];
        }
      }
    }
  }

  lemma {:induction false} SuffixKeeps(ids: seq<BlockId>, k: nat)
    requires k <= |ids| && Consecutive(ids)
    ensures Consecutive(ids[k..]) && (Linked(ids) ==> Linked(ids[k..]))
  {
    var r := ids[k..];
    assert forall i :: 0 <= i < |r| ==> r[i] == ids[k + i];
    if Linked(ids) {
      forall i | 0 < i < |r| ensures r[i].Block? && r[i].previous == r[i - 1] {
        assert r[i] == ids[k + i] && r[i - 1] == ids[k + i - 1];
      }
    }
  }

  const BLOCK_INTERVAL: nat := 1
  const GRACE_PERIOD: nat := 60 * 60

  datatype Reaction = Ignored | Disconnected | UpToDate | Merged | Implausible

  datatype Event =
    | Inventory(ids: seq<BlockId>, remaining: nat, known: set<BlockId>, elsewhere: bool, now: nat)
    | Fetched(id: BlockId)
    | Request(synopsis: seq<BlockId>)
    | Restart

  class PeerQueue {
    const time: BlockId -> nat                  // get_block_time
    var queue: seq<BlockId>                     // ids_of_items_to_get
    var unfetched: nat                          // number_of_unfetched_item_ids
    var lastSeen: BlockId                       // last_block_delegate_has_seen
    var lastTime: nat                           // last_block_time_delegate_has_seen
    var requested: Option<seq<BlockId>>         // the synopsis of the open request
    var needed: bool                            // we_need_sync_items_from_peer

    constructor (time: BlockId -> nat)
      ensures queue == [] && unfetched == 0 && requested == None && needed && Timed()
    {
      this.time := time;
      queue, unfetched, lastSeen, lastTime, requested, needed := [], 0, Zero, time(Zero), None, true;
    }

    /** The time kept for the reference point is its own. */
    ghost predicate Timed()
      reads this
    {
      lastTime == time(lastSeen)
    }

    /**
     A list of ids arrives; `elsewhere` says that another peer's queue begins with its first id.  A peer that
     announces more blocks than there can be by now is dropped after its ids have been merged.
     */
    method ReceiveInventory(ids: seq<BlockId>, remaining: nat, known: set<BlockId>, elsewhere: bool, now: nat)
      returns (r: Reaction)
      requires Timed()
      modifies this
      ensures Timed()
      ensures r == Ignored <==> old(requested).None?
      ensures r == Disconnected <==> old(requested).Some? && !Accepts(old(requested).value, ids)
      ensures r == UpToDate <==>
        && old(requested).Some? && Accepts(old(requested).value, ids) && remaining == 0
        && (ids == [] || (|ids| == 1 && ids[0] in known)) && old(queue) == [] && old(unfetched) == 0
      ensures r == UpToDate ==> !needed && requested == None
      ensures r in {Ignored, Disconnected, UpToDate} ==> queue == old(queue) && unfetched == old(unfetched)
      ensures r == Merged || r == Implausible ==> unfetched == remaining && requested == None
      ensures r == Implausible ==> time(lastSeen) + remaining * BLOCK_INTERVAL > now + GRACE_PERIOD
      ensures r == Merged ==> time(lastSeen) + remaining * BLOCK_INTERVAL <= now + GRACE_PERIOD
      ensures r == Merged || r == Implausible ==>
        (queue == if ids == [] then old(queue)
                  else if old(queue) != [] then Splice(old(queue), ids)
                  else if elsewhere then ids
                  else ids[KnownPrefix(ids, known)..])
    {
      if requested.None? {
        return Ignored;
      }
      var ok := CheckInventory(requested.value, ids);
      if !ok {
        return Disconnected;
      }
      requested := None;
      if remaining == 0 && (ids == [] || (|ids| == 1 && ids[0] in known)) && queue == [] && unfetched == 0 {
        needed := false;
        return UpToDate;
      }
      unfetched := remaining;
      var received := ids;
      if ids != [] && queue == [] {
        if !elsewhere {
          received := Flush(ids, known);
        }
      } else if ids != [] {
        received := Cut(ids);
      }
      queue := queue + received;
      r := if lastTime + unfetched * BLOCK_INTERVAL > now + GRACE_PERIOD then Implausible else Merged;
    }

    /** Drops the leading ids that are already known; the last one becomes the reference point. */
    method Flush(ids: seq<BlockId>, known: set<BlockId>) returns (received: seq<BlockId>)
      requires Timed()
      modifies this`lastSeen, this`lastTime
      ensures Timed() && received == ids[KnownPrefix(ids, known)..]
    {
      received := ids;
      while received != [] && received[0] in known
        invariant Timed() && |received| <= |ids| && received == ids[|ids| - |received|..]
        invariant KnownPrefix(ids, known) == |ids| - |received| + KnownPrefix(received, known)
        decreases |received|
      {
        lastSeen, lastTime := received[0], time(received[0]);
        received := received[1..];
      }
    }

    /** Drops ids from the back of the queue until the first new one is found there, and that one too. */
    method Cut(ids: seq<BlockId>) returns (received: seq<BlockId>)
      requires ids != [] && Timed()
      modifies this`queue, this`lastSeen, this`lastTime
      ensures Timed() && queue + received == Splice(old(queue), ids)
    {
      while queue != [] && queue[|queue| - 1] != ids[0]
        invariant Timed() && Splice(queue, ids) == Splice(old(queue), ids)
        decreases |queue|
      {
        queue := queue[..|queue| - 1];
      }
      if queue == [] {
        lastSeen, lastTime := ids[0], time(ids[0]);
        received := ids[1..];
      } else {
        queue := queue[..|queue| - 1];
        received := ids;
      }
    }

    /** A block arrived; if it heads the queue it leaves it. */
    method PopFront(id: BlockId)
      modifies this`queue
      ensures queue == if old(queue) != [] && old(queue)[0] == id then old(queue)[1..] else old(queue)
    {
      if queue != [] && queue[0] == id {
        queue := queue[1..];
      }
    }

    method Ask(synopsis: seq<BlockId>)
      modifies this`requested
      ensures requested == Some(synopsis)
    {
      requested := Some(synopsis);
    }

    method Restart()
      modifies this
      ensures queue == [] && unfetched == 0 && needed && Timed()
    {
      queue, unfetched, needed, lastSeen, lastTime := [], 0, true, Zero, time(Zero);
    }

    /**
     Whatever the peer sends, the queue stays a run of consecutive block numbers; and if every list it sends
     is linked, even when it changes forks in between, so is the queue.
     */
    method Run(events: seq<Event>)
      requires Consecutive(queue) && Timed()
      modifies this
      ensures Consecutive(queue) && Timed()
      ensures Linked(old(queue)) && (forall e :: e in events && e.Inventory? ==> Linked(e.ids)) ==> Linked(queue)
    {
      hide Consecutive, Linked, Splice, KnownPrefix;
      ghost var honest := Linked(old(queue)) && (forall e :: e in events && e.Inventory? ==> Linked(e.ids));
      for i := 0 to |events|
        invariant Consecutive(queue) && Timed() && (honest ==> Linked(queue))
      {
        match events[i] {
          case Inventory(ids, remaining, known, elsewhere, now) =>
            ghost var before := queue;
            assert honest ==> Linked(events[i].ids);
            var r := ReceiveInventory(ids, remaining, known, elsewhere, now);
            if (r == Merged || r == Implausible) && ids != [] {
              SuffixKeeps(ids, KnownPrefix(ids, known));
              SpliceKeeps(before, ids);
            }
          case Fetched(id) =>
            if queue != [] {
              SuffixKeeps(queue, 1);
            }
            PopFront(id);
          case Request(synopsis) =>
            Ask(synopsis);
          case Restart =>
            Restart();
            EmptyRun();
        }
      }
    }
  }

  lemma {:induction false} EmptyRun()
    ensures Consecutive([]) && Linked([])
  {
  }

  /** The queue after asking an honest peer once more: our synopsis, its answer, our merge. */
  ghost function Round(
    head: BlockId, known: set<BlockId>, limit: nat, lib: nat, reference: BlockId, items: seq<BlockId>)
    : (r: seq<BlockId>)
  {
    var answer := AnswerTo(head, known, Synopsis(lib, reference, items), limit);
    if answer.Ids? && answer.ids != [] then Splice(items, answer.ids) else items
  }

  /** The queue is a linked run on the peer's chain that follows our reference point. */
  ghost predicate InSync(head: BlockId, reference: BlockId, items: seq<BlockId>)
  {
    && items != [] && Follows(reference, items) && Linked(items)
    && IsAncestor(items[|items| - 1], head)
  }

  /**
   An honest peer whose chain contains the last queued block is found by the last id of the synopsis; its
   answer passes the check, continues the queue where it ends, and says exactly how much is left.
   */
  lemma {:induction false} HonestRound(
    head: BlockId, known: set<BlockId>, limit: nat, lib: nat, reference: BlockId, items: seq<BlockId>)
    requires InSync(head, reference, items) && items[|items| - 1] in known && limit > 0
    ensures var synopsis := Synopsis(lib, reference, items);
            var answer := AnswerTo(head, known, synopsis, limit);
            var next := Round(head, known, limit, lib, reference, items);
            && answer.Ids? && Accepts(synopsis, answer.ids)
            && InSync(head, reference, next) && items <= next
            && Num(next[|next| - 1]) + answer.remaining == Num(head)
            && var reach := Num(items[|items| - 1]) + limit - 1;
               Num(next[|next| - 1]) == if reach < Num(head) then reach else Num(head)
  {
    hide *;
    MatchesLast(head, known, limit, lib, reference, items);
    ContinuesQueue(head, reference, items, limit);
  }

  /** The answer to our synopsis starts at the last queued block and passes the check. */
  lemma {:induction false} MatchesLast(
    head: BlockId, known: set<BlockId>, limit: nat, lib: nat, reference: BlockId, items: seq<BlockId>)
    requires InSync(head, reference, items) && items[|items| - 1] in known && limit > 0
    ensures var synopsis := Synopsis(lib, reference, items);
            var answer := AnswerTo(head, known, synopsis, limit);
            && Num(items[|items| - 1]) <= Num(head) && head != Zero
            && answer == AnswerFrom(head, items[|items| - 1], limit)
            && answer.Ids? && answer.ids != [] && Accepts(synopsis, answer.ids)
            && Round(head, known, limit, lib, reference, items) == Splice(items, answer.ids)
  {
    hide Chain, Segment, Back, Synopsis, Halve, Pick, AnswerFrom, Linked, Follows;
    var last := items[|items| - 1];
    var synopsis := Synopsis(lib, reference, items);
    assert Combined(reference, items) != [] && Combined(reference, items)[|Combined(reference, items)| - 1] == last;
    SynopsisShape(lib, reference, items);
    assert LastKnown(head, known, synopsis) == Found(last);
    LinkedConsecutive(AnswerFrom(head, last, limit).ids) by {
      AnswerShape(head, last, limit);
    }
    AnswerShape(head, last, limit);
  }

  lemma {:induction false} ContinuesQueue(head: BlockId, reference: BlockId, items: seq<BlockId>, limit: nat)
    requires InSync(head, reference, items) && limit > 0 && head != Zero
    ensures var last := items[|items| - 1];
            var answer := AnswerFrom(head, last, limit);
            answer.Ids? && answer.ids != [] &&
            var next := Splice(items, answer.ids);
            && InSync(head, reference, next) && items <= next
            && Num(next[|next| - 1]) + answer.remaining == Num(head)
            && Num(next[|next| - 1]) == if Num(last) + limit - 1 < Num(head) then Num(last) + limit - 1 else Num(head)
  {
    hide AnswerFrom, Back, Linked, Num;
    var last := items[|items| - 1];
    AnswerShape(head, last, limit);
    var answer := AnswerFrom(head, last, limit);
    AnswerSize(head, last, limit);
    LinkedConsecutive(answer.ids);
    SpliceKeeps(items, answer.ids);
    var next := Splice(items, answer.ids);
    assert next == items[..|items| - 1] + answer.ids;
    assert next[|next| - 1] == answer.ids[|answer.ids| - 1];
  }

  lemma {:induction false} AnswerSize(head: BlockId, last: BlockId, limit: nat)
    requires last != Zero && Num(last) <= Num(head) && limit > 0
    ensures |AnswerFrom(head, last, limit).ids| == if limit < Num(head) - Num(last) + 1 then limit
      else Num(head) - Num(last) + 1
  {
  }

  ghost function Rounds(
    head: BlockId, known: set<BlockId>, limit: nat, lib: nat, reference: BlockId, items: seq<BlockId>, k: nat)
    : (r: seq<BlockId>)
    decreases k
  {
    if k == 0 then items else Rounds(head, known, limit, lib, reference,
      Round(head, known, limit, lib, reference, items), k - 1)
  }

  /**
   After k rounds the queue reaches k times limit - 1 further, or the
   peer's head: with a limit above one it gets there.
   */
  lemma {:induction false} RoundsReachHead(
    head: BlockId, known: set<BlockId>, limit: nat, lib: nat, reference: BlockId, items: seq<BlockId>, k: nat)
    requires InSync(head, reference, items) && limit > 0
    requires forall b :: IsAncestor(b, head) && b != Zero ==> b in known
    ensures var next := Rounds(head, known, limit, lib, reference, items, k);
            var reach := Num(items[|items| - 1]) + k * (limit - 1);
            && InSync(head, reference, next) && items <= next
            && Num(next[|next| - 1]) == if reach < Num(head) then reach else Num(head)
    decreases k
  {
    hide Round, Follows, Linked, Num, Back, Synopsis, AnswerTo, Splice;
    if k > 0 {
      LastIsBlock(reference, items);
      HonestRound(head, known, limit, lib, reference, items);
      var next := Round(head, known, limit, lib, reference, items);
      RoundsReachHead(head, known, limit, lib, reference, next, k - 1);
      MoreRounds(k - 1, limit - 1);
    }
  }

  lemma {:induction false} MoreRounds(k: nat, step: nat)
    ensures (k + 1) * step == k * step + step && k * step >= 0
  {
  }

  lemma {:induction false} LastIsBlock(reference: BlockId, items: seq<BlockId>)
    requires items != [] && Follows(reference, items)
    ensures items[|items| - 1] != Zero
  {
  }
}
