/**
 Block synchronisation: how a node answers a synopsis, how the asking node checks the answer, and how it
 merges the answer into the queue of ids it still has to fetch from that peer.
 */
module Sync {
  import opened Blocks
  import opened Synopses

  /** Each id's block is the predecessor of the next one's. */
  ghost predicate Linked(ids: seq<BlockId>)
  {
    forall i :: 0 < i < |ids| ==> ids[i].Block? && ids[i].previous == ids[i - 1]
  }

  lemma {:induction false} LinkedConsecutive(ids: seq<BlockId>)
    requires Linked(ids)
    ensures Consecutive(ids)
  {
    if |ids| > 1 {
      var n := |ids| - 1;
      LinkedConsecutive(ids[..n]);
      assert ids[..n][n - 1] == ids[n - 1] && ids[..n][0] == ids[0];
    }
  }

  // ---------- Answering ----------

  datatype Match = Found(id: BlockId) | NotFound | Throws

  /** The last id of a synopsis that is on the answering node's chain, with the empty id counting as one. */
  ghost function LastKnown(head: BlockId, known: set<BlockId>, synopsis: seq<BlockId>): (r: Match)
  {
    if synopsis == [] then NotFound
    else
      var n := |synopsis| - 1;
      var id := synopsis[n];
      if id == Zero then Found(Zero)
      else if id in known && Num(id) > Num(head) then Throws  // no such number on the chain
      else if id in known && IsAncestor(id, head) then Found(id)
      else LastKnown(head, known, synopsis[..n])
  }

  /** An id that the asking node is answered from: the empty one, or a known block of the chain. */
  ghost predicate Matches(head: BlockId, known: set<BlockId>, id: BlockId)
  {
    id == Zero || (id in known && IsAncestor(id, head))
  }

  /** A known block above the head, whose number the chain does not have. */
  ghost predicate TooHigh(head: BlockId, known: set<BlockId>, id: BlockId)
  {
    id in known && Num(id) > Num(head)
  }

  ghost predicate Decisive(head: BlockId, known: set<BlockId>, id: BlockId)
  {
    Matches(head, known, id) || TooHigh(head, known, id)
  }

  /** Entry k is the last one that decides anything. */
  ghost predicate Decides(head: BlockId, known: set<BlockId>, synopsis: seq<BlockId>, k: nat)
  {
    && k < |synopsis| && Decisive(head, known, synopsis[k])
    && forall j :: k < j < |synopsis| ==> !Decisive(head, known, synopsis[j])
  }

  /** What the last decisive entry, k, makes of the search. */
  ghost predicate Decided(head: BlockId, known: set<BlockId>, synopsis: seq<BlockId>, k: nat, r: Match)
  {
    && Decides(head, known, synopsis, k)
    && r == if Matches(head, known, synopsis[k]) then Found(synopsis[k]) else Throws
  }

  /** Found is the last entry that is known and on the chain; NotFound means that no entry is. */
  lemma {:induction false} LastKnownIs(head: BlockId, known: set<BlockId>, synopsis: seq<BlockId>)
    ensures var r := LastKnown(head, known, synopsis);
            && (r == NotFound <==> forall id :: id in synopsis ==> !Decisive(head, known, id))
            && (r != NotFound ==> exists k: nat :: Decided(head, known, synopsis, k, r))
            && (r.Found? ==> r.id in synopsis && Matches(head, known, r.id))
  {
    hide LastKnown, Decisive, Matches;
    var r := LastKnown(head, known, synopsis);
    if synopsis == [] {
      LastKnownStep(head, known, synopsis);
    } else if r == NotFound {
      NoneKnown(head, known, synopsis);
    } else {
      var k := SomeKnown(head, known, synopsis);
      assert synopsis[k] in synopsis;
    }
  }

  lemma {:induction false} NoneKnown(head: BlockId, known: set<BlockId>, synopsis: seq<BlockId>)
    requires LastKnown(head, known, synopsis) == NotFound
    ensures forall id :: id in synopsis ==> !Decisive(head, known, id)
  {
    hide LastKnown, Decisive, Matches;
    LastKnownStep(head, known, synopsis);
    if synopsis != [] {
      var n := |synopsis| - 1;
      NoneKnown(head, known, synopsis[..n]);
      assert forall x :: x in synopsis <==> x in synopsis[..n] || x == synopsis[n];
    }
  }

  lemma {:induction false} SomeKnown(head: BlockId, known: set<BlockId>, synopsis: seq<BlockId>) returns (k: nat)
    requires LastKnown(head, known, synopsis) != NotFound
    ensures Decided(head, known, synopsis, k, LastKnown(head, known, synopsis))
  {
    hide LastKnown, Decisive, Matches;
    LastKnownStep(head, known, synopsis);
    k := |synopsis| - 1;
    if !Decisive(head, known, synopsis[k]) {
      k := SomeKnown(head, known, synopsis[..k]);
    }
  }

  /** The last entry decides, or the ones before it do. */
  lemma {:induction false} LastKnownStep(head: BlockId, known: set<BlockId>, synopsis: seq<BlockId>)
    ensures synopsis == [] ==> LastKnown(head, known, synopsis) == NotFound
    ensures synopsis != [] ==>
      var n := |synopsis| - 1;
      LastKnown(head, known, synopsis)
        == if !Decisive(head, known, synopsis[n]) then LastKnown(head, known, synopsis[..n])
           else if Matches(head, known, synopsis[n]) then Found(synopsis[n]) else Throws
  {
    hide Num, IsAncestor;
    if synopsis != [] {
      AncestorNotAbove(synopsis[|synopsis| - 1], head);
    }
  }

  lemma {:induction false} AncestorNotAbove(a: BlockId, b: BlockId)
    ensures IsAncestor(a, b) ==> Num(a) <= Num(b)
    ensures Num(a) > Num(b) ==> a != Zero
  {
  }

  datatype Answer = Ids(ids: seq<BlockId>, remaining: nat) | Unreachable | Failure

  /** `count` ids of the head's chain from number `first` on. */
  ghost function Segment(head: BlockId, first: nat, count: nat): (r: seq<BlockId>)
    requires 0 < first && first + count <= Num(head) + 1
  {
    Chain(head, Num(head))[first - 1..first - 1 + count]
  }

  lemma {:induction false} SegmentStep(head: BlockId, first: nat, count: nat)
    requires 0 < first && first + count <= Num(head)
    ensures Segment(head, first, count + 1) == Segment(head, first, count) + [Back(head, Num(head) - first - count)]
  {
  }

  /** A segment is a linked run of ancestors of the head, with the numbers asked for. */
  lemma {:induction false} SegmentShape(head: BlockId, first: nat, count: nat)
    requires 0 < first && first + count <= Num(head) + 1
    ensures var s := Segment(head, first, count);
            && |s| == count && Linked(s)
            && (forall i :: 0 <= i < count ==> Num(s[i]) == first + i && s[i] == Back(head, Num(head) - first - i))
  {
    hide Segment, Num, Back;
    var s := Segment(head, first, count);
    SegmentBlocks(head, first, count);
    forall i | 0 < i < count ensures s[i].Block? && s[i].previous == s[i - 1] {
      BackStep(head, Num(head) - first - i);
    }
  }

  lemma {:induction false} SegmentBlocks(head: BlockId, first: nat, count: nat)
    requires 0 < first && first + count <= Num(head) + 1
    ensures var s := Segment(head, first, count);
            && |s| == count
            && (forall i :: 0 <= i < count ==> Num(s[i]) == first + i && s[i] == Back(head, Num(head) - first - i))
  {
    hide Num, Back;
    var s, chain := Segment(head, first, count), Chain(head, Num(head));
    forall i | 0 <= i < count ensures Num(s[i]) == first + i && s[i] == Back(head, Num(head) - first - i) {
      assert s[i] == chain[first - 1 + i];
    }
  }

  /**
   The answer from a given block on: it and its successors, as many as
   the limit allows, and how many more there are.
   */
  ghost function AnswerFrom(head: BlockId, last: BlockId, limit: nat): (r: Answer)
    requires Num(last) <= Num(head) && head != Zero
  {
    var first := if last == Zero then 1 else Num(last);
    var rest := Num(head) - first + 1;
    if limit == 0 then Ids([], 0)
    else if limit < rest then Ids(Segment(head, first, limit), rest - limit)
    else Ids(Segment(head, first, rest), 0)
  }

  ghost function AnswerTo(head: BlockId, known: set<BlockId>, synopsis: seq<BlockId>, limit: nat): (r: Answer)
  {
    if head == Zero then Ids([], 0)
    else if synopsis == [] || synopsis == [Zero] then AnswerFrom(head, Zero, limit)
    else
      LastKnownIs(head, known, synopsis);
      match LastKnown(head, known, synopsis)
      case Found(id) => AnswerFrom(head, id, limit)
      case NotFound => Unreachable
      case Throws => Failure
  }

  method FindLastKnown(head: BlockId, known: set<BlockId>, synopsis: seq<BlockId>) returns (r: Match)
    ensures r == LastKnown(head, known, synopsis)
  {
    var n: nat := |synopsis|;
    assert synopsis[..n] == synopsis;
    while n > 0
      invariant n <= |synopsis| && LastKnown(head, known, synopsis[..n]) == LastKnown(head, known, synopsis)
    {
      assert synopsis[..n][..n - 1] == synopsis[..n - 1];
      var id := synopsis[n - 1];
      if id == Zero {
        return Found(id);
      }
      if id in known {
        if Num(id) > Num(head) {
          return Throws;
        }
        if id == Back(head, Num(head) - Num(id)) {
          return Found(id);
        }
      }
      n := n - 1;
    }
    r := NotFound;
  }

  method GetBlockIds(head: BlockId, known: set<BlockId>, synopsis: seq<BlockId>, limit: nat) returns (r: Answer)
    ensures r == AnswerTo(head, known, synopsis, limit)
  {
    if head == Zero {
      return Ids([], 0);
    }
    var last := Zero;
    if synopsis != [] && synopsis != [Zero] {
      LastKnownIs(head, known, synopsis);
      var found := FindLastKnown(head, known, synopsis);
      match found {
        case NotFound => return Unreachable;
        case Throws => return Failure;
        case Found(id) => last := id;
      }
    }
    r := ListIds(head, last, limit);
  }

  method ListIds(head: BlockId, last: BlockId, limit: nat) returns (r: Answer)
    requires Num(last) <= Num(head) && head != Zero
    ensures r == AnswerFrom(head, last, limit)
  {
    hide Back, Num, Segment;
    var ids := [];
    var num := Num(last);
    ghost var first := if last == Zero then 1 else num;
    SegmentShape(head, first, 0);
    while num <= Num(head) && |ids| < limit
      invariant |ids| <= limit
      invariant if num == 0 then ids == [] && first == 1
                else first <= num <= Num(head) + 1 && |ids| == num - first && ids == Segment(head, first, num - first)
      decreases Num(head) + 1 - num
    {
      if num > 0 {
        SegmentStep(head, first, num - first);
        ids := ids + [Back(head, Num(head) - num)];
      }
      num := num + 1;
    }
    SegmentShape(head, first, |ids|);
    r := Ids(ids, 0);
    if ids != [] && Num(ids[|ids| - 1]) < Num(head) {
      r := Ids(ids, Num(head) - Num(ids[|ids| - 1]));
    }
  }

  // ---------- Checking ----------

  /**
   An answer is an empty list, or a numbered sequence that starts with
   an id we named, or with block 1 if we named none.
   */
  ghost predicate Accepts(synopsis: seq<BlockId>, ids: seq<BlockId>)
  {
    ids == [] || (Consecutive(ids) && if synopsis == [] then Num(ids[0]) == 1 else ids[0] in synopsis)
  }

  method CheckInventory(synopsis: seq<BlockId>, ids: seq<BlockId>) returns (ok: bool)
    ensures ok <==> Accepts(synopsis, ids)
  {
    if ids == [] {
      return true;
    }
    for i := 1 to |ids|
      invariant forall j :: 0 <= j < i ==> Num(ids[j]) == Num(ids[0]) + j
    {
      if Num(ids[i]) != Num(ids[0]) + i {
        return false;
      }
    }
    ok := if synopsis == [] then Num(ids[0]) == 1 else ids[0] in synopsis;
  }

  lemma {:induction false} AnswerShape(head: BlockId, last: BlockId, limit: nat)
    requires Num(last) <= Num(head) && head != Zero && (last == Zero || IsAncestor(last, head))
    ensures var r := AnswerFrom(head, last, limit);
            && r.Ids? && Linked(r.ids) && |r.ids| <= limit && (r.ids == [] <==> limit == 0)
            && (limit > 0 ==> r.remaining == Num(head) - Num(r.ids[|r.ids| - 1]))
            && (limit > 0 ==> r.ids[0] == if last == Zero then Back(head, Num(head) - 1) else last)
            && (limit > 0 ==> IsAncestor(r.ids[|r.ids| - 1], head))
  {
    hide Segment, Num, Back, Linked, IsAncestor;
    if limit > 0 {
      var first := if last == Zero then 1 else Num(last);
      if last != Zero {
        AncestorIs(last, head);
      }
      SegmentEnds(head, first, if limit < Num(head) - first + 1 then limit else Num(head) - first + 1);
    } else {
      LinkedEmpty();
    }
  }

  lemma {:induction false} AncestorIs(a: BlockId, b: BlockId)
    requires IsAncestor(a, b)
    ensures Num(a) <= Num(b) && Back(b, Num(b) - Num(a)) == a
  {
  }

  lemma {:induction false} LinkedEmpty()
    ensures Linked([])
  {
  }

  lemma {:induction false} SegmentEnds(head: BlockId, first: nat, count: nat)
    requires 0 < first && 0 < count && first + count <= Num(head) + 1
    ensures var s := Segment(head, first, count);
            && |s| == count && Linked(s) && s[0] == Back(head, Num(head) - first)
            && Num(s[count - 1]) == first + count - 1 && IsAncestor(s[count - 1], head)
  {
    hide Segment, Num, Back, Linked;
    SegmentShape(head, first, count);
  }

  /**
   What a synopsis is answered: from the last entry that is known and on the chain, or from block 1 if that is the
   empty one; peers on other forks are told so.
   */
  lemma {:induction false} AnswerStarts(head: BlockId, known: set<BlockId>, synopsis: seq<BlockId>, limit: nat)
    requires head != Zero && synopsis != [] && synopsis != [Zero]
    ensures var r := AnswerTo(head, known, synopsis, limit);
            && (r == Unreachable <==> forall id :: id in synopsis ==> !Decisive(head, known, id))
            && (r != Unreachable ==> exists k: nat ::
                  && Decides(head, known, synopsis, k)
                  && (r == Failure <==> !Matches(head, known, synopsis[k]))
                  && (r.Ids? && limit > 0 ==>
                        && r.ids != []
                        && r.ids[0] == if synopsis[k] == Zero then Back(head, Num(head) - 1) else synopsis[k]))
  {
    hide Num, Back, IsAncestor, Segment, AnswerFrom, Linked, Decides, Decisive;
    LastKnownIs(head, known, synopsis);
    match LastKnown(head, known, synopsis)
    case Found(id) =>
      AncestorNotAbove(id, head);
      FirstBelow(head);
      AnswerShape(head, id, limit);
    case _ =>
  }

  lemma {:induction false} FirstBelow(head: BlockId)
    requires head != Zero
    ensures 1 <= Num(head) && Num(Zero) == 0
  {
  }

  /**
   An honest answer counts exactly what is left, and passes the check unless the matched id is the empty
   one in a synopsis that does not name block 1.
   */
  lemma {:induction false} HonestAnswer(head: BlockId, known: set<BlockId>, synopsis: seq<BlockId>, limit: nat)
    requires AnswerTo(head, known, synopsis, limit).Ids?
    ensures var r := AnswerTo(head, known, synopsis, limit);
            && Linked(r.ids)
            && (Accepts(synopsis, r.ids) <==>
                  || r.ids == [] || synopsis == []
                  || LastKnown(head, known, synopsis) != Found(Zero)
                  || Back(head, Num(head) - 1) in synopsis)
            && (r.ids == [] ==> head == Zero || limit == 0)
            && (r.ids != [] ==> Num(r.ids[|r.ids| - 1]) + r.remaining == Num(head))
  {
    var r := AnswerTo(head, known, synopsis, limit);
    if head != Zero {
      LastKnownIs(head, known, synopsis);
      var last := if synopsis == [] || synopsis == [Zero] then Zero else LastKnown(head, known, synopsis).id;
      AnswerShape(head, last, limit);
      LinkedConsecutive(r.ids);
    }
  }
}
