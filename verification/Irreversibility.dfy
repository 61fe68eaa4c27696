/** The last irreversible block: how far the scheduled witnesses have confirmed the chain. */
module Irreversibility {
  import opened Portions

  const IRREVERSIBLE_THRESHOLD: nat := 7500

  /** How many entries are smaller than x. */
  function Below(values: seq<nat>, x: nat): (n: nat)
    ensures n <= |values|
  {
    if values == [] then 0 else (if values[0] < x then 1 else 0) + Below(values[1..], x)
  }

  function Insert(v: nat, sorted: seq<nat>): (r: seq<nat>)
  {
    if sorted == [] || v <= sorted[0] then [v] + sorted else [sorted[0]] + Insert(v, sorted[1..])
  }

  function Sort(values: seq<nat>): (r: seq<nat>)
  {
    if values == [] then [] else Insert(values[0], Sort(values[1..]))
  }

  ghost predicate Ascending(s: seq<nat>)
  {
    forall i, j :: 0 <= i < j < |s| ==> s[i] <= s[j]
  }

  lemma {:induction false} InsertAscends(v: nat, sorted: seq<nat>)
    requires Ascending(sorted)
    ensures Ascending(Insert(v, sorted)) && |Insert(v, sorted)| == |sorted| + 1
    ensures forall y :: y in Insert(v, sorted) ==> y == v || y in sorted
  {
    if sorted != [] && v > sorted[0] {
      InsertAscends(v, sorted[1..]);
      var r, t := Insert(v, sorted), Insert(v, sorted[1..]);
      forall i, j | 0 <= i < j < |r| ensures r[i] <= r[j] {
        assert r[j] == t[j - 1] && t[j - 1] in t;
      }
    }
  }

  lemma {:induction false} InsertBelow(v: nat, sorted: seq<nat>, x: nat)
    ensures Below(Insert(v, sorted), x) == Below([v] + sorted, x)
  {
    assert ([v] + sorted)[1..] == sorted;
    if sorted != [] && v > sorted[0] {
      InsertBelow(v, sorted[1..], x);
      assert Insert(v, sorted)[1..] == Insert(v, sorted[1..]);
      assert ([v] + sorted[1..])[1..] == sorted[1..];
    }
  }

  lemma {:induction false} SortKeeps(values: seq<nat>, x: nat)
    ensures Ascending(Sort(values)) && |Sort(values)| == |values|
    ensures Below(Sort(values), x) == Below(values, x)
  {
    if values != [] {
      SortKeeps(values[1..], x);
      var t := Sort(values[1..]);
      InsertAscends(values[0], t);
      InsertBelow(values[0], t, x);
      assert ([values[0]] + t)[1..] == t;
    }
  }

  /** In a sorted sequence the number of smaller entries says where a value stands. */
  lemma {:induction false} BelowSorted(s: seq<nat>, k: nat, x: nat)
    requires Ascending(s) && k < |s|
    ensures x <= s[k] <==> Below(s, x) <= k
  {
    if x <= s[0] {
      BelowNone(s, x);
    } else if k > 0 {
      BelowSorted(s[1..], k - 1, x);
    }
  }

  lemma {:induction false} BelowNone(s: seq<nat>, x: nat)
    requires forall i :: 0 <= i < |s| ==> x <= s[i]
    ensures Below(s, x) == 0
  {
    if s != [] {
      BelowNone(s[1..], x);
    }
  }

  /** The entry at place k once the sequence is sorted, as nth_element finds it. */
  function NthElement(values: seq<nat>, k: nat): (r: nat)
    requires k < |values|
  {
    SortKeeps(values, 0);
    Sort(values)[k]
  }

  /** x is at most the k-th entry exactly if no more than k entries are smaller than x. */
  lemma {:induction false} NthElementRank(values: seq<nat>, k: nat, x: nat)
    requires k < |values|
    ensures x <= NthElement(values, k) <==> Below(values, x) <= k
  {
    SortKeeps(values, x);
    BelowSorted(Sort(values), k, x);
  }

  /** What the scheduled witnesses last confirmed. */
  function Confirmed(schedule: seq<nat>, confirmed: map<nat, nat>): (r: seq<nat>)
    ensures |r| == |schedule| && forall i :: 0 <= i < |r| ==>
      r[i] == if schedule[i] in confirmed then confirmed[schedule[i]] else 0
  {
    seq(|schedule|, i requires 0 <= i < |schedule| => if schedule[i] in confirmed then confirmed[schedule[i]] else 0)
  }

  /** The number of scheduled witnesses that have confirmed block x. */
  ghost function Supporters(schedule: seq<nat>, confirmed: map<nat, nat>, x: nat): (n: nat)
  {
    |schedule| - Below(Confirmed(schedule, confirmed), x)
  }

  /** The block that the threshold share of the schedule has confirmed. */
  function Threshold(schedule: seq<nat>, confirmed: map<nat, nat>): (r: nat)
    requires schedule != []
  {
    NthElement(Confirmed(schedule, confirmed), (PERCENT_100 - IRREVERSIBLE_THRESHOLD) * |schedule| / PERCENT_100)
  }

  /** A block is within the threshold exactly if three quarters of the schedule have confirmed it. */
  lemma {:induction false} ThresholdIsQuorum(schedule: seq<nat>, confirmed: map<nat, nat>, x: nat)
    requires schedule != []
    ensures x <= Threshold(schedule, confirmed) <==>
            Supporters(schedule, confirmed, x) * PERCENT_100 >= IRREVERSIBLE_THRESHOLD * |schedule|
  {
    var n := |schedule|;
    var offset := (PERCENT_100 - IRREVERSIBLE_THRESHOLD) * n / PERCENT_100;
    NthElementRank(Confirmed(schedule, confirmed), offset, x);
  }

  /** A threshold above zero was confirmed by someone, so it is no higher than the highest confirmation. */
  lemma {:induction false} ThresholdBounded(schedule: seq<nat>, confirmed: map<nat, nat>, top: nat)
    requires schedule != [] && forall w :: w in confirmed ==> confirmed[w] <= top
    ensures Threshold(schedule, confirmed) <= top
  {
    var values := Confirmed(schedule, confirmed);
    BelowAll(values, top + 1);
    NthElementRank(values, (PERCENT_100 - IRREVERSIBLE_THRESHOLD) * |schedule| / PERCENT_100, top + 1);
  }

  lemma {:induction false} BelowAll(s: seq<nat>, x: nat)
    requires forall i :: 0 <= i < |s| ==> s[i] < x
    ensures Below(s, x) == |s|
  {
    if s != [] {
      BelowAll(s[1..], x);
    }
  }

  /** What the chain state holds about confirmations. */
  datatype Confirmation = Confirmation(head: nat, lib: nat, confirmed: map<nat, nat>)

  /** Confirmations and the irreversible number never pass the head; before voting starts the number trails the head. */
  ghost predicate Sound(c: Confirmation, start: nat, witnesses: nat)
  {
    && c.lib <= c.head
    && (forall w :: w in c.confirmed ==> c.confirmed[w] <= c.head)
    && (c.head < start ==> c.lib == 0 || c.lib + witnesses <= c.head)
  }

  ghost predicate Distinct(schedule: seq<nat>)
  {
    forall i, j :: 0 <= i < j < |schedule| ==> schedule[i] != schedule[j]
  }

  /** Entries other than one are smaller. */
  lemma {:induction false} BelowOthers(s: seq<nat>, k: int, x: nat)
    requires forall i :: 0 <= i < |s| && i != k ==> s[i] < x
    ensures Below(s, x) >= |s| - 1
  {
    if s != [] {
      if k == 0 {
        BelowAll(s[1..], x);
      } else {
        BelowOthers(s[1..], k - 1, x);
      }
    }
  }

  /**
   With at least two different witnesses scheduled, a block cannot make itself irreversible: only its own signer
   has confirmed it.  With a single one it does so at once.
   */
  lemma {:induction false} ThresholdBelowHead(schedule: seq<nat>, confirmed: map<nat, nat>, signer: nat, head: nat)
    requires schedule != [] && Distinct(schedule) && head > 0 && signer in confirmed && confirmed[signer] == head
    requires forall w :: w in confirmed && w != signer ==> confirmed[w] < head
    ensures |schedule| > 1 ==> Threshold(schedule, confirmed) < head
    ensures schedule == [signer] ==> Threshold(schedule, confirmed) == head
  {
    var values := Confirmed(schedule, confirmed);
    var offset := (PERCENT_100 - IRREVERSIBLE_THRESHOLD) * |schedule| / PERCENT_100;
    NthElementRank(values, offset, head);
    if |schedule| > 1 {
      var k := if signer in schedule then IndexOf(schedule, signer) else -1;
      BelowOthers(values, k, head);
    }
    if schedule == [signer] {
      assert values == [head];
      NthElementRank(values, offset, head + 1);
      BelowAll(values, head + 1);
      BelowNone(values, head);
    }
  }

  ghost function IndexOf(schedule: seq<nat>, w: nat): (k: nat)
    requires w in schedule
    ensures k < |schedule| && schedule[k] == w
  {
    if schedule[0] == w then 0 else IndexOf(schedule[1..], w) + 1
  }

  datatype Step = Step(signer: nat, schedule: seq<nat>)

  /** The confirmations of the scheduled witnesses and the irreversible number they give. */
  class Confirmations {
    const start: nat                // START_MINER_VOTING_BLOCK
    const witnesses: nat            // MAX_WITNESSES
    var now: Confirmation
    var schedule: seq<nat>          // current_shuffled_witnesses

    ghost predicate Valid()
      reads this
    {
      schedule != [] && Sound(now, start, witnesses)
    }

    constructor (start: nat, witnesses: nat, schedule: seq<nat>)
      requires schedule != []
      ensures Valid() && now == Confirmation(0, 0, map[]) && this.schedule == schedule
    {
      this.start, this.witnesses, this.schedule := start, witnesses, schedule;
      now := Confirmation(0, 0, map[]);
    }

    /** The irreversible number after the head block has been counted as a confirmation. */
    method LastIrreversible(c: Confirmation) returns (lib: nat)
      requires schedule != [] && c.lib <= c.head && forall w :: w in c.confirmed ==> c.confirmed[w] <= c.head
      ensures c.head < start ==> lib == if c.head > witnesses then c.head - witnesses else c.lib
      ensures c.head >= start ==> lib >= c.lib
      ensures c.head >= start ==> forall x: nat :: x > c.lib ==>
        (x <= lib <==> Supporters(schedule, c.confirmed, x) * PERCENT_100 >= IRREVERSIBLE_THRESHOLD * |schedule|)
      ensures lib <= c.head
    {
      lib := c.lib;
      if c.head < start {
        if c.head > witnesses {
          lib := c.head - witnesses;
        }
      } else {
        var quorum := Threshold(schedule, c.confirmed);
        if quorum > lib {
          lib := quorum;
        }
        ThresholdBounded(schedule, c.confirmed, c.head);
        forall x: nat ensures x <= quorum <==>
          Supporters(schedule, c.confirmed, x) * PERCENT_100 >= IRREVERSIBLE_THRESHOLD * |schedule| {
          ThresholdIsQuorum(schedule, c.confirmed, x);
        }
      }
    }

    /** A witness's block extends the chain; the schedule may then change. */
    method Extend(signer: nat, schedule': seq<nat>)
      requires Valid() && schedule' != []
      modifies this`now, this`schedule
      ensures Valid() && now.head == old(now).head + 1 && schedule == schedule'
      ensures now.confirmed == old(now).confirmed[signer := now.head]
      ensures old(now).lib <= now.lib <= now.head
      ensures now.head < start ==> now.lib == if now.head > witnesses then now.head - witnesses else old(now).lib
      ensures now.head >= start ==> forall x: nat :: x > old(now).lib ==>
        (x <= now.lib <==>
          Supporters(old(schedule), now.confirmed, x) * PERCENT_100 >= IRREVERSIBLE_THRESHOLD * |old(schedule)|)
      ensures now.head >= start && |old(schedule)| > 1 && Distinct(old(schedule)) ==> now.lib < now.head
    {
      var n := now.head + 1;
      var c := Confirmation(n, now.lib, now.confirmed[signer := n]);
      if |schedule| > 1 && Distinct(schedule) {
        ThresholdBelowHead(schedule, c.confirmed, signer, n);
        ThresholdIsQuorum(schedule, c.confirmed, n);
      }
      var lib := LastIrreversible(c);
      now, schedule := c.(lib := lib), schedule';
    }

    /** Over any run of blocks the irreversible number never falls and never passes the head. */
    method Run(steps: seq<Step>)
      requires Valid() && forall s :: s in steps ==> s.schedule != []
      modifies this`now, this`schedule
      ensures Valid() && now.head == old(now).head + |steps| && old(now).lib <= now.lib
    {
      for i := 0 to |steps|
        invariant Valid() && now.head == old(now).head + i && old(now).lib <= now.lib
      {
        Extend(steps[i].signer, steps[i].schedule);
      }
    }
  }
}
