/**
 Production slots: the times at which blocks may be made, the absolute slot number, and the record of which of
 the last 128 slots were filled.  Time is in seconds since the epoch.
 */
module Slots {
  import opened Arithmetic

  /** The number of ones in the binary form of n. */
  function Ones(n: nat): (r: nat)
  {
    if n == 0 then 0 else n % 2 + Ones(n / 2)
  }

  /** A new highest digit adds one. */
  lemma {:induction false} OnesTop(n: nat, k: nat)
    requires n < Power2(k)
    ensures Ones(n + Power2(k)) == Ones(n) + 1
  {
    if k > 0 {
      OnesTop(n / 2, k - 1);
      assert (n + Power2(k)) / 2 == n / 2 + Power2(k - 1);
    }
  }

  /** Shifting a 128-bit record drops its top digit and brings in a new lowest one. */
  function Shift(filled: nat, bit: nat): (r: nat)
    requires filled < TWO_128 && bit < 2
    ensures r < TWO_128
  {
    filled * 2 % TWO_128 + bit
  }

  lemma {:induction false} OnesShift(filled: nat, bit: nat)
    requires filled < TWO_128 && bit < 2
    ensures Ones(Shift(filled, bit)) + (if filled >= TWO_127 then 1 else 0) == Ones(filled) + bit
  {
    hide Ones, Shift, Power2;
    Power2Is();
    var low := if filled >= TWO_127 then filled - TWO_127 else filled;
    if filled >= TWO_127 {
      OnesTop(low, 127);
    }
    ShiftIs(filled, bit, low);
    OnesAppend(low, bit);
  }

  lemma {:induction false} ShiftIs(filled: nat, bit: nat, low: nat)
    requires filled < TWO_128 && bit < 2 && low == if filled >= TWO_127 then filled - TWO_127 else filled
    ensures Shift(filled, bit) == 2 * low + bit
  {
    hide Ones;
    assert filled * 2 == 2 * low + if filled >= TWO_127 then TWO_128 else 0;
  }

  lemma {:induction false} OnesAppend(n: nat, bit: nat)
    requires bit < 2
    ensures Ones(2 * n + bit) == Ones(n) + bit
  {
    assert (2 * n + bit) / 2 == n && (2 * n + bit) % 2 == bit;
  }

  /** The record after a filled slot and then some missed ones, as a number. */
  ghost function Record(filled: nat, missed: nat): (r: nat)
  {
    (filled * 2 + 1) * Power2(missed) % TWO_128
  }

  lemma {:induction false} RecordFirst(filled: nat)
    requires filled < TWO_128
    ensures Shift(filled, 1) == Record(filled, 0)
  {
  }

  lemma {:induction false} RecordNext(filled: nat, missed: nat)
    ensures Record(filled, missed) < TWO_128 && Shift(Record(filled, missed), 0) == Record(filled, missed + 1)
  {
    var v := (filled * 2 + 1) * Power2(missed);
    DoubleModulo(v);
    assert (filled * 2 + 1) * Power2(missed + 1) == v * 2;
  }

  lemma {:induction false} DoubleModulo(v: nat)
    ensures v % TWO_128 * 2 % TWO_128 == v * 2 % TWO_128
  {
    var q := v / TWO_128;
    assert v * 2 == v % TWO_128 * 2 + q * 2 * TWO_128;
  }

  lemma {:induction false} OnesFull(k: nat)
    ensures Ones(Power2(k) - 1) == k
  {
    if k > 0 {
      OnesFull(k - 1);
      assert (Power2(k) - 1) / 2 == Power2(k - 1) - 1;
    }
  }

  /** The times that lie in a later slot than the last one before that does. */
  ghost function Later(times: seq<nat>, start: nat, interval: nat): (r: seq<nat>)
    requires interval > 0
  {
    if times == [] then []
    else
      var n := |times| - 1;
      var r := Later(times[..n], start, interval);
      var last := if r == [] then start else r[|r| - 1];
      if times[n] / interval > last / interval then r + [times[n]] else r
  }

  lemma {:induction false} LaterNext(times: seq<nat>, k: nat, start: nat, interval: nat)
    requires interval > 0 && k < |times|
    ensures var r := Later(times[..k], start, interval);
            var last := if r == [] then start else r[|r| - 1];
            Later(times[..k + 1], start, interval)
              == if times[k] / interval > last / interval then r + [times[k]] else r
  {
    assert times[..k + 1][..k] == times[..k];
  }

  lemma {:induction false} LaterNone(times: seq<nat>, start: nat, interval: nat)
    requires interval > 0
    ensures Later(times[..0], start, interval) == []
  {
  }

  class SlotClock {
    const interval: nat            // BLOCK_INTERVAL
    var headNum: nat
    var time: nat                  // head block time, or genesis time before block 1
    var aslot: nat                 // current_aslot
    var filled: nat                // recent_slots_filled
    var participation: nat         // participation_count

    ghost predicate Valid()
      reads this
    {
      interval > 0 && filled < TWO_128 && participation == Ones(filled) && (headNum > 0 ==> time > 0)
    }

    constructor (interval: nat, genesis: nat)
      requires interval > 0
      ensures Valid() && headNum == 0 && time == genesis && this.interval == interval
    {
      this.interval := interval;
      headNum, time, aslot := 0, genesis, 0;
      filled, participation := TWO_128 - 1, 128;
      new;
      Power2Is();
      OnesFull(128);
    }

    function SlotTime(slot: nat): (r: nat)
      requires interval > 0
      reads this
    {
      if slot == 0 then 0
      else if headNum == 0 then time + slot * interval
      else time / interval * interval + slot * interval
    }

    function SlotAtTime(when: nat): (r: nat)
      requires interval > 0
      reads this
    {
      if when < SlotTime(1) then 0 else (when - SlotTime(1)) / interval + 1
    }

    /** Slot number and slot time are inverse, and every time lies in the slot it is said to. */
    lemma {:induction false} SlotInverse(slot: nat, when: nat)
      requires interval > 0
      ensures slot > 0 ==> SlotAtTime(SlotTime(slot)) == slot
      ensures SlotAtTime(when) == slot && slot > 0 <==> slot > 0 && SlotTime(slot) <= when < SlotTime(slot + 1)
      ensures SlotAtTime(when) == 0 <==> when < SlotTime(1)
    {
      if slot > 0 {
        assert SlotTime(slot) - SlotTime(1) == (slot - 1) * interval by {
          assert slot * interval == (slot - 1) * interval + interval;
        }
        FloorShift(0, slot - 1, interval);
        assert SlotTime(slot + 1) == SlotTime(slot) + interval by {
          assert (slot + 1) * interval == slot * interval + interval;
        }
        if SlotTime(1) <= when {
          FloorAtLeast(when - SlotTime(1), interval, slot - 1);
          FloorAtLeast(when - SlotTime(1), interval, slot);
        }
      }
    }

    /** After block 1, the slot of a time is how many intervals it is ahead of the head. */
    lemma {:induction false} SlotIsDistance(when: nat)
      requires interval > 0 && headNum > 0
      ensures SlotAtTime(when) == if when / interval > time / interval then when / interval - time / interval else 0
    {
      var k := time / interval;
      assert SlotTime(1) == (k + 1) * interval;
      FloorAtLeast(when, interval, k + 1);
      if when >= SlotTime(1) {
        FloorShift(when - SlotTime(1), k + 1, interval);
      }
    }

    /**
     A block is accepted if its time is in a later slot than the head's.  After block 1 the absolute slot keeps
     its distance from the time, and the count of filled slots stays that of the record.
     */
    method ApplyBlock(when: nat) returns (ok: bool)
      requires Valid()
      modifies this
      ensures Valid()
      ensures ok <==> when > old(time) && old(SlotAtTime(when)) > 0
      ensures if ok then
                var missed := if old(time) != 0 then old(SlotAtTime(when)) - 1 else 0;
                headNum == old(headNum) + 1 && time == when && aslot == old(aslot) + missed + 1
                  && filled == Record(old(filled), missed)
              else headNum == old(headNum) && time == old(time) && aslot == old(aslot) && filled == old(filled)
      ensures old(headNum) > 0 ==>
        && aslot - time / interval == old(aslot) - old(time) / interval
        && (ok <==> when / interval > old(time) / interval)
    {
      if headNum > 0 {
        SlotIsDistance(when);
        FloorAtLeast(when, interval, time / interval + 1);
        DivMod(time, interval);
      }
      var slot := SlotAtTime(when);
      if when <= time || slot == 0 {
        return false;
      }
      var missed := if time != 0 then slot - 1 else 0;
      FillSlots(missed);
      headNum, time, aslot := headNum + 1, when, aslot + missed + 1;
      ok := true;
    }

    /** Moves the record on by the filled slot and the missed ones. */
    method FillSlots(missed: nat)
      requires Valid()
      modifies this`filled, this`participation
      ensures Valid() && filled == Record(old(filled), missed)
    {
      hide Record, Ones;
      for i := 0 to missed + 1
        invariant Valid() && filled == if i == 0 then old(filled) else Record(old(filled), i - 1)
      {
        var bit := if i == 0 then 1 else 0;
        OnesShift(filled, bit);
        if i == 0 {
          RecordFirst(filled);
        } else {
          RecordNext(old(filled), i - 1);
        }
        participation := participation - (if filled >= TWO_127 then 1 else 0) + bit;
        filled := Shift(filled, bit);
      }
    }

    /** No two blocks of a chain share a slot, and who may fill a slot does not depend on the head it is asked from. */
    method ApplyBlocks(times: seq<nat>) returns (accepted: seq<nat>)
      requires Valid() && headNum > 0
      modifies this
      ensures Valid() && headNum == old(headNum) + |accepted| && accepted == Later(times, old(time), interval)
      ensures forall i :: 0 <= i < |accepted| ==> accepted[i] / interval > old(time) / interval
      ensures forall i, j :: 0 <= i < j < |accepted| ==> accepted[i] / interval < accepted[j] / interval
      ensures aslot - time / interval == old(aslot) - old(time) / interval
      ensures forall when: nat :: when / interval > time / interval ==>
        aslot + SlotAtTime(when) == old(aslot) + old(SlotAtTime(when))
    {
      hide Later, Record, Ones;
      LaterNone(times, time, interval);
      forall when: nat ensures SlotAtTime(when)
        == if when / interval > time / interval then when / interval - time / interval else 0 {
        SlotIsDistance(when);
      }
      accepted := [];
      for k := 0 to |times|
        invariant Valid() && headNum == old(headNum) + |accepted|
        invariant aslot - time / interval == old(aslot) - old(time) / interval
        invariant time / interval >= old(time) / interval
        invariant accepted == Later(times[..k], old(time), interval)
        invariant time == if accepted == [] then old(time) else accepted[|accepted| - 1]
        invariant forall i :: 0 <= i < |accepted| ==> old(time) / interval < accepted[i] / interval <= time / interval
        invariant forall i, j :: 0 <= i < j < |accepted| ==> accepted[i] / interval < accepted[j] / interval
      {
        LaterNext(times, k, old(time), interval);
        var ok := ApplyBlock(times[k]);
        if ok {
          accepted := accepted + [times[k]];
        }
      }
      assert times[..|times|] == times;
      forall when: nat ensures SlotAtTime(when)
        == if when / interval > time / interval then when / interval - time / interval else 0 {
        SlotIsDistance(when);
      }
    }
  }
}
