/**
 The virtual-time fields of one witness, in the 128-bit arithmetic that wraps around.

 A witness runs laps of LAP_LENGTH at a speed given by its votes; `scheduledTime` is when it will
 complete the present lap.  `OnTime` is what keeps the wrapping arithmetic exact: the global clock
 has not passed the end of anyone's lap.
 */
module VirtualTime {
  import opened Arithmetic

  const MAX_TIME: nat := TWO_128 - 1
  const LAP_LENGTH: nat := TWO_128 - 1  // VIRTUAL_SCHEDULE_LAP_LENGTH2

  datatype Schedule = Top19 | Timeshare | Miner | Unscheduled

  datatype Witness = Witness(
    id: nat,
    votes: int,
    lastUpdate: nat,
    position: nat,
    scheduledTime: nat,
    powWorker: nat,
    hasKey: bool,
    schedule: Schedule)

  /** A result of 128-bit arithmetic, taken modulo 2^128. */
  function Wrap(x: int): (r: nat)
    ensures r < TWO_128 && (0 <= x < TWO_128 ==> r == x)
  {
    x % TWO_128
  }

  /** A witness as `create` leaves it. */
  function NewWitness(id: nat, hasKey: bool): (w: Witness)
  {
    Witness(id, 0, 0, 0, MAX_TIME, 0, hasKey, Unscheduled)
  }

  /** One vote change, as the chain computes it, wrapping at every step. */
  function AdjustVote(w: Witness, now: nat, delta: int): (r: Witness)
    requires 0 <= w.votes + delta
  {
    var position := Wrap(w.position + Wrap(w.votes * Wrap(now - w.lastUpdate)));
    var votes := w.votes + delta;
    var scheduled := Wrap(now + Wrap(LAP_LENGTH - position) / (votes + 1));
    w.(position := position,
       lastUpdate := now,
       votes := votes,
       scheduledTime := if scheduled < now then MAX_TIME else scheduled)
  }

  /** When the witness completes its lap, in unbounded arithmetic. */
  function LapEnd(w: Witness): (r: int)
    requires 0 <= w.votes
  {
    w.lastUpdate + (LAP_LENGTH - w.position) / (w.votes + 1)
  }

  /** The clock has passed neither the witness's last update nor its scheduled time. */
  ghost predicate OnTime(w: Witness, now: nat)
  {
    && 0 <= w.votes
    && w.position <= LAP_LENGTH
    && w.lastUpdate <= now <= w.scheduledTime <= MAX_TIME
    && w.scheduledTime <= LapEnd(w)
  }

  /** The lap the witness has run by `now`, in unbounded arithmetic. */
  function Progress(w: Witness, now: nat): (r: int)
  {
    w.position + w.votes * (now - w.lastUpdate)
  }

  lemma {:induction false} SpeedBound(votes: nat, room: nat, elapsed: nat)
    requires elapsed <= room / (votes + 1)
    ensures votes * elapsed <= room
  {
    var q := room / (votes + 1);
    assert (votes + 1) * q <= room;
    assert votes * elapsed <= votes * q <= (votes + 1) * q by {
      MulGrows(votes, elapsed, q);
    }
  }

  lemma {:induction false} MulGrows(v: nat, a: nat, b: nat)
    requires a <= b
    ensures v * a <= v * b
  {
    assert v * b - v * a == v * (b - a);
  }

  /** A witness that is on time never overruns its lap. */
  lemma {:induction false} WithinLap(w: Witness, now: nat)
    requires OnTime(w, now)
    ensures w.position <= Progress(w, now) <= LAP_LENGTH
  {
    SpeedBound(w.votes, LAP_LENGTH - w.position, now - w.lastUpdate);
    MulGrows(w.votes, 0, now - w.lastUpdate);
  }

  lemma {:induction false} DivBounds(n: nat, d: nat)
    requires d > 0
    ensures 0 <= n / d <= n
  {
    if d > 1 && n / d > n {
      MulGrows(n / d, 1, d);
      assert false;
    }
  }

  /**
   A vote change on a witness that is on time: no step wraps, the position is the true progress,
   the new scheduled time is the true end of the lap or the greatest time if that lies beyond
   128 bits, and the witness is still on time.
   */
  lemma {:induction false} AdjustKeepsOnTime(w: Witness, now: nat, delta: int)
    requires OnTime(w, now) && 0 <= w.votes + delta
    ensures var r := AdjustVote(w, now, delta);
            && OnTime(r, now)
            && r.position == Progress(w, now)
            && r.scheduledTime == (if LapEnd(r) <= MAX_TIME then LapEnd(r) else MAX_TIME)
  {
    WithinLap(w, now);
    var r := AdjustVote(w, now, delta);
    assert Wrap(now - w.lastUpdate) == now - w.lastUpdate;
    assert Wrap(w.votes * (now - w.lastUpdate)) == w.votes * (now - w.lastUpdate);
    assert r.position == Progress(w, now);
    var room := LAP_LENGTH - r.position;
    DivBounds(room, r.votes + 1);
    var q := room / (r.votes + 1);
    WrapSum(now, q);
  }

  /** A sum that leaves 128 bits wraps to something below both of its parts. */
  lemma {:induction false} WrapSum(a: nat, b: nat)
    requires a < TWO_128 && b < TWO_128
    ensures Wrap(a + b) == if a + b < TWO_128 then a + b else a + b - TWO_128
    ensures Wrap(a + b) < a <==> a + b >= TWO_128
  {
  }

  /** Restarting the lap at `now`, as a scheduling round does for every witness it processed. */
  function Restart(w: Witness, now: nat): (r: Witness)
    requires 0 <= w.votes
  {
    w.(position := 0, lastUpdate := now, scheduledTime := Wrap(now + LAP_LENGTH / (w.votes + 1)))
  }

  /** The overflow test of the scheduling round is exact. */
  lemma {:induction false} RestartOnTime(w: Witness, now: nat)
    requires 0 <= w.votes && now <= MAX_TIME
    ensures OnTime(Restart(w, now), now) <==> now <= Restart(w, now).scheduledTime
    ensures now <= Restart(w, now).scheduledTime <==> now + LAP_LENGTH / (w.votes + 1) <= MAX_TIME
    ensures OnTime(Restart(w, 0), 0)
  {
    DivBounds(LAP_LENGTH, w.votes + 1);
    WrapSum(now, LAP_LENGTH / (w.votes + 1));
    WrapSum(0, LAP_LENGTH / (w.votes + 1));
  }
}
