/** The interval schedule (apps/server/src/settings/settings.service.ts): slots of equal length, a
    claim that remembers only the last slot, and the next payout time shown to customers. */
module Slots {
  import opened Common

  /** Times and lengths in milliseconds. */
  datatype Policy = Policy(interval: int, offset: int)

  /** The stored text names the policy and the index. */
  datatype Slot = Slot(policy: Policy, index: int)

  /** `Math.floor`, for a positive divisor. */
  function SlotAt(p: Policy, time: int): Slot
    requires p.interval > 0
  {
    Slot(p, (time - p.offset) / p.interval)
  }

  /** `nextCustomerPayoutAt` in interval mode. */
  function NextAt(p: Policy, time: int): int
    requires p.interval > 0
  {
    ((time - p.offset) / p.interval + 1) * p.interval + p.offset
  }

  lemma SlotBounds(p: Policy, time: int)
    requires p.interval > 0
    ensures var k := SlotAt(p, time).index; k * p.interval <= time - p.offset < k * p.interval + p.interval
  {
  }

  lemma SlotsAreMonotone(p: Policy, s: int, t: int)
    requires p.interval > 0 && s <= t
    ensures SlotAt(p, s).index <= SlotAt(p, t).index
  {
    var a, b := SlotAt(p, s).index, SlotAt(p, t).index;
    SlotBounds(p, s);
    SlotBounds(p, t);
    Less(b, a, p.interval);
  }

  /** The next time lies after now and at most one interval ahead; and once the slot of `time` has
      been claimed it is exactly the first instant at which a claim can succeed again. */
  lemma NextIsFirstFreeInstant(p: Policy, time: int, later: int)
    requires p.interval > 0 && time <= later
    ensures time < NextAt(p, time) <= time + p.interval
    ensures Claims(Some(SlotAt(p, time)), SlotAt(p, later)) <==> later >= NextAt(p, time)
  {
    var k := SlotAt(p, time).index;
    SlotBounds(p, time);
    SlotBounds(p, later);
    assert NextAt(p, time) == k * p.interval + p.interval + p.offset;
    if later >= NextAt(p, time) {
      SlotsAreMonotone(p, NextAt(p, time), later);
      SlotBounds(p, NextAt(p, time));
      NextSlot(p, time);
    } else {
      SlotsAreMonotone(p, time, later);
      var l := SlotAt(p, later).index;
      Less(k, l, p.interval);
    }
  }

  lemma NextSlot(p: Policy, time: int)
    requires p.interval > 0
    ensures SlotAt(p, NextAt(p, time)).index == SlotAt(p, time).index + 1
  {
    var k := SlotAt(p, time).index;
    var next := NextAt(p, time) - p.offset;
    assert next == (k + 1) * p.interval;
    Quotient(k + 1, p.interval);
  }

  lemma Quotient(k: int, d: int)
    requires d > 0
    ensures k * d / d == k
  {
    var q := k * d / d;
    assert q * d <= k * d < q * d + d;
    Less(q, k, d);
    Less(k, q, d);
  }

  lemma Less(a: int, b: int, d: int)
    requires d > 0
    ensures a < b ==> a * d + d <= b * d
  {
    if a < b {
      var c := b - a - 1;
      assert b * d == a * d + d + c * d;
    }
  }

  // ---------------------------------------------------------------- claiming

  predicate Claims(last: Option<Slot>, slot: Slot) {
    last != Some(slot)
  }

  /** `claimSlot` with the one stored value. */
  class SlotClaimer {
    var last: Option<Slot>

    constructor ()
      ensures last == None
    {
      last := None;
    }

    method Claim(slot: Slot) returns (run: bool)
      modifies this
      ensures run <==> Claims(old(last), slot)
      ensures last == Some(slot)
    {
      if last == Some(slot) {
        return false;
      }
      last := Some(slot);
      return true;
    }

    /** A run of attempts, as the scheduler makes them, whatever slot is stored at the start. */
    method ClaimAll(slots: seq<Slot>) returns (runs: seq<bool>)
      modifies this
      ensures runs == ByLast(old(last), slots)
      ensures last == if |slots| == 0 then old(last) else Some(slots[|slots| - 1])
    {
      runs := [];
      for i := 0 to |slots|
        invariant runs == ByLast(old(last), slots[..i])
        invariant last == if i == 0 then old(last) else Some(slots[i - 1])
      {
        assert slots[..i + 1][..i] == slots[..i];
        var run := Claim(slots[i]);
        runs := runs + [run];
      }
      assert slots[..|slots|] == slots;
    }
  }

  /** Which attempts succeed when only the last slot is remembered. */
  function ByLast(last: Option<Slot>, slots: seq<Slot>): (r: seq<bool>)
    ensures |r| == |slots|
  {
    if |slots| == 0 then []
    else
      var n := |slots| - 1;
      ByLast(last, slots[..n]) + [Claims(if n == 0 then last else Some(slots[n - 1]), slots[n])]
  }

  /** Which attempts succeed when every slot is remembered that was claimed or stored at the start. */
  function BySet(last: Option<Slot>, slots: seq<Slot>): (r: seq<bool>)
    ensures |r| == |slots|
  {
    if |slots| == 0 then []
    else
      var n := |slots| - 1;
      BySet(last, slots[..n]) + [slots[n] !in slots[..n] && last != Some(slots[n])]
  }

  lemma {:induction false} ByLastAt(last: Option<Slot>, slots: seq<Slot>, i: nat)
    requires i < |slots|
    ensures ByLast(last, slots)[i] == ((if i == 0 then last else Some(slots[i - 1])) != Some(slots[i]))
    ensures BySet(last, slots)[i] == (slots[i] !in slots[..i] && last != Some(slots[i]))
  {
    var n := |slots| - 1;
    if i < n {
      ByLastAt(last, slots[..n], i);
      assert slots[..n][..i] == slots[..i];
    }
  }

  /** A slot, once left, does not come back; the stored one counts. */
  ghost predicate NeverReturns(last: Option<Slot>, slots: seq<Slot>) {
    && (forall i, j :: 0 <= i < j < |slots| && slots[i] == slots[j] ==> slots[j - 1] == slots[j])
    && (forall j :: 0 < j < |slots| && last == Some(slots[j]) ==> slots[j - 1] == slots[j])
  }

  /** Remembering the last slot acts like remembering all of them exactly when no slot returns. */
  lemma LastActsLikeSet(last: Option<Slot>, slots: seq<Slot>)
    ensures ByLast(last, slots) == BySet(last, slots) <==> NeverReturns(last, slots)
  {
    if ByLast(last, slots) == BySet(last, slots) {
      forall i, j | 0 <= i < j < |slots| && slots[i] == slots[j] ensures slots[j - 1] == slots[j] {
        ByLastAt(last, slots, j);
        assert slots[i] in slots[..j];
      }
      forall j | 0 < j < |slots| && last == Some(slots[j]) ensures slots[j - 1] == slots[j] {
        ByLastAt(last, slots, j);
      }
    }
    if NeverReturns(last, slots) {
      forall j | 0 <= j < |slots| ensures ByLast(last, slots)[j] == BySet(last, slots)[j] {
        ByLastAt(last, slots, j);
        if slots[j] in slots[..j] {
          var i :| 0 <= i < j && slots[i] == slots[j];
        } else if j > 0 {
          assert slots[j - 1] in slots[..j];
        }
      }
    }
  }

  function SlotsAt(p: Policy, times: seq<int>): (r: seq<Slot>)
    requires p.interval > 0
    ensures |r| == |times|
  {
    seq(|times|, i requires 0 <= i < |times| => SlotAt(p, times[i]))
  }

  /** Under one policy and a clock that does not go back, whatever was stored before by an earlier attempt:
      every slot is claimed by the first attempt that falls into it and by no other, as if all claims were
      remembered. */
  lemma EachSlotOnce(p: Policy, earlier: Option<int>, times: seq<int>)
    requires p.interval > 0
    requires forall i, j :: 0 <= i < j < |times| ==> times[i] <= times[j]
    requires earlier.Some? ==> forall i :: 0 <= i < |times| ==> earlier.value <= times[i]
    ensures var slots, last := SlotsAt(p, times), StoredAt(p, earlier);
            && ByLast(last, slots) == BySet(last, slots)
            && (forall i, j :: 0 <= i < j < |times| && slots[i] == slots[j] ==> !ByLast(last, slots)[j])
            && (forall j :: 0 <= j < |times| && last == Some(slots[j]) ==> !ByLast(last, slots)[j])
  {
    var slots, last := SlotsAt(p, times), StoredAt(p, earlier);
    forall i, j | 0 <= i < j < |slots| && slots[i] == slots[j] ensures slots[j - 1] == slots[j] {
      if i < j - 1 {
        SlotsAreMonotone(p, times[i], times[j - 1]);
      }
      SlotsAreMonotone(p, times[j - 1], times[j]);
    }
    forall j | 0 < j < |slots| && last == Some(slots[j]) ensures slots[j - 1] == slots[j] {
      SlotsAreMonotone(p, earlier.value, times[j - 1]);
      SlotsAreMonotone(p, times[j - 1], times[j]);
    }
    LastActsLikeSet(last, slots);
    forall i, j | 0 <= i < j < |times| && slots[i] == slots[j] ensures !ByLast(last, slots)[j] {
      ByLastAt(last, slots, j);
    }
    forall j | 0 <= j < |times| && last == Some(slots[j]) ensures !ByLast(last, slots)[j] {
      ByLastAt(last, slots, j);
    }
  }

  function StoredAt(p: Policy, earlier: Option<int>): Option<Slot>
    requires p.interval > 0
  {
    match earlier
    case None => None
    case Some(time) => Some(SlotAt(p, time))
  }

  /** With a clock that goes back over a slot boundary and forward again, a slot is claimed twice. */
  lemma ClockSetBack(p: Policy, time: int)
    requires p.interval > 0
    ensures var slots := SlotsAt(p, [NextAt(p, time), time, NextAt(p, time)]);
            slots[0] == slots[2] && ByLast(None, slots)[0] && ByLast(None, slots)[2]
  {
    var slots := SlotsAt(p, [NextAt(p, time), time, NextAt(p, time)]);
    NextSlot(p, time);
    ByLastAt(None, slots, 0);
    ByLastAt(None, slots, 2);
  }
}
