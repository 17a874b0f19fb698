/**
 * Slots and times, relative to a reference tip. Times are milliseconds; a slot lasts a positive
 * whole number of them.
 */
module SlotTime {
  import opened Wrappers
  import TxnContext

  datatype Params = Params(refTipSlot: int, refTipTime: int, msPerSlot: int)

  predicate Valid(p: Params) {
    p.msPerSlot > 0
  }

  /** `Math.round` of a quotient, exactly: the floor of n/d + 1/2, so halves go upwards. */
  function RoundQuotient(n: int, d: int): int
    requires d > 0
  {
    (2 * n + d) / (2 * d)
  }

  function SlotToTime(p: Params, slot: int): int {
    p.refTipTime + (slot - p.refTipSlot) * p.msPerSlot
  }

  function TimeToSlot(p: Params, time: int): int
    requires Valid(p)
  {
    p.refTipSlot + RoundQuotient(time - p.refTipTime, p.msPerSlot)
  }

  lemma MulGrows(a: int, b: int, m: int)
    requires a <= b && m >= 0
    ensures a * m <= b * m
  {
  }

  lemma QuotientIs(a: int, b: int, q: int, r: int)
    requires 0 <= r < b && a == q * b + r
    ensures a / b == q
  {
    var d := a / b - q;
    assert d * b == r - a % b;
    if d >= 1 {
      MulGrows(1, d, b);
    } else if d <= -1 {
      MulGrows(d, -1, b);
    }
  }

  /** Main result: a slot's own time leads back to it, before and after the tip. */
  lemma SlotRoundTrip(p: Params, slot: int)
    requires Valid(p)
    ensures TimeToSlot(p, SlotToTime(p, slot)) == slot
  {
    var d := slot - p.refTipSlot;
    QuotientIs(2 * (d * p.msPerSlot) + p.msPerSlot, 2 * p.msPerSlot, d, p.msPerSlot);
  }

  /** Main result: the slot found for a time begins within half a slot of it; a time in the very
      middle goes to the later slot. */
  lemma WithinHalfASlot(p: Params, time: int)
    requires Valid(p)
    ensures -p.msPerSlot < 2 * (SlotToTime(p, TimeToSlot(p, time)) - time) <= p.msPerSlot
  {
    var d := time - p.refTipTime;
    var n := RoundQuotient(d, p.msPerSlot);
    assert 2 * d + p.msPerSlot == 2 * p.msPerSlot * n + (2 * d + p.msPerSlot) % (2 * p.msPerSlot);
    assert 2 * p.msPerSlot * n == 2 * (n * p.msPerSlot);
  }

  /** No other slot begins nearer. */
  lemma NearestSlot(p: Params, time: int, slot: int)
    requires Valid(p)
    ensures Abs(SlotToTime(p, TimeToSlot(p, time)) - time) <= Abs(SlotToTime(p, slot) - time)
  {
    WithinHalfASlot(p, time);
    var best := TimeToSlot(p, time);
    var d := slot - best;
    assert SlotToTime(p, slot) == SlotToTime(p, best) + d * p.msPerSlot;
    if d >= 1 {
      assert d * p.msPerSlot >= p.msPerSlot;
    } else if d <= -1 {
      assert d * p.msPerSlot <= -p.msPerSlot;
    }
  }

  function Abs(x: int): nat {
    if x < 0 then -x else x
  }

  /** Main result: rounding a date to its slot twice is rounding it once. */
  lemma RoundingIsIdempotent(p: Params, time: int)
    requires Valid(p)
    ensures var rounded := SlotToTime(p, TimeToSlot(p, time)); SlotToTime(p, TimeToSlot(p, rounded)) == rounded
  {
    SlotRoundTrip(p, TimeToSlot(p, time));
  }

  /** Later times never go to earlier slots. */
  lemma SlotsInOrder(p: Params, s: int, t: int)
    requires Valid(p) && s <= t
    ensures TimeToSlot(p, s) <= TimeToSlot(p, t)
  {
    hide TimeToSlot;
    WithinHalfASlot(p, s);
    WithinHalfASlot(p, t);
    var a, b := TimeToSlot(p, s), TimeToSlot(p, t);
    InOrder(a - p.refTipSlot, b - p.refTipSlot, s - p.refTipTime, t - p.refTipTime, p.msPerSlot);
  }

  lemma InOrder(a: int, b: int, s: int, t: int, ms: int)
    requires ms > 0 && s <= t
    requires -ms < 2 * (a * ms - s) <= ms && -ms < 2 * (b * ms - t) <= ms
    ensures a <= b
  {
    if a > b {
      Gap(a, b, ms);
    }
  }

  lemma Gap(a: int, b: int, ms: int)
    requires ms > 0 && a >= b + 1
    ensures a * ms >= b * ms + ms
  {
    MulGrows(b + 1, a, ms);
    assert (b + 1) * ms == b * ms + ms;
  }

  /** The part of the transaction context that holds its time, which can be set once. */
  class TxnClock {
    const params: Params
    var isFacade: TxnContext.FacadeFlag
    var txnTime: Option<int>

    constructor (params: Params)
      ensures this.params == params && isFacade.Undecided? && txnTime == None
    {
      this.params := params;
      isFacade, txnTime := TxnContext.Undecided, None;
    }

    /** `futureDate`: a refused call on anything but a facade has still settled the flag. */
    method FutureDate(date: int) returns (threw: bool)
      requires Valid(params)
      modifies this
      ensures threw <==> old(isFacade).IsFacade? || old(txnTime).Some?
      ensures threw ==> txnTime == old(txnTime)
      ensures isFacade == if old(isFacade).IsFacade? then TxnContext.IsFacade else TxnContext.NotFacade
      ensures !threw ==> txnTime.Some? && TimeToSlot(params, txnTime.value) == TimeToSlot(params, date)
                         && -params.msPerSlot < 2 * (txnTime.value - date) <= params.msPerSlot
    {
      if isFacade.IsFacade? {
        return true;
      }
      isFacade := TxnContext.NotFacade;
      if txnTime.Some? {
        return true;
      }
      txnTime := Some(SlotToTime(params, TimeToSlot(params, date)));
      SlotRoundTrip(params, TimeToSlot(params, date));
      WithinHalfASlot(params, date);
      threw := false;
    }
  }
}
