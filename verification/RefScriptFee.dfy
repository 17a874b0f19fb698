/**
 * The tiered fee for reference scripts (the Cardano Conway ledger, cardano-ledger ADR 009), as the
 * cost report computes it: tier by tier, rounding each tier. The reference is the sum over bytes of
 * 1.2^tier × rate, where the tier of a byte is its offset divided by the tier size.
 */
module RefScriptFee {

  const TIER_SIZE: nat := 25600

  /** `Math.round`: to the nearest integer, halves upwards. */
  function Round(x: real): int {
    (x + 0.5).Floor
  }

  function Multiplier(tier: nat): real {
    if tier == 0 then 1.0 else Multiplier(tier - 1) * 1.2
  }

  function Pow(base: real, exponent: nat): real {
    if exponent == 0 then 1.0 else base * Pow(base, exponent - 1)
  }

  /** Tier by tier the multiplier is a power of 6/5. */
  lemma {:induction false} MultiplierIsPower(tier: nat)
    ensures Multiplier(tier) * Pow(5.0, tier) == Pow(6.0, tier)
  {
    if tier > 0 {
      MultiplierIsPower(tier - 1);
      var m, p := Multiplier(tier - 1), Pow(5.0, tier - 1);
      assert (m * 1.2) * (5.0 * p) == 6.0 * (m * p);
    }
  }

  function Price(bytes: nat, multiplier: real, rate: real): real {
    bytes as real * multiplier * rate
  }

  lemma PriceOfMore(n: nat, multiplier: real, rate: real)
    ensures Price(0, multiplier, rate) == 0.0
    ensures Price(n + 1, multiplier, rate) == Price(n, multiplier, rate) + Price(1, multiplier, rate)
  {
    var a := n as real;
    assert (a + 1.0) * multiplier == a * multiplier + multiplier;
    assert (a * multiplier + multiplier) * rate == a * multiplier * rate + multiplier * rate;
  }

  lemma PriceOfOne(multiplier: real, rate: real)
    ensures Price(1, multiplier, rate) == multiplier * rate
  {
  }

  lemma PriceIsPositive(multiplier: real, rate: real)
    requires multiplier >= 0.0 && rate >= 0.0
    ensures Price(1, multiplier, rate) >= 0.0
  {
  }

  // ----- the reference, byte by byte -----

  /** The exact fee for `count` bytes from offset `start` on. */
  function ExactFee(start: nat, count: nat, rate: real): real {
    if count == 0 then 0.0
    else ExactFee(start, count - 1, rate) + Multiplier((start + count - 1) / 25600) * rate
  }

  lemma {:induction false} ExactFeeInTier(tier: nat, start: nat, count: nat, rate: real)
    requires tier * TIER_SIZE <= start && start + count <= (tier + 1) * TIER_SIZE
    ensures ExactFee(start, count, rate) == Price(count, Multiplier(tier), rate)
    decreases count
  {
    hide Price, Multiplier;
    if count > 0 {
      ExactFeeInTier(tier, start, count - 1, rate);
      assert (start + count - 1) / TIER_SIZE == tier;
      PriceOfMore(count - 1, Multiplier(tier), rate);
      PriceOfOne(Multiplier(tier), rate);
    } else {
      PriceOfMore(0, Multiplier(tier), rate);
    }
  }

  lemma {:induction false} ExactFeeSplits(start: nat, a: nat, b: nat, rate: real)
    ensures ExactFee(start, a + b, rate) == ExactFee(start, a, rate) + ExactFee(start + a, b, rate)
    decreases b
  {
    hide Price, Multiplier;
    if b > 0 {
      ExactFeeSplits(start, a, b - 1, rate);
    }
  }

  // ----- the loop's function -----

  function Min(a: nat, b: nat): nat {
    if a <= b then a else b
  }

  /** The fee for `left` bytes that start a tier with this multiplier. */
  function FeeFrom(left: nat, multiplier: real, rate: real): int
    decreases left
  {
    if left == 0 then 0
    else
      var consumed := Min(TIER_SIZE, left);
      Round(Price(consumed, multiplier, rate)) + FeeFrom(left - consumed, multiplier * 1.2, rate)
  }

  /** How many tiers `size` bytes reach into. */
  function Tiers(size: nat): nat {
    (size + TIER_SIZE - 1) / TIER_SIZE
  }

  /** What each tier consumes. */
  function Chunks(left: nat): seq<nat>
    decreases left
  {
    if left == 0 then [] else [Min(TIER_SIZE, left)] + Chunks(left - Min(TIER_SIZE, left))
  }

  function Sum(s: seq<nat>): nat {
    if s == [] then 0 else s[0] + Sum(s[1..])
  }

  /** Main result: every byte is charged once, and every tier but the last is full. */
  lemma {:induction false} TiersFillUp(size: nat)
    ensures Sum(Chunks(size)) == size && |Chunks(size)| == Tiers(size)
    ensures forall i :: 0 <= i < |Chunks(size)| ==> 0 < Chunks(size)[i] <= TIER_SIZE
    ensures forall i :: 0 <= i < |Chunks(size)| - 1 ==> Chunks(size)[i] == TIER_SIZE
    decreases size
  {
    if size != 0 {
      var rest := size - Min(TIER_SIZE, size);
      TiersFillUp(rest);
      assert Chunks(size)[1..] == Chunks(rest);
      assert forall i :: 0 < i < |Chunks(size)| ==> Chunks(size)[i] == Chunks(rest)[i - 1];
      TiersStep(size);
    }
  }

  lemma TiersStep(left: nat)
    requires left > 0
    ensures Tiers(left) == 1 + Tiers(left - Min(TIER_SIZE, left))
  {
  }

  lemma RoundIsNear(x: real)
    ensures -0.5 < Round(x) as real - x <= 0.5
  {
  }

  /** Main result: the fee is within half a lovelace per tier of the exact sum over the bytes. */
  lemma {:induction false} FeeIsNearExact(tier: nat, left: nat, rate: real)
    ensures var off := FeeFrom(left, Multiplier(tier), rate) as real - ExactFee(tier * TIER_SIZE, left, rate);
            -0.5 * Tiers(left) as real <= off <= 0.5 * Tiers(left) as real
    decreases left
  {
    hide Price, Round, ExactFee, Tiers;
    if left == 0 {
      NothingLeft(tier * TIER_SIZE, rate);
    } else {
      var start := tier * TIER_SIZE;
      var consumed := Min(TIER_SIZE, left);
      ExactFeeSplits(start, consumed, left - consumed, rate);
      ExactFeeInTier(tier, start, consumed, rate);
      RoundIsNear(Price(consumed, Multiplier(tier), rate));
      TiersStep(left);
      FeeIsNearExact(tier + 1, left - consumed, rate);
      if left > TIER_SIZE {
        assert start + consumed == (tier + 1) * TIER_SIZE;
      } else {
        NothingLeft(start + consumed, rate);
        NothingLeft((tier + 1) * TIER_SIZE, rate);
      }
    }
  }

  lemma NothingLeft(start: nat, rate: real)
    ensures ExactFee(start, 0, rate) == 0.0 && Tiers(0) == 0
  {
  }

  lemma {:induction false} PriceGrows(a: nat, b: nat, multiplier: real, rate: real)
    requires a <= b && multiplier >= 0.0 && rate >= 0.0
    ensures Price(a, multiplier, rate) <= Price(b, multiplier, rate)
    decreases b - a
  {
    hide Price;
    if a < b {
      PriceIsPositive(multiplier, rate);
      PriceOfMore(b - 1, multiplier, rate);
      PriceGrows(a, b - 1, multiplier, rate);
    }
  }

  lemma RoundGrows(x: real, y: real)
    requires x <= y
    ensures Round(x) <= Round(y) && Round(0.0) == 0
  {
  }

  /** Main result: more bytes never cost less. */
  lemma {:induction false} FeeGrows(a: nat, b: nat, multiplier: real, rate: real)
    requires a <= b && multiplier >= 0.0 && rate >= 0.0
    ensures 0 <= FeeFrom(a, multiplier, rate) <= FeeFrom(b, multiplier, rate)
    decreases b
  {
    hide Price, Round;
    if b != 0 {
      var x := Min(TIER_SIZE, a);
      var y := Min(TIER_SIZE, b);
      PriceOfMore(0, multiplier, rate);
      PriceGrows(0, x, multiplier, rate);
      PriceGrows(x, y, multiplier, rate);
      RoundGrows(0.0, Price(x, multiplier, rate));
      RoundGrows(Price(x, multiplier, rate), Price(y, multiplier, rate));
      FeeGrows(a - x, b - y, multiplier * 1.2, rate);
    }
  }

  /** The loop. */
  method RefScriptsFee(refScriptSize: nat, rate: real) returns (refScriptsFee: int, consumedByTier: seq<nat>)
    ensures refScriptsFee == FeeFrom(refScriptSize, 1.0, rate)
    ensures consumedByTier == Chunks(refScriptSize)
  {
    hide Price, Round;
    var multiplier := 1.0;
    refScriptsFee, consumedByTier := 0, [];
    var alreadyConsumed := 0;
    var tier := 0;
    while tier * TIER_SIZE < refScriptSize
      invariant alreadyConsumed == Min(tier * TIER_SIZE, refScriptSize)
      invariant refScriptsFee + FeeFrom(refScriptSize - alreadyConsumed, multiplier, rate) == FeeFrom(refScriptSize, 1.0, rate)
      invariant consumedByTier + Chunks(refScriptSize - alreadyConsumed) == Chunks(refScriptSize)
      decreases refScriptSize - tier * TIER_SIZE
    {
      var consumedThisTier := Min(TIER_SIZE, refScriptSize - alreadyConsumed);
      alreadyConsumed := alreadyConsumed + consumedThisTier;
      var feeThisTier := Round(Price(consumedThisTier, multiplier, rate));
      refScriptsFee := refScriptsFee + feeThisTier;
      consumedByTier := consumedByTier + [consumedThisTier];
      tier, multiplier := tier + 1, multiplier * 1.2;
    }
  }
}
