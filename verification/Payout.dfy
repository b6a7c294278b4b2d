/** Splitting the price of a reservation between farmer, burn and foundation. */
module Payout {
  import opened GoInt

  // Percentage of a reservation's cost that goes to each party.
  datatype Distribution = Distribution(farmer: uint8, burned: uint8, foundation: uint8) {
    function Sum(): int { farmer + burned + foundation }

    // The source adds three uint8 values, so the sum wraps at 256.
    predicate Validate() { Sum() % 256 == 100 }
  }

  datatype Shares = Shares(farmer: int, burned: int, foundation: int) {
    function Sum(): int { farmer + burned + foundation }
  }

  // The supported assets: three currencies on two networks.
  datatype Currency = TFT | TFTA | FreeTFT
  datatype Network = Mainnet | Testnet
  datatype Asset = Asset(currency: Currency, network: Network)

  // The distribution table.
  function DistributionOf(asset: Asset): (d: Distribution)
    ensures d.Validate() && d.Sum() == 100
    ensures d.farmer == 0 <==> asset.currency == FreeTFT
  {
    match asset.currency
    case TFT => Distribution(90, 0, 10)
    case TFTA => Distribution(90, 0, 10)
    case FreeTFT => Distribution(0, 100, 0)
  }

  // validate accepts sums that are 100 only after wrapping; it means 100 exactly when the
  // percentages do not exceed 255 together.
  lemma ValidateMeansHundred(d: Distribution)
    requires d.Validate()
    ensures d.Sum() == 100 <==> d.Sum() <= 255
    ensures Distribution(200, 100, 56).Validate() && Distribution(200, 100, 56).Sum() == 356
  {
  }

  // ---------- The intended split ----------

  // What the floors lose goes to the first party that gets anything.
  function GiveChange(change: int, f: int, b: int, o: int): Shares {
    if f != 0 then Shares(f + change, b, o)
    else if b != 0 then Shares(f, b + change, o)
    else if o != 0 then Shares(f, b, o + change)
    else Shares(f, b, o)
  }

  // Every party gets the floor of its tenths; f, b and o are the parties' tenths.
  function SplitTenths(rounded: int, f: int, b: int, o: int): Shares {
    GiveChange(rounded - f / 10 - b / 10 - o / 10, f / 10, b / 10, o / 10)
  }

  // A cost of 7 digits is rounded down to 6 digits and split by percentage.
  function Split(total: nat, d: Distribution): Shares {
    var base := total / 10;
    SplitTenths(10 * base, base * d.farmer, base * d.burned, base * d.foundation)
  }

  // A part is less than two units away from its exact share.
  predicate Near(part: int, tenths: int) {
    -10 < 10 * part - tenths < 20
  }

  lemma Distribute(d: Distribution, x: int)
    requires d.Sum() == 100
    ensures x * d.farmer + x * d.burned + x * d.foundation == 100 * x
  {
    assert x * d.farmer + x * d.burned + x * d.foundation == x * d.Sum();
  }

  lemma GiveChangeIsFair(rounded: int, f: nat, b: nat, o: nat)
    requires f + b + o <= rounded <= f + b + o + 2
    requires f == b == o == 0 ==> rounded == 0
    ensures var s := GiveChange(rounded - f - b - o, f, b, o);
            && s.Sum() == rounded
            && s.farmer in {f, rounded - b - o} && s.burned in {b, rounded - f - o}
            && s.foundation in {o, rounded - f - b}
            && (f == 0 ==> s.farmer == 0) && (b == 0 ==> s.burned == 0) && (o == 0 ==> s.foundation == 0)
  {
  }

  lemma TenthsLoseLittle(base: nat, f: nat, b: nat, o: nat)
    requires f + b + o == 100 * base
    ensures f / 10 + b / 10 + o / 10 <= 10 * base <= f / 10 + b / 10 + o / 10 + 2
  {
    assert f == 10 * (f / 10) + f % 10 && b == 10 * (b / 10) + b % 10 && o == 10 * (o / 10) + o % 10;
    assert 10 * (10 * base - f / 10 - b / 10 - o / 10) == f % 10 + b % 10 + o % 10;
  }

  lemma SplitTenthsIsFair(base: nat, f: nat, b: nat, o: nat)
    requires f + b + o == 100 * base
    ensures Fair(SplitTenths(10 * base, f, b, o), 10 * base, f, b, o)
  {
    TenthsLoseLittle(base, f, b, o);
    GiveChangeIsFair(10 * base, f / 10, b / 10, o / 10);
    var s := SplitTenths(10 * base, f, b, o);
    NearTenth(s.farmer, base, f, b, o);
    NearTenth(s.burned, base, b, f, o);
    NearTenth(s.foundation, base, o, f, b);
  }

  // Nothing negative, nothing for a party with nothing, every part near its tenths, and together
  // exactly what there is.
  predicate Fair(s: Shares, rounded: int, f: nat, b: nat, o: nat) {
    && 0 <= s.farmer && 0 <= s.burned && 0 <= s.foundation
    && s.Sum() == rounded
    && (f == 0 ==> s.farmer == 0) && (b == 0 ==> s.burned == 0) && (o == 0 ==> s.foundation == 0)
    && Near(s.farmer, f) && Near(s.burned, b) && Near(s.foundation, o)
  }

  // A party gets the floor of its share, or what the floors of the others leave.
  lemma NearTenth(part: int, base: nat, f: nat, b: nat, o: nat)
    requires f + b + o == 100 * base
    requires part in {f / 10, 10 * base - b / 10 - o / 10}
    ensures Near(part, f) && part >= f / 10
  {
    assert f == 10 * (f / 10) + f % 10 && b == 10 * (b / 10) + b % 10 && o == 10 * (o / 10) + o % 10;
  }

  // The split is fair: nothing negative, nothing for a party with no percentage, every part near
  // its percentage, and together exactly the total less its last digit.
  lemma SplitIsFair(total: nat, d: Distribution)
    requires d.Sum() == 100
    ensures var s, base := Split(total, d), total / 10;
            && 0 <= s.farmer && 0 <= s.burned && 0 <= s.foundation
            && s.Sum() == total - total % 10
            && (d.farmer == 0 ==> s.farmer == 0)
            && (d.burned == 0 ==> s.burned == 0)
            && (d.foundation == 0 ==> s.foundation == 0)
            && Near(s.farmer, base * d.farmer)
            && Near(s.burned, base * d.burned)
            && Near(s.foundation, base * d.foundation)
  {
    var base := total / 10;
    SplitOfTenthsIsFair(total, d, base, base * d.farmer, base * d.burned, base * d.foundation);
    assert total - total % 10 == 10 * base;
    assert forall x :: x * 0 == 0;
  }

  // What that comes to: nine tenths to the farmer and one to the foundation, or all of it burned, of
  // the total less its last digit.
  function FarmerPart(asset: Asset, total: int): int {
    if asset.currency == FreeTFT then 0 else 9 * (total / 10)
  }

  function BurnedPart(asset: Asset, total: int): int {
    if asset.currency == FreeTFT then 10 * (total / 10) else 0
  }

  function FoundationPart(asset: Asset, total: int): int {
    if asset.currency == FreeTFT then 0 else total / 10
  }

  lemma WhoGetsWhat(asset: Asset, total: nat)
    ensures Split(total, DistributionOf(asset))
         == Shares(FarmerPart(asset, total), BurnedPart(asset, total), FoundationPart(asset, total))
  {
    var base := total / 10;
    if asset.currency == FreeTFT {
      assert base * 100 / 10 == 10 * base;
    } else {
      assert base * 90 / 10 == 9 * base && base * 10 / 10 == base;
    }
  }

  lemma SplitOfTenthsIsFair(total: nat, d: Distribution, base: nat, f: nat, b: nat, o: nat)
    requires d.Sum() == 100 && base == total / 10
    requires f == base * d.farmer && b == base * d.burned && o == base * d.foundation
    ensures Fair(Split(total, d), 10 * base, f, b, o)
  {
    assert f + b + o == 100 * base by {
      Distribute(d, base);
    }
    SplitTenthsIsFair(base, f, b, o);
  }

  // ---------- The source's arithmetic ----------

  const COST_PRECISION := 6
  const PRECISION_DIGITS := 7  // digits of a Stellar amount

  // 10 to the digits that percentages of a 6-digit cost need beyond the wallet's.
  const MULTIPLIER: int := 10

  // A percentage of the base amount, before the division by the multiplier.
  function Portion(base: int, percent: uint8): int64 {
    Wrap(base * percent)
  }

  // splitPayout, with int64 wrap-around and truncating division.
  method SplitPayout(total: int64, d: Distribution) returns (s: Shares)
    ensures d.Sum() == 100 && 0 <= total && 10 * total <= MAX_INT64 ==> s == Split(total, d)
    // The parts make up the total, less its last digit, exactly when the scaled total still
    // fits an int64.
    ensures d.Sum() == 100 && 0 <= total ==> (s.Sum() == total - total % 10 <==> 10 * total <= MAX_INT64)
  {
    var requiredPrecision := 2 + COST_PRECISION;
    var missingPrecision := requiredPrecision - PRECISION_DIGITS;
    var multiplier := 1;
    if missingPrecision > 0 {
      multiplier := MULTIPLIER;
    }

    assert multiplier == 10;
    var amount := Wrap(total * multiplier);
    var baseAmount := Quot(amount, 100);
    var farmerAmount := Portion(baseAmount, d.farmer);
    var burnAmount := Portion(baseAmount, d.burned);
    var foundationAmount := Portion(baseAmount, d.foundation);
    ghost var f, b, o := farmerAmount, burnAmount, foundationAmount;

    var change := 0;
    change := change + Rem(farmerAmount, multiplier);
    change := change + Rem(burnAmount, multiplier);
    change := change + Rem(foundationAmount, multiplier);

    change := Quot(change, multiplier);
    farmerAmount := Quot(farmerAmount, multiplier);
    burnAmount := Quot(burnAmount, multiplier);
    foundationAmount := Quot(foundationAmount, multiplier);

    if farmerAmount != 0 {
      farmerAmount := farmerAmount + change;
    } else if burnAmount != 0 {
      burnAmount := burnAmount + change;
    } else if foundationAmount != 0 {
      foundationAmount := foundationAmount + change;
    }
    s := Shares(farmerAmount, burnAmount, foundationAmount);
    if d.Sum() == 100 && 0 <= total {
      assert s == Computed(f, b, o);
      if 10 * total <= MAX_INT64 {
        PortionsSplit(total, d, baseAmount, f, b, o);
      }
      ConservesIffNoOverflow(total, d, amount, baseAmount);
    }
  }

  // What the method makes of the three portions.
  function Computed(f: int, b: int, o: int): Shares {
    GiveChange(Quot(Rem(f, 10) + Rem(b, 10) + Rem(o, 10), 10), Quot(f, 10), Quot(b, 10), Quot(o, 10))
  }

  lemma Portions(base: int, d: Distribution)
    requires d.Sum() == 100 && -TWO_TO_63 <= 100 * base <= MAX_INT64
    ensures Portion(base, d.farmer) == base * d.farmer
    ensures Portion(base, d.burned) == base * d.burned
    ensures Portion(base, d.foundation) == base * d.foundation
    ensures Portion(base, d.farmer) + Portion(base, d.burned) + Portion(base, d.foundation) == 100 * base
  {
    Scaled(base, d.farmer);
    Scaled(base, d.burned);
    Scaled(base, d.foundation);
    Distribute(d, base);
  }

  lemma Scaled(base: int, p: nat)
    requires p <= 100
    ensures base >= 0 ==> 0 <= base * p <= 100 * base
    ensures base <= 0 ==> 100 * base <= base * p <= 0
  {
    assert base * p + base * (100 - p) == 100 * base;
    if base >= 0 {
      assert base * (100 - p) >= 0 && base * p >= 0;
    } else {
      assert base * (100 - p) <= 0 && base * p <= 0;
    }
  }

  // What the three divisions cut off is a whole number of units: change loses nothing.
  lemma ChangeIsWhole(f: int, b: int, o: int, base: int)
    requires f + b + o == 100 * base
    ensures Quot(Rem(f, 10) + Rem(b, 10) + Rem(o, 10), 10) == 10 * base - Quot(f, 10) - Quot(b, 10) - Quot(o, 10)
  {
    var parts, lost := Quot(f, 10) + Quot(b, 10) + Quot(o, 10), Rem(f, 10) + Rem(b, 10) + Rem(o, 10);
    assert lost == 10 * (10 * base - parts);
  }

  // So it is with any multiplier that divides 100, not only with 10.
  lemma ChangeIsWholeFor(multiplier: nat, other: nat, f: int, b: int, o: int, base: int)
    requires multiplier * other == 100 && f + b + o == 100 * base
    ensures var collected := Rem(f, multiplier) + Rem(b, multiplier) + Rem(o, multiplier);
            && Rem(collected, multiplier) == 0
            && Quot(collected, multiplier)
               == other * base - Quot(f, multiplier) - Quot(b, multiplier) - Quot(o, multiplier)
  {
    var qf, qb, qo := Quot(f, multiplier), Quot(b, multiplier), Quot(o, multiplier);
    CutOff(f, multiplier);
    CutOff(b, multiplier);
    CutOff(o, multiplier);
    WholeChange(multiplier, other, qf, qb, qo, base);
    MultipleDivides(multiplier, other * base - qf - qb - qo);
  }

  lemma CutOff(x: int, multiplier: nat)
    requires multiplier > 0
    ensures Rem(x, multiplier) == x - multiplier * Quot(x, multiplier)
  {
  }

  lemma WholeChange(multiplier: nat, other: nat, qf: int, qb: int, qo: int, base: int)
    requires multiplier * other == 100
    ensures multiplier * (other * base - qf - qb - qo)
         == 100 * base - multiplier * qf - multiplier * qb - multiplier * qo
  {
    assert multiplier * (other * base) == multiplier * other * base;
  }

  lemma MultipleDivides(m: nat, x: int)
    requires m > 0
    ensures Quot(m * x, m) == x && Rem(m * x, m) == 0
  {
  }

  lemma ComputedTenths(base: nat, f: nat, b: nat, o: nat)
    requires f + b + o == 100 * base
    ensures Computed(f, b, o) == SplitTenths(10 * base, f, b, o)
  {
    ChangeIsWhole(f, b, o, base);
  }

  lemma ComputesSplit(total: nat, d: Distribution, f: int, b: int, o: int)
    requires d.Sum() == 100
    requires f == total / 10 * d.farmer && b == total / 10 * d.burned && o == total / 10 * d.foundation
    ensures Computed(f, b, o) == Split(total, d)
  {
    Distribute(d, total / 10);
    ComputedTenths(total / 10, f, b, o);
  }

  lemma PortionsSplit(total: nat, d: Distribution, base: int, f: int, b: int, o: int)
    requires d.Sum() == 100 && base == total / 10 && 100 * base <= MAX_INT64
    requires f == Portion(base, d.farmer) && b == Portion(base, d.burned) && o == Portion(base, d.foundation)
    ensures Computed(f, b, o) == Split(total, d)
  {
    assert f == base * d.farmer by { Portions(base, d); }
    assert b == base * d.burned by { Portions(base, d); }
    assert o == base * d.foundation by { Portions(base, d); }
    ComputesSplit(total, d, f, b, o);
  }

  lemma GiveChangeSum(rounded: int, f: int, b: int, o: int)
    requires f == b == o == 0 ==> rounded == 0
    ensures GiveChange(rounded - f - b - o, f, b, o).Sum() == rounded
  {
  }

  lemma NothingToSplit(base: int, f: int, b: int, o: int)
    requires f + b + o == 100 * base && Quot(f, 10) == 0 && Quot(b, 10) == 0 && Quot(o, 10) == 0
    ensures base == 0
  {
    assert -10 < f < 10 && -10 < b < 10 && -10 < o < 10;
  }

  lemma ComputedConserves(base: int, f: int, b: int, o: int)
    requires f + b + o == 100 * base
    ensures Computed(f, b, o).Sum() == 10 * base
  {
    var f1, b1, o1 := Quot(f, 10), Quot(b, 10), Quot(o, 10);
    ChangeIsWhole(f, b, o, base);
    if f1 == b1 == o1 == 0 {
      NothingToSplit(base, f, b, o);
    }
    GiveChangeSum(10 * base, f1, b1, o1);
  }

  lemma ConservesIffNoOverflow(total: int64, d: Distribution, amount: int, base: int)
    requires d.Sum() == 100 && 0 <= total && amount == Wrap(10 * total) && base == Quot(amount, 100)
    ensures Computed(Portion(base, d.farmer), Portion(base, d.burned), Portion(base, d.foundation)).Sum()
         == total - total % 10
       <==> 10 * total <= MAX_INT64
  {
    ComputedConserves(base, Portion(base, d.farmer), Portion(base, d.burned), Portion(base, d.foundation)) by {
      Portions(base, d);
    }
    OverflowChangesTheBase(total, amount, base);
  }

  // The smallest price for which it does not hold.
  lemma OverflowLoses(d: Distribution)
    requires d.Sum() == 100
    ensures var total := 922337203685477581;
            var base := Quot(Wrap(10 * total), 100);
            Computed(Portion(base, d.farmer), Portion(base, d.burned), Portion(base, d.foundation)).Sum()
            != total - total % 10
  {
    var total := 922337203685477581;
    ConservesIffNoOverflow(total, d, Wrap(10 * total), Quot(Wrap(10 * total), 100));
  }

  lemma OverflowChangesTheBase(total: int64, amount: int, base: int)
    requires 0 <= total && amount == Wrap(10 * total) && base == Quot(amount, 100)
    ensures 10 * base == total - total % 10 <==> 10 * total <= MAX_INT64
  {
    if 10 * total > MAX_INT64 {
      assert amount <= 10 * total - TWO_TO_64;
    }
  }
}
