/**
 * The daily energy estimator of the calculator's button handler (app.py,
 * lines 184-200). Quantities are exact reals in kW: the decimal constants
 * of the source are modelled without binary floating-point error.
 */
module Estimator {

  /** The three choices of the "Number of Bedrooms" selectbox. */
  datatype Tier = OneBHK | TwoBHK | ThreeBHK

  /** The three appliance checkboxes. */
  datatype Appliances = Appliances(ac: bool, fridge: bool, washingMachine: bool)

  /** What every checked appliance adds, whichever it is. */
  const ApplianceLoad: real := 3.0

  /** The smallest and the largest estimate over all 24 inputs. */
  const MinDaily: real := 2.4
  const MaxDaily: real := 13.8

  /** The label the selectbox shows and the record stores. */
  function TierName(t: Tier): string
  {
    match t
    case OneBHK => "1BHK"
    case TwoBHK => "2BHK"
    case ThreeBHK => "3BHK"
  }

  /** The number of bedrooms a tier stands for; orders the tiers by size. */
  function Bedrooms(t: Tier): nat
  {
    match t
    case OneBHK => 1
    case TwoBHK => 2
    case ThreeBHK => 3
  }

  /**
   * The base load the handler adds for a tier: `n * 0.4 + n * 0.8`
   * with n one more than the bedroom count.
   */
  function BaseLoad(t: Tier): (b: real)
    ensures t == OneBHK ==> b == 2.4
    ensures t == TwoBHK ==> b == 3.6
    ensures t == ThreeBHK ==> b == 4.8
    ensures b == 1.2 + 1.2 * Bedrooms(t) as real
  {
    var n := (Bedrooms(t) + 1) as real;
    n * 0.4 + n * 0.8
  }

  /** How many of the three appliances are checked. */
  function CheckedCount(a: Appliances): (n: nat)
    ensures n <= 3
    ensures n == 0 <==> !a.ac && !a.fridge && !a.washingMachine
    ensures n == 3 <==> a.ac && a.fridge && a.washingMachine
  {
    (if a.ac then 1 else 0) + (if a.fridge then 1 else 0) + (if a.washingMachine then 1 else 0)
  }

  /**
   * The estimate: the tier's base load plus a flat load per checked
   * appliance. It lies between 2.4 (1BHK, nothing checked) and 13.8
   * (3BHK, everything checked), and reaches either end only there.
   */
  function DailyEnergy(t: Tier, a: Appliances): (e: real)
    ensures MinDaily <= e <= MaxDaily
    ensures e == MinDaily <==> t == OneBHK && CheckedCount(a) == 0
    ensures e == MaxDaily <==> t == ThreeBHK && CheckedCount(a) == 3
  {
    BaseLoad(t) + ApplianceLoad * CheckedCount(a) as real
  }

  /**
   * The handler's accumulation into `cal_energy`: start at 0, add the
   * base load for the selected tier, then 3 for each checked box.
   */
  method Estimate(facility: Tier, ac: bool, fridge: bool, wm: bool) returns (calEnergy: real)
    ensures calEnergy == DailyEnergy(facility, Appliances(ac, fridge, wm))
  {
    calEnergy := 0.0;
    if facility == OneBHK {
      calEnergy := calEnergy + 2.0 * 0.4 + 2.0 * 0.8;
    } else if facility == TwoBHK {
      calEnergy := calEnergy + 3.0 * 0.4 + 3.0 * 0.8;
    } else if facility == ThreeBHK {
      calEnergy := calEnergy + 4.0 * 0.4 + 4.0 * 0.8;
    }
    if ac {
      calEnergy := calEnergy + 3.0;
    }
    if fridge {
      calEnergy := calEnergy + 3.0;
    }
    if wm {
      calEnergy := calEnergy + 3.0;
    }
  }

  /** `b` is `a` with exactly one more appliance checked. */
  predicate OneMoreChecked(a: Appliances, b: Appliances)
  {
    || (!a.ac && b == a.(ac := true))
    || (!a.fridge && b == a.(fridge := true))
    || (!a.washingMachine && b == a.(washingMachine := true))
  }

  /** Every appliance checked in `a` is checked in `b`. */
  predicate Includes(b: Appliances, a: Appliances)
  {
    (a.ac ==> b.ac) && (a.fridge ==> b.fridge) && (a.washingMachine ==> b.washingMachine)
  }

  /** Checking one more appliance adds exactly 3, whichever appliance it is. */
  lemma CheckingOneMoreAddsThree(t: Tier, a: Appliances, b: Appliances)
    requires OneMoreChecked(a, b)
    ensures DailyEnergy(t, b) == DailyEnergy(t, a) + ApplianceLoad
  {
  }

  /** Only how many appliances are checked matters, not which. */
  lemma OnlyTheCountMatters(t: Tier, a: Appliances, b: Appliances)
    requires CheckedCount(a) == CheckedCount(b)
    ensures DailyEnergy(t, a) == DailyEnergy(t, b)
  {
  }

  /** A larger tier or more appliances never lowers the estimate. */
  lemma Monotone(t1: Tier, a1: Appliances, t2: Tier, a2: Appliances)
    requires Bedrooms(t1) <= Bedrooms(t2)
    requires Includes(a2, a1)
    ensures DailyEnergy(t1, a1) <= DailyEnergy(t2, a2)
  {
  }

  /** Moving up a tier with the same appliances strictly raises the estimate, by 1.2 per bedroom. */
  lemma LargerTierCostsMore(t1: Tier, t2: Tier, a: Appliances)
    requires Bedrooms(t1) < Bedrooms(t2)
    ensures DailyEnergy(t2, a) == DailyEnergy(t1, a) + 1.2 * (Bedrooms(t2) - Bedrooms(t1)) as real
  {
  }

  /** The three worked cases: 1BHK bare, 2BHK with AC, 3BHK with everything. */
  lemma Scenarios()
    ensures DailyEnergy(OneBHK, Appliances(false, false, false)) == 2.4
    ensures DailyEnergy(TwoBHK, Appliances(true, false, false)) == 6.6
    ensures DailyEnergy(ThreeBHK, Appliances(true, true, true)) == 13.8
  {
  }
}
