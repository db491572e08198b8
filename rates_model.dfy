/** The `Rates` schema: two gold tiers and two silver tiers, each a required
    number defaulting to 0, with Mongoose timestamps. */
module RatesModel {

  datatype GoldRate = GoldRate(twentyTwoCarat: int, twentyFourCarat: int)

  datatype SilverRate = SilverRate(fine: int, sterling: int)

  datatype Rates = Rates(goldRate: GoldRate, silverRate: SilverRate, createdAt: int, updatedAt: int)

  /** Every tier price is zero. */
  predicate AllZero(r: Rates)
  {
    && r.goldRate.twentyTwoCarat == 0 && r.goldRate.twentyFourCarat == 0
    && r.silverRate.fine == 0 && r.silverRate.sterling == 0
  }

  /** `new Rates()` saved at `now`: the defaults fill every tier. */
  function DefaultRates(now: int): (r: Rates)
    ensures AllZero(r)
    ensures r.createdAt == now && r.updatedAt == now
  {
    Rates(GoldRate(0, 0), SilverRate(0, 0), now, now)
  }
}
