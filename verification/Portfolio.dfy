/** The domain entity: one holding of a stock, with the figures derived
    from it. Prices are `real`, so the IEEE-754 rounding of the app's
    `Double`s is abstracted away. */
module Domain {

  /** Kotlin `Int`. */
  type Int32 = x: int | -0x8000_0000 <= x < 0x8000_0000

  /** A holding: `quantity` shares of `symbol`, last traded at `ltp`, bought
      at `avgPrice` on average, with previous close `close`. */
  datatype Portfolio = Portfolio(symbol: string, quantity: Int32, ltp: real, avgPrice: real, close: real) {

    /** Market value of the holding at the last traded price. */
    function CurrentValue(): real {
      ltp * quantity as real
    }

    /** What the holding cost. */
    function InvestmentValue(): real {
      avgPrice * quantity as real
    }

    /** The day's figure with the app's own sign convention: positive when
        the last traded price is below the previous close. */
    function TodaysPnL(): real {
      (close - ltp) * quantity as real
    }

    /** Overall gain of the holding: market value less cost, which is the
        per-share price gap scaled by the quantity. */
    function ProfitAndLoss(): (r: real)
      ensures r == (ltp - avgPrice) * quantity as real
    {
      CurrentValue() - InvestmentValue()
    }
  }

  /** An empty position is worth nothing and has gained or lost nothing. */
  lemma {:induction false} ZeroQuantityFigures(p: Portfolio)
    requires p.quantity == 0
    ensures p.CurrentValue() == 0.0 && p.InvestmentValue() == 0.0
    ensures p.TodaysPnL() == 0.0 && p.ProfitAndLoss() == 0.0
  {
  }

  /** For a real position, the holding is in profit exactly when the last
      traded price is at least the average buying price. */
  lemma {:induction false} ProfitSign(p: Portfolio)
    requires p.quantity > 0
    ensures p.ProfitAndLoss() >= 0.0 <==> p.ltp >= p.avgPrice
  {
    var q := p.quantity as real;
    var gap := p.ltp - p.avgPrice;
    assert p.ProfitAndLoss() == gap * q;
    if gap >= 0.0 {
      assert gap * q >= 0.0 * q;
    } else {
      assert gap * q < 0.0 * q;
    }
  }

  /** The derived figures read only the numeric fields: renaming the
      symbol changes none of them. */
  lemma {:induction false} FiguresIgnoreSymbol(p: Portfolio, s: string)
    ensures p.(symbol := s).CurrentValue() == p.CurrentValue()
    ensures p.(symbol := s).InvestmentValue() == p.InvestmentValue()
    ensures p.(symbol := s).TodaysPnL() == p.TodaysPnL()
    ensures p.(symbol := s).ProfitAndLoss() == p.ProfitAndLoss()
  {
  }

  /** The profitable holding of the domain unit test. */
  lemma {:induction false} RelianceFigures()
    ensures var h := Portfolio("RELIANCE", 10, 2500.0, 2400.0, 2600.0);
      && h.CurrentValue() == 25000.0
      && h.InvestmentValue() == 24000.0
      && h.TodaysPnL() == 1000.0
      && h.ProfitAndLoss() == 1000.0
  {
  }

  /** The loss-making holding of the domain unit test. */
  lemma {:induction false} AirtelFigures()
    ensures var h := Portfolio("AIRTEL", 100, 340.0, 370.0, 290.0);
      && h.CurrentValue() == 34000.0
      && h.InvestmentValue() == 37000.0
      && h.TodaysPnL() == -5000.0
      && h.ProfitAndLoss() == -3000.0
  {
  }
}
