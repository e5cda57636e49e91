/** The put credit spread: what the constructor accepts, and its payoff at expiry. */
module CreditSpreads {

  datatype Spread = Spread(
    spot: real,
    shortStrike: real,
    longStrike: real,
    quantity: real,
    premium: real)
  {
    function Width(): real {
      shortStrike - longStrike
    }

    predicate Valid() {
      && spot > 0.0
      && shortStrike > longStrike > 0.0
      && quantity > 0.0
      && 0.0 <= premium <= Width() * quantity
    }

    /** Signed P&L at expiry for a terminal price. */
    function ExpiryPnl(price: real): real {
      premium
      - quantity * NonNegative(shortStrike - price)
      + quantity * NonNegative(longStrike - price)
    }
  }

  type CreditSpread = s: Spread | s.Valid() witness Spread(1.0, 2.0, 1.0, 1.0, 0.0)

  function NonNegative(x: real): real {
    if x > 0.0 then x else 0.0
  }

  /** How far into the loss zone a terminal price has fallen. */
  function LossDepth(s: Spread, price: real): real {
    NonNegative(s.shortStrike - price) - NonNegative(s.longStrike - price)
  }

  lemma LossDepthShape(s: CreditSpread, low: real, high: real)
    requires low <= high
    ensures 0.0 <= LossDepth(s, high) <= LossDepth(s, low) <= s.Width()
    ensures LossDepth(s, low) - LossDepth(s, high) <= high - low
  {}

  lemma Distribute(k: real, a: real, b: real)
    ensures k * a - k * b == k * (a - b)
  {}

  lemma ScaleLe(k: real, a: real, b: real)
    requires k >= 0.0 && a <= b
    ensures k * a <= k * b
  {}

  /** The payoff is the premium less the quantity times the depth of the fall into
      the loss zone, which is never deeper than the width. */
  lemma ExpiryPnlByDepth(s: CreditSpread, price: real)
    ensures s.ExpiryPnl(price) == s.premium - s.quantity * LossDepth(s, price)
    ensures 0.0 <= LossDepth(s, price) <= s.Width()
  {
    Distribute(s.quantity, NonNegative(s.shortStrike - price), NonNegative(s.longStrike - price));
  }

  lemma DepthPnlShape(premium: real, q: real, a: real, b: real, w: real, rise: real)
    requires q >= 0.0 && 0.0 <= b <= a <= w && a - b <= rise
    ensures premium - q * w <= premium - q * a <= premium - q * b <= premium
    ensures (premium - q * b) - (premium - q * a) <= q * rise
  {
    ScaleLe(q, b, a);
    ScaleLe(q, a, w);
    ScaleLe(q, 0.0, b);
    Distribute(q, a, b);
    ScaleLe(q, a - b, rise);
  }

  /** The payoff is pinned between the maximum loss and the premium, it never
      falls when the price rises, and it rises by at most the quantity per unit. */
  lemma ExpiryPnlShape(s: CreditSpread, low: real, high: real)
    requires low <= high
    ensures s.premium - s.quantity * s.Width() <= s.ExpiryPnl(low) <= s.ExpiryPnl(high) <= s.premium
    ensures s.ExpiryPnl(high) - s.ExpiryPnl(low) <= s.quantity * (high - low)
  {
    LossDepthShape(s, low, high);
    ExpiryPnlByDepth(s, low);
    ExpiryPnlByDepth(s, high);
    DepthPnlShape(s.premium, s.quantity, LossDepth(s, low), LossDepth(s, high), s.Width(), high - low);
  }
}
