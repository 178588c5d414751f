/** Market metadata: precision, rounding and conversion between the currencies of a pair. */
module Symbols {
  import opened Domain

  datatype Symbol = Symbol(
    isDerivative: bool,
    base: CurrencyCode,
    quote: CurrencyCode,
    amountCode: CurrencyCode,
    balanceCode: Option<CurrencyCode>,
    amountMultiplier: real,
    tick: real)
  {
    function Pair(): CurrencyPair {
      CurrencyPair(base, quote)
    }

    /** The currency given away by an order of this side. */
    function TradeCodeBefore(side: OrderSide): CurrencyCode {
      match side
      case Buy => quote
      case Sell => base
    }

    /** The codes conversion accepts; any other code makes the code panic. */
    predicate Converts(code: CurrencyCode) {
      code == amountCode || code == base || code == quote
    }

    /** What the balance code demands of a symbol. */
    predicate Ok() {
      && tick > 0.0 && amountMultiplier > 0.0
      && (isDerivative ==> balanceCode.Some? && Converts(balanceCode.value))
    }
  }

  function Abs(x: real): real {
    if x < 0.0 then -x else x
  }

  function Min(a: real, b: real): real {
    if a <= b then a else b
  }

  function Max(a: real, b: real): real {
    if a >= b then a else b
  }

  // ---- rounding ----

  function RoundDown(value: real, unit: real): real
    requires unit > 0.0
  {
    (value / unit).Floor as real * unit
  }

  function RoundUp(value: real, unit: real): real
    requires unit > 0.0
  {
    -RoundDown(-value, unit)
  }

  function RoundToNearest(value: real, unit: real): real
    requires unit > 0.0
  {
    var floor, ceil := RoundDown(value, unit), RoundUp(value, unit);
    if ceil - value <= value - floor then ceil else floor
  }

  lemma Scaled(a: real, b: real, unit: real)
    requires a <= b && unit > 0.0
    ensures a * unit <= b * unit
  {
  }

  lemma StrictlyScaled(a: real, b: real, unit: real)
    requires a < b && unit > 0.0
    ensures a * unit < b * unit
  {
  }

  lemma RoundDownBounds(value: real, unit: real)
    requires unit > 0.0
    ensures RoundDown(value, unit) <= value < RoundDown(value, unit) + unit
  {
    var q := value / unit;
    var n := q.Floor as real;
    assert RoundDown(value, unit) == n * unit;
    assert q * unit == value;
    Scaled(n, q, unit);
    StrictlyScaled(q, n + 1.0, unit);
    assert (n + 1.0) * unit == n * unit + unit;
  }

  /** Either both neighbours are the value itself or they are one unit apart. */
  lemma RoundNeighbours(value: real, unit: real)
    requires unit > 0.0
    ensures RoundUp(value, unit) - RoundDown(value, unit) <= unit
  {
    RoundDownBounds(value, unit);
    RoundDownBounds(-value, unit);
    var k: int := -(value / unit).Floor - ((-value) / unit).Floor;
    var gap := RoundUp(value, unit) - RoundDown(value, unit);
    assert gap < 2.0 * unit;
    assert gap == k as real * unit by {
      GapIsMultiple((value / unit).Floor, ((-value) / unit).Floor, unit);
    }
    BelowTwoIsAtMostOne(k, unit, gap);
  }

  lemma PositiveFactor(a: real, b: real)
    requires b > 0.0 && a * b > 0.0
    ensures a > 0.0
  {
  }

  lemma BelowTwoIsAtMostOne(k: int, unit: real, gap: real)
    requires unit > 0.0 && gap == k as real * unit && gap < 2.0 * unit
    ensures gap <= unit
  {
    PositiveFactor(2.0 - k as real, unit);
    Scaled(k as real, 1.0, unit);
  }

  lemma GapIsMultiple(a: int, b: int, unit: real)
    ensures -(b as real * unit) - a as real * unit == (-a - b) as real * unit
  {
  }

  /** Rounding moves a value by at most half a unit. */
  lemma RoundingError(value: real, unit: real)
    requires unit > 0.0
    ensures Abs(RoundToNearest(value, unit) - value) <= unit / 2.0
  {
    RoundDownBounds(value, unit);
    RoundDownBounds(-value, unit);
    RoundNeighbours(value, unit);
  }

  /** Values on the grid are left alone. */
  lemma RoundingKeepsGrid(k: int, unit: real)
    requires unit > 0.0
    ensures RoundToNearest(k as real * unit, unit) == k as real * unit
  {
    assert (k as real * unit) / unit == k as real;
    assert (-(k as real * unit)) / unit == (-k) as real;
  }

  lemma RoundUpIs(value: real, unit: real)
    requires unit > 0.0
    ensures var q := value / unit;
            var ceil := if q == q.Floor as real then q.Floor else q.Floor + 1;
            RoundUp(value, unit) == ceil as real * unit
  {
    var q := value / unit;
    assert (-value) / unit == -q;
    assert (-q).Floor == if q == q.Floor as real then -q.Floor else -q.Floor - 1;
  }

  lemma NearerIff(q: real, n: real, unit: real, value: real)
    requires unit > 0.0 && value == q * unit
    ensures (n + 1.0) * unit - value <= value - n * unit <==> q - n >= 0.5
  {
    assert (n + 1.0) * unit - value == (n + 1.0 - q) * unit && value - n * unit == (q - n) * unit;
    if q - n >= 0.5 {
      Scaled(n + 1.0 - q, q - n, unit);
    } else {
      StrictlyScaled(q - n, n + 1.0 - q, unit);
    }
  }

  /** Rounding goes to the nearest multiple of the unit, and up from half-way. */
  lemma RoundsHalfUp(value: real, unit: real)
    requires unit > 0.0
    ensures RoundToNearest(value, unit) == (value / unit + 0.5).Floor as real * unit
  {
    var q := value / unit;
    var n := q.Floor;
    RoundUpIs(value, unit);
    assert value == q * unit;
    NearerIff(q, n as real, unit, value);
    assert (q + 0.5).Floor == if q - n as real >= 0.5 then n + 1 else n;
  }

  /** A rounded value is not negative exactly from minus half a unit on. */
  lemma RoundsNotNegativeIff(value: real, unit: real)
    requires unit > 0.0
    ensures RoundToNearest(value, unit) >= 0.0 <==> value >= -(unit / 2.0)
  {
    RoundsHalfUp(value, unit);
    var q := value / unit;
    var k := (q + 0.5).Floor;
    assert value == q * unit && -(unit / 2.0) == -0.5 * unit;
    if q >= -0.5 {
      Scaled(-0.5, q, unit);
      Scaled(0.0, k as real, unit);
    } else {
      StrictlyScaled(q, -0.5, unit);
      StrictlyScaled(k as real, 0.0, unit);
    }
  }

  /** A hundredth of the amount tick: the precision to which amounts are kept. */
  function Unit(symbol: Symbol): real {
    symbol.tick * 0.01
  }

  function RoundAmount(symbol: Symbol, amount: real): real
    requires symbol.tick > 0.0
  {
    RoundToNearest(amount, Unit(symbol))
  }

  predicate WithinMargin(symbol: Symbol, amount: real) {
    Abs(amount) <= symbol.tick * 0.01
  }

  /** A hundred precision units are a tick, and the margin is one of them. */
  lemma UnitIsMargin(symbol: Symbol, amount: real)
    ensures Unit(symbol) * 100.0 == symbol.tick
    ensures WithinMargin(symbol, amount) <==> -Unit(symbol) <= amount <= Unit(symbol)
  {
  }

  // ---- conversion ----

  function ConvertFromAmount(symbol: Symbol, to: CurrencyCode, amount: real, price: real): real
    requires price > 0.0 && symbol.Converts(to)
  {
    if to == symbol.amountCode then amount
    else if to == symbol.base then amount / price
    else amount * price
  }

  function ConvertIntoAmount(symbol: Symbol, from: CurrencyCode, amount: real, price: real): real
    requires price > 0.0 && symbol.Converts(from)
  {
    if from == symbol.amountCode then amount
    else if from == symbol.base then amount * price
    else amount / price
  }

  function ConvertFromBalance(symbol: Symbol, to: CurrencyCode, amount: real, price: real): real
    requires price > 0.0 && (symbol.balanceCode == Some(to) || to == symbol.base || to == symbol.quote)
  {
    if symbol.balanceCode == Some(to) then amount
    else if to == symbol.base then amount / price
    else amount * price
  }

  /** Units of `to` per unit of the amount currency. */
  function Rate(symbol: Symbol, to: CurrencyCode, price: real): real
    requires price > 0.0
  {
    if to == symbol.amountCode then 1.0 else if to == symbol.base then 1.0 / price else price
  }

  lemma ConversionIsLinear(symbol: Symbol, to: CurrencyCode, amount: real, price: real)
    requires price > 0.0 && symbol.Converts(to)
    ensures ConvertFromAmount(symbol, to, amount, price) == amount * Rate(symbol, to, price)
  {
  }

  /** Converting there and back is the identity. */
  lemma ConversionRoundTrip(symbol: Symbol, code: CurrencyCode, amount: real, price: real)
    requires price > 0.0 && symbol.Converts(code)
    ensures ConvertIntoAmount(symbol, code, ConvertFromAmount(symbol, code, amount, price), price) == amount
  {
  }
}
