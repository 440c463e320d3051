/**
 Line totals in minor units from prices in minor units and quantities in thousandths.
 Standard pricing multiplies; per-unit pricing first divides by the base quantity at scale 6.
 */
module Rounding {
  import opened Orders

  /** price / base quantity in millionths, truncated as bcdiv truncates. */
  function PerBase(price: nat, base: nat): nat
    requires base > 0
  {
    price * 1_000_000_000 / base
  }

  /** The unit price an order line stores. */
  function UnitPrice(price: nat, base: nat): nat
    requires base > 0
  {
    (PerBase(price, base) + 500_000) / 1_000_000
  }

  /** The product truncated to three decimals, then rounded half up. */
  function Scaled(perBase: nat, quantity: nat): nat {
    (perBase * quantity / 1_000_000 + 500) / 1000
  }

  function PerUnitTotal(price: nat, base: nat, quantity: nat): nat
    requires base > 0
  {
    Scaled(PerBase(price, base), quantity)
  }

  /** The exact value of a line, in thousandths of a minor unit. */
  function Exact(lines: seq<Line>): nat {
    if lines == [] then 0 else lines[0].unitPrice * lines[0].quantity + Exact(lines[1..])
  }

  predicate Multiplied(lines: seq<Line>) {
    forall i :: 0 <= i < |lines| ==> lines[i].lineTotal == LineTotal(lines[i].unitPrice, lines[i].quantity)
  }

  /** A subtotal of n lines is within n/2 minor units of the exact value. */
  lemma {:induction false} SubtotalWithinHalves(lines: seq<Line>)
    requires Multiplied(lines)
    ensures -500 * |lines| <= 1000 * SumOfLines(lines) - Exact(lines) <= 500 * |lines|
    ensures lines != [] ==> -500 * |lines| < 1000 * SumOfLines(lines) - Exact(lines)
  {
    if lines != [] {
      HalfUp(lines[0].unitPrice, lines[0].quantity);
      SubtotalWithinHalves(lines[1..]);
    }
  }

  /** The line total is the only integer that is the exact value rounded half up. */
  lemma HalfUp(price: nat, quantity: nat)
    ensures -500 < 1000 * LineTotal(price, quantity) - price * quantity <= 500
    ensures forall n: int :: -500 < 1000 * n - price * quantity <= 500 ==> n == LineTotal(price, quantity)
  {
    var exact := price * quantity;
    assert LineTotal(price, quantity) == (exact + 500) / 1000;
  }

  /** Splitting a line in two changes what it costs by at most one minor unit. */
  lemma SplittingMovesAtMostOne(price: nat, a: nat, b: nat)
    ensures -1 <= LineTotal(price, a) + LineTotal(price, b) - LineTotal(price, a + b) <= 1
  {
    assert price * (a + b) == price * a + price * b;
    HalfUp(price, a);
    HalfUp(price, b);
    HalfUp(price, a + b);
  }

  /** More of the same goods never costs less. */
  lemma Monotone(price: nat, a: nat, b: nat)
    requires a <= b
    ensures LineTotal(price, a) <= LineTotal(price, b)
  {
    assert price * b == price * a + price * (b - a);
    HalfUp(price, a);
    HalfUp(price, b);
  }

  lemma Divides(n: nat, d: nat)
    requires d > 0
    ensures d * (n / d) <= n < d * (n / d) + d
  {
  }

  /**
   The per-unit total never exceeds the exact value price x quantity / base by more than one half,
   and falls short of it by less than one half, one thousandth and quantity / 10^9 together.
   */
  lemma PerUnitWithinBounds(price: nat, base: nat, quantity: nat)
    requires base > 0
    ensures var total := PerUnitTotal(price, base, quantity);
            && 2 * base * total <= 2 * (price * quantity) + base
            && 1_000_000_000 * (price * quantity)
                 < base * (1_000_000_000 * total + 501_000_000 + quantity)
  {
    var per := PerBase(price, base);
    Divides(price * 1_000_000_000, base);
    var raw := per * quantity / 1_000_000;
    var total := (raw + 500) / 1000;
    // 10^9 price - base < base per <= 10^9 price, each side times the quantity
    Scale(base * per, price * 1_000_000_000, quantity);
    Scale(price * 1_000_000_000, base * per + base, quantity);
    assert (base * per) * quantity == base * (per * quantity);
    assert (base * per + base) * quantity == base * (per * quantity) + base * quantity;
    assert (price * 1_000_000_000) * quantity == 1_000_000_000 * (price * quantity);
    // 10^9 total - 5 10^8 <= per quantity < 10^9 total + 501 10^6, times the base
    assert 1_000_000_000 * total <= per * quantity + 500_000_000;
    assert per * quantity < 1_000_000_000 * total + 501_000_000;
    Scale(1_000_000_000 * total, per * quantity + 500_000_000, base);
    ScaleStrictly(per * quantity, 1_000_000_000 * total + 501_000_000, base);
    Gather(price * quantity, base, per * quantity, total, quantity);
  }

  lemma Scale(a: int, b: int, c: nat)
    requires a <= b
    ensures a * c <= b * c
  {
  }

  lemma ScaleStrictly(a: int, b: int, c: nat)
    requires a < b && c > 0
    ensures a * c < b * c
  {
  }

  lemma Gather(exact: nat, base: nat, scaled: nat, total: nat, quantity: nat)
    requires base * scaled <= 1_000_000_000 * exact <= base * scaled + base * quantity
    requires (1_000_000_000 * total) * base <= (scaled + 500_000_000) * base
    requires scaled * base < (1_000_000_000 * total + 501_000_000) * base
    ensures 2 * base * total <= 2 * exact + base
    ensures 1_000_000_000 * exact < base * (1_000_000_000 * total + 501_000_000 + quantity)
  {
    assert (1_000_000_000 * total) * base == 1_000_000_000 * (base * total);
    assert (scaled + 500_000_000) * base == base * scaled + 500_000_000 * base;
    assert (1_000_000_000 * total + 501_000_000) * base + base * quantity
        == base * (1_000_000_000 * total + 501_000_000 + quantity);
  }

  /**
   Editing a line's quantity recomputes its total from the stored unit price. That is what
   per-unit pricing charges, for every quantity, if and only if the unit price came out whole.
   */
  lemma EditsKeepPerUnitPricesIffWhole(price: nat, base: nat)
    requires base > 0
    ensures (forall quantity: nat :: LineTotal(UnitPrice(price, base), quantity) == PerUnitTotal(price, base, quantity))
        <==> PerBase(price, base) % 1_000_000 == 0
  {
    if PerBase(price, base) % 1_000_000 == 0 {
      forall quantity: nat ensures LineTotal(UnitPrice(price, base), quantity) == PerUnitTotal(price, base, quantity) {
        WholePriceKept(price, base, quantity);
      }
    } else {
      FractionsTell(price, base);
    }
  }

  lemma WholePriceKept(price: nat, base: nat, quantity: nat)
    requires base > 0 && PerBase(price, base) % 1_000_000 == 0
    ensures LineTotal(UnitPrice(price, base), quantity) == PerUnitTotal(price, base, quantity)
  {
    RoundsToItself(PerBase(price, base));
    WholePriceScales(PerBase(price, base), UnitPrice(price, base), quantity);
  }

  lemma RoundsToItself(per: nat)
    requires per % 1_000_000 == 0
    ensures per == 1_000_000 * ((per + 500_000) / 1_000_000)
  {
  }

  lemma FractionsTell(price: nat, base: nat)
    requires base > 0 && PerBase(price, base) % 1_000_000 != 0
    ensures LineTotal(UnitPrice(price, base), 1_000_000_000) != PerUnitTotal(price, base, 1_000_000_000)
  {
    LargeQuantity(PerBase(price, base), UnitPrice(price, base));
    assert PerUnitTotal(price, base, 1_000_000_000) == Scaled(PerBase(price, base), 1_000_000_000);
  }

  lemma WholePriceScales(per: nat, unit: nat, quantity: nat)
    requires per == 1_000_000 * unit
    ensures Scaled(per, quantity) == LineTotal(unit, quantity)
  {
    assert per * quantity == 1_000_000 * (unit * quantity);
  }

  /** A quantity large enough to tell the two prices apart. */
  lemma LargeQuantity(per: nat, unit: nat)
    ensures LineTotal(unit, 1_000_000_000) == 1_000_000 * unit
    ensures Scaled(per, 1_000_000_000) == per
  {
  }

  /** A third of 100: three of them cost 100, and 99 once the quantity was edited and restored. */
  lemma PerUnitEditsDrift()
    ensures PerUnitTotal(100, 3000, 3000) == 100 && LineTotal(UnitPrice(100, 3000), 3000) == 99
  {
  }
}
