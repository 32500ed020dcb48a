/**
 What a message costs (MessageCost): costs in cents are marked up, converted to credits and
 rounded to a millionth of a credit. Credit amounts are counted in such millionths, "quanta".
 */
module Credits {
  import opened Wrappers

  /** `CREDIT_CONVERSION_FACTOR` unless the settings say otherwise: ten credits to the cent. */
  const DEFAULT_FACTOR := 10.0

  const QUANTA_PER_CREDIT := 1000000.0

  /** Decimal's default rounding: to the nearest integer, and of two equally near ones to the even one. */
  function RoundHalfEven(x: real): (r: int)
    ensures -0.5 <= r as real - x <= 0.5
    ensures r as real - x == 0.5 || r as real - x == -0.5 ==> r % 2 == 0
    ensures x == x.Floor as real ==> r as real == x
  {
    var below := x.Floor;
    var rest := x - below as real;
    if rest < 0.5 then below
    else if rest > 0.5 then below + 1
    else if below % 2 == 0 then below else below + 1
  }

  function Ceiling(x: real): (r: int)
    ensures r as real - 1.0 < x <= r as real
  {
    -((-x).Floor)
  }

  /** The credits for a cost before rounding, in quanta. */
  function Unrounded(cost: real, markup: real, factor: real): real {
    (cost + cost * markup / 100.0) * factor * QUANTA_PER_CREDIT
  }

  /** `apply_markup_and_convert_to_credits`, in quanta. */
  function ToCredits(cost: real, markup: real, factor: real): int {
    RoundHalfEven(Unrounded(cost, markup, factor))
  }

  /** Billed by the started unit of time; nothing where there is no unit cost, unit length or length. */
  function SessionLengthCost(unitCost: Option<real>, unitLength: Option<real>, length: Option<real>): real {
    if unitCost.None? || unitLength.None? || length.None? then 0.0
    else if unitCost.value == 0.0 || unitLength.value == 0.0 || length.value == 0.0 then 0.0
    else Ceiling(length.value / unitLength.value) as real * unitCost.value
  }

  /** A row of the price list, and the message it is applied to. */
  datatype Price = Price(
    messageCost: real, storageCost: real, sessionCost: real,
    unitCost: Option<real>, unitLength: Option<real>, markup: real)

  datatype Usage = Usage(sessionCreated: bool, sessionLength: Option<real>)

  function LengthCost(p: Price, u: Usage): real {
    SessionLengthCost(p.unitCost, p.unitLength, u.sessionLength)
  }

  /** `calculate_credit_cost`: what is taken off the balance, rounded once. */
  function CreditCost(p: Price, u: Usage, factor: real): int {
    ToCredits(BaseCost(p, u), p.markup, factor)
  }

  function BaseCost(p: Price, u: Usage): real {
    p.messageCost + p.storageCost + SessionCost(p, u) + LengthCost(p, u)
  }

  function SessionCost(p: Price, u: Usage): real {
    if u.sessionCreated then p.sessionCost else 0.0
  }

  /** The parts that statements are made from, each rounded by itself. */
  function SumOfParts(p: Price, u: Usage, factor: real): int {
    ToCredits(p.messageCost, p.markup, factor)
    + ToCredits(p.storageCost, p.markup, factor)
    + (if u.sessionCreated then ToCredits(p.sessionCost, p.markup, factor) else 0)
    + ToCredits(LengthCost(p, u), p.markup, factor)
  }

  lemma UnroundedAdds(a: real, b: real, markup: real, factor: real)
    ensures Unrounded(a + b, markup, factor) == Unrounded(a, markup, factor) + Unrounded(b, markup, factor)
  {
    assert (a + b) * markup / 100.0 == a * markup / 100.0 + b * markup / 100.0;
    var x, y := a + a * markup / 100.0, b + b * markup / 100.0;
    assert (x + y) * factor == x * factor + y * factor;
  }

  lemma UnroundedOfBase(p: Price, u: Usage, factor: real)
    ensures Unrounded(BaseCost(p, u), p.markup, factor) ==
            Unrounded(p.messageCost, p.markup, factor) + Unrounded(p.storageCost, p.markup, factor)
            + (if u.sessionCreated then Unrounded(p.sessionCost, p.markup, factor) else 0.0)
            + Unrounded(LengthCost(p, u), p.markup, factor)
  {
    UnroundedAdds(p.messageCost, p.storageCost, p.markup, factor);
    UnroundedAdds(p.messageCost + p.storageCost, SessionCost(p, u), p.markup, factor);
    UnroundedAdds(p.messageCost + p.storageCost + SessionCost(p, u), LengthCost(p, u), p.markup, factor);
    assert Unrounded(0.0, p.markup, factor) == 0.0;
  }

  /** Rounding the whole and rounding the parts differ by at most two quanta, whatever the prices and the factor. */
  lemma RoundingBound(p: Price, u: Usage, factor: real)
    ensures -2 <= CreditCost(p, u, factor) - SumOfParts(p, u, factor) <= 2
  {
    UnroundedOfBase(p, u, factor);
    var difference := CreditCost(p, u, factor) - SumOfParts(p, u, factor);
    assert -2.5 <= difference as real <= 2.5;
  }

  /** The bound is met: four parts of half a quantum each round to nothing, but two quanta are charged. */
  lemma BoundIsMet()
    ensures var p := Price(0.001, 0.001, 0.001, Some(0.001), Some(20.0), 0.0);
            var u := Usage(true, Some(20.0));
            CreditCost(p, u, 0.0005) == 2 && SumOfParts(p, u, 0.0005) == 0
  {
    assert 20.0 / 20.0 == 1.0;
    assert Ceiling(1.0) == 1;
    assert Unrounded(0.001, 0.0, 0.0005) == 0.5;
    assert Unrounded(0.004, 0.0, 0.0005) == 2.0;
  }

  /** The number has at most the decimal places that are left when it is scaled by `scale`. */
  ghost predicate Whole(x: real, scale: real) {
    x * scale == (x * scale).Floor as real
  }

  /** Prices as the database keeps them: costs with three decimal places, the markup with two. */
  ghost predicate Stored(p: Price) {
    && Whole(p.messageCost, 1000.0) && Whole(p.storageCost, 1000.0) && Whole(p.sessionCost, 1000.0)
    && (p.unitCost.Some? ==> Whole(p.unitCost.value, 1000.0))
    && Whole(p.markup, 100.0)
  }

  lemma WholeCredits(cost: real, markup: real)
    requires Whole(cost, 1000.0) && Whole(markup, 100.0)
    ensures ToCredits(cost, markup, DEFAULT_FACTOR) as real == Unrounded(cost, markup, DEFAULT_FACTOR)
  {
    var i, j := (cost * 1000.0).Floor, (markup * 100.0).Floor;
    var whole := i * (10000 + j);
    assert whole as real == i as real * (10000.0 + j as real);
    calc {
      Unrounded(cost, markup, DEFAULT_FACTOR);
      (cost + cost * markup / 100.0) * 10000000.0;
      cost * 1000.0 * (10000.0 + markup * 100.0);
      i as real * (10000.0 + j as real);
    }
    assert Unrounded(cost, markup, DEFAULT_FACTOR) == whole as real;
  }

  lemma WholeAdds(a: real, b: real, scale: real)
    requires Whole(a, scale) && Whole(b, scale)
    ensures Whole(a + b, scale)
  {
    assert (a + b) * scale == ((a * scale).Floor + (b * scale).Floor) as real;
  }

  lemma WholeLengthCost(p: Price, u: Usage)
    requires Stored(p)
    ensures Whole(LengthCost(p, u), 1000.0)
  {
    if LengthCost(p, u) == 0.0 {
    } else {
      var units := Ceiling(u.sessionLength.value / p.unitLength.value);
      var i := (p.unitCost.value * 1000.0).Floor;
      assert (units * i) as real == units as real * i as real;
      assert LengthCost(p, u) * 1000.0 == (units * i) as real;
    }
  }

  /** With the default factor nothing is rounded away: the charge is exactly the sum of its parts. */
  lemma DefaultFactorIsExact(p: Price, u: Usage)
    requires Stored(p)
    ensures CreditCost(p, u, DEFAULT_FACTOR) == SumOfParts(p, u, DEFAULT_FACTOR)
  {
    WholeLengthCost(p, u);
    WholeBaseCost(p, u);
    WholeCredits(p.messageCost, p.markup);
    WholeCredits(p.storageCost, p.markup);
    WholeCredits(p.sessionCost, p.markup);
    WholeCredits(LengthCost(p, u), p.markup);
    WholeCredits(BaseCost(p, u), p.markup);
    UnroundedOfBase(p, u, DEFAULT_FACTOR);
  }

  // ---------- What is charged ----------

  /** Without a markup a charge is what the message, its storage and its session cost, at the factor, to half a quantum. */
  lemma ListPriceIsCharged(p: Price, u: Usage, factor: real)
    requires p.markup == 0.0
    ensures var cost := p.messageCost + p.storageCost + (if u.sessionCreated then p.sessionCost else 0.0) + LengthCost(p, u);
            -0.5 <= CreditCost(p, u, factor) as real - cost * factor * 1000000.0 <= 0.5
  {
    assert BaseCost(p, u) * p.markup / 100.0 == 0.0;
  }

  lemma MarkedUp(cost: real, markup: real, factor: real)
    ensures 100.0 * Unrounded(cost, markup, factor) == (100.0 + markup) * Unrounded(cost, 0.0, factor)
  {
    var quanta := factor * QUANTA_PER_CREDIT;
    assert cost * 0.0 / 100.0 == 0.0;
    calc {
      100.0 * Unrounded(cost, markup, factor);
      100.0 * (cost + cost * markup / 100.0) * factor * QUANTA_PER_CREDIT;
      { assert 100.0 * (cost + cost * markup / 100.0) == (100.0 + markup) * cost; }
      (100.0 + markup) * cost * factor * QUANTA_PER_CREDIT;
      { Regroup(100.0 + markup, cost, factor, QUANTA_PER_CREDIT); }
      (100.0 + markup) * (cost * factor * QUANTA_PER_CREDIT);
    }
  }

  lemma Regroup(a: real, b: real, c: real, d: real)
    ensures a * b * c * d == a * (b * c * d)
  {
    assert a * b * c == a * (b * c);
    assert a * (b * c) * d == a * (b * c * d);
  }

  lemma SameCosts(p: Price, u: Usage)
    ensures BaseCost(p.(markup := 0.0), u) == BaseCost(p, u)
  {
  }

  /** A markup is charged on everything: with stored prices and the default factor, exactly. */
  lemma MarkupIsCharged(p: Price, u: Usage)
    requires Stored(p)
    ensures 100.0 * CreditCost(p, u, DEFAULT_FACTOR) as real ==
            (100.0 + p.markup) * CreditCost(p.(markup := 0.0), u, DEFAULT_FACTOR) as real
  {
    WholeBaseCost(p, u);
    SameCosts(p, u);
    WholeCredits(BaseCost(p, u), p.markup);
    WholeCredits(BaseCost(p, u), 0.0);
    MarkedUp(BaseCost(p, u), p.markup, DEFAULT_FACTOR);
  }

  lemma WholeBaseCost(p: Price, u: Usage)
    requires Stored(p)
    ensures Whole(BaseCost(p, u), 1000.0)
  {
    WholeLengthCost(p, u);
    WholeAdds(p.messageCost, p.storageCost, 1000.0);
    WholeAdds(p.messageCost + p.storageCost, SessionCost(p, u), 1000.0);
    WholeAdds(p.messageCost + p.storageCost + SessionCost(p, u), LengthCost(p, u), 1000.0);
  }

  function Size(x: real): real {
    if x < 0.0 then -x else x
  }

  /** With any prices and any factor the two charges are in that proportion, but for what each is rounded by. */
  lemma MarkupIsNearlyCharged(p: Price, u: Usage, factor: real)
    ensures Size(100.0 * CreditCost(p, u, factor) as real
                 - (100.0 + p.markup) * CreditCost(p.(markup := 0.0), u, factor) as real)
            <= 50.0 + Size(100.0 + p.markup) / 2.0
  {
    SameCosts(p, u);
    var cost := BaseCost(p, u);
    MarkedUp(cost, p.markup, factor);
    RoundedInProportion(Unrounded(cost, p.markup, factor), Unrounded(cost, 0.0, factor), 100.0 + p.markup);
  }

  lemma RoundedInProportion(x: real, y: real, scale: real)
    requires 100.0 * x == scale * y
    ensures Size(100.0 * RoundHalfEven(x) as real - scale * RoundHalfEven(y) as real) <= 50.0 + Size(scale) / 2.0
  {
    RoundedApart(RoundHalfEven(x) as real, x, RoundHalfEven(y) as real, y, scale);
  }

  lemma RoundedApart(a: real, x: real, b: real, y: real, scale: real)
    requires -0.5 <= a - x <= 0.5 && -0.5 <= b - y <= 0.5 && 100.0 * x == scale * y
    ensures Size(100.0 * a - scale * b) <= 50.0 + Size(scale) / 2.0
  {
    var off := b - y;
    ScaledRest(off, scale);
    var rest := scale * off;
    assert scale * (y + off) == rest + scale * y;
    assert 100.0 * a - scale * b == 100.0 * (a - x) - rest;
    SizeOfDifference(100.0 * (a - x), rest, Size(scale) / 2.0);
  }

  lemma SizeOfDifference(x: real, y: real, most: real)
    requires -50.0 <= x <= 50.0 && Size(y) <= most
    ensures Size(x - y) <= 50.0 + most
  {
  }

  lemma ScaledRest(rest: real, scale: real)
    requires -0.5 <= rest <= 0.5
    ensures Size(scale * rest) <= Size(scale) / 2.0
  {
    if scale >= 0.0 {
      assert scale * -0.5 <= scale * rest <= scale * 0.5;
    } else {
      assert scale * 0.5 <= scale * rest <= scale * -0.5;
    }
  }

  /** A session pays for every unit that it started, at the price of a unit. */
  lemma StartedUnitsAreCharged(p: Price, u: Usage) returns (units: int)
    requires p.unitCost.Some? && p.unitLength.Some? && u.sessionLength.Some?
    requires p.unitLength.value > 0.0
    ensures LengthCost(p, u) == units as real * p.unitCost.value
    ensures var (unit, length) := (p.unitLength.value, u.sessionLength.value);
            (units - 1) as real * unit < length <= units as real * unit
  {
    var (unit, length) := (p.unitLength.value, u.sessionLength.value);
    units := Ceiling(length / unit);
    Started(length, unit, units);
    Nothing(units as real, p.unitCost.value);
  }

  lemma Started(length: real, unit: real, units: int)
    requires unit > 0.0 && units == Ceiling(length / unit)
    ensures (units - 1) as real * unit < length <= units as real * unit
    ensures length == 0.0 ==> units == 0
  {
    var ratio := length / unit;
    assert ratio * unit == length;
    Less((units - 1) as real, ratio, unit);
    NoMore(ratio, units as real, unit);
  }

  lemma Nothing(x: real, y: real)
    ensures x == 0.0 || y == 0.0 ==> x * y == 0.0
  {
  }

  lemma Less(x: real, y: real, unit: real)
    requires unit > 0.0 && x < y
    ensures x * unit < y * unit
  {
  }

  lemma NoMore(x: real, y: real, unit: real)
    requires unit > 0.0 && x <= y
    ensures x * unit <= y * unit
  {
  }
}
