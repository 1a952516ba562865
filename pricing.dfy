/**
 * The pricing utilities: a guard deciding which dynamic values count as
 * numbers, the total of a list of priced items (a left fold of
 * `price * quantity` over the valid items), and the total with a percentage
 * discount clamped into [0, 100]. Numbers are exact reals; NaN is a separate
 * tag, so no rounding is modelled.
 */
module Pricing {

  /** A JavaScript number, as far as the guard can tell: a value or NaN. */
  datatype Number = Finite(r: real) | NaN

  /** A dynamically typed value: a number, or anything else (string, null, undefined, object). */
  datatype Value = Num(n: Number) | NonNumber

  /**
   * One element of the input list: either something without fields (null,
   * undefined or another falsy or primitive value) or a record whose `price`
   * and `quantity` fields hold dynamic values (a missing field is NonNumber).
   */
  datatype Element = NotRecord | Record(price: Value, quantity: Value)

  /** The input: either not an array at all, or an array of elements. */
  datatype Products = NotArray | Arr(elements: seq<Element>)

  /** Holds of a number that is not NaN; false for NaN and for every non-number. */
  function IsNumber(v: Value): (b: bool)
    ensures b <==> v != NonNumber && v != Num(NaN)
  {
    match v
    case Num(Finite(_)) => true
    case _ => false
  }

  /** Holds of an element the total takes into account: a record with a numeric price and quantity. */
  predicate Priced(e: Element) {
    e.Record? && IsNumber(e.price) && IsNumber(e.quantity)
  }

  /** What an element adds to a total: price times quantity when it is priced, nothing otherwise. */
  function Contribution(e: Element): real {
    if Priced(e) then e.price.n.r * e.quantity.n.r else 0.0
  }

  /** The callback of the reduce: skip an unpriced element, otherwise add its price times quantity. */
  function Step(acc: real, curr: Element): real {
    if !Priced(curr) then acc else acc + curr.price.n.r * curr.quantity.n.r
  }

  /** The reduce itself: a left fold of Step over the elements, starting from `acc`. */
  function Reduce(acc: real, s: seq<Element>): real
    decreases s
  {
    if s == [] then acc else Reduce(Step(acc, s[0]), s[1..])
  }

  /** Reference definition of the total: the sum of the contributions. */
  function Sum(s: seq<Element>): (r: real)
    ensures (forall k :: 0 <= k < |s| ==> !Priced(s[k])) ==> r == 0.0
  {
    if s == [] then 0.0 else Sum(s[..|s| - 1]) + Contribution(s[|s| - 1])
  }

  /** The total price of a product list; anything that is not an array totals 0. */
  function TotalPrice(p: Products): (r: real)
    ensures p.NotArray? ==> r == 0.0
    ensures p.Arr? ==> r == Sum(p.elements)
  {
    if !p.Arr? then 0.0
    else
      ReduceIsSum(0.0, p.elements);
      Reduce(0.0, p.elements)
  }

  /** The discount actually applied: the point of [0, 100] nearest to a numeric discount, and 0 otherwise. */
  function SafeDiscount(d: Value): (r: real)
    ensures 0.0 <= r <= 100.0
    ensures !IsNumber(d) ==> r == 0.0
    ensures IsNumber(d) ==> forall y: real :: 0.0 <= y <= 100.0 ==> Dist(r, d.n.r) <= Dist(y, d.n.r)
  {
    if IsNumber(d) then
      if d.n.r < 0.0 then 0.0 else if d.n.r > 100.0 then 100.0 else d.n.r
    else 0.0
  }

  /**
   * The total after the clamped discount. A non-negative total never grows
   * nor becomes negative; a non-positive total moves towards 0 without
   * crossing it. Anything that is not an array gives 0.
   */
  function TotalPriceWithDiscount(p: Products, d: Value): (r: real)
    ensures p.NotArray? ==> r == 0.0
    ensures TotalPrice(p) >= 0.0 ==> 0.0 <= r <= TotalPrice(p)
    ensures TotalPrice(p) <= 0.0 ==> TotalPrice(p) <= r <= 0.0
  {
    if !p.Arr? then 0.0
    else
      var total := TotalPrice(p);
      var factor := 1.0 - SafeDiscount(d) / 100.0;
      ScaleBetween(total, factor);
      total * factor
  }

  /** Distance between two reals. */
  function Dist(a: real, b: real): real {
    if a <= b then b - a else a - b
  }

  // ---------------------------------------------------------------------------
  // The fold against its reference definition

  /** Sum distributes over concatenation. */
  lemma {:induction false} SumConcat(a: seq<Element>, b: seq<Element>)
    ensures Sum(a + b) == Sum(a) + Sum(b)
  {
    if b == [] {
      assert a + b == a;
    } else {
      var b' := b[..|b| - 1];
      assert (a + b)[..|a + b| - 1] == a + b';
      assert (a + b)[|a + b| - 1] == b[|b| - 1];
      SumConcat(a, b');
    }
  }

  /** The left fold from `acc` adds the reference sum to `acc`. */
  lemma {:induction false} ReduceIsSum(acc: real, s: seq<Element>)
    ensures Reduce(acc, s) == acc + Sum(s)
    decreases s
  {
    if s != [] {
      ReduceIsSum(Step(acc, s[0]), s[1..]);
      assert s == [s[0]] + s[1..];
      SumConcat([s[0]], s[1..]);
      assert Sum([s[0]]) == Sum([]) + Contribution(s[0]);
    }
  }

  // ---------------------------------------------------------------------------
  // Properties of the total

  /** The empty array totals 0. */
  lemma EmptyTotal()
    ensures TotalPrice(Arr([])) == 0.0
  {
  }

  /** The total of a concatenation is the sum of the totals. */
  lemma TotalAdditive(a: seq<Element>, b: seq<Element>)
    ensures TotalPrice(Arr(a + b)) == TotalPrice(Arr(a)) + TotalPrice(Arr(b))
  {
    SumConcat(a, b);
  }

  /** A single priced element totals price times quantity, whatever the sign of the price. */
  lemma SinglePriced(price: real, quantity: real)
    ensures TotalPrice(Arr([Record(Num(Finite(price)), Num(Finite(quantity)))])) == price * quantity
  {
    assert [Record(Num(Finite(price)), Num(Finite(quantity)))][..0] == [];
  }

  /** An element that is not priced is skipped and the summation carries on past it. */
  lemma UnpricedSkipped(a: seq<Element>, e: Element, b: seq<Element>)
    requires !Priced(e)
    ensures TotalPrice(Arr(a + [e] + b)) == TotalPrice(Arr(a + b))
  {
    SumConcat(a + [e], b);
    SumConcat(a, [e]);
    SumConcat(a, b);
    assert [e][..0] == [];
  }

  /**
   * A list in which no element carries a numeric quantity totals 0, even when
   * every price is numeric: the quantity is never defaulted to 1. The
   * repository's unit tests use products without a quantity field and expect
   * non-zero results: the four-product fixture (expected 10000, and 10000 or
   * 9000 after a discount) and the single products priced 42, -10, 100 (50
   * after a 50% discount) and -100 (-90 after a 10% discount). By this lemma
   * the code as written returns 0 for all of them (see FixtureWithoutQuantities
   * and SingleProductsWithoutQuantities).
   */
  lemma NoQuantitiesTotalZero(s: seq<Element>)
    requires forall k :: 0 <= k < |s| ==> s[k].Record? && !IsNumber(s[k].quantity)
    ensures TotalPrice(Arr(s)) == 0.0
  {
  }

  /** The four-product fixture of the unit test, quantities absent: the code totals 0, not 10000. */
  lemma FixtureWithoutQuantities()
    ensures TotalPrice(Arr([Record(Num(Finite(1000.0)), NonNumber), Record(Num(Finite(2000.0)), NonNumber),
                            Record(Num(Finite(3000.0)), NonNumber), Record(Num(Finite(4000.0)), NonNumber)])) == 0.0
  {
    var s := [Record(Num(Finite(1000.0)), NonNumber), Record(Num(Finite(2000.0)), NonNumber),
              Record(Num(Finite(3000.0)), NonNumber), Record(Num(Finite(4000.0)), NonNumber)];
    NoQuantitiesTotalZero(s);
  }

  /**
   * The single-product lists of the unit tests, quantities absent: the code
   * totals each to 0, not to 42, -10, 50 or -90 as the tests expect.
   */
  lemma SingleProductsWithoutQuantities()
    ensures TotalPrice(Arr([Record(Num(Finite(42.0)), NonNumber)])) == 0.0
    ensures TotalPrice(Arr([Record(Num(Finite(-10.0)), NonNumber)])) == 0.0
    ensures TotalPriceWithDiscount(Arr([Record(Num(Finite(100.0)), NonNumber)]), Num(Finite(50.0))) == 0.0
    ensures TotalPriceWithDiscount(Arr([Record(Num(Finite(-100.0)), NonNumber)]), Num(Finite(10.0))) == 0.0
  {
    NoQuantitiesTotalZero([Record(Num(Finite(42.0)), NonNumber)]);
    NoQuantitiesTotalZero([Record(Num(Finite(-10.0)), NonNumber)]);
    NoQuantitiesTotalZero([Record(Num(Finite(100.0)), NonNumber)]);
    NoQuantitiesTotalZero([Record(Num(Finite(-100.0)), NonNumber)]);
  }

  // ---------------------------------------------------------------------------
  // Properties of the discount

  /** The clamp, case by case: below 0 gives 0, above 100 gives 100, in between is kept. */
  lemma SafeDiscountCases(d: real)
    ensures d < 0.0 ==> SafeDiscount(Num(Finite(d))) == 0.0
    ensures d > 100.0 ==> SafeDiscount(Num(Finite(d))) == 100.0
    ensures 0.0 <= d <= 100.0 ==> SafeDiscount(Num(Finite(d))) == d
  {
    var r := SafeDiscount(Num(Finite(d)));
    if d < 0.0 {
      assert Dist(r, d) <= Dist(0.0, d);
    } else if d > 100.0 {
      assert Dist(r, d) <= Dist(100.0, d);
    } else {
      assert Dist(r, d) <= Dist(d, d);
    }
  }

  /** Any discount of 100 or more gives 0. */
  lemma FullDiscount(p: Products, d: real)
    requires d >= 100.0
    ensures TotalPriceWithDiscount(p, Num(Finite(d))) == 0.0
  {
    SafeDiscountCases(d);
  }

  /** A discount of 0 or less, NaN or a non-number leaves the total as it is. */
  lemma NoDiscount(p: Products, d: Value)
    requires !IsNumber(d) || d.n.r <= 0.0
    ensures TotalPriceWithDiscount(p, d) == TotalPrice(p)
  {
    if IsNumber(d) {
      SafeDiscountCases(d.n.r);
    }
  }

  /** A discount within [0, 100] removes exactly that percentage of the total. */
  lemma PartialDiscount(p: Products, d: real)
    requires 0.0 <= d <= 100.0
    ensures TotalPriceWithDiscount(p, Num(Finite(d))) == TotalPrice(p) - TotalPrice(p) * d / 100.0
  {
    SafeDiscountCases(d);
  }

  /** The discounted total of a concatenation is the sum of the discounted totals. */
  lemma DiscountAdditive(a: seq<Element>, b: seq<Element>, d: Value)
    ensures TotalPriceWithDiscount(Arr(a + b), d) == TotalPriceWithDiscount(Arr(a), d) + TotalPriceWithDiscount(Arr(b), d)
  {
    TotalAdditive(a, b);
    var f := 1.0 - SafeDiscount(d) / 100.0;
    assert (TotalPrice(Arr(a)) + TotalPrice(Arr(b))) * f == TotalPrice(Arr(a)) * f + TotalPrice(Arr(b)) * f;
  }

  /** A factor in [0, 1] moves a value towards 0 without crossing it. */
  lemma ScaleBetween(t: real, f: real)
    requires 0.0 <= f <= 1.0
    ensures t >= 0.0 ==> 0.0 <= t * f <= t
    ensures t <= 0.0 ==> t <= t * f <= 0.0
  {
    if t >= 0.0 {
      assert t * f <= t * 1.0;
    } else {
      assert t * f >= t * 1.0;
    }
  }
}
