/** Amounts in cents and weights in hundredths of a kilogram: every value is quantised by
    rounding half up, away from zero on a tie.  Exact decimals are exact reals here. */
module Moneys {
  import opened Common
  import opened Text

  /** The exact product, named so that proofs can treat it as one quantity. */
  function Times(x: real, y: real): real {
    x * y
  }

  // ---- Rounding ----

  /** quantize with ROUND_HALF_UP, in units of the last kept place. */
  function RoundHalfUp(x: real): int {
    if x >= 0.0 then (x + 0.5).Floor else -((-x + 0.5).Floor)
  }

  function Abs(x: real): real {
    if x >= 0.0 then x else -x
  }

  /** The rounding a reader expects: the nearest integer, the one farther from zero on a tie. */
  predicate IsRoundingOf(n: int, x: real) {
    var error := Abs(n as real - x);
    error < 0.5 || (error == 0.5 && Abs(n as real) > Abs(x))
  }

  /** RoundHalfUp is that rounding, and there is only one. */
  lemma RoundingIsNearest(x: real, n: int)
    ensures IsRoundingOf(n, x) <==> n == RoundHalfUp(x)
  {}

  lemma RoundingError(x: real)
    ensures -0.5 <= RoundHalfUp(x) as real - x <= 0.5
  {
  }

  lemma RoundingIsOdd(x: real)
    ensures RoundHalfUp(-x) == -RoundHalfUp(x)
  {
  }

  lemma RoundingIsMonotone(x: real, y: real)
    requires x <= y
    ensures RoundHalfUp(x) <= RoundHalfUp(y)
  {}

  lemma RoundingKeepsIntegers(n: int)
    ensures RoundHalfUp(n as real) == n
  {
    RoundingIsNearest(n as real, n);
  }

  // ---- Money ----

  const CURRENCIES := {"KES", "TZS", "UGX", "RWF", "BIF", "USD", "EUR", "GBP"}

  /** A normalised amount: every Money is built through Make, as the Python class does in
      __post_init__. */
  datatype Money = Money(cents: int, currency: string) {

    static function Make(amount: real, currency: string): Result<Money> {
      if Upper(currency) !in CURRENCIES then Err("Unsupported currency")
      else Ok(Money(RoundHalfUp(100.0 * amount), Upper(currency)))
    }

    function Amount(): real {
      cents as real / 100.0
    }

    predicate Valid() {
      currency in CURRENCIES
    }

    function Add(other: Money): Result<Money> {
      if currency != other.currency then Err("Cannot add") else Make(Amount() + other.Amount(), currency)
    }

    function Sub(other: Money): Result<Money> {
      if currency != other.currency then Err("Cannot subtract") else Make(Amount() - other.Amount(), currency)
    }

    function Mul(factor: real): Result<Money> {
      Make(Times(Amount(), factor), currency)
    }

    function Neg(): Result<Money> {
      Make(-Amount(), currency)
    }
  }

  lemma UpperOfCurrency(currency: string)
    requires currency in CURRENCIES
    ensures Upper(currency) == currency
  {
  }

  /** Make fails exactly outside the eight currencies, in any case of letters; otherwise the
      amount is the nearest cent and the currency is in capitals. */
  lemma MakeNormalises(amount: real, currency: string)
    ensures Money.Make(amount, currency).Ok? <==>
              Upper(currency) in {"KES", "TZS", "UGX", "RWF", "BIF", "USD", "EUR", "GBP"}
    ensures match Money.Make(amount, currency)
            case Ok(m) => m.Valid() && m.currency == Upper(currency) && IsRoundingOf(m.cents, 100.0 * amount)
            case Err(_) => true
  {
    RoundingIsNearest(100.0 * amount, RoundHalfUp(100.0 * amount));
  }

  /** Addition and subtraction are exact on normalised amounts, and fail exactly on
      different currencies. */
  lemma AddSubExact(a: Money, b: Money)
    requires a.Valid() && b.Valid()
    ensures a.Add(b)
            == if a.currency == b.currency then Ok(Money(a.cents + b.cents, a.currency)) else Err("Cannot add")
    ensures a.Sub(b)
            == if a.currency == b.currency then Ok(Money(a.cents - b.cents, a.currency)) else Err("Cannot subtract")
    ensures a.Neg() == Ok(Money(-a.cents, a.currency))
  {
    UpperOfCurrency(a.currency);
    assert 100.0 * (a.Amount() + b.Amount()) == (a.cents + b.cents) as real;
    assert 100.0 * (a.Amount() - b.Amount()) == (a.cents - b.cents) as real;
    assert 100.0 * (-a.Amount()) == (-a.cents) as real;
    RoundingKeepsIntegers(a.cents + b.cents);
    RoundingKeepsIntegers(a.cents - b.cents);
    RoundingKeepsIntegers(-a.cents);
  }

  /** Subtracting what was added gives the first amount back. */
  lemma SubUndoesAdd(a: Money, b: Money)
    requires a.Valid() && b.Valid() && a.currency == b.currency
    ensures a.Add(b).Ok? && a.Add(b).value.Sub(b) == Ok(a)
  {
    AddSubExact(a, b);
    AddSubExact(a.Add(b).value, b);
  }

  lemma InCents(cents: real, factor: real)
    ensures 100.0 * Times(cents / 100.0, factor) == Times(cents, factor)
  {}

  /** A product is the cents times the factor, rounded once. */
  lemma MulInCents(a: Money, factor: real)
    requires a.Valid()
    ensures a.Mul(factor) == Ok(Money(RoundHalfUp(Times(a.cents as real, factor)), a.currency))
  {
    InCents(a.cents as real, factor);
    UpperOfCurrency(a.currency);
    hide Times;
    hide RoundHalfUp;
  }

  lemma NegatedProduct(x: real, y: real)
    ensures Times(-x, y) == -Times(x, y) && Times(x, -y) == -Times(x, y)
  {
  }

  /** Multiplication is odd: negating the amount, or the factor, negates the product. */
  lemma MulIsOdd(a: Money, factor: real)
    requires a.Valid()
    ensures a.Mul(factor).Ok?
    ensures var product := a.Mul(factor).value;
            && Money(-a.cents, a.currency).Mul(factor) == Ok(Money(-product.cents, a.currency))
            && a.Mul(-factor) == Ok(Money(-product.cents, a.currency))
  {
    hide Times;
    hide RoundHalfUp;
    MulInCents(a, factor);
    MulInCents(a, -factor);
    MulInCents(Money(-a.cents, a.currency), factor);
    NegatedProduct(a.cents as real, factor);
    RoundingIsOdd(Times(a.cents as real, factor));
    assert (-a.cents) as real == -(a.cents as real);
  }

  // ---- Sums of rounded products ----

  function SumCents(cents: seq<int>): int {
    if cents == [] then 0 else cents[0] + SumCents(cents[1..])
  }

  function SumOfProducts(cents: seq<int>, factor: real): int {
    if cents == [] then 0 else RoundHalfUp(Times(cents[0] as real, factor)) + SumOfProducts(cents[1..], factor)
  }

  lemma ProductOfSum(x: real, y: real, factor: real)
    ensures Times(x + y, factor) == Times(x, factor) + Times(y, factor) && Times(0.0, factor) == 0.0
  {
  }

  lemma {:induction false} SumOfProductsError(cents: seq<int>, factor: real)
    ensures var error := SumOfProducts(cents, factor) as real - Times(SumCents(cents) as real, factor);
            -(|cents| as real) / 2.0 <= error <= |cents| as real / 2.0
  {
    hide Times;
    hide RoundHalfUp;
    if cents == [] {
      ProductOfSum(0.0, 0.0, factor);
    } else {
      var c, rest := cents[0] as real, SumCents(cents[1..]) as real;
      SumOfProductsError(cents[1..], factor);
      RoundingError(Times(c, factor));
      ProductOfSum(c, rest, factor);
      assert SumCents(cents) as real == c + rest;
    }
  }

  /** Rounding every product instead of their sum moves the result by at most (n + 1) / 2
      cents, for any n amounts and any factor. */
  lemma RoundedSumsAgree(cents: seq<int>, factor: real)
    ensures var gap := SumOfProducts(cents, factor) - RoundHalfUp(Times(SumCents(cents) as real, factor));
            -(|cents| + 1) <= 2 * gap <= |cents| + 1
  {
    hide Times;
    hide RoundHalfUp;
    SumOfProductsError(cents, factor);
    RoundingError(Times(SumCents(cents) as real, factor));
  }

  /** Adding up a list, and adding up its members' products, with the class's own Add. */
  function Total(ms: seq<Money>, currency: string): Result<Money> {
    if ms == [] then Money.Make(0.0, currency)
    else match Total(ms[1..], currency)
         case Ok(rest) => ms[0].Add(rest)
         case Err(e) => Err(e)
  }

  function Products(ms: seq<Money>, factor: real): (ps: seq<Money>)
    requires forall m :: m in ms ==> m.Mul(factor).Ok?
    ensures |ps| == |ms|
  {
    seq(|ms|, i requires 0 <= i < |ms| => ms[i].Mul(factor).value)
  }

  predicate AllIn(ms: seq<Money>, currency: string) {
    forall i :: 0 <= i < |ms| ==> ms[i].Valid() && ms[i].currency == currency
  }

  function CentsOf(ms: seq<Money>): (cents: seq<int>)
    ensures |cents| == |ms|
  {
    seq(|ms|, i requires 0 <= i < |ms| => ms[i].cents)
  }

  lemma {:induction false} TotalIsSum(ms: seq<Money>, currency: string)
    requires AllIn(ms, currency) && currency in CURRENCIES
    ensures Total(ms, currency) == Ok(Money(SumCents(CentsOf(ms)), currency))
  {
    UpperOfCurrency(currency);
    if ms == [] {
      RoundingKeepsIntegers(0);
      assert Money.Make(0.0, currency) == Ok(Money(0, currency));
    } else {
      TotalIsSum(ms[1..], currency);
      assert CentsOf(ms)[1..] == CentsOf(ms[1..]);
      AddSubExact(ms[0], Money(SumCents(CentsOf(ms[1..])), currency));
    }
  }

  lemma {:induction false} ProductsAreRounded(ms: seq<Money>, factor: real, currency: string)
    requires AllIn(ms, currency)
    ensures forall m :: m in ms ==> m.Mul(factor).Ok?
    ensures AllIn(Products(ms, factor), currency)
    ensures SumCents(CentsOf(Products(ms, factor))) == SumOfProducts(CentsOf(ms), factor)
  {
    forall i | 0 <= i < |ms|
      ensures ms[i].Mul(factor) == Ok(Money(RoundHalfUp(Times(ms[i].cents as real, factor)), currency))
    {
      MulInCents(ms[i], factor);
    }
    hide RoundHalfUp;
    hide Times;
    hide Money.Mul;
    if ms != [] {
      ProductsAreRounded(ms[1..], factor, currency);
      assert Products(ms, factor)[1..] == Products(ms[1..], factor);
      assert CentsOf(Products(ms, factor))[1..] == CentsOf(Products(ms[1..], factor));
      assert CentsOf(ms)[1..] == CentsOf(ms[1..]);
    }
  }

  /** The same bound on Money itself: scaling every amount and adding up, or adding up and
      scaling once, never differ by more than (n + 1) / 2 cents, and neither fails. */
  lemma ScalingCommutesWithTotal(ms: seq<Money>, factor: real, currency: string)
    requires AllIn(ms, currency) && currency in CURRENCIES
    ensures forall m :: m in ms ==> m.Mul(factor).Ok?
    ensures var each := Total(Products(ms, factor), currency);
            var once := Total(ms, currency);
            && each.Ok? && once.Ok? && once.value.Mul(factor).Ok?
            && -(|ms| + 1) <= 2 * (each.value.cents - once.value.Mul(factor).value.cents) <= |ms| + 1
  {
    ProductsAreRounded(ms, factor, currency);
    TotalIsSum(ms, currency);
    TotalIsSum(Products(ms, factor), currency);
    MulInCents(Money(SumCents(CentsOf(ms)), currency), factor);
    RoundedSumsAgree(CentsOf(ms), factor);
  }

  // ---- Weight ----

  /** A weight in hundredths of a kilogram. */
  datatype Weight = Weight(hundredths: int) {

    static function FromKg(kg: real): Weight {
      Weight(RoundHalfUp(100.0 * kg))
    }

    static function FromTons(tons: real): Weight {
      FromKg(tons * 1000.0)
    }

    function Kg(): real {
      hundredths as real / 100.0
    }

    function Add(other: Weight): Weight {
      FromKg(Kg() + other.Kg())
    }

    function Sub(other: Weight): Weight {
      FromKg(Kg() - other.Kg())
    }

    function Mul(factor: real): Weight {
      FromKg(Times(Kg(), factor))
    }

    /** The tons property, in thousandths of a ton. */
    function TonsThousandths(): int {
      RoundHalfUp(1000.0 * (Kg() / 1000.0))
    }
  }

  /** A weight is the nearest hundredth of a kilogram, farther from zero on a tie; its tons are
      the nearest thousandth; sums and differences are exact, and a product is rounded once. */
  lemma WeightIsNearest(kg: real, tons: real, a: Weight, b: Weight, factor: real)
    ensures IsRoundingOf(Weight.FromKg(kg).hundredths, 100.0 * kg)
    ensures IsRoundingOf(Weight.FromTons(tons).hundredths, 100000.0 * tons)
    ensures IsRoundingOf(a.TonsThousandths(), a.hundredths as real / 100.0)
    ensures a.Add(b).hundredths == a.hundredths + b.hundredths && a.Sub(b).hundredths == a.hundredths - b.hundredths
    ensures IsRoundingOf(a.Mul(factor).hundredths, Times(a.hundredths as real, factor))
  {
    RoundingIsNearest(100.0 * kg, RoundHalfUp(100.0 * kg));
    assert 100.0 * (tons * 1000.0) == 100000.0 * tons;
    RoundingIsNearest(100000.0 * tons, RoundHalfUp(100000.0 * tons));
    assert 1000.0 * (a.Kg() / 1000.0) == a.hundredths as real / 100.0;
    RoundingIsNearest(a.hundredths as real / 100.0, a.TonsThousandths());
    assert 100.0 * (a.Kg() + b.Kg()) == (a.hundredths + b.hundredths) as real;
    assert 100.0 * (a.Kg() - b.Kg()) == (a.hundredths - b.hundredths) as real;
    RoundingKeepsIntegers(a.hundredths + b.hundredths);
    RoundingKeepsIntegers(a.hundredths - b.hundredths);
    InCents(a.hundredths as real, factor);
    RoundingIsNearest(Times(a.hundredths as real, factor), RoundHalfUp(Times(a.hundredths as real, factor)));
  }

  /** Through tons and back a weight comes out as the nearest whole kilogram: within half a
      kilogram, and unchanged by a second trip. */
  lemma TonsRoundTrip(w: Weight)
    ensures var back := Weight.FromTons(w.TonsThousandths() as real / 1000.0);
            && back.hundredths == 100 * w.TonsThousandths()
            && -50 <= back.hundredths - w.hundredths <= 50
            && Weight.FromTons(back.TonsThousandths() as real / 1000.0) == back
  {
    var t := w.TonsThousandths();
    assert 1000.0 * (w.hundredths as real / 100.0 / 1000.0) == w.hundredths as real / 100.0;
    RoundingError(w.hundredths as real / 100.0);
    assert 100.0 * (t as real / 1000.0 * 1000.0) == (100 * t) as real;
    RoundingKeepsIntegers(100 * t);
    var back := Weight(100 * t);
    assert 1000.0 * (back.hundredths as real / 100.0 / 1000.0) == t as real;
    RoundingKeepsIntegers(t);
  }
}
