/** Rate matching for a corridor: a rounded subtotal, a rounded fuel surcharge, a flat border
    fee, and the savings of the contract rate against the spot rate. */
module RateMatching {
  import opened Text
  import opened Moneys

  /** US dollars per kilogram. */
  datatype Rates = Rates(contract: real, spot: real)

  function CorridorKey(origin: string, destination: string): string {
    Strip(Lower(origin)) + "-" + Strip(Lower(destination))
  }

  function CorridorRates(key: string): Rates {
    if key == "mombasa-nairobi" then Rates(0.08, 0.12)
    else if key == "mombasa-kampala" then Rates(0.14, 0.20)
    else if key == "mombasa-kigali" then Rates(0.18, 0.26)
    else if key == "nairobi-kampala" then Rates(0.10, 0.15)
    else if key == "nairobi-kigali" then Rates(0.14, 0.21)
    else if key == "nairobi-dar es salaam" then Rates(0.12, 0.18)
    else if key == "dar es salaam-kigali" then Rates(0.16, 0.24)
    else if key == "kampala-kigali" then Rates(0.06, 0.09)
    else Rates(0.10, 0.15)
  }

  /** Amounts in cents. */
  datatype Quote = Quote(
    baseRate: real, subtotal: int, fuelSurcharge: int, borderFees: int, total: int,
    spotTotal: int, savings: int)

  predicate CrossesBorder(key: string) {
    Contains(key, "kampala") || Contains(key, "kigali")
  }

  function MatchRate(origin: string, destination: string, weightKg: real, preferContract: bool): Quote {
    var key := CorridorKey(origin, destination);
    var rates := CorridorRates(key);
    var baseRate := if preferContract then rates.contract else rates.spot;
    var subtotal := RoundHalfUp(100.0 * Times(weightKg, baseRate));
    var spotTotal := RoundHalfUp(100.0 * Times(weightKg, rates.spot));
    var surcharge := RoundHalfUp(subtotal as real * 0.15);
    var border := if CrossesBorder(key) then 5000 else 0;
    Quote(baseRate, subtotal, surcharge, border, subtotal + surcharge + border, spotTotal,
          if preferContract then spotTotal - subtotal else 0)
  }

  /** Rounding twice costs at most 1.075 cents against 1.15 times the exact price, and the
      total adds the border fee to that exactly. */
  lemma QuoteIsAccurate(origin: string, destination: string, weightKg: real, preferContract: bool)
    ensures var q := MatchRate(origin, destination, weightKg, preferContract);
            && -1.075 <= (q.subtotal + q.fuelSurcharge) as real - 115.0 * Times(weightKg, q.baseRate) <= 1.075
            && q.total == q.subtotal + q.fuelSurcharge + q.borderFees
            && (q.borderFees == 0 || q.borderFees == 5000)
  {
    var q := MatchRate(origin, destination, weightKg, preferContract);
    hide Times;
    hide RoundHalfUp;
    hide CorridorRates;
    hide CorridorKey;
    var exact := Times(weightKg, q.baseRate);
    RoundingError(100.0 * exact);
    RoundingError(q.subtotal as real * 0.15);
    TwoRoundings(exact, q.subtotal, q.fuelSurcharge);
  }

  /** Each amount is rounded once: the subtotal and the spot total from the exact price, the
      surcharge from the rounded subtotal. */
  lemma QuoteIsRounded(origin: string, destination: string, weightKg: real, preferContract: bool)
    ensures var q := MatchRate(origin, destination, weightKg, preferContract);
            var spot := MatchRate(origin, destination, weightKg, false);
            && IsRoundingOf(q.subtotal, 100.0 * Times(weightKg, q.baseRate))
            && IsRoundingOf(q.spotTotal, 100.0 * Times(weightKg, spot.baseRate))
            && IsRoundingOf(q.fuelSurcharge, q.subtotal as real * 0.15)
            && q.savings == if preferContract then q.spotTotal - q.subtotal else 0
  {
    var q := MatchRate(origin, destination, weightKg, preferContract);
    var spot := MatchRate(origin, destination, weightKg, false);
    RoundingIsNearest(100.0 * Times(weightKg, q.baseRate), q.subtotal);
    RoundingIsNearest(100.0 * Times(weightKg, spot.baseRate), q.spotTotal);
    RoundingIsNearest(q.subtotal as real * 0.15, q.fuelSurcharge);
  }

  lemma TwoRoundings(exact: real, subtotal: int, surcharge: int)
    requires -0.5 <= subtotal as real - 100.0 * exact <= 0.5
    requires -0.5 <= surcharge as real - subtotal as real * 0.15 <= 0.5
    ensures -1.075 <= (subtotal + surcharge) as real - 115.0 * exact <= 1.075
  {
  }

  lemma ContractIsCheaper(key: string)
    ensures 0.0 < CorridorRates(key).contract < CorridorRates(key).spot
  {
  }

  lemma ScaleRises(w: real, x: real, y: real)
    requires w >= 0.0 && x <= y
    ensures Times(w, x) <= Times(w, y)
  {
    assert w * (y - x) >= 0.0;
  }

  /** For every non-negative weight and every corridor, the contract saves: the subtotals
      differ by the savings, which are never negative. */
  lemma ContractNeverLoses(origin: string, destination: string, weightKg: real)
    requires weightKg >= 0.0
    ensures var q, s := MatchRate(origin, destination, weightKg, true), MatchRate(origin, destination, weightKg, false);
            && q.savings >= 0 && q.savings == s.subtotal - q.subtotal
            && q.total <= s.total && s.savings == 0 && q.spotTotal == s.subtotal
  {
    var key := CorridorKey(origin, destination);
    var r := CorridorRates(key);
    var q, s := MatchRate(origin, destination, weightKg, true), MatchRate(origin, destination, weightKg, false);
    ContractIsCheaper(key);
    hide CorridorRates;
    hide CorridorKey;
    hide RoundHalfUp;
    hide Times;
    ScaleRises(weightKg, r.contract, r.spot);
    RoundingIsMonotone(100.0 * Times(weightKg, r.contract), 100.0 * Times(weightKg, r.spot));
    assert q.subtotal <= s.subtotal;
    RoundingIsMonotone(q.subtotal as real * 0.15, s.subtotal as real * 0.15);
  }

  // ---- Which corridor a quote uses ----

  datatype Corridor = Corridor(origin: string, destination: string, contract: real, spot: real)

  const CORRIDORS := [
    Corridor("mombasa", "nairobi", 0.08, 0.12), Corridor("mombasa", "kampala", 0.14, 0.20),
    Corridor("mombasa", "kigali", 0.18, 0.26), Corridor("nairobi", "kampala", 0.10, 0.15),
    Corridor("nairobi", "kigali", 0.14, 0.21), Corridor("nairobi", "dar es salaam", 0.12, 0.18),
    Corridor("dar es salaam", "kigali", 0.16, 0.24), Corridor("kampala", "kigali", 0.06, 0.09)]

  predicate Names(c: Corridor, origin: string, destination: string) {
    Strip(Lower(origin)) == c.origin && Strip(Lower(destination)) == c.destination
  }

  /** A key with one dash can be read in one way only. */
  lemma OneDash(x: string, y: string, a: string, b: string)
    requires '-' !in a && '-' !in b
    ensures x + "-" + y == a + "-" + b <==> x == a && y == b
  {
    var left, right := x + "-" + y, a + "-" + b;
    if left == right {
      assert left[|x|] == '-';
      assert right[|x|] == '-';
      assert |x| == |a|;
      assert x == left[..|x|] && a == right[..|a|];
      assert y == left[|x| + 1..] && b == right[|a| + 1..];
    }
  }

  lemma KeyNames(k: nat, origin: string, destination: string)
    requires k < |CORRIDORS|
    ensures CorridorKey(origin, destination) == CORRIDORS[k].origin + "-" + CORRIDORS[k].destination
            <==> Names(CORRIDORS[k], origin, destination)
  {
    OneDash(Strip(Lower(origin)), Strip(Lower(destination)), CORRIDORS[k].origin, CORRIDORS[k].destination);
  }

  lemma RatesOfKey(key: string)
    ensures forall k :: 0 <= k < |CORRIDORS| && key == CORRIDORS[k].origin + "-" + CORRIDORS[k].destination ==>
              CorridorRates(key) == Rates(CORRIDORS[k].contract, CORRIDORS[k].spot)
    ensures (forall k :: 0 <= k < |CORRIDORS| ==> key != CORRIDORS[k].origin + "-" + CORRIDORS[k].destination) ==>
              CorridorRates(key) == Rates(0.10, 0.15)
  {
    assert CORRIDORS[0].origin + "-" + CORRIDORS[0].destination == "mombasa-nairobi";
    assert CORRIDORS[1].origin + "-" + CORRIDORS[1].destination == "mombasa-kampala";
    assert CORRIDORS[2].origin + "-" + CORRIDORS[2].destination == "mombasa-kigali";
    assert CORRIDORS[3].origin + "-" + CORRIDORS[3].destination == "nairobi-kampala";
    assert CORRIDORS[4].origin + "-" + CORRIDORS[4].destination == "nairobi-kigali";
    assert CORRIDORS[5].origin + "-" + CORRIDORS[5].destination == "nairobi-dar es salaam";
    assert CORRIDORS[6].origin + "-" + CORRIDORS[6].destination == "dar es salaam-kigali";
    assert CORRIDORS[7].origin + "-" + CORRIDORS[7].destination == "kampala-kigali";
  }

  /** A quote uses the row of the table whose cities are the ones named, in any case and with
      any blanks around them, in that direction; and the standard rates without such a row. */
  lemma QuoteUsesCorridor(origin: string, destination: string, weightKg: real, preferContract: bool)
    ensures var q := MatchRate(origin, destination, weightKg, preferContract);
            && (forall k :: 0 <= k < |CORRIDORS| && Names(CORRIDORS[k], origin, destination) ==>
                  q.baseRate == if preferContract then CORRIDORS[k].contract else CORRIDORS[k].spot)
            && ((forall k :: 0 <= k < |CORRIDORS| ==> !Names(CORRIDORS[k], origin, destination)) ==>
                  q.baseRate == if preferContract then 0.10 else 0.15)
  {
    forall k: nat | k < |CORRIDORS|
      ensures CorridorKey(origin, destination) == CORRIDORS[k].origin + "-" + CORRIDORS[k].destination
              <==> Names(CORRIDORS[k], origin, destination)
    {
      KeyNames(k, origin, destination);
    }
    RatesOfKey(CorridorKey(origin, destination));
    hide CorridorRates;
    hide CorridorKey;
    hide Names;
  }

  /** The border fee of 50 dollars is due exactly when kampala or kigali occurs in the two
      normalised names joined by a dash. */
  lemma BorderFeeExactlyWhen(origin: string, destination: string, weightKg: real, preferContract: bool)
    ensures var key := Strip(Lower(origin)) + "-" + Strip(Lower(destination));
            MatchRate(origin, destination, weightKg, preferContract).borderFees
            == if Occurs(key, "kampala") || Occurs(key, "kigali") then 5000 else 0
  {
    ContainsMeaning(CorridorKey(origin, destination), "kampala");
    ContainsMeaning(CorridorKey(origin, destination), "kigali");
    hide CorridorRates;
    hide Contains;
    hide Occurs;
  }
}
