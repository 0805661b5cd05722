/** Demurrage of a container at a port: free days, a tier table per port, and a charge
    accrued day by day.

    Dates are day numbers and amounts are US cents.  The day loop of
    calculate_demurrage is proved to compute a closed form, one term per tier, and the closed
    form is what the general laws are about. */
module Demurrage {
  import opened Common
  import opened Text

  datatype Rate = Dry20 | Dry40 | Reefer

  datatype Tier = Tier(first: nat, last: nat, rate20: nat, rate40: nat, rateReefer: nat) {
    function Of(rate: Rate): nat {
      match rate
      case Dry20 => rate20
      case Dry40 => rate40
      case Reefer => rateReefer
    }
  }

  const DAY_CAP := 99

  const MOMBASA_TIERS := [
    Tier(1, 5, 2000, 4000, 6000), Tier(6, 10, 4000, 8000, 10000),
    Tier(11, 15, 6000, 12000, 16000), Tier(16, 99, 10000, 20000, 25000)]
  const DAR_TIERS := [
    Tier(1, 7, 1500, 3000, 5000), Tier(8, 14, 3000, 6000, 8000), Tier(15, 99, 5000, 10000, 15000)]
  const NAIROBI_TIERS := [
    Tier(1, 3, 1000, 2000, 3000), Tier(4, 7, 2500, 5000, 7000), Tier(8, 99, 5000, 10000, 13000)]
  const INLAND_TIERS := [
    Tier(1, 3, 1000, 2000, 3000), Tier(4, 7, 2000, 4000, 6000), Tier(8, 99, 4000, 8000, 12000)]

  function TariffTiers(portCode: string): seq<Tier> {
    var port := Upper(portCode);
    if port == "TZDAR" then DAR_TIERS
    else if port == "KENBO" then NAIROBI_TIERS
    else if port == "UGKAM" || port == "RWKGL" then INLAND_TIERS
    else MOMBASA_TIERS
  }

  datatype FreeDays = FreeDays(import20: nat, import40: nat, export20: nat, export40: nat, transit: nat)

  function PortFreeDays(portCode: string): FreeDays {
    var port := Upper(portCode);
    if port == "TZDAR" then FreeDays(7, 7, 14, 14, 21)
    else if port == "KENBO" || port == "UGKAM" || port == "RWKGL" then FreeDays(3, 3, 5, 5, 7)
    else FreeDays(4, 4, 7, 7, 14)
  }

  predicate Is40ft(containerType: string) {
    Contains(Upper(containerType), "40FT")
  }

  predicate IsReefer(containerType: string) {
    Contains(Upper(containerType), "REEFER")
  }

  function RateFor(containerType: string): Rate {
    if IsReefer(containerType) then Reefer else if Is40ft(containerType) then Dry40 else Dry20
  }

  function GetFreeDays(portCode: string, containerType: string, shipmentType: string): nat {
    var port := PortFreeDays(portCode);
    if Upper(shipmentType) == "IMPORT" then if Is40ft(containerType) then port.import40 else port.import20
    else if Upper(shipmentType) == "EXPORT" then if Is40ft(containerType) then port.export40 else port.export20
    else port.transit
  }

  // ---- The closed form ----

  function Min(a: int, b: int): int {
    if a <= b then a else b
  }

  /** How many of the days 1..d fall in the tier, none past day 99 counted. */
  function DaysIn(tier: Tier, d: nat): nat {
    var last := Min(Min(tier.last, DAY_CAP), d);
    if tier.first <= last then last - tier.first + 1 else 0
  }

  /** The charge for d days: each tier's rate times the number of its days. */
  function Charge(tiers: seq<Tier>, rate: Rate, d: nat): nat {
    if tiers == [] then 0 else tiers[0].Of(rate) * DaysIn(tiers[0], d) + Charge(tiers[1..], rate, d)
  }

  predicate Covers(tier: Tier, day: int) {
    tier.first <= day <= Min(tier.last, DAY_CAP)
  }

  /** The tiers meet without overlap from the given day on. */
  predicate Contiguous(tiers: seq<Tier>, from_: nat) {
    tiers == [] || (tiers[0].first == from_ && from_ <= tiers[0].last && Contiguous(tiers[1..], tiers[0].last + 1))
  }

  /** The rate of a day: the first tier that covers it, or nothing. */
  function DailyRate(tiers: seq<Tier>, rate: Rate, day: nat): nat {
    if tiers == [] then 0
    else if Covers(tiers[0], day) then tiers[0].Of(rate)
    else DailyRate(tiers[1..], rate, day)
  }

  lemma {:induction false} NothingBeforeTheTiers(tiers: seq<Tier>, rate: Rate, from_: nat, d: nat)
    requires Contiguous(tiers, from_) && d < from_
    ensures DailyRate(tiers, rate, d) == 0 && Charge(tiers, rate, d) == 0
  {
    if tiers != [] {
      NothingBeforeTheTiers(tiers[1..], rate, tiers[0].last + 1, d);
    }
  }

  lemma TimesRises(r: nat, x: nat, y: nat)
    requires x <= y
    ensures r * x <= r * y
  {
    assert r * y == r * x + r * (y - x);
  }

  lemma OneMoreDay(tier: Tier, rate: Rate, d: nat)
    requires d >= 1
    ensures tier.Of(rate) * DaysIn(tier, d)
            == tier.Of(rate) * DaysIn(tier, d - 1) + if Covers(tier, d) then tier.Of(rate) else 0
  {}

  /** One more day adds that day's rate. */
  lemma {:induction false} ChargeGrowsByDailyRate(tiers: seq<Tier>, rate: Rate, from_: nat, d: nat)
    requires Contiguous(tiers, from_) && d >= 1
    ensures Charge(tiers, rate, d) == Charge(tiers, rate, d - 1) + DailyRate(tiers, rate, d)
  {
    if tiers != [] {
      hide DaysIn;
      var t, rest := tiers[0], tiers[1..];
      OneMoreDay(t, rate, d);
      ChargeGrowsByDailyRate(rest, rate, t.last + 1, d);
      if Covers(t, d) {
        NothingBeforeTheTiers(rest, rate, t.last + 1, d);
      }
    }
  }

  lemma {:induction false} NoChargeForNoDays(tiers: seq<Tier>, rate: Rate, from_: nat)
    requires Contiguous(tiers, from_) && from_ >= 1
    ensures Charge(tiers, rate, 0) == 0
  {
    NothingBeforeTheTiers(tiers, rate, from_, 0);
  }

  // ---- The calculation ----

  datatype Day = Day(day: nat, date: int, dailyRate: nat, runningTotal: nat)

  datatype Status = WithinFreePeriod | Accruing | Final

  datatype Invoice = Invoice(
    freeDays: int, freeDaysExpiry: int, endDate: int,
    chargeableDays: nat, total: nat, status: Status, breakdown: seq<Day>)

  /** The bill a reader expects: a closed-form total and its prefixes as running totals. */
  predicate IsBill(invoice: Invoice, tiers: seq<Tier>, rate: Rate) {
    && (if invoice.endDate > invoice.freeDaysExpiry
        then invoice.chargeableDays == invoice.endDate - invoice.freeDaysExpiry else invoice.chargeableDays == 0)
    && invoice.total == Charge(tiers, rate, invoice.chargeableDays)
    && |invoice.breakdown| == invoice.chargeableDays
    && IsBreakdown(invoice.breakdown, invoice.freeDaysExpiry, tiers, rate)
  }

  predicate IsBreakdown(breakdown: seq<Day>, freeDaysExpiry: int, tiers: seq<Tier>, rate: Rate) {
    forall i :: 0 <= i < |breakdown| ==> IsEntry(breakdown[i], i + 1, freeDaysExpiry, tiers, rate)
  }

  predicate IsEntry(entry: Day, day: nat, freeDaysExpiry: int, tiers: seq<Tier>, rate: Rate)
    requires day >= 1
  {
    && entry.day == day
    && entry.date == freeDaysExpiry + day
    && entry.runningTotal == Charge(tiers, rate, day)
    && entry.dailyRate == Charge(tiers, rate, day) - Charge(tiers, rate, day - 1)
  }

  function FreeDaysOf(
    portCode: string, containerType: string, shipmentType: string, freeDaysOverride: Option<int>): int
  {
    freeDaysOverride.GetOr(GetFreeDays(portCode, containerType, shipmentType))
  }

  method FindDailyRate(tiers: seq<Tier>, rate: Rate, day: nat) returns (dailyRate: nat)
    ensures dailyRate == DailyRate(tiers, rate, day)
  {
    dailyRate := 0;
    for k := 0 to |tiers|
      invariant DailyRate(tiers[k..], rate, day) == DailyRate(tiers, rate, day)
    {
      if tiers[k].first <= day <= Min(tiers[k].last, DAY_CAP) {
        return tiers[k].Of(rate);
      }
      assert tiers[k..][1..] == tiers[k + 1..];
    }
  }

  /** The day loop. */
  method Accrue(tiers: seq<Tier>, rate: Rate, freeDaysExpiry: int, chargeableDays: nat)
    returns (total: nat, breakdown: seq<Day>)
    requires Contiguous(tiers, 1)
    ensures total == Charge(tiers, rate, chargeableDays)
    ensures |breakdown| == chargeableDays && IsBreakdown(breakdown, freeDaysExpiry, tiers, rate)
  {
    NoChargeForNoDays(tiers, rate, 1);
    total, breakdown := 0, [];
    hide Charge;
    hide Contiguous;
    for day := 1 to chargeableDays + 1
      invariant total == Charge(tiers, rate, day - 1)
      invariant |breakdown| == day - 1
      invariant IsBreakdown(breakdown, freeDaysExpiry, tiers, rate)
    {
      var dailyRate := FindDailyRate(tiers, rate, day);
      ChargeGrowsByDailyRate(tiers, rate, 1, day);
      total := total + dailyRate;
      breakdown := breakdown + [Day(day, freeDaysExpiry + day, dailyRate, total)];
    }
  }

  method CalculateDemurrage(
    portCode: string, containerType: string, shipmentType: string,
    arrivalDate: Option<int>, returnDate: Option<int>, freeDaysOverride: Option<int>, today: int)
    returns (invoice: Invoice)
    ensures invoice.freeDays == match freeDaysOverride
                                case Some(days) => days
                                case None => GetFreeDays(portCode, containerType, shipmentType)
    ensures invoice.freeDaysExpiry == arrivalDate.GetOr(today) + invoice.freeDays
    ensures invoice.endDate == returnDate.GetOr(today)
    ensures invoice.status == if invoice.chargeableDays == 0 then WithinFreePeriod
                              else if returnDate.None? then Accruing else Final
    ensures IsBill(invoice, TariffTiers(portCode), RateFor(containerType))
    ensures invoice.total
            == TotalFor(portCode, containerType, shipmentType, arrivalDate, returnDate, freeDaysOverride, today)
  {
    var freeDays := FreeDaysOf(portCode, containerType, shipmentType, freeDaysOverride);
    var freeDaysExpiry := arrivalDate.GetOr(today) + freeDays;
    var endDate := returnDate.GetOr(today);
    var tiers, rate := TariffTiers(portCode), RateFor(containerType);
    TariffsAreSound(portCode);
    hide TariffTiers;
    hide Contiguous;
    hide GetFreeDays;
    NoChargeForNoDays(tiers, rate, 1);
    if endDate <= freeDaysExpiry {
      return Invoice(freeDays, freeDaysExpiry, endDate, 0, 0, WithinFreePeriod, []);
    }
    var chargeableDays := endDate - freeDaysExpiry;
    var total, breakdown := Accrue(tiers, rate, freeDaysExpiry, chargeableDays);
    invoice := Invoice(freeDays, freeDaysExpiry, endDate, chargeableDays, total,
                       if returnDate.None? then Accruing else Final, breakdown);
  }

  // ---- The tables ----

  predicate Rising(tiers: seq<Tier>, rate: Rate) {
    forall i :: 0 < i < |tiers| ==> tiers[i - 1].Of(rate) <= tiers[i].Of(rate)
  }

  predicate Doubles(tiers: seq<Tier>) {
    forall i :: 0 <= i < |tiers| ==> tiers[i].rate40 == 2 * tiers[i].rate20
  }

  /** Every port's table covers the days from 1 to 99 once each, its rates rise, and a dry
      40ft day costs two dry 20ft days; the last tier begins in the first half. */
  lemma TariffsAreSound(portCode: string)
    ensures var tiers := TariffTiers(portCode);
            && tiers != [] && Contiguous(tiers, 1) && tiers[|tiers| - 1].last == DAY_CAP
            && Doubles(tiers) && (forall rate :: Rising(tiers, rate)) && 2 * tiers[|tiers| - 1].first <= DAY_CAP
  {
  }

  /** The free days: fewest for imports, more for exports, most for anything else; the size of
      the container makes no difference at any port, nor does the case of letters. */
  lemma FreeDaysByPurpose(portCode: string, containerType: string, shipmentType: string)
    ensures var days, purpose := GetFreeDays(portCode, containerType, shipmentType), Upper(shipmentType);
            match Upper(portCode)
            case "TZDAR" => days == if purpose == "IMPORT" then 7 else if purpose == "EXPORT" then 14 else 21
            case "KENBO" => days == if purpose == "IMPORT" then 3 else if purpose == "EXPORT" then 5 else 7
            case "UGKAM" => days == if purpose == "IMPORT" then 3 else if purpose == "EXPORT" then 5 else 7
            case "RWKGL" => days == if purpose == "IMPORT" then 3 else if purpose == "EXPORT" then 5 else 7
            case _ => days == if purpose == "IMPORT" then 4 else if purpose == "EXPORT" then 7 else 14
  {
  }

  /** A container pays the reefer rate when its type says so, whatever its size. */
  lemma RateByType(containerType: string)
    ensures RateFor(containerType) ==
            if Occurs(Upper(containerType), "REEFER") then Reefer
            else if Occurs(Upper(containerType), "40FT") then Dry40 else Dry20
  {
    ContainsMeaning(Upper(containerType), "REEFER");
    ContainsMeaning(Upper(containerType), "40FT");
    hide Contains;
    hide Occurs;
  }

  /** The rate of a day, in dollars, by container. */
  datatype Dollars = Dollars(dry20: nat, dry40: nat, reefer: nat)

  function DollarsOf(portCode: string, day: nat): Dollars {
    match Upper(portCode)
    case "TZDAR" =>
      if day <= 7 then Dollars(15, 30, 50) else if day <= 14 then Dollars(30, 60, 80) else Dollars(50, 100, 150)
    case "KENBO" =>
      if day <= 3 then Dollars(10, 20, 30) else if day <= 7 then Dollars(25, 50, 70) else Dollars(50, 100, 130)
    case "UGKAM" =>
      if day <= 3 then Dollars(10, 20, 30) else if day <= 7 then Dollars(20, 40, 60) else Dollars(40, 80, 120)
    case "RWKGL" =>
      if day <= 3 then Dollars(10, 20, 30) else if day <= 7 then Dollars(20, 40, 60) else Dollars(40, 80, 120)
    case _ =>
      if day <= 5 then Dollars(20, 40, 60) else if day <= 10 then Dollars(40, 80, 100)
      else if day <= 15 then Dollars(60, 120, 160) else Dollars(100, 200, 250)
  }

  lemma DailyRateOfFirst(tiers: seq<Tier>, rate: Rate, day: nat)
    requires tiers != []
    ensures DailyRate(tiers, rate, day)
            == if tiers[0].first <= day <= tiers[0].last && day <= 99 then tiers[0].Of(rate)
               else DailyRate(tiers[1..], rate, day)
  {
  }

  /** The tier tables are those steps, and a reefer day costs most at every port. */
  lemma DailyRatesInDollars(portCode: string, day: nat)
    requires 1 <= day <= 99
    ensures var tiers, usd := TariffTiers(portCode), DollarsOf(portCode, day);
            && DailyRate(tiers, Dry20, day) == 100 * usd.dry20
            && DailyRate(tiers, Dry40, day) == 100 * usd.dry40
            && DailyRate(tiers, Reefer, day) == 100 * usd.reefer
            && usd.dry20 < usd.dry40 < usd.reefer
  {
    var tiers := TariffTiers(portCode);
    forall rate: Rate
      ensures DailyRate(tiers, rate, day) ==
              match rate
              case Dry20 => 100 * DollarsOf(portCode, day).dry20
              case Dry40 => 100 * DollarsOf(portCode, day).dry40
              case Reefer => 100 * DollarsOf(portCode, day).reefer
    {
      DailyRateOfFirst(tiers, rate, day);
      DailyRateOfFirst(tiers[1..], rate, day);
      DailyRateOfFirst(tiers[1..][1..], rate, day);
      if |tiers| > 3 {
        DailyRateOfFirst(tiers[1..][1..][1..], rate, day);
      }
    }
  }

  // ---- Laws of the charge ----

  lemma {:induction false} LaterTiersCostMore(tiers: seq<Tier>, rate: Rate, from_: nat, d: nat, floor: nat)
    requires tiers != [] && Contiguous(tiers, from_) && Rising(tiers, rate) && tiers[|tiers| - 1].last == DAY_CAP
    requires from_ <= d <= DAY_CAP && floor <= tiers[0].Of(rate)
    ensures DailyRate(tiers, rate, d) >= floor
  {
    if !Covers(tiers[0], d) {
      assert |tiers| > 1;
      LaterTiersCostMore(tiers[1..], rate, tiers[0].last + 1, d, floor);
    }
  }

  /** The daily rate never falls before the cap. */
  lemma {:induction false} DailyRateRises(tiers: seq<Tier>, rate: Rate, from_: nat, d: nat, e: nat)
    requires tiers != [] && Contiguous(tiers, from_) && Rising(tiers, rate) && tiers[|tiers| - 1].last == DAY_CAP
    requires from_ <= d <= e <= DAY_CAP
    ensures DailyRate(tiers, rate, d) <= DailyRate(tiers, rate, e)
  {
    if Covers(tiers[0], d) {
      LaterTiersCostMore(tiers, rate, from_, e, tiers[0].Of(rate));
    } else {
      assert |tiers| > 1;
      DailyRateRises(tiers[1..], rate, tiers[0].last + 1, d, e);
    }
  }

  /** Keeping a container a + b days costs at least as much as two keepings of a and b days. */
  lemma {:induction false} Superadditive(portCode: string, rate: Rate, a: nat, b: nat)
    requires a + b <= DAY_CAP
    ensures var tiers := TariffTiers(portCode);
            Charge(tiers, rate, a + b) >= Charge(tiers, rate, a) + Charge(tiers, rate, b)
  {
    var tiers := TariffTiers(portCode);
    TariffsAreSound(portCode);
    hide TariffTiers;
    if b == 0 {
      NoChargeForNoDays(tiers, rate, 1);
    } else {
      Superadditive(portCode, rate, a, b - 1);
      ChargeGrowsByDailyRate(tiers, rate, 1, a + b);
      ChargeGrowsByDailyRate(tiers, rate, 1, b);
      DailyRateRises(tiers, rate, 1, b, a + b);
    }
  }

  /** Past day 99 the charge stands still, at every port. */
  lemma {:induction false} ConstantPastCap(tiers: seq<Tier>, rate: Rate, d: nat)
    requires d >= DAY_CAP
    ensures Charge(tiers, rate, d) == Charge(tiers, rate, DAY_CAP)
  {
    if tiers != [] {
      ConstantPastCap(tiers[1..], rate, d);
    }
  }

  lemma {:induction false} LastTierRate(tiers: seq<Tier>, rate: Rate, from_: nat, d: nat)
    requires tiers != [] && Contiguous(tiers, from_) && tiers[|tiers| - 1].last == DAY_CAP
    ensures from_ <= tiers[|tiers| - 1].first
    ensures tiers[|tiers| - 1].first <= d <= DAY_CAP ==> DailyRate(tiers, rate, d) == tiers[|tiers| - 1].Of(rate)
  {
    if |tiers| > 1 {
      LastTierRate(tiers[1..], rate, tiers[0].last + 1, d);
    }
  }

  /** The rate of the last tier. */
  function TopRate(tiers: seq<Tier>, rate: Rate): nat
    requires tiers != []
  {
    tiers[|tiers| - 1].Of(rate)
  }

  /** Days at one rate. */
  function Cost(r: nat, days: int): int {
    r * days
  }

  lemma CostAdds(r: nat, m: int, n: int)
    ensures Cost(r, m + n) == Cost(r, m) + Cost(r, n) && Cost(r, 1) == r && Cost(r, 0) == 0
  {
  }

  /** In the last tier every day up to the cap costs the same. */
  lemma {:induction false} LastTierIsLinear(tiers: seq<Tier>, rate: Rate, d: nat)
    requires tiers != [] && Contiguous(tiers, 1) && tiers[|tiers| - 1].last == DAY_CAP
    requires tiers[|tiers| - 1].first - 1 <= d <= DAY_CAP
    ensures Charge(tiers, rate, d) == Charge(tiers, rate, DAY_CAP) - Cost(TopRate(tiers, rate), DAY_CAP - d)
    decreases DAY_CAP - d
  {
    if d < DAY_CAP {
      hide Charge;
      hide DailyRate;
      hide Cost;
      LastTierIsLinear(tiers, rate, d + 1);
      LastTierRate(tiers, rate, 1, d + 1);
      ChargeGrowsByDailyRate(tiers, rate, 1, d + 1);
      CostAdds(TopRate(tiers, rate), DAY_CAP - (d + 1), 1);
    }
  }

  /** How much less than 99 days at the top rate the first 99 days cost. */
  function Discount(tiers: seq<Tier>, rate: Rate): int
    requires tiers != []
  {
    Cost(TopRate(tiers, rate), DAY_CAP) - Charge(tiers, rate, DAY_CAP)
  }

  /** From the cap on, superadditivity holds exactly as long as the shorter keeping costs no
      more than the days the longer one has left before the cap; when both reach into the last
      tier, as long as the days beyond the cap cost no more than the discount. */
  lemma SuperadditiveExactlyWhen(portCode: string, rate: Rate, a: nat, b: nat)
    requires a + b >= DAY_CAP && b <= a
    ensures var tiers := TariffTiers(portCode);
            var holds := Charge(tiers, rate, a + b) >= Charge(tiers, rate, a) + Charge(tiers, rate, b);
            && tiers != []
            && (holds <==> Charge(tiers, rate, b) <= Cost(TopRate(tiers, rate), if a < DAY_CAP then DAY_CAP - a else 0))
            && (tiers[|tiers| - 1].first <= b <= a <= DAY_CAP ==>
                  (holds <==> Cost(TopRate(tiers, rate), a + b - DAY_CAP) <= Discount(tiers, rate)))
  {
    var tiers := TariffTiers(portCode);
    TariffsAreSound(portCode);
    var top := TopRate(tiers, rate);
    hide TariffTiers;
    hide Cost;
    ConstantPastCap(tiers, rate, a + b);
    CostAdds(top, 0, 0);
    if a <= DAY_CAP {
      LastTierIsLinear(tiers, rate, a);
      if tiers[|tiers| - 1].first <= b {
        LastTierIsLinear(tiers, rate, b);
        CostAdds(top, a + b - DAY_CAP, DAY_CAP - b);
        CostAdds(top, a, DAY_CAP - a);
      }
    } else {
      ConstantPastCap(tiers, rate, a);
    }
  }

  /** So superadditivity ends at the cap: it fails whenever a keeping past it is extended. */
  lemma NotSuperadditivePastCap(portCode: string, rate: Rate, a: nat, b: nat)
    requires a >= DAY_CAP && b > 0
    ensures var tiers := TariffTiers(portCode);
            Charge(tiers, rate, a + b) < Charge(tiers, rate, a) + Charge(tiers, rate, b)
  {
    var tiers := TariffTiers(portCode);
    ConstantPastCap(tiers, rate, a + b);
    ConstantPastCap(tiers, rate, a);
    assert tiers[0].Of(rate) > 0 && DaysIn(tiers[0], b) > 0;
    assert tiers[0].Of(rate) * DaysIn(tiers[0], b) > 0;
  }

  lemma {:induction false} ChargeIsMonotone(tiers: seq<Tier>, rate: Rate, d: nat, e: nat)
    requires d <= e
    ensures Charge(tiers, rate, d) <= Charge(tiers, rate, e)
  {
    if tiers != [] {
      assert DaysIn(tiers[0], d) <= DaysIn(tiers[0], e);
      hide DaysIn;
      TimesRises(tiers[0].Of(rate), DaysIn(tiers[0], d), DaysIn(tiers[0], e));
      ChargeIsMonotone(tiers[1..], rate, d, e);
    }
  }

  lemma {:induction false} ChargeDoubles(tiers: seq<Tier>, d: nat)
    requires Doubles(tiers)
    ensures Charge(tiers, Dry40, d) == 2 * Charge(tiers, Dry20, d)
  {
    if tiers != [] {
      hide DaysIn;
      assert tiers[0].rate40 * DaysIn(tiers[0], d) == 2 * (tiers[0].rate20 * DaysIn(tiers[0], d));
      ChargeDoubles(tiers[1..], d);
    }
  }

  /** What CalculateDemurrage charges, as a function of its arguments. */
  function TotalFor(
    portCode: string, containerType: string, shipmentType: string,
    arrivalDate: Option<int>, returnDate: Option<int>, freeDaysOverride: Option<int>, today: int): nat
  {
    var expiry := arrivalDate.GetOr(today) + FreeDaysOf(portCode, containerType, shipmentType, freeDaysOverride);
    var days := returnDate.GetOr(today) - expiry;
    Charge(TariffTiers(portCode), RateFor(containerType), if days > 0 then days else 0)
  }

  /** Returning later never costs less, and arriving later never costs more. */
  lemma TotalIsMonotone(
    portCode: string, containerType: string, shipmentType: string,
    arrival: int, arrival': int, ret: int, ret': int, freeDaysOverride: Option<int>, today: int)
    requires arrival' <= arrival && ret <= ret'
    ensures TotalFor(portCode, containerType, shipmentType, Some(arrival), Some(ret), freeDaysOverride, today)
         <= TotalFor(portCode, containerType, shipmentType, Some(arrival'), Some(ret'), freeDaysOverride, today)
  {
    var free := FreeDaysOf(portCode, containerType, shipmentType, freeDaysOverride);
    var d, e := ret - (arrival + free), ret' - (arrival' + free);
    ChargeIsMonotone(TariffTiers(portCode), RateFor(containerType), if d > 0 then d else 0, if e > 0 then e else 0);
  }

  /** A dry 40ft container costs exactly twice a dry 20ft one: at every port, for every kind
      of shipment, every pair of dates and every override of the free days. */
  lemma DryFortyCostsDouble(
    portCode: string, dry40: string, dry20: string, shipmentType: string,
    arrivalDate: Option<int>, returnDate: Option<int>, freeDaysOverride: Option<int>, today: int)
    requires Is40ft(dry40) && !IsReefer(dry40) && !Is40ft(dry20) && !IsReefer(dry20)
    ensures TotalFor(portCode, dry40, shipmentType, arrivalDate, returnDate, freeDaysOverride, today)
         == 2 * TotalFor(portCode, dry20, shipmentType, arrivalDate, returnDate, freeDaysOverride, today)
  {
    TariffsAreSound(portCode);
    assert GetFreeDays(portCode, dry40, shipmentType) == GetFreeDays(portCode, dry20, shipmentType);
    var days := returnDate.GetOr(today)
                - (arrivalDate.GetOr(today) + FreeDaysOf(portCode, dry20, shipmentType, freeDaysOverride));
    ChargeDoubles(TariffTiers(portCode), if days > 0 then days else 0);
  }
}
