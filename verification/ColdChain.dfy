/** Temperature excursions of a cold-chain shipment: opened, widened, escalated and resolved
    by readings, judged against the wall clock, counted by an SLA record.

    Times are minutes as exact reals.  Row, Sla and Shipment are the stored values and
    Detect the specification; the classes update their fields in place. */
module ColdChain {
  import opened Common

  datatype Severity = Warning | Breach | Critical | SpoilageAlert

  datatype Side = OverMax | UnderMin

  datatype Limits = Limits(tempMin: real, tempMax: real, tolerance: nat)

  datatype Acknowledgement = Acknowledgement(user: int, at: real, notes: string)

  datatype Row = Row(
    startedAt: real,
    resolvedAt: Option<real>,
    durationMinutes: Option<int>,
    peakTemp: Option<real>,
    minTemp: Option<real>,
    severity: Severity,
    side: Side,
    acknowledgement: Option<Acknowledgement>)

  datatype Sla = Sla(
    maxExcursionMinutes: nat,
    maxExcursions: nat,
    totalExcursionMinutes: nat,
    totalExcursions: nat,
    breached: bool,
    breachedAt: Option<real>)

  const DEFAULT_SLA := Sla(120, 3, 0, 0, false, None)

  datatype Shipment = Shipment(limits: Limits, rows: seq<Row>, sla: Option<Sla>)

  /** A reading as stored, and the wall clock when it is examined. */
  datatype Event =
    | Reading(temp: real, timestamp: real, now: real)
    | Acknowledge(index: nat, user: int, notes: string, now: real)

  // ---- One excursion ----

  predicate InRange(l: Limits, temp: real) {
    l.tempMin <= temp <= l.tempMax
  }

  predicate Breaches(l: Limits, e: Event) {
    e.Reading? && !InRange(l, e.temp)
  }

  /** Severity after an escalation check. */
  function SeverityAt(tolerance: nat, elapsed: real): Severity {
    if elapsed > tolerance as real * 4.0 then SpoilageAlert
    else if elapsed > tolerance as real * 2.0 then Critical
    else if elapsed > tolerance as real then Breach
    else Warning
  }

  /** Severity written on resolution: raised when the breach was long, otherwise kept. */
  function SeverityOnResolution(tolerance: nat, elapsed: real, old_: Severity): Severity {
    if elapsed > tolerance as real * 4.0 then SpoilageAlert
    else if elapsed > tolerance as real * 2.0 then Critical
    else old_
  }

  predicate Resolves(l: Limits, row: Row, temp: real, now: real) {
    InRange(l, temp) && now - row.startedAt >= l.tolerance as real
  }

  function AutoResolved(l: Limits, row: Row, temp: real, now: real): Row {
    if !Resolves(l, row, temp, now) then row
    else
      var elapsed := now - row.startedAt;
      row.(resolvedAt := Some(now), durationMinutes := Some(elapsed.Floor),
           severity := SeverityOnResolution(l.tolerance, elapsed, row.severity))
  }

  /** A stored extreme that is absent, or zero, counts as not recorded. */
  function OrDefault(extreme: Option<real>, default: real): real {
    if extreme.None? || extreme.value == 0.0 then default else extreme.value
  }

  function MaxReal(a: real, b: real): real { if a >= b then a else b }
  function MinReal(a: real, b: real): real { if a <= b then a else b }

  function Widened(row: Row, temp: real): Row {
    row.(peakTemp := Some(MaxReal(OrDefault(row.peakTemp, -100.0), temp)),
         minTemp := Some(MinReal(OrDefault(row.minTemp, 100.0), temp)))
  }

  function Escalated(l: Limits, row: Row, now: real): Row {
    row.(severity := SeverityAt(l.tolerance, now - row.startedAt))
  }

  function Opened(l: Limits, temp: real, timestamp: real): Row {
    Row(timestamp, None, None, Some(temp), Some(temp), Breach, if temp > l.tempMax then OverMax else UnderMin, None)
  }

  function Checked(sla: Sla, now: real): Sla {
    if (sla.totalExcursionMinutes > sla.maxExcursionMinutes || sla.totalExcursions > sla.maxExcursions) && !sla.breached
    then sla.(breached := true, breachedAt := Some(now)) else sla
  }

  // ---- One shipment ----

  /** The unresolved excursion, if any.  At most one exists, see OneActive. */
  function ActiveIndex(rows: seq<Row>): (i: Option<nat>)
    ensures i.Some? ==> i.value < |rows| && rows[i.value].resolvedAt.None?
    ensures i.None? ==> forall k :: 0 <= k < |rows| ==> rows[k].resolvedAt.Some?
  {
    if rows == [] then None
    else if rows[|rows| - 1].resolvedAt.None? then Some(|rows| - 1)
    else ActiveIndex(rows[..|rows| - 1])
  }

  function Detect(s: Shipment, temp: real, timestamp: real, now: real): Shipment {
    var active := ActiveIndex(s.rows);
    if !InRange(s.limits, temp) then
      if active.Some? then
        var i := active.value;
        s.(rows := s.rows[i := Escalated(s.limits, Widened(s.rows[i], temp), now)])
      else
        var rows := s.rows + [Opened(s.limits, temp, timestamp)];
        s.(rows := rows, sla := Some(Checked(s.sla.GetOr(DEFAULT_SLA).(totalExcursions := |rows|), now)))
    else if active.Some? then
      var i := active.value;
      s.(rows := s.rows[i := AutoResolved(s.limits, s.rows[i], temp, now)])
    else s
  }

  predicate CanAcknowledge(s: Shipment, index: nat) {
    index < |s.rows| && s.rows[index].resolvedAt.None?
  }

  function Acknowledged(s: Shipment, index: nat, user: int, notes: string, now: real): Shipment {
    if CanAcknowledge(s, index)
    then s.(rows := s.rows[index := s.rows[index].(acknowledgement := Some(Acknowledgement(user, now, notes)))])
    else s
  }

  function Step(s: Shipment, e: Event): Shipment {
    match e
    case Reading(temp, timestamp, now) => Detect(s, temp, timestamp, now)
    case Acknowledge(index, user, notes, now) => Acknowledged(s, index, user, notes, now)
  }

  function Run(s: Shipment, es: seq<Event>): Shipment
    decreases |es|
  {
    if es == [] then s else Run(Step(s, es[0]), es[1..])
  }

  // ---- The records ----

  class TemperatureExcursion {
    var startedAt: real
    var resolvedAt: Option<real>
    var durationMinutes: Option<int>
    var peakTemp: Option<real>
    var minTemp: Option<real>
    var severity: Severity
    var side: Side
    var acknowledgement: Option<Acknowledgement>

    ghost function Value(): Row
      reads this
    {
      Row(startedAt, resolvedAt, durationMinutes, peakTemp, minTemp, severity, side, acknowledgement)
    }

    constructor (l: Limits, temp: real, timestamp: real)
      ensures Value() == Opened(l, temp, timestamp)
    {
      startedAt, resolvedAt, durationMinutes := timestamp, None, None;
      peakTemp, minTemp, severity := Some(temp), Some(temp), Breach;
      side := if temp > l.tempMax then OverMax else UnderMin;
      acknowledgement := None;
    }

    method TryAutoResolve(l: Limits, temp: real, now: real) returns (resolved: bool)
      modifies this
      ensures Value() == AutoResolved(l, old(Value()), temp, now)
      ensures resolved <==> l.tempMin <= temp <= l.tempMax && now - old(startedAt) >= l.tolerance as real
    {
      if l.tempMin <= temp <= l.tempMax {
        var elapsed := now - startedAt;
        if elapsed >= l.tolerance as real {
          resolvedAt := Some(now);
          durationMinutes := Some(elapsed.Floor);
          if elapsed > l.tolerance as real * 4.0 {
            severity := SpoilageAlert;
          } else if elapsed > l.tolerance as real * 2.0 {
            severity := Critical;
          }
          return true;
        }
      }
      return false;
    }

    method CheckEscalation(l: Limits, now: real) returns (changed: bool)
      modifies this`severity
      ensures Value() == Escalated(l, old(Value()), now)
      ensures changed <==> severity != old(severity)
    {
      var elapsed := now - startedAt;
      var oldSeverity := severity;
      if elapsed > l.tolerance as real * 4.0 {
        severity := SpoilageAlert;
      } else if elapsed > l.tolerance as real * 2.0 {
        severity := Critical;
      } else if elapsed > l.tolerance as real {
        severity := Breach;
      } else {
        severity := Warning;
      }
      return severity != oldSeverity;
    }
  }

  class ColdChainSla {
    var maxExcursionMinutes: nat
    var maxExcursions: nat
    var totalExcursionMinutes: nat
    var totalExcursions: nat
    var breached: bool
    var breachedAt: Option<real>

    ghost function Value(): Sla
      reads this
    {
      Sla(maxExcursionMinutes, maxExcursions, totalExcursionMinutes, totalExcursions, breached, breachedAt)
    }

    constructor ()
      ensures Value() == DEFAULT_SLA
    {
      maxExcursionMinutes, maxExcursions := 120, 3;
      totalExcursionMinutes, totalExcursions := 0, 0;
      breached, breachedAt := false, None;
    }

    method CheckBreach(now: real) returns (newlyBreached: bool)
      modifies this
      ensures Value() == Checked(old(Value()), now)
      ensures newlyBreached <==> breached && !old(breached)
    {
      if totalExcursionMinutes > maxExcursionMinutes || totalExcursions > maxExcursions {
        if !breached {
          breached := true;
          breachedAt := Some(now);
          return true;
        }
      }
      return false;
    }
  }

  class ColdChainShipment {
    const limits: Limits
    var excursions: seq<TemperatureExcursion>
    var sla: ColdChainSla?

    ghost function Rows(es: seq<TemperatureExcursion>): (rows: seq<Row>)
      reads es
      ensures |rows| == |es|
    {
      seq(|es|, i requires 0 <= i < |es| reads es => es[i].Value())
    }

    ghost function Value(): Shipment
      reads this, excursions, sla
    {
      Shipment(limits, Rows(excursions), if sla == null then None else Some(sla.Value()))
    }

    ghost predicate Valid()
      reads this, excursions
    {
      && (forall i, j :: 0 <= i < j < |excursions| ==> excursions[i] != excursions[j])
      && OneActive(Rows(excursions))
    }

    constructor (limits: Limits)
      ensures Valid() && Value() == Shipment(limits, [], None)
    {
      this.limits := limits;
      excursions, sla := [], null;
    }

    /** The query for the unresolved excursion. */
    method FindActive() returns (i: Option<nat>)
      requires Valid()
      ensures i == ActiveIndex(Rows(excursions))
    {
      var k := |excursions|;
      while k > 0
        invariant 0 <= k <= |excursions|
        invariant ActiveIndex(Rows(excursions)[..k]) == ActiveIndex(Rows(excursions))
      {
        k := k - 1;
        assert Rows(excursions)[..k + 1][..k] == Rows(excursions)[..k];
        if excursions[k].resolvedAt.None? {
          return Some(k);
        }
      }
      return None;
    }

    method RecordBreach(i: nat, temp: real, now: real)
      requires Valid() && i < |excursions|
      modifies excursions[i]
      ensures var row := old(excursions[i].Value());
              Rows(excursions) == old(Rows(excursions))[i := Escalated(limits, Widened(row, temp), now)]
    {
      var exc := excursions[i];
      exc.peakTemp := Some(MaxReal(OrDefault(exc.peakTemp, -100.0), temp));
      exc.minTemp := Some(MinReal(OrDefault(exc.minTemp, 100.0), temp));
      var _ := exc.CheckEscalation(limits, now);
    }

    method OpenExcursion(temp: real, timestamp: real, now: real)
      modifies this, sla
      ensures |excursions| == |old(excursions)| + 1 && fresh(excursions[|excursions| - 1])
      ensures excursions[..|old(excursions)|] == old(excursions)
      ensures Rows(excursions) == old(Rows(excursions)) + [Opened(limits, temp, timestamp)]
      ensures sla != null && if old(sla) == null then fresh(sla) else sla == old(sla)
      ensures var before := old(if sla == null then DEFAULT_SLA else sla.Value());
              sla.Value() == Checked(before.(totalExcursions := |excursions|), now)
    {
      var exc := new TemperatureExcursion(limits, temp, timestamp);
      excursions := excursions + [exc];
      if sla == null {
        sla := new ColdChainSla();
      }
      sla.totalExcursions := |excursions|;
      var _ := sla.CheckBreach(now);
    }

    method ResolveActive(i: nat, temp: real, now: real)
      requires Valid() && i < |excursions|
      modifies excursions[i]
      ensures var row := old(excursions[i].Value());
              Rows(excursions) == old(Rows(excursions))[i := AutoResolved(limits, row, temp, now)]
    {
      var _ := excursions[i].TryAutoResolve(limits, temp, now);
    }

    method DetectExcursion(temp: real, timestamp: real, now: real)
      requires Valid()
      modifies this, excursions, sla
      ensures Valid() && Value() == Detect(old(Value()), temp, timestamp, now)
      ensures old(excursions) <= excursions
      ensures forall i :: |old(excursions)| <= i < |excursions| ==> fresh(excursions[i])
      ensures sla != old(sla) ==> sla != null && fresh(sla)
    {
      DetectKeepsOneActive(Value(), temp, timestamp, now);
      var breach := temp < limits.tempMin || temp > limits.tempMax;
      var active := FindActive();
      if breach {
        if active.Some? {
          RecordBreach(active.value, temp, now);
        } else {
          OpenExcursion(temp, timestamp, now);
        }
      } else if active.Some? {
        ResolveActive(active.value, temp, now);
      }
    }

    method DetectExcursionsBulk(readings: seq<Event>)
      requires Valid()
      requires forall r :: r in readings ==> r.Reading?
      modifies this, excursions, sla
      ensures Valid() && Value() == Run(old(Value()), readings)
    {
      var k := 0;
      while k < |readings|
        invariant 0 <= k <= |readings|
        invariant Valid() && Run(Value(), readings[k..]) == Run(old(Value()), readings)
        invariant old(excursions) <= excursions
        invariant forall i :: |old(excursions)| <= i < |excursions| ==> fresh(excursions[i])
        invariant sla != old(sla) ==> sla != null && fresh(sla)
      {
        var r := readings[k];
        assert readings[k..][1..] == readings[k + 1..];
        DetectExcursion(r.temp, r.timestamp, r.now);
        k := k + 1;
      }
    }

    /** 404 when the excursion is missing or already resolved. */
    method AcknowledgeExcursion(index: nat, user: int, notes: string, now: real) returns (found: bool)
      requires Valid()
      modifies excursions
      ensures Valid() && Value() == Acknowledged(old(Value()), index, user, notes, now)
      ensures found <==> CanAcknowledge(old(Value()), index)
    {
      ghost var before := Value();
      if index >= |excursions| || excursions[index].resolvedAt.Some? {
        return false;
      }
      excursions[index].acknowledgement := Some(Acknowledgement(user, now, notes));
      assert Rows(excursions) == Acknowledged(before, index, user, notes, now).rows;
      return true;
    }
  }

  // ---- Excursions over a run ----

  predicate OneActive(rows: seq<Row>) {
    forall i, j :: 0 <= i < j < |rows| ==> rows[i].resolvedAt.Some? || rows[j].resolvedAt.Some?
  }

  lemma DetectKeepsOneActive(s: Shipment, temp: real, timestamp: real, now: real)
    requires OneActive(s.rows)
    ensures OneActive(Detect(s, temp, timestamp, now).rows)
  {
  }

  /** A shipment never has two unresolved excursions. */
  lemma {:induction false} AtMostOneActive(s: Shipment, es: seq<Event>)
    requires OneActive(s.rows)
    ensures OneActive(Run(s, es).rows)
    decreases |es|
  {
    if es != [] {
      AtMostOneActive(Step(s, es[0]), es[1..]);
    }
  }

  /** What later events may do to a row: a resolved one is frozen, an open one keeps its
      start and its side. */
  predicate Continues(old_: Row, new_: Row) {
    && (old_.resolvedAt.Some? ==> new_ == old_)
    && new_.startedAt == old_.startedAt && new_.side == old_.side
  }

  predicate RowsContinue(rows: seq<Row>, rows': seq<Row>) {
    |rows| <= |rows'| && forall i :: 0 <= i < |rows| ==> Continues(rows[i], rows'[i])
  }

  lemma {:induction false} ResolvedNeverChanges(s: Shipment, es: seq<Event>)
    ensures RowsContinue(s.rows, Run(s, es).rows)
    decreases |es|
  {
    if es != [] {
      ResolvedNeverChanges(Step(s, es[0]), es[1..]);
    }
  }

  // ---- One event ----

  /** With no open excursion a reading opens one exactly when it is outside the limits: on the
      side it is on, at the reading's own time, and counted by the SLA, which is breached from
      then on if it was, or if the excursions or their minutes exceed what it allows. */
  lemma OpenedExactlyWhen(s: Shipment, temp: real, timestamp: real, now: real)
    requires forall k :: 0 <= k < |s.rows| ==> s.rows[k].resolvedAt.Some?
    ensures var t, l := Step(s, Reading(temp, timestamp, now)), s.limits;
            if temp < l.tempMin || temp > l.tempMax then
              && t.limits == s.limits && |t.rows| == |s.rows| + 1 && t.rows[..|s.rows|] == s.rows
              && t.rows[|s.rows|] == Row(timestamp, None, None, Some(temp), Some(temp), Breach,
                                         if temp > l.tempMax then OverMax else UnderMin, None)
              && t.sla.Some? && t.sla.value.totalExcursions == |s.rows| + 1
              && var before, after := if s.sla.None? then Sla(120, 3, 0, 0, false, None) else s.sla.value, t.sla.value;
                 && after.maxExcursionMinutes == before.maxExcursionMinutes
                 && after.maxExcursions == before.maxExcursions
                 && after.totalExcursionMinutes == before.totalExcursionMinutes
                 && (after.breached <==>
                       || before.breached || before.totalExcursionMinutes > before.maxExcursionMinutes
                       || |s.rows| + 1 > before.maxExcursions)
                 && after.breachedAt == if after.breached && !before.breached then Some(now) else before.breachedAt
            else t == s
  {
  }

  /** An open excursion is resolved by a reading exactly when that is within the limits and
      examined at least the tolerance after the start; it is widened and regraded exactly by
      readings outside them; and nothing else of the shipment changes. */
  lemma OpenUnderReading(s: Shipment, i: nat, temp: real, timestamp: real, now: real)
    requires OneActive(s.rows) && i < |s.rows| && s.rows[i].resolvedAt.None?
    ensures var t, l := Step(s, Reading(temp, timestamp, now)), s.limits;
            var tol, elapsed := l.tolerance as real, now - s.rows[i].startedAt;
            var within := l.tempMin <= temp <= l.tempMax;
            && t.limits == s.limits && t.sla == s.sla && |t.rows| == |s.rows|
            && (forall j :: 0 <= j < |s.rows| && j != i ==> t.rows[j] == s.rows[j])
            && t.rows[i].startedAt == s.rows[i].startedAt && t.rows[i].side == s.rows[i].side
            && t.rows[i].acknowledgement == s.rows[i].acknowledgement
            && t.rows[i].resolvedAt == (if within && elapsed >= tol then Some(now) else None)
            && t.rows[i].durationMinutes
               == (if within && elapsed >= tol then Some(elapsed.Floor) else s.rows[i].durationMinutes)
            && (within ==> t.rows[i].peakTemp == s.rows[i].peakTemp && t.rows[i].minTemp == s.rows[i].minTemp)
            && (if elapsed > 4.0 * tol && (!within || elapsed >= tol) then t.rows[i].severity == SpoilageAlert
                else if elapsed > 2.0 * tol && (!within || elapsed >= tol) then t.rows[i].severity == Critical
                else if within then t.rows[i].severity == s.rows[i].severity
                else t.rows[i].severity == if elapsed > tol then Breach else Warning)
  {
    assert ActiveIndex(s.rows) == Some(i);
  }

  /** An acknowledgement is recorded on an open excursion and ignored on any other; it changes
      nothing else. */
  lemma AcknowledgementIsRecorded(s: Shipment, index: nat, user: int, notes: string, now: real)
    ensures var t := Step(s, Acknowledge(index, user, notes, now));
            if index < |s.rows| && s.rows[index].resolvedAt.None? then
              && t.limits == s.limits && t.sla == s.sla && |t.rows| == |s.rows|
              && (forall j :: 0 <= j < |s.rows| && j != index ==> t.rows[j] == s.rows[j])
              && t.rows[index].acknowledgement == Some(Acknowledgement(user, now, notes))
              && t.rows[index] == s.rows[index].(acknowledgement := t.rows[index].acknowledgement)
            else t == s
  {
  }

  /** An open excursion is resolved by an event exactly when that is an in-range reading
      examined at least the tolerance after the start. */
  lemma ResolvedExactlyWhen(s: Shipment, e: Event, i: nat)
    requires OneActive(s.rows) && i < |s.rows| && s.rows[i].resolvedAt.None?
    ensures Step(s, e).rows[i].resolvedAt.Some?
            <==> && e.Reading? && s.limits.tempMin <= e.temp <= s.limits.tempMax
                 && e.now >= s.rows[i].startedAt + s.limits.tolerance as real
    ensures Step(s, e).rows[i].resolvedAt.Some? ==> Step(s, e).rows[i].resolvedAt == Some(e.now)
  {
    if e.Reading? {
      assert ActiveIndex(s.rows) == Some(i);
    }
  }

  lemma {:induction false} RunSnoc(s: Shipment, es: seq<Event>, e: Event)
    ensures Run(s, es + [e]) == Step(Run(s, es), e)
    decreases |es|
  {
    if es == [] {
      assert [e][1..] == [];
    } else {
      RunSnoc(Step(s, es[0]), es[1..], e);
      assert (es + [e])[1..] == es[1..] + [e];
    }
  }

  lemma {:induction false} RunKeepsLimits(s: Shipment, es: seq<Event>)
    ensures Run(s, es).limits == s.limits
    decreases |es|
  {
    if es != [] {
      RunKeepsLimits(Step(s, es[0]), es[1..]);
    }
  }

  // ---- The history of an excursion ----

  /** The reading opening opens a new excursion, number |s.rows|, and it is still open after es. */
  predicate OpenAfter(s: Shipment, opening: Event, es: seq<Event>) {
    && OneActive(s.rows) && ActiveIndex(s.rows).None? && Breaches(s.limits, opening)
    && |s.rows| < |Run(Step(s, opening), es).rows|
    && Run(Step(s, opening), es).rows[|s.rows|].resolvedAt.None?
  }

  /** That excursion, resolved by the event e. */
  predicate ResolvedBy(s: Shipment, opening: Event, es: seq<Event>, e: Event) {
    && OpenAfter(s, opening, es)
    && |s.rows| < |Step(Run(Step(s, opening), es), e).rows|
    && Step(Run(Step(s, opening), es), e).rows[|s.rows|].resolvedAt.Some?
  }

  lemma OpenedRow(s: Shipment, opening: Event)
    requires OneActive(s.rows) && ActiveIndex(s.rows).None? && Breaches(s.limits, opening)
    ensures var t := Step(s, opening);
            && t.rows == s.rows + [Opened(s.limits, opening.temp, opening.timestamp)]
            && t.limits == s.limits && OneActive(t.rows)
  {
  }

  lemma StepContinues(s: Shipment, e: Event)
    requires OneActive(s.rows)
    ensures var rows := Step(s, e).rows;
            && RowsContinue(s.rows, rows) && |rows| <= |s.rows| + 1
            && (|rows| > |s.rows| ==>
                  && ActiveIndex(s.rows).None? && Breaches(s.limits, e)
                  && rows[|s.rows|].resolvedAt.None?)
  {
  }

  lemma {:induction false} OpenRowHasHistory(s: Shipment, es: seq<Event>, i: nat) returns (j: nat)
    requires s.rows == [] && i < |Run(s, es).rows| && Run(s, es).rows[i].resolvedAt.None?
    ensures j < |es| && |Run(s, es[..j]).rows| == i
    ensures OpenAfter(Run(s, es[..j]), es[j], es[j + 1..])
    ensures Run(s, es) == Run(Step(Run(s, es[..j]), es[j]), es[j + 1..])
    decreases |es|
  {
    var n := |es| - 1;
    var init, e := es[..n], es[n];
    assert es == init + [e];
    RunSnoc(s, init, e);
    RunKeepsLimits(s, init);
    var t := Run(s, init);
    AtMostOneActive(s, init);
    StepContinues(t, e);
    hide Step;
    hide OneActive;
    if i < |t.rows| {
      assert Continues(t.rows[i], Step(t, e).rows[i]);
      j := OpenRowHasHistory(s, init, i);
      assert init[..j] == es[..j] && init[j + 1..] + [e] == es[j + 1..];
      RunSnoc(Step(Run(s, es[..j]), es[j]), init[j + 1..], e);
    } else {
      j := n;
      assert es[..j] == init && es[j + 1..] == [];
    }
  }

  /** The excursion with index i was opened by event j of the run and resolved by event k. */
  predicate Spans(s: Shipment, es: seq<Event>, i: nat, j: nat, k: nat) {
    && j < k < |es| && |Run(s, es[..j]).rows| == i
    && ResolvedBy(Run(s, es[..j]), es[j], es[j + 1..k], es[k])
  }

  /** Its row when it was resolved. */
  function RowAtResolution(s: Shipment, es: seq<Event>, i: nat, j: nat, k: nat): Row
    requires Spans(s, es, i, j, k)
  {
    Step(Run(Step(Run(s, es[..j]), es[j]), es[j + 1..k]), es[k]).rows[i]
  }

  lemma SpansLonger(s: Shipment, es: seq<Event>, e: Event, i: nat, j: nat, k: nat)
    requires Spans(s, es, i, j, k)
    ensures Spans(s, es + [e], i, j, k) && RowAtResolution(s, es + [e], i, j, k) == RowAtResolution(s, es, i, j, k)
  {
    hide Run;
    hide Step;
    hide ResolvedBy;
    var fs := es + [e];
    assert fs[..j] == es[..j] && fs[j] == es[j] && fs[j + 1..k] == es[j + 1..k] && fs[k] == es[k];
  }

  lemma ResolvedLast(s: Shipment, es: seq<Event>, e: Event, i: nat) returns (j: nat)
    requires s.rows == [] && i < |Run(s, es).rows| && Run(s, es).rows[i].resolvedAt.None?
    requires i < |Step(Run(s, es), e).rows| && Step(Run(s, es), e).rows[i].resolvedAt.Some?
    ensures Spans(s, es + [e], i, j, |es|)
    ensures RowAtResolution(s, es + [e], i, j, |es|) == Step(Run(s, es), e).rows[i]
  {
    j := OpenRowHasHistory(s, es, i);
    hide Run;
    hide Step;
    hide OpenAfter;
    var fs := es + [e];
    assert fs[..j] == es[..j] && fs[j] == es[j] && fs[j + 1..|es|] == es[j + 1..] && fs[|es|] == e;
  }

  /** Every resolved excursion of a run that began without excursions was opened by one event
      of the run, stayed open up to another, was resolved by that one and has not changed since. */
  lemma {:induction false} EveryResolvedRowHasHistory(s: Shipment, es: seq<Event>, i: nat) returns (j: nat, k: nat)
    requires s.rows == [] && i < |Run(s, es).rows| && Run(s, es).rows[i].resolvedAt.Some?
    ensures Spans(s, es, i, j, k) && Run(s, es).rows[i] == RowAtResolution(s, es, i, j, k)
    decreases |es|
  {
    assert es != [];
    var init, e := es[..|es| - 1], es[|es| - 1];
    var t := Run(s, init);
    assert es == init + [e];
    RunSnoc(s, init, e);
    AtMostOneActive(s, init);
    StepContinues(t, e);
    hide Step;
    hide Run;
    hide Spans;
    hide OneActive;
    assert i < |t.rows| && Continues(t.rows[i], Step(t, e).rows[i]);
    if t.rows[i].resolvedAt.Some? {
      j, k := EveryResolvedRowHasHistory(s, init, i);
      SpansLonger(s, init, e, i, j, k);
    } else {
      k := |init|;
      j := ResolvedLast(s, init, e, i);
    }
  }

  // ---- Severity ----

  predicate ClockFrom(es: seq<Event>, start: real) {
    (forall k :: 0 <= k < |es| ==> start <= es[k].now)
    && forall j, k :: 0 <= j < k < |es| ==> es[j].now <= es[k].now
  }

  /** Severity as a function of how long the excursion lasted.  While open, a severity above
      Breach is evidence of time already elapsed. */
  predicate SeverityFits(tolerance: nat, row: Row, clock: real) {
    match row.resolvedAt
    case None =>
      && (row.severity.Critical? ==> clock - row.startedAt > tolerance as real * 2.0)
      && (row.severity.SpoilageAlert? ==> clock - row.startedAt > tolerance as real * 4.0)
    case Some(at) =>
      var elapsed := at - row.startedAt;
      && at <= clock && elapsed >= tolerance as real && row.durationMinutes == Some(elapsed.Floor)
      && (row.severity.SpoilageAlert? <==> elapsed > tolerance as real * 4.0)
      && (row.severity.Critical? <==> tolerance as real * 2.0 < elapsed <= tolerance as real * 4.0)
  }

  predicate AllFit(s: Shipment, clock: real) {
    forall i :: 0 <= i < |s.rows| ==> SeverityFits(s.limits.tolerance, s.rows[i], clock)
  }

  lemma StepKeepsSeverities(s: Shipment, e: Event, clock: real)
    requires AllFit(s, clock) && clock <= e.now
    ensures AllFit(Step(s, e), e.now) && Step(s, e).limits == s.limits
  {
    var t := Step(s, e);
    forall i | 0 <= i < |t.rows| ensures SeverityFits(s.limits.tolerance, t.rows[i], e.now) {
      if i < |s.rows| {
        LaterFits(s.limits, s.rows[i], clock, e);
      }
    }
  }

  lemma LaterFits(l: Limits, row: Row, clock: real, e: Event)
    requires SeverityFits(l.tolerance, row, clock) && clock <= e.now
    ensures SeverityFits(l.tolerance, row, e.now)
    ensures e.Reading? && row.resolvedAt.None? ==>
              && SeverityFits(l.tolerance, Escalated(l, Widened(row, e.temp), e.now), e.now)
              && SeverityFits(l.tolerance, AutoResolved(l, row, e.temp, e.now), e.now)
  {
  }

  function LastNow(es: seq<Event>, start: real): real {
    if es == [] then start else es[|es| - 1].now
  }

  /** On a non-decreasing wall clock every resolved excursion carries the severity of its
      own length: SPOILAGE_ALERT above four tolerances, CRITICAL above two, otherwise
      WARNING or BREACH; and its length is recorded in whole minutes. */
  lemma {:induction false} FinalSeverity(s: Shipment, es: seq<Event>, clock: real)
    requires AllFit(s, clock) && ClockFrom(es, clock)
    ensures AllFit(Run(s, es), LastNow(es, clock))
    decreases |es|
  {
    if es != [] {
      StepKeepsSeverities(s, es[0], clock);
      FinalSeverity(Step(s, es[0]), es[1..], es[0].now);
    }
  }

  /** The clock of the last breaching reading. */
  function LastCheck(l: Limits, es: seq<Event>): Option<real> {
    if es == [] then None
    else if Breaches(l, es[|es| - 1]) then Some(es[|es| - 1].now)
    else LastCheck(l, es[..|es| - 1])
  }

  /** The severity a check at that time leaves, or the given one without a check. */
  function CheckedSeverity(tolerance: nat, startedAt: real, check: Option<real>, unchecked: Severity): Severity {
    match check
    case None => unchecked
    case Some(at) => SeverityAt(tolerance, at - startedAt)
  }

  lemma StepChecks(t: Shipment, e: Event, i: nat)
    requires OneActive(t.rows) && i < |t.rows| && t.rows[i].resolvedAt.None?
    requires Step(t, e).rows[i].resolvedAt.None?
    ensures Step(t, e).rows[i].startedAt == t.rows[i].startedAt
    ensures Step(t, e).rows[i].severity
            == if Breaches(t.limits, e) then SeverityAt(t.limits.tolerance, e.now - t.rows[i].startedAt)
               else t.rows[i].severity
  {
    assert ActiveIndex(t.rows) == Some(i);
  }

  /** On any clock, the severity of an open excursion is that of its last check alone. */
  lemma {:induction false} OpenSeverity(s: Shipment, es: seq<Event>, i: nat)
    requires OneActive(s.rows) && i < |s.rows|
    requires i < |Run(s, es).rows| && Run(s, es).rows[i].resolvedAt.None?
    ensures var row := s.rows[i];
            Run(s, es).rows[i].severity
            == CheckedSeverity(s.limits.tolerance, row.startedAt, LastCheck(s.limits, es), row.severity)
    decreases |es|
  {
    if es != [] {
      var init, e := es[..|es| - 1], es[|es| - 1];
      var t := Run(s, init);
      assert es == init + [e];
      RunSnoc(s, init, e);
      RunKeepsLimits(s, init);
      ResolvedNeverChanges(s, init);
      AtMostOneActive(s, init);
      StepContinues(t, e);
      hide Step;
      OpenSeverity(s, init, i);
      StepChecks(t, e, i);
    }
  }

  /** What stays on record of an excursion opened by opening, open after es, and resolved by
      e, whatever happens later and whatever the clock does: the length from the first
      reading's timestamp to the resolving clock decides the severity above two tolerances;
      up to two it is that of the last check, BREACH when there was none. */
  lemma ResolvedSeverity(s: Shipment, opening: Event, es: seq<Event>, e: Event, later: seq<Event>)
    requires ResolvedBy(s, opening, es, e)
    ensures |s.rows| < |Run(Step(Run(Step(s, opening), es), e), later).rows|
    ensures var row := Run(Step(Run(Step(s, opening), es), e), later).rows[|s.rows|];
            var tol, elapsed := s.limits.tolerance, e.now - opening.timestamp;
            && row.startedAt == opening.timestamp && row.resolvedAt == Some(e.now) && elapsed >= tol as real
            && row.durationMinutes == Some(elapsed.Floor)
            && row.severity == if elapsed > tol as real * 4.0 then SpoilageAlert
                               else if elapsed > tol as real * 2.0 then Critical
                               else CheckedSeverity(tol, opening.timestamp, LastCheck(s.limits, es), Breach)
  {
    var i, t := |s.rows|, Run(Step(s, opening), es);
    OpenedRow(s, opening);
    OpenSeverity(Step(s, opening), es, i);
    RunKeepsLimits(Step(s, opening), es);
    AtMostOneActive(Step(s, opening), es);
    ResolvedNeverChanges(Step(s, opening), es);
    ResolvedNeverChanges(Step(t, e), later);
    ResolvingStep(t, e, i);
  }

  lemma ResolvingStep(t: Shipment, e: Event, i: nat)
    requires OneActive(t.rows) && i < |t.rows| && t.rows[i].resolvedAt.None?
    requires i < |Step(t, e).rows| && Step(t, e).rows[i].resolvedAt.Some?
    ensures e.Reading? && Resolves(t.limits, t.rows[i], e.temp, e.now)
    ensures Step(t, e).rows[i] == AutoResolved(t.limits, t.rows[i], e.temp, e.now)
  {
    if e.Reading? {
      assert ActiveIndex(t.rows) == Some(i);
    }
  }

  /** SPOILAGE_ALERT exactly above four tolerances, CRITICAL exactly above two up to four. */
  predicate MatchesLength(tolerance: nat, severity: Severity, elapsed: real) {
    && (severity.SpoilageAlert? <==> elapsed > tolerance as real * 4.0)
    && (severity.Critical? <==> tolerance as real * 2.0 < elapsed <= tolerance as real * 4.0)
  }

  /** The exact law.  A resolved excursion carries the severity of its own length exactly when
      that is above two tolerances, or no check came later than two tolerances after the
      start: a clock that stepped back after such a check is what breaks it.  And it is closed
      as WARNING exactly when it lasted at most two tolerances and its last check came within
      one, so also when it outlasted that check by far more. */
  lemma SeverityMatchesLengthExactlyWhen(s: Shipment, opening: Event, es: seq<Event>, e: Event)
    requires ResolvedBy(s, opening, es, e)
    ensures var severity := Step(Run(Step(s, opening), es), e).rows[|s.rows|].severity;
            var tol, elapsed := s.limits.tolerance, e.now - opening.timestamp;
            var check := LastCheck(s.limits, es);
            && (MatchesLength(tol, severity, elapsed)
                <==> elapsed > tol as real * 2.0 || check.None? || check.value - opening.timestamp <= tol as real * 2.0)
            && (severity.Warning?
                <==> elapsed <= tol as real * 2.0 && check.Some? && check.value - opening.timestamp <= tol as real)
  {
    ResolvedSeverity(s, opening, es, e, []);
  }

  lemma {:induction false} LastCheckIsAnEvent(l: Limits, es: seq<Event>)
    ensures LastCheck(l, es).Some? ==> exists k :: 0 <= k < |es| && LastCheck(l, es) == Some(es[k].now)
  {
    if es != [] && !Breaches(l, es[|es| - 1]) {
      LastCheckIsAnEvent(l, es[..|es| - 1]);
    }
  }

  /** So a clock that has not stepped back by the time of the resolution is enough. */
  lemma ClockAheadSuffices(s: Shipment, opening: Event, es: seq<Event>, e: Event)
    requires ResolvedBy(s, opening, es, e)
    requires forall k :: 0 <= k < |es| ==> es[k].now <= e.now
    ensures var severity := Step(Run(Step(s, opening), es), e).rows[|s.rows|].severity;
            MatchesLength(s.limits.tolerance, severity, e.now - opening.timestamp)
  {
    LastCheckIsAnEvent(s.limits, es);
    SeverityMatchesLengthExactlyWhen(s, opening, es, e);
  }

  /** Over whole runs, on any clock: each resolved excursion of a run that began without any
      has the severity that its opening event j, its resolving event k and the last check in
      between determine. */
  lemma SeverityOverRuns(s: Shipment, es: seq<Event>, i: nat) returns (j: nat, k: nat)
    requires s.rows == [] && i < |Run(s, es).rows| && Run(s, es).rows[i].resolvedAt.Some?
    ensures j < k < |es| && Breaches(s.limits, es[j]) && es[k].Reading? && InRange(s.limits, es[k].temp)
    ensures var row := Run(s, es).rows[i];
            var tol, elapsed := s.limits.tolerance, es[k].now - es[j].timestamp;
            && row.startedAt == es[j].timestamp && row.resolvedAt == Some(es[k].now) && elapsed >= tol as real
            && row.severity == if elapsed > tol as real * 4.0 then SpoilageAlert
                               else if elapsed > tol as real * 2.0 then Critical
                               else CheckedSeverity(tol, row.startedAt, LastCheck(s.limits, es[j + 1..k]), Breach)
  {
    j, k := EveryResolvedRowHasHistory(s, es, i);
    RunKeepsLimits(s, es[..j]);
    var t := Run(s, es[..j]);
    ResolvedSeverity(t, es[j], es[j + 1..k], es[k], []);
    OpenedRow(t, es[j]);
    AtMostOneActive(Step(t, es[j]), es[j + 1..k]);
    RunKeepsLimits(Step(t, es[j]), es[j + 1..k]);
    ResolvingStep(Run(Step(t, es[j]), es[j + 1..k]), es[k], i);
  }

  lemma ThreeReadings(l: Limits, a: Event, b: Event, c: Event)
    requires Breaches(l, a) && Breaches(l, b) && c.Reading? && InRange(l, c.temp)
    requires c.now - a.timestamp >= l.tolerance as real
    ensures var rows := Run(Shipment(l, [], None), [a, b, c]).rows;
            && |rows| == 1 && rows[0].resolvedAt == Some(c.now) && rows[0].startedAt == a.timestamp
            && rows[0].severity
               == SeverityOnResolution(l.tolerance, c.now - a.timestamp, SeverityAt(l.tolerance, b.now - a.timestamp))
  {
    var s := Shipment(l, [], None);
    RunSnoc(s, [a, b], c);
    RunSnoc(s, [a], b);
    RunSnoc(s, [], a);
    assert [a, b] + [c] == [a, b, c] && [a] + [b] == [a, b] && [] + [a] == [a];
    OpenedRow(s, a);
    var t := Step(s, a);
    assert ActiveIndex(t.rows) == Some(0);
    assert ActiveIndex(Step(t, b).rows) == Some(0);
  }

  /** A clock that steps back: escalated to CRITICAL, then resolved as a short excursion. */
  lemma SeverityNeedsTheClock()
    ensures var es := [Reading(9.0, 0.0, 0.0), Reading(9.0, 70.0, 70.0), Reading(5.0, 71.0, 40.0)];
            var row := Run(Shipment(Limits(2.0, 8.0, 30), [], None), es).rows[0];
            row.severity.Critical? && row.resolvedAt == Some(40.0) && row.startedAt == 0.0
  {
    ThreeReadings(Limits(2.0, 8.0, 30), Reading(9.0, 0.0, 0.0), Reading(9.0, 70.0, 70.0), Reading(5.0, 71.0, 40.0));
  }

  /** On an honest clock: 60 minutes at tolerance 30, closed as WARNING because it was last
      checked after 10. */
  lemma TwoTolerancesClosedAsWarning()
    ensures var es := [Reading(9.0, 0.0, 0.0), Reading(9.0, 10.0, 10.0), Reading(5.0, 60.0, 60.0)];
            var row := Run(Shipment(Limits(2.0, 8.0, 30), [], None), es).rows[0];
            row.severity.Warning? && row.resolvedAt == Some(60.0) && row.startedAt == 0.0
  {
    ThreeReadings(Limits(2.0, 8.0, 30), Reading(9.0, 0.0, 0.0), Reading(9.0, 10.0, 10.0), Reading(5.0, 60.0, 60.0));
  }

  function Rank(severity: Severity): nat {
    match severity
    case Warning => 0
    case Breach => 1
    case Critical => 2
    case SpoilageAlert => 3
  }

  /** A check grades an excursion by how many of one, two and four tolerances it has lasted
      beyond, so later checks never lower the grade. */
  lemma SeverityCountsThresholds(tolerance: nat, elapsed: real, later: real)
    ensures Rank(SeverityAt(tolerance, elapsed)) == |set k | k in {1, 2, 4} && elapsed > (tolerance * k) as real|
    ensures elapsed <= later ==> Rank(SeverityAt(tolerance, elapsed)) <= Rank(SeverityAt(tolerance, later))
  {
    var passed := set k | k in {1, 2, 4} && elapsed > (tolerance * k) as real;
    match SeverityAt(tolerance, elapsed) {
      case Warning => assert passed == {};
      case Breach => assert passed == {1};
      case Critical => assert passed == {1, 2};
      case SpoilageAlert => assert passed == {1, 2, 4};
    }
  }

  /** A breach opens at BREACH on the side it is on, and its first further breaching reading
      lowers it to WARNING exactly when no more than the tolerance has passed. */
  lemma FirstCheckMayLower(s: Shipment, temp: real, timestamp: real, now: real, temp': real, now': real)
    requires ActiveIndex(s.rows).None? && s.limits.tempMin <= s.limits.tempMax
    requires !InRange(s.limits, temp) && !InRange(s.limits, temp')
    ensures var i, t := |s.rows|, Detect(s, temp, timestamp, now);
            var u := Detect(t, temp', timestamp, now');
            && |t.rows| == |u.rows| == i + 1
            && t.rows[i].severity == Breach && t.rows[i].startedAt == timestamp
            && (t.rows[i].side == UnderMin <==> temp < s.limits.tempMin)
            && (u.rows[i].severity == Warning <==> now' <= timestamp + s.limits.tolerance as real)
  {
    assert (s.rows + [Opened(s.limits, temp, timestamp)])[..|s.rows|] == s.rows;
  }

  // ---- Extremes ----

  function PeakAfter(peak: Option<real>, temps: seq<real>): Option<real> {
    if temps == [] then peak
    else Some(MaxReal(OrDefault(PeakAfter(peak, temps[..|temps| - 1]), -100.0), temps[|temps| - 1]))
  }

  function MinAfter(min: Option<real>, temps: seq<real>): Option<real> {
    if temps == [] then min
    else Some(MinReal(OrDefault(MinAfter(min, temps[..|temps| - 1]), 100.0), temps[|temps| - 1]))
  }

  /** The breaching readings of a run, in order. */
  function BreachTemps(l: Limits, es: seq<Event>): seq<real> {
    if es == [] then []
    else
      var last := es[|es| - 1];
      BreachTemps(l, es[..|es| - 1]) + if Breaches(l, last) then [last.temp] else []
  }

  lemma StepWidens(t: Shipment, e: Event, i: nat)
    requires OneActive(t.rows) && i < |t.rows| && t.rows[i].resolvedAt.None?
    requires Step(t, e).rows[i].resolvedAt.None?
    ensures var row, row' := t.rows[i], Step(t, e).rows[i];
            if Breaches(t.limits, e)
            then row'.peakTemp == Some(MaxReal(OrDefault(row.peakTemp, -100.0), e.temp))
                 && row'.minTemp == Some(MinReal(OrDefault(row.minTemp, 100.0), e.temp))
            else row'.peakTemp == row.peakTemp && row'.minTemp == row.minTemp
  {
    assert ActiveIndex(t.rows) == Some(i);
  }

  lemma BreachTempsSnoc(l: Limits, es: seq<Event>, e: Event)
    ensures BreachTemps(l, es + [e]) == BreachTemps(l, es) + if Breaches(l, e) then [e.temp] else []
  {
    assert (es + [e])[..|es|] == es;
  }

  lemma FoldsSnoc(peak: Option<real>, min: Option<real>, temps: seq<real>, temp: real)
    ensures PeakAfter(peak, temps + [temp]) == Some(MaxReal(OrDefault(PeakAfter(peak, temps), -100.0), temp))
    ensures MinAfter(min, temps + [temp]) == Some(MinReal(OrDefault(MinAfter(min, temps), 100.0), temp))
  {
    assert (temps + [temp])[..|temps|] == temps;
  }

  /** While an excursion stays open its stored extremes are the folds over the breaching
      readings; in-range readings and acknowledgements leave them alone. */
  lemma {:induction false} ExtremesAreFolds(s: Shipment, es: seq<Event>, i: nat)
    requires OneActive(s.rows) && i < |s.rows|
    requires i < |Run(s, es).rows| && Run(s, es).rows[i].resolvedAt.None?
    ensures Run(s, es).rows[i].peakTemp == PeakAfter(s.rows[i].peakTemp, BreachTemps(s.limits, es))
    ensures Run(s, es).rows[i].minTemp == MinAfter(s.rows[i].minTemp, BreachTemps(s.limits, es))
    decreases |es|
  {
    if es != [] {
      var init, e := es[..|es| - 1], es[|es| - 1];
      var t, temps := Run(s, init), BreachTemps(s.limits, init);
      assert es == init + [e];
      RunSnoc(s, init, e);
      RunKeepsLimits(s, init);
      ResolvedNeverChanges(s, init);
      ResolvedNeverChanges(t, [e]);
      AtMostOneActive(s, init);
      BreachTempsSnoc(s.limits, init, e);
      RunSnoc(t, [], e);
      hide Step;
      ExtremesAreFolds(s, init, i);
      StepWidens(t, e, i);
      if Breaches(s.limits, e) {
        FoldsSnoc(s.rows[i].peakTemp, s.rows[i].minTemp, temps, e.temp);
      } else {
        assert temps + [] == temps;
      }
    }
  }

  predicate IsMaximum(m: real, temps: seq<real>) {
    m in temps && forall k :: 0 <= k < |temps| ==> temps[k] <= m
  }

  predicate IsMinimum(m: real, temps: seq<real>) {
    m in temps && forall k :: 0 <= k < |temps| ==> m <= temps[k]
  }

  /** An excursion opened at temps[0] and widened by the rest records its true maximum
      exactly when that maximum is not zero or the last breaching reading is zero: a stored
      zero is taken for a missing value by the next one. */
  lemma {:induction false} PeakIsTrueMaximum(temps: seq<real>, m: real)
    requires temps != [] && IsMaximum(m, temps)
    ensures PeakAfter(Some(temps[0]), temps[1..]).Some?
    ensures PeakAfter(Some(temps[0]), temps[1..]).value == m <==> m != 0.0 || temps[|temps| - 1] == 0.0
    ensures m == 0.0 && temps[|temps| - 1] != 0.0 ==> PeakAfter(Some(temps[0]), temps[1..]).value < 0.0
    decreases |temps|
  {
    var n := |temps|;
    if n > 1 {
      var init, last := temps[..n - 1], temps[n - 1];
      var m0 := MaximumOf(init);
      PeakIsTrueMaximum(init, m0);
      assert temps[1..][..n - 2] == init[1..];
      assert m == MaxReal(m0, last) by {
        assert temps == init + [last];
      }
    }
  }

  lemma {:induction false} MaximumOf(temps: seq<real>) returns (m: real)
    requires temps != []
    ensures IsMaximum(m, temps)
  {
    if |temps| == 1 {
      m := temps[0];
    } else {
      m := MaximumOf(temps[1..]);
      m := MaxReal(temps[0], m);
    }
  }

  lemma {:induction false} MinimumOf(temps: seq<real>) returns (m: real)
    requires temps != []
    ensures IsMinimum(m, temps)
  {
    if |temps| == 1 {
      m := temps[0];
    } else {
      m := MinimumOf(temps[1..]);
      m := MinReal(temps[0], m);
    }
  }

  /** The same for the minimum. */
  lemma {:induction false} MinIsTrueMinimum(temps: seq<real>, m: real)
    requires temps != [] && IsMinimum(m, temps)
    ensures MinAfter(Some(temps[0]), temps[1..]).Some?
    ensures MinAfter(Some(temps[0]), temps[1..]).value == m <==> m != 0.0 || temps[|temps| - 1] == 0.0
    ensures m == 0.0 && temps[|temps| - 1] != 0.0 ==> MinAfter(Some(temps[0]), temps[1..]).value > 0.0
    decreases |temps|
  {
    var n := |temps|;
    if n > 1 {
      var init, last := temps[..n - 1], temps[n - 1];
      var m0 := MinimumOf(init);
      MinIsTrueMinimum(init, m0);
      assert temps[1..][..n - 2] == init[1..];
      assert m == MinReal(m0, last) by {
        assert temps == init + [last];
      }
    }
  }

  /** Together: what the stored extremes of a still open excursion are worth, whatever
      readings and acknowledgements came since the reading that opened it. */
  lemma RecordedExtremes(s: Shipment, opening: Event, es: seq<Event>, max: real, min: real)
    requires OpenAfter(s, opening, es)
    requires IsMaximum(max, [opening.temp] + BreachTemps(s.limits, es))
    requires IsMinimum(min, [opening.temp] + BreachTemps(s.limits, es))
    ensures var temps, row := [opening.temp] + BreachTemps(s.limits, es), Run(Step(s, opening), es).rows[|s.rows|];
            && (row.peakTemp == Some(max) <==> max != 0.0 || temps[|temps| - 1] == 0.0)
            && (row.minTemp == Some(min) <==> min != 0.0 || temps[|temps| - 1] == 0.0)
  {
    var t, rest := Step(s, opening), BreachTemps(s.limits, es);
    var temps := [opening.temp] + rest;
    DetectKeepsOneActive(s, opening.temp, opening.timestamp, opening.now);
    ExtremesAreFolds(t, es, |s.rows|);
    assert temps[1..] == rest;
    PeakIsTrueMaximum(temps, max);
    MinIsTrueMinimum(temps, min);
  }

  /** A resolution keeps the extremes and nothing later changes them: the same holds of what
      stays on record of a resolved excursion. */
  lemma ResolvedExtremes(
    s: Shipment, opening: Event, es: seq<Event>, e: Event, later: seq<Event>, max: real, min: real)
    requires ResolvedBy(s, opening, es, e)
    requires IsMaximum(max, [opening.temp] + BreachTemps(s.limits, es))
    requires IsMinimum(min, [opening.temp] + BreachTemps(s.limits, es))
    ensures |s.rows| < |Run(Step(Run(Step(s, opening), es), e), later).rows|
    ensures var temps := [opening.temp] + BreachTemps(s.limits, es);
            var row := Run(Step(Run(Step(s, opening), es), e), later).rows[|s.rows|];
            && (row.peakTemp == Some(max) <==> max != 0.0 || temps[|temps| - 1] == 0.0)
            && (row.minTemp == Some(min) <==> min != 0.0 || temps[|temps| - 1] == 0.0)
  {
    var t := Run(Step(s, opening), es);
    RecordedExtremes(s, opening, es, max, min);
    OpenedRow(s, opening);
    AtMostOneActive(Step(s, opening), es);
    ResolvingStep(t, e, |s.rows|);
    ResolvedNeverChanges(Step(t, e), later);
  }

  /** A frozen load that reads 0 and then -2 degrees has its peak stored as -2; a warm one that
      reads 0 and then 2 has its minimum stored as 2. */
  lemma ZeroIsForgotten()
    ensures var frozen := Shipment(Limits(-20.0, -5.0, 30), [], None);
            var row := Run(frozen, [Reading(0.0, 0.0, 0.0), Reading(-2.0, 5.0, 5.0)]).rows[0];
            row.resolvedAt.None? && row.peakTemp == Some(-2.0) && row.minTemp == Some(-2.0)
    ensures var warm := Shipment(Limits(5.0, 20.0, 30), [], None);
            var row := Run(warm, [Reading(0.0, 0.0, 0.0), Reading(2.0, 5.0, 5.0)]).rows[0];
            row.resolvedAt.None? && row.peakTemp == Some(2.0) && row.minTemp == Some(2.0)
  {
    SecondReadingReplacesZero(Limits(-20.0, -5.0, 30), -2.0);
    SecondReadingReplacesZero(Limits(5.0, 20.0, 30), 2.0);
  }

  lemma SecondReadingReplacesZero(l: Limits, temp: real)
    requires !InRange(l, 0.0) && !InRange(l, temp) && -100.0 <= temp <= 100.0
    ensures var t := Run(Shipment(l, [], None), [Reading(0.0, 0.0, 0.0), Reading(temp, 5.0, 5.0)]);
            && |t.rows| == 1 && t.rows[0].resolvedAt.None?
            && t.rows[0].peakTemp == Some(temp) && t.rows[0].minTemp == Some(temp)
  {
    var s := Shipment(l, [], None);
    var e, f := Reading(0.0, 0.0, 0.0), Reading(temp, 5.0, 5.0);
    RunSnoc(s, [e], f);
    RunSnoc(s, [], e);
    assert [] + [e] == [e] && [e] + [f] == [e, f];
    var t := Step(s, e);
    assert ActiveIndex(s.rows) == None;
    assert ActiveIndex(t.rows) == Some(0);
  }

  // ---- The SLA record ----

  /** The record counts the excursions, and is breached once they exceed the limit. */
  predicate SlaFits(s: Shipment) {
    match s.sla
    case None => s.rows == []
    case Some(sla) =>
      && sla.totalExcursions == |s.rows|
      && sla.totalExcursionMinutes <= sla.maxExcursionMinutes
      && (sla.breached <==> |s.rows| > sla.maxExcursions)
      && (sla.breached <==> sla.breachedAt.Some?)
  }

  function LimitOf(s: Shipment): nat {
    s.sla.GetOr(DEFAULT_SLA).maxExcursions
  }

  /** Over every run the SLA counts exactly the excursions ever opened, is breached exactly
      when they exceed the limit, and once set its breach time never changes. */
  lemma {:induction false} SlaOverRuns(s: Shipment, es: seq<Event>)
    requires SlaFits(s)
    ensures SlaFits(Run(s, es)) && LimitOf(Run(s, es)) == LimitOf(s)
    ensures s.sla.Some? && s.sla.value.breached ==>
              Run(s, es).sla.Some? && Run(s, es).sla.value.breachedAt == s.sla.value.breachedAt
    decreases |es|
  {
    if es != [] {
      SlaOverRuns(Step(s, es[0]), es[1..]);
    }
  }

  /** The breach is declared by the reading that opens one excursion too many, at its time. */
  lemma BreachedByTheExcessExcursion(s: Shipment, e: Event)
    requires SlaFits(s) && OneActive(s.rows)
    ensures var t := Step(s, e);
            (t.sla.Some? && t.sla.value.breached && !s.sla.GetOr(DEFAULT_SLA).breached)
            <==> && Breaches(s.limits, e)
                 && (forall i :: 0 <= i < |s.rows| ==> s.rows[i].resolvedAt.Some?)
                 && |s.rows| == LimitOf(s)
    ensures var t := Step(s, e);
            t.sla.Some? && t.sla.value.breached && !s.sla.GetOr(DEFAULT_SLA).breached
            ==> t.sla.value.breachedAt == Some(e.now)
  {
  }
}
