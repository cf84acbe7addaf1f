/**
 * What the report page derives from the trips: the hours and energy of a trip
 * as the table and the CSV file show them, the fleet summary cards, the
 * state-of-charge pie and the per-trip alert icons.
 */
module TripStats {
  import opened Wrappers
  import opened JsText
  import opened JsNumber
  import opened Calendar
  import opened Trips
  import opened ReportData

  // ---------------------------------------------------------------------------
  // Hours and energy of one trip
  // ---------------------------------------------------------------------------

  /**
   * The time of day a `HH:MM` text denotes, in minutes after midnight, as
   * `new Date(date + 'T' + time)` reads it: hours 00 to 23, minutes 00 to 59,
   * and also "24:00", the midnight that ends the day, which ECMAScript's date
   * time string format allows. Anything else makes an Invalid Date.
   */
  function ClockMinutes(s: string): (r: Option<nat>)
    ensures r.Some? ==> r.value <= 24 * 60
    ensures r.Some? ==> |s| == 5 && s[2] == ':'
    ensures r == Some(24 * 60) ==> s == "24:00"
  {
    if |s| == 5 && s[2] == ':' && IsDigit(s[0]) && IsDigit(s[1]) && IsDigit(s[3]) && IsDigit(s[4]) then
      var h := 10 * DigitValue(s[0]) + DigitValue(s[1]);
      var m := 10 * DigitValue(s[3]) + DigitValue(s[4]);
      if h <= 23 && m <= 59 then Some(60 * h + m)
      else if h == 24 && m == 0 then Some(24 * 60)
      else None
    else None
  }

  /** "24:00" is the end of the day, 24 hours after "00:00". */
  lemma EndOfDay()
    ensures ClockMinutes("24:00") == Some(24 * 60)
    ensures ClockMinutes("00:00") == Some(0)
  {
    assert DigitValue('2') == 2 && DigitValue('4') == 4 && DigitValue('0') == 0;
  }

  /** A clock text written as the trip generator writes it reads back as the same hour and minute. */
  lemma ClockMinutesOfText(h: nat, m: nat)
    requires h < 24 && m < 60
    ensures ClockMinutes(Pad2(h) + ":" + Pad2(m)) == Some(60 * h + m)
  {
    Pad2Digits(h);
    Pad2Digits(m);
    var s := Pad2(h) + ":" + Pad2(m);
    assert s == [DigitChar(h / 10), DigitChar(h % 10), ':', DigitChar(m / 10), DigitChar(m % 10)];
    DigitValueOfChar(h / 10);
    DigitValueOfChar(h % 10);
    DigitValueOfChar(m / 10);
    DigitValueOfChar(m % 10);
  }

  /**
   * `(end - start) / (1000 * 60 * 60)` for the two Dates built from the trip's
   * date and its start and end times: the hours between them, or NaN (`None`)
   * when either Date is invalid.
   */
  function TripHours(t: Trip): (r: Option<real>)
    ensures r.Some? <==> ParseIso(t.date).Some? && ClockMinutes(t.startTime).Some? && ClockMinutes(t.endTime).Some?
    ensures r.Some? ==> -24.0 <= r.value <= 24.0
  {
    if ParseIso(t.date).None? then None
    else
      match (ClockMinutes(t.startTime), ClockMinutes(t.endTime))
      case (Some(s), Some(e)) => Some((e as int - s as int) as real / 60.0)
      case _ => None
  }

  /** The battery of a master vehicle. */
  function Capacity(vehId: string): (c: nat)
    requires vehId in VehicleMaster
    ensures c <= MaxCapacity
  {
    MasterTable();
    VehicleMaster[vehId].batteryCapacity
  }

  /** `(trip.startSoc - trip.endSoc) / 100 * batteryCapacity`. */
  function TripKwh(t: Trip, capacity: nat): real {
    (t.startSoc - t.endSoc) as real / 100.0 * capacity as real
  }

  /** A trip within the generator's charge bounds draws between 0 and 79% of a battery of at most 70 kWh. */
  lemma TripKwhBounds(t: Trip, capacity: nat)
    requires SocOk(t) && capacity <= MaxCapacity
    ensures 0.0 <= TripKwh(t, capacity) <= 0.79 * MaxCapacity as real
  {
    var share, c := (t.startSoc - t.endSoc) as real / 100.0, capacity as real;
    assert 0.0 <= share <= 0.79;
    assert TripKwh(t, capacity) == share * c;
    assert 0.0 <= share * c;
    assert share * c <= 0.79 * c;
    assert 0.79 * c <= 0.79 * MaxCapacity as real;
  }

  // ---------------------------------------------------------------------------
  // The cells of a table row and a CSV line
  // ---------------------------------------------------------------------------

  /** A number as `toFixed` shows it, including the texts of the non-finite values. */
  datatype Shown = Number(f: Fixed) | NaNText | InfinityText | MinusInfinityText

  function ShownText(s: Shown): string {
    match s
    case Number(f) => Text(f)
    case NaNText => "NaN"
    case InfinityText => "Infinity"
    case MinusInfinityText => "-Infinity"
  }

  /** `x.toFixed(d)` of a number that may be NaN. */
  function ShowFixed(x: Option<real>, d: nat): (s: Shown)
    ensures s.NaNText? <==> x.None?
    ensures x.Some? ==> s == Number(ToFixed(x.value, d))
  {
    match x
    case None => NaNText
    case Some(v) => Number(ToFixed(v, d))
  }

  /** The Total Hours cell: the trip's hours with two decimals. */
  function RowHours(t: Trip): Shown {
    ShowFixed(TripHours(t), 2)
  }

  /** The kWh Consumed cell: the energy with two decimals. */
  function RowKwh(t: Trip, capacity: nat): Fixed {
    ToFixed(TripKwh(t, capacity), 2)
  }

  /**
   * The Avg kWh cell. It divides the two rounded TEXTS (JavaScript turns them
   * back into numbers) and writes '0.00' unless the hours text is a positive number.
   */
  function RowAvgKwh(t: Trip, capacity: nat): Fixed {
    var hours := RowHours(t);
    if hours.Number? && Value(hours.f) > 0.0 then ToFixed(Value(RowKwh(t, capacity)) / Value(hours.f), 2)
    else Fixed(false, 0, 2)
  }

  /** Energy and average cells show no minus sign for a trip within the charge bounds; invalid hours give '0.00'. */
  lemma RowCells(t: Trip, capacity: nat)
    requires SocOk(t)
    ensures !RowKwh(t, capacity).negative && !RowAvgKwh(t, capacity).negative
    ensures TripHours(t).None? ==> RowHours(t) == NaNText && RowAvgKwh(t, capacity) == Fixed(false, 0, 2)
  {
    var kwh := TripKwh(t, capacity);
    assert (t.startSoc - t.endSoc) as real / 100.0 >= 0.0;
    assert kwh >= 0.0;
    var hours := RowHours(t);
    if hours.Number? && Value(hours.f) > 0.0 {
      var k := Value(RowKwh(t, capacity));
      assert !RowKwh(t, capacity).negative;
      assert k >= 0.0;
      assert k / Value(hours.f) >= 0.0;
    }
  }

  // ---------------------------------------------------------------------------
  // Fleet summary
  // ---------------------------------------------------------------------------

  /** Every entry names a master vehicle (the lookup of its battery fails otherwise). */
  predicate KnownEntries(es: seq<Entry>) {
    forall i :: 0 <= i < |es| ==> es[i].vehId in VehicleMaster
  }

  /** The running sums of `getSummaryStats`; a NaN hour makes its sum NaN for good. */
  datatype Totals = Totals(trips: nat, kwh: real, hours: Option<real>, distance: real, operational: Option<real>)

  const NoTotals := Totals(0, 0.0, Some(0.0), 0.0, Some(0.0))

  /** `a + b` where either may be NaN. */
  function Plus(a: Option<real>, b: Option<real>): (r: Option<real>)
    ensures r.Some? <==> a.Some? && b.Some?
  {
    if a.Some? && b.Some? then Some(a.value + b.value) else None
  }

  /**
   * One trip added to the sums. `parseFloat(trip.distance)` reads the `toFixed`
   * text back as the number it denotes (`JsNumber.ParseText`).
   */
  function AddTrip(acc: Totals, t: Trip, capacity: nat): Totals {
    var h := TripHours(t);
    Totals(acc.trips + 1, acc.kwh + TripKwh(t, capacity), Plus(acc.hours, h),
      acc.distance + Value(t.distance), Plus(acc.operational, h))
  }

  /** The sums after the trips, in order. */
  function TripsTotals(acc: Totals, ts: seq<Trip>, capacity: nat): Totals {
    if |ts| == 0 then acc else AddTrip(TripsTotals(acc, ts[..|ts| - 1], capacity), ts[|ts| - 1], capacity)
  }

  /** The sums over every entry of the report, in key order. */
  function EntriesTotals(es: seq<Entry>): Totals
    requires KnownEntries(es)
  {
    if |es| == 0 then NoTotals
    else
      var last := es[|es| - 1];
      TripsTotals(EntriesTotals(es[..|es| - 1]), last.trips, Capacity(last.vehId))
  }

  /** The number of trips in the report. */
  function TripCount(es: seq<Entry>): nat {
    if |es| == 0 then 0 else TripCount(es[..|es| - 1]) + |es[|es| - 1].trips|
  }

  /** Every trip of the run has hours that are a number. */
  predicate HoursDefined(ts: seq<Trip>) {
    forall t :: t in ts ==> TripHours(t).Some?
  }

  /** Every trip of the report has hours that are a number. */
  predicate AllHoursDefined(es: seq<Entry>) {
    forall i :: 0 <= i < |es| ==> HoursDefined(es[i].trips)
  }

  /**
   * Over a run of trips the count grows by their number, the operational time
   * stays equal to the hours, and the hours stay a number exactly while every
   * trip's hours are one.
   */
  lemma {:induction false} TripsTotalsFacts(acc: Totals, ts: seq<Trip>, capacity: nat)
    requires acc.operational == acc.hours
    ensures var r := TripsTotals(acc, ts, capacity);
      r.trips == acc.trips + |ts| && r.operational == r.hours
      && (r.hours.Some? <==> acc.hours.Some? && HoursDefined(ts))
  {
    if |ts| > 0 {
      var front := ts[..|ts| - 1];
      TripsTotalsFacts(acc, front, capacity);
      assert forall t :: t in ts <==> t in front || t == ts[|ts| - 1] by {
        assert ts == front + [ts[|ts| - 1]];
      }
    }
  }

  /**
   * The summary counts every trip of the report, its operational time always
   * equals its hours, and the hours are a number exactly when every trip's are.
   */
  lemma {:induction false} TotalsFacts(es: seq<Entry>)
    requires KnownEntries(es)
    ensures var r := EntriesTotals(es);
      r.trips == TripCount(es) && r.operational == r.hours
      && (r.hours.Some? <==> AllHoursDefined(es))
  {
    if |es| > 0 {
      var front := es[..|es| - 1];
      var last := es[|es| - 1];
      var before := EntriesTotals(front);
      TotalsFacts(front);
      TripsTotalsFacts(before, last.trips, Capacity(last.vehId));
      var r := EntriesTotals(es);
      assert r == TripsTotals(before, last.trips, Capacity(last.vehId));
      AllHoursDefinedLast(es);
    }
  }

  /** The report's hours are all numbers when the earlier entries' and the last entry's are. */
  lemma AllHoursDefinedLast(es: seq<Entry>)
    requires |es| > 0
    ensures AllHoursDefined(es) <==> AllHoursDefined(es[..|es| - 1]) && HoursDefined(es[|es| - 1].trips)
  {
    var front := es[..|es| - 1];
    if AllHoursDefined(front) && HoursDefined(es[|es| - 1].trips) {
      forall i | 0 <= i < |es|
        ensures HoursDefined(es[i].trips)
      {
        if i < |front| {
          assert es[i] == front[i];
        }
      }
    }
    if AllHoursDefined(es) {
      forall i | 0 <= i < |front|
        ensures HoursDefined(front[i].trips)
      {
        assert front[i] == es[i];
      }
    }
  }

  /** Over trips within the charge bounds, the energy lies between 0 and 55.3 kWh a trip. */
  lemma {:induction false} TripsKwhBounds(acc: Totals, ts: seq<Trip>, capacity: nat)
    requires capacity <= MaxCapacity && forall t :: t in ts ==> SocOk(t)
    ensures var r := TripsTotals(acc, ts, capacity);
      acc.kwh <= r.kwh <= acc.kwh + 0.79 * MaxCapacity as real * |ts| as real
  {
    if |ts| > 0 {
      var front := ts[..|ts| - 1];
      TripsKwhBounds(acc, front, capacity);
      TripKwhBounds(ts[|ts| - 1], capacity);
    }
  }

  /** `x / n * 100` written with `toFixed(1)` the way JavaScript divides: by zero gives ±Infinity or NaN. */
  function Percent(x: Option<real>, n: nat): (s: Shown)
    ensures x.Some? && n > 0 ==> s == Number(ToFixed(x.value / n as real * 100.0, 1))
    ensures x.Some? && n == 0 ==> (s.InfinityText? <==> x.value > 0.0)
  {
    match x
    case None => NaNText
    case Some(v) =>
      if n > 0 then Number(ToFixed(v / n as real * 100.0, 1))
      else if v > 0.0 then InfinityText
      else if v < 0.0 then MinusInfinityText
      else NaNText
  }

  /** The four summary cards and the trip count. */
  datatype SummaryStats = SummaryStats(totalTrips: nat, totalKwh: Fixed, avgEfficiency: Fixed, totalHours: Shown, fleetUtilization: Shown)

  /**
   * `getSummaryStats` once the sums are in: the average is kWh per km, and the
   * utilisation divides the operational time by 24 hours for each day of the
   * range and each of the three master vehicles, whichever are selected.
   */
  function StatsOf(r: Totals, days: nat): SummaryStats {
    var avgEfficiency := if r.distance > 0.0 then ToFixed(r.kwh / r.distance, 2) else Fixed(false, 0, 2);
    var utilization :=
      if r.hours.Some? && r.hours.value > 0.0 then Percent(r.operational, 24 * days * |MasterIds|)
      else Number(Fixed(false, 0, 1));
    SummaryStats(r.trips, ToFixed(r.kwh, 2), avgEfficiency, ShowFixed(r.hours, 2), utilization)
  }

  function SummaryOf(es: seq<Entry>, days: nat): SummaryStats
    requires KnownEntries(es)
  {
    StatsOf(EntriesTotals(es), days)
  }

  /**
   * From sums whose operational time equals their hours: the utilisation is the
   * hours over 72 hours a day (three vehicles, whichever are selected), Infinity
   * for a positive total over an empty range, and '0.0' unless the hours are positive.
   */
  lemma UtilizationOf(r: Totals, days: nat)
    requires r.operational == r.hours
    ensures var u := StatsOf(r, days).fleetUtilization;
      (r.hours.Some? && r.hours.value > 0.0 && days > 0 ==>
         u == Number(ToFixed(r.hours.value / (72 * days) as real * 100.0, 1)))
      && (r.hours.Some? && r.hours.value > 0.0 && days == 0 ==> u == InfinityText)
      && (!(r.hours.Some? && r.hours.value > 0.0) ==> u == Number(Fixed(false, 0, 1)))
  {
    assert |MasterIds| == 3;
    assert 24 * days * |MasterIds| == 72 * days;
  }

  /**
   * The summary counts every trip, the hours card shows NaN exactly when some
   * trip's times are unreadable, and the utilisation follows `UtilizationOf`.
   */
  lemma SummaryFacts(es: seq<Entry>, days: nat)
    requires KnownEntries(es)
    ensures var s := SummaryOf(es, days);
      var h := EntriesTotals(es).hours;
      s.totalTrips == TripCount(es)
      && (s.totalHours == NaNText <==> !AllHoursDefined(es))
      && (AllHoursDefined(es) ==> s.totalHours == Number(ToFixed(h.value, 2)))
      && (AllHoursDefined(es) && h.value > 0.0 && days > 0 ==>
            s.fleetUtilization == Number(ToFixed(h.value / (72 * days) as real * 100.0, 1)))
      && (AllHoursDefined(es) && h.value > 0.0 && days == 0 ==> s.fleetUtilization == InfinityText)
      && (!(AllHoursDefined(es) && h.value > 0.0) ==> s.fleetUtilization == Number(Fixed(false, 0, 1)))
  {
    TotalsFacts(es);
    UtilizationOf(EntriesTotals(es), days);
  }

  /**
   * `getSummaryStats`: the running sums over every trip of every entry, then the
   * cards, with the utilisation over the days of the current date inputs.
   */
  method GetSummaryStats(es: seq<Entry>, startDate: string, endDate: string) returns (s: SummaryStats)
    requires KnownEntries(es)
    ensures s == SummaryOf(es, |DateRange(startDate, endDate)|)
  {
    var totals := NoTotals;
    for i := 0 to |es|
      invariant KnownEntries(es[..i])
      invariant totals == EntriesTotals(es[..i])
    {
      var capacity := Capacity(es[i].vehId);
      var trips := es[i].trips;
      ghost var before := totals;
      for j := 0 to |trips|
        invariant totals == TripsTotals(before, trips[..j], capacity)
      {
        TripsTotalsStep(before, trips, j, capacity);
        totals := AddTrip(totals, trips[j], capacity);
      }
      assert trips[..|trips|] == trips;
      EntriesTotalsStep(es, i);
    }
    assert es[..|es|] == es;
    var dates := DatesInRange(startDate, endDate);
    s := StatsOf(totals, |dates|);
  }

  lemma TripsTotalsStep(acc: Totals, ts: seq<Trip>, j: nat, capacity: nat)
    requires j < |ts|
    ensures TripsTotals(acc, ts[..j + 1], capacity) == AddTrip(TripsTotals(acc, ts[..j], capacity), ts[j], capacity)
  {
    assert ts[..j + 1][..j] == ts[..j];
  }

  lemma EntriesTotalsStep(es: seq<Entry>, i: nat)
    requires KnownEntries(es) && i < |es|
    ensures KnownEntries(es[..i]) && KnownEntries(es[..i + 1])
    ensures EntriesTotals(es[..i + 1]) == TripsTotals(EntriesTotals(es[..i]), es[i].trips, Capacity(es[i].vehId))
  {
    assert es[..i + 1][..i] == es[..i];
  }

  /** With the vehicles known and every trip within the charge bounds, the energy total is at most 55.3 kWh a trip. */
  lemma {:induction false} KwhBounds(es: seq<Entry>)
    requires KnownEntries(es)
    requires forall i, t :: 0 <= i < |es| && t in es[i].trips ==> SocOk(t)
    ensures 0.0 <= EntriesTotals(es).kwh <= 0.79 * MaxCapacity as real * TripCount(es) as real
  {
    if |es| > 0 {
      var front := es[..|es| - 1];
      var last := es[|es| - 1];
      assert forall i, t :: 0 <= i < |front| && t in front[i].trips ==> SocOk(t) by {
        assert forall i :: 0 <= i < |front| ==> front[i] == es[i];
      }
      KwhBounds(front);
      TripsKwhBounds(EntriesTotals(front), last.trips, Capacity(last.vehId));
    }
  }

  // ---------------------------------------------------------------------------
  // State-of-charge pie
  // ---------------------------------------------------------------------------

  datatype SocBand = Low | Medium | High

  /** Low below 25%, Medium from 25 to below 50%, High from 50%. */
  function BandOf(endSoc: int): SocBand {
    if endSoc < 25 then Low else if endSoc < 50 then Medium else High
  }

  function BandRank(b: SocBand): nat {
    match b
    case Low => 0
    case Medium => 1
    case High => 2
  }

  function BandName(b: SocBand): string {
    match b
    case Low => "Low (<25%)"
    case Medium => "Medium (25-50%)"
    case High => "High (>50%)"
  }

  function BandColor(b: SocBand): string {
    match b
    case Low => "#ef4444"
    case Medium => "#f59e0b"
    case High => "#10b981"
  }

  /** The number of trips ending in the band. */
  function CountBand(ts: seq<Trip>, b: SocBand): (n: nat)
    ensures n <= |ts|
  {
    if |ts| == 0 then 0
    else CountBand(ts[..|ts| - 1], b) + (if BandOf(ts[|ts| - 1].endSoc) == b then 1 else 0)
  }

  /** The three bands split the trips: their counts add up to the number of trips. */
  lemma {:induction false} BandsPartition(ts: seq<Trip>)
    ensures CountBand(ts, Low) + CountBand(ts, Medium) + CountBand(ts, High) == |ts|
  {
    if |ts| > 0 {
      BandsPartition(ts[..|ts| - 1]);
    }
  }

  datatype Slice = Slice(band: SocBand, value: nat)

  /** A slice of the pie when its band is not empty. */
  function SliceIfAny(ts: seq<Trip>, b: SocBand): seq<Slice> {
    var n := CountBand(ts, b);
    if n > 0 then [Slice(b, n)] else []
  }

  /** `socUsageData`: the Low, Medium and High slices in that order, without the empty ones. */
  function SocUsage(ts: seq<Trip>): (slices: seq<Slice>)
    ensures forall i :: 0 <= i < |slices| ==> slices[i].value == CountBand(ts, slices[i].band) > 0
    ensures forall b :: CountBand(ts, b) > 0 <==> Slice(b, CountBand(ts, b)) in slices
    ensures forall i, j :: 0 <= i < j < |slices| ==> BandRank(slices[i].band) < BandRank(slices[j].band)
  {
    SliceIfAny(ts, Low) + SliceIfAny(ts, Medium) + SliceIfAny(ts, High)
  }

  function SliceTotal(slices: seq<Slice>): nat {
    if |slices| == 0 then 0 else SliceTotal(slices[..|slices| - 1]) + slices[|slices| - 1].value
  }

  /** The pie shows every trip once: its slices add up to the number of trips. */
  lemma SocUsageTotal(ts: seq<Trip>)
    ensures SliceTotal(SocUsage(ts)) == |ts|
  {
    BandsPartition(ts);
    var a, b, c := SliceIfAny(ts, Low), SliceIfAny(ts, Medium), SliceIfAny(ts, High);
    SliceTotalAppend(a, b);
    SliceTotalAppend(a + b, c);
  }

  lemma {:induction false} SliceTotalAppend(a: seq<Slice>, b: seq<Slice>)
    ensures SliceTotal(a + b) == SliceTotal(a) + SliceTotal(b)
  {
    if |b| > 0 {
      assert (a + b)[..|a + b| - 1] == a + b[..|b| - 1];
      SliceTotalAppend(a, b[..|b| - 1]);
    } else {
      assert a + b == a;
    }
  }

  // ---------------------------------------------------------------------------
  // Alerts
  // ---------------------------------------------------------------------------

  datatype Alert = LowSoc | HighTemp | HighPeak | LongIdle

  function AlertRank(a: Alert): nat {
    match a
    case LowSoc => 0
    case HighTemp => 1
    case HighPeak => 2
    case LongIdle => 3
  }

  /**
   * `parseFloat(peakKw) / parseFloat(ratedKw) > 1.2`. A zero rating divides to
   * +Infinity (more than 1.2) when the peak is positive and the zero is not
   * written '-0.00', to -Infinity with the signs crossed, and to NaN for a zero peak.
   */
  predicate PeakAboveRated(peak: Fixed, rated: Fixed) {
    var p, r := Value(peak), Value(rated);
    if r == 0.0 then (p > 0.0 && !rated.negative) || (p < 0.0 && rated.negative)
    else p / r > 1.2
  }

  /** The condition of each alert icon. */
  predicate Fires(a: Alert, t: Trip) {
    match a
    case LowSoc => t.endSoc < 25
    case HighTemp => exists i :: 0 <= i < 5 && TempHighs(t.temps)[i] > 75.0
    case HighPeak => PeakAboveRated(t.peakKw, t.ratedKw)
    case LongIdle => t.idleTime > 60.0
  }

  function IfFires(a: Alert, t: Trip): seq<Alert> {
    if Fires(a, t) then [a] else []
  }

  /** The alert icons of a trip: exactly the alerts that fire, each once, in the order low charge, heat, peak, idle. */
  function Alerts(t: Trip): (r: seq<Alert>)
    ensures forall a :: a in r <==> Fires(a, t)
    ensures forall i, j :: 0 <= i < j < |r| ==> AlertRank(r[i]) < AlertRank(r[j])
  {
    IfFires(LowSoc, t) + IfFires(HighTemp, t) + IfFires(HighPeak, t) + IfFires(LongIdle, t)
  }

  /** A ratio above `c` over a positive divisor means the dividend is above `c` times it. */
  lemma RatioAbove(p: real, r: real, c: real)
    requires r > 0.0 && p / r > c
    ensures p > c * r
  {
    var q := p / r;
    assert q * r == p;
    assert (q - c) * r > 0.0;
  }

  /**
   * A generated trip never shows the heat alert (its maxima stay at or below
   * 50 degrees), its first trip never shows the idle alert, its peak alert
   * means a peak above 120% of a positive rating, and it shows the charge
   * alert exactly when it ends below 25%.
   */
  lemma GeneratedTripAlerts(t: Trip)
    requires TripOk(t)
    ensures HighTemp !in Alerts(t)
    ensures t.tripId == 1 ==> LongIdle !in Alerts(t)
    ensures HighPeak in Alerts(t) ==> Value(t.ratedKw) > 0.0 && Value(t.peakKw) > 1.2 * Value(t.ratedKw)
    ensures LowSoc in Alerts(t) <==> 20 <= t.endSoc < 25
  {
    forall i | 0 <= i < 5
      ensures TempHighs(t.temps)[i] <= 50.0
    {
    }
    if HighPeak in Alerts(t) {
      var p, r := Value(t.peakKw), Value(t.ratedKw);
      assert r >= 10.0;
      RatioAbove(p, r, 1.2);
    }
  }
}
