/**
 * The mock trip data of the daily report: the vehicle master table, the seed
 * derived from a date and a vehicle id, the efficiency score, and the trips one
 * vehicle makes on one day, drawn from the seeded generator.
 */
module Trips {
  import opened Wrappers
  import opened JsText
  import opened JsNumber
  import opened Seqs
  import Prng

  // ---------------------------------------------------------------------------
  // Vehicle master data
  // ---------------------------------------------------------------------------

  datatype VehicleInfo = VehicleInfo(name: string, batteryCapacity: nat)

  /** The keys of the master table, in the order `Object.keys` lists them. */
  const MasterIds: seq<string> := ["veh1", "veh2", "veh3"]

  const VehicleMaster: map<string, VehicleInfo> := map[
    "veh1" := VehicleInfo("Vehicle 1", 50),
    "veh2" := VehicleInfo("Vehicle 2", 60),
    "veh3" := VehicleInfo("Vehicle 3", 70)
  ]

  /**
   * The property names every plain object inherits from `Object.prototype`.
   * `vehicleMaster[name]` finds a function or an object for them, not
   * `undefined`, so reading `.batteryCapacity` of it gives `undefined` instead
   * of throwing.
   */
  const InheritedNames: set<string> := {
    "constructor", "hasOwnProperty", "isPrototypeOf", "propertyIsEnumerable",
    "toLocaleString", "toString", "valueOf", "__proto__",
    "__defineGetter__", "__defineSetter__", "__lookupGetter__", "__lookupSetter__"}

  /** `vehicleMaster[vehId]` is found, as an own entry or an inherited one, so reading a property of it does not throw. */
  predicate Found(vehId: string) {
    vehId in VehicleMaster || vehId in InheritedNames
  }

  /** `vehicleMaster[vehId].batteryCapacity` where the lookup is found: the capacity, or `undefined` (`None`) for an inherited name. */
  function CapacityFound(vehId: string): (c: Option<nat>)
    ensures c.Some? <==> vehId in VehicleMaster
  {
    if vehId in VehicleMaster then Some(VehicleMaster[vehId].batteryCapacity) else None
  }

  /** No master id is an inherited name, so the table's own entries are read as they are. */
  lemma MasterNotInherited()
    ensures forall id :: id in VehicleMaster ==> id !in InheritedNames
  {
    MasterTable();
  }

  /** The largest battery in the fleet, in kWh. */
  const MaxCapacity: nat := 70

  /** Every master vehicle is listed once, and every battery is at most `MaxCapacity`. */
  lemma MasterTable()
    ensures forall id :: id in VehicleMaster <==> id in MasterIds
    ensures forall i, j :: 0 <= i < j < |MasterIds| ==> MasterIds[i] != MasterIds[j]
    ensures forall id :: id in VehicleMaster ==> VehicleMaster[id].batteryCapacity <= MaxCapacity
  {
    assert MasterIds[0] == "veh1" && MasterIds[1] == "veh2" && MasterIds[2] == "veh3";
    assert "veh1" != "veh2" && "veh1" != "veh3" && "veh2" != "veh3" by {
      assert "veh1"[3] != "veh2"[3] && "veh1"[3] != "veh3"[3] && "veh2"[3] != "veh3"[3];
    }
  }

  // ---------------------------------------------------------------------------
  // Seed
  // ---------------------------------------------------------------------------

  /** `parseInt(s, 10)`: an optional sign, then the longest run of digits; no digit is NaN. */
  function ParseInt(s: string): (r: Option<int>)
    ensures r.None? <==> DigitRun(if |s| > 0 && (s[0] == '-' || s[0] == '+') then s[1..] else s) == 0
  {
    var signed := |s| > 0 && (s[0] == '-' || s[0] == '+');
    var body := if signed then s[1..] else s;
    var k := DigitRun(body);
    var magnitude: int := DigitsValue(body[..k]);
    if k == 0 then None
    else if signed && s[0] == '-' then Some(-magnitude)
    else Some(magnitude)
  }

  /** Reading back what `toString` writes for a non-negative integer gives it again. */
  lemma ParseIntOfNatToString(n: nat)
    ensures ParseInt(NatToString(n)) == Some(n)
  {
    var s := NatToString(n);
    DigitRunOfDigits(s, []);
    assert s + [] == s;
    assert s[..|s|] == s;
    NatToStringValue(n);
  }

  /** The seed text: the date without its hyphens, then the vehicle id with its first "veh" removed. */
  function SeedText(date: string, vehId: string): string {
    RemoveAll(date, '-') + ReplaceFirst(vehId, "veh", "")
  }

  function Seed(date: string, vehId: string): Option<int> {
    ParseInt(SeedText(date, vehId))
  }

  /** When the seed text is all digits, the seed is the number those digits spell. */
  lemma SeedOfDigits(date: string, vehId: string)
    requires |SeedText(date, vehId)| > 0 && AllDigits(SeedText(date, vehId))
    ensures Seed(date, vehId) == Some(DigitsValue(SeedText(date, vehId)))
  {
    var s := SeedText(date, vehId);
    DigitRunOfDigits(s, []);
    assert s + [] == s;
    assert s[..|s|] == s;
  }

  // ---------------------------------------------------------------------------
  // Clock times
  // ---------------------------------------------------------------------------

  /** `Math.trunc`, which `h % 1` subtracts from `h`. */
  function Trunc(x: real): int {
    if x >= 0.0 then x.Floor else -((-x).Floor)
  }

  /** The minutes shown for the hour value `h`: `Math.floor((h % 1) * 60)`. */
  function MinuteOf(h: real): int {
    ((h - Trunc(h) as real) * 60.0).Floor
  }

  /** `HH:MM` for the hour value `h`, as the trip generator writes start and end times. */
  function ClockText(h: real): string {
    PadStart(IntToString(h.Floor), 2, '0') + ":" + PadStart(IntToString(MinuteOf(h)), 2, '0')
  }

  /** For a non-negative hour value the text is two hour digits, a colon and two minute digits. */
  lemma ClockTextShape(h: real)
    requires 0.0 <= h
    ensures 0 <= MinuteOf(h) < 60
    ensures ClockText(h) == Pad2(h.Floor) + ":" + Pad2(MinuteOf(h))
  {
  }

  /** A later hour value has a later or equal hour and, within the same hour, later or equal minutes. */
  lemma HourMinuteMonotonic(a: real, b: real)
    requires 0.0 <= a <= b
    ensures a.Floor <= b.Floor
    ensures a.Floor == b.Floor ==> MinuteOf(a) <= MinuteOf(b)
  {
  }

  /** Two-character hours compared first, the minutes after the colon only when the hours agree. */
  lemma ColonPairOrder(p: string, q: string, x: string, y: string)
    requires |p| == |q|
    requires StrLt(p, q) || (p == q && StrLe(x, y))
    ensures StrLe(p + ":" + x, q + ":" + y)
  {
    assert p + ":" + x == p + (":" + x);
    assert q + ":" + y == q + (":" + y);
    if StrLt(p, q) {
      StrLtExtend(p, q, ":" + x, ":" + y);
    } else if x != y {
      StrLtSamePrefix(p + ":", x, y);
    }
  }

  lemma ColonPairStrict(p: string, q: string, x: string, y: string)
    requires |p| == |q| && StrLt(p, q)
    ensures StrLt(p + ":" + x, q + ":" + y)
  {
    assert p + ":" + x == p + (":" + x);
    assert q + ":" + y == q + (":" + y);
    StrLtExtend(p, q, ":" + x, ":" + y);
  }

  lemma Pad2Length(n: nat)
    requires n < 100
    ensures |Pad2(n)| == 2
  {
    Pad2Digits(n);
  }

  /** Clock texts compare as (hour, minute) pairs. */
  lemma ClockPairOrder(ha: nat, ma: nat, hb: nat, mb: nat)
    requires ha < 100 && ma < 100 && hb < 100 && mb < 100
    requires ha < hb || (ha == hb && ma <= mb)
    ensures StrLe(Pad2(ha) + ":" + Pad2(ma), Pad2(hb) + ":" + Pad2(mb))
  {
    Pad2Length(ha);
    Pad2Length(hb);
    if ha < hb {
      Pad2Monotonic(ha, hb);
    } else if ma < mb {
      Pad2Monotonic(ma, mb);
    }
    ColonPairOrder(Pad2(ha), Pad2(hb), Pad2(ma), Pad2(mb));
  }

  /** A later hour value never shows an earlier clock time. */
  lemma ClockTextMonotonic(a: real, b: real)
    requires 0.0 <= a <= b < 100.0
    ensures StrLe(ClockText(a), ClockText(b))
  {
    ClockTextShape(a);
    ClockTextShape(b);
    HourMinuteMonotonic(a, b);
    ClockPairOrder(a.Floor, MinuteOf(a), b.Floor, MinuteOf(b));
  }

  /** An hour value at least one hour later shows a strictly later clock time. */
  lemma ClockTextStrict(a: real, b: real)
    requires 0.0 <= a && a + 1.0 <= b < 100.0
    ensures StrLt(ClockText(a), ClockText(b))
  {
    ClockTextShape(a);
    ClockTextShape(b);
    Pad2Length(a.Floor);
    Pad2Length(b.Floor);
    Pad2Monotonic(a.Floor, b.Floor);
    ColonPairStrict(Pad2(a.Floor), Pad2(b.Floor), Pad2(MinuteOf(a)), Pad2(MinuteOf(b)));
  }

  /** No hour value up to 22 shows a time after "22:00". */
  lemma ClockTextByTen(h: real)
    requires 0.0 <= h <= 22.0
    ensures StrLe(ClockText(h), "22:00")
  {
    ClockTextShape(22.0);
    assert Pad2(22) == "22" && Pad2(0) == "00";
    assert ClockText(22.0) == "22:00";
    ClockTextMonotonic(h, 22.0);
  }

  // ---------------------------------------------------------------------------
  // Trip records
  // ---------------------------------------------------------------------------

  /** A `[min, max]` temperature pair, each written with `toFixed(1)`. */
  datatype TempRange = TempRange(low: Fixed, high: Fixed)

  datatype Temps = Temps(motor: TempRange, mcu: TempRange, battery: TempRange, dcdc: TempRange, hydraulicOil: TempRange)

  datatype Trip = Trip(
    tripId: int,
    date: string,
    startTime: string,
    endTime: string,
    avgKw: Fixed,
    ratedKw: Fixed,
    peakKw: Fixed,
    startSoc: int,
    endSoc: int,
    distance: Fixed,
    idleTime: real,
    temps: Temps,
    efficiencyScore: Fixed)

  // ---------------------------------------------------------------------------
  // Efficiency score
  // ---------------------------------------------------------------------------

  /**
   * Energy subscore: kWh per km below 0.5 scores 30, below 1 scores 20, else
   * 10; no distance counts as 0 kWh/km. A NaN consumption (`None`) fails both
   * comparisons and scores 10 over any distance.
   */
  function KwhScore(kwhConsumed: Option<real>, distance: real): (s: int)
    ensures s == 10 || s == 20 || s == 30
    ensures distance <= 0.0 ==> s == 30
    ensures distance > 0.0 && kwhConsumed.None? ==> s == 10
    ensures distance > 0.0 && kwhConsumed.Some? && 0.0 <= kwhConsumed.value < distance ==> s >= 20
  {
    if distance > 0.0 then
      match kwhConsumed
      case None => 10
      case Some(kwh) =>
        RatioBelowOne(kwh, distance);
        var perKm := kwh / distance;
        if perKm < 0.5 then 30 else if perKm < 1.0 then 20 else 10
    else
      30  // 0 kWh/km
  }

  /** For a positive divisor, the quotient is below 1 exactly when the dividend is below the divisor. */
  lemma RatioBelowOne(a: real, b: real)
    requires b > 0.0
    ensures a / b < 1.0 <==> a < b
  {
    assert (a / b) * b == a;
    if a / b < 1.0 {
      assert (a / b) * b < 1.0 * b;
    } else {
      assert (a / b) * b >= 1.0 * b;
    }
  }

  /** `Math.max` over a non-empty list of numbers: one of them, and none is larger. */
  function MaxOf(xs: seq<real>): (m: real)
    requires |xs| > 0
    ensures forall i :: 0 <= i < |xs| ==> xs[i] <= m
    ensures exists i :: 0 <= i < |xs| && xs[i] == m
  {
    if |xs| == 1 then xs[0]
    else
      var rest := MaxOf(xs[1..]);
      assert forall i :: 1 <= i < |xs| ==> xs[i] == xs[1..][i - 1];
      if xs[0] >= rest then xs[0] else rest
  }

  /**
   * The maxima of the five pairs, in key order, as `parseFloat` reads them back:
   * the number each `toFixed` text denotes (`JsNumber.ParseText`).
   */
  function TempHighs(t: Temps): seq<real> {
    [Value(t.motor.high), Value(t.mcu.high), Value(t.battery.high), Value(t.dcdc.high), Value(t.hydraulicOil.high)]
  }

  /** Thermal subscore: hottest maximum below 70 scores 30, below 80 scores 20, else 10. */
  function TempScore(t: Temps): (s: int)
    ensures s == 10 || s == 20 || s == 30
    ensures s == 30 <==> forall i :: 0 <= i < 5 ==> TempHighs(t)[i] < 70.0
  {
    var m := MaxOf(TempHighs(t));
    if m < 70.0 then 30 else if m < 80.0 then 20 else 10
  }

  /**
   * Power subscore on `avgKw / ratedKw`: below 0.8 scores 20, below 1 scores 15,
   * else 10. A zero rating gives +Infinity, -Infinity or NaN, as the average is
   * positive, negative or zero.
   */
  function PowerScore(avgKw: real, ratedKw: real): (s: int)
    ensures s == 10 || s == 15 || s == 20
    ensures ratedKw > 0.0 && avgKw < ratedKw ==> s >= 15
    ensures ratedKw > 0.0 && avgKw >= ratedKw ==> s == 10
  {
    if ratedKw == 0.0 then (if avgKw < 0.0 then 20 else 10)
    else if ratedKw > 0.0 then
      RatioBelowOne(avgKw, ratedKw);
      PowerBand(avgKw / ratedKw)
    else
      PowerBand(avgKw / ratedKw)
  }

  function PowerBand(ratio: real): int {
    if ratio < 0.8 then 20 else if ratio < 1.0 then 15 else 10
  }

  /** State-of-charge subscore: a drop below 30 points scores 20, else 15. */
  function SocScore(startSoc: real, endSoc: real): (s: int)
    ensures s == 15 || s == 20
    ensures s == 20 <==> startSoc - endSoc < 30.0
  {
    if startSoc - endSoc < 30.0 then 20 else 15
  }

  /** `calculateEfficiencyScore`: the sum of the four subscores. */
  function EfficiencyScore(kwhConsumed: Option<real>, distance: real, temps: Temps, avgKw: real, ratedKw: real, startSoc: real, endSoc: real): (s: int)
    ensures 45 <= s <= 100
  {
    KwhScore(kwhConsumed, distance) + TempScore(temps) + PowerScore(avgKw, ratedKw) + SocScore(startSoc, endSoc)
  }

  /** The score is 100 exactly when every subscore is at its best. */
  lemma FullScore(kwhConsumed: Option<real>, distance: real, temps: Temps, avgKw: real, ratedKw: real, startSoc: real, endSoc: real)
    ensures EfficiencyScore(kwhConsumed, distance, temps, avgKw, ratedKw, startSoc, endSoc) == 100
        <==> KwhScore(kwhConsumed, distance) == 30 && TempScore(temps) == 30
             && PowerScore(avgKw, ratedKw) == 20 && SocScore(startSoc, endSoc) == 20
  {
  }

  // ---------------------------------------------------------------------------
  // One trip from its draws
  // ---------------------------------------------------------------------------

  /** The nine values drawn for a trip after its duration, in drawing order. */
  datatype TripDraws = TripDraws(
    gap: real, rated: real, avgShare: real, peakShare: real,
    startSoc: real, socDrop: real, speed: real, tempBase: real, tempSpread: real)

  predicate DrawsInRange(d: TripDraws) {
    0.0 <= d.gap < 1.0 && 0.0 <= d.rated < 1.0 && 0.0 <= d.avgShare < 1.0 && 0.0 <= d.peakShare < 1.0
    && 0.0 <= d.startSoc < 1.0 && 0.0 <= d.socDrop < 1.0 && 0.0 <= d.speed < 1.0
    && 0.0 <= d.tempBase < 1.0 && 0.0 <= d.tempSpread < 1.0
  }

  function TempPair(low: real, high: real): TempRange {
    TempRange(ToFixed(low, 1), ToFixed(high, 1))
  }

  /** The five temperature pairs around a base minimum and a spread. */
  function TripTemps(base: real, spread: real): Temps {
    Temps(
      TempPair(base, base + spread),
      TempPair(base - 2.0, base + spread - 2.0),
      TempPair(base + 5.0, base + spread + 5.0),
      TempPair(base, base + spread),
      TempPair(base - 5.0, base + spread - 5.0))
  }

  /** Idle minutes since the previous trip ended; 0 for the first trip (or a previous end at hour 0). */
  function IdleMinutes(startHour: real, lastEnd: Option<real>): real {
    match lastEnd
    case None => 0.0
    case Some(e) => if e == 0.0 then 0.0 else (startHour - e) * 60.0
  }

  function RatedKw(d: TripDraws): real { d.rated * 20.0 + 10.0 }
  function AvgKw(d: TripDraws): real { RatedKw(d) * (d.avgShare * 0.4 + 0.6) }
  function PeakKw(d: TripDraws): real { RatedKw(d) * (d.peakShare * 0.4 + 1.0) }
  function StartSoc(d: TripDraws): real { d.startSoc * 40.0 + 60.0 }

  /** The end charge: the start less a 10 to 40 point drop, never below 20. */
  function EndSoc(d: TripDraws): real {
    var dropped := StartSoc(d) - (d.socDrop * 30.0 + 10.0);
    if dropped < 20.0 then 20.0 else dropped
  }

  function Distance(duration: real, d: TripDraws): real { duration * (d.speed * 20.0 + 30.0) }
  /** The energy used, NaN (`None`) when the capacity is `undefined`. */
  function KwhConsumed(d: TripDraws, capacity: Option<nat>): Option<real> {
    match capacity
    case Some(c) => Some((StartSoc(d) - EndSoc(d)) / 100.0 * c as real)
    case None => None
  }
  function TempBase(d: TripDraws): real { 15.0 + d.tempBase * 10.0 }
  function TempSpread(d: TripDraws): real { 10.0 + d.tempSpread * 10.0 }
  function TempsOf(d: TripDraws): Temps { TripTemps(TempBase(d), TempSpread(d)) }

  /** The score of a trip, from its draws, its duration and the vehicle's battery capacity. */
  function TripScoreOf(duration: real, d: TripDraws, capacity: Option<nat>): int {
    EfficiencyScore(KwhConsumed(d, capacity), Distance(duration, d), TempsOf(d), AvgKw(d), RatedKw(d), StartSoc(d), EndSoc(d))
  }

  /**
   * The numbers behind one trip: its loop round `i`, start hour, duration, the end
   * of the previous trip, its nine draws and the vehicle's battery capacity
   * (`None` when it reads as `undefined`).
   */
  datatype Plan = Plan(i: nat, start: real, duration: real, lastEnd: Option<real>, d: TripDraws, capacity: Option<nat>)

  /** The trip record numbered `i + 1`, as the loop pushes it. */
  function BuildTrip(p: Plan, date: string): Trip {
    var d := p.d;
    Trip(
      p.i + 1, date,
      ClockText(p.start), ClockText(p.start + p.duration),
      ToFixed(AvgKw(d), 1), ToFixed(RatedKw(d), 0), ToFixed(PeakKw(d), 1),
      StartSoc(d).Floor, EndSoc(d).Floor,
      ToFixed(Distance(p.duration, d), 1),
      IdleMinutes(p.start, p.lastEnd),
      TempsOf(d),
      ToFixed(TripScoreOf(p.duration, d, p.capacity) as real, 0))
  }

  // ---------------------------------------------------------------------------
  // What every generated trip satisfies
  // ---------------------------------------------------------------------------

  /** The text `f` denotes a number between `lo` and `hi`. */
  predicate Within(f: Fixed, lo: real, hi: real) {
    lo <= Value(f) <= hi
  }

  /** The maxima stay in their bands: hydraulic oil 20 to 40, MCU 23 to 43, motor and DC-DC 25 to 45, battery 30 to 50. */
  predicate TempsOk(t: Temps) {
    Within(t.motor.high, 25.0, 45.0) && Within(t.mcu.high, 23.0, 43.0)
    && Within(t.battery.high, 30.0, 50.0) && t.dcdc == t.motor
    && Within(t.hydraulicOil.high, 20.0, 40.0)
  }

  predicate SocOk(t: Trip) {
    60 <= t.startSoc <= 99 && 20 <= t.endSoc <= t.startSoc
  }

  predicate TimesOk(t: Trip) {
    ClockOrderOk(t.startTime, t.endTime)
  }

  /** The start shows before the end, and the end no later than "22:00". */
  predicate ClockOrderOk(start: string, end: string) {
    StrLt(start, end) && StrLe(end, "22:00")
  }

  predicate IdleOk(t: Trip) {
    0.0 <= t.idleTime < 120.0 && (t.tripId == 1 ==> t.idleTime == 0.0)
  }

  predicate PowerOk(t: Trip) {
    Within(t.ratedKw, 10.0, 30.0) && Within(t.avgKw, 6.0, 30.0) && Within(t.peakKw, 10.0, 42.0)
    && Value(t.avgKw) <= Value(t.peakKw)
  }

  predicate TripOk(t: Trip) {
    SocOk(t) && TimesOk(t) && IdleOk(t) && PowerOk(t) && TempsOk(t.temps)
    && Within(t.efficiencyScore, 80.0, 100.0)
  }

  /** The conditions under which the generator builds trip number `i + 1`. */
  predicate PlanOk(p: Plan) {
    DrawsInRange(p.d) && 0.0 <= p.start && 1.0 <= p.duration && p.start + p.duration <= 22.0
    && (p.capacity.Some? ==> p.capacity.value <= MaxCapacity)
    && (p.i == 0 ==> p.lastEnd.None?)
    && (p.lastEnd.Some? ==> 0.0 < p.lastEnd.value <= p.start < p.lastEnd.value + 2.0)
  }

  lemma ProductBounds(a: real, lo: real, hi: real, b: real, blo: real, bhi: real)
    requires 0.0 <= lo <= a <= hi && 0.0 <= blo <= b <= bhi
    ensures lo * blo <= a * b <= hi * bhi
  {
    assert lo * blo <= a * blo <= a * b;
    assert a * b <= hi * b <= hi * bhi;
  }

  /** The charge starts at 60 to 99 (floored) and ends between 20 and the start. */
  lemma TripSoc(d: TripDraws)
    requires DrawsInRange(d)
    ensures 60 <= StartSoc(d).Floor <= 99 && 20 <= EndSoc(d).Floor <= StartSoc(d).Floor
    ensures 0.0 <= StartSoc(d) - EndSoc(d) < 40.0
  {
  }

  /** A trip of at least an hour ending by 22:00 shows a start before its end, and an end no later than "22:00". */
  lemma TripTimes(startHour: real, duration: real)
    requires 0.0 <= startHour && 1.0 <= duration && startHour + duration <= 22.0
    ensures ClockOrderOk(ClockText(startHour), ClockText(startHour + duration))
  {
    ClockTextStrict(startHour, startHour + duration);
    ClockTextByTen(startHour + duration);
  }

  lemma TripPowerValues(d: TripDraws)
    requires DrawsInRange(d)
    ensures 10.0 <= RatedKw(d) < 30.0
    ensures 6.0 <= AvgKw(d) < RatedKw(d)
    ensures RatedKw(d) <= PeakKw(d) < 42.0
  {
    var r := RatedKw(d);
    var a, p := d.avgShare * 0.4 + 0.6, d.peakShare * 0.4 + 1.0;
    assert 0.6 <= a < 1.0 && 1.0 <= p < 1.4;
    assert r * 0.6 <= r * a < r * 1.0;
    assert r * 1.0 <= r * p < r * 1.4;
    assert r * 1.4 < 42.0;
    assert 6.0 <= r * 0.6;
  }

  /** The printed ratings stay in band, and the printed average never exceeds the printed peak. */
  lemma TripPower(rated: real, avg: real, peak: real)
    requires 10.0 <= rated <= 30.0 && 6.0 <= avg <= 30.0 && 10.0 <= peak <= 42.0 && avg <= peak
    ensures Within(ToFixed(rated, 0), 10.0, 30.0)
    ensures Within(ToFixed(avg, 1), 6.0, 30.0) && Within(ToFixed(peak, 1), 10.0, 42.0)
    ensures Value(ToFixed(avg, 1)) <= Value(ToFixed(peak, 1))
  {
    ToFixedWithin(rated, 10, 30, 0);
    ToFixedWithin(avg, 6, 30, 1);
    ToFixedWithin(peak, 10, 42, 1);
    ToFixedMonotonic(avg, peak, 1);
  }

  /** Pairs around a base minimum of 15 to 25 with a spread of 10 to 20 keep their maxima in band. */
  lemma TripTempsWithin(base: real, spread: real)
    requires 15.0 <= base <= 25.0 && 10.0 <= spread <= 20.0
    ensures TempsOk(TripTemps(base, spread))
  {
    var top := base + spread;
    ToFixedWithin(top, 25, 45, 1);
    ToFixedWithin(top - 2.0, 23, 43, 1);
    ToFixedWithin(top + 5.0, 30, 50, 1);
    ToFixedWithin(top - 5.0, 20, 40, 1);
  }

  /** The temperatures of every generated trip keep their maxima in band. */
  lemma TripTempsOk(d: TripDraws)
    requires DrawsInRange(d)
    ensures TempsOk(TempsOf(d))
  {
    TripTempsWithin(TempBase(d), TempSpread(d));
  }

  /** Maxima within their bands never cost thermal points: none reaches 70. */
  lemma TempScoreOfOk(t: Temps)
    requires TempsOk(t)
    ensures TempScore(t) == 30
  {
    var hs := TempHighs(t);
    assert forall i :: 0 <= i < 5 ==> hs[i] <= 50.0;
  }

  /** Energy per km stays below 1 kWh: at most 28 kWh are used over at least 30 km. */
  lemma TripKwh(duration: real, d: TripDraws, capacity: nat)
    requires DrawsInRange(d) && 1.0 <= duration && capacity <= MaxCapacity
    ensures KwhConsumed(d, Some(capacity)).Some?
    ensures 0.0 <= KwhConsumed(d, Some(capacity)).value < Distance(duration, d)
  {
    TripSoc(d);
    var diff := StartSoc(d) - EndSoc(d);
    ProductBounds(diff / 100.0, 0.0, 0.4, capacity as real, 0.0, 70.0);
    ProductBounds(duration, 1.0, duration, d.speed * 20.0 + 30.0, 30.0, 50.0);
  }

  /** The score of a generated trip: full thermal points, at least 20 for energy and 15 for power and charge. */
  lemma TripScore(duration: real, d: TripDraws, capacity: nat)
    requires DrawsInRange(d) && 1.0 <= duration && capacity <= MaxCapacity
    ensures 80 <= TripScoreOf(duration, d, Some(capacity)) <= 100
  {
    TripPowerValues(d);
    TripTempsOk(d);
    TempScoreOfOk(TempsOf(d));
    TripKwh(duration, d, capacity);
  }

  /** The printed score is the score itself. */
  lemma TripScoreText(duration: real, d: TripDraws, capacity: nat)
    requires DrawsInRange(d) && 1.0 <= duration && capacity <= MaxCapacity
    ensures Within(ToFixed(TripScoreOf(duration, d, Some(capacity)) as real, 0), 80.0, 100.0)
  {
    var score := TripScoreOf(duration, d, Some(capacity));
    TripScore(duration, d, capacity);
    ToFixedOfWhole(score, 0);
  }

  lemma BuildTripSoc(p: Plan, date: string)
    requires PlanOk(p)
    ensures SocOk(BuildTrip(p, date)) && IdleOk(BuildTrip(p, date))
  {
    TripSoc(p.d);
  }

  /** A trip whose times are written from a plan's start and end hours shows them in order. */
  lemma TripClockOk(t: Trip, startHour: real, duration: real)
    requires 0.0 <= startHour && 1.0 <= duration && startHour + duration <= 22.0
    requires t.startTime == ClockText(startHour) && t.endTime == ClockText(startHour + duration)
    ensures TimesOk(t)
  {
    TripTimes(startHour, duration);
  }

  lemma BuildTripPower(p: Plan, date: string)
    requires PlanOk(p)
    ensures PowerOk(BuildTrip(p, date))
  {
    TripPowerValues(p.d);
    TripPower(RatedKw(p.d), AvgKw(p.d), PeakKw(p.d));
  }

  lemma BuildTripScore(p: Plan, date: string)
    requires PlanOk(p) && p.capacity.Some?
    ensures TempsOk(BuildTrip(p, date).temps) && Within(BuildTrip(p, date).efficiencyScore, 80.0, 100.0)
  {
    TripTempsOk(p.d);
    TripScoreText(p.duration, p.d, p.capacity.value);
  }

  /** Every trip the generator builds for a master vehicle satisfies `TripOk`. */
  lemma BuildTripOk(p: Plan, date: string)
    requires PlanOk(p) && p.capacity.Some?
    ensures TripOk(BuildTrip(p, date))
  {
    BuildTripSoc(p, date);
    TripClockOk(BuildTrip(p, date), p.start, p.duration);
    BuildTripPower(p, date);
    BuildTripScore(p, date);
  }

  // ---------------------------------------------------------------------------
  // The trips of one vehicle on one day
  // ---------------------------------------------------------------------------

  /** At most five trips, each taking ten draws, after the count and start-time draws. */
  const MaxTrips: nat := 5
  const MaxDraws: nat := 2 + 10 * MaxTrips

  /** What reading `batteryCapacity` of a vehicle missing from the master table throws. */
  const UnknownVehicleError: string := "Cannot read properties of undefined (reading 'batteryCapacity')"

  /** The nine draws starting at position `p`. */
  function DrawsAt(ds: seq<real>, p: nat): TripDraws
    requires p + 9 <= |ds|
  {
    TripDraws(ds[p], ds[p + 1], ds[p + 2], ds[p + 3], ds[p + 4], ds[p + 5], ds[p + 6], ds[p + 7], ds[p + 8])
  }

  predicate UnitDraws(ds: seq<real>) {
    forall k :: 0 <= k < |ds| ==> 0.0 <= ds[k] < 1.0
  }

  /** The number of trips planned: `Math.max(1, Math.floor(r * 5) + 1)`. */
  function TripCount(r: real): (n: int)
    ensures 0.0 <= r < 1.0 ==> 1 <= n <= MaxTrips
  {
    var n := (r * 5.0).Floor + 1;
    if n < 1 then 1 else n
  }

  /** What one round of the loop does: stop, throw, or plan a trip and move the clock on. */
  datatype Round = Stop | Throw(error: string) | Emit(plan: Plan, endHour: real, next: real)

  /**
   * Loop round `i` with the clock at `current`, the previous trip ending at
   * `lastEnd`, and `ds` the draws still to come: the duration is the first draw;
   * a trip ending after 22:00 stops the loop; otherwise the nine draws after it
   * give the trip, the gap draw moves the clock on, and the vehicle's battery is
   * looked up last.
   */
  function TripRound(ds: seq<real>, vehId: string, i: nat, current: real, lastEnd: Option<real>): Round
    requires |ds| >= 10
  {
    var duration := ds[0] * 3.0 + 1.0;
    var endHour := current + duration;
    if endHour > 22.0 then Stop
    else if !Found(vehId) then Throw(UnknownVehicleError)
    else
      var d := DrawsAt(ds, 1);
      Emit(Plan(i, current, duration, lastEnd, d, CapacityFound(vehId)), endHour, endHour + d.gap * 2.0)
  }

  /** `p ++ rest` on a successful rest; a failure stays a failure. */
  function Prepend(p: seq<Plan>, r: Result<seq<Plan>>): Result<seq<Plan>> {
    match r
    case Success(ps) => Success(p + ps)
    case Failure(e) => Failure(e)
  }

  /** The trip plans from loop round `i` on, when `numTrips` rounds are planned; each round that emits uses ten draws. */
  function PlansFrom(ds: seq<real>, vehId: string, numTrips: nat, i: nat, current: real, lastEnd: Option<real>): Result<seq<Plan>>
    requires i <= numTrips && |ds| >= 10 * (numTrips - i)
    decreases numTrips - i
  {
    if i == numTrips then Success([])
    else
      match TripRound(ds, vehId, i, current, lastEnd)
      case Stop => Success([])
      case Throw(e) => Failure(e)
      case Emit(plan, endHour, next) => Prepend([plan], PlansFrom(ds[10..], vehId, numTrips, i + 1, next, Some(endHour)))
  }

  /** The plans of the whole day: the count, then the start between 8:00 and 12:00, then the rounds. */
  function DayPlans(rs: seq<real>, vehId: string): Result<seq<Plan>>
    requires |rs| == MaxDraws && UnitDraws(rs)
  {
    PlansFrom(rs[2..], vehId, TripCount(rs[0]), 0, 8.0 + rs[1] * 4.0, None)
  }

  /** The trip records of a sequence of plans, in order. */
  function BuildTrips(ps: seq<Plan>, date: string): (ts: seq<Trip>)
    ensures |ts| == |ps|
    ensures forall k :: 0 <= k < |ps| ==> ts[k] == BuildTrip(ps[k], date)
  {
    Map(p => BuildTrip(p, date), ps)
  }

  /** The draws a seeded generator makes for one vehicle on one day. */
  function DayDraws(vehId: string, date: string): (rs: seq<real>)
    ensures |rs| == MaxDraws && UnitDraws(rs)
  {
    Prng.Draws(Prng.InitialState(Seed(date, vehId)), MaxDraws)
  }

  /** The trip records of a planning outcome, or its failure. */
  function TripsOf(r: Result<seq<Plan>>, date: string): Result<seq<Trip>> {
    match r
    case Success(ps) => Success(BuildTrips(ps, date))
    case Failure(e) => Failure(e)
  }

  /** `generateRandomTrips(vehId, date)`: the trips of the day's plans, or what the loop throws. */
  function GenerateTrips(vehId: string, date: string): Result<seq<Trip>> {
    TripsOf(DayPlans(DayDraws(vehId, date), vehId), date)
  }

  lemma PrependNone(r: Result<seq<Plan>>)
    ensures Prepend([], r) == r
  {
    if r.Success? {
      assert [] + r.value == r.value;
    }
  }

  lemma PrependPrepend(p: seq<Plan>, q: seq<Plan>, r: Result<seq<Plan>>)
    ensures Prepend(p, Prepend(q, r)) == Prepend(p + q, r)
  {
    if r.Success? {
      assert p + (q + r.value) == (p + q) + r.value;
    }
  }

  // ---------------------------------------------------------------------------
  // What the day's plans satisfy
  // ---------------------------------------------------------------------------

  /** The loop state before round `i`: the clock is set, and a previous end exists after round 0 and lies at most 2 hours back. */
  predicate ClockOk(i: nat, current: real, lastEnd: Option<real>) {
    0.0 <= current && (i == 0 ==> lastEnd.None?)
    && (lastEnd.Some? ==> 0.0 < lastEnd.value <= current < lastEnd.value + 2.0)
  }

  /** Plans numbered from `i` on, each satisfying `PlanOk` and carrying the battery capacity `capacity`. */
  predicate PlansOk(ps: seq<Plan>, i: nat, capacity: Option<nat>) {
    forall k :: 0 <= k < |ps| ==> ps[k].i == i + k && PlanOk(ps[k]) && ps[k].capacity == capacity
  }

  /**
   * Every plan the rounds from `i` produce is numbered in order, satisfies
   * `PlanOk` and carries what the capacity lookup finds; there are at most
   * `numTrips - i`.
   */
  lemma {:induction false} PlansFromOk(ds: seq<real>, vehId: string, numTrips: nat, i: nat, current: real, lastEnd: Option<real>, ps: seq<Plan>)
    requires i <= numTrips && |ds| >= 10 * (numTrips - i) && UnitDraws(ds)
    requires ClockOk(i, current, lastEnd)
    requires PlansFrom(ds, vehId, numTrips, i, current, lastEnd) == Success(ps)
    ensures |ps| <= numTrips - i
    ensures PlansOk(ps, i, CapacityFound(vehId))
    decreases numTrips - i
  {
    if i < numTrips {
      match TripRound(ds, vehId, i, current, lastEnd)
      case Stop =>
      case Throw(e) =>
      case Emit(plan, endHour, next) =>
        MasterTable();
        var rest := PlansFrom(ds[10..], vehId, numTrips, i + 1, next, Some(endHour));
        assert rest.Success? && ps == [plan] + rest.value;
        PlansFromOk(ds[10..], vehId, numTrips, i + 1, next, Some(endHour), rest.value);
        assert PlanOk(plan);
        assert forall k :: 1 <= k < |ps| ==> ps[k] == rest.value[k - 1];
    }
  }

  /** For a vehicle the lookup finds, whether a master id or an inherited name, no round throws. */
  lemma {:induction false} SuccessOfPlans(ds: seq<real>, vehId: string, numTrips: nat, i: nat, current: real, lastEnd: Option<real>)
    requires i <= numTrips && |ds| >= 10 * (numTrips - i) && Found(vehId)
    ensures PlansFrom(ds, vehId, numTrips, i, current, lastEnd).Success?
    decreases numTrips - i
  {
    if i < numTrips {
      match TripRound(ds, vehId, i, current, lastEnd)
      case Stop =>
      case Throw(e) =>
      case Emit(plan, endHour, next) =>
        SuccessOfPlans(ds[10..], vehId, numTrips, i + 1, next, Some(endHour));
    }
  }

  /**
   * The first round never stops the loop: it starts between 8:00 and 12:00 and
   * lasts 1 to 4 hours, so it ends before 16:00, well within the 22:00 limit.
   * It throws exactly for an id that is neither a master vehicle nor a name
   * every object inherits.
   */
  lemma FirstRoundEmits(rs: seq<real>, vehId: string)
    requires |rs| == MaxDraws && UnitDraws(rs)
    ensures var round := TripRound(rs[2..], vehId, 0, 8.0 + rs[1] * 4.0, None);
      !round.Stop? && (round.Throw? <==> !Found(vehId))
      && (round.Emit? ==>
        8.0 <= round.plan.start < 12.0 && 1.0 <= round.plan.duration < 4.0
        && round.endHour == round.plan.start + round.plan.duration < 16.0)
  {
    assert rs[2..][0] == rs[2];
    assert 0.0 <= rs[1] < 1.0 && 0.0 <= rs[2] < 1.0;
  }

  /**
   * For a vehicle the lookup finds, the day has 1 to 5 plans, numbered from
   * round 0, each satisfying `PlanOk` and carrying the capacity found.
   */
  lemma DayPlansOk(rs: seq<real>, vehId: string)
    requires |rs| == MaxDraws && UnitDraws(rs) && Found(vehId)
    ensures DayPlans(rs, vehId).Success?
    ensures 1 <= |DayPlans(rs, vehId).value| <= MaxTrips
    ensures PlansOk(DayPlans(rs, vehId).value, 0, CapacityFound(vehId))
  {
    var ds, numTrips, start := rs[2..], TripCount(rs[0]), 8.0 + rs[1] * 4.0;
    FirstRoundEmits(rs, vehId);
    var round := TripRound(ds, vehId, 0, start, None);
    SuccessOfPlans(ds[10..], vehId, numTrips, 1, round.next, Some(round.endHour));
    assert DayPlans(rs, vehId) == Prepend([round.plan], PlansFrom(ds[10..], vehId, numTrips, 1, round.next, Some(round.endHour)));
    assert UnitDraws(ds);
    PlansFromOk(ds, vehId, numTrips, 0, start, None, DayPlans(rs, vehId).value);
  }

  /** An id the lookup does not find fails with the lookup error, in the first round. */
  lemma UnknownVehicleFails(vehId: string, date: string)
    requires !Found(vehId)
    ensures GenerateTrips(vehId, date) == Failure(UnknownVehicleError)
  {
    UnknownVehiclePlans(DayDraws(vehId, date), vehId);
  }

  lemma UnknownVehiclePlans(rs: seq<real>, vehId: string)
    requires |rs| == MaxDraws && UnitDraws(rs) && !Found(vehId)
    ensures DayPlans(rs, vehId) == Failure(UnknownVehicleError)
  {
    FirstRoundEmits(rs, vehId);
  }

  /**
   * For a known vehicle, generation succeeds with 1 to 5 trips numbered 1, 2, ...,
   * all on the given date and all satisfying `TripOk`.
   */
  lemma GeneratedTrips(vehId: string, date: string)
    requires vehId in VehicleMaster
    ensures GenerateTrips(vehId, date).Success?
    ensures 1 <= |GenerateTrips(vehId, date).value| <= MaxTrips
    ensures forall k :: 0 <= k < |GenerateTrips(vehId, date).value| ==>
      var t := GenerateTrips(vehId, date).value[k];
      t.tripId == k + 1 && t.date == date && TripOk(t)
  {
    var rs := DayDraws(vehId, date);
    DayPlansOk(rs, vehId);
    var ps := DayPlans(rs, vehId).value;
    var ts := BuildTrips(ps, date);
    forall k | 0 <= k < |ts|
      ensures ts[k].tripId == k + 1 && ts[k].date == date && TripOk(ts[k])
    {
      BuildTripOk(ps[k], date);
    }
  }

  /** With the capacity `undefined`, the energy subscore is 10 over the trip's positive distance, so the score is at most 80. */
  lemma UndefinedCapacityScore(p: Plan, date: string)
    requires PlanOk(p) && p.capacity.None?
    ensures KwhScore(KwhConsumed(p.d, p.capacity), Distance(p.duration, p.d)) == 10
    ensures Value(BuildTrip(p, date).efficiencyScore) <= 80.0
  {
    ProductBounds(p.duration, 1.0, p.duration, p.d.speed * 20.0 + 30.0, 30.0, 50.0);
    var score := TripScoreOf(p.duration, p.d, p.capacity);
    ToFixedOfWhole(score as nat, 0);
  }

  /**
   * An id every object inherits, such as "constructor", does not throw:
   * generation returns 1 to 5 trips numbered 1, 2, ... on the given date, but
   * their energy is NaN, so none scores above 80.
   */
  lemma InheritedNameTrips(vehId: string, date: string)
    requires vehId in InheritedNames
    ensures GenerateTrips(vehId, date).Success?
    ensures 1 <= |GenerateTrips(vehId, date).value| <= MaxTrips
    ensures forall k :: 0 <= k < |GenerateTrips(vehId, date).value| ==>
      var t := GenerateTrips(vehId, date).value[k];
      t.tripId == k + 1 && t.date == date && Value(t.efficiencyScore) <= 80.0
  {
    var rs := DayDraws(vehId, date);
    DayPlansOk(rs, vehId);
    MasterNotInherited();
    var ps := DayPlans(rs, vehId).value;
    var ts := BuildTrips(ps, date);
    forall k | 0 <= k < |ts|
      ensures ts[k].tripId == k + 1 && ts[k].date == date && Value(ts[k].efficiencyScore) <= 80.0
    {
      UndefinedCapacityScore(ps[k], date);
    }
  }

  // ---------------------------------------------------------------------------
  // The generator loop
  // ---------------------------------------------------------------------------

  /** Pushes the record of `plan` onto the records of the plans before it. */
  method PushTrip(trips: seq<Trip>, ghost plans: seq<Plan>, plan: Plan, date: string) returns (trips': seq<Trip>)
    requires trips == BuildTrips(plans, date)
    ensures trips' == BuildTrips(plans + [plan], date)
  {
    trips' := trips + [BuildTrip(plan, date)];
    MapAppend(p => BuildTrip(p, date), plans, plan);
  }

  /** Draws the nine values of one trip from the generator. */
  method DrawTrip(rand: Prng.SeededRandom) returns (d: TripDraws)
    requires rand.Valid() && |rand.pending| >= 9
    modifies rand
    ensures rand.Valid() && rand.pending == old(rand.pending)[9..]
    ensures d == DrawsAt(old(rand.pending), 0)
  {
    ghost var ds := rand.pending;
    assert ds[0..] == ds;
    var gap := Prng.NextOf(rand, ds, 0);
    var rated := Prng.NextOf(rand, ds, 1);
    var avgShare := Prng.NextOf(rand, ds, 2);
    var peakShare := Prng.NextOf(rand, ds, 3);
    var startSoc := Prng.NextOf(rand, ds, 4);
    var socDrop := Prng.NextOf(rand, ds, 5);
    var speed := Prng.NextOf(rand, ds, 6);
    var tempBase := Prng.NextOf(rand, ds, 7);
    var tempSpread := Prng.NextOf(rand, ds, 8);
    d := TripDraws(gap, rated, avgShare, peakShare, startSoc, socDrop, speed, tempBase, tempSpread);
  }

  /**
   * One round of the loop, drawing from the generator: the duration, then the
   * trip's nine values. It stops, throws or emits as `TripRound` says, and so
   * accounts for the first plan of the rounds from `i` on.
   */
  method RunRound(rand: Prng.SeededRandom, vehId: string, numTrips: nat, i: nat, current: real, lastEnd: Option<real>)
    returns (round: Round)
    requires rand.Valid() && i < numTrips && |rand.pending| >= 10 * (numTrips - i)
    modifies rand
    ensures rand.Valid()
    ensures round == TripRound(old(rand.pending), vehId, i, current, lastEnd)
    ensures round.Emit? ==> rand.pending == old(rand.pending)[10..]
  {
    ghost var ds := rand.pending;
    assert ds[0..] == ds;
    var u := Prng.NextOf(rand, ds, 0);
    var duration := u * 3.0 + 1.0;
    var endHour := current + duration;
    if endHour > 22.0 {
      return Stop;
    }
    var d := DrawTrip(rand);
    assert DrawsAt(ds[1..], 0) == DrawsAt(ds, 1);
    if !Found(vehId) {
      return Throw(UnknownVehicleError);
    }
    round := Emit(Plan(i, current, duration, lastEnd, d, CapacityFound(vehId)), endHour, endHour + d.gap * 2.0);
    assert ds[1..][9..] == ds[10..];
  }

  /**
   * The loop of `generateRandomTrips`: runs rounds from the start hour until
   * `numTrips` trips are pushed or a trip would end after 22:00.
   */
  method RunRounds(rand: Prng.SeededRandom, vehId: string, date: string, numTrips: nat, start: real)
    returns (r: Result<seq<Trip>>)
    requires rand.Valid() && |rand.pending| >= 10 * numTrips
    modifies rand
    ensures r == TripsOf(PlansFrom(old(rand.pending), vehId, numTrips, 0, start, None), date)
  {
    var currentTime := start;
    var lastEndTime: Option<real> := None;
    ghost var day := PlansFrom(rand.pending, vehId, numTrips, 0, start, None);
    ghost var plans: seq<Plan> := [];
    var trips: seq<Trip> := [];
    PrependNone(day);
    var i := 0;
    while i < numTrips
      invariant 0 <= i <= numTrips
      invariant rand.Valid() && |rand.pending| >= 10 * (numTrips - i)
      invariant Prepend(plans, PlansFrom(rand.pending, vehId, numTrips, i, currentTime, lastEndTime)) == day
      invariant trips == BuildTrips(plans, date)
      decreases numTrips - i
    {
      ghost var ds := rand.pending;
      var round := RunRound(rand, vehId, numTrips, i, currentTime, lastEndTime);
      match round
      case Stop =>
        break;
      case Throw(e) =>
        return Failure(e);
      case Emit(plan, endHour, next) =>
        PrependPrepend(plans, [plan], PlansFrom(ds[10..], vehId, numTrips, i + 1, next, Some(endHour)));
        trips := PushTrip(trips, plans, plan, date);
        plans := plans + [plan];
        lastEndTime := Some(endHour);
        currentTime := next;
        i := i + 1;
    }
    assert plans + [] == plans;
    r := Success(trips);
  }

  /** Draws the count and the start time from the seeded generator, then runs the rounds. */
  method RunDay(rand: Prng.SeededRandom, vehId: string, date: string) returns (r: Result<seq<Trip>>)
    requires rand.Valid() && |rand.pending| == MaxDraws && UnitDraws(rand.pending)
    modifies rand
    ensures r == TripsOf(DayPlans(old(rand.pending), vehId), date)
  {
    ghost var rs := rand.pending;
    assert rs[0..] == rs;
    var first := Prng.NextOf(rand, rs, 0);
    var numTrips := TripCount(first);
    var start := Prng.NextOf(rand, rs, 1);
    r := RunRounds(rand, vehId, date, numTrips, 8.0 + start * 4.0);
  }

  /** `generateRandomTrips`: seeds the generator from the date and the vehicle id, then plans the day. */
  method GenerateRandomTrips(vehId: string, date: string) returns (r: Result<seq<Trip>>)
    ensures r == GenerateTrips(vehId, date)
  {
    var rand := new Prng.SeededRandom(Seed(date, vehId), MaxDraws);
    r := RunDay(rand, vehId, date);
  }
}
