/**
 * The motor page's mock telemetry: the sample generator with its `||`
 * fallbacks, the ten-point trend window, the torque and speed gauges, the
 * status colour and icon, and the page object that a timer ticks.
 *
 * JavaScript `a || b` keeps `a` when it is truthy. Every reading of a sample is
 * a number or a string, and `undefined`, `0` and `""` are all falsy, so the
 * empty base object `{}` behaves exactly like a sample whose numbers are `0`
 * and whose texts are empty (`EmptyBase`).
 */
module Motor {
  import opened Wrappers
  import opened JsText
  import opened JsNumber

  datatype MotorSample = MotorSample(
    torqueLimit: int, torqueValue: int, motorSpeed: int,
    rotationDirection: string, operationMode: string,
    mcuEnable: string, mcuDrivePermit: string, mcuOffPermit: string,
    totalFaultStatus: string,
    acCurrent: int, acVoltage: int, dcVoltage: int,
    motorTemp: int, mcuTemp: int, radiatorTemp: int,
    motorQuantity: int, motorNum: string, mcuManufacturer: string,
    timestamp: int)

  /** `{}`: every field missing, hence falsy. */
  const EmptyBase := MotorSample(0, 0, 0, "", "", "", "", "", "", 0, 0, 0, 0, 0, 0, 0, "", "", 0)

  /**
   * The random draws one call may use: `Math.floor(Math.random() * k)` for each
   * numeric fallback, and the two coin flips `Math.random() > 0.5` and
   * `Math.random() > 0.8`.
   */
  datatype Draws = Draws(
    torqueLimit: int, torqueValue: int, motorSpeed: int, forward: bool, warning: bool,
    acCurrent: int, acVoltage: int, dcVoltage: int, motorTemp: int, mcuTemp: int, radiatorTemp: int)

  predicate DrawsOk(d: Draws) {
    0 <= d.torqueLimit < 50 && 0 <= d.torqueValue < 30 && 0 <= d.motorSpeed < 500
    && 0 <= d.acCurrent < 20 && 0 <= d.acVoltage < 50 && 0 <= d.dcVoltage < 5
    && 0 <= d.motorTemp < 10 && 0 <= d.mcuTemp < 8 && 0 <= d.radiatorTemp < 5
  }

  /** `x || fallback` on a number. */
  function OrNumber(x: int, fallback: int): int {
    if x != 0 then x else fallback
  }

  /** `x || fallback` on a text. */
  function OrText(x: string, fallback: string): string {
    if x != "" then x else fallback
  }

  /** `generateMockMotorData(base)` for the vehicle in the page's path. */
  function Generate(base: MotorSample, vehicle: string, d: Draws, timestamp: int): MotorSample {
    var main := vehicle == "VCL001";
    MotorSample(
      OrNumber(base.torqueLimit, 200 + d.torqueLimit),
      OrNumber(base.torqueValue, 150 + d.torqueValue),
      OrNumber(base.motorSpeed, 3000 + d.motorSpeed),
      OrText(base.rotationDirection, if d.forward then "Forward" else "Reverse"),
      OrText(base.operationMode, "Drive"),
      OrText(base.mcuEnable, "Enabled"),
      OrText(base.mcuDrivePermit, "Permitted"),
      OrText(base.mcuOffPermit, "Permitted"),
      OrText(base.totalFaultStatus, if d.warning then "Warning" else "Normal"),
      OrNumber(base.acCurrent, 100 + d.acCurrent),
      OrNumber(base.acVoltage, 400 + d.acVoltage),
      OrNumber(base.dcVoltage, 48 + d.dcVoltage),
      OrNumber(base.motorTemp, 60 + d.motorTemp),
      OrNumber(base.mcuTemp, 50 + d.mcuTemp),
      OrNumber(base.radiatorTemp, 45 + d.radiatorTemp),
      if main then 2 else 1,
      if main then "Motor 1" else "Motor A",
      if main then "CETL Corp" else "MotorTech Inc",
      timestamp)
  }

  /** Every reading of a sample is truthy, so a later call keeps it. */
  predicate Truthy(s: MotorSample) {
    s.torqueLimit != 0 && s.torqueValue != 0 && s.motorSpeed != 0
    && s.rotationDirection != "" && s.operationMode != "" && s.mcuEnable != ""
    && s.mcuDrivePermit != "" && s.mcuOffPermit != "" && s.totalFaultStatus != ""
    && s.acCurrent != 0 && s.acVoltage != 0 && s.dcVoltage != 0
    && s.motorTemp != 0 && s.mcuTemp != 0 && s.radiatorTemp != 0
  }

  /** The ranges a sample generated from `{}` falls in. */
  predicate InRange(s: MotorSample) {
    200 <= s.torqueLimit < 250 && 150 <= s.torqueValue < 180 && 3000 <= s.motorSpeed < 3500
    && s.rotationDirection in {"Forward", "Reverse"} && s.operationMode == "Drive"
    && s.mcuEnable == "Enabled" && s.mcuDrivePermit == "Permitted" && s.mcuOffPermit == "Permitted"
    && s.totalFaultStatus in {"Warning", "Normal"}
    && 100 <= s.acCurrent < 120 && 400 <= s.acVoltage < 450 && 48 <= s.dcVoltage < 53
    && 60 <= s.motorTemp < 70 && 50 <= s.mcuTemp < 58 && 45 <= s.radiatorTemp < 50
  }

  /** With an empty base every reading comes from its draw, inside its range. */
  lemma FreshSample(vehicle: string, d: Draws, timestamp: int)
    requires DrawsOk(d)
    ensures var s := Generate(EmptyBase, vehicle, d, timestamp);
      InRange(s) && Truthy(s) && s.timestamp == timestamp
      && s.torqueLimit == 200 + d.torqueLimit && s.torqueValue == 150 + d.torqueValue
      && s.motorSpeed == 3000 + d.motorSpeed && s.motorTemp == 60 + d.motorTemp
  {
  }

  /** The vehicle-dependent fields ignore the base, the draws and the time. */
  lemma VehicleFieldsIgnoreBase(b1: MotorSample, b2: MotorSample, vehicle: string, d1: Draws, d2: Draws, t1: int, t2: int)
    ensures var s1, s2 := Generate(b1, vehicle, d1, t1), Generate(b2, vehicle, d2, t2);
      s1.motorQuantity == s2.motorQuantity && s1.motorNum == s2.motorNum
      && s1.mcuManufacturer == s2.mcuManufacturer
    ensures Generate(b1, vehicle, d1, t1).motorQuantity == 2 <==> vehicle == "VCL001"
  {
  }

  /** A truthy base is copied: only the vehicle fields and the timestamp are recomputed. */
  lemma ReusesBase(base: MotorSample, vehicle: string, d: Draws, timestamp: int)
    requires Truthy(base)
    ensures var s := Generate(base, vehicle, d, timestamp);
      s.torqueLimit == base.torqueLimit && s.torqueValue == base.torqueValue
      && s.motorSpeed == base.motorSpeed && s.rotationDirection == base.rotationDirection
      && s.totalFaultStatus == base.totalFaultStatus && s.acCurrent == base.acCurrent
      && s.acVoltage == base.acVoltage && s.dcVoltage == base.dcVoltage
      && s.motorTemp == base.motorTemp && s.mcuTemp == base.mcuTemp
      && s.radiatorTemp == base.radiatorTemp && s.timestamp == timestamp
  {
  }

  /**
   * Feeding a generated sample back as the base reproduces it with only the
   * timestamp changed: the draws of later ticks are never used.
   */
  lemma GeneratedIsFixedPoint(vehicle: string, d0: Draws, t0: int, d: Draws, t: int)
    requires DrawsOk(d0)
    ensures var s := Generate(EmptyBase, vehicle, d0, t0);
      Generate(s, vehicle, d, t) == s.(timestamp := t)
  {
    FreshSample(vehicle, d0, t0);
  }

  // ---------------------------------------------------------------------------
  // Gauges
  // ---------------------------------------------------------------------------

  /** The "Available" slice of the torque chart: limit minus value. */
  function AvailableTorque(s: MotorSample): int {
    s.torqueLimit - s.torqueValue
  }

  /**
   * `torqueValue / torqueLimit * 100`, before `toFixed(1)`; a zero limit (as
   * in `{}`, before the first sample) gives NaN or an infinity, here `None`.
   */
  function TorquePercent(s: MotorSample): Option<real> {
    if s.torqueLimit == 0 then None
    else Some(s.torqueValue as real / s.torqueLimit as real * 100.0)
  }

  /** `motorSpeed / 5000 * 100`, before `toFixed(1)`. */
  function SpeedPercent(s: MotorSample): real {
    s.motorSpeed as real / 5000.0 * 100.0
  }

  /** A product with a positive factor keeps its bounds once divided by that factor. */
  lemma ScaledBetween(p: real, l: real, q: real, lo: real, hi: real)
    requires l > 0.0 && q == p * l && lo * l < q < hi * l
    ensures lo < p < hi
  {
    assert (p - lo) * l > 0.0 && (hi - p) * l > 0.0;
  }

  /**
   * For a sample in range the available torque is positive and the torque
   * gauge lies strictly between 60 and 90 per cent (within [60, 90] once
   * printed with one decimal); the speed gauge lies in [60, 70).
   */
  lemma GaugeBounds(s: MotorSample)
    requires InRange(s)
    ensures AvailableTorque(s) > 0
    ensures TorquePercent(s).Some? && 60.0 < TorquePercent(s).value < 90.0
    ensures 60.0 <= Value(ToFixed(TorquePercent(s).value, 1)) <= 90.0
    ensures 60.0 <= SpeedPercent(s) < 70.0
  {
    var v, l := s.torqueValue as real, s.torqueLimit as real;
    var p := TorquePercent(s).value;
    assert p * l == v * 100.0;
    assert 60.0 * l < v * 100.0 < 90.0 * l;
    ScaledBetween(p, l, v * 100.0, 60.0, 90.0);
    ToFixedWithin(p, 60, 90, 1);
  }

  // ---------------------------------------------------------------------------
  // Status colour and icon
  // ---------------------------------------------------------------------------

  datatype StatusKind = NormalStatus | WarningStatus | ErrorStatus | OtherStatus

  datatype Icon = CheckCircle | AlertTriangle | Activity

  /** `switch (status?.toLowerCase())`; a missing status takes the default case. */
  function StatusKindOf(status: Option<string>): StatusKind {
    match status
    case None => OtherStatus
    case Some(s) =>
      var l := ToLower(s);
      if l == "normal" then NormalStatus
      else if l == "warning" then WarningStatus
      else if l == "error" then ErrorStatus
      else OtherStatus
  }

  function StatusColor(status: Option<string>): string {
    match StatusKindOf(status)
    case NormalStatus => "text-green-400"
    case WarningStatus => "text-yellow-400"
    case ErrorStatus => "text-red-400"
    case OtherStatus => "text-gray-400"
  }

  function StatusIcon(status: Option<string>): Icon {
    match StatusKindOf(status)
    case NormalStatus => CheckCircle
    case WarningStatus => AlertTriangle
    case ErrorStatus => AlertTriangle
    case OtherStatus => Activity
  }

  lemma {:induction false} ToLowerIdempotent(s: string)
    ensures ToLower(ToLower(s)) == ToLower(s)
  {
    var l := ToLower(s);
    forall i | 0 <= i < |l|
      ensures ToLower(l)[i] == l[i]
    {
    }
  }

  /** The classification ignores case: a status and its lower-case form agree. */
  lemma StatusIgnoresCase(s: string)
    ensures StatusKindOf(Some(s)) == StatusKindOf(Some(ToLower(s)))
    ensures StatusColor(Some(s)) == StatusColor(Some(ToLower(s)))
    ensures StatusIcon(Some(s)) == StatusIcon(Some(ToLower(s)))
  {
    ToLowerIdempotent(s);
  }

  /** Colour and icon tell the same story: green with the check, grey with the activity icon. */
  lemma ColorMatchesIcon(status: Option<string>)
    ensures StatusIcon(status) == CheckCircle <==> StatusColor(status) == "text-green-400"
    ensures StatusIcon(status) == AlertTriangle <==> StatusColor(status) in {"text-yellow-400", "text-red-400"}
    ensures StatusIcon(status) == Activity <==> StatusColor(status) == "text-gray-400"
  {
  }

  lemma LowerWarning()
    ensures ToLower("Warning") == "warning"
  {
    assert ToLower("Warning") == ['w'] + ToLower("arning");
  }

  lemma LowerNormal()
    ensures ToLower("Normal") == "normal"
  {
    assert ToLower("Normal") == ['n'] + ToLower("ormal");
  }

  /** A generated sample's fault status reads as normal or as a warning, never as an error. */
  lemma GeneratedStatus(s: MotorSample)
    requires InRange(s)
    ensures StatusKindOf(Some(s.totalFaultStatus)) in {NormalStatus, WarningStatus}
  {
    if s.totalFaultStatus == "Warning" {
      LowerWarning();
    } else {
      LowerNormal();
    }
  }

  // ---------------------------------------------------------------------------
  // The trend window
  // ---------------------------------------------------------------------------

  /** One point of the trend chart; the locale time text is kept as the timestamp. */
  datatype Point = Point(time: int, torque: real, speed: real, temp: real)

  /** `parseFloat(x) || 0` on a number: NaN and zero give zero, which is the number itself. */
  function PointOf(s: MotorSample): Point {
    Point(s.timestamp, s.torqueValue as real, s.motorSpeed as real, s.motorTemp as real)
  }

  /** `xs.slice(-n)` for `n > 0`: the last `n` elements, or all of them. */
  function Last<T>(xs: seq<T>, n: nat): (r: seq<T>)
    ensures |r| <= n && |r| <= |xs|
    ensures |xs| <= n ==> r == xs
    ensures r == xs[|xs| - |r|..]
  {
    if |xs| <= n then xs else xs[|xs| - n..]
  }

  /** The history updater: `[...prev, point].slice(-10)`. */
  function Window(history: seq<Point>, p: Point): (r: seq<Point>)
    ensures |r| <= 10 && |r| > 0 && r[|r| - 1] == p
    ensures |history| < 10 ==> r == history + [p]
  {
    Last(history + [p], 10)
  }

  /** The history after the updater has seen `points` in turn, from an empty one. */
  function HistoryOf(points: seq<Point>): seq<Point> {
    if |points| == 0 then [] else Window(HistoryOf(points[..|points| - 1]), points[|points| - 1])
  }

  lemma LastAppend<T>(xs: seq<T>, x: T, n: nat)
    requires n > 0
    ensures Last(Last(xs, n) + [x], n) == Last(xs + [x], n)
  {
    if |xs| > n {
      var l := Last(xs, n);
      assert Last(l + [x], n) == (l + [x])[1..];
      assert (l + [x])[1..] == (xs + [x])[|xs| + 1 - n..];
    }
  }

  /** The history is the last ten points received, in the order they arrived. */
  lemma {:induction false} HistoryIsLastTen(points: seq<Point>)
    ensures HistoryOf(points) == Last(points, 10)
  {
    if |points| > 0 {
      var prefix, p := points[..|points| - 1], points[|points| - 1];
      HistoryIsLastTen(prefix);
      assert prefix + [p] == points;
      LastAppend(prefix, p, 10);
    }
  }

  // ---------------------------------------------------------------------------
  // The page
  // ---------------------------------------------------------------------------

  /** Every point of the window repeats the sample's readings. */
  predicate Repeats(history: seq<Point>, s: MotorSample) {
    forall k :: 0 <= k < |history| ==>
      history[k].torque == s.torqueValue as real && history[k].speed == s.motorSpeed as real
      && history[k].temp == s.motorTemp as real
  }

  class MotorMonitor {
    const vehicle: string
    var motor: MotorSample
    var base: MotorSample
    var history: seq<Point>
    var loading: bool
    var isInitialLoad: bool
    var error: Option<string>
    var connected: bool

    /**
     * Once connected, the shown sample is the current base, in range, and
     * every point of the window carries the same readings.
     */
    predicate Valid()
      reads this
    {
      |history| <= 10
      && (connected ==> motor == base && InRange(base) && Truthy(base) && |history| > 0 && Repeats(history, base))
      && (!connected ==> history == [])
    }

    /** The state before the first effect: `{}` shown, loading, an empty history. */
    constructor(vehicle: string)
      ensures Valid() && this.vehicle == vehicle
      ensures motor == EmptyBase && history == [] && loading && isInitialLoad
      ensures error == None && !connected
    {
      this.vehicle := vehicle;
      motor := EmptyBase;
      base := EmptyBase;
      history := [];
      loading := true;
      isInitialLoad := true;
      error := None;
      connected := false;
    }

    /** The effect without a token: an error and no more loading. */
    method NoToken()
      requires Valid()
      modifies this`error, this`loading
      ensures Valid() && error == Some("No authentication token provided") && !loading
    {
      error := Some("No authentication token provided");
      loading := false;
    }

    /** `connectWebSocket`: the first sample, generated from `{}`, is shown and added to the window. */
    method Connect(d: Draws, timestamp: int)
      requires Valid() && !connected && DrawsOk(d)
      modifies this`motor, this`base, this`history, this`loading, this`isInitialLoad, this`connected
      ensures Valid() && connected
      ensures motor == Generate(EmptyBase, vehicle, d, timestamp) && base == motor
      ensures history == Window(old(history), PointOf(motor)) && history == [PointOf(motor)]
      ensures !loading && !isInitialLoad
    {
      FreshSample(vehicle, d, timestamp);
      var sample := Generate(EmptyBase, vehicle, d, timestamp);
      motor := sample;
      history := Window(history, PointOf(sample));
      base := sample;
      connected := true;
      // The effect reads `isInitialLoad` as it was when the page mounted: true.
      isInitialLoad := false;
      loading := false;
    }

    /**
     * One timer tick: a sample generated from the previous one is shown and
     * appended to the window. Because the previous sample is truthy throughout,
     * the new one repeats it with only the timestamp changed.
     */
    method Tick(d: Draws, timestamp: int)
      requires Valid() && connected
      modifies this`motor, this`base, this`history, this`loading, this`isInitialLoad
      ensures Valid() && connected
      ensures motor == Generate(old(base), vehicle, d, timestamp) && base == motor
      ensures motor == old(base).(motorQuantity := motor.motorQuantity, motorNum := motor.motorNum,
        mcuManufacturer := motor.mcuManufacturer, timestamp := timestamp)
      ensures history == Window(old(history), PointOf(motor))
      ensures !isInitialLoad && !loading
    {
      ReusesBase(base, vehicle, d, timestamp);
      var updated := Generate(base, vehicle, d, timestamp);
      motor := updated;
      history := Window(history, PointOf(updated));
      base := updated;
      // The timer callback closes over the mount-time `isInitialLoad`, which is
      // true, so every tick clears both flags again.
      isInitialLoad := false;
      loading := false;
    }
  }
}
