/**
 * The trip table of the daily report: the search filter (`filterTrips`), the
 * column sort (`sortData`) with the comparator the page hands to
 * `Array.prototype.sort`, the sort configuration a column header click sets
 * (`handleSort`), and the rows a vehicle's table shows.
 */
module TripTable {
  import opened Wrappers
  import opened JsText
  import opened JsNumber
  import opened Trips

  // ---------------------------------------------------------------------------
  // Search
  // ---------------------------------------------------------------------------

  /** A trip matches an empty query, a query its date contains, or a query equal to its id's text. */
  predicate Matches(t: Trip, query: string) {
    query == "" || Contains(t.date, query) || IntToString(t.tripId) == query
  }

  /** `filterTrips`: the matching trips, in their original order. */
  function FilterTrips(trips: seq<Trip>, query: string): (r: seq<Trip>)
    ensures |r| <= |trips|
    ensures multiset(r) <= multiset(trips)
    ensures forall t :: t in r <==> t in trips && Matches(t, query)
  {
    if |trips| == 0 then []
    else
      var rest := FilterTrips(trips[..|trips| - 1], query);
      var t := trips[|trips| - 1];
      assert trips == trips[..|trips| - 1] + [t];
      if Matches(t, query) then rest + [t] else rest
  }

  /** The filter keeps the trips' order: filtering two runs is filtering each. */
  lemma {:induction false} FilterTripsAppend(a: seq<Trip>, b: seq<Trip>, query: string)
    ensures FilterTrips(a + b, query) == FilterTrips(a, query) + FilterTrips(b, query)
    decreases |b|
  {
    if |b| > 0 {
      var b' := b[..|b| - 1];
      assert (a + b)[..|a + b| - 1] == a + b';
      FilterTripsAppend(a, b', query);
    } else {
      assert a + b == a;
    }
  }

  /** A matching trip is kept as often as it occurs; any other trip is dropped. */
  lemma {:induction false} FilterTripsCounts(trips: seq<Trip>, query: string, t: Trip)
    ensures multiset(FilterTrips(trips, query))[t] == if Matches(t, query) then multiset(trips)[t] else 0
  {
    if |trips| > 0 {
      var init, last := trips[..|trips| - 1], trips[|trips| - 1];
      assert trips == init + [last];
      assert multiset(trips) == multiset(init) + multiset{last};
      var rest := FilterTrips(init, query);
      assert FilterTrips(trips, query) == if Matches(last, query) then rest + [last] else rest;
      FilterTripsCounts(init, query, t);
    }
  }

  /** An empty search shows every trip, in order. */
  lemma {:induction false} EmptyQueryKeepsAll(trips: seq<Trip>)
    ensures FilterTrips(trips, "") == trips
  {
    if |trips| > 0 {
      EmptyQueryKeepsAll(trips[..|trips| - 1]);
      assert trips == trips[..|trips| - 1] + [trips[|trips| - 1]];
    }
  }

  lemma {:induction false} ContainsItself(s: string)
    ensures Contains(s, s)
  {
    assert IsPrefix(s, s);
  }

  /** Searching for a trip's own date keeps that trip. */
  lemma DateQueryFindsTrip(trips: seq<Trip>, t: Trip)
    requires t in trips
    ensures t in FilterTrips(trips, t.date)
  {
    ContainsItself(t.date);
  }

  // ---------------------------------------------------------------------------
  // Values the comparator reads
  // ---------------------------------------------------------------------------

  /** A comparator operand: a number, a string, NaN or undefined. */
  datatype SortValue = Num(x: real) | Str(s: string) | NaN | Undefined

  /** `parseFloat` of a string: NaN when no number can be read from it. */
  function ParsedText(s: string): SortValue {
    match ParseFloat(s)
    case Some(x) => Num(x)
    case None => NaN
  }

  /** `parseFloat(v || 0)`: an empty string, NaN and undefined all become 0. */
  function ParsedOrZero(v: SortValue): SortValue {
    match v
    case Num(x) => Num(x)
    case Str(s) => if s == "" then Num(0.0) else ParsedText(s)
    case NaN => Num(0.0)
    case Undefined => Num(0.0)
  }

  /** The sortable columns of the trip table, one per clickable header. */
  datatype Column =
    | TripId | Date | StartTime | EndTime | TotalHours | AvgKw | RatedKw | PeakKw | StartSoc | EndSoc
    | KwhConsumed | AvgKwh | MotorTemp | McuTemp | BatteryTemp | DcdcTemp | HydraulicOilTemp | EfficiencyScore

  /** The key a header passes to `handleSort`; in no key is a 'T' followed by an 'e' except before "mp". */
  function Key(c: Column): (k: string)
    ensures !TempReading(c) ==> forall i :: 0 <= i < |k| - 1 ==> !(k[i] == 'T' && k[i + 1] == 'e')
  {
    match c
    case TripId => "tripId"
    case Date => "date"
    case StartTime => "startTime"
    case EndTime => "endTime"
    case TotalHours => "totalHours"
    case AvgKw => "avgKw"
    case RatedKw => "ratedKw"
    case PeakKw => "peakKw"
    case StartSoc => "startSoc"
    case EndSoc => "endSoc"
    case KwhConsumed => "kwhConsumed"
    case AvgKwh => "avgKwh"
    case MotorTemp => "motorTemp"
    case McuTemp => "mcuTemp"
    case BatteryTemp => "batteryTemp"
    case DcdcTemp => "dcdcTemp"
    case HydraulicOilTemp => "hydraulicOilTemp"
    case EfficiencyScore => "efficiencyScore"
  }

  /** `a[key]` for a trip record: the field of that name, undefined where the record has none. */
  function Field(t: Trip, c: Column): SortValue {
    match c
    case TripId => Num(t.tripId as real)
    case Date => Str(t.date)
    case StartTime => Str(t.startTime)
    case EndTime => Str(t.endTime)
    case AvgKw => Str(Text(t.avgKw))
    case RatedKw => Str(Text(t.ratedKw))
    case PeakKw => Str(Text(t.peakKw))
    case StartSoc => Num(t.startSoc as real)
    case EndSoc => Num(t.endSoc as real)
    case EfficiencyScore => Str(Text(t.efficiencyScore))
    case _ => Undefined
  }

  /** The columns compared through `parseFloat(a[key] || 0)`. */
  predicate ParsedColumn(c: Column) {
    c == TotalHours || c == KwhConsumed || c == AvgKwh || c == EfficiencyScore
  }

  /** The property names of a trip's `temps` object. */
  predicate TempsName(name: string) {
    name == "motor" || name == "mcu" || name == "battery" || name == "dcdc" || name == "hydraulicOil"
  }

  function TempsField(temps: Temps, name: string): TempRange
    requires TempsName(name)
  {
    if name == "motor" then temps.motor
    else if name == "mcu" then temps.mcu
    else if name == "battery" then temps.battery
    else if name == "dcdc" then temps.dcdc
    else temps.hydraulicOil
  }

  /**
   * How a temperature column names its `temps` entry: the page removes "Temp"
   * from the column key and lower-cases the rest (`lowerCase`); without the
   * lower-casing the key names the entry itself.
   */
  datatype Reader = Reader(column: Column, lowerCase: bool)

  function TempsKey(r: Reader): string {
    var stem := ReplaceFirst(Key(r.column), "Temp", "");
    if r.lowerCase then ToLower(stem) else stem
  }

  /** The columns `key.includes('Temp')` sends to the temperature readings. */
  predicate TempColumn(c: Column) {
    !ParsedColumn(c) && Contains(Key(c), "Temp")
  }

  /**
   * Where the comparator finds a column's value: a field as it is, a field
   * through `parseFloat(… || 0)`, the maximum of a temperature entry, or a
   * temperature entry that does not exist.
   */
  datatype Source = Plain(column: Column) | Parsed(column: Column) | TempHigh(name: string) | Missing

  function SourceOf(r: Reader): Source {
    if ParsedColumn(r.column) then Parsed(r.column)
    else if TempColumn(r.column) then (if TempsName(TempsKey(r)) then TempHigh(TempsKey(r)) else Missing)
    else Plain(r.column)
  }

  /** The comparator can read the column: it is not a temperature column, or its entry exists. */
  predicate Readable(r: Reader) {
    !SourceOf(r).Missing?
  }

  function Read(src: Source, t: Trip): SortValue {
    match src
    case Plain(c) => Field(t, c)
    case Parsed(c) => ParsedOrZero(Field(t, c))
    case TempHigh(name) => if TempsName(name) then ParsedText(Text(TempsField(t.temps, name).high)) else Undefined
    case Missing => Undefined
  }

  /** The value the comparator compares for trip `t` (undefined where reading would throw). */
  function ValueOf(r: Reader, t: Trip): SortValue {
    Read(SourceOf(r), t)
  }

  /** The message JavaScript throws when indexing the missing `temps` entry. */
  const MissingTempsError: string := "Cannot read properties of undefined (reading '1')"

  // ---------------------------------------------------------------------------
  // The comparator
  // ---------------------------------------------------------------------------

  /** `a > b`: numbers by size, strings by code units; NaN and undefined are never greater or smaller. */
  predicate Greater(a: SortValue, b: SortValue) {
    match (a, b)
    case (Num(x), Num(y)) => x > y
    case (Str(s), Str(u)) => StrLt(u, s)
    case _ => false
  }

  /**
   * The comparator: ascending returns `a > b ? 1 : -1`, descending `a < b ? 1 : -1`.
   * It never returns 0.
   */
  function Compare(ascending: bool, a: SortValue, b: SortValue): (c: int)
    ensures c == 1 || c == -1
  {
    if ascending then (if Greater(a, b) then 1 else -1)
    else (if Greater(b, a) then 1 else -1)
  }

  /** The comparator lets `a` stay before `b`. */
  predicate InOrder(ascending: bool, a: SortValue, b: SortValue) {
    Compare(ascending, a, b) < 0
  }

  /** Numbers, strings, and the values that compare with nothing. */
  function Kind(v: SortValue): nat {
    match v
    case Num(_) => 0
    case Str(_) => 1
    case _ => 2
  }

  /** Among values of one kind, the comparator's order is total and transitive. */
  lemma InOrderTotal(ascending: bool, a: SortValue, b: SortValue)
    requires Kind(a) == Kind(b)
    ensures InOrder(ascending, a, b) || InOrder(ascending, b, a)
  {
    if a.Str? && StrLt(b.s, a.s) {
      StrLtAsymmetric(b.s, a.s);
    }
  }

  lemma InOrderTransitive(ascending: bool, a: SortValue, b: SortValue, c: SortValue)
    requires Kind(a) == Kind(b) == Kind(c)
    requires InOrder(ascending, a, b) && InOrder(ascending, b, c)
    ensures InOrder(ascending, a, c)
  {
    if a.Str? {
      var x, y, z := a.s, b.s, c.s;
      if ascending {
        NotGreaterIsLe(x, y);
        NotGreaterIsLe(y, z);
        StrLeTransitive(x, y, z);
        StrLtIrreflexive(x);
        if StrLt(x, z) {
          StrLtAsymmetric(x, z);
        }
      } else {
        NotGreaterIsLe(y, x);
        NotGreaterIsLe(z, y);
        StrLeTransitive(z, y, x);
        StrLtIrreflexive(x);
        if StrLt(z, x) {
          StrLtAsymmetric(z, x);
        }
      }
    }
  }

  /** Every trip gives a column's value of the same kind, so the comparator orders a column totally. */
  lemma ColumnKind(r: Reader, a: Trip, b: Trip)
    ensures Kind(ValueOf(r, a)) == Kind(ValueOf(r, b))
  {
    ReadKind(SourceOf(r), a, b);
  }

  lemma ReadKind(src: Source, a: Trip, b: Trip)
    requires src.Parsed? ==> ParsedColumn(src.column)
    ensures Kind(Read(src, a)) == Kind(Read(src, b))
  {
    match src
    case Plain(c) =>
    case Parsed(c) => ParsedKind(c, a, b);
    case TempHigh(name) => TempHighKind(name, a, b);
    case Missing =>
  }

  lemma ParsedKind(c: Column, a: Trip, b: Trip)
    requires ParsedColumn(c)
    ensures Read(Parsed(c), a).Num? && Read(Parsed(c), b).Num?
  {
    if c == EfficiencyScore {
      FixedParses(a.efficiencyScore);
      FixedParses(b.efficiencyScore);
    }
  }

  lemma TempHighKind(name: string, a: Trip, b: Trip)
    ensures Kind(Read(TempHigh(name), a)) == Kind(Read(TempHigh(name), b))
  {
    if TempsName(name) {
      FixedParses(TempsField(a.temps, name).high);
      FixedParses(TempsField(b.temps, name).high);
    }
  }

  /** A toFixed text is never empty and parses back to its number. */
  lemma FixedParses(f: Fixed)
    ensures Text(f) != "" && ParsedText(Text(f)) == Num(Value(f))
  {
    ParseText(f);
  }

  // ---------------------------------------------------------------------------
  // Sorting
  // ---------------------------------------------------------------------------

  /** Every trip stays before every later one by the comparator's verdict. */
  predicate Sorted(r: Reader, ascending: bool, s: seq<Trip>) {
    forall i, j :: 0 <= i < j < |s| ==> InOrder(ascending, ValueOf(r, s[i]), ValueOf(r, s[j]))
  }

  /** Inserts `x` before the first trip the comparator does not put ahead of it. */
  function Insert(r: Reader, ascending: bool, x: Trip, ys: seq<Trip>): (zs: seq<Trip>)
    ensures multiset(zs) == multiset(ys) + multiset{x}
  {
    if |ys| == 0 then [x]
    else if InOrder(ascending, ValueOf(r, x), ValueOf(r, ys[0])) then [x] + ys
    else
      assert ys == [ys[0]] + ys[1..];
      [ys[0]] + Insert(r, ascending, x, ys[1..])
  }

  /**
   * An insertion sort by the page's comparator. The order that
   * `Array.prototype.sort` gives rows which compare as ties is up to the
   * engine; this sort puts a later row first.
   */
  function SortBy(r: Reader, ascending: bool, ts: seq<Trip>): (s: seq<Trip>)
    ensures multiset(s) == multiset(ts)
  {
    if |ts| == 0 then []
    else
      assert ts == ts[..|ts| - 1] + [ts[|ts| - 1]];
      Insert(r, ascending, ts[|ts| - 1], SortBy(r, ascending, ts[..|ts| - 1]))
  }

  /** Two readers that give every trip the same value sort alike. */
  lemma {:induction false} SortBySameValues(r1: Reader, r2: Reader, ascending: bool, ts: seq<Trip>)
    requires forall t :: ValueOf(r1, t) == ValueOf(r2, t)
    ensures SortBy(r1, ascending, ts) == SortBy(r2, ascending, ts)
  {
    if |ts| > 0 {
      SortBySameValues(r1, r2, ascending, ts[..|ts| - 1]);
      InsertSameValues(r1, r2, ascending, ts[|ts| - 1], SortBy(r1, ascending, ts[..|ts| - 1]));
    }
  }

  lemma {:induction false} InsertSameValues(r1: Reader, r2: Reader, ascending: bool, x: Trip, ys: seq<Trip>)
    requires forall t :: ValueOf(r1, t) == ValueOf(r2, t)
    ensures Insert(r1, ascending, x, ys) == Insert(r2, ascending, x, ys)
  {
    if |ys| > 0 {
      InsertSameValues(r1, r2, ascending, x, ys[1..]);
    }
  }

  lemma {:induction false} InsertSorted(r: Reader, ascending: bool, x: Trip, ys: seq<Trip>)
    requires Sorted(r, ascending, ys)
    ensures Sorted(r, ascending, Insert(r, ascending, x, ys))
    decreases |ys|
  {
    if |ys| == 0 {
    } else if InOrder(ascending, ValueOf(r, x), ValueOf(r, ys[0])) {
      SortedFront(r, ascending, x, ys);
    } else {
      InsertSorted(r, ascending, x, ys[1..]);
      ColumnKind(r, x, ys[0]);
      InOrderTotal(ascending, ValueOf(r, ys[0]), ValueOf(r, x));
      SortedBehind(r, ascending, x, ys, Insert(r, ascending, x, ys[1..]));
    }
  }

  /** A trip that may stay before the first of a sorted run may stay before all of it. */
  lemma SortedFront(r: Reader, ascending: bool, x: Trip, ys: seq<Trip>)
    requires Sorted(r, ascending, ys) && |ys| > 0
    requires InOrder(ascending, ValueOf(r, x), ValueOf(r, ys[0]))
    ensures Sorted(r, ascending, [x] + ys)
  {
    var zs := [x] + ys;
    forall i, j | 0 <= i < j < |zs|
      ensures InOrder(ascending, ValueOf(r, zs[i]), ValueOf(r, zs[j]))
    {
      if i == 0 && j > 1 {
        ColumnKind(r, x, ys[0]);
        ColumnKind(r, ys[0], ys[j - 1]);
        InOrderTransitive(ascending, ValueOf(r, x), ValueOf(r, ys[0]), ValueOf(r, ys[j - 1]));
      }
    }
  }

  /** The first of a sorted run may stay before `x` and before every later trip of the run. */
  lemma FirstBeforeRest(r: Reader, ascending: bool, x: Trip, ys: seq<Trip>, z: Trip)
    requires Sorted(r, ascending, ys) && |ys| > 0
    requires InOrder(ascending, ValueOf(r, ys[0]), ValueOf(r, x))
    requires z == x || z in multiset(ys[1..])
    ensures InOrder(ascending, ValueOf(r, ys[0]), ValueOf(r, z))
  {
    if z != x {
      var k :| 0 <= k < |ys[1..]| && ys[1..][k] == z;
      assert ys[k + 1] == z;
    }
  }

  /** The first of a sorted run stays before the rest with `x` inserted, when it may stay before `x`. */
  lemma SortedBehind(r: Reader, ascending: bool, x: Trip, ys: seq<Trip>, rest: seq<Trip>)
    requires Sorted(r, ascending, ys) && |ys| > 0
    requires InOrder(ascending, ValueOf(r, ys[0]), ValueOf(r, x))
    requires Sorted(r, ascending, rest) && multiset(rest) == multiset(ys[1..]) + multiset{x}
    ensures Sorted(r, ascending, [ys[0]] + rest)
  {
    var y := ys[0];
    forall j | 0 <= j < |rest|
      ensures InOrder(ascending, ValueOf(r, y), ValueOf(r, rest[j]))
    {
      assert rest[j] in multiset(rest);
      FirstBeforeRest(r, ascending, x, ys, rest[j]);
    }
    var zs := [y] + rest;
    forall i, j | 0 <= i < j < |zs|
      ensures InOrder(ascending, ValueOf(r, zs[i]), ValueOf(r, zs[j]))
    {
      if i > 0 {
        assert zs[i] == rest[i - 1] && zs[j] == rest[j - 1];
      }
    }
  }

  lemma {:induction false} SortBySorted(r: Reader, ascending: bool, ts: seq<Trip>)
    ensures Sorted(r, ascending, SortBy(r, ascending, ts))
  {
    if |ts| > 0 {
      SortBySorted(r, ascending, ts[..|ts| - 1]);
      InsertSorted(r, ascending, ts[|ts| - 1], SortBy(r, ascending, ts[..|ts| - 1]));
    }
  }

  /**
   * `sortData` with the given reading of temperature columns: a copy of the
   * trips sorted by the column. The comparator only runs on two or more trips;
   * when it cannot read the column, it throws.
   */
  function SortWith(r: Reader, ascending: bool, trips: seq<Trip>): Result<seq<Trip>> {
    if |trips| >= 2 && !Readable(r) then Failure(MissingTempsError)
    else Success(SortBy(r, ascending, trips))
  }

  /** A sort that succeeds returns the same trips, in the comparator's order; it fails only on an unreadable column. */
  lemma SortWithSorts(r: Reader, ascending: bool, trips: seq<Trip>)
    ensures SortWith(r, ascending, trips).Failure? <==> |trips| >= 2 && !Readable(r)
    ensures SortWith(r, ascending, trips).Success? ==>
      var s := SortWith(r, ascending, trips).value;
      multiset(s) == multiset(trips) && Sorted(r, ascending, s)
  {
    SortBySorted(r, ascending, trips);
  }

  /** `sortData` as the page writes it: the temperature key is lower-cased. */
  function SortData(c: Column, ascending: bool, trips: seq<Trip>): Result<seq<Trip>> {
    SortWith(Reader(c, true), ascending, trips)
  }

  /** `sortData` with the temperature key used as written, so that every temperature column reads its entry. */
  function SortDataFixed(c: Column, ascending: bool, trips: seq<Trip>): Result<seq<Trip>> {
    SortWith(Reader(c, false), ascending, trips)
  }

  /**
   * As written, sorting two or more trips by the hydraulic oil column throws:
   * "hydraulicOilTemp" becomes "hydraulicoil", which names no temperature entry.
   */
  lemma HydraulicOilSortThrows(c: Column, ascending: bool, trips: seq<Trip>)
    requires c.HydraulicOilTemp? && |trips| >= 2
    ensures SortData(c, ascending, trips) == Failure(MissingTempsError)
  {
    var stem := Entry(c);
    TempKey(Key(c), stem);
    HydraulicOilLowered(stem);
  }

  /** A key made of a stem without "Temp" and "Temp" is a temperature column named by its stem. */
  lemma TempKey(key: string, stem: string)
    requires key == stem + "Temp"
    requires forall i :: 0 <= i < |stem| - 1 ==> !(stem[i] == 'T' && stem[i + 1] == 'e')
    ensures Contains(key, "Temp") && ReplaceFirst(key, "Temp", "") == stem
  {
    NoTempInKey(stem);
    TempInKey(stem, "");
    TempAfterStem(stem, "");
    assert stem + "Temp" + "" == key;
    assert stem + "" == stem;
  }

  lemma HydraulicOilLowered(stem: string)
    requires stem == "hydraulicOil"
    ensures !TempsName(ToLower(stem))
  {
    var name := ToLower(stem);
    assert stem[9] == 'O';
    assert name[9] == 'o';
  }

  /** Removing "Temp" from a column key whose stem does not contain it leaves the stem. */
  lemma {:induction false} TempAfterStem(stem: string, rest: string)
    requires !Contains(stem, "Temp")
    ensures ReplaceFirst(stem + "Temp" + rest, "Temp", "") == stem + rest
    decreases |stem|
  {
    var s := stem + "Temp" + rest;
    if |stem| == 0 {
      assert IsPrefix("Temp", s);
      assert s[4..] == rest;
    } else {
      if |stem| >= 4 {
        assert s[..4] == stem[..4];
      } else {
        assert s[..4][|stem|] == 'T' != "Temp"[|stem|];
      }
      assert s[1..] == stem[1..] + "Temp" + rest;
      TempAfterStem(stem[1..], rest);
    }
  }

  lemma {:induction false} TempInKey(stem: string, rest: string)
    ensures Contains(stem + "Temp" + rest, "Temp")
    decreases |stem|
  {
    var s := stem + "Temp" + rest;
    if |stem| == 0 {
      assert IsPrefix("Temp", s);
    } else {
      assert s[1..] == stem[1..] + "Temp" + rest;
      TempInKey(stem[1..], rest);
    }
  }

  /** A text in which no 'T' is followed by an 'e' does not contain "Temp". */
  lemma {:induction false} NoTempInKey(s: string)
    requires forall i :: 0 <= i < |s| - 1 ==> !(s[i] == 'T' && s[i + 1] == 'e')
    ensures !Contains(s, "Temp")
    decreases |s|
  {
    if |s| > 0 {
      if |s| >= 4 {
        assert s[..4][0] == s[0] && s[..4][1] == s[1];
      }
      NoTempInKey(s[1..]);
    }
  }

  /** The other columns' keys do not contain "Temp". */
  lemma PlainKey(c: Column)
    requires !TempReading(c)
    ensures !TempColumn(c)
  {
    NoTempInKey(Key(c));
  }

  /** The columns whose header reads a temperature. */
  predicate TempReading(c: Column) {
    c == MotorTemp || c == McuTemp || c == BatteryTemp || c == DcdcTemp || c == HydraulicOilTemp
  }

  /** With the key used as written, every column can be read, so sorting never throws. */
  lemma SortFixedNeverThrows(c: Column, ascending: bool, trips: seq<Trip>)
    ensures SortDataFixed(c, ascending, trips).Success?
  {
    if TempReading(c) {
      var stem := Entry(c);
      TempKey(Key(c), stem);
    } else {
      PlainKey(c);
    }
  }

  /** The `temps` entry a temperature column shows; its key is the entry's name followed by "Temp". */
  function Entry(c: Column): (name: string)
    requires TempReading(c)
    ensures TempsName(name) && Key(c) == name + "Temp"
    ensures forall i :: 0 <= i < |name| ==> name[i] != 'T'
  {
    match c
    case MotorTemp => "motor"
    case McuTemp => "mcu"
    case BatteryTemp => "battery"
    case DcdcTemp => "dcdc"
    case HydraulicOilTemp => "hydraulicOil"
  }

  /** Outside the temperature columns, lower-casing plays no part: both sorts agree. */
  lemma SortsAgreeOutsideTemps(c: Column, ascending: bool, trips: seq<Trip>)
    requires !TempColumn(c)
    ensures SortData(c, ascending, trips) == SortDataFixed(c, ascending, trips)
  {
    assert SourceOf(Reader(c, true)) == SourceOf(Reader(c, false));
    assert forall t :: ValueOf(Reader(c, true), t) == ValueOf(Reader(c, false), t);
    SortBySameValues(Reader(c, true), Reader(c, false), ascending, trips);
  }

  // ---------------------------------------------------------------------------
  // Sort configuration and the rows shown
  // ---------------------------------------------------------------------------

  /** `sortConfig`: the column to sort by (none until a header is clicked) and the direction. */
  datatype SortConfig = SortConfig(column: Option<Column>, ascending: bool)

  const Unsorted: SortConfig := SortConfig(None, true)

  /** `handleSort`: the clicked column, descending only when that column was sorted ascending. */
  function NextSort(config: SortConfig, c: Column): (next: SortConfig)
    ensures next.column == Some(c)
  {
    SortConfig(Some(c), !(config.column == Some(c) && config.ascending))
  }

  /** A click on a new column sorts it ascending; a click on the sorted column flips the direction, so two clicks restore it. */
  lemma SortClicks(config: SortConfig, c: Column)
    ensures config.column != Some(c) ==> NextSort(config, c).ascending
    ensures config.column == Some(c) ==> NextSort(config, c).ascending == !config.ascending
    ensures config.column == Some(c) ==> NextSort(NextSort(config, c), c) == config
  {
  }

  /** A text without capitals is its own lower case. */
  lemma LowerOfLower(s: string)
    requires forall i :: 0 <= i < |s| ==> !IsUpper(s[i])
    ensures ToLower(s) == s
  {
    assert forall i :: 0 <= i < |s| ==> ToLower(s)[i] == s[i];
  }

  /** The entries of the motor, MCU, battery and DC-DC temperatures have no capitals. */
  lemma EntryLowerCase(c: Column)
    requires TempReading(c) && c != HydraulicOilTemp
    ensures ToLower(Entry(c)) == Entry(c)
  {
    match c
    case MotorTemp => LowerOfLower("motor");
    case McuTemp => LowerOfLower("mcu");
    case BatteryTemp => LowerOfLower("battery");
    case DcdcTemp => LowerOfLower("dcdc");
  }

  /** Lower-casing a temperature key reads its entry unless that entry's name has a capital. */
  lemma LoweredTempReadable(c: Column)
    requires TempReading(c) && c != HydraulicOilTemp
    ensures Readable(Reader(c, true))
  {
    var stem := Entry(c);
    TempKey(Key(c), stem);
    EntryLowerCase(c);
    assert TempsKey(Reader(c, true)) == stem;
  }

  /** With the key lower-cased, every column can be read except the hydraulic oil temperature. */
  lemma LoweredReadable(c: Column)
    ensures Readable(Reader(c, true)) <==> c != HydraulicOilTemp
  {
    if !TempReading(c) {
      PlainKey(c);
    } else if c == HydraulicOilTemp {
      var stem := Entry(c);
      TempKey(Key(c), stem);
      HydraulicOilLowered(stem);
    } else {
      LoweredTempReadable(c);
    }
  }

  /**
   * The rows of one vehicle's table: its trips filtered by the search, then,
   * once a column is chosen, sorted by `sortData` as the page writes it, so
   * rendering the table throws where that sort does.
   */
  function ShownTrips(trips: seq<Trip>, query: string, config: SortConfig): Result<seq<Trip>> {
    var filtered := FilterTrips(trips, query);
    if config.column.None? then Success(filtered)
    else SortData(config.column.value, config.ascending, filtered)
  }

  /**
   * The table fails to render exactly when it is sorted by hydraulic oil
   * temperature with two or more matching trips. Otherwise the rows are
   * exactly the matching trips, each as often as it occurs, in the chosen
   * column's order.
   */
  lemma ShownTripsFacts(trips: seq<Trip>, query: string, config: SortConfig)
    ensures var rows, filtered := ShownTrips(trips, query, config), FilterTrips(trips, query);
      (rows.Failure? <==> config.column == Some(HydraulicOilTemp) && |filtered| >= 2)
      && (rows.Success? ==>
        multiset(rows.value) == multiset(filtered)
        && (forall t :: t in rows.value <==> t in trips && Matches(t, query))
        && (config.column.Some? ==> Sorted(Reader(config.column.value, true), config.ascending, rows.value)))
  {
    var filtered := FilterTrips(trips, query);
    if config.column.Some? {
      var r := Reader(config.column.value, true);
      LoweredReadable(config.column.value);
      SortWithSorts(r, config.ascending, filtered);
      var rows := ShownTrips(trips, query, config);
      if rows.Success? {
        SameMembers(rows.value, filtered);
      }
    }
  }

  lemma SameMembers(a: seq<Trip>, b: seq<Trip>)
    requires multiset(a) == multiset(b)
    ensures forall t :: t in a <==> t in b
  {
    forall t
      ensures t in a <==> t in b
    {
      assert t in a <==> t in multiset(a);
      assert t in b <==> t in multiset(b);
    }
  }
}
