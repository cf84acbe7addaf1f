/**
 * The CSV file the report page exports: a header of humanised column keys,
 * then one line per trip of every entry, each holding the enabled columns in
 * the fixed column order.
 */
module CsvExport {
  import opened JsText
  import opened JsNumber
  import opened Trips
  import opened ReportData
  import opened TripTable
  import opened TripStats

  // ---------------------------------------------------------------------------
  // Columns and header
  // ---------------------------------------------------------------------------

  /** A CSV column: the vehicle name, then the columns of the trip table. */
  datatype CsvColumn = VehicleName | TripColumn(column: Column)

  /** The keys of `csvColumns`, in the order `Object.keys` lists them. */
  const CsvOrder: seq<CsvColumn> := [
    VehicleName, TripColumn(TripId), TripColumn(Date), TripColumn(StartTime), TripColumn(EndTime),
    TripColumn(TotalHours), TripColumn(AvgKw), TripColumn(RatedKw), TripColumn(PeakKw),
    TripColumn(StartSoc), TripColumn(EndSoc), TripColumn(KwhConsumed), TripColumn(AvgKwh),
    TripColumn(MotorTemp), TripColumn(McuTemp), TripColumn(BatteryTemp), TripColumn(DcdcTemp),
    TripColumn(HydraulicOilTemp), TripColumn(EfficiencyScore)]

  function KeyOf(c: CsvColumn): string {
    match c
    case VehicleName => "vehicle"
    case TripColumn(col) => Key(col)
  }

  /** `s.replace(/([A-Z])/g, ' $1')`: a space before every capital letter. */
  function Spaced(s: string): (r: string)
    ensures |r| >= |s|
  {
    if |s| == 0 then ""
    else (if IsUpper(s[0]) then [' ', s[0]] else [s[0]]) + Spaced(s[1..])
  }

  /** `key.charAt(0).toUpperCase() + key.slice(1).replace(/([A-Z])/g, ' $1')`. */
  function Humanize(key: string): string {
    if |key| == 0 then "" else [UpperChar(key[0])] + Spaced(key[1..])
  }

  /** The way back from a header name to its key: lower the first letter and drop the spaces. */
  function Dehumanize(name: string): string {
    if |name| == 0 then "" else [LowerChar(name[0])] + RemoveAll(name[1..], ' ')
  }

  /** Dropping the spaces undoes `Spaced` on a text without spaces. */
  lemma {:induction false} SpacedRemoved(s: string)
    requires forall i :: 0 <= i < |s| ==> s[i] != ' '
    ensures RemoveAll(Spaced(s), ' ') == s
  {
    if |s| > 0 {
      var rest := Spaced(s[1..]);
      SpacedRemoved(s[1..]);
      if IsUpper(s[0]) {
        var r := [' ', s[0]] + rest;
        assert r[1..] == [s[0]] + rest;
        assert ([s[0]] + rest)[1..] == rest;
      } else {
        var r := [s[0]] + rest;
        assert r[1..] == rest;
      }
      assert s == [s[0]] + s[1..];
    }
  }

  /**
   * A key that does not start with a capital and has no spaces can be read back
   * from its header name, so distinct such keys get distinct names.
   */
  lemma HumanizeRoundTrip(key: string)
    requires |key| > 0 ==> !IsUpper(key[0])
    requires forall i :: 0 <= i < |key| ==> key[i] != ' '
    ensures Dehumanize(Humanize(key)) == key
  {
    if |key| > 0 {
      var name := Humanize(key);
      assert name[1..] == Spaced(key[1..]);
      SpacedRemoved(key[1..]);
      assert key == [key[0]] + key[1..];
    }
  }

  /** The enabled columns of `order`, in that order. */
  function EnabledIn(order: seq<CsvColumn>, enabled: set<CsvColumn>): (r: seq<CsvColumn>)
    ensures |r| <= |order|
    ensures forall c :: c in r <==> c in order && c in enabled
  {
    if |order| == 0 then []
    else
      var front := EnabledIn(order[..|order| - 1], enabled);
      var c := order[|order| - 1];
      assert forall x :: x in order <==> x in order[..|order| - 1] || x == c by {
        assert order == order[..|order| - 1] + [c];
      }
      if c in enabled then front + [c] else front
  }

  /** `Object.keys(csvColumns).filter(key => csvColumns[key])`. */
  function Enabled(enabled: set<CsvColumn>): seq<CsvColumn> {
    EnabledIn(CsvOrder, enabled)
  }

  /** The header names of the columns, one for one. */
  function HeaderNames(cs: seq<CsvColumn>): (r: seq<string>)
    ensures |r| == |cs|
    ensures forall i :: 0 <= i < |cs| ==> r[i] == Humanize(KeyOf(cs[i]))
  {
    if |cs| == 0 then [] else HeaderNames(cs[..|cs| - 1]) + [Humanize(KeyOf(cs[|cs| - 1]))]
  }

  function HeaderLine(enabled: set<CsvColumn>): string {
    Join(HeaderNames(Enabled(enabled)), ",") + "\n"
  }

  // ---------------------------------------------------------------------------
  // Rows
  // ---------------------------------------------------------------------------

  function TempText(r: TempRange): string {
    Text(r.low) + " - " + Text(r.high)
  }

  /**
   * The cell of one column for a trip of the named vehicle. Hours, energy and
   * average are the same texts the table shows.
   */
  function Cell(c: CsvColumn, name: string, t: Trip, capacity: nat): string {
    match c
    case VehicleName => name
    case TripColumn(col) =>
      match col
      case TripId => IntToString(t.tripId)
      case Date => t.date
      case StartTime => t.startTime
      case EndTime => t.endTime
      case TotalHours => ShownText(RowHours(t))
      case AvgKw => Text(t.avgKw)
      case RatedKw => Text(t.ratedKw)
      case PeakKw => Text(t.peakKw)
      case StartSoc => IntToString(t.startSoc)
      case EndSoc => IntToString(t.endSoc)
      case KwhConsumed => Text(RowKwh(t, capacity))
      case AvgKwh => Text(RowAvgKwh(t, capacity))
      case MotorTemp => TempText(t.temps.motor)
      case McuTemp => TempText(t.temps.mcu)
      case BatteryTemp => TempText(t.temps.battery)
      case DcdcTemp => TempText(t.temps.dcdc)
      case HydraulicOilTemp => TempText(t.temps.hydraulicOil)
      case EfficiencyScore => Text(t.efficiencyScore)
  }

  /** The cells of the columns, one for one: the i-th cell belongs under the i-th header name. */
  function Cells(cs: seq<CsvColumn>, name: string, t: Trip, capacity: nat): (r: seq<string>)
    ensures |r| == |cs|
    ensures forall i :: 0 <= i < |cs| ==> r[i] == Cell(cs[i], name, t, capacity)
  {
    if |cs| == 0 then [] else Cells(cs[..|cs| - 1], name, t, capacity) + [Cell(cs[|cs| - 1], name, t, capacity)]
  }

  /**
   * The `row` array built by the chain of `if (csvColumns.x) row.push(...)`
   * statements, which test the columns in the fixed order.
   */
  method BuildRow(enabled: set<CsvColumn>, name: string, t: Trip, capacity: nat) returns (row: seq<string>)
    ensures row == Cells(Enabled(enabled), name, t, capacity)
  {
    row := [];
    for k := 0 to |CsvOrder|
      invariant row == Cells(EnabledIn(CsvOrder[..k], enabled), name, t, capacity)
    {
      assert CsvOrder[..k + 1][..k] == CsvOrder[..k];
      if CsvOrder[k] in enabled {
        row := row + [Cell(CsvOrder[k], name, t, capacity)];
      }
    }
    assert CsvOrder[..|CsvOrder|] == CsvOrder;
  }

  function RowLine(enabled: set<CsvColumn>, name: string, t: Trip, capacity: nat): string {
    Join(Cells(Enabled(enabled), name, t, capacity), ",") + "\n"
  }

  /** The lines of one vehicle's trips, in order. */
  function TripLines(enabled: set<CsvColumn>, name: string, ts: seq<Trip>, capacity: nat): string {
    if |ts| == 0 then ""
    else TripLines(enabled, name, ts[..|ts| - 1], capacity) + RowLine(enabled, name, ts[|ts| - 1], capacity)
  }

  /** The lines of every entry, in key order. */
  function EntryLines(enabled: set<CsvColumn>, es: seq<Entry>): string
    requires KnownEntries(es)
  {
    if |es| == 0 then ""
    else
      var e := es[|es| - 1];
      EntryLines(enabled, es[..|es| - 1]) + TripLines(enabled, VehicleMaster[e.vehId].name, e.trips, Capacity(e.vehId))
  }

  function CsvText(enabled: set<CsvColumn>, es: seq<Entry>): string
    requires KnownEntries(es)
  {
    HeaderLine(enabled) + EntryLines(enabled, es)
  }

  /** The text `handleExportCSV` puts in the downloaded file. */
  method ExportCsv(enabled: set<CsvColumn>, es: seq<Entry>) returns (csv: string)
    requires KnownEntries(es)
    ensures csv == CsvText(enabled, es)
  {
    var names := HeaderNames(Enabled(enabled));
    csv := Join(names, ",") + "\n";
    for i := 0 to |es|
      invariant csv == HeaderLine(enabled) + EntryLines(enabled, es[..i])
    {
      var e := es[i];
      csv := AppendTrips(csv, enabled, VehicleMaster[e.vehId].name, e.trips, Capacity(e.vehId));
      EntryLinesStep(enabled, es, i);
      AppendAssociates(HeaderLine(enabled), EntryLines(enabled, es[..i]),
        TripLines(enabled, VehicleMaster[e.vehId].name, e.trips, Capacity(e.vehId)));
    }
    assert es[..|es|] == es;
  }

  lemma EntryLinesStep(enabled: set<CsvColumn>, es: seq<Entry>, i: nat)
    requires KnownEntries(es) && i < |es|
    ensures KnownEntries(es[..i]) && KnownEntries(es[..i + 1])
    ensures EntryLines(enabled, es[..i + 1]) == EntryLines(enabled, es[..i])
      + TripLines(enabled, VehicleMaster[es[i].vehId].name, es[i].trips, Capacity(es[i].vehId))
  {
    assert es[..i + 1][..i] == es[..i];
  }

  lemma AppendAssociates(a: string, b: string, c: string)
    ensures (a + b) + c == a + (b + c)
  {
  }

  /** `trips.forEach(trip => { ...; csv += row.join(',') + '\n'; })` for one vehicle. */
  method AppendTrips(csv: string, enabled: set<CsvColumn>, name: string, ts: seq<Trip>, capacity: nat)
    returns (csv': string)
    ensures csv' == csv + TripLines(enabled, name, ts, capacity)
  {
    csv' := csv;
    for j := 0 to |ts|
      invariant csv' == csv + TripLines(enabled, name, ts[..j], capacity)
    {
      var row := BuildRow(enabled, name, ts[j], capacity);
      var line := Join(row, ",") + "\n";
      TripLinesStep(enabled, name, ts, j, capacity);
      AppendAssociates(csv, TripLines(enabled, name, ts[..j], capacity), line);
      csv' := csv' + line;
    }
    assert ts[..|ts|] == ts;
  }

  lemma TripLinesStep(enabled: set<CsvColumn>, name: string, ts: seq<Trip>, j: nat, capacity: nat)
    requires j < |ts|
    ensures TripLines(enabled, name, ts[..j + 1], capacity)
      == TripLines(enabled, name, ts[..j], capacity) + RowLine(enabled, name, ts[j], capacity)
  {
    assert ts[..j + 1][..j] == ts[..j];
  }

  // ---------------------------------------------------------------------------
  // Every line has as many fields as the header
  // ---------------------------------------------------------------------------

  /** The number of times `c` occurs in `s`. */
  function Occurrences(s: string, c: char): (n: nat)
    ensures n <= |s|
  {
    if |s| == 0 then 0 else Occurrences(s[..|s| - 1], c) + (if s[|s| - 1] == c then 1 else 0)
  }

  lemma {:induction false} OccurrencesAppend(a: string, b: string, c: char)
    ensures Occurrences(a + b, c) == Occurrences(a, c) + Occurrences(b, c)
  {
    if |b| > 0 {
      assert (a + b)[..|a + b| - 1] == a + b[..|b| - 1];
      OccurrencesAppend(a, b[..|b| - 1], c);
    } else {
      assert a + b == a;
    }
  }

  lemma {:induction false} NoOccurrences(s: string, c: char)
    requires c !in s
    ensures Occurrences(s, c) == 0
  {
    if |s| > 0 {
      assert s == s[..|s| - 1] + [s[|s| - 1]];
      NoOccurrences(s[..|s| - 1], c);
    }
  }

  predicate CommaFree(s: string) {
    ',' !in s
  }

  /** Joined with commas, parts without commas give one comma fewer than there are parts. */
  lemma {:induction false} JoinCommas(parts: seq<string>)
    requires |parts| > 0
    requires forall k :: 0 <= k < |parts| ==> CommaFree(parts[k])
    ensures Occurrences(Join(parts, ","), ',') == |parts| - 1
  {
    NoOccurrences(parts[0], ',');
    if |parts| > 1 {
      JoinCommas(parts[1..]);
      OccurrencesAppend(parts[0], ",", ',');
      OccurrencesAppend(parts[0] + ",", Join(parts[1..], ","), ',');
      assert Occurrences(",", ',') == 1 by {
        assert ","[..0] == "";
      }
    }
  }

  lemma {:induction false} SpacedCommaFree(s: string)
    requires CommaFree(s)
    ensures CommaFree(Spaced(s))
  {
    if |s| > 0 {
      assert s == [s[0]] + s[1..];
      SpacedCommaFree(s[1..]);
    }
  }

  /** No key has a comma. */
  lemma KeyCommaFree(c: CsvColumn)
    ensures CommaFree(KeyOf(c))
  {
  }

  /** Humanising adds only spaces and capitals, so it adds no comma. */
  lemma HumanizeCommaFree(key: string)
    requires CommaFree(key)
    ensures CommaFree(Humanize(key))
  {
    if |key| > 0 {
      assert key == [key[0]] + key[1..];
      SpacedCommaFree(key[1..]);
    }
  }

  lemma HeaderNameCommaFree(c: CsvColumn)
    ensures CommaFree(Humanize(KeyOf(c)))
  {
    KeyCommaFree(c);
    HumanizeCommaFree(KeyOf(c));
  }

  /** A `toFixed` text is digits, a point and perhaps a minus sign. */
  lemma FixedCommaFree(f: Fixed)
    ensures CommaFree(Text(f))
  {
    var digits := PadStart(NatToString(f.digits), f.decimals + 1, '0');
    ZeroPadValue(NatToString(f.digits), f.decimals + 1);
    assert ',' !in digits;
    if f.decimals > 0 {
      assert digits == digits[..|digits| - f.decimals] + digits[|digits| - f.decimals..];
    }
  }

  lemma IntCommaFree(i: int)
    ensures CommaFree(IntToString(i))
  {
  }

  /** The trip's own texts hold no comma: its date and its start and end times. */
  predicate TripTextsCommaFree(t: Trip) {
    CommaFree(t.date) && CommaFree(t.startTime) && CommaFree(t.endTime)
  }

  lemma CellCommaFree(c: CsvColumn, name: string, t: Trip, capacity: nat)
    requires CommaFree(name) && TripTextsCommaFree(t)
    ensures CommaFree(Cell(c, name, t, capacity))
  {
    match c
    case VehicleName =>
    case TripColumn(col) =>
      FixedCommaFree(t.avgKw);
      FixedCommaFree(t.ratedKw);
      FixedCommaFree(t.peakKw);
      FixedCommaFree(t.efficiencyScore);
      FixedCommaFree(RowKwh(t, capacity));
      FixedCommaFree(RowAvgKwh(t, capacity));
      IntCommaFree(t.tripId);
      IntCommaFree(t.startSoc);
      IntCommaFree(t.endSoc);
      if RowHours(t).Number? {
        FixedCommaFree(RowHours(t).f);
      }
      match col
      case MotorTemp => TempCommaFree(t.temps.motor);
      case McuTemp => TempCommaFree(t.temps.mcu);
      case BatteryTemp => TempCommaFree(t.temps.battery);
      case DcdcTemp => TempCommaFree(t.temps.dcdc);
      case HydraulicOilTemp => TempCommaFree(t.temps.hydraulicOil);
      case _ =>
  }

  lemma TempCommaFree(r: TempRange)
    ensures CommaFree(TempText(r))
  {
    FixedCommaFree(r.low);
    FixedCommaFree(r.high);
  }

  /**
   * With at least one column enabled, the header and a trip's line hold the same
   * number of commas, one fewer than the enabled columns: the cells line up
   * under their names whenever the vehicle name and the trip's texts hold no comma.
   */
  lemma LinesAlign(enabled: set<CsvColumn>, name: string, t: Trip, capacity: nat)
    requires |Enabled(enabled)| > 0
    requires CommaFree(name) && TripTextsCommaFree(t)
    ensures Occurrences(Join(HeaderNames(Enabled(enabled)), ","), ',') == |Enabled(enabled)| - 1
    ensures Occurrences(Join(Cells(Enabled(enabled), name, t, capacity), ","), ',') == |Enabled(enabled)| - 1
  {
    var cs := Enabled(enabled);
    forall k | 0 <= k < |cs|
      ensures CommaFree(HeaderNames(cs)[k]) && CommaFree(Cells(cs, name, t, capacity)[k])
    {
      HeaderNameCommaFree(cs[k]);
      CellCommaFree(cs[k], name, t, capacity);
    }
    JoinCommas(HeaderNames(cs));
    JoinCommas(Cells(cs, name, t, capacity));
  }
}
