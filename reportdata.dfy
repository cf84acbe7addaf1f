/**
 * The report the page holds (`reportData`): for each selected vehicle, the
 * trips generated for every day of the chosen range. A JavaScript object keeps
 * its string keys in insertion order, so the report is a sequence of entries
 * in that order.
 */
module ReportData {
  import opened Wrappers
  import opened JsText
  import opened Trips
  import opened Calendar

  datatype Entry = Entry(vehId: string, trips: seq<Trip>)

  /** `Object.keys(data)`. */
  function Keys(es: seq<Entry>): (ks: seq<string>)
    ensures |ks| == |es|
    ensures forall i :: 0 <= i < |es| ==> ks[i] == es[i].vehId
  {
    if |es| == 0 then [] else Keys(es[..|es| - 1]) + [es[|es| - 1].vehId]
  }

  /** No key occurs twice. */
  predicate UniqueKeys(es: seq<Entry>) {
    forall i, j :: 0 <= i < j < |es| ==> es[i].vehId != es[j].vehId
  }

  /** The position of key `k`, if it is a key. */
  function IndexOf(es: seq<Entry>, k: string): (r: Option<nat>)
    ensures r.Some? ==> r.value < |es| && es[r.value].vehId == k
    ensures r.None? ==> forall i :: 0 <= i < |es| ==> es[i].vehId != k
  {
    if |es| == 0 then None
    else if es[|es| - 1].vehId == k then Some(|es| - 1)
    else IndexOf(es[..|es| - 1], k)
  }

  /** `data[k] = v`: an existing key keeps its place and takes the new value; a new key goes last. */
  function Put(es: seq<Entry>, k: string, v: seq<Trip>): seq<Entry> {
    match IndexOf(es, k)
    case Some(i) => es[i := Entry(k, v)]
    case None => es + [Entry(k, v)]
  }

  /** With unique keys, the position of a key is the one entry that carries it. */
  lemma IndexOfKey(es: seq<Entry>, k: string, i: nat)
    requires UniqueKeys(es) && i < |es| && es[i].vehId == k
    ensures IndexOf(es, k) == Some(i)
  {
    if IndexOf(es, k).None? {
      assert false;
    }
  }

  /** Setting an existing key replaces its value in place: the keys stay as they were. */
  lemma PutExisting(es: seq<Entry>, k: string, v: seq<Trip>, i: nat)
    requires UniqueKeys(es) && i < |es| && es[i].vehId == k
    ensures Put(es, k, v) == es[i := Entry(k, v)]
    ensures UniqueKeys(Put(es, k, v)) && Keys(Put(es, k, v)) == Keys(es)
  {
    IndexOfKey(es, k, i);
    var r := es[i := Entry(k, v)];
    assert |Keys(r)| == |Keys(es)|;
    forall j | 0 <= j < |r|
      ensures Keys(r)[j] == Keys(es)[j]
    {
    }
  }

  /** Setting a new key appends it with its value. */
  lemma PutNew(es: seq<Entry>, k: string, v: seq<Trip>)
    requires UniqueKeys(es) && k !in Keys(es)
    ensures Put(es, k, v) == es + [Entry(k, v)]
    ensures UniqueKeys(Put(es, k, v)) && Keys(Put(es, k, v)) == Keys(es) + [k]
  {
    forall j | 0 <= j < |es|
      ensures es[j].vehId != k
    {
      assert Keys(es)[j] == es[j].vehId;
    }
    var r := es + [Entry(k, v)];
    assert Keys(r) == Keys(es) + [k];
  }

  /** After `data[k] = v`, `k` maps to `v` and every other key keeps its place and value. */
  lemma PutFacts(es: seq<Entry>, k: string, v: seq<Trip>)
    requires UniqueKeys(es)
    ensures var r := Put(es, k, v);
      UniqueKeys(r)
      && (k in Keys(es) ==> Keys(r) == Keys(es))
      && (k !in Keys(es) ==> Keys(r) == Keys(es) + [k])
      && (forall i :: 0 <= i < |r| ==> if r[i].vehId == k then r[i].trips == v else r[i] == es[i])
  {
    if k in Keys(es) {
      var i :| 0 <= i < |es| && Keys(es)[i] == k;
      PutExisting(es, k, v, i);
    } else {
      PutNew(es, k, v);
    }
  }

  // ---------------------------------------------------------------------------
  // The generated report
  // ---------------------------------------------------------------------------

  /** Every vehicle id comes from the master table (the page only offers those). */
  predicate KnownVehicles(vehicles: seq<string>) {
    forall v :: v in vehicles ==> v in VehicleMaster
  }

  /** The trips `generateRandomTrips` returns for a known vehicle on one day. */
  function DayTrips(vehId: string, date: string): (ts: seq<Trip>)
    requires vehId in VehicleMaster
    ensures 1 <= |ts| <= MaxTrips
    ensures forall k :: 0 <= k < |ts| ==> ts[k].tripId == k + 1 && ts[k].date == date && TripOk(ts[k])
  {
    GeneratedTrips(vehId, date);
    GenerateTrips(vehId, date).value
  }

  /** Removing the first "veh" from `"veh" + k` leaves `k`. */
  lemma ReplaceVeh(k: string)
    ensures ReplaceFirst("veh" + k, "veh", "") == k
  {
    assert IsPrefix("veh", "veh" + k) && ("veh" + k)[3..] == k;
  }

  /** The seed text of vehicle `"veh" + k` on a day is the day's digits followed by `k`. */
  lemma SeedTextOfDay(d: Date, k: string)
    ensures SeedText(IsoText(d), "veh" + k) == DayDigits(d) + k
  {
    IsoTextFields(d);
    DayDigitsOfText(d);
    ReplaceVeh(k);
  }

  /** The seed of vehicle `"veh" + k`, for digits `k`, is the number the day's digits followed by `k` spell. */
  lemma SeedIsDigitsValue(d: Date, k: string)
    requires ValidDate(d) && d.year <= 9999 && AllDigits(k)
    ensures AllDigits(DayDigits(d) + k)
    ensures Seed(IsoText(d), "veh" + k) == Some(DigitsValue(DayDigits(d) + k))
  {
    SeedTextOfDay(d, k);
    DayDigitsValue(d);
    assert |DayDigits(d) + k| > 0;
    assert AllDigits(DayDigits(d) + k);
    SeedOfDigits(IsoText(d), "veh" + k);
  }

  /**
   * The seed of a vehicle `"veh" + n` on a day: the day's digits without the
   * hyphens, then the digits of `n`, read as one decimal number.
   */
  lemma SeedOfDay(d: Date, n: nat)
    requires ValidDate(d) && d.year <= 9999
    ensures Seed(IsoText(d), "veh" + NatToString(n)) == Some(DateNumber(d) * Pow10(|NatToString(n)|) + n)
  {
    var k := NatToString(n);
    SeedIsDigitsValue(d, k);
    DayDigitsValue(d);
    NatToStringValue(n);
    AppendValue(DayDigits(d), k, DateNumber(d), n, Pow10(|k|));
  }

  /** The seed of the first vehicle on the page's "today" is 202509301. */
  lemma SeedOfFirstVehicle()
    ensures Seed("2025-09-30", "veh1") == Some(202509301)
  {
    var d := Date(2025, 9, 30);
    assert ValidDate(d);
    assert IsoText(d) == "2025-09-30";
    assert "veh" + NatToString(1) == "veh1";
    assert DateNumber(d) == 20250930 && Pow10(|NatToString(1)|) == 10;
    SeedOfDay(d, 1);
  }

  /** One vehicle's trips over the dates: each day's trips pushed after the previous days'. */
  function TripsOver(vehId: string, dates: seq<string>): seq<Trip>
    requires vehId in VehicleMaster
  {
    if |dates| == 0 then []
    else TripsOver(vehId, dates[..|dates| - 1]) + DayTrips(vehId, dates[|dates| - 1])
  }

  /**
   * The report `handleGenerateReport` builds: for each selected vehicle in
   * order, its entry is reset to the trips over the dates.
   */
  function ReportOf(vehicles: seq<string>, dates: seq<string>): seq<Entry>
    requires KnownVehicles(vehicles)
  {
    if |vehicles| == 0 then []
    else
      var v := vehicles[|vehicles| - 1];
      Put(ReportOf(vehicles[..|vehicles| - 1], dates), v, TripsOver(v, dates))
  }

  /**
   * A vehicle's trips over the dates all satisfy the generator's bounds and fall
   * on those dates, with between one and five trips a day.
   */
  lemma {:induction false} TripsOverFacts(vehId: string, dates: seq<string>)
    requires vehId in VehicleMaster
    ensures var ts := TripsOver(vehId, dates);
      |dates| <= |ts| <= MaxTrips * |dates|
      && forall t :: t in ts ==> t.date in dates && TripOk(t)
  {
    if |dates| > 0 {
      var prefix := dates[..|dates| - 1];
      TripsOverFacts(vehId, prefix);
      var day := DayTrips(vehId, dates[|dates| - 1]);
      forall t | t in TripsOver(vehId, dates)
        ensures t.date in dates && TripOk(t)
      {
        if t in day {
          var k :| 0 <= k < |day| && day[k] == t;
        } else {
          assert t in TripsOver(vehId, prefix);
          assert t.date in prefix;
        }
      }
    }
  }

  /**
   * The report has one entry per distinct selected vehicle, each holding that
   * vehicle's trips over the dates.
   */
  lemma {:induction false} ReportFacts(vehicles: seq<string>, dates: seq<string>)
    requires KnownVehicles(vehicles)
    ensures var es := ReportOf(vehicles, dates);
      UniqueKeys(es)
      && (forall v :: v in Keys(es) <==> v in vehicles)
      && (forall i :: 0 <= i < |es| ==> es[i].vehId in VehicleMaster && es[i].trips == TripsOver(es[i].vehId, dates))
  {
    if |vehicles| > 0 {
      var prefix := vehicles[..|vehicles| - 1];
      var v := vehicles[|vehicles| - 1];
      assert vehicles == prefix + [v];
      ReportFacts(prefix, dates);
      var before := ReportOf(prefix, dates);
      PutFacts(before, v, TripsOver(v, dates));
      var es := ReportOf(vehicles, dates);
      forall i | 0 <= i < |es|
        ensures es[i].vehId in VehicleMaster && es[i].trips == TripsOver(es[i].vehId, dates)
      {
        assert es[i].vehId in Keys(es);
      }
    }
  }

  /** With no vehicle selected twice, the entries follow the selection order. */
  lemma {:induction false} ReportOrder(vehicles: seq<string>, dates: seq<string>)
    requires KnownVehicles(vehicles)
    requires forall i, j :: 0 <= i < j < |vehicles| ==> vehicles[i] != vehicles[j]
    ensures Keys(ReportOf(vehicles, dates)) == vehicles
  {
    if |vehicles| > 0 {
      var prefix := vehicles[..|vehicles| - 1];
      var v := vehicles[|vehicles| - 1];
      assert vehicles == prefix + [v];
      ReportOrder(prefix, dates);
      ReportFacts(prefix, dates);
      assert v !in prefix;
      PutNew(ReportOf(prefix, dates), v, TripsOver(v, dates));
    }
  }

  // ---------------------------------------------------------------------------
  // Building the report
  // ---------------------------------------------------------------------------

  /**
   * One vehicle's part of `handleGenerateReport`: the trips of every date pushed
   * in order. (The source pushes into `filteredData[vehId]` directly; the entry is
   * not read before the loop ends, so collecting the trips first is the same.)
   */
  method VehicleTrips(vehId: string, dates: seq<string>) returns (trips: seq<Trip>)
    requires vehId in VehicleMaster
    ensures trips == TripsOver(vehId, dates)
  {
    trips := [];
    for k := 0 to |dates|
      invariant trips == TripsOver(vehId, dates[..k])
    {
      var day := GenerateRandomTrips(vehId, dates[k]);
      DayTripsGenerated(vehId, dates[k]);
      TripsOverStep(vehId, dates, k);
      trips := trips + day.value;
    }
    assert dates[..|dates|] == dates;
  }

  /** For a master vehicle the generator succeeds with the day's trips. */
  lemma DayTripsGenerated(vehId: string, date: string)
    requires vehId in VehicleMaster
    ensures GenerateTrips(vehId, date) == Success(DayTrips(vehId, date))
  {
    GeneratedTrips(vehId, date);
  }

  lemma TripsOverStep(vehId: string, dates: seq<string>, k: nat)
    requires vehId in VehicleMaster && k < |dates|
    ensures TripsOver(vehId, dates[..k + 1]) == TripsOver(vehId, dates[..k]) + DayTrips(vehId, dates[k])
  {
    assert dates[..k + 1][..k] == dates[..k];
  }

  /** The `filteredData` object `handleGenerateReport` builds once the inputs pass validation. */
  method GenerateReport(vehicles: seq<string>, startDate: string, endDate: string) returns (data: seq<Entry>)
    requires KnownVehicles(vehicles)
    ensures data == ReportOf(vehicles, DateRange(startDate, endDate))
  {
    data := [];
    for i := 0 to |vehicles|
      invariant KnownVehicles(vehicles[..i])
      invariant data == ReportOf(vehicles[..i], DateRange(startDate, endDate))
    {
      var dates := DatesInRange(startDate, endDate);
      var trips := VehicleTrips(vehicles[i], dates);
      ReportOfStep(vehicles, i, dates);
      data := Put(data, vehicles[i], trips);
    }
    assert vehicles[..|vehicles|] == vehicles;
  }

  lemma ReportOfStep(vehicles: seq<string>, i: nat, dates: seq<string>)
    requires KnownVehicles(vehicles) && i < |vehicles|
    ensures KnownVehicles(vehicles[..i]) && KnownVehicles(vehicles[..i + 1])
    ensures ReportOf(vehicles[..i + 1], dates)
      == Put(ReportOf(vehicles[..i], dates), vehicles[i], TripsOver(vehicles[i], dates))
  {
    assert vehicles[..i + 1][..i] == vehicles[..i];
  }
}
