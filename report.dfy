/**
 * The state of the daily report page and the handlers that change it: the
 * date inputs, the vehicle selection, report generation with its validation,
 * sorting, searching, the CSV column choice, and the summary and CSV text read
 * from that state.
 */
module Report {
  import opened Wrappers
  import opened JsText
  import opened Calendar
  import opened Trips
  import opened ReportData
  import opened TripTable
  import opened TripStats
  import opened CsvExport

  /** The page's fixed "today". */
  const Today: string := "2025-09-30"

  /** The messages `handleGenerateReport` can show, in the order it checks for them. */
  datatype ReportError = NoStartDate | EndBeforeStartDate | NoVehicle

  function Message(e: ReportError): string {
    match e
    case NoStartDate => "Please select a start date."
    case EndBeforeStartDate => "End date cannot be before start date."
    case NoVehicle => "Please select at least one vehicle."
  }

  /** `new Date(endDate) < new Date(startDate)`: false when either is an Invalid Date. */
  predicate EndBeforeStart(startDate: string, endDate: string) {
    var s, e := ParseIso(startDate), ParseIso(endDate);
    s.Some? && e.Some? && DayNumber(e.value) < DayNumber(s.value)
  }

  /**
   * The validation of `handleGenerateReport`: a missing start date first, then an
   * end date before the start, then an empty selection; the first failing check wins.
   */
  function Validation(startDate: string, endDate: string, vehicles: seq<string>): (r: Option<ReportError>)
    ensures startDate == "" ==> r == Some(NoStartDate)
    ensures r == Some(EndBeforeStartDate) <==> startDate != "" && endDate != "" && EndBeforeStart(startDate, endDate)
    ensures r == Some(NoVehicle) ==> startDate != "" && |vehicles| == 0
    ensures r.None? <==> startDate != "" && !(endDate != "" && EndBeforeStart(startDate, endDate)) && |vehicles| > 0
  {
    if startDate == "" then Some(NoStartDate)
    else if endDate != "" && EndBeforeStart(startDate, endDate) then Some(EndBeforeStartDate)
    else if |vehicles| == 0 then Some(NoVehicle)
    else None
  }

  // ---------------------------------------------------------------------------
  // The date inputs
  // ---------------------------------------------------------------------------

  /**
   * What the date handlers keep: the start is no later than today, and the end
   * is empty or lies between the start and today, all compared as strings.
   */
  predicate DatesOk(startDate: string, endDate: string) {
    StrLe(startDate, Today) && (endDate == "" || (StrLe(startDate, endDate) && StrLe(endDate, Today)))
  }

  /** The dates after `handleStartDateChange(newStartDate)`: a later start clears an end it passes. */
  function AfterStartChange(startDate: string, endDate: string, newStartDate: string): (string, string) {
    if StrLe(newStartDate, Today) then
      (newStartDate, if endDate != "" && StrLt(endDate, newStartDate) then "" else endDate)
    else (startDate, endDate)
  }

  /** The end date after `handleEndDateChange(newEndDate)`. */
  function AfterEndChange(startDate: string, endDate: string, newEndDate: string): string {
    if StrLe(newEndDate, Today) && (startDate == "" || StrLe(startDate, newEndDate)) then newEndDate else endDate
  }

  /** Both date handlers keep the dates in order. */
  lemma DateHandlersKeepOrder(startDate: string, endDate: string, newDate: string)
    requires DatesOk(startDate, endDate)
    ensures var (s, e) := AfterStartChange(startDate, endDate, newDate); DatesOk(s, e)
    ensures DatesOk(startDate, AfterEndChange(startDate, endDate, newDate))
  {
    if StrLe(newDate, Today) && endDate != "" && !StrLt(endDate, newDate) {
      NotGreaterIsLe(newDate, endDate);
    }
  }

  /**
   * Once a start date is set, emptying the end date input is ignored: the empty
   * text is not `>=` the start.
   */
  lemma EndDateCannotBeCleared(startDate: string, endDate: string)
    requires startDate != ""
    ensures AfterEndChange(startDate, endDate, "") == endDate
  {
  }

  /**
   * Dates kept in order by the handlers never trigger the end-before-start
   * message: string order and calendar order agree on dates that parse.
   */
  lemma OrderedDatesPassEndCheck(startDate: string, endDate: string, vehicles: seq<string>)
    requires DatesOk(startDate, endDate)
    ensures Validation(startDate, endDate, vehicles) != Some(EndBeforeStartDate)
  {
    if startDate != "" && endDate != "" && ParseIso(startDate).Some? && ParseIso(endDate).Some? {
      StringAndDateOrderAgree(endDate, startDate);
      if StrLt(startDate, endDate) {
        StrLtAsymmetric(startDate, endDate);
      } else {
        StrLtIrreflexive(startDate);
      }
    }
  }

  /** Every CSV column, as the page starts. */
  const AllColumns: set<CsvColumn> := set c | c in CsvOrder

  // ---------------------------------------------------------------------------
  // The page
  // ---------------------------------------------------------------------------

  class ReportPage {
    var startDate: string
    var endDate: string
    var selectedVehicles: seq<string>
    var reportData: seq<Entry>
    var error: Option<ReportError>
    var sortConfig: SortConfig
    /** The page declares a setter for the query but never calls it: it stays empty. */
    var searchQuery: string
    var csvColumns: set<CsvColumn>

    /** The dates are in order and every vehicle, selected or reported, is in the master table. */
    predicate Valid()
      reads this
    {
      DatesOk(startDate, endDate) && KnownVehicles(selectedVehicles) && KnownEntries(reportData)
    }

    /** The initial state, before the page's first effect runs. */
    constructor()
      ensures Valid()
      ensures startDate == Today && endDate == "" && selectedVehicles == MasterIds
      ensures sortConfig == Unsorted && searchQuery == "" && csvColumns == AllColumns
      ensures error == None && reportData == []
    {
      startDate := Today;
      endDate := "";
      selectedVehicles := MasterIds;
      reportData := [];
      error := None;
      sortConfig := Unsorted;
      searchQuery := "";
      csvColumns := AllColumns;
      MasterTable();
    }

    /** The effect that runs when the page mounts: a report over today for every vehicle. */
    method Mount()
      requires Valid() && startDate == Today && endDate == "" && selectedVehicles == MasterIds
      modifies this`reportData, this`error
      ensures Valid()
      ensures error == None && reportData == ReportOf(MasterIds, DateRange(Today, ""))
    {
      HandleGenerateReport();
    }

    /**
     * `handleGenerateReport`: on a failed check only the message changes;
     * otherwise the message clears and the report holds each selected
     * vehicle's trips over the range.
     */
    method HandleGenerateReport()
      requires Valid()
      modifies this`reportData, this`error
      ensures Valid()
      ensures error == Validation(startDate, endDate, selectedVehicles)
      ensures error.Some? ==> reportData == old(reportData)
      ensures error.None? ==> reportData == ReportOf(selectedVehicles, DateRange(startDate, endDate))
    {
      if startDate == "" {
        error := Some(NoStartDate);
        return;
      }
      if endDate != "" && EndBeforeStart(startDate, endDate) {
        error := Some(EndBeforeStartDate);
        return;
      }
      if |selectedVehicles| == 0 {
        error := Some(NoVehicle);
        return;
      }
      error := None;
      var data := GenerateReport(selectedVehicles, startDate, endDate);
      ReportFacts(selectedVehicles, DateRange(startDate, endDate));
      reportData := data;
    }

    method HandleStartDateChange(newStartDate: string)
      requires Valid()
      modifies this`startDate, this`endDate
      ensures Valid()
      ensures (startDate, endDate) == AfterStartChange(old(startDate), old(endDate), newStartDate)
    {
      DateHandlersKeepOrder(startDate, endDate, newStartDate);
      if StrLe(newStartDate, Today) {
        startDate := newStartDate;
        if endDate != "" && StrLt(endDate, newStartDate) {
          endDate := "";
        }
      }
    }

    method HandleEndDateChange(newEndDate: string)
      requires Valid()
      modifies this`endDate
      ensures Valid()
      ensures endDate == AfterEndChange(startDate, old(endDate), newEndDate)
    {
      DateHandlersKeepOrder(startDate, endDate, newEndDate);
      if StrLe(newEndDate, Today) && (startDate == "" || StrLe(startDate, newEndDate)) {
        endDate := newEndDate;
      }
    }

    /** The multiple-choice select offers only master vehicles. */
    method SelectVehicles(vehicles: seq<string>)
      requires Valid() && KnownVehicles(vehicles)
      modifies this`selectedVehicles
      ensures Valid() && selectedVehicles == vehicles
    {
      selectedVehicles := vehicles;
    }

    method HandleSort(c: Column)
      modifies this`sortConfig
      ensures sortConfig == NextSort(old(sortConfig), c)
    {
      sortConfig := NextSort(sortConfig, c);
    }

    /** A column's checkbox flips that column and no other. */
    method ToggleCsvColumn(c: CsvColumn)
      modifies this`csvColumns
      ensures c in csvColumns <==> c !in old(csvColumns)
      ensures forall d :: d != c ==> (d in csvColumns <==> d in old(csvColumns))
    {
      if c in csvColumns {
        csvColumns := csvColumns - {c};
      } else {
        csvColumns := csvColumns + {c};
      }
    }

    /** The rows the table shows for the `i`-th vehicle of the report, or what rendering it throws. */
    function TableRows(i: nat): Result<seq<Trip>>
      reads this
      requires i < |reportData|
    {
      ShownTrips(reportData[i].trips, searchQuery, sortConfig)
    }

    /** The summary cards, over the report and the days of the current date inputs. */
    method SummaryStats() returns (s: SummaryStats)
      requires Valid()
      ensures s == SummaryOf(reportData, |DateRange(startDate, endDate)|)
    {
      s := GetSummaryStats(reportData, startDate, endDate);
    }

    /** The CSV text of the report with the chosen columns. */
    method CsvFile() returns (csv: string)
      requires Valid()
      ensures csv == CsvText(csvColumns, reportData)
    {
      csv := ExportCsv(csvColumns, reportData);
    }
  }
}
