/**
 * The loader parameter page: mapping the server's items to table rows, the
 * module-level cache of rows by category, the request and its error
 * messages, the push messages that replace a category's rows, and closing
 * the modal.
 */
module Loader {
  import opened Wrappers
  import opened JsText
  import Seqs

  /** The JavaScript values an item field can hold. */
  datatype JsValue = Undefined | Null | Number(x: real) | Text(s: string)

  /** `undefined` and `null`, the values `??` skips. */
  predicate Nullish(v: JsValue) {
    v.Undefined? || v.Null?
  }

  /** The values `||` keeps: everything but `undefined`, `null`, `0` and `""`. */
  predicate Truthy(v: JsValue) {
    match v
    case Undefined => false
    case Null => false
    case Number(x) => x != 0.0
    case Text(s) => s != ""
  }

  /** `a ?? b`. */
  function Coalesce(a: JsValue, b: JsValue): JsValue {
    if Nullish(a) then b else a
  }

  /** `a || b`. */
  function Or(a: JsValue, b: JsValue): JsValue {
    if Truthy(a) then a else b
  }

  /** A parameter as the server sends it. */
  datatype Item = Item(
    parameterId: JsValue, numericValue: JsValue, value: JsValue,
    unit: JsValue, displaySlNo: JsValue, vehicleId: JsValue)

  /** A row of the parameter table. */
  datatype Row = Row(id: JsValue, value: JsValue, unit: JsValue, serialNo: JsValue)

  const NotAvailable := Text("N/A")
  const DefaultVehicle := Text("veh0011")

  /** The categories whose serial number prefers the display serial. */
  predicate ShowsDisplaySerial(category: string) {
    category == "Android Display" || category == "Machine Identification"
  }

  /** The mapping applied to each item of a response or a push message. */
  function RowOf(category: string, item: Item): Row {
    Row(
      item.parameterId,
      Coalesce(Coalesce(item.numericValue, item.value), NotAvailable),
      Or(item.unit, NotAvailable),
      if ShowsDisplaySerial(category) then Or(Or(item.displaySlNo, item.vehicleId), DefaultVehicle)
      else Or(item.vehicleId, DefaultVehicle))
  }

  /** `data.map(item => ...)`. */
  function RowsOf(category: string, items: seq<Item>): seq<Row> {
    Seqs.Map((item: Item) => RowOf(category, item), items)
  }

  /**
   * The value is the numeric value unless that is `null` or `undefined`, then
   * the plain value under the same rule, then "N/A"; so `0` and `""` are kept.
   * The unit is the item's unit when truthy, else "N/A".
   */
  lemma RowValueAndUnit(category: string, item: Item)
    ensures var r := RowOf(category, item);
      r.id == item.parameterId
      && (!Nullish(item.numericValue) ==> r.value == item.numericValue)
      && (Nullish(item.numericValue) && !Nullish(item.value) ==> r.value == item.value)
      && (Nullish(item.numericValue) && Nullish(item.value) ==> r.value == NotAvailable)
      && (Truthy(item.unit) ==> r.unit == item.unit)
      && (!Truthy(item.unit) ==> r.unit == NotAvailable)
    ensures item.numericValue == Number(0.0) ==> RowOf(category, item).value == Number(0.0)
    ensures item.numericValue == Text("") ==> RowOf(category, item).value == Text("")
  {
  }

  /**
   * The serial number is the first truthy of the display serial (for the two
   * display categories only), the vehicle id and "veh0011".
   */
  lemma RowSerial(category: string, item: Item)
    ensures var serial := RowOf(category, item).serialNo;
      (ShowsDisplaySerial(category) && Truthy(item.displaySlNo) ==> serial == item.displaySlNo)
      && ((!ShowsDisplaySerial(category) || !Truthy(item.displaySlNo)) && Truthy(item.vehicleId) ==> serial == item.vehicleId)
      && ((!ShowsDisplaySerial(category) || !Truthy(item.displaySlNo)) && !Truthy(item.vehicleId) ==> serial == DefaultVehicle)
  {
  }

  /** What every mapped row shows: a value that is never nullish, a truthy unit and serial. */
  predicate RowOk(r: Row) {
    !Nullish(r.value) && Truthy(r.unit) && Truthy(r.serialNo)
  }

  /** The mapping keeps the items' number and order, and every row it makes is well formed. */
  lemma RowsAlign(category: string, items: seq<Item>)
    ensures var rows := RowsOf(category, items);
      |rows| == |items|
      && (forall k :: 0 <= k < |items| ==> rows[k] == RowOf(category, items[k]))
      && (forall r :: r in rows ==> RowOk(r))
  {
    var rows := RowsOf(category, items);
    forall r | r in rows
      ensures RowOk(r)
    {
      var k :| 0 <= k < |rows| && rows[k] == r;
      assert r == RowOf(category, items[k]);
    }
  }

  // ---------------------------------------------------------------------------
  // Requests
  // ---------------------------------------------------------------------------

  /**
   * What a request comes back with: an OK response and its `data`, a response
   * with another status, or an exception (network failure, a body that is not
   * JSON) with its message. `fetch` reports every 2xx status as OK, so a
   * `Status` stands for a code outside 200..299. The model does not restrict
   * the code, and uses it only in the error message.
   */
  datatype Response = Ok(items: seq<Item>) | Status(code: int) | Thrown(message: string)

  const FetchPrefix := "Failed to fetch parameters: "

  /** The message thrown for a response that is not OK. */
  function StatusMessage(category: string, code: int): string {
    if code == 401 then "Unauthorized: Please log in again"
    else if code == 404 then "No data found for " + category
    else "HTTP error! status: " + IntToString(code)
  }

  /** The error the page shows for a failed request; `None` for an OK response. */
  function FetchError(category: string, response: Response): (e: Option<string>)
    ensures e.None? <==> response.Ok?
    ensures e.Some? ==> |e.value| >= |FetchPrefix| && e.value[..|FetchPrefix|] == FetchPrefix
    ensures response.Status? ==> e == Some(FetchPrefix + StatusMessage(category, response.code))
    ensures response.Thrown? ==> e == Some(FetchPrefix + response.message)
  {
    match response
    case Ok(_) => None
    case Status(code) => Some(FetchPrefix + StatusMessage(category, code))
    case Thrown(message) => Some(FetchPrefix + message)
  }

  /** `categoryToTableName`: the table whose push messages feed each category. */
  const TableNames: map<string, string> := map[
    "HV Battery & BMS" := "hv_battery",
    "BTMS" := "btms",
    "MCU" := "mcu",
    "Transmission System" := "transmission_system",
    "DC-DC Converter" := "dc_dc_converter",
    "LV Battery" := "lv_battery",
    "HVAC" := "hvac",
    "Hydraulic System" := "hydraulic_system",
    "Axle Oil" := "axle_oil",
    "Vehicle Peripherals" := "vehicle_peripherals",
    "Operator Switch Board" := "operator_switch_board",
    "Android Display" := "android_display",
    "Vehicle Wide Parameters" := "vehicle_wide",
    "Machine Identification" := "machine_identification"]

  /** `categoryToTableName[category]`, `undefined` (here `None`) for an unknown category. */
  function TableNameOf(category: string): Option<string> {
    if category in TableNames then Some(TableNames[category]) else None
  }

  /**
   * A push message: text that is not JSON, or an object with an optional
   * `table_name` and an optional `data` array (a missing array makes
   * `.map` throw).
   */
  datatype PushMessage = Malformed | Message(tableName: Option<string>, data: Option<seq<Item>>)

  /** The rows a push message delivers to the selected category, if it is for it and well formed. */
  function PushedRows(selected: string, msg: PushMessage): (r: Option<seq<Row>>)
    ensures r.Some? <==> msg.Message? && msg.tableName == TableNameOf(selected) && msg.data.Some?
    ensures r.Some? ==> r.value == RowsOf(selected, msg.data.value)
  {
    match msg
    case Malformed => None
    case Message(tableName, data) =>
      if tableName == TableNameOf(selected) && data.Some? then Some(RowsOf(selected, data.value)) else None
  }

  // ---------------------------------------------------------------------------
  // The cache and the page
  // ---------------------------------------------------------------------------

  /** The module-level `Map` from category to rows; it outlives the page. */
  class ParameterCache {
    var entries: map<string, seq<Row>>

    constructor()
      ensures entries == map[]
    {
      entries := map[];
    }
  }

  class LoaderPage {
    const cache: ParameterCache
    var isModalOpen: bool
    var selectedCategory: Option<string>
    var parameters: seq<Row>
    var loading: bool
    var error: Option<string>

    /** Every row shown or cached is well formed. */
    predicate RowsValid()
      reads this, cache
    {
      (forall r :: r in parameters ==> RowOk(r))
      && (forall c :: c in cache.entries ==> forall r :: r in cache.entries[c] ==> RowOk(r))
    }

    /** The modal is open exactly while a category is selected, and the rows are well formed. */
    predicate Valid()
      reads this, cache
    {
      (isModalOpen <==> selectedCategory.Some?) && RowsValid()
    }

    constructor(cache: ParameterCache)
      requires forall c :: c in cache.entries ==> forall r :: r in cache.entries[c] ==> RowOk(r)
      ensures Valid() && this.cache == cache
      ensures !isModalOpen && selectedCategory == None && parameters == [] && !loading && error == None
    {
      this.cache := cache;
      isModalOpen := false;
      selectedCategory := None;
      parameters := [];
      loading := false;
      error := None;
    }

    /**
     * `fetchParameters(category, forceRefresh)`: a cached category is served
     * without a request unless a refresh is forced; otherwise the response is
     * consumed, and only an OK one writes the cache, under that category.
     * Loading ends false either way.
     */
    method FetchParameters(category: string, forceRefresh: bool, response: Response) returns (requested: bool)
      requires RowsValid()
      modifies this`parameters, this`loading, this`error, cache
      ensures RowsValid() && !loading
      ensures requested <==> forceRefresh || category !in old(cache.entries)
      ensures !requested ==>
        (parameters == old(cache.entries)[category] && error == None && cache.entries == old(cache.entries))
      ensures requested ==> error == FetchError(category, response)
      ensures requested && response.Ok? ==>
        (parameters == RowsOf(category, response.items) && cache.entries == old(cache.entries)[category := parameters])
      ensures requested && !response.Ok? ==> parameters == old(parameters) && cache.entries == old(cache.entries)
    {
      loading := true;
      error := None;
      if !forceRefresh && category in cache.entries {
        parameters := cache.entries[category];
        loading := false;
        return false;
      }
      requested := true;
      match response {
        case Status(code) =>
          error := Some(FetchPrefix + StatusMessage(category, code));
        case Thrown(message) =>
          error := Some(FetchPrefix + message);
        case Ok(items) =>
          var rows := RowsOf(category, items);
          RowsAlign(category, items);
          cache.entries := cache.entries[category := rows];
          parameters := rows;
      }
      loading := false;
    }

    /**
     * `handleViewDetails`: select the category, fetch it (never forcing a
     * refresh) and open the modal. A cached category is shown from the cache
     * without a request; otherwise the response decides the rows, the error
     * and the cache, as `fetchParameters` does.
     */
    method ViewDetails(category: string, response: Response) returns (requested: bool)
      requires Valid()
      modifies this`selectedCategory, this`isModalOpen, this`parameters, this`loading, this`error, cache
      ensures Valid() && isModalOpen && selectedCategory == Some(category) && !loading
      ensures requested <==> category !in old(cache.entries)
      ensures !requested ==>
        (parameters == old(cache.entries)[category] && error == None && cache.entries == old(cache.entries))
      ensures requested ==> error == FetchError(category, response)
      ensures requested && response.Ok? ==>
        (parameters == RowsOf(category, response.items) && cache.entries == old(cache.entries)[category := parameters])
      ensures requested && !response.Ok? ==> parameters == old(parameters) && cache.entries == old(cache.entries)
    {
      selectedCategory := Some(category);
      requested := FetchParameters(category, false, response);
      isModalOpen := true;
    }

    /**
     * A push message for the selected category's table replaces the rows
     * shown and that category's cache entry; any other message, or one that
     * fails to parse or map, changes nothing.
     */
    method OnMessage(msg: PushMessage)
      requires Valid() && selectedCategory.Some?
      modifies this`parameters, cache
      ensures Valid()
      ensures var pushed := PushedRows(selectedCategory.value, msg);
        (pushed.Some? ==>
          (parameters == pushed.value && cache.entries == old(cache.entries)[selectedCategory.value := pushed.value]))
        && (pushed.None? ==> parameters == old(parameters) && cache.entries == old(cache.entries))
    {
      var pushed := PushedRows(selectedCategory.value, msg);
      if pushed.Some? {
        RowsAlign(selectedCategory.value, msg.data.value);
        parameters := pushed.value;
        cache.entries := cache.entries[selectedCategory.value := pushed.value];
      }
    }

    /** The socket's error handler. */
    method OnSocketError()
      requires Valid()
      modifies this`error
      ensures Valid() && error == Some("Real-time updates unavailable")
    {
      error := Some("Real-time updates unavailable");
    }

    /** `closeModal`: closes and clears the selection and the rows; the cache is left as it was. */
    method CloseModal()
      requires Valid()
      modifies this`isModalOpen, this`selectedCategory, this`parameters
      ensures Valid()
      ensures !isModalOpen && selectedCategory == None && parameters == []
      ensures cache.entries == old(cache.entries) && error == old(error) && loading == old(loading)
    {
      isModalOpen := false;
      selectedCategory := None;
      parameters := [];
    }

    /** The window's key handler: Escape closes the modal, other keys do nothing. */
    method KeyDown(key: string)
      requires Valid()
      modifies this`isModalOpen, this`selectedCategory, this`parameters
      ensures Valid()
      ensures key == "Escape" ==> !isModalOpen && selectedCategory == None && parameters == []
      ensures key != "Escape" ==>
        isModalOpen == old(isModalOpen) && selectedCategory == old(selectedCategory) && parameters == old(parameters)
    {
      if key == "Escape" {
        CloseModal();
      }
    }
  }
}
