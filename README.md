# Fleet dashboard: a Dafny model of its logic

The dashboard is a React application for a fleet of electric loaders. Most of
it is markup, charts and network calls. Its logic sits in a few components,
and this project models those and proves properties of them:

- **The daily trip report** (`DailyReportPage.jsx`). For each selected vehicle
  and each day of a date range, it generates mock trips from a generator
  seeded by the date and the vehicle id (mulberry32). Each trip gets an
  efficiency score, and the report is shown as a table that can be filtered
  and sorted. The page also has summary cards, a state-of-charge breakdown,
  per-trip alerts, a CSV export with selectable columns, and two date inputs
  that keep the range ordered.
- **The motor page** (`MotorPage.jsx`). A mock telemetry sample is generated
  from a base sample with `||` fallbacks. A timer regenerates it, and a trend
  window keeps the last ten points. The page also shows torque and speed
  gauges and a case-insensitive status colour and icon.
- **The loader parameter page** (`LoaderParameters.jsx`). Server items are
  mapped to table rows with `??` and `||` fallbacks. A module-level cache
  holds the rows by category and can be bypassed with a forced refresh.
  HTTP failures become error messages, push messages are filtered by table
  name, and a modal opens and closes.
- **The login form** (`LoginModal.jsx`): required-field and email-format
  checks, a loading flag, the failure message, the Enter-key guard and the
  reset button.
- **The password form of the user profile** (`UserProfileModal.jsx`): the
  length and match checks, the save call, and a message that is green exactly
  when it reports success.
- **The fault monitor summary** (`FaultsPage.jsx`): the case-sensitive filter
  of active faults, the banner, and the case-insensitive status colour and
  icon.

Numbers are Dafny reals.

- `toFixed` is a value of the datatype `JsNumber.Fixed`. It has a decimal text
  and a real value, rounds half up, and `parseFloat` reads its text back
  exactly (`JsNumber.ParseText`).
- Strings are sequences of Unicode characters. JavaScript string comparison is
  `JsText.StrLt`, which orders characters as their UTF-16 code units do
  (`JsText.CodeUnitRank`), and `s.length` is `JsText.CodeUnits`, the number of
  UTF-16 code units.
- Dates are proleptic Gregorian `Calendar.Date`s written as `YYYY-MM-DD`.
- The generator's state is a `bv32`, so the 32-bit wrap-around of `Math.imul`
  and of the shifts is exact.
- A page component is a class whose fields are its state variables. Each
  handler is a method that states the new state. A handler that waits for a
  request is split at the `await`, and the answer becomes a parameter.
- Randomness, the clock and server answers are parameters.

The modules follow the source:

| Module | File | Models |
|---|---|---|
| `Wrappers` | `wrappers.dfy` | `Option` and `Result` |
| `Seqs` | `seqs.dfy` | `Map` and `Tabulate` with their step lemmas |
| `JsText` | `jstext.dfy` | string order, decimal text, `padStart`, `includes`, `replace`, `toLowerCase` |
| `JsNumber` | `jsnumber.dfy` | `toFixed` and `parseFloat` |
| `Prng` | `prng.dfy` | `seededRandom` |
| `Calendar` | `calendar.dfy` | ISO dates and `getDatesInRange` |
| `Trips` | `trips.dfy` | the vehicle table, seed derivation, `calculateEfficiencyScore`, `generateRandomTrips` |
| `ReportData` | `reportdata.dfy` | the report object built by `handleGenerateReport` |
| `TripStats` | `summary.dfy` | trip hours and kWh, `getSummaryStats`, `socUsageData`, the alert rules |
| `TripTable` | `triptable.dfy` | `filterTrips`, `sortData`, `handleSort` |
| `CsvExport` | `csv.dfy` | `handleExportCSV`'s header and rows |
| `Report` | `report.dfy` | the report page: validation, date handlers, page state |
| `Motor` | `motor.dfy` | the motor page |
| `Loader` | `loader.dfy` | the loader parameter page |
| `Login` | `login.dfy` | the login form |
| `Profile` | `profile.dfy` | the password form |
| `Faults` | `faults.dfy` | the fault summary |

## Model

| member | source | states |
|---|---|---|
| Prng.InitialState | src/components/DailyReportPage.jsx:16-17 | A seed that did not parse (NaN) starts the generator from the zero word, as the 32-bit operators read NaN. |
| Prng.Unit | src/components/DailyReportPage.jsx:21 | The unsigned word k read as k / 2^32 lies in [0, 1). |
| Prng.DrawAt | src/components/DailyReportPage.jsx:18-22 | Every value a generator hands out, at any position of its stream, lies in [0, 1). |
| Prng.Draws | src/components/DailyReportPage.jsx:18-22 | The next n values of a generator are n values, each in [0, 1). |
| Prng.SeededRandom.constructor | src/components/DailyReportPage.jsx:16-17 | A new generator holds the seeded word, and its future values are the stream of that word. |
| Prng.SeededRandom.Next | src/components/DailyReportPage.jsx:18-22 | A call advances the word by exactly one 32-bit mixing step. It returns the mixed word over 2^32, which is in [0, 1) and is the next value of the stream. |
| Prng.NextOf | src/components/DailyReportPage.jsx:18-22 | Taking a value from a generator whose stream is `rs[p..]` returns `rs[p]` and leaves `rs[p+1..]`. |
| Prng.SameSeedSameValues | src/components/DailyReportPage.jsx:16-22 | Two generators seeded alike hand out the same n values, so the stream depends on the seed alone. |
| Calendar.MonthLength | src/components/DailyReportPage.jsx:32 | A month has 28 to 31 days, and February has 29 exactly in leap years; `setDate` rolls over at these lengths. |
| Calendar.NextDayFacts | src/components/DailyReportPage.jsx:32 | The day after a valid date is valid, and its day number is one more. |
| Calendar.ParseIso | src/components/DailyReportPage.jsx:28-29 | A text that parses as `YYYY-MM-DD` denotes a valid date with a four-digit year. |
| Calendar.ParseIsoText | src/components/DailyReportPage.jsx:31 | Parsing the ISO text of a valid date gives the date back. |
| Calendar.IsoTextOfParse | src/components/DailyReportPage.jsx:28-31 | Formatting a parsed date gives the original text back. |
| Calendar.DayNumberOrder | src/components/DailyReportPage.jsx:167 | One date has a smaller day number than another exactly when it is earlier. |
| Calendar.IsoTextOrder | src/components/DailyReportPage.jsx:257-267 | For four-digit years, string order on ISO texts is chronological order, in both directions. |
| Calendar.StringAndDateOrderAgree | src/components/DailyReportPage.jsx:167 | For parseable texts, string `<` agrees with `<` on the dates. The date handlers compare strings and the validation compares `Date`s, and the two judge alike. |
| Calendar.DayOfFacts | src/components/DailyReportPage.jsx:30-32 | The t-th day is a valid date with day number t. |
| Calendar.DayOfNumber | src/components/DailyReportPage.jsx:30-32 | Counting days inverts day numbering: the day with a date's number is that date. |
| Calendar.DatesInRange | src/components/DailyReportPage.jsx:26-35 | The loop returns exactly `DateRange(startDate, endDate)`. |
| Calendar.DaysBetween | src/components/DailyReportPage.jsx:30-33 | The loop over day numbers returns the ISO texts of the days from `start` to `end`. |
| Calendar.DateRangeEmpty | src/components/DailyReportPage.jsx:26-30 | The range is empty exactly when a bound does not parse or the end (`endDate` or else `startDate`) comes before the start. |
| Calendar.DateRangeFirst | src/components/DailyReportPage.jsx:28-31 | A non-empty range starts with `startDate`. |
| Calendar.DateRangeLast | src/components/DailyReportPage.jsx:29-31 | A non-empty range ends with `endDate`, or with `startDate` when `endDate` is empty. |
| Calendar.DateRangeRises | src/components/DailyReportPage.jsx:30-33 | Every date of the range parses, and the dates strictly increase, so none repeats. |
| Calendar.DayDigitsOfText | src/components/DailyReportPage.jsx:39 | Removing the hyphens of an ISO date leaves its eight digits. |
| Calendar.DayDigitsValue | src/components/DailyReportPage.jsx:39-40 | Those eight digits are all digits, and their value is `yyyymmdd`. |
| Trips.MasterTable | src/components/DailyReportPage.jsx:9-14 | The vehicle table has exactly the ids veh1, veh2 and veh3, listed without repeats, and every capacity is at most 70 kWh. |
| Trips.ParseInt | src/components/DailyReportPage.jsx:40 | `parseInt(s, 10)` is NaN exactly when no digit follows the optional sign. |
| Trips.ParseIntOfNatToString | src/components/DailyReportPage.jsx:40 | `parseInt` of a number's decimal text is that number. |
| Trips.SeedOfDigits | src/components/DailyReportPage.jsx:39-40 | A seed text made only of digits parses to its decimal value. |
| ReportData.SeedOfDay | src/components/DailyReportPage.jsx:39-40 | The seed of a date and `veh<n>` is the date's digits followed by n's digits: `yyyymmdd * 10^len(n) + n`. |
| ReportData.SeedOfFirstVehicle | src/components/DailyReportPage.jsx:39-40 | The seed of ('2025-09-30', 'veh1') is 202509301. |
| Trips.ClockTextShape | src/components/DailyReportPage.jsx:54-55 | The minute is in [0, 60), and the time text is two padded hour digits, a colon and two padded minute digits. |
| Trips.ClockTextMonotonic | src/components/DailyReportPage.jsx:54-55 | A later hour never gives a smaller `HH:MM` text. |
| Trips.ClockTextStrict | src/components/DailyReportPage.jsx:54-55 | An hour at least one hour later gives a strictly greater `HH:MM` text. |
| Trips.ClockTextByTen | src/components/DailyReportPage.jsx:52-55 | An hour no later than 22 gives a text no greater than "22:00". |
| Trips.KwhScore | src/components/DailyReportPage.jsx:109-110 | The energy sub-score is 10, 20 or 30. A distance of 0 or less gives 30. Over a positive distance, a NaN consumption gives 10, because every comparison with NaN is false, and a consumption below the distance gives at least 20. |
| Trips.MaxOf | src/components/DailyReportPage.jsx:111-112 | `Math.max` is an upper bound of the highs and is one of them. |
| Trips.TempScore | src/components/DailyReportPage.jsx:111-112 | The temperature sub-score is 10, 20 or 30, and it is 30 exactly when all five highs are below 70. |
| Trips.PowerScore | src/components/DailyReportPage.jsx:113-114 | The power sub-score is 10, 15 or 20. An average below the positive rated power gives at least 15, and one at or above it gives 10. |
| Trips.SocScore | src/components/DailyReportPage.jsx:115 | The SOC sub-score is 15 or 20, and it is 20 exactly when the drop is below 30. |
| Trips.EfficiencyScore | src/components/DailyReportPage.jsx:108-117 | The score lies in [45, 100] for every input. |
| Trips.FullScore | src/components/DailyReportPage.jsx:116 | The score is 100 exactly when every sub-score is at its maximum. |
| Trips.TripCount | src/components/DailyReportPage.jsx:43 | A draw in [0, 1) gives a trip count from 1 to 5. |
| Trips.TripSoc | src/components/DailyReportPage.jsx:67-69 | From draws in [0, 1), the floored start SOC is in [60, 99], the floored end SOC is between 20 and the floored start, and the drop is below 40. |
| Trips.TripTimes | src/components/DailyReportPage.jsx:45-55 | A trip of at least one hour that ends by 22:00 has start text < end text ≤ "22:00". |
| Trips.TripPowerValues | src/components/DailyReportPage.jsx:63-65 | Rated power is in [10, 30), average power in [6, rated), and peak power in [rated, 42). |
| Trips.TripPower | src/components/DailyReportPage.jsx:92-94 | After `toFixed`, the three powers stay in those ranges and the average stays at most the peak. |
| Trips.TripTempsWithin | src/components/DailyReportPage.jsx:73-82 | For a base in [15, 25] and a spread in [10, 20], each of the five formatted highs lies in its band, and dcdc equals motor. |
| Trips.TripTempsOk | src/components/DailyReportPage.jsx:73-82 | The same holds for the temperatures built from any draws. |
| Trips.TempScoreOfOk | src/components/DailyReportPage.jsx:111-112 | Generated temperatures always earn the full temperature sub-score. |
| Trips.TripKwh | src/components/DailyReportPage.jsx:71-84 | For any capacity the table holds, consumed energy is a number, non-negative and less than the distance. |
| Trips.TripScore | src/components/DailyReportPage.jsx:84-85 | A generated trip scores between 80 and 100. |
| Trips.TripScoreText | src/components/DailyReportPage.jsx:85-100 | The score's `toFixed(0)` also lies in [80, 100]. |
| Trips.BuildTripSoc | src/components/DailyReportPage.jsx:57-96 | A built trip has valid SOCs. Its idle time is in [0, 120) minutes, and 0 for the first trip. |
| Trips.BuildTripPower | src/components/DailyReportPage.jsx:92-94 | A built trip's power fields are in range. |
| Trips.BuildTripScore | src/components/DailyReportPage.jsx:76-100 | A built trip's temperatures are in band and its score text is in [80, 100]. |
| Trips.BuildTripOk | src/components/DailyReportPage.jsx:87-101 | Every trip built from in-range draws meets all of the above together (`TripOk`). |
| Trips.BuildTrips | src/components/DailyReportPage.jsx:87-101 | One trip per plan, in order. |
| Trips.DayDraws | src/components/DailyReportPage.jsx:41 | The stream of a day's seed supplies enough draws for five trips, all in [0, 1). |
| Trips.PlansFromOk | src/components/DailyReportPage.jsx:48-61 | The planned trips are consecutively numbered from the current index, each plan is valid (start, duration, end ≤ 22, gap < 2 h), and there are at most as many as remain. |
| Trips.SuccessOfPlans | src/components/DailyReportPage.jsx:84 | For an id the lookup finds, whether a master vehicle or a name every object inherits, no round throws. |
| Trips.CapacityFound | src/components/DailyReportPage.jsx:84 | The capacity read is a number exactly for a master vehicle, and `undefined` for an inherited name. |
| Trips.MasterNotInherited | src/components/DailyReportPage.jsx:9-14 | No master id clashes with a name inherited from `Object.prototype`. |
| Trips.FirstRoundEmits | src/components/DailyReportPage.jsx:45-52 | The first round never stops the loop: it starts between 8:00 and 12:00, lasts 1 to 4 hours and ends before 16:00, and it throws exactly for an id that is neither a master vehicle nor a name every object inherits (such as "constructor" or "toString"). |
| Trips.DayPlansOk | src/components/DailyReportPage.jsx:43-61 | An id the lookup finds gets 1 to 5 valid plans numbered from 0, each carrying the capacity found. |
| Trips.UnknownVehicleFails | src/components/DailyReportPage.jsx:84 | An id the lookup does not find, neither a master vehicle nor an inherited name, makes generation fail with the `TypeError` of reading a property of `undefined`. |
| Trips.UnknownVehiclePlans | src/components/DailyReportPage.jsx:84 | For such an id the plans fail on the first trip, whatever the draws. |
| Trips.GeneratedTrips | src/components/DailyReportPage.jsx:38-105 | A master vehicle gets 1 to 5 trips for a date. They have trip ids 1..k in order, carry that date, and each meets `TripOk`. |
| Trips.UndefinedCapacityScore | src/components/DailyReportPage.jsx:84-85 | With the capacity `undefined`, the energy is NaN, so the energy sub-score is 10 and the trip scores at most 80. |
| Trips.InheritedNameTrips | src/components/DailyReportPage.jsx:38-105 | An inherited name such as "constructor" does not throw. It gets 1 to 5 trips numbered 1..k on that date, none scoring above 80. |
| Trips.PushTrip | src/components/DailyReportPage.jsx:87 | Pushing the next trip extends the built list by that plan's trip. |
| Trips.DrawTrip | src/components/DailyReportPage.jsx:61-74 | Consumes the next nine draws of the generator, in the source's order, and nothing else. |
| Trips.RunRound | src/components/DailyReportPage.jsx:48-102 | One loop iteration does what `TripRound` specifies for the remaining draws, and an emitted trip consumes exactly ten draws. |
| Trips.RunRounds | src/components/DailyReportPage.jsx:48-104 | The loop returns the trips of `PlansFrom` over the generator's stream. |
| Trips.RunDay | src/components/DailyReportPage.jsx:41-104 | Drawing the count and start and running the loop gives the trips of `DayPlans`. |
| Trips.GenerateRandomTrips | src/components/DailyReportPage.jsx:38-105 | The imperative generator returns exactly `GenerateTrips(vehId, date)`. |
| ReportData.IndexOf | src/components/DailyReportPage.jsx:178 | Finding a vehicle's entry returns a position holding that key, or none when no entry has it. |
| ReportData.PutFacts | src/components/DailyReportPage.jsx:176-183 | Assigning a property keeps keys unique. A new key goes last and an existing key keeps its place; only that key's trips change. |
| ReportData.DayTrips | src/components/DailyReportPage.jsx:181 | A master vehicle's day has 1 to 5 trips numbered 1..k, with that date, each meeting `TripOk`. |
| ReportData.DayTripsGenerated | src/components/DailyReportPage.jsx:181 | `DayTrips` is what generation returns. |
| ReportData.TripsOverFacts | src/components/DailyReportPage.jsx:179-183 | A vehicle gets between one and five trips per date. Every trip's date is one of the dates, and every trip meets `TripOk`. |
| ReportData.ReportFacts | src/components/DailyReportPage.jsx:176-184 | The report's keys are unique and exactly the selected vehicles. Each entry holds its vehicle's trips over the dates. |
| ReportData.ReportOrder | src/components/DailyReportPage.jsx:177 | Distinct selected vehicles appear in selection order. |
| ReportData.VehicleTrips | src/components/DailyReportPage.jsx:179-183 | The per-date loop returns `TripsOver(vehId, dates)`. |
| ReportData.GenerateReport | src/components/DailyReportPage.jsx:176-184 | The per-vehicle loop returns `ReportOf(vehicles, DateRange(startDate, endDate))`. |
| TripStats.ClockMinutes | src/components/DailyReportPage.jsx:194-195 | A time text that parses is `HH:MM` and denotes at most 24 × 60 minutes, the end of the day, which only "24:00" denotes. |
| TripStats.EndOfDay | src/components/DailyReportPage.jsx:194-195 | "24:00" is read as the midnight ending the day, 24 hours after "00:00". |
| TripStats.ClockMinutesOfText | src/components/DailyReportPage.jsx:194-195 | A padded `HH:MM` text parses to 60·h + m. |
| TripStats.TripHours | src/components/DailyReportPage.jsx:194-196 | A trip's hours are defined exactly when its date and both times parse (otherwise NaN), and they lie between -24 and 24. |
| TripStats.Capacity | src/components/DailyReportPage.jsx:192 | A master vehicle's capacity is at most 70. |
| TripStats.TripKwhBounds | src/components/DailyReportPage.jsx:197-198 | For valid SOCs, the kWh of a trip is between 0 and 0.79 × 70. |
| TripStats.ShowFixed | src/components/DailyReportPage.jsx:196 | `x.toFixed(d)` prints "NaN" exactly for an undefined value, and otherwise the rounded number. |
| TripStats.RowCells | src/components/DailyReportPage.jsx:196-199 | The kWh and kWh-per-hour cells are never negative. Unparseable times give "NaN" hours and "0.00" per hour. |
| TripStats.Plus | src/components/DailyReportPage.jsx:359 | A sum is defined exactly when both terms are (NaN propagates). |
| TripStats.TripsTotalsFacts | src/components/DailyReportPage.jsx:354-363 | Adding trips counts each one. Operational time stays equal to hours, and hours stay defined exactly when every trip's are. |
| TripStats.TotalsFacts | src/components/DailyReportPage.jsx:347-364 | Over the whole report: the total trip count, operational time equal to hours, and hours defined exactly when all trips' are. |
| TripStats.TripsKwhBounds | src/components/DailyReportPage.jsx:360 | Adding trips raises total kWh by between 0 and 0.79 × 70 per trip. |
| TripStats.KwhBounds | src/components/DailyReportPage.jsx:360 | Total kWh lies between 0 and 0.79 × 70 times the trip count. |
| TripStats.Percent | src/components/DailyReportPage.jsx:366 | A positive divisor gives `(x / n * 100).toFixed(1)`. A zero divisor gives "Infinity" exactly when x > 0. |
| TripStats.UtilizationOf | src/components/DailyReportPage.jsx:366 | Utilization divides by 24 × days × 3 (all vehicles in the table, not just the selected ones). It shows "0.0" when hours are not positive, and "Infinity" for an empty range. |
| TripStats.SummaryFacts | src/components/DailyReportPage.jsx:346-368 | The summary counts every trip. Its hours are "NaN" exactly when some trip's hours are undefined, and utilization is as above. |
| TripStats.GetSummaryStats | src/components/DailyReportPage.jsx:346-368 | The accumulating loops return `SummaryOf(report, days in range)`. |
| TripStats.CountBand | src/components/DailyReportPage.jsx:407-409 | A band's count is at most the number of trips. |
| TripStats.BandsPartition | src/components/DailyReportPage.jsx:407-409 | The Low, Medium and High counts add up to the number of trips. |
| TripStats.SocUsage | src/components/DailyReportPage.jsx:405-415 | Each slice carries its band's positive count, every non-empty band has a slice, and slices keep the Low, Medium, High order. |
| TripStats.SocUsageTotal | src/components/DailyReportPage.jsx:405-415 | The slices add up to the number of trips. |
| TripStats.Alerts | src/components/DailyReportPage.jsx:865-869 | An alert is shown exactly when its rule fires, in the order low SOC, high temperature, high peak, long idle. |
| TripStats.GeneratedTripAlerts | src/components/DailyReportPage.jsx:866-869 | A generated trip never raises the temperature alert, and its first trip never raises the idle alert. A peak alert means peak > 1.2 × rated. The low-SOC alert fires exactly when the end SOC is 20 to 24. |
| TripTable.FilterTrips | src/components/DailyReportPage.jsx:337-344 | Keeps exactly the trips that match the query (empty, contained in the date, or equal to the trip id's text), never adding any and never repeating one more often than it occurs. |
| TripTable.FilterTripsAppend | src/components/DailyReportPage.jsx:337-344 | Filtering keeps the trips' order: filtering two runs of trips is filtering each run. |
| TripTable.FilterTripsCounts | src/components/DailyReportPage.jsx:337-344 | A matching trip is kept as often as it occurs, and any other trip is dropped. |
| TripTable.EmptyQueryKeepsAll | src/components/DailyReportPage.jsx:339 | An empty query keeps every trip, in order. |
| TripTable.DateQueryFindsTrip | src/components/DailyReportPage.jsx:340 | Searching a trip's own date keeps that trip. |
| TripTable.Key | src/components/DailyReportPage.jsx:318 | A column that is not a temperature reading has a key with no "Te", so it cannot contain "Temp". |
| TripTable.Compare | src/components/DailyReportPage.jsx:322-325 | The comparator returns 1 or -1, never 0. |
| TripTable.InOrderTotal | src/components/DailyReportPage.jsx:322-325 | On values of one kind, the comparator orders every pair one way or the other. |
| TripTable.InOrderTransitive | src/components/DailyReportPage.jsx:322-325 | On values of one kind, the comparator's order is transitive. |
| TripTable.ColumnKind | src/components/DailyReportPage.jsx:314-320 | Every trip gives a column's sort key of the same kind (number, string or undefined). |
| TripTable.FixedParses | src/components/DailyReportPage.jsx:316-320 | `parseFloat` of a `toFixed` text is its value and the text is non-empty, so the `or 0` fallback keeps it. |
| TripTable.Insert | src/components/DailyReportPage.jsx:313 | Inserting adds exactly the new trip (a permutation). |
| TripTable.SortBy | src/components/DailyReportPage.jsx:313 | Sorting returns a permutation of the trips. |
| TripTable.SortBySorted | src/components/DailyReportPage.jsx:313-326 | The sorted list is ordered by the comparator for the chosen direction. |
| TripTable.SortBySameValues | src/components/DailyReportPage.jsx:313-320 | Two readers that give the same key for every trip sort alike. |
| TripTable.SortWithSorts | src/components/DailyReportPage.jsx:312-328 | Sorting fails exactly when there are two or more trips and the column's temperature lookup misses. Otherwise it returns a sorted permutation. |
| TripTable.HydraulicOilSortThrows | src/components/DailyReportPage.jsx:319 | As written, sorting two or more trips by hydraulic oil fails. |
| TripTable.Entry | src/components/DailyReportPage.jsx:318-319 | Each temperature column's key is its `temps` entry followed by "Temp". |
| TripTable.SortFixedNeverThrows | src/components/DailyReportPage.jsx:319 | With the entry name kept as is, every column sorts without failing. |
| TripTable.SortsAgreeOutsideTemps | src/components/DailyReportPage.jsx:315-320 | Outside the temperature columns, the corrected sort is the written one. |
| TripTable.NextSort | src/components/DailyReportPage.jsx:330-335 | A click sorts by the clicked column. |
| TripTable.SortClicks | src/components/DailyReportPage.jsx:330-335 | A new column sorts ascending, and clicking the same column again flips the direction. Two clicks on the current column restore the configuration. |
| TripTable.LoweredReadable | src/components/DailyReportPage.jsx:318-320 | With the key lower-cased as written, the comparator can read every column except the hydraulic oil temperature. |
| TripTable.ShownTripsFacts | src/components/DailyReportPage.jsx:713-715 | Rendering the table fails exactly when it is sorted by hydraulic oil temperature with two or more matching trips. Otherwise the rows are a permutation of the filtered trips, exactly the matching ones, in the chosen column's order. |
| CsvExport.Spaced | src/components/DailyReportPage.jsx:189 | Spacing capitals never shortens the key. |
| CsvExport.SpacedRemoved | src/components/DailyReportPage.jsx:189 | Removing the spaces of a spaced key without spaces gives the key back. |
| CsvExport.HumanizeRoundTrip | src/components/DailyReportPage.jsx:189 | A header name determines its key: lower-casing the first letter and removing the spaces recovers the camel-case key. |
| CsvExport.EnabledIn | src/components/DailyReportPage.jsx:189 | Exactly the enabled columns, in declaration order. |
| CsvExport.HeaderNames | src/components/DailyReportPage.jsx:189 | One humanized name per enabled column, in order. |
| CsvExport.Cells | src/components/DailyReportPage.jsx:200-219 | One cell per enabled column, in order, each the cell of that column. |
| CsvExport.BuildRow | src/components/DailyReportPage.jsx:200-219 | The conditional pushes build exactly `Cells` of the enabled columns. |
| CsvExport.AppendTrips | src/components/DailyReportPage.jsx:193-221 | The inner loop appends one line per trip. |
| CsvExport.ExportCsv | src/components/DailyReportPage.jsx:189-222 | The export returns the header line followed by every vehicle's trip lines, in report order. |
| CsvExport.JoinCommas | src/components/DailyReportPage.jsx:220 | Joining comma-free parts with "," puts exactly one comma between each pair. |
| CsvExport.CellCommaFree | src/components/DailyReportPage.jsx:201-219 | Every cell is free of commas when the vehicle name, date and times are. |
| CsvExport.LinesAlign | src/components/DailyReportPage.jsx:189-220 | The header and every row have the same number of commas, one fewer than the enabled columns, so the columns line up. |
| Report.Validation | src/components/DailyReportPage.jsx:162-174 | A missing start date is reported first. An end before the start is reported exactly when both dates are set and out of order. The report goes ahead exactly when no check fails. |
| Report.DateHandlersKeepOrder | src/components/DailyReportPage.jsx:255-270 | Both handlers preserve: start ≤ today, and the end is empty or start ≤ end ≤ today (string order). |
| Report.EndDateCannotBeCleared | src/components/DailyReportPage.jsx:267 | While a start date is set, clearing the end input is ignored. |
| Report.OrderedDatesPassEndCheck | src/components/DailyReportPage.jsx:167 | Dates kept in order by the handlers never fail the end-before-start check. |
| Report.ReportPage.constructor | src/components/DailyReportPage.jsx:121-153 | The page starts on today with no end date, all vehicles, no sort, an empty query, all CSV columns and no report. |
| Report.ReportPage.Mount | src/components/DailyReportPage.jsx:155-160 | The first effect reports today for every vehicle without error. |
| Report.ReportPage.HandleGenerateReport | src/components/DailyReportPage.jsx:162-186 | The error is the validation's result. On an error the report is unchanged; otherwise it is rebuilt for the selection and range. |
| Report.ReportPage.HandleStartDateChange | src/components/DailyReportPage.jsx:255-263 | Applies the start-date rule, keeping the dates ordered. |
| Report.ReportPage.HandleEndDateChange | src/components/DailyReportPage.jsx:265-270 | Applies the end-date rule, keeping the dates ordered. |
| Report.ReportPage.SelectVehicles | src/components/DailyReportPage.jsx:601 | The selection becomes the chosen options. |
| Report.ReportPage.HandleSort | src/components/DailyReportPage.jsx:330-335 | The sort configuration becomes `NextSort` of the old one. |
| Report.ReportPage.ToggleCsvColumn | src/components/DailyReportPage.jsx:537 | A checkbox flips its own column and no other. |
| Report.ReportPage.SummaryStats | src/components/DailyReportPage.jsx:346-368 | The cards show `SummaryOf` the report over the days of the current inputs. |
| Report.ReportPage.CsvFile | src/components/DailyReportPage.jsx:188-222 | The file holds `CsvText` of the enabled columns over the report. |
| JsText.SurrogateOrder | src/components/DailyReportPage.jsx:257 | String `<` compares UTF-16 code units: a full-width letter sorts after an emoji, though it is the smaller character. |
| JsText.StrLtIrreflexive | src/components/DailyReportPage.jsx:257 | No string is less than itself. |
| JsText.StrLtAsymmetric | src/components/DailyReportPage.jsx:257-259 | String `<` never holds both ways. |
| JsText.StrLtTransitive | src/components/DailyReportPage.jsx:257-267 | String `<` is transitive. |
| JsText.StrLtTotal | src/components/DailyReportPage.jsx:322-325 | Two different strings are ordered one way or the other. |
| JsText.NatToString | src/components/DailyReportPage.jsx:341 | A number's decimal text is non-empty and all digits, and it is a single digit exactly for numbers below 10. |
| JsText.IntToString | src/components/DailyReportPage.jsx:341 | An integer's text is non-empty, and for a non-negative one it is its decimal text. |
| JsText.NatToStringValue | src/components/DailyReportPage.jsx:40 | The decimal text's value is the number. |
| JsText.PadStart | src/components/DailyReportPage.jsx:54 | `padStart` gives the target length, or keeps a longer text as long as it is. |
| JsText.ZeroPadValue | src/components/DailyReportPage.jsx:54 | Zero padding keeps the decimal value. |
| JsText.Pad2Monotonic | src/components/DailyReportPage.jsx:54-55 | A smaller number below 100 gives a strictly smaller two-digit padded text. |
| JsText.ContainsAt | src/components/DailyReportPage.jsx:340 | `includes` holds exactly when the text occurs at some position. |
| JsText.RemoveAll | src/components/DailyReportPage.jsx:39 | `replace(/-/g, '')` leaves no hyphen and never lengthens the text. |
| JsText.RemoveAllAppend | src/components/DailyReportPage.jsx:39 | Removing hyphens from two joined texts is removing them from each. |
| JsText.ToLower | src/components/DailyReportPage.jsx:319 | Lower-casing keeps the length and maps each character; only ASCII capitals change. |
| JsText.CodeUnits | src/components/UserProfileModal.jsx:12 | A text's `length` lies between its number of characters and twice that, and equals it exactly when no character lies beyond the Basic Multilingual Plane. |
| JsNumber.ToFixed | src/components/DailyReportPage.jsx:92-100 | `toFixed(d)` has d decimals and a minus sign exactly for negative numbers. |
| JsNumber.RoundingError | src/components/DailyReportPage.jsx:92-100 | The printed value is within half a unit of the last decimal. |
| JsNumber.ToFixedMonotonic | src/components/DailyReportPage.jsx:92-100 | Rounding keeps the order of non-negative numbers. |
| JsNumber.ToFixedWithin | src/components/DailyReportPage.jsx:92-100 | A number between two whole bounds rounds to a value between them. |
| JsNumber.ToFixedWhole | src/components/DailyReportPage.jsx:100 | `n.toFixed(0)` of a whole number is its decimal text and its value. |
| JsNumber.ParseText | src/components/DailyReportPage.jsx:316 | `parseFloat(x.toFixed(d))` is the printed value. |
| Motor.FreshSample | src/components/MotorPage.jsx:44-61 | From an empty base, every reading is truthy and in the range its draw allows, the numeric readings are base plus draw, and the timestamp is the clock's. |
| Motor.VehicleFieldsIgnoreBase | src/components/MotorPage.jsx:62-64 | Motor count, motor name and manufacturer depend only on the vehicle, and the count is 2 exactly for VCL001. |
| Motor.ReusesBase | src/components/MotorPage.jsx:47-61 | A truthy base's readings are kept unchanged and only the timestamp is new. |
| Motor.GeneratedIsFixedPoint | src/components/MotorPage.jsx:105-129 | Regenerating from a generated sample changes only its timestamp. |
| Motor.GaugeBounds | src/components/MotorPage.jsx:199-236 | For an in-range sample, the available torque is positive and the torque percentage lies strictly between 60 and 90 (also after `toFixed(1)`). The speed percentage is in [60, 70). |
| Motor.StatusIgnoresCase | src/components/MotorPage.jsx:217-233 | Status kind, colour and icon depend only on the lower-cased status. |
| Motor.ColorMatchesIcon | src/components/MotorPage.jsx:217-233 | Green goes with the check, yellow or red with the triangle, and grey with the activity icon. |
| Motor.GeneratedStatus | src/components/MotorPage.jsx:217-222 | A generated status is classified as normal or warning. |
| Motor.Last | src/components/MotorPage.jsx:126 | `slice(-n)` returns the final at most n elements, or all of them when there are fewer. |
| Motor.Window | src/components/MotorPage.jsx:116-127 | The window never exceeds ten points and ends with the new point. Under ten points it simply appends. |
| Motor.HistoryIsLastTen | src/components/MotorPage.jsx:90-127 | After any sequence of appends, the window is the last ten points in arrival order. |
| Motor.MotorMonitor.constructor | src/components/MotorPage.jsx:8-12 | The page starts with the empty sample, an empty history, and loading. |
| Motor.MotorMonitor.NoToken | src/components/MotorPage.jsx:149-155 | Without a token: the error is set and loading ends. |
| Motor.MotorMonitor.Connect | src/components/MotorPage.jsx:82-141 | The first sample is generated from `{}`, becomes the base, and is the history's single point; loading ends. |
| Motor.MotorMonitor.Tick | src/components/MotorPage.jsx:104-135 | The new sample is generated from the previous one and repeats it except for the timestamp. It becomes the base and is appended to the window. |
| Loader.RowValueAndUnit | src/components/LoaderParameters.jsx:112-115 | The value is the numeric value unless it is null or undefined, then the value, then 'N/A', so 0 and '' are kept. The unit is the item's unit when truthy, else 'N/A'. |
| Loader.RowSerial | src/components/LoaderParameters.jsx:116-118 | The serial is display serial ‖ vehicle id ‖ 'veh0011' for the two display categories, and vehicle id ‖ 'veh0011' otherwise. |
| Loader.RowsAlign | src/components/LoaderParameters.jsx:112-119 | The mapping keeps length and order, and every row has a value, a unit and a serial. |
| Loader.FetchError | src/components/LoaderParameters.jsx:100-124 | There is an error exactly when the response is not OK. It always starts with "Failed to fetch parameters: ": 401 and 404 have their messages and other codes give "HTTP error! status: N". |
| Loader.PushedRows | src/components/LoaderParameters.jsx:141-155 | A push message yields rows exactly when it is well-formed JSON, its table name is the selected category's, and it has data. The rows are that data mapped. |
| Loader.ParameterCache.constructor | src/components/LoaderParameters.jsx:55 | The cache starts empty. |
| Loader.LoaderPage.constructor | src/components/LoaderParameters.jsx:58-62 | The page starts closed, with no category, no rows, no loading and no error. |
| Loader.LoaderPage.FetchParameters | src/components/LoaderParameters.jsx:83-129 | A request is made exactly on a forced refresh or a cache miss. A hit shows the cached rows and changes nothing else. A success shows and caches the mapped rows under that category only. A failure sets the message and leaves rows and cache alone. Loading ends false. |
| Loader.LoaderPage.ViewDetails | src/components/LoaderParameters.jsx:175-179 | Opens the modal on the category and requests exactly when it is not cached. A cached category shows its cached rows with no error; otherwise the error is the response's, and only an OK response sets the rows and caches them under that category. Loading ends false. |
| Loader.LoaderPage.OnMessage | src/components/LoaderParameters.jsx:141-159 | A matching push replaces the rows and that cache entry only, and anything else changes nothing. |
| Loader.LoaderPage.OnSocketError | src/components/LoaderParameters.jsx:161-164 | Sets "Real-time updates unavailable". |
| Loader.LoaderPage.CloseModal | src/components/LoaderParameters.jsx:181-185 | Closes the modal and clears category and rows, leaving cache, error and loading intact. |
| Loader.LoaderPage.KeyDown | src/components/LoaderParameters.jsx:187-195 | Escape closes the modal, and any other key changes nothing. |
| Login.EmailValidIsPattern | src/components/LoginModal.jsx:14 | The regex holds exactly when the text has no white space, has an `@` with something before it, and after the `@` has a `.` that is neither first nor last. |
| Login.ValidEmailHasOneAt | src/components/LoginModal.jsx:14 | A valid email has exactly one `@`. |
| Login.LoginCheck | src/components/LoginModal.jsx:14-24 | An empty field is reported first. The format error is raised exactly for filled fields with a bad email, and the check passes exactly for filled fields with a matching email. |
| Login.FailureText | src/components/LoginModal.jsx:42 | The server's non-empty message is shown, and otherwise the fallback. |
| Login.LoginForm.constructor | src/components/LoginModal.jsx:7-11 | Empty fields, no error, password hidden, not loading. |
| Login.LoginForm.HandleLogin | src/components/LoginModal.jsx:13-28 | A request is sent exactly when the checks pass, and then the error is cleared and loading starts. Otherwise the check's message is set and loading is untouched. |
| Login.LoginForm.LoginSettled | src/components/LoginModal.jsx:29-45 | A success hands role, name, token and email on and closes the form, and a failure shows its message. Loading ends in every case. |
| Login.LoginForm.HandleKeyPress | src/components/LoginModal.jsx:48-52 | Enter starts a login only when not loading, and other keys change nothing. |
| Login.LoginForm.HandleReset | src/components/LoginModal.jsx:54-58 | Clears email, password and error. |
| Login.LoginForm.SetEmail | src/components/LoginModal.jsx:75 | The email field takes the typed value. |
| Login.LoginForm.SetPassword | src/components/LoginModal.jsx:85 | The password field takes the typed value. |
| Login.LoginForm.ToggleShowPassword | src/components/LoginModal.jsx:92 | The eye button flips visibility. |
| Profile.PasswordCheck | src/components/UserProfileModal.jsx:12-20 | Too short exactly when `length` is under 6 UTF-16 code units, which is checked first. Mismatch exactly when long enough but different. It passes exactly when long enough and equal. |
| Profile.LengthCheckCountsCodeUnits | src/components/UserProfileModal.jsx:12 | Six characters always pass the length check, and so do three emoji, as each takes two code units. |
| Profile.UpdatedIsGreen | src/components/UserProfileModal.jsx:27-75 | The success message contains "successfully" and is green. |
| Profile.FailureIsRed | src/components/UserProfileModal.jsx:31-75 | The failure message is red. |
| Profile.CheckErrorsAreRed | src/components/UserProfileModal.jsx:13-75 | Both check messages are red. |
| Profile.PasswordForm.constructor | src/components/UserProfileModal.jsx:4-7 | Empty fields, no message, not loading, nothing saved. |
| Profile.PasswordForm.HandleSubmit | src/components/UserProfileModal.jsx:9-35 | A failed check sets its message only, with no save. Otherwise `onSave` receives exactly the password and the success message shows, or the failure message if `onSave` throws; closing is scheduled only on success. Loading ends false. |
| Profile.PasswordForm.SetPassword | src/components/UserProfileModal.jsx:54 | The password field takes the typed value. |
| Profile.PasswordForm.SetConfirm | src/components/UserProfileModal.jsx:68 | The confirmation field takes the typed value. |
| Faults.ActiveFaults | src/components/FaultsPage.jsx:190 | Exactly the entries whose status is exactly 'Active', never more than there are. |
| Faults.ActiveFaultsAppend | src/components/FaultsPage.jsx:190 | The filter keeps entry order. |
| Faults.BannerFacts | src/components/FaultsPage.jsx:268-281 | "SYSTEM CLEAR" exactly when no status is 'Active'. Otherwise the banner is the decimal count followed by " ACTIVE FAULTS". |
| Faults.ColorMatchesIcon | src/components/FaultsPage.jsx:174-188 | Red goes with the triangle, green with the check, and grey with the circle. |
| Faults.CountedFaultsAreRed | src/components/FaultsPage.jsx:175-190 | Every counted fault is drawn red with the triangle. |
| Faults.UpperCaseActiveNotCounted | src/components/FaultsPage.jsx:175-190 | 'ACTIVE' is drawn red yet not counted, and the banner stays clear. |

## Left out

- Floating point: numbers are exact reals. `toFixed` rounds half up on the exact value, whereas an IEEE double may round a tie the other way. `%` and `Math.floor` on doubles are exact here.
- The seed is an exact integer. A seed text longer than 15 digits would lose precision as a double; the vehicle ids here give nine digits.
- `Date` and time zones: dates are proleptic Gregorian with four-digit years and no time zone. `toLocaleTimeString` of a history point is kept as its raw timestamp.
- `Calendar.DatesInRange` steps one whole day at a time. `getDatesInRange` (DailyReportPage.jsx:27-31) parses its bounds as UTC midnight, but steps with the local `getDate`/`setDate` and prints with the UTC `toISOString`. Where the local offset changes inside the range, the printed date can repeat or be skipped. East of Greenwich, in Europe/Berlin, 2025-03-29 to 2025-04-01 gives 29, 30, 30, 31: "30" repeats and the list stops short of the end date. The model holds for a browser time zone without an offset change in the range.
- `Calendar.DateRangeRises` and `Calendar.DateRangeLast` (no date repeats, the list ends with the end date) therefore hold only without such an offset change.
- `TripStats.TripHours` computes hours of the trip's own day from `HH:MM` texts, with "24:00" as the end of the day. This is what `new Date(date + 'T' + time)` gives for a parseable date in local time without a DST jump.
- `JsText.ToLower` lowers ASCII capitals only. `toLowerCase` also lowers other scripts and can change a text's length ("İ"). The texts it lowers here, status words and column keys, are ASCII.
- `JsText.PadStart` counts characters, not UTF-16 code units. It only pads digit texts here, where the two agree.
- `handlePresetDate` (DailyReportPage.jsx:272-310) is not modelled. It rebuilds dates through `toISOString` in the browser's time zone.
- The report's error view (DailyReportPage.jsx:437-445), `loading` and `isInitialLoad` are not modelled.
- Charts and their data, the summary cards' layout, the PDF export, and the Blob download with its file name are not modelled: `comparisonChartData`, the daily charts (370-403), jsPDF and html2canvas.
- The CSV file name is left out, along with the Blob; the export's text is `CsvExport.CsvText`.
- `Report.ReportPage.SelectVehicles` and `ReportData.GenerateReport` require vehicles from the table. The page's select only offers the table's ids.
- Search: the page never calls `setSearchQuery`, so the table's query stays empty. `TripTable.FilterTrips` is modelled for every query.
- `TripTable.SortBy`: for keys that compare equal, `Array.prototype.sort` with a comparator that never returns 0 has an engine-defined order. The model fixes an insertion order, and its contracts state only the permutation and the order by the comparator. Keys of different kinds (a number against a string) do not occur, because every trip gives a column the same kind.
- `CsvExport.LinesAlign` assumes comma-free vehicle names, dates and times, which holds for the table and the generated trips.
- Network, timers and sockets are not modelled: axios/fetch, the WebSocket open/close lifecycle, `setInterval`/`setTimeout` and React effect scheduling. Their results are parameters: `Loader.Response`, `Loader.PushMessage`, `Login.LoginResponse`, the `saveThrows` flag, and the motor draws and timestamps.
- Concurrent requests that settle out of order are not modelled.
- `Motor.MotorMonitor.Connect` models the mock `fetchConfig`/`fetchMotorData` that always succeed; the catch branch (MotorPage.jsx:142-146) cannot fire. Re-connection after unmount and the `config` object are not modelled.
- `Math.random` draws on the motor page are integer parameters within their ranges. The particle positions of the fault page are left out.
- `Profile.PasswordForm.HandleSubmit` models an exception from `onSave` as the parameter `saveThrows`. The one-second delay before `onClose` is the flag `closing`.
- `Loader.LoaderPage.FetchParameters`: a response body without `data` (the `.map` on undefined) is treated like any other thrown error, through `Response.Thrown`.

Notes on the code:

- The efficiency score lies in [45, 100]: the lowest sub-scores are 10 + 10 + 10 + 15. The comment at DailyReportPage.jsx:116 gives only the maximum, 100.
- A distance of 0 or less gives the energy sub-score 30, the best one, because `kwhPerKm` becomes 0.
- The first trip of a day is always emitted: it ends before 16:00, well before the 22:00 limit.
- Sorting the trip table by hydraulic oil temperature throws, and the model's table fails with it (see Findings).

## Findings

| source | as written | input that shows it | evidently intended | confidence | as-written member | corrected member |
|---|---|---|---|---|---|---|
| src/components/DailyReportPage.jsx:319 | Sorting by a temperature column looks up `temps[key.replace('Temp', '').toLowerCase()]`, and for `hydraulicOilTemp` that is `temps.hydraulicoil`, which does not exist (the entry is `hydraulicOil`), so reading `[1]` of it throws | clicking the "Hydraulic Oil" header with two or more trips on a day | look up the entry under its own name, `hydraulicOil`, as the other four temperature columns effectively do | not executed | TripTable.HydraulicOilSortThrows | TripTable.SortFixedNeverThrows |
