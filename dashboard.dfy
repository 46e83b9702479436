/**
 * The data logic of the ClimaTrack dashboard component: the search handler and
 * the state it updates, the filter that drops sentinel readings before display,
 * the choice of the day shown in the summary cards, the `YYYYMMDD` to
 * `YYYY-MM-DD` reformatting for the chart and the CSV export text.
 *
 * Rendering is reduced to the `View` value that says which branch of the
 * widget section is shown and with what data.
 */
module Dashboard {
  import opened Wrappers
  import opened Text
  import NasaPower
  import Geocode

  type DailyRecord = NasaPower.DailyRecord

  /** The placeholder the data service uses for a missing reading. */
  const Sentinel: real := -999.0

  /** The widget filter: temperature not the sentinel, precipitation not `null`, wind not the sentinel. */
  predicate IsValid(d: DailyRecord) {
    d.T2M != Sentinel && d.PRECTOT.Some? && d.WS10M != Some(Sentinel)
  }

  /** The elements of `a` occur in `b` in the same order, possibly with others in between. */
  predicate IsSubsequence(a: seq<DailyRecord>, b: seq<DailyRecord>)
    decreases |b|
  {
    if a == [] then true
    else if b == [] then false
    else if a[0] == b[0] then IsSubsequence(a[1..], b[1..])
    else IsSubsequence(a, b[1..])
  }

  /** `weatherData.filter(...)`: the records that pass the widget filter, in their order. */
  function ValidData(records: seq<DailyRecord>): (valid: seq<DailyRecord>)
    ensures forall d :: d in valid <==> d in records && IsValid(d)
    ensures IsSubsequence(valid, records)
  {
    if records == [] then []
    else
      var rest := ValidData(records[1..]);
      if IsValid(records[0]) then
        assert records[1..] == records[1..][..];
        [records[0]] + rest
      else
        assert rest != [] ==> rest[0] != records[0];
        rest
  }

  /** Filtering a concatenation filters each part: the filter keeps the input order. */
  lemma {:induction false} ValidDataAppend(a: seq<DailyRecord>, b: seq<DailyRecord>)
    ensures ValidData(a + b) == ValidData(a) + ValidData(b)
  {
    if a == [] {
      assert a + b == b;
    } else {
      assert (a + b)[0] == a[0] && (a + b)[1..] == a[1..] + b;
      ValidDataAppend(a[1..], b);
    }
  }

  /** The first element of the filtered list is the first record that passes the filter. */
  lemma {:induction false} FirstValidIsEarliest(records: seq<DailyRecord>)
    requires ValidData(records) != []
    ensures exists i :: 0 <= i < |records| && records[i] == ValidData(records)[0]
                        && forall j :: 0 <= j < i ==> !IsValid(records[j])
  {
    if !IsValid(records[0]) {
      FirstValidIsEarliest(records[1..]);
      var i :| 0 <= i < |records| - 1 && records[1..][i] == ValidData(records[1..])[0]
               && forall j :: 0 <= j < i ==> !IsValid(records[1..][j]);
      assert records[i + 1] == ValidData(records)[0];
      assert forall j :: 1 <= j < i + 1 ==> records[j] == records[1..][j - 1];
    } else {
      assert records[0] == ValidData(records)[0];
    }
  }

  /** `validData[0] || weatherData[0]`: the day shown in the summary cards. */
  function FirstDay(records: seq<DailyRecord>): (first: DailyRecord)
    requires |records| > 0
    ensures first in records
    ensures (forall d :: d in records ==> !IsValid(d)) ==> first == records[0]
    ensures (exists d :: d in records && IsValid(d)) ==>
              IsValid(first)
              && exists i :: 0 <= i < |records| && records[i] == first
                             && forall j :: 0 <= j < i ==> !IsValid(records[j])
  {
    var valid := ValidData(records);
    if |valid| > 0 then
      FirstValidIsEarliest(records);
      valid[0]
    else
      records[0]
  }

  /**
   * The chart's date text before it is handed to the date library: an 8-character
   * `YYYYMMDD` becomes `YYYY-MM-DD`; any other length passes through unchanged.
   */
  function ReformatDate(date: string): (r: string)
    ensures |date| == 8 ==> |r| == 10 && r[4] == '-' && r[7] == '-'
    ensures |date| == 8 ==> r[..4] + r[5..7] + r[8..] == date
    ensures |date| != 8 ==> r == date
  {
    if |date| == 8 then
      var r := date[0..4] + "-" + date[4..6] + "-" + date[6..8];
      assert r[..4] == date[0..4] && r[5..7] == date[4..6] && r[8..] == date[6..8];
      assert date[0..4] + date[4..6] + date[6..8] == date;
      r
    else
      date
  }

  /** A summary card: "No Data", or the reading it shows (`None` is shown as `null`). */
  datatype Card = NoData | Shows(reading: Option<real>)

  /** One chart point: the reformatted day and the temperature (`None` for `null`). */
  datatype ChartPoint = ChartPoint(day: string, temperature: Option<real>)

  /** The branch of the widget section that is shown. */
  datatype View =
    | Prompt        // no data yet: "Enter a location and select a date range"
    | NoValidData   // records exist but none passes the filter
    | Widgets(temperature: Card, precipitation: Card, windSpeed: Card, chart: seq<ChartPoint>)

  function PointFor(d: DailyRecord): ChartPoint {
    ChartPoint(ReformatDate(d.date), if d.T2M != Sentinel then Some(d.T2M) else None)
  }

  /** `validData.map(...)`: one chart point per valid record, in order. */
  function Chart(valid: seq<DailyRecord>): (points: seq<ChartPoint>)
    ensures |points| == |valid|
    ensures forall i :: 0 <= i < |valid| ==> points[i] == PointFor(valid[i])
  {
    if valid == [] then [] else [PointFor(valid[0])] + Chart(valid[1..])
  }

  /** The widget section for the stored endpoint answer. */
  function Render(weatherData: Option<NasaPower.Response>): View {
    if weatherData.Some? && weatherData.value.Success? && |weatherData.value.weatherData| > 0 then
      var records := weatherData.value.weatherData;
      var validData := ValidData(records);
      var firstDay := FirstDay(records);
      if |validData| == 0 then NoValidData
      else
        Widgets(
          if firstDay.T2M != Sentinel then Shows(Some(firstDay.T2M)) else NoData,
          if firstDay.PRECTOT.Some? then Shows(firstDay.PRECTOT) else NoData,
          if firstDay.WS10M != Some(Sentinel) then Shows(firstDay.WS10M) else NoData,
          Chart(validData))
    else
      Prompt
  }

  /**
   * The "no valid data" branch is shown exactly when records exist and none passes the
   * filter; otherwise the cards show the first valid day and never "No Data", and every
   * chart point carries its record's temperature, never `null`.
   */
  lemma RenderedWidgets(records: seq<DailyRecord>, response: NasaPower.Response)
    requires response.Success? && response.weatherData == records && |records| > 0
    ensures Render(Some(response)) == NoValidData <==> forall d :: d in records ==> !IsValid(d)
    ensures Render(Some(response)).Widgets? ==>
              var v := Render(Some(response));
              var validData := ValidData(records);
              && v.temperature == Shows(Some(FirstDay(records).T2M))
              && v.precipitation == Shows(FirstDay(records).PRECTOT)
              && v.windSpeed == Shows(FirstDay(records).WS10M)
              && |v.chart| == |validData|
              && forall i :: 0 <= i < |validData| ==>
                   v.chart[i].temperature == Some(validData[i].T2M)
                   && v.chart[i].day == ReformatDate(validData[i].date)
  {
    var validData := ValidData(records);
    if |validData| > 0 {
      assert validData[0] in validData;
      forall i | 0 <= i < |validData| ensures IsValid(validData[i]) {
        assert validData[i] in validData;
      }
    }
  }

  /** The prompt is shown exactly when no success answer with at least one record is stored. */
  lemma PromptWithoutRecords(weatherData: Option<NasaPower.Response>)
    ensures Render(weatherData) == Prompt <==>
              !(weatherData.Some? && weatherData.value.Success? && |weatherData.value.weatherData| > 0)
  {
  }

  /** The filter is asymmetric: a -999 precipitation and a missing wind speed both pass it. */
  lemma FilterKeepsSentinelPrecipitation(date: string, temperature: real)
    requires temperature != Sentinel
    ensures IsValid(NasaPower.DailyRecord(date, temperature, Some(Sentinel), None))
  {
  }

  // ---- CSV export ----

  /** `Object.keys` of a record as the endpoint builds it. */
  const CsvColumns: seq<string> := ["date", "T2M", "PRECTOT", "WS10M"]

  /** `Array.prototype.join` writes `null` as the empty string and a number with `numberText`. */
  function CsvCell(v: Option<real>, numberText: real -> string): string {
    if v.None? then "" else numberText(v.value)
  }

  /** `Object.values(row)` as the text `join` puts between the commas. */
  function CsvFields(d: DailyRecord, numberText: real -> string): seq<string> {
    [d.date, numberText(d.T2M), CsvCell(d.PRECTOT, numberText), CsvCell(d.WS10M, numberText)]
  }

  function CsvRows(records: seq<DailyRecord>, numberText: real -> string): (rows: seq<string>)
    ensures |rows| == |records|
    ensures forall i :: 0 <= i < |records| ==> rows[i] == Join(CsvFields(records[i], numberText), ',')
  {
    if records == [] then []
    else [Join(CsvFields(records[0], numberText), ',')] + CsvRows(records[1..], numberText)
  }

  /** The header line, a newline, and one comma-joined line per record separated by newlines. */
  function Csv(records: seq<DailyRecord>, numberText: real -> string): string
    requires |records| > 0
  {
    Join(CsvColumns, ',') + "\n" + Join(CsvRows(records, numberText), '\n')
  }

  /** The text the CSV download offers, when the stored answer holds a non-empty record list. */
  function CsvExport(weatherData: Option<NasaPower.Response>, numberText: real -> string): (csv: Option<string>)
    ensures csv.Some? <==> weatherData.Some? && weatherData.value.Success? && |weatherData.value.weatherData| > 0
  {
    if weatherData.Some? && weatherData.value.Success? && |weatherData.value.weatherData| > 0
    then Some(Csv(weatherData.value.weatherData, numberText))
    else None
  }

  /** A number's text never contains a comma or a newline. */
  ghost predicate PlainNumbers(numberText: real -> string) {
    forall x :: ',' !in numberText(x) && '\n' !in numberText(x)
  }

  /** The header line, as `Object.keys` of a record joined by commas. */
  lemma HeaderText()
    ensures Join(CsvColumns, ',') == "date,T2M,PRECTOT,WS10M"
  {
    var c := CsvColumns;
    assert Join(c[3..], ',') == "WS10M";
    assert Join(c[2..], ',') == "PRECTOT,WS10M" by { assert c[2..][1..] == c[3..]; }
    assert Join(c[1..], ',') == "T2M,PRECTOT,WS10M" by { assert c[1..][1..] == c[2..]; }
  }

  /** The header line splits back into the four column names. */
  lemma HeaderColumns()
    ensures Split(Join(CsvColumns, ','), ',') == CsvColumns
  {
    assert forall k :: 0 <= k < |CsvColumns| ==> ',' !in CsvColumns[k];
    SplitJoin(CsvColumns, ',');
  }

  /** The header line holds no newline. */
  lemma HeaderPlain()
    ensures '\n' !in Join(CsvColumns, ',')
  {
    assert forall k :: 0 <= k < |CsvColumns| ==> '\n' !in CsvColumns[k];
    NoSeparatorInJoin(CsvColumns, ',', '\n');
  }

  /** The export is the header and the record lines joined by newlines. */
  lemma CsvIsJoinedLines(records: seq<DailyRecord>, numberText: real -> string)
    requires |records| > 0
    ensures Csv(records, numberText) == Join([Join(CsvColumns, ',')] + CsvRows(records, numberText), '\n')
  {
    var lines := [Join(CsvColumns, ',')] + CsvRows(records, numberText);
    assert lines[1..] == CsvRows(records, numberText);
  }

  /** No cell of a record holds a comma, so its line holds no newline. */
  lemma PlainRow(d: DailyRecord, numberText: real -> string)
    requires PlainNumbers(numberText)
    requires ',' !in d.date && '\n' !in d.date
    ensures forall k :: 0 <= k < 4 ==> ',' !in CsvFields(d, numberText)[k] && '\n' !in CsvFields(d, numberText)[k]
    ensures '\n' !in Join(CsvFields(d, numberText), ',')
  {
    var fields := CsvFields(d, numberText);
    assert ',' !in numberText(d.T2M) && '\n' !in numberText(d.T2M);
    if d.PRECTOT.Some? {
      var x: real := d.PRECTOT.value;
      assert ',' !in numberText(x) && '\n' !in numberText(x);
    }
    if d.WS10M.Some? {
      var x: real := d.WS10M.value;
      assert ',' !in numberText(x) && '\n' !in numberText(x);
    }
    NoSeparatorInJoin(fields, ',', '\n');
  }

  /** Every line of the export splits back into its own record's cells. */
  lemma RowsSplitBack(records: seq<DailyRecord>, numberText: real -> string)
    requires PlainNumbers(numberText)
    requires forall d :: d in records ==> ',' !in d.date && '\n' !in d.date
    ensures forall i :: 0 <= i < |records| ==> '\n' !in CsvRows(records, numberText)[i]
    ensures forall i :: 0 <= i < |records| ==>
              Split(CsvRows(records, numberText)[i], ',') == CsvFields(records[i], numberText)
  {
    forall i | 0 <= i < |records|
      ensures '\n' !in CsvRows(records, numberText)[i]
      ensures Split(CsvRows(records, numberText)[i], ',') == CsvFields(records[i], numberText)
    {
      assert records[i] in records;
      PlainRow(records[i], numberText);
      SplitJoin(CsvFields(records[i], numberText), ',');
    }
  }

  /**
   * Reading the export back: splitting on newlines gives the header and then one line per
   * record, in order, and splitting a line on commas gives that record's four cells.
   */
  lemma {:induction false} CsvLines(records: seq<DailyRecord>, numberText: real -> string)
    requires |records| > 0
    requires PlainNumbers(numberText)
    requires forall d :: d in records ==> ',' !in d.date && '\n' !in d.date
    ensures var lines := Split(Csv(records, numberText), '\n');
            && |lines| == |records| + 1
            && lines[0] == "date,T2M,PRECTOT,WS10M"
            && Split(lines[0], ',') == CsvColumns
            && forall i :: 0 <= i < |records| ==> Split(lines[i + 1], ',') == CsvFields(records[i], numberText)
  {
    var rows := CsvRows(records, numberText);
    var header := Join(CsvColumns, ',');
    HeaderPlain();
    RowsSplitBack(records, numberText);
    var all := [header] + rows;
    assert forall k :: 0 <= k < |all| ==> '\n' !in all[k];
    CsvIsJoinedLines(records, numberText);
    SplitJoin(all, '\n');
    assert Split(Csv(records, numberText), '\n') == all;
    HeaderColumns();
    HeaderText();
  }

  /** Joining parts free of `c` with a separator other than `c` gives a text free of `c`. */
  lemma {:induction false} NoSeparatorInJoin(parts: seq<string>, sep: char, c: char)
    requires sep != c
    requires forall k :: 0 <= k < |parts| ==> c !in parts[k]
    ensures c !in Join(parts, sep)
  {
    if |parts| > 1 {
      NoSeparatorInJoin(parts[1..], sep, c);
    }
  }

  // ---- The search handler and the component state ----

  /** What a `fetch` to one of the two endpoints gives: a transport failure or the endpoint's answer. */
  datatype Reply<T> = Unreachable(reason: string) | Delivered(body: T)

  /** One state update or request made by the search handler, in the order it makes them. */
  datatype Step =
    | SetError(error: Option<string>)
    | SetLoading(loading: bool)
    | SetWeatherData(weatherData: Option<NasaPower.Response>)
    | SetCurrentLatitude(latitude: string)
    | SetCurrentLongitude(longitude: string)
    | FetchGeocode(location: string)
    | FetchWeather(query: NasaPower.Query)

  const SearchPrecheckError := "Please enter a location and select a date range."
  const NoCoordinatesError := "Could not get coordinates for the entered location."
  const DefaultLatitude := "30.3753"
  const DefaultLongitude := "69.3451"

  function GeocodeFailedError(status: nat): string {
    "Geocoding failed with status: " + Decimal(status)
  }

  function HttpError(status: nat): string {
    "HTTP error! status: " + Decimal(status)
  }

  /** The message shown for any failure after the pre-check, wrapping the error's own message. */
  function FetchFailedError(message: string): string {
    "Failed to fetch weather data: " + message + ". Please try again."
  }

  /** The only form of weather query the dashboard sends: coordinates and a start/end range. */
  function WeatherQuery(latitude: string, longitude: string, start: string, end: string): NasaPower.Query {
    NasaPower.Query(Some(latitude), Some(longitude), None, Some(start), Some(end))
  }

  /** The geocoding reply is OK and carries two non-empty coordinates. */
  predicate AcceptsGeocode(reply: Reply<Geocode.Response>) {
    && reply.Delivered?
    && NasaPower.IsOkStatus(Geocode.StatusOf(reply.body))
    && reply.body.Coordinates?
    && reply.body.latitude != ""
    && reply.body.longitude != ""
  }

  /** The message of the error thrown for a geocoding reply the dashboard does not accept. */
  function GeocodeErrorMessage(reply: Reply<Geocode.Response>): string {
    match reply
    case Unreachable(reason) => reason
    case Delivered(body) =>
      if !NasaPower.IsOkStatus(Geocode.StatusOf(body)) then GeocodeFailedError(Geocode.StatusOf(body))
      else NoCoordinatesError
  }

  predicate AcceptsWeather(reply: Reply<NasaPower.Response>) {
    reply.Delivered? && NasaPower.IsOkStatus(NasaPower.StatusOf(reply.body))
  }

  function WeatherErrorMessage(reply: Reply<NasaPower.Response>): string {
    match reply
    case Unreachable(reason) => reason
    case Delivered(body) => HttpError(NasaPower.StatusOf(body))
  }

  /** The first four steps of every search that passes the pre-check. */
  function Started(location: string): seq<Step> {
    [SetLoading(true), SetError(None), SetWeatherData(None), FetchGeocode(location)]
  }

  /** The steps after an accepted geocoding answer: both coordinates stored, then the weather request. */
  function Located(coordinates: Geocode.Response, start: string, end: string): seq<Step>
    requires coordinates.Coordinates?
  {
    [SetCurrentLatitude(coordinates.latitude), SetCurrentLongitude(coordinates.longitude),
     FetchWeather(WeatherQuery(coordinates.latitude, coordinates.longitude, start, end))]
  }

  /** A picked day as `format(day, "yyyyMMdd")` writes it: never empty. */
  type DateText = s: string | |s| > 0 witness "19700101"

  class ClimaTrackDashboard {
    var location: string
    var from: Option<DateText>  // the range start, as its `yyyyMMdd` text
    var to: Option<DateText>    // the range end, as its `yyyyMMdd` text
    var weatherData: Option<NasaPower.Response>
    var loading: bool
    var error: Option<string>
    var currentLatitude: string
    var currentLongitude: string

    /** Only an answer fetched with an OK status is stored, and that is always the success envelope. */
    ghost predicate Valid()
      reads this
    {
      weatherData.Some? ==> weatherData.value.Success?
    }

    /** The initial state; `today` stands for `new Date()`. */
    constructor (today: DateText)
      ensures Valid()
      ensures location == "" && from == Some(today) && to == Some(today)
      ensures weatherData == None && !loading && error == None
      ensures currentLatitude == DefaultLatitude && currentLongitude == DefaultLongitude
    {
      location := "";
      from := Some(today);
      to := Some(today);
      weatherData := None;
      loading := false;
      error := None;
      currentLatitude := DefaultLatitude;
      currentLongitude := DefaultLongitude;
    }

    /** The location input's `onChange`. */
    method SetLocation(text: string)
      requires Valid()
      modifies this`location
      ensures Valid() && location == text
    {
      location := text;
    }

    /** The calendar's `onSelect`. */
    method SetDateRange(start: Option<DateText>, end: Option<DateText>)
      requires Valid()
      modifies this`from, this`to
      ensures Valid() && from == start && to == end
    {
      from := start;
      to := end;
    }

    /**
     * `handleDownloadCsv` on the stored answer: since only a success envelope is ever
     * stored, an export is offered exactly when a record list is stored and is not empty.
     */
    function CsvDownload(numberText: real -> string): (csv: Option<string>)
      reads this
      requires Valid()
      ensures csv.Some? <==> weatherData.Some? && |weatherData.value.weatherData| > 0
      ensures csv.Some? ==> csv.value == Csv(weatherData.value.weatherData, numberText)
    {
      CsvExport(weatherData, numberText)
    }

    /** The search can start: a location is typed and both ends of the range are picked. */
    predicate Ready()
      reads this
    {
      location != "" && from.Some? && to.Some?
    }

    /**
     * `handleSearch`. The two replies are what the endpoints would answer; a reply is only
     * used if the handler gets as far as its request, and `steps` lists the state updates
     * and requests in the order the handler makes them.
     */
    method HandleSearch(geocodeReply: Reply<Geocode.Response>, weatherReply: Reply<NasaPower.Response>)
      returns (steps: seq<Step>)
      requires Valid()
      requires weatherReply.Delivered? ==> NasaPower.WellFormedResponse(weatherReply.body)
      modifies this
      ensures Valid()
      ensures location == old(location) && from == old(from) && to == old(to)
      ensures !old(Ready()) ==>
                && steps == [SetError(Some(SearchPrecheckError))]
                && error == Some(SearchPrecheckError)
                && loading == old(loading) && weatherData == old(weatherData)
                && currentLatitude == old(currentLatitude) && currentLongitude == old(currentLongitude)
      ensures old(Ready()) ==> !loading
      ensures old(Ready()) && !AcceptsGeocode(geocodeReply) ==>
                var message := FetchFailedError(GeocodeErrorMessage(geocodeReply));
                && steps == Started(location) + [SetError(Some(message)), SetLoading(false)]
                && error == Some(message) && weatherData == None
                && currentLatitude == old(currentLatitude) && currentLongitude == old(currentLongitude)
      ensures old(Ready()) && AcceptsGeocode(geocodeReply) ==>
                currentLatitude == geocodeReply.body.latitude && currentLongitude == geocodeReply.body.longitude
      ensures old(Ready()) && AcceptsGeocode(geocodeReply) && AcceptsWeather(weatherReply) ==>
                && steps == Started(location) + Located(geocodeReply.body, from.value, to.value)
                            + [SetWeatherData(Some(weatherReply.body)), SetLoading(false)]
                && weatherData == Some(weatherReply.body) && error == None
      ensures old(Ready()) && AcceptsGeocode(geocodeReply) && !AcceptsWeather(weatherReply) ==>
                var message := FetchFailedError(WeatherErrorMessage(weatherReply));
                && steps == Started(location) + Located(geocodeReply.body, from.value, to.value)
                            + [SetError(Some(message)), SetLoading(false)]
                && weatherData == None && error == Some(message)
    {
      if location == "" || from.None? || to.None? {
        error := Some(SearchPrecheckError);
        steps := [SetError(Some(SearchPrecheckError))];
        return;
      }
      loading := true;
      error := None;
      weatherData := None;
      steps := [SetLoading(true), SetError(None), SetWeatherData(None)];
      var thrown, fetched := TryFetch(geocodeReply, weatherReply);
      steps := steps + fetched;
      if thrown.Some? {
        error := Some(FetchFailedError(thrown.value));
        steps := steps + [SetError(error)];
      }
      loading := false;
      steps := steps + [SetLoading(false)];
    }

    /**
     * The `try` block of `handleSearch`: the two requests and what is stored from their
     * answers. `thrown` is the message of the error it throws, if any, and `steps` the
     * requests and state updates it makes.
     */
    method TryFetch(geocodeReply: Reply<Geocode.Response>, weatherReply: Reply<NasaPower.Response>)
      returns (thrown: Option<string>, steps: seq<Step>)
      requires from.Some? && to.Some? && weatherData == None
      requires weatherReply.Delivered? ==> NasaPower.WellFormedResponse(weatherReply.body)
      modifies this`currentLatitude, this`currentLongitude, this`weatherData
      ensures !AcceptsGeocode(geocodeReply) ==>
                && thrown == Some(GeocodeErrorMessage(geocodeReply)) && steps == [FetchGeocode(location)]
                && weatherData == None
                && currentLatitude == old(currentLatitude) && currentLongitude == old(currentLongitude)
      ensures AcceptsGeocode(geocodeReply) ==>
                currentLatitude == geocodeReply.body.latitude && currentLongitude == geocodeReply.body.longitude
      ensures AcceptsGeocode(geocodeReply) && AcceptsWeather(weatherReply) ==>
                && thrown == None
                && steps == [FetchGeocode(location)] + Located(geocodeReply.body, from.value, to.value)
                            + [SetWeatherData(Some(weatherReply.body))]
                && weatherData == Some(weatherReply.body) && weatherReply.body.Success?
      ensures AcceptsGeocode(geocodeReply) && !AcceptsWeather(weatherReply) ==>
                && thrown == Some(WeatherErrorMessage(weatherReply))
                && steps == [FetchGeocode(location)] + Located(geocodeReply.body, from.value, to.value)
                && weatherData == None
    {
      thrown := None;
      steps := [FetchGeocode(location)];
      match geocodeReply {
        case Unreachable(reason) =>
          thrown := Some(reason);
        case Delivered(geocodeData) =>
          if !NasaPower.IsOkStatus(Geocode.StatusOf(geocodeData)) {
            thrown := Some(GeocodeFailedError(Geocode.StatusOf(geocodeData)));
          } else if !geocodeData.Coordinates? || geocodeData.latitude == "" || geocodeData.longitude == "" {
            thrown := Some(NoCoordinatesError);
          } else {
            var latitude := geocodeData.latitude;
            var longitude := geocodeData.longitude;
            currentLatitude := latitude;
            currentLongitude := longitude;
            var query := WeatherQuery(latitude, longitude, from.value, to.value);
            steps := steps + [SetCurrentLatitude(latitude), SetCurrentLongitude(longitude), FetchWeather(query)];
            match weatherReply {
              case Unreachable(reason) =>
                thrown := Some(reason);
              case Delivered(response) =>
                if !NasaPower.IsOkStatus(NasaPower.StatusOf(response)) {
                  thrown := Some(HttpError(NasaPower.StatusOf(response)));
                } else {
                  weatherData := Some(response);
                  steps := steps + [SetWeatherData(Some(response))];
                }
            }
          }
      }
    }
  }

  /** The dashboard's weather query always passes the endpoint's checks and asks for its range. */
  lemma WeatherQueryAccepted(latitude: string, longitude: string, start: DateText, end: DateText,
                             reply: NasaPower.Upstream)
    requires latitude != "" && longitude != ""
    ensures NasaPower.Respond(WeatherQuery(latitude, longitude, start, end), reply).fetched
            == Some(NasaPower.UpstreamRequest(longitude, latitude, start, end))
  {
  }

  /**
   * The weather request in the search trace after an accepted geocoding answer (see
   * `HandleSearch`) is always sent upstream, for the stored coordinates and the picked range.
   */
  lemma LocatedQueryAccepted(geocodeReply: Reply<Geocode.Response>, start: DateText, end: DateText,
                             reply: NasaPower.Upstream)
    requires AcceptsGeocode(geocodeReply)
    ensures Located(geocodeReply.body, start, end)[2].FetchWeather?
    ensures NasaPower.Respond(Located(geocodeReply.body, start, end)[2].query, reply).fetched
            == Some(NasaPower.UpstreamRequest(geocodeReply.body.longitude, geocodeReply.body.latitude, start, end))
  {
    WeatherQueryAccepted(geocodeReply.body.latitude, geocodeReply.body.longitude, start, end, reply);
  }

  /** For a typed location the geocoder's answer is always accepted: its two error paths never fire. */
  lemma GeocodeAnswerAccepted(location: string)
    requires location != ""
    ensures AcceptsGeocode(Delivered(Geocode.Answer(Some(location))))
  {
    Geocode.AnswerIsKnownPair(Some(location));
  }
}
