/**
 * The weather endpoint (`GET /api/nasa-power`): it checks the query, picks the
 * start and end day, issues one request to the NASA POWER daily point service,
 * classifies what comes back and reshapes the per-parameter series into one
 * record per day.
 *
 * The network is abstracted: `Respond` receives the upstream answer as a value
 * and reports which request, if any, it would have sent.
 */
module NasaPower {
  import opened Wrappers
  import opened Text

  /** A query parameter as `searchParams.get` returns it; `None` is `null`. */
  type Param = Option<string>

  /** JavaScript truthiness of a query parameter: present and not empty. */
  predicate Given(p: Param) {
    p.Some? && p.value != ""
  }

  /** `a || b` on two query parameters. */
  function Or(a: Param, b: Param): Param {
    if Given(a) then a else b
  }

  datatype Query = Query(
    latitude: Param,
    longitude: Param,
    date: Param,       // a single day, YYYYMMDD
    startDate: Param,  // range start
    endDate: Param)    // range end

  /** No day key occurs twice: a parsed JSON object holds each key once (the last value wins). */
  predicate DistinctKeys(entries: seq<(string, real)>) {
    forall i, j :: 0 <= i < j < |entries| ==> entries[i].0 != entries[j].0
  }

  /** The (day key, reading) pairs of one parsed object, in `Object.keys` order. */
  type Entries = entries: seq<(string, real)> | DistinctKeys(entries) witness []

  /** One series of the upstream payload. */
  datatype Series = Series(entries: Entries)

  /** `properties.parameter`: the three series the endpoint asks for, each possibly missing. */
  datatype Parameters = Parameters(T2M: Option<Series>, PRECTOT: Option<Series>, WS10M: Option<Series>)

  datatype Properties = Properties(parameter: Option<Parameters>)

  /** The parsed JSON body of a successful upstream answer. */
  datatype Payload = Payload(properties: Option<Properties>)

  /** What the upstream service answers: a non-OK status with its body text, or an OK JSON body. */
  datatype Upstream = NotOk(status: nat, text: string) | Ok(payload: Payload)

  /** The one request the endpoint sends upstream. */
  datatype UpstreamRequest = UpstreamRequest(longitude: string, latitude: string, start: string, end: string)

  /** One normalised day; `None` stands for JSON `null`. */
  datatype DailyRecord = DailyRecord(date: string, T2M: real, PRECTOT: Option<real>, WS10M: Option<real>)

  datatype Location = Location(latitude: string, longitude: string)

  datatype DateRange = DateRange(start: string, end: string)

  /** The optional diagnostic part of an error body. */
  datatype Details = NoDetails | ErrorText(details: string) | RawData(rawData: Payload)

  /** The JSON body and status the endpoint answers with. */
  datatype Response =
    | Success(location: Location, dateRange: DateRange, weatherData: seq<DailyRecord>, message: string)
    | Failure(status: nat, error: string, details: Details)

  /** The request sent upstream (if any) together with the endpoint's answer. */
  datatype Outcome = Outcome(fetched: Option<UpstreamRequest>, response: Response)

  /** The status of both validation failures. */
  const BadRequest: nat := 400

  const MissingParametersError := "Missing latitude, longitude, or date/date range parameters"
  const InvalidDatesError := "Invalid date parameters. Provide either 'date' or 'startDate' and 'endDate'."
  const UnexpectedFormatError := "Unexpected NASA API response format"
  const SuccessMessage := "Data fetched successfully from NASA POWER API"

  function UpstreamFailedError(status: nat): string {
    "NASA API failed with status " + Decimal(status)
  }

  /** The HTTP status of an answer; `NextResponse.json` without a status gives 200. */
  function StatusOf(r: Response): nat {
    if r.Success? then 200 else r.status
  }

  predicate IsOkStatus(status: nat) {
    200 <= status <= 299
  }

  /** `fetch` reports `ok == false` exactly for statuses outside 200–299. */
  predicate WellFormedUpstream(u: Upstream) {
    u.NotOk? ==> !IsOkStatus(u.status)
  }

  /** An answer has a 2xx status exactly when it is the success envelope. */
  predicate WellFormedResponse(r: Response) {
    IsOkStatus(StatusOf(r)) <==> r.Success?
  }

  /** The query carries coordinates and a day or a complete range. */
  predicate Complete(q: Query) {
    Given(q.latitude) && Given(q.longitude) && (Given(q.date) || (Given(q.startDate) && Given(q.endDate)))
  }

  /** The service endpoint, with the three parameters and the community fixed. */
  const ServiceBase := "https://power.larc.nasa.gov/api/temporal/daily/point?parameters=T2M,PRECTOT,WS10M&community=RE"

  /** The request-specific part of the URL. */
  function UrlQuery(r: UpstreamRequest): string {
    "&longitude=" + r.longitude + "&latitude=" + r.latitude + "&start=" + r.start + "&end=" + r.end + "&format=JSON"
  }

  /** The service URL for a request; only the external service reads it. */
  function Url(r: UpstreamRequest): string {
    ServiceBase + UrlQuery(r)
  }

  /** The URL is the fixed endpoint followed by the request's longitude and latitude, then its start and end. */
  lemma UrlCarriesRequest(r: UpstreamRequest)
    ensures StartsWith(Url(r), ServiceBase)
    ensures OccursAt(Url(r), "&longitude=" + r.longitude + "&latitude=" + r.latitude, |ServiceBase|)
    ensures Contains(Url(r), "&start=" + r.start + "&end=" + r.end)
  {
    var u := Url(r);
    var lonLat := "&longitude=" + r.longitude + "&latitude=" + r.latitude;
    var range := "&start=" + r.start + "&end=" + r.end;
    assert UrlQuery(r) == lonLat + range + "&format=JSON";
    assert u == ServiceBase + lonLat + range + "&format=JSON";
    assert u[..|ServiceBase|] == ServiceBase;
    assert u[|ServiceBase|..|ServiceBase| + |lonLat|] == lonLat;
    var at := |ServiceBase| + |lonLat|;
    assert u[at..at + |range|] == range;
    assert OccursAt(u, range, at);
  }

  /** `series[key]`: the reading at the first entry with that key, `None` if there is none. */
  function Lookup(entries: seq<(string, real)>, key: string): (v: Option<real>)
    ensures v.None? <==> forall i :: 0 <= i < |entries| ==> entries[i].0 != key
    ensures v.Some? ==> exists i :: 0 <= i < |entries| && entries[i] == (key, v.value)
                                   && forall j :: 0 <= j < i ==> entries[j].0 != key
  {
    if entries == [] then None
    else if entries[0].0 == key then Some(entries[0].1)
    else
      var v := Lookup(entries[1..], key);
      if v.Some? then
        var i :| 0 <= i < |entries| - 1 && entries[1..][i] == (key, v.value)
                 && forall j :: 0 <= j < i ==> entries[1..][j].0 != key;
        assert entries[i + 1] == (key, v.value);
        assert forall j :: 1 <= j < i + 1 ==> entries[j].0 == entries[1..][j - 1].0;
        v
      else
        assert forall j :: 1 <= j < |entries| ==> entries[j].0 == entries[1..][j - 1].0;
        v
  }

  /** `parameter.X?.[key] ?? null`: a missing series or a missing day gives `null`. */
  function ValueAt(series: Option<Series>, key: string): (v: Option<real>)
    ensures v.None? <==> series.None? || forall i :: 0 <= i < |series.value.entries| ==> series.value.entries[i].0 != key
    ensures v.Some? ==> (key, v.value) in series.value.entries
  {
    if series.None? then None else Lookup(series.value.entries, key)
  }

  /** The record the loop pushes for one temperature entry. */
  function RecordFor(entry: (string, real), PRECTOT: Option<Series>, WS10M: Option<Series>): DailyRecord {
    DailyRecord(entry.0, entry.1, ValueAt(PRECTOT, entry.0), ValueAt(WS10M, entry.0))
  }

  /** The normalised series: one record per temperature key, in key order. */
  function Normalized(T2M: seq<(string, real)>, PRECTOT: Option<Series>, WS10M: Option<Series>)
    : (daily: seq<DailyRecord>)
    ensures |daily| == |T2M|
    ensures forall k :: 0 <= k < |T2M| ==> daily[k] == RecordFor(T2M[k], PRECTOT, WS10M)
  {
    if T2M == [] then [] else [RecordFor(T2M[0], PRECTOT, WS10M)] + Normalized(T2M[1..], PRECTOT, WS10M)
  }

  /** The loop of the endpoint that pushes one record per temperature key into `dailyData`. */
  method Normalize(parameter: Parameters) returns (dailyData: seq<DailyRecord>)
    requires parameter.T2M.Some?
    ensures dailyData == Normalized(parameter.T2M.value.entries, parameter.PRECTOT, parameter.WS10M)
  {
    dailyData := [];
    var dates := parameter.T2M.value.entries;
    var i := 0;
    while i < |dates|
      invariant 0 <= i <= |dates|
      invariant |dailyData| == i
      invariant forall k :: 0 <= k < i ==> dailyData[k] == RecordFor(dates[k], parameter.PRECTOT, parameter.WS10M)
    {
      var d := dates[i].0;
      dailyData := dailyData + [DailyRecord(
        d,
        dates[i].1,
        ValueAt(parameter.PRECTOT, d),
        ValueAt(parameter.WS10M, d))];
      i := i + 1;
    }
  }

  /** The body carries `properties.parameter.T2M`, the shape the endpoint can normalise. */
  predicate HasTemperatures(data: Payload) {
    && data.properties.Some? && data.properties.value.parameter.Some?
    && data.properties.value.parameter.value.T2M.Some?
  }

  /** The answer once the request has been sent: status, payload shape, then the success envelope. */
  function Classify(latitude: string, longitude: string, start: string, end: string, reply: Upstream)
    : (r: Response)
    ensures r.Success? <==> reply.Ok? && HasTemperatures(reply.payload)
    ensures reply.NotOk? ==> r.Failure? && r.status == reply.status && r.details == ErrorText(reply.text)
    ensures reply.Ok? && r.Failure? ==> r.status == 502 && r.details == RawData(reply.payload)
    ensures r.Success? ==>
              && r.location == Location(latitude, longitude) && r.dateRange == DateRange(start, end)
              && |r.weatherData| == |reply.payload.properties.value.parameter.value.T2M.value.entries|
  {
    match reply
    case NotOk(status, text) =>
      Failure(status, UpstreamFailedError(status), ErrorText(text))
    case Ok(data) =>
      if data.properties.None? || data.properties.value.parameter.None?
         || data.properties.value.parameter.value.T2M.None?
      then
        Failure(502, UnexpectedFormatError, RawData(data))
      else
        var parameter := data.properties.value.parameter.value;
        Success(
          Location(latitude, longitude),
          DateRange(start, end),
          Normalized(parameter.T2M.value.entries, parameter.PRECTOT, parameter.WS10M),
          SuccessMessage)
  }

  /** The whole endpoint: validation, start/end choice, one upstream request, classification. */
  function Respond(q: Query, reply: Upstream): (o: Outcome)
    ensures o.fetched.None? <==> !Complete(q)
    ensures o.fetched.None? ==> o.response == Failure(400, MissingParametersError, NoDetails)
    ensures o.fetched.Some? ==>
              && o.fetched.value.latitude == q.latitude.value && o.fetched.value.longitude == q.longitude.value
              && o.response == Classify(q.latitude.value, q.longitude.value, o.fetched.value.start, o.fetched.value.end, reply)
  {
    if !Given(q.latitude) || !Given(q.longitude) || (!Given(q.date) && (!Given(q.startDate) || !Given(q.endDate))) then
      Outcome(None, Failure(BadRequest, MissingParametersError, NoDetails))
    else
      var startParam := Or(q.date, q.startDate);
      var endParam := Or(q.date, q.endDate);
      if !Given(startParam) || !Given(endParam) then
        Outcome(None, Failure(BadRequest, InvalidDatesError, NoDetails))
      else
        Outcome(
          Some(UpstreamRequest(q.longitude.value, q.latitude.value, startParam.value, endParam.value)),
          Classify(q.latitude.value, q.longitude.value, startParam.value, endParam.value, reply))
  }

  /** The route handler, step by step, with its `let` locals and the normalisation loop. */
  method Get(q: Query, reply: Upstream) returns (o: Outcome)
    ensures o == Respond(q, reply)
  {
    if !Given(q.latitude) || !Given(q.longitude) || (!Given(q.date) && (!Given(q.startDate) || !Given(q.endDate))) {
      return Outcome(None, Failure(BadRequest, MissingParametersError, NoDetails));
    }
    var startParam := Or(q.date, q.startDate);
    var endParam := Or(q.date, q.endDate);
    // The second date check of the handler cannot fail once the first one passed.
    assert Given(startParam) && Given(endParam);
    var request := UpstreamRequest(q.longitude.value, q.latitude.value, startParam.value, endParam.value);
    match reply {
      case NotOk(status, text) =>
        o := Outcome(Some(request), Failure(status, UpstreamFailedError(status), ErrorText(text)));
      case Ok(data) =>
        if data.properties.None? || data.properties.value.parameter.None?
           || data.properties.value.parameter.value.T2M.None?
        {
          o := Outcome(Some(request), Failure(502, UnexpectedFormatError, RawData(data)));
        } else {
          var dailyData := Normalize(data.properties.value.parameter.value);
          o := Outcome(Some(request), Success(
            Location(q.latitude.value, q.longitude.value),
            DateRange(startParam.value, endParam.value),
            dailyData,
            SuccessMessage));
        }
    }
  }

  /** The day range the endpoint asks for: `date` for both ends when given, else the range. */
  function ChosenRange(q: Query): (r: DateRange)
    requires Complete(q)
    ensures r.start != "" && r.end != ""
    ensures Given(q.date) ==> r.start == q.date.value && r.end == q.date.value
    ensures !Given(q.date) ==> r.start == q.startDate.value && r.end == q.endDate.value
  {
    if Given(q.date) then DateRange(q.date.value, q.date.value) else DateRange(q.startDate.value, q.endDate.value)
  }

  /** Without both coordinates and a day or a complete range the answer is 400 and nothing is sent. */
  lemma IncompleteQueryRejected(q: Query, reply: Upstream)
    requires !Complete(q)
    ensures Respond(q, reply) == Outcome(None, Failure(400, MissingParametersError, NoDetails))
  {
  }

  /** A complete query sends exactly one request, for the chosen day range, and answers from its reply. */
  lemma CompleteQueryFetches(q: Query, reply: Upstream)
    requires Complete(q)
    ensures var range := ChosenRange(q);
            Respond(q, reply) == Outcome(
              Some(UpstreamRequest(q.longitude.value, q.latitude.value, range.start, range.end)),
              Classify(q.latitude.value, q.longitude.value, range.start, range.end, reply))
  {
  }

  /**
   * The handler's second date check ("Invalid date parameters") never fires: whenever
   * nothing is sent upstream, the answer is the first check's 400.
   */
  lemma InvalidDatesUnreachable(q: Query, reply: Upstream)
    ensures Respond(q, reply).fetched.None? ==>
              Respond(q, reply).response == Failure(400, MissingParametersError, NoDetails)
  {
    if Complete(q) {
      CompleteQueryFetches(q, reply);
    }
  }

  /** A non-OK upstream status becomes the answer's status, with the upstream text as details. */
  lemma NotOkPropagated(q: Query, status: nat, text: string)
    requires Complete(q)
    ensures Respond(q, NotOk(status, text)).response
            == Failure(status, UpstreamFailedError(status), ErrorText(text))
  {
  }

  /** An OK body without `properties.parameter.T2M` gives 502 carrying the raw body. */
  lemma MalformedPayloadRejected(q: Query, data: Payload)
    requires Complete(q)
    requires data.properties.None? || data.properties.value.parameter.None?
             || data.properties.value.parameter.value.T2M.None?
    ensures Respond(q, Ok(data)).response == Failure(502, UnexpectedFormatError, RawData(data))
  {
  }

  /** In a parsed object, looking up a key that is present gives the reading stored under it. */
  lemma LookupPresentKey(entries: Entries, i: nat)
    requires i < |entries|
    ensures Lookup(entries, entries[i].0) == Some(entries[i].1)
  {
    var v := Lookup(entries, entries[i].0);
    var j :| 0 <= j < |entries| && entries[j] == (entries[i].0, v.value)
             && forall j' :: 0 <= j' < j ==> entries[j'].0 != entries[i].0;
    assert j == i;
  }

  /**
   * An OK body with a temperature series gives exactly one record per temperature key, in
   * key order: the key as `date` (no date twice), the temperature unchanged (a -999
   * included), and precipitation and wind `null` exactly when that series or that key is
   * missing.
   */
  lemma RecordsFollowTemperatureKeys(q: Query, data: Payload)
    requires Complete(q)
    requires data.properties.Some? && data.properties.value.parameter.Some?
    requires data.properties.value.parameter.value.T2M.Some?
    ensures var p := data.properties.value.parameter.value;
            var T2M := p.T2M.value.entries;
            var r := Respond(q, Ok(data)).response;
            && r.Success?
            && r.location == Location(q.latitude.value, q.longitude.value)
            && r.dateRange == ChosenRange(q)
            && |r.weatherData| == |T2M|
            && (forall j, k :: 0 <= j < k < |T2M| ==> r.weatherData[j].date != r.weatherData[k].date)
            && forall k :: 0 <= k < |T2M| ==>
                 && r.weatherData[k].date == T2M[k].0
                 && r.weatherData[k].T2M == T2M[k].1
                 && (r.weatherData[k].PRECTOT.None? <==>
                       p.PRECTOT.None? || forall i :: 0 <= i < |p.PRECTOT.value.entries| ==> p.PRECTOT.value.entries[i].0 != T2M[k].0)
                 && (r.weatherData[k].WS10M.None? <==>
                       p.WS10M.None? || forall i :: 0 <= i < |p.WS10M.value.entries| ==> p.WS10M.value.entries[i].0 != T2M[k].0)
  {
  }

  /** Where the day's key is present in a series, the record carries the reading stored under it. */
  lemma RecordReadingsAtKey(T2M: Entries, PRECTOT: Entries, WS10M: Entries, k: nat, i: nat)
    requires k < |T2M|
    ensures i < |PRECTOT| && PRECTOT[i].0 == T2M[k].0 ==>
              Normalized(T2M, Some(Series(PRECTOT)), Some(Series(WS10M)))[k].PRECTOT == Some(PRECTOT[i].1)
    ensures i < |WS10M| && WS10M[i].0 == T2M[k].0 ==>
              Normalized(T2M, Some(Series(PRECTOT)), Some(Series(WS10M)))[k].WS10M == Some(WS10M[i].1)
  {
    if i < |PRECTOT| {
      LookupPresentKey(PRECTOT, i);
    }
    if i < |WS10M| {
      LookupPresentKey(WS10M, i);
    }
  }

  /** A reading of 0 is kept, not turned into `null`: the endpoint tests for null, not for falsy. */
  lemma ZeroReadingKept(entry: (string, real), readings: Entries, i: nat, other: Option<Series>)
    requires i < |readings| && readings[i] == (entry.0, 0.0)
    ensures RecordFor(entry, Some(Series(readings)), other).PRECTOT == Some(0.0)
    ensures RecordFor(entry, other, Some(Series(readings))).WS10M == Some(0.0)
  {
    LookupPresentKey(readings, i);
  }

  /** The answer has a 2xx status exactly when it is the success envelope. */
  lemma OkStatusIffSuccess(q: Query, reply: Upstream)
    requires WellFormedUpstream(reply)
    ensures WellFormedResponse(Respond(q, reply).response)
  {
  }
}
