# ClimaTrack weather core in Dafny

ClimaTrack is a Next.js dashboard for NASA POWER daily weather data. This
project models its data path:

- **`GET /api/nasa-power`** (module `NasaPower`). The endpoint validates the
  query. It chooses the day range: `date` for both ends when given, otherwise
  `startDate`/`endDate`. It makes one request to the NASA POWER daily-point
  service. It then sends one of four answers:
  - the upstream status with its error text, when the upstream is not OK;
  - 502 with the raw body, when the body has no temperature series;
  - 400, when the query is incomplete;
  - the success envelope, with exactly one normalised record per temperature key.

  A series is a parsed JSON object, so its day keys are distinct (the subset
  type `NasaPower.Entries`).

  The normalisation loop is a `method` with invariants. It is proved against
  the function `Normalized`.
- **`GET /api/geocode`** (module `Geocode`). The location text is lower-cased
  and matched by substring against seven city names in a fixed order. The first
  match wins. The default coordinate is answered when no name occurs, and 400
  when `location` is missing or empty. The handler's `if`/`else if` chain is a
  `method`, proved equal to a first-match lookup over a city table.
- **The dashboard component** (module `Dashboard`). The component's state is
  the class `ClimaTrackDashboard`, and its search handler is a method that
  updates the fields. That method returns the ordered trace of state updates
  and requests it makes. The module also models the pure view logic:
  - the filter that drops sentinel (-999) readings;
  - the choice of the first day shown in the summary cards;
  - the `YYYYMMDD` to `YYYY-MM-DD` rewrite for the chart;
  - the CSV export text.
- Module `Text` holds the JavaScript string behaviour these rely on:
  - `toLowerCase`, restricted to ASCII;
  - `includes`;
  - `Array.prototype.join`, with its inverse used to read an export back;
  - the decimal rendering of a status code in a template literal.

External replies (the upstream `fetch`, the two endpoint calls made by the
dashboard) are parameters. The contracts cover every reply the endpoints can
give. They rest on one assumption about replies: a weather answer has a 2xx
status exactly when it is the success envelope. `NasaPower.OkStatusIffSuccess`
proves this of the modelled endpoint, given that `fetch` reports OK exactly for
2xx statuses. `ClimaTrackDashboard.HandleSearch` requires it of the weather
reply it is given.

The code has no fallback resolver and no retry on the previous day when data
is missing: it makes a single upstream request and reports what comes back.
The model follows the code.

## Model

| member | source | states |
|---|---|---|
| `NasaPower.Get` | app/api/nasa-power/route.ts:13-82 | The handler, step by step, answers exactly as `Respond`: validation, start/end choice, one request, status/shape classification, normalisation loop, envelope |
| `NasaPower.Respond` | app/api/nasa-power/route.ts:13-82 | No request is sent exactly when the query is incomplete, and then the answer is the missing-parameters 400; otherwise the request carries the query's coordinates and the answer is `Classify` of the reply. The second date check at lines 24-29 is kept as written; `InvalidDatesUnreachable` shows it never fires |
| `NasaPower.Classify` | app/api/nasa-power/route.ts:39-82 | Success exactly for an OK body with `properties.parameter.T2M`; a non-OK reply keeps its status and text; an OK body of the wrong shape is 502 with the raw body; a success carries the asked location and range and one record per temperature entry |
| `NasaPower.ChosenRange` | app/api/nasa-power/route.ts:21-22 | For a complete query both ends are non-empty; `date` wins for both ends when given, otherwise `startDate` and `endDate` |
| `NasaPower.IncompleteQueryRejected` | app/api/nasa-power/route.ts:13-18 | Missing coordinates, or neither a date nor a full range, gives 400 with the missing-parameters message and sends no request |
| `NasaPower.CompleteQueryFetches` | app/api/nasa-power/route.ts:20-36 | A complete query sends exactly one request carrying longitude, latitude and the chosen range, and the answer is classified from its reply |
| `NasaPower.InvalidDatesUnreachable` | app/api/nasa-power/route.ts:24-29 | The second date check never fires: whenever no request is sent, the answer is the first check's 400 |
| `NasaPower.UrlCarriesRequest` | app/api/nasa-power/route.ts:32 | The URL is the fixed service endpoint followed by the request's longitude, latitude, start and end |
| `NasaPower.NotOkPropagated` | app/api/nasa-power/route.ts:39-46 | A non-OK upstream status becomes the answer's status, with "NASA API failed with status N" and the upstream text as details |
| `NasaPower.MalformedPayloadRejected` | app/api/nasa-power/route.ts:51-61 | An OK body missing `properties`, `parameter` or `T2M` gives 502 with the raw body |
| `NasaPower.Lookup` | app/api/nasa-power/route.ts:71-72 | Keyed lookup: `null` exactly when no entry has the key, otherwise the reading of the first entry with that key |
| `NasaPower.ValueAt` | app/api/nasa-power/route.ts:71-72 | `PRECTOT?.[d] ?? null`: `null` exactly when the series is missing or has no entry for the day, otherwise a reading stored under that day |
| `NasaPower.RecordFor` | app/api/nasa-power/route.ts:68-73 | Definition of the pushed object (no contract of its own); `RecordReadingsAtKey`, `ZeroReadingKept` and `RecordsFollowTemperatureKeys` state its promises |
| `NasaPower.Normalized` | app/api/nasa-power/route.ts:64-74 | One record per temperature entry, in order, each built from that entry's key |
| `NasaPower.Normalize` | app/api/nasa-power/route.ts:64-74 | The push loop yields exactly the normalised series |
| `NasaPower.RecordsFollowTemperatureKeys` | app/api/nasa-power/route.ts:63-82 | Success envelope: location and range as asked, exactly one record per temperature key (no date twice), in key order, with its temperature (including -999); precipitation/wind `null` iff that series or key is missing |
| `NasaPower.LookupPresentKey` | app/api/nasa-power/route.ts:70-72 | In a parsed object, a present key gives exactly the reading stored under it |
| `NasaPower.RecordReadingsAtKey` | app/api/nasa-power/route.ts:68-73 | Where the day's key is present in the precipitation or wind series, the record carries the reading stored under that key |
| `NasaPower.ZeroReadingKept` | app/api/nasa-power/route.ts:71-72 | A precipitation or wind reading of 0, at any position of its series and whatever the other series holds, is kept, not replaced by `null` (`??` tests for null, not falsiness) |
| `NasaPower.OkStatusIffSuccess` | app/api/nasa-power/route.ts:39-82 | If `fetch` reports OK exactly for 2xx, the answer has a 2xx status exactly when it is the success envelope |
| `Geocode.Get` | app/api/geocode/route.ts:7-42 | The handler answers exactly as `Answer`: 400 for a missing location, else the first matching city's pair or the default |
| `Geocode.Answer` | app/api/geocode/route.ts:7-42 | Definition of the endpoint's answer (no contract of its own); `LocationRequired`, `NoCityGivesDefault`, `FirstCityWins` and `AnswerIsKnownPair` state its promises |
| `Geocode.Resolve` | app/api/geocode/route.ts:12-38 | Definition of the coordinate choice for a non-empty location (no contract of its own); `FirstMatchIsChain`, `FirstCityWins` and `NoCityGivesDefault` state it |
| `Geocode.FirstMatch` | app/api/geocode/route.ts:17-38 | The index returned is a city whose name occurs, and no earlier city's name occurs; none exactly when no name occurs |
| `Geocode.FirstMatchIsChain` | app/api/geocode/route.ts:17-38 | First-match over the city table equals the ordered chain london, new york, paris, tokyo, lahore, karachi, islamabad |
| `Geocode.LocationRequired` | app/api/geocode/route.ts:7-9 | The answer is a failure exactly when `location` is missing or empty, and then it is 400 "Location parameter is required" |
| `Geocode.NoCityGivesDefault` | app/api/geocode/route.ts:12-13 | With no city name in the lower-cased text the default 30.3753, 69.3451 is answered |
| `Geocode.FirstCityWins` | app/api/geocode/route.ts:17-38 | The first city in table order whose name occurs determines the pair, whatever later names occur |
| `Geocode.LondonBeforeParis` | app/api/geocode/route.ts:17-25 | A text naming both London and Paris gets London's pair |
| `Geocode.LahorePair` | app/api/geocode/route.ts:29-31 | Lahore (with no earlier city named) gets 31.5497, 74.3436, which differs from the default |
| `Geocode.CaseInsensitive` | app/api/geocode/route.ts:15 | A text and its lower-case form get the same answer |
| `Geocode.AnswerIsKnownPair` | app/api/geocode/route.ts:12-38 | Every coordinate answer is one of the eight fixed pairs, and both parts are non-empty |
| `Text.ToLower` | app/api/geocode/route.ts:15 | Same length, each character lower-cased, result has no upper-case letter |
| `Text.ToLowerIdempotent` | app/api/geocode/route.ts:15 | Lower-casing twice is lower-casing once |
| `Text.Contains` | app/api/geocode/route.ts:17 | `includes` holds exactly when the needle occurs at some position |
| `Text.Decimal` | app/api/nasa-power/route.ts:43 | A status renders as non-empty decimal digits with no leading zero |
| `Text.DecimalRoundTrip` | app/api/nasa-power/route.ts:43 | Reading the rendered digits back gives the status |
| `Text.Join` | components/climatrack-dashboard.tsx:105-106 | Definition of `Array.prototype.join` on strings (no contract of its own); `SplitJoin` states that it loses nothing when no part holds the separator |
| `Text.SplitJoin` | components/climatrack-dashboard.tsx:105-106 | Splitting a joined list on the separator gives the list back when no part holds the separator |
| `Dashboard.ValidData` | components/climatrack-dashboard.tsx:209-214 | A record is kept iff it is in the input and passes the filter; kept records are in input order |
| `Dashboard.IsValid` | components/climatrack-dashboard.tsx:210-213 | Definition of the filter test (no contract of its own); `ValidData` and `FilterKeepsSentinelPrecipitation` state what it keeps |
| `Dashboard.ValidDataAppend` | components/climatrack-dashboard.tsx:209-214 | Filtering a concatenation is concatenating the filtered parts |
| `Dashboard.FirstValidIsEarliest` | components/climatrack-dashboard.tsx:217 | The first filtered record is the earliest record that passes the filter |
| `Dashboard.FirstDay` | components/climatrack-dashboard.tsx:217 | The first valid day when one exists (no earlier record passes), else the first record |
| `Dashboard.ReformatDate` | components/climatrack-dashboard.tsx:270-273 | An 8-character date gets dashes at positions 4 and 7 and loses nothing; any other length is unchanged |
| `Dashboard.Chart` | components/climatrack-dashboard.tsx:269-279 | One point per valid record, in order, with the reformatted day and the temperature (`null` for -999) |
| `Dashboard.PointFor` | components/climatrack-dashboard.tsx:269-278 | Definition of one chart point (no contract of its own); `Chart` and `RenderedWidgets` state it |
| `Dashboard.Render` | components/climatrack-dashboard.tsx:206-296 | Definition of the widget section, including the card conditions at lines 233, 245 and 257 (no contract of its own); `RenderedWidgets` and `PromptWithoutRecords` state which branch shows and with what |
| `Dashboard.RenderedWidgets` | components/climatrack-dashboard.tsx:206-279 | "No valid data" is shown iff no record passes; otherwise the cards show the first valid day and never "No Data", and every chart temperature is its record's |
| `Dashboard.PromptWithoutRecords` | components/climatrack-dashboard.tsx:292-295 | The prompt is shown exactly when no success answer with at least one record is stored |
| `Dashboard.FilterKeepsSentinelPrecipitation` | components/climatrack-dashboard.tsx:211-213 | A -999 precipitation with a missing wind speed passes the filter |
| `Dashboard.CsvRows` | components/climatrack-dashboard.tsx:106 | One line per record, in order, each its four values joined by commas |
| `Dashboard.Csv` | components/climatrack-dashboard.tsx:105-107 | Definition of the export text (no contract of its own); `CsvIsJoinedLines` and `CsvLines` state its lines and cells |
| `Dashboard.CsvExport` | components/climatrack-dashboard.tsx:98-107 | An export exists exactly when a success answer with at least one record is stored |
| `Dashboard.ClimaTrackDashboard.CsvDownload` | components/climatrack-dashboard.tsx:98-107 | With only success envelopes stored, an export is offered exactly when a non-empty record list is stored, and it is that list's CSV text; for an empty list the button at line 307 is disabled, so the fallback branch is not reached |
| `Dashboard.HeaderText` | components/climatrack-dashboard.tsx:105 | The header line is `date,T2M,PRECTOT,WS10M` |
| `Dashboard.HeaderColumns` | components/climatrack-dashboard.tsx:105 | The header line splits back into the four keys |
| `Dashboard.CsvIsJoinedLines` | components/climatrack-dashboard.tsx:105-107 | The export is the header followed by the record lines, all joined by newlines |
| `Dashboard.RowsSplitBack` | components/climatrack-dashboard.tsx:106 | Each record line holds no newline and splits back into that record's four cells |
| `Dashboard.CsvLines` | components/climatrack-dashboard.tsx:105-107 | Read back, the export has the header and then exactly one line per record, in order, each splitting into that record's cells (`null` as empty) |
| `Dashboard.ClimaTrackDashboard.constructor` | components/climatrack-dashboard.tsx:21-30 | Initial state: empty location, today for both range ends, no data, not loading, no error, default coordinates |
| `Dashboard.ClimaTrackDashboard.SetLocation` | components/climatrack-dashboard.tsx:144 | Typing sets the location and nothing else |
| `Dashboard.ClimaTrackDashboard.SetDateRange` | components/climatrack-dashboard.tsx:195 | Picking sets both range ends and nothing else |
| `Dashboard.ClimaTrackDashboard.HandleSearch` | components/climatrack-dashboard.tsx:32-84 | Pre-check failure only sets the error. Otherwise the exact update/request trace and final state for each of: geocode rejected, weather not OK, success. Loading always ends false, and only a success envelope is ever stored |
| `Dashboard.ClimaTrackDashboard.TryFetch` | components/climatrack-dashboard.tsx:42-77 | The `try` block: the error thrown for a rejected geocode answer or a non-OK weather answer, the stored coordinates, and the weather query built from them and the range |
| `Dashboard.WeatherQueryAccepted` | components/climatrack-dashboard.tsx:67-69 | A startDate/endDate query with non-empty coordinates and `yyyyMMdd` day texts (never empty, type `DateText`) passes the endpoint's validation and asks for exactly its coordinates and range |
| `Dashboard.LocatedQueryAccepted` | components/climatrack-dashboard.tsx:55-69 | The weather request `HandleSearch` makes after an accepted geocoding answer is always sent upstream, for the stored coordinates and the picked range |
| `Dashboard.GeocodeAnswerAccepted` | components/climatrack-dashboard.tsx:44-53 | For a typed location the geocoder's answer is always accepted: neither geocoding error fires |

## Left out

- Request parsing (`new URL`, `searchParams`), `NextResponse`, `console` logging and `encodeURIComponent` are not modelled. A query parameter is an optional text, and a JSON answer is a datatype value with its status.
- The endpoint's `catch` handler (route.ts lines 83-89, status 500) is left out. A thrown `fetch` or a JSON parse failure is outside the model.
- The upstream body is modelled as nested optional fields. A field that is present but falsy (`0`, `""`) is treated as absent.
- Series readings are numbers (`real`). Non-numeric JSON values are not modelled.
- A series is the object `JSON.parse` builds, so each day key occurs once. A raw body that repeats a key (where the parser keeps the last value) is modelled only after parsing.
- Object key order is the order of the entry sequence. JavaScript's integer-like-key ordering of `Object.keys` is taken as already applied.
- `toLowerCase` is modelled on ASCII letters only. Unicode case mapping is left out.
- Number-to-text conversion in the CSV is the parameter `numberText`. Its plainness (no comma, no newline) is an assumption of the CSV read-back lemmas.
- Dates are their `yyyyMMdd` text. `new Date()`, `format` from date-fns and the `"MMM dd"` chart label are not modelled. `Dashboard.Chart` gives the chart day before that last formatting step.
- The fallback CSV branch (dashboard lines 114-124) is left out. Its guard `typeof ... === "object"` admits a non-array object and also an empty record list (an empty array is an object, and the first guard needs a length above 0). A stored answer always holds a record list, so only the empty-list case could reach it. The Download CSV button is disabled for an empty list (dashboard line 307), so that branch is never reached from the page. `CsvExport` and `ClimaTrackDashboard.CsvDownload` give no export for an empty list on that ground; called directly on an empty list, `handleDownloadCsv` would download the text of a lone newline.
- The browser download itself is not modelled (the anchor element and `data:` URL). `handleDownloadJson` and `JSON.stringify` are also left out.
- JSX layout, the Leaflet map (`parseFloat` of the coordinates), recharts and the loading/error text are not modelled. Only the branch shown and its data are modelled as `View`.
- React's asynchronous state batching and concurrent searches are left out. `HandleSearch` is one sequential run, and its trace gives the order of its updates and requests.
- The geocoding endpoint's JSON reply is trusted to be the `Geocode.Response` shape. Malformed JSON from either endpoint is left out.
- `app/layout.tsx` and the UI component library are not part of this model.
