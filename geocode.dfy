/**
 * The geocoding endpoint (`GET /api/geocode`): a fixed table of seven cities,
 * matched in order by case-insensitive substring, with a default coordinate
 * when no city name occurs in the location text.
 */
module Geocode {
  import opened Wrappers
  import opened Text

  datatype City = City(name: string, latitude: string, longitude: string)

  /** The cities in the order the handler tests them. */
  const Cities: seq<City> := [
    City("london", "51.5074", "0.1278"),
    City("new york", "40.7128", "-74.0060"),
    City("paris", "48.8566", "2.3522"),
    City("tokyo", "35.6895", "139.6917"),
    City("lahore", "31.5497", "74.3436"),
    City("karachi", "24.8607", "67.0011"),
    City("islamabad", "33.6844", "73.0479")
  ]

  const DefaultLatitude := "30.3753"
  const DefaultLongitude := "69.3451"

  const LocationRequiredError := "Location parameter is required"

  /** The JSON body and status the endpoint answers with. */
  datatype Response = Coordinates(latitude: string, longitude: string) | Failure(status: nat, error: string)

  /** The HTTP status of an answer; coordinates are sent with the default 200. */
  function StatusOf(r: Response): nat {
    if r.Coordinates? then 200 else r.status
  }

  /** The index of the first city in `cities` whose name occurs in `text`, if any. */
  function FirstMatch(text: string, cities: seq<City>): (r: Option<nat>)
    ensures r.Some? ==> r.value < |cities| && Contains(text, cities[r.value].name)
    ensures r.Some? ==> forall j :: 0 <= j < r.value ==> !Contains(text, cities[j].name)
    ensures r.None? <==> forall j :: 0 <= j < |cities| ==> !Contains(text, cities[j].name)
  {
    if cities == [] then None
    else if Contains(text, cities[0].name) then Some(0)
    else
      match FirstMatch(text, cities[1..])
      case None => None
      case Some(i) => Some(i + 1)
  }

  /** The coordinates for a location text: the first matching city's, or the default. */
  function Resolve(location: string): Response {
    match FirstMatch(ToLower(location), Cities)
    case None => Coordinates(DefaultLatitude, DefaultLongitude)
    case Some(i) => Coordinates(Cities[i].latitude, Cities[i].longitude)
  }

  /** What the endpoint answers for the `location` query parameter. */
  function Answer(location: Option<string>): Response {
    if location.None? || location.value == "" then Failure(400, LocationRequiredError)
    else Resolve(location.value)
  }

  /** The table lookup is the handler's chain: each name is tested only when all earlier ones failed. */
  lemma {:induction false} FirstMatchIsChain(text: string)
    ensures FirstMatch(text, Cities) ==
      if Contains(text, "london") then Some(0)
      else if Contains(text, "new york") then Some(1)
      else if Contains(text, "paris") then Some(2)
      else if Contains(text, "tokyo") then Some(3)
      else if Contains(text, "lahore") then Some(4)
      else if Contains(text, "karachi") then Some(5)
      else if Contains(text, "islamabad") then Some(6)
      else None
  {
    var c := Cities;
    assert c[0].name == "london" && c[1].name == "new york" && c[2].name == "paris";
    assert c[3].name == "tokyo" && c[4].name == "lahore" && c[5].name == "karachi";
    assert c[6].name == "islamabad";
    var r := FirstMatch(text, c);
    if r.Some? {
      assert forall j :: 0 <= j < r.value ==> !Contains(text, c[j].name);
      assert r.value < 7;
    }
  }

  /** The route handler: the default first, then the `if`/`else if` chain over the city names. */
  method Get(location: Option<string>) returns (r: Response)
    ensures r == Answer(location)
  {
    if location.None? || location.value == "" {
      return Failure(400, LocationRequiredError);
    }
    var latitude := "30.3753";
    var longitude := "69.3451";
    var lowerCaseLocation := ToLower(location.value);
    FirstMatchIsChain(lowerCaseLocation);
    if Contains(lowerCaseLocation, "london") {
      latitude := "51.5074";
      longitude := "0.1278";
    } else if Contains(lowerCaseLocation, "new york") {
      latitude := "40.7128";
      longitude := "-74.0060";
    } else if Contains(lowerCaseLocation, "paris") {
      latitude := "48.8566";
      longitude := "2.3522";
    } else if Contains(lowerCaseLocation, "tokyo") {
      latitude := "35.6895";
      longitude := "139.6917";
    } else if Contains(lowerCaseLocation, "lahore") {
      latitude := "31.5497";
      longitude := "74.3436";
    } else if Contains(lowerCaseLocation, "karachi") {
      latitude := "24.8607";
      longitude := "67.0011";
    } else if Contains(lowerCaseLocation, "islamabad") {
      latitude := "33.6844";
      longitude := "73.0479";
    }
    r := Coordinates(latitude, longitude);
  }

  /** A missing or empty `location` is a client error. */
  lemma LocationRequired(location: Option<string>)
    ensures Answer(location).Failure? <==> location.None? || location.value == ""
    ensures Answer(location).Failure? ==> Answer(location) == Failure(400, LocationRequiredError)
  {
  }

  /** When no city name occurs in the lower-cased text, the default coordinate is returned. */
  lemma NoCityGivesDefault(location: string)
    requires location != ""
    requires forall j :: 0 <= j < |Cities| ==> !Contains(ToLower(location), Cities[j].name)
    ensures Answer(Some(location)) == Coordinates(DefaultLatitude, DefaultLongitude)
  {
  }

  /** The first city in table order whose name occurs wins, whatever later names also occur. */
  lemma FirstCityWins(location: string, i: nat)
    requires location != "" && i < |Cities|
    requires Contains(ToLower(location), Cities[i].name)
    requires forall j :: 0 <= j < i ==> !Contains(ToLower(location), Cities[j].name)
    ensures Answer(Some(location)) == Coordinates(Cities[i].latitude, Cities[i].longitude)
  {
  }

  /** A text that mentions London gives London's pair, even if it also mentions Paris. */
  lemma LondonBeforeParis(location: string)
    requires Contains(ToLower(location), "london") && Contains(ToLower(location), "paris")
    ensures Answer(Some(location)) == Coordinates("51.5074", "0.1278")
  {
    var i :| OccursAt(ToLower(location), "london", i);
    assert location != "";
    FirstMatchIsChain(ToLower(location));
  }

  /** Lahore, when no earlier city occurs, gives its own pair, which is not the default. */
  lemma LahorePair(location: string)
    requires Contains(ToLower(location), "lahore")
    requires !Contains(ToLower(location), "london") && !Contains(ToLower(location), "new york")
    requires !Contains(ToLower(location), "paris") && !Contains(ToLower(location), "tokyo")
    ensures Answer(Some(location)) == Coordinates("31.5497", "74.3436")
    ensures Answer(Some(location)) != Coordinates(DefaultLatitude, DefaultLongitude)
  {
    var i :| OccursAt(ToLower(location), "lahore", i);
    assert location != "";
    FirstMatchIsChain(ToLower(location));
  }

  /** Matching ignores case: a text and its lower-case form get the same answer. */
  lemma CaseInsensitive(location: string)
    ensures Answer(Some(location)) == Answer(Some(ToLower(location)))
  {
    ToLowerIdempotent(location);
  }

  /** The eight coordinate pairs the endpoint can answer with: the seven cities' and the default. */
  const KnownPairs: set<(string, string)> := {
    ("51.5074", "0.1278"), ("40.7128", "-74.0060"), ("48.8566", "2.3522"), ("35.6895", "139.6917"),
    ("31.5497", "74.3436"), ("24.8607", "67.0011"), ("33.6844", "73.0479"),
    (DefaultLatitude, DefaultLongitude)
  }

  /** Every coordinate answer is one of the eight fixed pairs, and neither part is empty. */
  lemma AnswerIsKnownPair(location: Option<string>)
    ensures Answer(location).Coordinates? ==>
              (Answer(location).latitude, Answer(location).longitude) in KnownPairs
    ensures Answer(location).Coordinates? ==>
              Answer(location).latitude != "" && Answer(location).longitude != ""
  {
    if location.Some? && location.value != "" {
      FirstMatchIsChain(ToLower(location.value));
    }
  }
}
