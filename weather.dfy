/** The weather client (`WeatherAPI`, src/weather/mod.rs): the UV index of a
    named station, looked up in the published UV document, and the address
    of a location's observations. Fetching and decoding are given as their
    outcome. */
module Weather {
  import opened Common
  import Strings

  const WeatherDetailsTemplate: string := "https://api.weather.bom.gov.au/v1/locations/{}/observations"
  const PerthName: string := "per"
  const JandakotGeocode: string := "qd63he"
  const NotFoundMessage: string := "perth not found"

  /** One `location` element of the UV document (the fields read here). */
  datatype Location = Location(name: string, index: F64)

  datatype UvDocument = UvDocument(location: seq<Location>)

  datatype WeatherData = WeatherData(temp: F64)

  /** A location's observations (`WeatherDetails`), reduced to the reading used. */
  datatype WeatherDetails = WeatherDetails(data: WeatherData)

  /** `WeatherAPIError`: a failed HTTP exchange, an undecodable XML document,
      or any other error with its message. */
  datatype WeatherError = Http(detail: string) | Xml(detail: string) | Unknown(detail: string)

  /** The position of the first location called `name`, or the length of
      the list when there is none. */
  function FirstNamed(locations: seq<Location>, name: string): (k: nat)
    ensures k <= |locations|
    ensures forall j :: 0 <= j < k ==> locations[j].name != name
    ensures k < |locations| ==> locations[k].name == name
  {
    if locations == [] then 0
    else if locations[0].name == name then 0
    else 1 + FirstNamed(locations[1..], name)
  }

  /** `get_uv_level`: the index of the first location whose name matches.
      A document that could not be fetched or decoded gives its error before
      any lookup; a document without the station gives "perth not found". */
  function GetUvLevel(document: Result<UvDocument, WeatherError>, name: string): (r: Result<F64, WeatherError>)
    ensures document.Failure? ==> r == Failure(document.error)
    ensures document.Success? ==>
              (r.Failure? <==> forall j :: 0 <= j < |document.value.location| ==> document.value.location[j].name != name)
    ensures r.Failure? && document.Success? ==> r.error == Unknown(NotFoundMessage)
    ensures r.Success? ==>
              exists k :: 0 <= k < |document.value.location| && document.value.location[k].name == name
                && r.value == document.value.location[k].index
                && forall j :: 0 <= j < k ==> document.value.location[j].name != name
  {
    match document
    case Failure(e) => Failure(e)
    case Success(doc) =>
      var k := FirstNamed(doc.location, name);
      if k < |doc.location| then Success(doc.location[k].index)
      else Failure(Unknown(NotFoundMessage))
  }

  /** Locations after the first match do not change the answer. */
  lemma FirstMatchWins(before: seq<Location>, hit: Location, after: seq<Location>, name: string)
    requires forall j :: 0 <= j < |before| ==> before[j].name != name
    requires hit.name == name
    ensures GetUvLevel(Success(UvDocument(before + [hit] + after)), name) == Success(hit.index)
  {
    var locations := before + [hit] + after;
    assert locations[|before|] == hit;
    assert forall j :: 0 <= j < |before| ==> locations[j] == before[j];
  }

  /** The address of a location's observations: the template with its
      placeholder replaced by the geocode. */
  function WeatherDetailsUrl(geocode: string): (url: string)
    ensures url == "https://api.weather.bom.gov.au/v1/locations/" + geocode + "/observations"
  {
    var prefix := "https://api.weather.bom.gov.au/v1/locations/";
    var suffix := "/observations";
    assert WeatherDetailsTemplate == prefix + "{}" + suffix;
    Strings.ReplaceSingle(prefix, suffix, "{}", geocode);
    Strings.Replace(WeatherDetailsTemplate, "{}", geocode)
  }

  /** `get_weather_details`: the address requested and the reply. */
  function GetWeatherDetails(geocode: string, reply: Result<WeatherDetails, WeatherError>): (r: (string, Result<WeatherDetails, WeatherError>))
    ensures r.0 == "https://api.weather.bom.gov.au/v1/locations/" + geocode + "/observations"
    ensures r.1 == reply
  {
    (WeatherDetailsUrl(geocode), reply)
  }
}
