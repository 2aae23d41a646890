/** The forecast proxy (a serverless function): it checks the coordinates of the request, resolves
    them at the weather service's points endpoint, fetches the daily and the hourly forecast the
    points answer names, and replies with one envelope or one error.  The weather service is a
    parameter: a function giving the answer to each request, so the handler is a total function from
    the request and that answer to the reply and the list of requests it sent. */
module WeatherFunction {
  import opened Optional
  import opened Forecast

  /** The incoming call; `queryStringParameters` may be missing altogether. */
  datatype Event = Event(queryStringParameters: Option<map<string, string>>)

  /** The `properties` object of an upstream JSON document, reduced to the members the proxy reads. */
  datatype Properties = Properties(
    forecast: Option<string>,
    forecastHourly: Option<string>,
    periods: Option<PeriodList>,
    updated: Option<string>)

  /** An upstream body: JSON (whose `properties` may be missing, or the whole document `null`),
      or text that `json()` rejects with the given description. */
  datatype Body = Json(properties: Option<Properties>) | NotJson(parseError: string)

  /** What one `fetch` settles to: a response, or a rejection carrying the exception's description. */
  datatype Fetched = Response(status: int, body: Body) | Rejected(reason: string)
  {
    /** `Response.ok`: a response whose status is in the 2xx range. */
    predicate Ok()
    {
      Response? && 200 <= status <= 299
    }
  }

  datatype Request = Request(url: string, headers: map<string, string>)

  /** The weather service: the answer it gives to each request. */
  type Upstream = Request -> Fetched

  /** The JSON bodies the proxy replies with. */
  datatype ResponseBody =
    | ErrorBody(error: string, status: Option<int>)
    | Envelope(updated: Option<string>, dailyPeriods: PeriodList, hourlyPeriods: PeriodList)

  datatype HttpResponse = HttpResponse(statusCode: int, headers: map<string, string>, body: ResponseBody)

  /** The reply, and every request sent to the weather service while producing it, in order. */
  datatype Handled = Handled(response: HttpResponse, fetched: seq<Request>)

  const PointsBase := "https://api.weather.gov/points/"

  /** The one header object every outbound request carries. */
  const RequestHeaders: map<string, string> := map[
    "User-Agent" := "coast-to-coast/1.0 (contact: you@example.com)",
    "Accept" := "application/geo+json, application/json"]

  const JsonHeaders: map<string, string> := map["Content-Type" := "application/json"]
  const CachedJsonHeaders: map<string, string> := JsonHeaders["Cache-Control" := "public, max-age=300"]

  const MissingCoordinates := "Missing lat/lon"
  const PointsFailed := "points failed"
  const MissingForecastUrls := "Missing forecast urls"
  const ForecastFailed := "forecast failed"
  const HourlyFailed := "hourly failed"

  /** JavaScript truthiness of a string member: present and not empty. */
  predicate Truthy(v: Option<string>)
  {
    v.Some? && v.value != ""
  }

  /** `(event.queryStringParameters || {})[name]`. */
  function QueryParam(event: Event, name: string): (v: Option<string>)
    ensures event.queryStringParameters.None? ==> v.None?
    ensures v.Some? ==> name in event.queryStringParameters.value && v.value == event.queryStringParameters.value[name]
    ensures event.queryStringParameters.Some? && name in event.queryStringParameters.value ==>
              v == Some(event.queryStringParameters.value[name])
  {
    var q := event.queryStringParameters.GetOr(map[]);
    if name in q then Some(q[name]) else None
  }

  predicate HasCoordinates(event: Event)
  {
    Truthy(QueryParam(event, "lat")) && Truthy(QueryParam(event, "lon"))
  }

  function PointsUrl(lat: string, lon: string): string
  {
    PointsBase + lat + "," + lon
  }

  function PointsRequest(event: Event): Request
    requires HasCoordinates(event)
  {
    Request(PointsUrl(QueryParam(event, "lat").value, QueryParam(event, "lon").value), RequestHeaders)
  }

  /** `json?.properties || {}` of a body that parsed. */
  function PropertiesOf(body: Body): Properties
    requires body.Json?
  {
    body.properties.GetOr(Properties(None, None, None, None))
  }

  /** The points answer is a parsed success that names both forecast locations. */
  predicate NamesForecasts(p: Fetched)
  {
    p.Ok() && p.body.Json? && Truthy(PropertiesOf(p.body).forecast) && Truthy(PropertiesOf(p.body).forecastHourly)
  }

  function DailyRequest(p: Fetched): Request
    requires NamesForecasts(p)
  {
    Request(PropertiesOf(p.body).forecast.value, RequestHeaders)
  }

  function HourlyRequest(p: Fetched): Request
    requires NamesForecasts(p)
  {
    Request(PropertiesOf(p.body).forecastHourly.value, RequestHeaders)
  }

  function Reply(statusCode: int, body: ResponseBody): HttpResponse
  {
    HttpResponse(statusCode, JsonHeaders, body)
  }

  /** The reply of the `catch` block: `String(e)` as the error. */
  function Crash(description: string): HttpResponse
  {
    Reply(500, ErrorBody(description, None))
  }

  /** The success body built from the two parsed forecast documents. */
  function EnvelopeOf(daily: Properties, hourly: Properties): ResponseBody
  {
    Envelope(
      daily.updated.OrElse(hourly.updated),
      daily.periods.GetOr([]),
      hourly.periods.GetOr([]))
  }

  /** The handler.  Every outbound request carries the same headers; it sends none when the
      coordinates are missing, only the points request when that stage fails, and three requests
      otherwise; it answers 200 exactly when it returns an envelope, which it does only when all
      three answers were parsed successes. */
  function Handler(event: Event, upstream: Upstream): (h: Handled)
    ensures h.response.statusCode in {200, 400, 500, 502}
    ensures forall k :: 0 <= k < |h.fetched| ==> h.fetched[k].headers == RequestHeaders
    ensures h.response.statusCode == 400 <==> !HasCoordinates(event)
    ensures h.fetched == [] <==> !HasCoordinates(event)
    ensures HasCoordinates(event) ==> h.fetched[0] == PointsRequest(event)
    ensures |h.fetched| == 1 || |h.fetched| == 3 || h.fetched == []
    ensures |h.fetched| == 3 <==> HasCoordinates(event) && NamesForecasts(upstream(PointsRequest(event)))
    ensures h.response.statusCode == 200 <==> h.response.body.Envelope?
    ensures h.response.headers == if h.response.statusCode == 200 then CachedJsonHeaders else JsonHeaders
    ensures h.response.body.Envelope? ==>
              |h.fetched| == 3 && forall k :: 0 <= k < 3 ==> upstream(h.fetched[k]).Ok() && upstream(h.fetched[k]).body.Json?
  {
    if !HasCoordinates(event) then
      Handled(Reply(400, ErrorBody(MissingCoordinates, None)), [])
    else
      var pointsReq := PointsRequest(event);
      var p := upstream(pointsReq);
      if p.Rejected? then
        Handled(Crash(p.reason), [pointsReq])
      else if !p.Ok() then
        Handled(Reply(502, ErrorBody(PointsFailed, Some(p.status))), [pointsReq])
      else if p.body.NotJson? then
        Handled(Crash(p.body.parseError), [pointsReq])
      else if !NamesForecasts(p) then
        Handled(Reply(502, ErrorBody(MissingForecastUrls, None)), [pointsReq])
      else
        var dailyReq := DailyRequest(p);
        var hourlyReq := HourlyRequest(p);
        var fetched := [pointsReq, dailyReq, hourlyReq];
        var fd := upstream(dailyReq);
        var fh := upstream(hourlyReq);
        if fd.Rejected? then
          Handled(Crash(fd.reason), fetched)
        else if fh.Rejected? then
          Handled(Crash(fh.reason), fetched)
        else if !fd.Ok() then
          Handled(Reply(502, ErrorBody(ForecastFailed, Some(fd.status))), fetched)
        else if !fh.Ok() then
          Handled(Reply(502, ErrorBody(HourlyFailed, Some(fh.status))), fetched)
        else if fd.body.NotJson? then
          Handled(Crash(fd.body.parseError), fetched)
        else if fh.body.NotJson? then
          Handled(Crash(fh.body.parseError), fetched)
        else
          Handled(HttpResponse(200, CachedJsonHeaders, EnvelopeOf(PropertiesOf(fd.body), PropertiesOf(fh.body))), fetched)
  }

  /** Missing or empty coordinates, or no query at all: 400 and nothing fetched, whatever the service does. */
  lemma MissingCoordinatesFetchNothing(event: Event, upstream: Upstream)
    requires !HasCoordinates(event)
    ensures Handler(event, upstream) == Handled(Reply(400, ErrorBody(MissingCoordinates, None)), [])
  {
  }

  /** The points request goes to the points base URL followed by `lat,lon`, whatever else the query
      holds. */
  lemma PointsRequestShape(event: Event, lat: string, lon: string)
    requires event.queryStringParameters.Some?
    requires var q := event.queryStringParameters.value; "lat" in q && q["lat"] == lat && "lon" in q && q["lon"] == lon
    requires lat != "" && lon != ""
    ensures HasCoordinates(event)
    ensures PointsRequest(event) == Request(PointsBase + lat + "," + lon, RequestHeaders)
  {
  }

  /** A points response that is not ok: 502 with its status, and neither forecast is fetched. */
  lemma PointsFailureStops(event: Event, upstream: Upstream)
    requires HasCoordinates(event)
    requires upstream(PointsRequest(event)).Response? && !upstream(PointsRequest(event)).Ok()
    ensures Handler(event, upstream) ==
            Handled(Reply(502, ErrorBody(PointsFailed, Some(upstream(PointsRequest(event)).status))), [PointsRequest(event)])
  {
  }

  /** An ok points answer that lacks either forecast location: 502 and no forecast fetch. */
  lemma MissingUrlsStop(event: Event, upstream: Upstream)
    requires HasCoordinates(event)
    requires var p := upstream(PointsRequest(event)); p.Ok() && p.body.Json? && !NamesForecasts(p)
    ensures Handler(event, upstream) == Handled(Reply(502, ErrorBody(MissingForecastUrls, None)), [PointsRequest(event)])
  {
  }

  /** Both forecasts answered: a daily failure is reported first, with the daily status, whatever the
      hourly answer; an hourly failure is reported when the daily answer is ok.  No envelope either way. */
  lemma ForecastFailuresReported(event: Event, upstream: Upstream)
    requires HasCoordinates(event) && NamesForecasts(upstream(PointsRequest(event)))
    requires var p := upstream(PointsRequest(event));
             upstream(DailyRequest(p)).Response? && upstream(HourlyRequest(p)).Response?
    ensures var p := upstream(PointsRequest(event));
            var fd, fh := upstream(DailyRequest(p)), upstream(HourlyRequest(p));
            var h := Handler(event, upstream);
            && (!fd.Ok() ==> h.response == Reply(502, ErrorBody(ForecastFailed, Some(fd.status))))
            && (fd.Ok() && !fh.Ok() ==> h.response == Reply(502, ErrorBody(HourlyFailed, Some(fh.status))))
            && h.fetched == [PointsRequest(event), DailyRequest(p), HourlyRequest(p)]
  {
  }

  /** All three answers ok and parsed: 200, cacheable for five minutes, the upstream period lists
      exactly (or `[]` when missing), and the daily `updated`, else the hourly one, else null. */
  lemma SuccessEnvelope(event: Event, upstream: Upstream)
    requires HasCoordinates(event) && NamesForecasts(upstream(PointsRequest(event)))
    requires var p := upstream(PointsRequest(event));
             var fd, fh := upstream(DailyRequest(p)), upstream(HourlyRequest(p));
             fd.Ok() && fh.Ok() && fd.body.Json? && fh.body.Json?
    ensures var p := upstream(PointsRequest(event));
            var d, hr := PropertiesOf(upstream(DailyRequest(p)).body), PropertiesOf(upstream(HourlyRequest(p)).body);
            var h := Handler(event, upstream);
            && h.response.statusCode == 200
            && h.response.headers["Cache-Control"] == "public, max-age=300"
            && h.response.body.Envelope?
            && h.response.body.dailyPeriods == (if d.periods.Some? then d.periods.value else [])
            && h.response.body.hourlyPeriods == (if hr.periods.Some? then hr.periods.value else [])
            && (d.updated.Some? ==> h.response.body.updated == d.updated)
            && (d.updated.None? && hr.updated.Some? ==> h.response.body.updated == hr.updated)
            && (d.updated.None? && hr.updated.None? ==> h.response.body.updated.None?)
  {
  }

  /** Any rejected fetch or unparsable body at the stage where it is awaited: 500 with the
      exception's description.  A rejected forecast fetch is reported before any forecast status,
      and an unparsable forecast body only once both statuses are ok, the daily body first. */
  lemma ExceptionsReported(event: Event, upstream: Upstream)
    requires HasCoordinates(event)
    ensures var p := upstream(PointsRequest(event));
            var h := Handler(event, upstream);
            && (p.Rejected? ==> h.response == Crash(p.reason))
            && (p.Ok() && p.body.NotJson? ==> h.response == Crash(p.body.parseError))
    ensures var p := upstream(PointsRequest(event));
            var h := Handler(event, upstream);
            NamesForecasts(p) ==>
              var fd, fh := upstream(DailyRequest(p)), upstream(HourlyRequest(p));
              && (fd.Rejected? ==> h.response == Crash(fd.reason))
              && (fd.Response? && fh.Rejected? ==> h.response == Crash(fh.reason))
              && (fd.Ok() && fh.Ok() && fd.body.NotJson? ==> h.response == Crash(fd.body.parseError))
              && (fd.Ok() && fh.Ok() && fd.body.Json? && fh.body.NotJson? ==> h.response == Crash(fh.body.parseError))
  {
  }

  /** The reply depends only on the answers to the requests the handler sent: two services that
      agree on those give the same result, so nothing beyond the recorded requests is consulted. */
  lemma DependsOnlyOnFetched(event: Event, u1: Upstream, u2: Upstream)
    requires forall k :: 0 <= k < |Handler(event, u1).fetched| ==>
               u1(Handler(event, u1).fetched[k]) == u2(Handler(event, u1).fetched[k])
    ensures Handler(event, u1) == Handler(event, u2)
  {
    var f := Handler(event, u1).fetched;
    if HasCoordinates(event) {
      assert u1(f[0]) == u2(f[0]);
      if |f| == 3 {
        assert u1(f[1]) == u2(f[1]);
        assert u1(f[2]) == u2(f[2]);
      }
    }
  }
}
