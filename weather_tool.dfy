/** The two OpenWeatherMap tools the agent calls: current conditions and the
    multi-day forecast. The HTTP request itself is not modelled; what the
    provider answered (or what was thrown) is a parameter, and the model covers
    what the tool does with it: the record it builds, the per-day
    de-duplication of the forecast time series, and the mapping of errors to
    messages. */
module WeatherTool {
  import opened Wrappers
  import opened Text

  // ---------------------------------------------------------------------
  // Numbers
  // ---------------------------------------------------------------------

  const SecondsPerDay := 86400

  /** JavaScript's `Math.round` on a finite number: the nearest integer, with
      halves rounded up (towards positive infinity). */
  function JsRound(x: real): (r: int)
    ensures r as real - 0.5 <= x < r as real + 0.5
  {
    (x + 0.5).Floor
  }

  /** The UTC calendar day of a Unix time in seconds (what
      `new Date(dt * 1000).toISOString().split('T')[0]` names), as a day
      number counted from 1970-01-01. */
  function DayOf(dt: int): (d: int)
    ensures d * SecondsPerDay <= dt < (d + 1) * SecondsPerDay
  {
    dt / SecondsPerDay
  }

  /** Visibility in km from the provider's metres: 0 when the value is absent
      or zero, otherwise metres / 1000 rounded half-up. */
  function VisibilityKm(metres: Option<real>): (km: int)
    ensures metres == None || metres == Some(0.0) ==> km == 0
    ensures metres.Some? && metres.value != 0.0 ==>
      km as real - 0.5 <= metres.value / 1000.0 < km as real + 0.5
  {
    match metres
    case None => 0
    case Some(v) => if v == 0.0 then 0 else JsRound(v / 1000.0)
  }

  // ---------------------------------------------------------------------
  // Current weather
  // ---------------------------------------------------------------------

  /** The fields of the provider's current-weather answer that the tool reads
      (`name`, `sys.country`, `main.temp`, `weather[0].description`,
      `main.humidity`, `wind.speed`, `main.pressure`, `main.feels_like`,
      `visibility`). */
  datatype CurrentAnswer = CurrentAnswer(
    name: string, country: string, temp: real, description: string,
    humidity: int, windSpeed: real, pressure: int, feelsLike: real,
    visibility: Option<real>)

  /** The normalised record the tool returns. */
  datatype WeatherData = WeatherData(
    city: string, country: string, temperature: int, description: string,
    humidity: int, windSpeed: real, pressure: int, feelsLike: int,
    visibility: int)

  /** Builds the tool's record from the provider's answer. */
  function FormatCurrent(a: CurrentAnswer): (w: WeatherData)
    ensures w.city == a.name && w.country == a.country && w.description == a.description
    ensures w.humidity == a.humidity && w.windSpeed == a.windSpeed && w.pressure == a.pressure
    ensures w.temperature as real - 0.5 <= a.temp < w.temperature as real + 0.5
    ensures w.feelsLike as real - 0.5 <= a.feelsLike < w.feelsLike as real + 0.5
    ensures a.visibility.Some? && a.visibility.value != 0.0 ==>
      w.visibility as real - 0.5 <= a.visibility.value / 1000.0 < w.visibility as real + 0.5
    ensures a.visibility.None? || a.visibility == Some(0.0) ==> w.visibility == 0
  {
    WeatherData(a.name, a.country, JsRound(a.temp), a.description, a.humidity,
                a.windSpeed, a.pressure, JsRound(a.feelsLike), VisibilityKm(a.visibility))
  }

  // ---------------------------------------------------------------------
  // Errors
  // ---------------------------------------------------------------------

  /** What the `catch` blocks can receive: an HTTP-client error (with the
      provider's status when it answered at all, and the client's message), or
      anything else thrown, which carries a message when it is an `Error`. */
  datatype Thrown =
    | HttpError(status: Option<int>, message: string)
    | OtherError(text: Option<string>)

  /** The result of the provider request: its answer or what it threw. */
  datatype Provider<T> = Answered(data: T) | Threw(error: Thrown)

  /** The four kinds of failure a tool reports. */
  datatype ErrorKind = NotFound | InvalidKey | FetchFailed | Unexpected

  const MissingKeyMessage := "OpenWeatherMap API key 未配置"
  const InvalidKeyMessage := "API 密钥无效，请检查 OpenWeatherMap API 配置"
  const NotFoundPrefix := "找不到城市\""
  const CurrentNotFoundSuffix := "\"的天气信息，请检查城市名称是否正确"
  const ForecastNotFoundSuffix := "\"的天气预报，请检查城市名称是否正确"
  const CurrentFetchPrefix := "获取天气数据失败: "
  const CurrentUnexpectedPrefix := "获取天气信息时发生错误: "
  const ForecastFetchPrefix := "获取天气预报失败: "
  const ForecastUnexpectedPrefix := "获取天气预报时发生错误: "

  /** The message the current-weather tool throws for a caught error. */
  function CurrentErrorMessage(location: string, e: Thrown): (msg: string)
    ensures e.HttpError? && e.status == Some(404) ==> Contains(msg, location)
    ensures e.HttpError? && e.status == Some(401) ==> msg == InvalidKeyMessage
  {
    match e
    case HttpError(status, message) =>
      if status == Some(404) then
        ContainsSpliced(NotFoundPrefix, location, CurrentNotFoundSuffix);
        NotFoundPrefix + location + CurrentNotFoundSuffix
      else if status == Some(401) then InvalidKeyMessage
      else CurrentFetchPrefix + message
    case OtherError(m) => CurrentUnexpectedPrefix + ThrownMessage(m)
  }

  /** The message the forecast tool throws for a caught error; it has no case
      of its own for status 401. */
  function ForecastErrorMessage(location: string, e: Thrown): (msg: string)
    ensures e.HttpError? && e.status == Some(404) ==> Contains(msg, location)
  {
    match e
    case HttpError(status, message) =>
      if status == Some(404) then
        ContainsSpliced(NotFoundPrefix, location, ForecastNotFoundSuffix);
        NotFoundPrefix + location + ForecastNotFoundSuffix
      else ForecastFetchPrefix + message
    case OtherError(m) => ForecastUnexpectedPrefix + ThrownMessage(m)
  }

  /** The kind of failure the current-weather tool reports for `e`. */
  function CurrentErrorKind(e: Thrown): ErrorKind {
    match e
    case HttpError(status, _) =>
      if status == Some(404) then NotFound
      else if status == Some(401) then InvalidKey
      else FetchFailed
    case OtherError(_) => Unexpected
  }

  /** The kind of failure the forecast tool reports for `e`. */
  function ForecastErrorKind(e: Thrown): ErrorKind {
    match e
    case HttpError(status, _) => if status == Some(404) then NotFound else FetchFailed
    case OtherError(_) => Unexpected
  }

  /** Reads the kind of failure back from a current-weather message. */
  function ClassifyCurrentMessage(msg: string): ErrorKind {
    if IsPrefix(NotFoundPrefix, msg) then NotFound
    else if msg == InvalidKeyMessage then InvalidKey
    else if IsPrefix(CurrentFetchPrefix, msg) then FetchFailed
    else Unexpected
  }

  /** Reads the kind of failure back from a forecast message. */
  function ClassifyForecastMessage(msg: string): ErrorKind {
    if IsPrefix(NotFoundPrefix, msg) then NotFound
    else if IsPrefix(ForecastFetchPrefix, msg) then FetchFailed
    else Unexpected
  }

  /** A prefix of `p + t` is a prefix of every string with prefix `p`. */
  lemma PrefixOfConcat(p: string, t: string, q: string)
    requires |q| <= |p|
    ensures IsPrefix(q, p + t) <==> IsPrefix(q, p)
  {
    assert (p + t)[..|q|] == p[..|q|];
  }

  /** The current-weather messages of different kinds are told apart by their
      openings: the kind can always be read back from the message. */
  lemma CurrentMessageClassified(location: string, e: Thrown)
    ensures ClassifyCurrentMessage(CurrentErrorMessage(location, e)) == CurrentErrorKind(e)
  {
    var msg := CurrentErrorMessage(location, e);
    match e
    case HttpError(status, message) =>
      if status == Some(404) {
        PrefixOfConcat(NotFoundPrefix, location + CurrentNotFoundSuffix, NotFoundPrefix);
        assert msg == NotFoundPrefix + (location + CurrentNotFoundSuffix);
      } else if status == Some(401) {
        DifferAt(NotFoundPrefix, InvalidKeyMessage, 0);
      } else {
        PrefixOfConcat(CurrentFetchPrefix, message, NotFoundPrefix);
        PrefixOfConcat(CurrentFetchPrefix, message, CurrentFetchPrefix);
        DifferAt(NotFoundPrefix, CurrentFetchPrefix, 0);
        assert |msg| != |InvalidKeyMessage| || msg[1] != InvalidKeyMessage[1];
      }
    case OtherError(m) =>
      var t := ThrownMessage(m);
      PrefixOfConcat(CurrentUnexpectedPrefix, t, NotFoundPrefix);
      PrefixOfConcat(CurrentUnexpectedPrefix, t, CurrentFetchPrefix);
      DifferAt(NotFoundPrefix, CurrentUnexpectedPrefix, 0);
      DifferAt(CurrentFetchPrefix, CurrentUnexpectedPrefix, 4);
      assert |msg| != |InvalidKeyMessage| || msg[1] != InvalidKeyMessage[1];
  }

  /** The forecast messages of different kinds are told apart likewise, and
      status 401 is reported as an ordinary fetch failure. */
  lemma ForecastMessageClassified(location: string, e: Thrown)
    ensures ClassifyForecastMessage(ForecastErrorMessage(location, e)) == ForecastErrorKind(e)
    ensures e.HttpError? && e.status == Some(401) ==> ForecastErrorKind(e) == FetchFailed
  {
    var msg := ForecastErrorMessage(location, e);
    match e
    case HttpError(status, message) =>
      if status == Some(404) {
        PrefixOfConcat(NotFoundPrefix, location + ForecastNotFoundSuffix, NotFoundPrefix);
        assert msg == NotFoundPrefix + (location + ForecastNotFoundSuffix);
      } else {
        PrefixOfConcat(ForecastFetchPrefix, message, NotFoundPrefix);
        PrefixOfConcat(ForecastFetchPrefix, message, ForecastFetchPrefix);
        DifferAt(NotFoundPrefix, ForecastFetchPrefix, 0);
      }
    case OtherError(m) =>
      var t := ThrownMessage(m);
      PrefixOfConcat(ForecastUnexpectedPrefix, t, NotFoundPrefix);
      PrefixOfConcat(ForecastUnexpectedPrefix, t, ForecastFetchPrefix);
      DifferAt(NotFoundPrefix, ForecastUnexpectedPrefix, 0);
      DifferAt(ForecastFetchPrefix, ForecastUnexpectedPrefix, 6);
  }

  /** A key is configured when it is present and not the empty string. */
  predicate KeyConfigured(apiKey: Option<string>) {
    apiKey.Some? && apiKey.value != ""
  }

  /** The current-weather tool: without a key it fails before any request,
      with the key error wrapped as an unexpected error; otherwise it formats
      the answer or maps what the request threw. */
  function GetCurrentWeather(apiKey: Option<string>, location: string, request: Provider<CurrentAnswer>)
    : (r: Result<WeatherData, string>)
    ensures !KeyConfigured(apiKey) ==> r == Failure(CurrentUnexpectedPrefix + MissingKeyMessage)
    ensures KeyConfigured(apiKey) && request.Answered? ==> r == Success(FormatCurrent(request.data))
    ensures KeyConfigured(apiKey) && request.Threw? ==>
      r.Failure? && ClassifyCurrentMessage(r.error) == CurrentErrorKind(request.error)
  {
    if !KeyConfigured(apiKey) then
      Failure(CurrentErrorMessage(location, OtherError(Some(MissingKeyMessage))))
    else
      match request
      case Answered(a) => Success(FormatCurrent(a))
      case Threw(e) =>
        CurrentMessageClassified(location, e);
        Failure(CurrentErrorMessage(location, e))
  }

  // ---------------------------------------------------------------------
  // Forecast
  // ---------------------------------------------------------------------

  /** The number of days the forecast tool's input schema accepts: 3 when
      none is given, any value from 1 to 5, and a validation failure (`None`)
      otherwise. */
  function ForecastDays(requested: Option<int>): (days: Option<int>)
    ensures requested.None? ==> days == Some(3)
    ensures requested.Some? ==> (days.Some? <==> 1 <= requested.value <= 5)
    ensures days.Some? ==> 1 <= days.value <= 5
    ensures requested.Some? && days.Some? ==> days.value == requested.value
  {
    match requested
    case None => Some(3)
    case Some(d) => if 1 <= d <= 5 then Some(d) else None
  }

  /** One entry of the provider's three-hourly time series (`dt`,
      `main.temp`, `weather[0].description`, `main.humidity`, `wind.speed`). */
  datatype SeriesItem = SeriesItem(dt: int, temp: real, description: string, humidity: int, windSpeed: real)

  /** One day of the tool's forecast; `date` is the UTC day number. */
  datatype DailyForecast = DailyForecast(date: int, temperature: int, description: string, humidity: int, windSpeed: real)

  /** The provider's forecast answer (`city.name`, `city.country`, `list`). */
  datatype ForecastAnswer = ForecastAnswer(cityName: string, country: string, list: seq<SeriesItem>)

  /** The tool's forecast record. */
  datatype ForecastData = ForecastData(city: string, country: string, forecast: seq<DailyForecast>)

  /** The forecast entry built from one time-series item. */
  function EntryOf(item: SeriesItem): (e: DailyForecast)
    ensures e.date == DayOf(item.dt)
    ensures e.temperature as real - 0.5 <= item.temp < e.temperature as real + 0.5
    ensures e.description == item.description && e.humidity == item.humidity && e.windSpeed == item.windSpeed
  {
    DailyForecast(DayOf(item.dt), JsRound(item.temp), item.description, item.humidity, item.windSpeed)
  }

  /** The dates of a forecast, in order. */
  function Dates(daily: seq<DailyForecast>): (ds: seq<int>)
    ensures |ds| == |daily|
    ensures forall k :: 0 <= k < |daily| ==> ds[k] == daily[k].date
  {
    seq(|daily|, k requires 0 <= k < |daily| => daily[k].date)
  }

  function Max(a: int, b: int): int { if a < b then b else a }

  function Min(a: int, b: int): int { if a < b then a else b }

  /** The forecast the tool's loop builds from the first items of the series:
      an item is taken when its day has not been taken yet and fewer than
      `days` entries exist. */
  function Daily(list: seq<SeriesItem>, days: int): (r: seq<DailyForecast>)
    ensures |r| <= Max(days, 0) && |r| <= |list|
    decreases |list|
  {
    if list == [] then []
    else
      var prev := Daily(list[..|list| - 1], days);
      var item := list[|list| - 1];
      if DayOf(item.dt) !in Dates(prev) && |prev| < days then prev + [EntryOf(item)] else prev
  }

  /** The de-duplication loop of the forecast tool: it walks the series once,
      remembering the dates already taken in a set. */
  method DailyForecasts(list: seq<SeriesItem>, days: int) returns (daily: seq<DailyForecast>)
    ensures daily == Daily(list, days)
  {
    daily := [];
    var processedDates: set<int> := {};
    var i := 0;
    while i < |list|
      invariant 0 <= i <= |list|
      invariant daily == Daily(list[..i], days)
      invariant forall d :: d in processedDates <==> d in Dates(daily)
    {
      var item := list[i];
      var date := DayOf(item.dt);
      DailyStep(list, i, days);
      if date !in processedDates && |daily| < days {
        DatesAppend(daily, EntryOf(item));
        daily := daily + [EntryOf(item)];
        processedDates := processedDates + {date};
      }
      i := i + 1;
    }
    assert list[..|list|] == list;
  }

  /** One more item extends `Daily` of the prefix as the loop body does. */
  lemma DailyStep(list: seq<SeriesItem>, i: int, days: int)
    requires 0 <= i < |list|
    ensures var prev := Daily(list[..i], days);
      Daily(list[..i + 1], days) ==
        if DayOf(list[i].dt) !in Dates(prev) && |prev| < days then prev + [EntryOf(list[i])] else prev
  {
    assert list[..i + 1][..i] == list[..i];
  }

  lemma DatesAppend(daily: seq<DailyForecast>, e: DailyForecast)
    ensures Dates(daily + [e]) == Dates(daily) + [e.date]
  {
  }

  /** The days of the series in the order they first occur, each once. This
      is the reference the forecast is compared against. */
  function DistinctDays(list: seq<SeriesItem>): (ds: seq<int>)
    decreases |list|
  {
    if list == [] then []
    else
      var prev := DistinctDays(list[..|list| - 1]);
      var d := DayOf(list[|list| - 1].dt);
      if d in prev then prev else prev + [d]
  }

  /** The first `n` elements of `s` (all of `s` when it is shorter). */
  function Take(s: seq<int>, n: int): (t: seq<int>)
    ensures |t| == Max(0, Min(n, |s|))
    ensures forall k :: 0 <= k < |t| ==> t[k] == s[k]
  {
    if n <= 0 then [] else if n >= |s| then s else s[..n]
  }

  /** The set of days on which the series has an item. */
  function DayKeys(list: seq<SeriesItem>): set<int> {
    set k | 0 <= k < |list| :: DayOf(list[k].dt)
  }

  /** A day is listed by `DistinctDays` exactly when some item falls on it,
      and no day is listed twice. */
  lemma {:induction false} DistinctDaysSound(list: seq<SeriesItem>)
    ensures forall d :: d in DistinctDays(list) <==> d in DayKeys(list)
    ensures forall i, j :: 0 <= i < j < |DistinctDays(list)| ==> DistinctDays(list)[i] != DistinctDays(list)[j]
    ensures |DistinctDays(list)| == |DayKeys(list)|
    decreases |list|
  {
    if list != [] {
      var prefix := list[..|list| - 1];
      var d := DayOf(list[|list| - 1].dt);
      DistinctDaysSound(prefix);
      DayKeysSnoc(list);
      if d !in DistinctDays(prefix) {
        assert d !in DayKeys(prefix);
        assert |DayKeys(prefix) + {d}| == |DayKeys(prefix)| + 1;
      } else {
        assert DayKeys(prefix) + {d} == DayKeys(prefix);
      }
    } else {
      assert DayKeys(list) == {};
    }
  }

  /** The days of a series are those of all but its last item plus the last one's. */
  lemma DayKeysSnoc(list: seq<SeriesItem>)
    requires list != []
    ensures DayKeys(list) == DayKeys(list[..|list| - 1]) + {DayOf(list[|list| - 1].dt)}
  {
    var prefix := list[..|list| - 1];
    forall x | x in DayKeys(list) ensures x in DayKeys(prefix) + {DayOf(list[|list| - 1].dt)} {
      var k :| 0 <= k < |list| && x == DayOf(list[k].dt);
      if k < |list| - 1 { assert prefix[k] == list[k]; }
    }
    forall x | x in DayKeys(prefix) ensures x in DayKeys(list) {
      var k :| 0 <= k < |prefix| && x == DayOf(prefix[k].dt);
      assert list[k] == prefix[k];
    }
  }

  /** The dates of the forecast are the first `days` days of the series, in
      the order in which they first occur. */
  lemma {:induction false} DailyDatesArePrefix(list: seq<SeriesItem>, days: int)
    ensures Dates(Daily(list, days)) == Take(DistinctDays(list), days)
    decreases |list|
  {
    if list != [] {
      var prefix := list[..|list| - 1];
      DailyDatesArePrefix(prefix, days);
      var prev := Daily(prefix, days);
      var ds := DistinctDays(prefix);
      var d := DayOf(list[|list| - 1].dt);
      if d !in Dates(prev) && |prev| < days {
        assert Take(ds, days) == ds;
        assert Dates(prev + [EntryOf(list[|list| - 1])]) == Dates(prev) + [d];
        assert Take(ds + [d], days) == ds + [d];
      } else if d in ds {
        assert DistinctDays(list) == ds;
      } else if days > 0 {
        assert |prev| >= days;
        assert Take(ds + [d], days) == Take(ds, days);
      }
    }
  }

  /** No date appears twice in the forecast. */
  lemma DailyDatesDistinct(list: seq<SeriesItem>, days: int)
    ensures forall i, j :: 0 <= i < j < |Daily(list, days)| ==> Daily(list, days)[i].date != Daily(list, days)[j].date
  {
    DailyDatesArePrefix(list, days);
    DistinctDaysSound(list);
    var r := Daily(list, days);
    forall i, j | 0 <= i < j < |r| ensures r[i].date != r[j].date {
      assert Dates(r)[i] == DistinctDays(list)[i] && Dates(r)[j] == DistinctDays(list)[j];
    }
  }

  /** The forecast has `days` entries when the series covers at least `days`
      distinct dates, and one entry per distinct date otherwise. */
  lemma DailyCount(list: seq<SeriesItem>, days: int)
    ensures |Daily(list, days)| == Max(0, Min(days, |DayKeys(list)|))
  {
    DailyDatesArePrefix(list, days);
    DistinctDaysSound(list);
  }

  /** `j` is the position of the first item of the series that falls on day `d`. */
  predicate FirstOnDay(list: seq<SeriesItem>, d: int, j: int) {
    0 <= j < |list| && DayOf(list[j].dt) == d &&
    forall i :: 0 <= i < j ==> DayOf(list[i].dt) != d
  }

  /** Every forecast entry is built from the first item of the series that
      falls on its date. */
  lemma {:induction false} DailyEntriesAreFirst(list: seq<SeriesItem>, days: int, k: int)
    requires 0 <= k < |Daily(list, days)|
    ensures exists j :: FirstOnDay(list, Daily(list, days)[k].date, j) && Daily(list, days)[k] == EntryOf(list[j])
    decreases |list|
  {
    var prefix := list[..|list| - 1];
    var prev := Daily(prefix, days);
    var last := list[|list| - 1];
    if k < |prev| {
      DailyEntriesAreFirst(prefix, days, k);
      var j :| FirstOnDay(prefix, prev[k].date, j) && prev[k] == EntryOf(prefix[j]);
      assert list[j] == prefix[j];
      assert FirstOnDay(list, prev[k].date, j);
    } else {
      var d := DayOf(last.dt);
      DailyDatesArePrefix(prefix, days);
      DistinctDaysSound(prefix);
      assert d !in DistinctDays(prefix);
      forall i | 0 <= i < |list| - 1 ensures DayOf(list[i].dt) != d {
        assert prefix[i] == list[i];
        assert DayOf(prefix[i].dt) in DayKeys(prefix);
      }
      assert FirstOnDay(list, d, |list| - 1);
    }
  }

  /** The forecast tool: without a key it fails before any request; otherwise
      it de-duplicates the answer's series to at most `days` dates or maps
      what the request threw. */
  method GetForecast(apiKey: Option<string>, location: string, days: int, request: Provider<ForecastAnswer>)
    returns (r: Result<ForecastData, string>)
    ensures !KeyConfigured(apiKey) ==> r == Failure(ForecastUnexpectedPrefix + MissingKeyMessage)
    ensures KeyConfigured(apiKey) && request.Answered? ==>
      r == Success(ForecastData(request.data.cityName, request.data.country, Daily(request.data.list, days)))
    ensures KeyConfigured(apiKey) && request.Threw? ==>
      r.Failure? && ClassifyForecastMessage(r.error) == ForecastErrorKind(request.error)
  {
    if !KeyConfigured(apiKey) {
      r := Failure(ForecastErrorMessage(location, OtherError(Some(MissingKeyMessage))));
      return;
    }
    match request
    case Answered(a) =>
      var daily := DailyForecasts(a.list, days);
      r := Success(ForecastData(a.cityName, a.country, daily));
    case Threw(e) =>
      ForecastMessageClassified(location, e);
      r := Failure(ForecastErrorMessage(location, e));
  }
}
