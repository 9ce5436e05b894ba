/** app/services/weather/build_weather_report_service.rb: the Portuguese weather
    report for a city, from its current weather and its forecast. The two
    collaborators' answers are passed in as `current` and `forecast` (what the
    current-weather and forecast services gave, with the requests they made);
    `Date.current` is `today`. */
module BuildWeatherReportService {
  import opened Optional
  import opened Text
  import opened RubyJson
  import opened Records
  import opened Dates
  import BaseService
  import ForecastCalculator

  const ServiceName := "Weather::BuildWeatherReportService"
  const CityRequired := "City is required"
  const FailurePrefix := "Unable to build weather report: "

  /** "°C" (U+00B0 DEGREE SIGN). */
  const Celsius := "\U{B0}C"
  /** ". Média para os próximos dias: " (U+00E9, U+00F3 in the two accented words). */
  const Outlook := ". M\U{E9}dia para os pr\U{F3}ximos dias: "

  /** `"#{temp}°C em #{date}"` for one daily average: the average rounded to the
      nearest degree (halves away from zero) and the date as `DD/MM`. A date that
      `Date.parse` refuses raises. */
  function DayText(day: DailyAverage): (r: Eval<string>)
    ensures r.Value? <==> ParseYmd(day.date).Some?
  {
    match ParseYmd(day.date)
    case None => Raise("invalid date")
    case Some(d) => Value(IntToString(RoundHalfAway(day.averageHundredths, 100)) + Celsius + " em " + FormatDayMonth(d))
  }

  /** `daily_averages.map { ... }`: one text per day, in the input order; the first
      raise wins. */
  function DayTexts(days: seq<DailyAverage>): (r: Eval<seq<string>>)
    ensures r.Value? <==> forall i :: 0 <= i < |days| ==> ParseYmd(days[i].date).Some?
    ensures r.Value? ==> |r.value| == |days| && forall i :: 0 <= i < |days| ==> DayText(days[i]) == Value(r.value[i])
  {
    if days == [] then Value([])
    else
      match DayText(days[0])
      case Raise(m) => Raise(m)
      case Value(s) =>
        assert forall i :: 1 <= i < |days| ==> days[i] == days[1..][i - 1];
        match DayTexts(days[1..])
        case Raise(m) => Raise(m)
        case Value(ss) => Value([s] + ss)
  }

  /** The opening of the report: current temperature, condition, city and today. */
  function Opening(temp: int, cw: CurrentWeather, today: CalendarDate): string {
    IntToString(temp) + Celsius + " e " + ToS(cw.condition) + " em " + ToS(cw.city) + " em " + FormatDayMonth(today) + Outlook
  }

  /** `build_report(current_weather, daily_averages)`. The temperature must be a
      number (`round` raises otherwise) and every date must parse. */
  function BuildReport(cw: CurrentWeather, days: seq<DailyAverage>, today: CalendarDate): (r: Eval<string>)
    ensures r.Value? <==> cw.temperature.JNum? && forall i :: 0 <= i < |days| ==> ParseYmd(days[i].date).Some?
    ensures !cw.temperature.JNum? ==> r == Raise(NoMethod("round", cw.temperature))
    ensures r.Value? ==>
      && r.value == Opening(Round(cw.temperature).value, cw, today) + Join(DayTexts(days).value, ", ") + "."
      && |DayTexts(days).value| == |days|
  {
    match Round(cw.temperature)
    case Raise(m) => Raise(m)
    case Value(temp) =>
      match DayTexts(days)
      case Raise(m) => Raise(m)
      case Value(items) => Value(Opening(temp, cw, today) + Join(items, ", ") + ".")
  }

  function Failure(message: string, stamp: string): ErrorEnvelope {
    BaseService.BuildError(ServiceName, BaseService.Code(ServiceError), FailurePrefix + message, stamp, retryable := true)
  }

  /** Everything after the two collaborators succeeded: `forecast_data[:error]`
      (which raises on anything but a hash), `forecast_data['list']`, the daily
      averages and the report. */
  function Render(cw: CurrentWeather, data: Json, today: CalendarDate): (r: Eval<string>)
    ensures data.JObj? ==>
      var d := ForecastCalculator.DailyAverages(Lookup(data.members, "list"), today);
      && (d.Raise? ==> r == Raise(d.message))
      && (d.Value? ==> r == BuildReport(cw, d.value, today))
    ensures !data.JObj? ==> r.Raise?
  {
    match SymbolIndex(data)
    case Raise(m) => Raise(m)
    case Value(_) =>
      match Index(data, "list")
      case Raise(m) => Raise(m)
      case Value(list) =>
        match ForecastCalculator.DailyAverages(list, today)
        case Raise(m) => Raise(m)
        case Value(days) => BuildReport(cw, days, today)
  }

  /** `Weather::BuildWeatherReportService.call(city:)`. A blank city is refused
      before either collaborator is asked; a current-weather error becomes a
      non-retryable `CURRENT_WEATHER_ERROR` and the forecast is not asked for; a
      forecast error becomes a non-retryable `FORECAST_ERROR`; every exception
      becomes a retryable `SERVICE_ERROR` carrying its text. */
  function Call(city: Option<string>, current: Traced<Outcome<CurrentWeather>>, forecast: Traced<Outcome<Json>>,
                today: CalendarDate, stamp: string): (t: Traced<Outcome<string>>)
    ensures !t.result.Raised?
    ensures t.result.Err? ==> t.result.error.service == Some(ServiceName)
    ensures IsBlank(city) ==>
      t == Traced(Err(ErrorEnvelope("VALIDATION_ERROR", CityRequired, Some(ServiceName), false, stamp)), [])
    ensures !IsBlank(city) && current.result.Err? ==>
      t == Traced(Err(ErrorEnvelope("CURRENT_WEATHER_ERROR", current.result.error.message, Some(ServiceName), false, stamp)), current.calls)
    ensures !IsBlank(city) && current.result.Raised? ==>
      t == Traced(Err(ErrorEnvelope("SERVICE_ERROR", FailurePrefix + current.result.message, Some(ServiceName), true, stamp)), current.calls)
    ensures !IsBlank(city) && current.result.Ok? ==>
      && t.calls == current.calls + forecast.calls
      && (forecast.result.Err? ==>
            t.result == Err(ErrorEnvelope("FORECAST_ERROR", forecast.result.error.message, Some(ServiceName), false, stamp)))
      && (forecast.result.Raised? ==>
            t.result == Err(ErrorEnvelope("SERVICE_ERROR", FailurePrefix + forecast.result.message, Some(ServiceName), true, stamp)))
      && (forecast.result.Ok? ==>
            var r := Render(current.result.value, forecast.result.value, today);
            && (r.Value? ==> t.result == Ok(r.value))
            && (r.Raise? ==> t.result == Err(ErrorEnvelope("SERVICE_ERROR", FailurePrefix + r.message, Some(ServiceName), true, stamp))))
  {
    if IsBlank(city) then
      Traced(Err(BaseService.BuildError(ServiceName, BaseService.Code(ValidationError), CityRequired, stamp)), [])
    else
      match current.result
      case Raised(m) => Traced(Err(Failure(m, stamp)), current.calls)
      case Err(e) =>
        Traced(Err(BaseService.BuildError(ServiceName, BaseService.Code(CurrentWeatherError), e.message, stamp, retryable := false)), current.calls)
      case Ok(cw) =>
        var calls := current.calls + forecast.calls;
        match forecast.result
        case Raised(m) => Traced(Err(Failure(m, stamp)), calls)
        case Err(e) =>
          Traced(Err(BaseService.BuildError(ServiceName, BaseService.Code(ForecastError), e.message, stamp, retryable := false)), calls)
        case Ok(data) =>
          match Render(cw, data, today)
          case Raise(m) => Traced(Err(Failure(m, stamp)), calls)
          case Value(report) => Traced(Ok(report), calls)
  }

  /** The report never comes out blank: it ends with a full stop. */
  lemma ReportNotBlank(cw: CurrentWeather, days: seq<DailyAverage>, today: CalendarDate)
    requires BuildReport(cw, days, today).Value?
    ensures !IsBlankString(BuildReport(cw, days, today).value)
  {
    var s := BuildReport(cw, days, today).value;
    assert s[|s| - 1] == '.';
  }

  /** A successful call's report is never blank either. */
  lemma CallReportNotBlank(city: Option<string>, current: Traced<Outcome<CurrentWeather>>, forecast: Traced<Outcome<Json>>,
                           today: CalendarDate, stamp: string)
    requires Call(city, current, forecast, today, stamp).result.Ok?
    ensures !IsBlankString(Call(city, current, forecast, today, stamp).result.value)
  {
    var data := forecast.result.value;
    var cw := current.result.value;
    if data.JObj? {
      var days := ForecastCalculator.DailyAverages(Lookup(data.members, "list"), today).value;
      ReportNotBlank(cw, days, today);
    }
  }

  /** With no days to report, the text ends "dias: .". */
  lemma NoDaysEnding(cw: CurrentWeather, today: CalendarDate)
    requires cw.temperature.JNum?
    ensures var s := BuildReport(cw, [], today).value;
      |s| >= 7 && s[|s| - 7..] == "dias: ."
  {
    var s := BuildReport(cw, [], today).value;
    var o := Opening(Round(cw.temperature).value, cw, today);
    assert s == o + ".";
    assert Outlook[|Outlook| - 6..] == "dias: ";
    assert o[|o| - 6..] == Outlook[|Outlook| - 6..];
  }

  /** Every day the forecast calculator reports has a date that parses, so the
      report only fails on a temperature that is not a number. */
  lemma CalculatedDaysRender(cw: CurrentWeather, list: Json, today: CalendarDate)
    requires ForecastCalculator.DailyAverages(list, today).Value?
    ensures var days := ForecastCalculator.DailyAverages(list, today).value;
      BuildReport(cw, days, today).Value? <==> cw.temperature.JNum?
  {
  }

  /** A failed current-weather lookup decides the result on its own: the forecast's
      answer (and its requests) play no part. */
  lemma CurrentFailureStops(city: Option<string>, current: Traced<Outcome<CurrentWeather>>,
                            f1: Traced<Outcome<Json>>, f2: Traced<Outcome<Json>>, today: CalendarDate, stamp: string)
    requires !current.result.Ok?
    ensures Call(city, current, f1, today, stamp) == Call(city, current, f2, today, stamp)
    ensures Call(city, current, f1, today, stamp).calls == (if IsBlank(city) then [] else current.calls)
  {
  }

  /** When both collaborators succeed with a numeric temperature and a forecast
      hash whose list averages, the call succeeds and the report opens with the
      current conditions, whatever days follow. */
  lemma ReportOpensWithCurrent(city: Option<string>, current: Traced<Outcome<CurrentWeather>>, forecast: Traced<Outcome<Json>>,
                               today: CalendarDate, stamp: string)
    requires !IsBlank(city) && current.result.Ok? && forecast.result.Ok?
    requires current.result.value.temperature.JNum? && forecast.result.value.JObj?
    requires ForecastCalculator.DailyAverages(Lookup(forecast.result.value.members, "list"), today).Value?
    ensures var t := Call(city, current, forecast, today, stamp);
      var o := Opening(Round(current.result.value.temperature).value, current.result.value, today);
      t.result.Ok? && |o| <= |t.result.value| && t.result.value[..|o|] == o
  {
    var cw := current.result.value;
    var data := forecast.result.value;
    var days := ForecastCalculator.DailyAverages(Lookup(data.members, "list"), today).value;
    CalculatedDaysRender(cw, Lookup(data.members, "list"), today);
    ReportOpening(cw, days, today);
    assert Render(cw, data, today) == BuildReport(cw, days, today);
  }

  /** A report opens with the current conditions. */
  lemma ReportOpening(cw: CurrentWeather, days: seq<DailyAverage>, today: CalendarDate)
    requires BuildReport(cw, days, today).Value?
    ensures var o := Opening(Round(cw.temperature).value, cw, today);
      var s := BuildReport(cw, days, today).value;
      |o| <= |s| && s[..|o|] == o
  {
    var o := Opening(Round(cw.temperature).value, cw, today);
    var s := BuildReport(cw, days, today).value;
    assert s == o + (Join(DayTexts(days).value, ", ") + ".");
  }

  /** The London example: 15.5 °C, "clear sky", today the first of January: the
      report opens "16°C e clear sky em London em 01/01. Média para os próximos
      dias: ". */
  lemma LondonOpening(cw: CurrentWeather, today: CalendarDate)
    requires cw == CurrentWeather(JNum(Dec(155, 1)), JStr("clear sky"), JNull, JStr("London"), JStr("GB"))
    requires today == Date(2024, 1, 1)
    ensures Round(cw.temperature) == Value(16)
    ensures Opening(16, cw, today) == "16" + Celsius + " e " + "clear sky" + " em " + "London" + " em " + "01/01" + Outlook
  {
    assert FormatDayMonth(Date(2024, 1, 1)) == "01/01";
    assert IntToString(16) == "16";
  }

  /** The rounding of the report's temperatures: 15.7 gives 16, 18.3 gives 18,
      20.1 gives 20 and 15.5 gives 16; 18.85 gives 19 and -0.5 gives -1. */
  lemma RoundingExamples()
    ensures Round(JNum(Dec(157, 1))) == Value(16) && Round(JNum(Dec(155, 1))) == Value(16)
    ensures RoundHalfAway(1830, 100) == 18 && RoundHalfAway(2010, 100) == 20
    ensures RoundHalfAway(1885, 100) == 19 && RoundHalfAway(-50, 100) == -1
  {
  }

  /** The Paris example: 15.7 °C, "partly cloudy", two days at 18.3 and 20.1 °C,
      with today the first of January, give "16°C e partly cloudy em Paris em
      01/01. Média para os próximos dias: 18°C em 02/01, 20°C em 03/01.". */
  lemma ParisReport(cw: CurrentWeather, days: seq<DailyAverage>, today: CalendarDate)
    requires cw == CurrentWeather(JNum(Dec(157, 1)), JStr("partly cloudy"), JNull, JStr("Paris"), JNull)
    requires days == [DailyAverage("2024-01-02", 1830), DailyAverage("2024-01-03", 2010)]
    requires today == Date(2024, 1, 1)
    ensures BuildReport(cw, days, today)
      == Value("16" + Celsius + " e " + "partly cloudy" + " em " + "Paris" + " em " + "01/01" + Outlook
               + (("18" + Celsius + " em " + "02/01") + ", " + ("20" + Celsius + " em " + "03/01")) + ".")
  {
    RoundingExamples();
    var items := ["18" + Celsius + " em " + "02/01", "20" + Celsius + " em " + "03/01"];
    ParisDays(days, items);
    ParisOpening(cw, today);
    assert items[1..] == [items[1]];
    assert Join(items, ", ") == items[0] + ", " + items[1];
    assert BuildReport(cw, days, today) == Value(Opening(16, cw, today) + Join(items, ", ") + ".");
  }

  lemma ParisDays(days: seq<DailyAverage>, items: seq<string>)
    requires days == [DailyAverage("2024-01-02", 1830), DailyAverage("2024-01-03", 2010)]
    requires items == ["18" + Celsius + " em " + "02/01", "20" + Celsius + " em " + "03/01"]
    ensures DayTexts(days) == Value(items)
  {
    ParisSecond();
    ParisThird();
    assert DayTexts(days).value == items;
  }

  lemma ParisSecond()
    ensures DayText(DailyAverage("2024-01-02", 1830)) == Value("18" + Celsius + " em " + "02/01")
  {
    RoundingExamples();
    assert ParseYmd("2024-01-02") == Some(Date(2024, 1, 2));
    assert FormatDayMonth(Date(2024, 1, 2)) == "02/01";
    assert IntToString(18) == "18";
  }

  lemma ParisThird()
    ensures DayText(DailyAverage("2024-01-03", 2010)) == Value("20" + Celsius + " em " + "03/01")
  {
    RoundingExamples();
    assert ParseYmd("2024-01-03") == Some(Date(2024, 1, 3));
    assert FormatDayMonth(Date(2024, 1, 3)) == "03/01";
    assert IntToString(20) == "20";
  }

  lemma ParisOpening(cw: CurrentWeather, today: CalendarDate)
    requires cw == CurrentWeather(JNum(Dec(157, 1)), JStr("partly cloudy"), JNull, JStr("Paris"), JNull)
    requires today == Date(2024, 1, 1)
    ensures Opening(16, cw, today) == "16" + Celsius + " e " + "partly cloudy" + " em " + "Paris" + " em " + "01/01" + Outlook
  {
    assert FormatDayMonth(Date(2024, 1, 1)) == "01/01";
    assert IntToString(16) == "16";
  }
}
