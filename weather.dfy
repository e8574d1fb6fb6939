/** `get_weather` and `get_weather_forecast` of tools/weather.py: run a Shortcuts shortcut with the location on
    standard input and map every outcome to a result dict; neither function raises.
    Running the process is the parameter `run`, and `json.loads` the parameter `parse`. */
module Weather {
  import opened Json
  import opened Text

  const DefaultLocation := "Tokyo"
  const Source := "Mac Shortcuts"
  const NotFoundMessage :=
    "Shortcuts command not found. Make sure you're running on macOS with Shortcuts app installed."

  /** Which of the two tools: current weather or forecast. */
  datatype Report = Current | Forecast

  /** The argument vector and standard input of one `subprocess.run` call. */
  datatype ShortcutRun = ShortcutRun(argv: seq<string>, stdin: string)

  /** What `subprocess.run` did: the process exited with a status and captured output, the `shortcuts` binary
      was not found, or some other exception was raised (its `str`). */
  datatype RunOutcome = Exited(code: int, stdout: string, stderr: string) | NotFound | Crashed(text: string)

  /** What `json.loads` did: decoded a value, raised `JSONDecodeError`, or raised some other exception. */
  datatype ParseOutcome = Parsed(value: Value) | DecodeError | ParserCrashed(text: string)

  function ShortcutName(report: Report): string {
    match report
    case Current => "get-weather"
    case Forecast => "get-weather-forecast"
  }

  /** The key under which the plain-text fallback carries the output. */
  function InfoKey(report: Report): string {
    match report
    case Current => "weather_info"
    case Forecast => "forecast_info"
  }

  /** The run each tool asks for: `shortcuts run <name>`, with the location, unchanged, as standard input. */
  function Invocation(report: Report, location: string): (r: ShortcutRun)
    ensures r.argv == ["shortcuts", "run", ShortcutName(report)]
    ensures r.stdin == location
  {
    ShortcutRun(["shortcuts", "run", ShortcutName(report)], location)
  }

  /** Decimal digits of a natural number, as Python's `%d` writes it. */
  function Decimal(n: nat): (r: string)
    ensures |r| >= 1
    ensures forall k :: 0 <= k < |r| ==> '0' <= r[k] <= '9'
  {
    if n < 10 then [(n + '0' as int) as char] else Decimal(n / 10) + Decimal(n % 10)
  }

  /** The number a string of decimal digits denotes. */
  function DigitsValue(s: string): int {
    if s == [] then 0 else DigitsValue(s[..|s| - 1]) * 10 + (s[|s| - 1] as int - '0' as int)
  }

  /** `Decimal` writes the number itself, with no leading zero. */
  lemma {:induction false} DecimalValue(n: nat)
    ensures DigitsValue(Decimal(n)) == n
    ensures n > 0 ==> Decimal(n)[0] != '0'
  {
    if n >= 10 {
      DecimalValue(n / 10);
      var d := Decimal(n);
      assert d[..|d| - 1] == Decimal(n / 10);
    }
  }

  /** `str(e)` of the `CalledProcessError` that `check=True` raises for a non-zero exit status. */
  function ExitText(report: Report, code: int): (r: string)
    ensures var cmd := "Command '['shortcuts', 'run', '" + ShortcutName(report) + "']'";
      && |r| > |cmd| && r[..|cmd|] == cmd && r[|r| - 1] == '.'
      && (code >= 0 ==> r == cmd + " returned non-zero exit status " + Decimal(code) + ".")
      && (code < 0 ==> r == cmd + " died with unknown signal " + Decimal(-code) + ".")
  {
    var cmd := "Command '['shortcuts', 'run', '" + ShortcutName(report) + "']'";
    if code < 0 then cmd + " died with unknown signal " + Decimal(-code) + "."
    else cmd + " returned non-zero exit status " + Decimal(code) + "."
  }

  /** The shape of every error result: exactly the keys `error` and `location`, the latter the input. */
  predicate IsErrorResult(v: Value, location: string) {
    && v.Obj?
    && v.fields.Keys == {"error", "location"}
    && v.fields["location"] == Str(location)
    && v.fields["error"].Str?
  }

  function ErrorResult(message: string, location: string): (r: Value)
    ensures IsErrorResult(r, location)
    ensures r.fields["error"] == Str(message)
  {
    Obj(map["error" := Str(message), "location" := Str(location)])
  }

  /** The plain-text fallback when the output is not JSON. */
  function PlainResult(report: Report, location: string, info: string): (r: Value)
    ensures r.Obj? && r.fields.Keys == {"location", InfoKey(report), "source"}
    ensures r.fields["location"] == Str(location) && r.fields["source"] == Str("Mac Shortcuts")
    ensures r.fields[InfoKey(report)] == Str(info)
  {
    Obj(map["location" := Str(location), InfoKey(report) := Str(info), "source" := Str(Source)])
  }

  /** The case analysis both tools share, from the run's outcome to the returned dict. */
  function Interpret(report: Report, location: string, outcome: RunOutcome, parse: string -> ParseOutcome): (r: Value)
    ensures outcome.Exited? && outcome.code == 0 && parse(Strip(outcome.stdout)).Parsed? ==>
              r == parse(Strip(outcome.stdout)).value
    ensures !(outcome.Exited? && outcome.code == 0 && parse(Strip(outcome.stdout)).Parsed?) ==>
              r.Obj? && "location" in r.fields && r.fields["location"] == Str(location)
    ensures !(outcome.Exited? && outcome.code == 0 && !parse(Strip(outcome.stdout)).ParserCrashed?) ==>
              IsErrorResult(r, location)
  {
    match outcome
    case Exited(code, stdout, stderr) =>
      if code != 0 then
        ErrorResult("Shortcuts command failed: " + (if stderr != "" then Strip(stderr) else ExitText(report, code)), location)
      else (
        match parse(Strip(stdout))
        case Parsed(v) => v
        case DecodeError => PlainResult(report, location, Strip(stdout))
        case ParserCrashed(text) => ErrorResult("An error occurred: " + text, location))
    case NotFound => ErrorResult(NotFoundMessage, location)
    case Crashed(text) => ErrorResult("An error occurred: " + text, location)
  }

  /** `get_weather(location)`: runs `shortcuts run get-weather` on the location and interprets the outcome. */
  function GetWeather(location: string, run: ShortcutRun -> RunOutcome, parse: string -> ParseOutcome): (r: Value)
    ensures r == Interpret(Current, location, run(ShortcutRun(["shortcuts", "run", "get-weather"], location)), parse)
  {
    Interpret(Current, location, run(Invocation(Current, location)), parse)
  }

  /** `get_weather_forecast(location)`: runs `shortcuts run get-weather-forecast` on the location and interprets the outcome. */
  function GetWeatherForecast(location: string, run: ShortcutRun -> RunOutcome, parse: string -> ParseOutcome): (r: Value)
    ensures r == Interpret(Forecast, location, run(ShortcutRun(["shortcuts", "run", "get-weather-forecast"], location)), parse)
  {
    Interpret(Forecast, location, run(Invocation(Forecast, location)), parse)
  }

  /** A successful run whose stripped output decodes as JSON returns the decoded value itself. */
  lemma JsonOutputReturnedUnchanged(report: Report, location: string, stdout: string, stderr: string,
                                    parse: string -> ParseOutcome, v: Value)
    requires parse(Strip(stdout)) == Parsed(v)
    ensures Interpret(report, location, Exited(0, stdout, stderr), parse) == v
  {
  }

  /** A successful run whose output is not JSON returns exactly location, the stripped output and the source. */
  lemma PlainTextFallback(report: Report, location: string, stdout: string, stderr: string,
                          parse: string -> ParseOutcome)
    requires parse(Strip(stdout)) == DecodeError
    ensures Interpret(report, location, Exited(0, stdout, stderr), parse)
         == Obj(map["location" := Str(location), InfoKey(report) := Str(Strip(stdout)), "source" := Str("Mac Shortcuts")])
  {
  }

  /** A non-zero exit reports the stripped standard error when there is any, otherwise the exception's text.
      Standard error made only of whitespace counts as present and leaves the message's tail empty. */
  lemma FailedRunMessage(report: Report, location: string, code: int, stdout: string, stderr: string,
                         parse: string -> ParseOutcome)
    requires code != 0
    ensures var r := Interpret(report, location, Exited(code, stdout, stderr), parse);
      && IsErrorResult(r, location)
      && (stderr != "" ==> r.fields["error"] == Str("Shortcuts command failed: " + Strip(stderr)))
      && (stderr == "" ==> r.fields["error"] == Str("Shortcuts command failed: " + ExitText(report, code)))
      && (stderr != "" && AllSpace(stderr) ==> r.fields["error"] == Str("Shortcuts command failed: "))
  {
    if stderr != "" && AllSpace(stderr) {
      StripEmptyIffAllSpace(stderr);
    }
  }

  /** Any other exception, raised by the run or by the decoder, is reported as `An error occurred: ` and its text. */
  lemma OtherExceptionMessage(report: Report, location: string, text: string, stdout: string, stderr: string,
                              parse: string -> ParseOutcome)
    ensures Interpret(report, location, Crashed(text), parse)
         == Obj(map["error" := Str("An error occurred: " + text), "location" := Str(location)])
    ensures parse(Strip(stdout)) == ParserCrashed(text) ==>
              (Interpret(report, location, Exited(0, stdout, stderr), parse)
               == Obj(map["error" := Str("An error occurred: " + text), "location" := Str(location)]))
  {
  }

  /** A missing `shortcuts` binary yields the fixed not-found message. */
  lemma MissingRunnerMessage(report: Report, location: string, parse: string -> ParseOutcome)
    ensures Interpret(report, location, NotFound, parse)
         == Obj(map["error" := Str(NotFoundMessage), "location" := Str(location)])
  {
  }

  /** Every outcome other than a clean exit whose output decodes or falls back yields an error result;
      no outcome escapes as an exception. */
  lemma ErrorResultShape(report: Report, location: string, outcome: RunOutcome, parse: string -> ParseOutcome)
    requires !outcome.Exited? || outcome.code != 0 || parse(Strip(outcome.stdout)).ParserCrashed?
    ensures IsErrorResult(Interpret(report, location, outcome, parse), location)
  {
  }

  /** The plain-text fallback never carries an `error` key. */
  lemma FallbackHasNoError(report: Report, location: string, stdout: string, stderr: string,
                           parse: string -> ParseOutcome)
    requires parse(Strip(stdout)) == DecodeError
    ensures "error" !in Interpret(report, location, Exited(0, stdout, stderr), parse).fields
  {
    var r := Interpret(report, location, Exited(0, stdout, stderr), parse);
    assert r == PlainResult(report, location, Strip(stdout));
    assert InfoKey(report) != "error" by {
      assert InfoKey(report)[0] != 'e';
    }
  }

  /** The forecast tool differs from the weather tool only in the shortcut it runs and in the fallback key:
      with the same run outcome, results agree except that `weather_info` becomes `forecast_info`, and the
      exit-status text names the other shortcut. */
  lemma ForecastMirrorsWeather(location: string, outcome: RunOutcome, parse: string -> ParseOutcome)
    ensures Invocation(Forecast, location).stdin == Invocation(Current, location).stdin
    ensures Invocation(Forecast, location).argv[..2] == Invocation(Current, location).argv[..2]
    ensures outcome.Exited? && outcome.code == 0 && parse(Strip(outcome.stdout)) == DecodeError ==>
              var w, f := Interpret(Current, location, outcome, parse).fields, Interpret(Forecast, location, outcome, parse).fields;
              && w.Keys - {"weather_info"} == f.Keys - {"forecast_info"}
              && w["weather_info"] == f["forecast_info"]
              && w["location"] == f["location"] && w["source"] == f["source"]
    ensures !(outcome.Exited? && (outcome.code == 0 || outcome.stderr == "")) ==>
              Interpret(Forecast, location, outcome, parse) == Interpret(Current, location, outcome, parse)
    ensures outcome.Exited? && outcome.code == 0 && !parse(Strip(outcome.stdout)).DecodeError? ==>
              Interpret(Forecast, location, outcome, parse) == Interpret(Current, location, outcome, parse)
  {
  }

  /** Both tools default to Tokyo and pass the location through to the shortcut untouched. */
  lemma DefaultLocationIsTokyo(run: ShortcutRun -> RunOutcome, parse: string -> ParseOutcome)
    ensures GetWeather(DefaultLocation, run, parse)
         == Interpret(Current, "Tokyo", run(ShortcutRun(["shortcuts", "run", "get-weather"], "Tokyo")), parse)
    ensures GetWeatherForecast(DefaultLocation, run, parse)
         == Interpret(Forecast, "Tokyo", run(ShortcutRun(["shortcuts", "run", "get-weather-forecast"], "Tokyo")), parse)
  {
  }
}
