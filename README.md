# watari assistant relay — a Dafny model

watari is a chat-triggered personal assistant. A Discord bot passes each message to the `llm` command line,
exposing the Google Calendar schedule lookup of tools/google_calendar.py as a tool function, and relays the
output back to the channel. tools/weather.py defines two more tool functions, weather lookups through macOS
Shortcuts, which this relay does not pass to `llm`; main.py registers `upper` and `count_char` (as `count_character_in_word`) through the `register_tools` hook. This project models the deterministic layer around
those external calls:

- `get_schedule` (`Calendar`): the query window; the flattening of each event into a fixed record (defaults,
  start/end choice, attendee projection, all-day flag); and the policy that every error is re-raised. The
  formatting loop is the method `Calendar.FormatEvents`, proved against the function `Calendar.FormatAll`.
- `get_weather` and `get_weather_forecast` (`Weather`): a total case analysis from the Shortcuts run's outcome
  to the returned dict, with a fallback from JSON to plain text.
- `on_message` (`Relay`): the bot filter, the command line and the reply chosen for each outcome. The handler is
  the class `Relay.Relay`, whose `outbox` records what the channel received and whose `launched` records the
  command lines that were started.
- `get_env`, `count_char` and `register_tools` of main.py (`Entry`).
- Python's `str.strip()` (`Text`) and decoded JSON values (`Json`), which these need.

Every external call is a parameter of the model:

- the Calendar service is `fetch: CalendarQuery -> ApiOutcome`;
- the clock is `now`, in integer UTC seconds;
- `subprocess.run` is `run`, which returns an outcome datatype;
- `json.loads` is `parse: string -> ParseOutcome`, where the outcome is a value, a `JSONDecodeError` or another
  exception;
- whether Discord accepts a send is `accepts: (nat, string) -> bool`, asked with the attempt number (0 for a
  message's first send, 1 for the `ERROR` sent after it failed) and the text;
- the process environment is `env: map<string, string>`.

A Python exception that escapes `get_schedule` or `get_env` is `Failure` of a `Result`. Inside the calendar
formatting (`Calendar.FormatEvent`, `Calendar.FormatAll`) and Python's iteration (`Json.Dicts`), an exception is
`Option.None`, which `Calendar.ScheduleFrom` turns into a `Failure`. A `None` inside a JSON-like value (a dict
entry or a `.get` result) and JSON `null` are the single value `Json.Null`; the `None` that `get_env` returns
without raising is `Option.None`.

Three behaviours of the code are easy to misread, and the model keeps each as written:

- every bot's message is ignored (`message.author.bot`), not only the relay's own messages;
- an absent `id`, `status`, `htmlLink` or `hangoutLink` stays `None`; it is not given an empty default;
- calendar errors are re-raised, while the weather tools turn every error into a result dict.

## Model

| member | source | states |
|---|---|---|
| `Calendar.Query` | tools/google_calendar.py:33-46 | the window starts at `now` and its end minus its start is exactly `daysAhead` days of 86400 s; the request carries the calendar id, the maximum count, zone `Asia/Tokyo`, single events, ordered by start time |
| `Calendar.ProjectAttendees` | tools/google_calendar.py:67-74 | one attendee record per input attendee, in order, each holding `email`, `displayName` and `responseStatus` as `email`, `name` and `status` (`None` when absent) |
| `Calendar.FormatEvent` | tools/google_calendar.py:53-81 | formatting one event raises exactly when `start`/`end` is present but not a dict, or `attendees` does not iterate as dicts; `is_all_day` holds iff the start record has a `date` key; the attendees are `ProjectAttendees` of the event's own attendee list, and empty when it is absent |
| `Calendar.FormatEventDefaults` | tools/google_calendar.py:60-80 | absent `summary` becomes `'No title'`, `description`/`location` become `''`, and `creator`/`organizer`/`conferenceData` become `{}`; `id`/`status`/`htmlLink`/`hangoutLink` become `None`; a missing start or end record acts as `{}` |
| `Calendar.FormatEventPassesPresentValues` | tools/google_calendar.py:61-80 | every present source key is copied unchanged, even when its value is `None`, under its output name (`htmlLink` as `html_link`, `hangoutLink` as `hangout_link`, `conferenceData` as `conference_data`) |
| `Calendar.FormatEventStartTime` | tools/google_calendar.py:53-57 | `start` is the start record's `dateTime` if present, else its `date`, else `None` |
| `Calendar.FormatEventEndTime` | tools/google_calendar.py:54-58 | `end` follows the same rule on the end record |
| `Calendar.AllDayFlagIgnoresDateTime` | tools/google_calendar.py:81 | a start record with both `date` and `dateTime` is all-day, yet its `start` is the `dateTime` |
| `Calendar.FormatAll` | tools/google_calendar.py:50-83 | the loop as a value: when no event raises, the list has one record per event |
| `Calendar.FormatAllOnePerEvent` | tools/google_calendar.py:50-83 | the loop succeeds iff every event is formattable, and then yields exactly one record per event, in the same order, each being that event's formatting |
| `Calendar.FormatEvents` | tools/google_calendar.py:50-83 | the append loop's result equals `FormatAll` of the events |
| `Calendar.GetSchedule` | tools/google_calendar.py:13-92 | the result is `ScheduleFrom` of the service's answer to exactly `Query(calendarId, daysAhead, maxResults, now)` |
| `Calendar.ScheduleFrom` | tools/google_calendar.py:48-92 | a service exception comes out unchanged; any other failure is the shape error of the formatting; no `items` key gives the empty list |
| `Calendar.DefaultQuery` | tools/google_calendar.py:13-17 | with its defaults, the request is for calendar `primary`, at most 10 events, from now to 7 days later |
| `Calendar.ScheduleReRaises` | tools/google_calendar.py:87-92 | an exception from the service is raised again unchanged, never turned into a result |
| `Calendar.ScheduleWithoutItems` | tools/google_calendar.py:48 | a response with no `items` key yields an empty list |
| `Calendar.ScheduleOnePerEvent` | tools/google_calendar.py:48-83 | a response whose `items` is a list succeeds iff every item is a formattable dict, and then yields one record per item, in order |
| `Text.TrimStart` | tools/weather.py:27 | the result is the suffix of the input that starts at its first non-whitespace character; everything dropped is whitespace |
| `Text.TrimEnd` | tools/weather.py:27 | the result is the prefix of the input that ends at its last non-whitespace character; everything dropped is whitespace |
| `Text.Strip` | tools/weather.py:27 | the stripped text is no longer than the input, and neither begins nor ends with whitespace |
| `Text.StripIsSlice` | discord/discord_bot.py:32 | `strip()` returns the slice of the input between two cut points |
| `Text.StripCutsLeadingSpace` | tools/weather.py:27 | everything `strip()` cuts off before the kept text is whitespace |
| `Text.StripCutsTrailingSpace` | discord/discord_bot.py:32 | everything `strip()` cuts off after the kept text is whitespace |
| `Text.StripIdempotent` | tools/weather.py:27 | stripping twice equals stripping once |
| `Text.StripEmptyIffAllSpace` | discord/discord_bot.py:32 | the stripped text is empty iff the input is all whitespace |
| `Weather.Invocation` | tools/weather.py:17-19 | the run is `shortcuts run <shortcut>` with the location, unchanged, as standard input |
| `Weather.ExitText` | tools/weather.py:39 | `str(CalledProcessError)` is `Command '['shortcuts', 'run', '<shortcut>']' returned non-zero exit status N.` for a status N ≥ 0, and `... died with unknown signal N.` for status −N |
| `Weather.DecimalValue` | tools/weather.py:39 | the exit status is written as its own decimal value, with no leading zero |
| `Weather.Interpret` | tools/weather.py:15-51 | a clean exit whose output decodes returns the decoded value; every other outcome returns a dict carrying the input `location`; every failure, including a decoder exception other than `JSONDecodeError`, returns an error result |
| `Weather.GetWeather` | tools/weather.py:6-51 | `get_weather` interprets the outcome of running `shortcuts run get-weather` with the location as standard input |
| `Weather.GetWeatherForecast` | tools/weather.py:54-99 | `get_weather_forecast` interprets the outcome of running `shortcuts run get-weather-forecast` with the location as standard input |
| `Weather.ErrorResult` | tools/weather.py:37-51 | an error result has exactly the keys `error` and `location`, and `location` is the input |
| `Weather.PlainResult` | tools/weather.py:29-35 | the fallback has exactly the keys `location`, the info key and `source`, holding the location, the text and `Mac Shortcuts` |
| `Weather.JsonOutputReturnedUnchanged` | tools/weather.py:26-28 | when the stripped output decodes as JSON, the decoded value itself is returned |
| `Weather.PlainTextFallback` | tools/weather.py:29-35 | when it does not decode, the result is exactly `{location, weather_info: stripped output, source: "Mac Shortcuts"}` |
| `Weather.FallbackHasNoError` | tools/weather.py:29-35 | the fallback never carries an `error` key |
| `Weather.FailedRunMessage` | tools/weather.py:37-41 | a non-zero exit gives `"Shortcuts command failed: "` followed by the stripped stderr when stderr is non-empty, else the exception text; whitespace-only stderr leaves the tail empty |
| `Weather.OtherExceptionMessage` | tools/weather.py:47-51 | any other exception, from the run or from the decoder, gives exactly `{error: "An error occurred: " + its text, location}` |
| `Weather.MissingRunnerMessage` | tools/weather.py:42-46 | a missing `shortcuts` binary gives the fixed not-found message with the location |
| `Weather.ErrorResultShape` | tools/weather.py:37-51 | every failing outcome, including an exception other than `JSONDecodeError` from the decoder, yields an error result; no outcome raises |
| `Weather.ForecastMirrorsWeather` | tools/weather.py:54-99 | the forecast tool gives the weather tool's result for the same outcome, except the fallback key `forecast_info` and the shortcut name inside the exit-status text; the stdin and the first two arguments are the same |
| `Weather.DefaultLocationIsTokyo` | tools/weather.py:6 | with the default location both tools run their shortcut with `Tokyo` as standard input |
| `Relay.Command` | discord/discord_bot.py:8-30 | the command line is the fixed `llm` prefix with ` '`, then the message text, then `'` |
| `Relay.CommandKeepsContent` | discord/discord_bot.py:30 | the text is inserted verbatim: it is recovered exactly from the command line, and different texts give different commands |
| `Relay.QuoteInContentIsNotEscaped` | discord/discord_bot.py:29-30 | a single quote in the message appears raw in the command line, strictly between the two quotes that delimit the argument, so the line holds at least three quotes |
| `Relay.Request` | discord/discord_bot.py:31 | the run is a shell command in `.` with a 10-second limit |
| `Relay.ReplyText` | discord/discord_bot.py:32-37 | a timeout or an exception gives a fixed text (`ERROR` for any exception); a completed run gives text no longer than its stdout |
| `Relay.CompletedRunRelaysStdout` | discord/discord_bot.py:31-32 | a completed run is relayed as its stripped stdout, whatever its exit status, and as the empty text when the output is all whitespace |
| `Relay.ExceptionTextNotSent` | discord/discord_bot.py:33-37 | a timeout gives `Command timed out`; every other exception gives `ERROR`, whatever its text |
| `Relay.Launches` | discord/discord_bot.py:22-31 | a bot's message starts no run; any other message starts exactly one |
| `Relay.Replies` | discord/discord_bot.py:22-37 | at most one text reaches the channel, always the message's own channel; nothing is sent for a bot; if the service accepts the reply, exactly that reply is sent; if it rejects it, `ERROR` is tried only after a completed run, and a rejected timeout or error notice leaves nothing delivered |
| `Relay.RetryAfterRejectedErrorText` | discord/discord_bot.py:32-37 | the first send and the `ERROR` fallback are separate requests: output `ERROR` whose first send fails is still delivered by a successful fallback |
| `Relay.Relay.OnMessage` | discord/discord_bot.py:20-37 | the handler adds `Launches(msg)` to the started runs and `Replies` for the run's outcome to the outbox, and changes nothing else |
| `Relay.BotMessagesIgnored` | discord/discord_bot.py:22-23 | a bot's message starts no run and gets no reply |
| `Relay.OneReplyPerMessage` | discord/discord_bot.py:28-37 | when every first send succeeds, a non-bot message gets exactly one reply, chosen by the outcome |
| `Json.Get` | tools/google_calendar.py:61 | `d.get(key)` is the stored value when the key is present, else `None` |
| `Json.GetOr` | tools/google_calendar.py:62 | `d.get(key, default)` is the stored value when the key is present, even `None`, else the default |
| `Json.Dicts` | tools/google_calendar.py:52 | a `for` loop over a value yields dicts exactly for a list of dicts, an empty string or an empty dict; a list keeps its length and its elements in order |
| `Entry.GetEnv` | main.py:5-9 | the result is the environment value when set, else the default; `ValueError` with its message exactly when required and both are absent |
| `Entry.GetEnvWithDefaultNeverRaises` | main.py:5-9 | with a default given, `get_env` never raises and never returns `None` |
| `Entry.ModelName` | main.py:26 | the model name is `LLM_MODEL` when set, else `gemini/gemini-2.5-flash` |
| `Entry.CountChar` | main.py:15-17 | an empty argument counts `|text| + 1` occurrences, as Python's `str.count` does |
| `Entry.CountSingleCharacter` | main.py:15-17 | for one character, the count is the number of positions holding it, and lies in `0..|text|` |
| `Entry.CountFitsText` | main.py:15-17 | occurrences of a longer argument do not overlap: count × length ≤ `|text|` |
| `Entry.Register` | main.py:21-23 | a registration binds the given `name=`, or the function's own name when none is given |
| `Entry.RegisterTools` | main.py:20-23 | exactly two tools are registered: `upper` under `upper` and `count_char` under `count_character_in_word`, two distinct names |

## Left out

- `get_service` (tools/google_calendar.py:95-113): OAuth, the token file and building the client are I/O through
  a foreign library. Any failure there is part of the `Raised` outcome of `fetch`.
- The Calendar request itself (tools/google_calendar.py:38-46) is the parameter `fetch`. The service filters
  events to the window, orders them and caps them at `maxResults`; the model takes its answer as given.
- `utcnow` is the parameter `now`, in whole seconds. The ISO-8601 rendering of the window is not modelled.
  Neither is the `OverflowError` that Python's `datetime` raises for windows outside years 1–9999.
- `get_schedule` returns the Python `repr` of the list (tools/google_calendar.py:85). The model returns the list
  of records itself.
- JSON numbers are integers only: floating-point values in event data or decoded weather output are not
  modelled.
- `subprocess.run` and `json.loads` are the parameters `run` and `parse`. The text decoding of captured output is
  not modelled.
- `Weather.ExitText`: Python writes a process killed by a named signal as `died with <Signals.SIGKILL: 9>.`. The
  model writes every signal in the form Python uses for unknown signals, `died with unknown signal N.`.
- The shell's reading of the command line is not modelled, only its text. `Relay.QuoteInContentIsNotEscaped`
  records that the quoting does not protect it.
- Discord client setup, `on_ready` and `client.run` (discord/discord_bot.py:11-17,39) are not modelled, and
  neither is the asynchronous event loop. Whether a send succeeds is the parameter `accepts`. Messages are
  handled one at a time.
- All `print` logging (discord/discord_bot.py:26,36; tools/google_calendar.py:88,91) is left out. So is the
  `DISCORD_BOT_TOKEN` lookup.
- `upper` (main.py:11-13) is only registered by name: Python's Unicode case mapping is not modelled.
- The `llm` library's `get_model`, `prompt` and `tool_calls` (main.py:29-31) are foreign calls. So is the
  registry behind `register`, including its schema derivation and duplicate-name handling.
