/** `get_schedule` of tools/google_calendar.py: the query window, the flattening of each event returned by the
    Calendar service into a fixed record, and the policy that every error is re-raised.
    The service call is the parameter `fetch`; the current time is the parameter `now` (UTC, in seconds). */
module Calendar {
  import opened Wrappers
  import opened Json

  const DefaultCalendarId := "primary"
  const DefaultDaysAhead := 7
  const DefaultMaxResults := 10
  const SecondsPerDay := 86400

  /** The parameters of the `events().list` request. `timeMin` and `timeMax` are UTC instants in seconds. */
  datatype CalendarQuery = CalendarQuery(
    calendarId: string,
    timeMin: int,
    timeMax: int,
    timeZone: string,
    maxResults: int,
    singleEvents: bool,
    orderBy: string)

  /** The exceptions `get_schedule` lets escape: the client's `HttpError`, any other exception of the service
      layer, and the `AttributeError`/`TypeError` the formatting raises on a response of an unexpected shape. */
  datatype CalendarError = HttpError(message: string) | OtherError(message: string) | ShapeError

  /** What authenticating and executing the request produced: the decoded response, or the exception raised. */
  datatype ApiOutcome = Response(body: map<string, Value>) | Raised(error: CalendarError)

  datatype Attendee = Attendee(email: Value, name: Value, status: Value)

  /** One flattened event. A field whose source key is absent holds its default, or `Null` where the source
      passes no default to `.get`. */
  datatype FormattedEvent = FormattedEvent(
    id: Value,
    summary: Value,
    description: Value,
    start: Value,
    end: Value,
    location: Value,
    attendees: seq<Attendee>,
    creator: Value,
    organizer: Value,
    status: Value,
    html_link: Value,
    hangout_link: Value,
    conference_data: Value,
    is_all_day: bool)

  /** The request `get_schedule` sends: the window starts now and ends exactly `daysAhead` days later,
      in the Asia/Tokyo zone, single events ordered by start time. */
  function Query(calendarId: string, daysAhead: int, maxResults: int, now: int): (q: CalendarQuery)
    ensures q.timeMin == now
    ensures q.timeMax - q.timeMin == daysAhead * SecondsPerDay
    ensures daysAhead >= 0 ==> q.timeMin <= q.timeMax
    ensures q.calendarId == calendarId && q.maxResults == maxResults
    ensures q.timeZone == "Asia/Tokyo" && q.singleEvents && q.orderBy == "startTime"
  {
    CalendarQuery(calendarId, now, now + daysAhead * SecondsPerDay, "Asia/Tokyo", maxResults, true, "startTime")
  }

  /** `rec.get('dateTime', rec.get('date'))` on a start or end record. */
  function EventTime(rec: map<string, Value>): Value {
    GetOr(rec, "dateTime", Get(rec, "date"))
  }

  /** The attendee comprehension: one record per attendee, in order, renaming `displayName` to `name`
      and `responseStatus` to `status`. */
  function ProjectAttendees(atts: seq<map<string, Value>>): (r: seq<Attendee>)
    ensures |r| == |atts|
    ensures forall k :: 0 <= k < |atts| ==>
              r[k] == Attendee(Get(atts[k], "email"), Get(atts[k], "displayName"), Get(atts[k], "responseStatus"))
  {
    if atts == [] then []
    else
      [Attendee(Get(atts[0], "email"), Get(atts[0], "displayName"), Get(atts[0], "responseStatus"))]
      + ProjectAttendees(atts[1..])
  }

  /** The shapes on which formatting one event does not raise: `start` and `end`, when present, are dicts,
      and `attendees`, when present, iterates as dicts. */
  predicate Formattable(e: map<string, Value>) {
    && ("start" in e ==> e["start"].Obj?)
    && ("end" in e ==> e["end"].Obj?)
    && ("attendees" in e ==> Dicts(e["attendees"]).Some?)
  }

  /** The body of the formatting loop for one event; `None` when it would raise. */
  function FormatEvent(e: map<string, Value>): (r: Option<FormattedEvent>)
    ensures r.Some? <==> Formattable(e)
    ensures r.Some? ==> (r.value.is_all_day <==> "start" in e && "date" in e["start"].fields)
    ensures r.Some? && "attendees" !in e ==> r.value.attendees == []
    ensures r.Some? && "attendees" in e ==> r.value.attendees == ProjectAttendees(Dicts(e["attendees"]).value)
  {
    var start := GetOr(e, "start", Obj(map[]));
    var end := GetOr(e, "end", Obj(map[]));
    if !start.Obj? || !end.Obj? then None
    else
      match Dicts(GetOr(e, "attendees", Arr([])))
      case None => None
      case Some(atts) =>
        Some(FormattedEvent(
          id := Get(e, "id"),
          summary := GetOr(e, "summary", Str("No title")),
          description := GetOr(e, "description", Str("")),
          start := EventTime(start.fields),
          end := EventTime(end.fields),
          location := GetOr(e, "location", Str("")),
          attendees := ProjectAttendees(atts),
          creator := GetOr(e, "creator", Obj(map[])),
          organizer := GetOr(e, "organizer", Obj(map[])),
          status := Get(e, "status"),
          html_link := Get(e, "htmlLink"),
          hangout_link := Get(e, "hangoutLink"),
          conference_data := GetOr(e, "conferenceData", Obj(map[])),
          is_all_day := "date" in start.fields))
  }

  /** Absent keys take their defaults: `'No title'`, `''`, `{}`; the four keys without a default come out as `None`. */
  lemma FormatEventDefaults(e: map<string, Value>)
    requires Formattable(e)
    ensures var f := FormatEvent(e).value;
      && ("summary" !in e ==> f.summary == Str("No title"))
      && ("description" !in e ==> f.description == Str(""))
      && ("location" !in e ==> f.location == Str(""))
      && ("creator" !in e ==> f.creator == Obj(map[]))
      && ("organizer" !in e ==> f.organizer == Obj(map[]))
      && ("conferenceData" !in e ==> f.conference_data == Obj(map[]))
      && ("id" !in e ==> f.id == Null)
      && ("status" !in e ==> f.status == Null)
      && ("htmlLink" !in e ==> f.html_link == Null)
      && ("hangoutLink" !in e ==> f.hangout_link == Null)
      && ("start" !in e ==> f.start == Null && !f.is_all_day)
      && ("end" !in e ==> f.end == Null)
  {
  }

  /** Present keys are copied unchanged, even when their value is `None`. */
  lemma FormatEventPassesPresentValues(e: map<string, Value>)
    requires Formattable(e)
    ensures var f := FormatEvent(e).value;
      && ("id" in e ==> f.id == e["id"])
      && ("summary" in e ==> f.summary == e["summary"])
      && ("description" in e ==> f.description == e["description"])
      && ("location" in e ==> f.location == e["location"])
      && ("creator" in e ==> f.creator == e["creator"])
      && ("organizer" in e ==> f.organizer == e["organizer"])
      && ("status" in e ==> f.status == e["status"])
      && ("htmlLink" in e ==> f.html_link == e["htmlLink"])
      && ("hangoutLink" in e ==> f.hangout_link == e["hangoutLink"])
      && ("conferenceData" in e ==> f.conference_data == e["conferenceData"])
  {
  }

  /** `start` takes the record's `dateTime` when it has one, else its `date`, else `None`. */
  lemma FormatEventStartTime(e: map<string, Value>)
    requires Formattable(e) && "start" in e
    ensures var rec, f := e["start"].fields, FormatEvent(e).value;
      && ("dateTime" in rec ==> f.start == rec["dateTime"])
      && ("dateTime" !in rec && "date" in rec ==> f.start == rec["date"])
      && ("dateTime" !in rec && "date" !in rec ==> f.start == Null)
  {
  }

  /** `end` follows the same rule on the end record. */
  lemma FormatEventEndTime(e: map<string, Value>)
    requires Formattable(e) && "end" in e
    ensures var rec, f := e["end"].fields, FormatEvent(e).value;
      && ("dateTime" in rec ==> f.end == rec["dateTime"])
      && ("dateTime" !in rec && "date" in rec ==> f.end == rec["date"])
      && ("dateTime" !in rec && "date" !in rec ==> f.end == Null)
  {
  }

  /** An event with both `date` and `dateTime` in its start record is all-day, yet its start is the `dateTime`. */
  lemma AllDayFlagIgnoresDateTime(e: map<string, Value>)
    requires Formattable(e) && "start" in e
    requires "date" in e["start"].fields && "dateTime" in e["start"].fields
    ensures FormatEvent(e).value.is_all_day
    ensures FormatEvent(e).value.start == e["start"].fields["dateTime"]
  {
  }

  /** The formatting loop as a value: the list built so far, or `None` once some event raised. */
  function FormatAll(events: seq<map<string, Value>>): (r: Option<seq<FormattedEvent>>)
    ensures r.Some? ==> |r.value| == |events|
  {
    if events == [] then Some([])
    else
      match FormatAll(events[..|events| - 1])
      case None => None
      case Some(done) =>
        match FormatEvent(events[|events| - 1])
        case None => None
        case Some(f) => Some(done + [f])
  }

  /** The loop succeeds exactly when every event is formattable, and then yields one record per event, in order. */
  lemma {:induction false} FormatAllOnePerEvent(events: seq<map<string, Value>>)
    ensures FormatAll(events).Some? <==> forall k :: 0 <= k < |events| ==> Formattable(events[k])
    ensures FormatAll(events).Some? ==>
              && |FormatAll(events).value| == |events|
              && forall k :: 0 <= k < |events| ==> FormatEvent(events[k]) == Some(FormatAll(events).value[k])
  {
    if events != [] {
      var init := events[..|events| - 1];
      FormatAllOnePerEvent(init);
      assert forall k :: 0 <= k < |init| ==> init[k] == events[k];
    }
  }

  /** The `for event in events` loop of `get_schedule`, appending one formatted record per event. */
  method FormatEvents(events: seq<map<string, Value>>) returns (r: Option<seq<FormattedEvent>>)
    ensures r == FormatAll(events)
  {
    var formatted: seq<FormattedEvent> := [];
    var i := 0;
    while i < |events|
      invariant 0 <= i <= |events|
      invariant FormatAll(events[..i]) == Some(formatted)
    {
      var f := FormatEvent(events[i]);
      if f.None? {
        FormatAllOnePerEvent(events);
        return None;
      }
      assert events[..i + 1][..i] == events[..i];
      formatted := formatted + [f.value];
      i := i + 1;
    }
    assert events[..i] == events;
    return Some(formatted);
  }

  /** What `get_schedule` does with the service's outcome: an exception is re-raised as it is; a response's
      `items` (absent means none) is formatted, and a shape the formatting cannot handle raises. */
  function ScheduleFrom(outcome: ApiOutcome): (r: Result<seq<FormattedEvent>, CalendarError>)
    ensures outcome.Raised? ==> r == Failure(outcome.error)
    ensures outcome.Response? && r.Failure? ==> r.error == ShapeError
    ensures outcome.Response? && "items" !in outcome.body ==> r == Success([])
  {
    match outcome
    case Raised(e) => Failure(e)
    case Response(body) =>
      match Dicts(GetOr(body, "items", Arr([])))
      case None => Failure(ShapeError)
      case Some(events) =>
        match FormatAll(events)
        case None => Failure(ShapeError)
        case Some(formatted) => Success(formatted)
  }

  /** `get_schedule` itself: build the query from the arguments and the current time, call the service, format. */
  method GetSchedule(calendarId: string, daysAhead: int, maxResults: int, now: int, fetch: CalendarQuery -> ApiOutcome)
    returns (r: Result<seq<FormattedEvent>, CalendarError>)
    ensures r == ScheduleFrom(fetch(Query(calendarId, daysAhead, maxResults, now)))
  {
    var outcome := fetch(Query(calendarId, daysAhead, maxResults, now));
    match outcome {
      case Raised(e) =>
        r := Failure(e);
      case Response(body) =>
        var items := Dicts(GetOr(body, "items", Arr([])));
        if items.None? {
          r := Failure(ShapeError);
        } else {
          var formatted := FormatEvents(items.value);
          r := if formatted.None? then Failure(ShapeError) else Success(formatted.value);
        }
    }
  }

  /** Called with its defaults, `get_schedule` asks the primary calendar for at most 10 events of the next 7 days. */
  lemma DefaultQuery(now: int)
    ensures Query(DefaultCalendarId, DefaultDaysAhead, DefaultMaxResults, now)
         == CalendarQuery("primary", now, now + 7 * 86400, "Asia/Tokyo", 10, true, "startTime")
  {
  }

  /** Errors are never turned into a result value: whatever the service raised is what `get_schedule` raises. */
  lemma ScheduleReRaises(e: CalendarError)
    ensures ScheduleFrom(Raised(e)) == Failure(e)
  {
  }

  /** A response without `items` yields an empty list. */
  lemma ScheduleWithoutItems(body: map<string, Value>)
    requires "items" !in body
    ensures ScheduleFrom(Response(body)) == Success([])
  {
  }

  /** A list of events yields exactly one record per event, in the same order; it fails only when some
      element is not a dict or is not formattable. */
  lemma {:induction false} ScheduleOnePerEvent(body: map<string, Value>, events: seq<Value>)
    requires "items" in body && body["items"] == Arr(events)
    ensures ScheduleFrom(Response(body)).Success? <==>
              forall k :: 0 <= k < |events| ==> events[k].Obj? && Formattable(events[k].fields)
    ensures ScheduleFrom(Response(body)).Success? ==>
              && |ScheduleFrom(Response(body)).value| == |events|
              && forall k :: 0 <= k < |events| ==>
                   FormatEvent(events[k].fields) == Some(ScheduleFrom(Response(body)).value[k])
  {
    var items := Dicts(Arr(events));
    if items.Some? {
      FormatAllOnePerEvent(items.value);
    }
  }
}
