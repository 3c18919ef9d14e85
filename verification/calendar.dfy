/**
 * The calendar tool (tools/calendar.go): validate a date, fetch the ICS feed,
 * keep the events that start on that date. Fetching and serialising the feed
 * are oracles.
 */
module Calendar {
  import opened Wrappers
  import opened Json
  import opened Tools

  const Name: string := "calendar"

  const InvalidJsonMessage: string := "invalid JSON format"
  const YearMessage: string := "year must be between 1900 and 2100"
  const MonthMessage: string := "month must be between 1 and 12"
  const DayMessage: string := "day must be between 1 and 31"
  const ParseErrorPrefix: string := "error parsing calendar data: "

  datatype CalendarInput = CalendarInput(year: int, month: int, day: int)

  /** A calendar date as read from an event's start time. */
  datatype Date = Date(year: int, month: int, day: int)

  /** A feed event: its identifier and its start date, `None` when the start time cannot be read. */
  datatype Event = Event(id: string, start: Option<Date>)

  /** The result of fetching and parsing the ICS feed. */
  datatype FeedReply = FeedError(detail: string) | Feed(events: seq<Event>)

  /** Decodes `{"year": .., "month": .., "day": ..}`; missing fields are 0. */
  function DecodeInput(raw: RawMessage): (r: Option<CalendarInput>)
    ensures raw.Malformed? ==> r.None?
    ensures raw == Wellformed(JNull) ==> r == Some(CalendarInput(0, 0, 0))
    ensures ObjectFields(raw).None? ==> r.None?
    ensures ObjectFields(raw).Some? ==>
              var f := ObjectFields(raw).value;
              (r.Some? <==> IntField(f, "year").Some? && IntField(f, "month").Some? && IntField(f, "day").Some?) &&
              (r.Some? ==> r.value == CalendarInput(IntField(f, "year").value, IntField(f, "month").value,
                                                    IntField(f, "day").value))
  {
    match ObjectFields(raw)
    case None => None
    case Some(fields) =>
      match (IntField(fields, "year"), IntField(fields, "month"), IntField(fields, "day"))
      case (Some(y), Some(m), Some(d)) => Some(CalendarInput(y, m, d))
      case _ => None
  }

  /** Fields left out of the object decode as zero: `{"year": 2025}` is year 2025, month 0, day 0. */
  lemma YearOnlyDecodes()
    ensures DecodeInput(Wellformed(JObject(map["year" := JNumber(2025)]))) == Some(CalendarInput(2025, 0, 0))
  {
  }

  predicate YearValid(input: CalendarInput) { 1900 <= input.year <= 2100 }
  predicate MonthValid(input: CalendarInput) { 1 <= input.month <= 12 }
  predicate DayValid(input: CalendarInput) { 1 <= input.day <= 31 }

  /**
   * The validation chain: year, then month, then day; the first failing check
   * gives the message. The day is not checked against the month's length.
   */
  function Validate(input: CalendarInput): (r: Option<string>)
    ensures r.None? <==> YearValid(input) && MonthValid(input) && DayValid(input)
    ensures r == Some(YearMessage) <==> !YearValid(input)
    ensures r == Some(MonthMessage) <==> YearValid(input) && !MonthValid(input)
    ensures r == Some(DayMessage) <==> YearValid(input) && MonthValid(input) && !DayValid(input)
  {
    if !YearValid(input) then Some(YearMessage)
    else if !MonthValid(input) then Some(MonthMessage)
    else if !DayValid(input) then Some(DayMessage)
    else None
  }

  /** Gregorian leap years: every fourth year, except centuries not divisible by 400. */
  predicate IsLeapYear(year: int)
  {
    year % 4 == 0 && (year % 100 != 0 || year % 400 == 0)
  }

  /** The number of days of a month of the given year. */
  function DaysInMonth(year: int, month: int): (r: int)
    requires 1 <= month <= 12
    ensures 28 <= r <= 31
    ensures month == 2 ==> (r == 29 <==> IsLeapYear(year))
  {
    if month == 2 then (if IsLeapYear(year) then 29 else 28)
    else if month == 4 || month == 6 || month == 9 || month == 11 then 30
    else 31
  }

  /** A date that exists in the calendar. */
  predicate RealDate(d: Date)
  {
    1 <= d.month <= 12 && 1 <= d.day <= DaysInMonth(d.year, d.month)
  }

  /** The days of the year before the first of `month`. */
  function DaysBefore(year: int, month: int): int
    requires 1 <= month <= 13
  {
    if month == 1 then 0 else DaysBefore(year, month - 1) + DaysInMonth(year, month - 1)
  }

  /** The position of a date within its year, counting 1 January as day 1. */
  function DayOfYear(d: Date): int
    requires 1 <= d.month <= 12
  {
    DaysBefore(d.year, d.month) + d.day
  }

  /**
   * The date `time.Date` builds from validated year, month and day at
   * midnight UTC. A day past the end of the month carries into the next
   * month, as Go normalises it. A validated day is at most 31, so the carry is
   * at most three days and never leaves December.
   */
  function TargetDate(input: CalendarInput): (r: Date)
    requires YearValid(input) && MonthValid(input) && DayValid(input)
    ensures RealDate(r) && r.year == input.year
    ensures DayOfYear(r) == DaysBefore(input.year, input.month) + input.day
  {
    var length := DaysInMonth(input.year, input.month);
    if input.day <= length then Date(input.year, input.month, input.day)
    else Date(input.year, input.month + 1, input.day - length)
  }

  /** A date that exists is its own target. */
  lemma TargetDateOfRealDate(input: CalendarInput)
    requires YearValid(input) && MonthValid(input) && DayValid(input)
    requires input.day <= DaysInMonth(input.year, input.month)
    ensures TargetDate(input) == Date(input.year, input.month, input.day)
  {
  }

  /** Two real dates of one year at the same position in it are the same date. */
  lemma {:induction false} DayOfYearInjective(a: Date, b: Date)
    requires RealDate(a) && RealDate(b) && a.year == b.year
    requires DayOfYear(a) == DayOfYear(b)
    ensures a == b
  {
    if a.month < b.month {
      DaysBeforeGrows(a.year, a.month + 1, b.month);
    } else if b.month < a.month {
      DaysBeforeGrows(a.year, b.month + 1, a.month);
    }
  }

  /** Months before a later month take up at least as many days. */
  lemma {:induction false} DaysBeforeGrows(year: int, m1: int, m2: int)
    requires 1 <= m1 <= m2 <= 13
    ensures DaysBefore(year, m1) <= DaysBefore(year, m2)
    decreases m2 - m1
  {
    if m1 < m2 {
      DaysBeforeGrows(year, m1, m2 - 1);
    }
  }

  /** The target is the one real date of the year at the position the input names. */
  lemma TargetDateUnique(input: CalendarInput, d: Date)
    requires YearValid(input) && MonthValid(input) && DayValid(input)
    requires RealDate(d) && d.year == input.year
    requires DayOfYear(d) == DaysBefore(input.year, input.month) + input.day
    ensures d == TargetDate(input)
  {
    DayOfYearInjective(d, TargetDate(input));
  }

  /** 31 February 2025 is 3 March 2025, since 2025 is not a leap year. */
  lemma February31st2025()
    ensures TargetDate(CalendarInput(2025, 2, 31)) == Date(2025, 3, 3)
  {
  }

  /** 31 February 2024 is 2 March 2024, since 2024 is a leap year. */
  lemma February31st2024()
    ensures TargetDate(CalendarInput(2024, 2, 31)) == Date(2024, 3, 2)
  {
  }

  /** Does the event start on the given date? Events without a readable start never do. */
  predicate StartsOn(e: Event, target: Date)
  {
    e.start.Some? &&
    e.start.value.year == target.year &&
    e.start.value.month == target.month &&
    e.start.value.day == target.day
  }

  /** The events of the feed that start on the requested date, in feed order. */
  function EventsOn(events: seq<Event>, target: Date): (r: seq<Event>)
    ensures |r| <= |events|
    ensures forall e :: e in r ==> e in events && StartsOn(e, target)
  {
    if events == [] then []
    else
      var last := events[|events| - 1];
      EventsOn(events[..|events| - 1], target) + (if StartsOn(last, target) then [last] else [])
  }

  /** Filtering a concatenation filters each part: the filter keeps feed order and drops nothing else. */
  lemma {:induction false} EventsOnAppend(a: seq<Event>, b: seq<Event>, target: Date)
    ensures EventsOn(a + b, target) == EventsOn(a, target) + EventsOn(b, target)
    decreases |b|
  {
    if b == [] {
      assert a + b == a;
    } else {
      var b', last := b[..|b| - 1], b[|b| - 1];
      var tail := if StartsOn(last, target) then [last] else [];
      EventsOnAppend(a, b', target);
      assert (a + b)[..|a + b| - 1] == a + b';
      assert (a + b)[|a + b| - 1] == last;
      calc {
        EventsOn(a + b, target);
        EventsOn(a + b', target) + tail;
        EventsOn(a, target) + EventsOn(b', target) + tail;
        EventsOn(a, target) + EventsOn(b, target);
      }
    }
  }

  /** Exactly one event per source event that starts on the date, and none for any other. */
  lemma EventsOnSingle(e: Event, target: Date)
    ensures EventsOn([e], target) == if StartsOn(e, target) then [e] else []
  {
    assert [e][..0] == [];
  }

  /** The loop of `Run` that adds each matching event to the filtered calendar. */
  method FilterEvents(events: seq<Event>, target: Date) returns (filtered: seq<Event>)
    ensures filtered == EventsOn(events, target)
  {
    filtered := [];
    var i := 0;
    while i < |events|
      invariant 0 <= i <= |events|
      invariant filtered == EventsOn(events[..i], target)
    {
      var event := events[i];
      assert events[..i + 1][..i] == events[..i];
      if event.start.Some? {
        if StartsOn(event, target) {
          filtered := filtered + [event];
        }
      }
      i := i + 1;
    }
    assert events[..|events|] == events;
  }

  /**
   * `Calendar.Run`: decode, validate, then fetch the feed at `icsUrl` and
   * serialise the events of the date. Argument problems are
   * invalid-arguments errors; a feed failure is an ordinary error.
   */
  function Run(raw: RawMessage, icsUrl: string,
               fetch: string -> FeedReply, serialize: seq<Event> -> string): (r: ToolOutcome)
    ensures DecodeInput(raw).None? ==> r == Error(InvalidToolArguments(Name, InvalidJsonMessage))
    ensures DecodeInput(raw).Some? && Validate(DecodeInput(raw).value).Some? ==>
              r == Error(InvalidToolArguments(Name, Validate(DecodeInput(raw).value).value))
    ensures r.Error? && r.error.Failed? ==>
              DecodeInput(raw).Some? && Validate(DecodeInput(raw).value).None? && fetch(icsUrl).FeedError?
    ensures r.Output? <==>
              DecodeInput(raw).Some? && Validate(DecodeInput(raw).value).None? && fetch(icsUrl).Feed?
    ensures DecodeInput(raw).Some? && Validate(DecodeInput(raw).value).None? && fetch(icsUrl).FeedError? ==>
              r == Error(Failed(ParseErrorPrefix + fetch(icsUrl).detail))
    ensures r.Output? ==> r.text == serialize(EventsOn(fetch(icsUrl).events, TargetDate(DecodeInput(raw).value)))
  {
    match DecodeInput(raw)
    case None => Error(InvalidToolArguments(Name, InvalidJsonMessage))
    case Some(input) =>
      match Validate(input)
      case Some(message) => Error(InvalidToolArguments(Name, message))
      case None =>
        match fetch(icsUrl)
        case FeedError(detail) => Error(Failed(ParseErrorPrefix + detail))
        case Feed(events) => Output(serialize(EventsOn(events, TargetDate(input))))
  }

  /** Asked for 31 February 2025, the tool lists the events that start on 3 March 2025. */
  lemma February31stListsMarch3rd(icsUrl: string, fetch: string -> FeedReply, serialize: seq<Event> -> string,
                                  e: Event)
    requires fetch(icsUrl) == Feed([e]) && e.start == Some(Date(2025, 3, 3))
    ensures var raw := Wellformed(JObject(map["year" := JNumber(2025), "month" := JNumber(2), "day" := JNumber(31)]));
            Run(raw, icsUrl, fetch, serialize) == Output(serialize([e]))
  {
    var raw := Wellformed(JObject(map["year" := JNumber(2025), "month" := JNumber(2), "day" := JNumber(31)]));
    assert DecodeInput(raw) == Some(CalendarInput(2025, 2, 31));
    February31st2025();
    EventsOnSingle(e, Date(2025, 3, 3));
  }

  /** Validation happens before the feed is fetched: a rejected input never depends on the feed. */
  lemma RejectedInputIgnoresFeed(raw: RawMessage, icsUrl: string,
                                 f1: string -> FeedReply, s1: seq<Event> -> string,
                                 f2: string -> FeedReply, s2: seq<Event> -> string)
    requires DecodeInput(raw).None? || Validate(DecodeInput(raw).value).Some?
    ensures Run(raw, icsUrl, f1, s1) == Run(raw, icsUrl, f2, s2)
    ensures Run(raw, icsUrl, f1, s1).Error? && Run(raw, icsUrl, f1, s1).error.InvalidToolArguments?
  {
  }
}
