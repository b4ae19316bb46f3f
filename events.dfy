/** The event translator of the calendar bridge: addEvent turns an event
    description (a ReadableMap from JavaScript) into one row of the events
    table and one row of the reminders table per alarm with a numeric date;
    saveEvent wraps it behind the calendar permission. */
module Events {
  import opened Wrappers
  import opened Provider
  import Recurrence
  import Decimal

  /** Keys of the event description. */
  const NOTES: string := "notes"
  const LOCATION: string := "location"
  const START_DATE: string := "startDate"
  const END_DATE: string := "endDate"
  const ALL_DAY_KEY: string := "allDay"
  const RECURRENCE: string := "recurrence"
  const ALARMS: string := "alarms"
  const DATE: string := "date"

  /** The columns addEvent may write; everything else belongs to reminders. */
  const EVENT_COLUMNS: set<Column> :=
    {CalendarId, Title, Description, EventLocation, DtStart, DtEnd, RRule, AllDay, EventTimezone, HasAlarm}

  /** Reminders.METHOD_DEFAULT. */
  const METHOD_DEFAULT: int := 0

  /** Every event goes to the calendar with id 1. */
  const DEFAULT_CALENDAR_ID: int := 1

  const ADD_EVENT_ERROR: string := "add event error"
  const NO_PERMISSION_MESSAGE: string :=
    "you don't have permissions to add an event to the users calendar"

  /** The exceptions addEvent can raise. */
  datatype Failure =
    | WrongType(key: string)   // a ReadableMap getter met a value of another type, or null where it needs a value
    | BadDate(key: string)     // dateStringToTimestamp failed: a null or unparseable date string
    | UnreadableAlarm          // an alarm entry that is not a map, or has no "date" key
    | InsertFailed             // the provider answered the event insert with null

  /** dateStringToTimestamp: epoch milliseconds, or None where parsing the
      ISO-8601 text raises. */
  type DateParser = string -> Option<int>

  function Lookup<K, V>(m: map<K, V>, key: K): Option<V> {
    if key in m then Some(m[key]) else None
  }

  /** The Java value a string getter puts into a column: the text, or null. */
  function StringValue(s: Option<string>): Value {
    if s.Some? then Str(s.value) else Null
  }

  /** ReadableMap.getString: the string, or Java null for a null value; any
      other value raises. */
  function GetString(details: map<string, Value>, key: string): (r: Result<Option<string>, Failure>)
    requires key in details
    ensures r.Ok? <==> details[key].Str? || details[key].Null?
    ensures r.Err? ==> r.error == WrongType(key)
    ensures r.Ok? ==> StringValue(r.value) == details[key]
  {
    match details[key]
    case Str(s) => Ok(Some(s))
    case Null => Ok(None)
    case _ => Err(WrongType(key))
  }

  /** ReadableMap.getBoolean: raises on anything but a boolean. */
  function GetBoolean(details: map<string, Value>, key: string): (r: Result<bool, Failure>)
    requires key in details
    ensures r.Ok? <==> details[key].Bool?
    ensures r.Err? ==> r.error == WrongType(key)
    ensures r.Ok? ==> Bool(r.value) == details[key]
  {
    match details[key]
    case Bool(b) => Ok(b)
    case _ => Err(WrongType(key))
  }

  /** dateStringToTimestamp(details.getString(key)). */
  function Timestamp(details: map<string, Value>, key: string, parse: DateParser): (r: Result<int, Failure>)
    requires key in details
    ensures r.Ok? <==> details[key].Str? && parse(details[key].s).Some?
    ensures r.Ok? ==> parse(details[key].s) == Some(r.value)
    ensures r.Err? ==> r.error == if details[key].Str? || details[key].Null? then BadDate(key) else WrongType(key)
  {
    match GetString(details, key)
    case Err(e) => Err(e)
    case Ok(None) => Err(BadDate(key))
    case Ok(Some(s)) => if parse(s).Some? then Ok(parse(s).value) else Err(BadDate(key))
  }

  /** The exception the reads of CalendarEvents.java:130-135 raise: notes, then location. */
  function TextFailure(details: map<string, Value>): Option<Failure> {
    if NOTES in details && GetString(details, NOTES).Err? then Some(WrongType(NOTES))
    else if LOCATION in details && GetString(details, LOCATION).Err? then Some(WrongType(LOCATION))
    else None
  }

  /** The exception the date reads raise: start date, then end date. */
  function DateFailure(details: map<string, Value>, parse: DateParser): Option<Failure> {
    if START_DATE in details && Timestamp(details, START_DATE, parse).Err? then
      Some(Timestamp(details, START_DATE, parse).error)
    else if END_DATE in details && Timestamp(details, END_DATE, parse).Err? then
      Some(Timestamp(details, END_DATE, parse).error)
    else None
  }

  /** The exception the recurrence and all-day reads raise. */
  function FlagFailure(details: map<string, Value>): Option<Failure> {
    if RECURRENCE in details && GetString(details, RECURRENCE).Err? then Some(WrongType(RECURRENCE))
    else if ALL_DAY_KEY in details && GetBoolean(details, ALL_DAY_KEY).Err? then Some(WrongType(ALL_DAY_KEY))
    else None
  }

  /** Every read addEvent makes before the insert succeeds: notes, location
      and recurrence are strings or null, both dates are strings the parser
      accepts, and allDay is a boolean. */
  predicate Readable(details: map<string, Value>, parse: DateParser) {
    && (NOTES in details ==> details[NOTES].Str? || details[NOTES].Null?)
    && (LOCATION in details ==> details[LOCATION].Str? || details[LOCATION].Null?)
    && (START_DATE in details ==> details[START_DATE].Str? && parse(details[START_DATE].s).Some?)
    && (END_DATE in details ==> details[END_DATE].Str? && parse(details[END_DATE].s).Some?)
    && (RECURRENCE in details ==> details[RECURRENCE].Str? || details[RECURRENCE].Null?)
    && (ALL_DAY_KEY in details ==> details[ALL_DAY_KEY].Bool?)
  }

  /** The exception addEvent raises while it reads the description, before
      it inserts anything: the first failing read, in the order the source
      reads the keys. */
  function FirstFailure(details: map<string, Value>, parse: DateParser): (f: Option<Failure>)
    ensures f.None? <==> Readable(details, parse)
    ensures f.Some? ==> (f.value.WrongType? || f.value.BadDate?) && f.value.key in details
  {
    if TextFailure(details).Some? then TextFailure(details)
    else if DateFailure(details, parse).Some? then DateFailure(details, parse)
    else FlagFailure(details)
  }

  /** The value addEvent puts into `column` for a readable description, or
      None where it puts nothing. */
  function ColumnValue(column: Column, title: Option<string>, details: map<string, Value>, parse: DateParser, zone: string): Option<Value>
  {
    match column
    case CalendarId => Some(Num(DEFAULT_CALENDAR_ID))
    case Title => if title.Some? then Some(Str(title.value)) else None
    case Description => Lookup(details, NOTES)
    case EventLocation => Lookup(details, LOCATION)
    case DtStart =>
      if START_DATE in details && Timestamp(details, START_DATE, parse).Ok? then
        Some(Num(Timestamp(details, START_DATE, parse).value))
      else None
    case DtEnd =>
      if END_DATE in details && Timestamp(details, END_DATE, parse).Ok? then
        Some(Num(Timestamp(details, END_DATE, parse).value))
      else None
    case RRule =>
      var rule :=
        if RECURRENCE in details && GetString(details, RECURRENCE).Ok? then
          Recurrence.RecurrenceRule(GetString(details, RECURRENCE).value)
        else None;
      if rule.Some? then Some(Str(rule.value)) else None
    case AllDay => Lookup(details, ALL_DAY_KEY)
    case EventTimezone => Some(Str(zone))
    case HasAlarm => if ALARMS in details then Some(Bool(true)) else None
    case _ => None
  }

  /** The event row addEvent inserts for a readable description: each
      column holding the value ColumnValue gives it, where it has one. */
  function ExpectedColumns(title: Option<string>, details: map<string, Value>, parse: DateParser, zone: string): (cols: Columns)
    requires FirstFailure(details, parse).None?
    ensures cols.Keys <= EVENT_COLUMNS
    ensures Lookup(cols, CalendarId) == Some(Num(DEFAULT_CALENDAR_ID)) && Lookup(cols, EventTimezone) == Some(Str(zone))
  {
    Filled(EVENT_COLUMNS, title, details, parse, zone)
  }

  /** The event row as CalendarEvents.java:125-157 describe it: the fixed calendar id and
      the device's time zone, the title when there is one, one column per
      description key present, the recurrence rule when the keyword is
      recognised, the alarm flag when alarms are given, and nothing else. */
  predicate DescribesEvent(cols: Columns, title: Option<string>, details: map<string, Value>, parse: DateParser, zone: string) {
    && cols.Keys <= EVENT_COLUMNS
    && Lookup(cols, CalendarId) == Some(Num(DEFAULT_CALENDAR_ID))
    && Lookup(cols, EventTimezone) == Some(Str(zone))
    && Lookup(cols, Title) == (if title.Some? then Some(Str(title.value)) else None)
    && Lookup(cols, Description) == Lookup(details, NOTES)
    && Lookup(cols, EventLocation) == Lookup(details, LOCATION)
    && (DtStart in cols <==> START_DATE in details)
    && (DtStart in cols ==>
          details[START_DATE].Str? && cols[DtStart].Num? && parse(details[START_DATE].s) == Some(cols[DtStart].n))
    && (DtEnd in cols <==> END_DATE in details)
    && (DtEnd in cols ==>
          details[END_DATE].Str? && cols[DtEnd].Num? && parse(details[END_DATE].s) == Some(cols[DtEnd].n))
    && (RRule in cols <==>
          RECURRENCE in details && details[RECURRENCE].Str? && details[RECURRENCE].s in Recurrence.KEYWORDS)
    && (RRule in cols ==>
          cols[RRule] == Str(Recurrence.RecurrenceRule(Some(details[RECURRENCE].s)).value))
    && Lookup(cols, AllDay) == Lookup(details, ALL_DAY_KEY)
    && (AllDay in cols ==> cols[AllDay].Bool?)
    && Lookup(cols, HasAlarm) == (if ALARMS in details then Some(Bool(true)) else None)
  }

  /** The row addEvent builds is the row the source describes. */
  lemma ExpectedColumnsDescribesEvent(title: Option<string>, details: map<string, Value>, parse: DateParser, zone: string)
    requires FirstFailure(details, parse).None?
    ensures DescribesEvent(ExpectedColumns(title, details, parse, zone), title, details, parse, zone)
  {
  }

  /** The description pins the row down: at most one row fits it. */
  lemma DescribesEventUnique(a: Columns, b: Columns, title: Option<string>, details: map<string, Value>, parse: DateParser, zone: string)
    requires DescribesEvent(a, title, details, parse, zone) && DescribesEvent(b, title, details, parse, zone)
    ensures a == b
  {
    assert a.Keys == b.Keys by {
      forall c | c in a ensures c in b {
        assert Lookup(a, c).Some?;
      }
      forall c | c in b ensures c in a {
        assert Lookup(b, c).Some?;
      }
    }
    forall c | c in a ensures a[c] == b[c] {
      assert Lookup(a, c) == Some(a[c]) && Lookup(b, c) == Some(b[c]);
    }
  }

  /** The columns filled by CalendarEvents.java:125-135, and those filled
      once the dates of CalendarEvents.java:137-143 are in. */
  const TEXT_COLUMNS: set<Column> := {CalendarId, Title, Description, EventLocation}
  const DATED_COLUMNS: set<Column> := TEXT_COLUMNS + {DtStart, DtEnd}

  /** The first half of addEvent: fill the ContentValues record one
      conditional put at a time, stopping at the first read that raises. */
  method BuildEventValues(title: Option<string>, details: map<string, Value>, parse: DateParser, zone: string)
    returns (r: Result<Columns, Failure>)
    ensures r.Err? <==> FirstFailure(details, parse).Some?
    ensures r.Err? ==> r.error == FirstFailure(details, parse).value
    ensures r.Ok? ==> r.value == ExpectedColumns(title, details, parse, zone)
  {
    var text := PutTextColumns(title, details, parse, zone);
    if text.Err? {
      return Err(text.error);
    }
    var dated := PutDateColumns(text.value, title, details, parse, zone);
    if dated.Err? {
      return Err(dated.error);
    }
    var full := PutFlagColumns(dated.value, title, details, parse, zone);
    if full.Err? {
      return Err(full.error);
    }
    r := Ok(full.value);
  }

  /** CalendarEvents.java:125-135: calendar id, title, notes and location. */
  method PutTextColumns(title: Option<string>, details: map<string, Value>, parse: DateParser, zone: string)
    returns (r: Result<Columns, Failure>)
    ensures r.Err? <==> TextFailure(details).Some?
    ensures r.Err? ==> r.error == TextFailure(details).value
    ensures r.Ok? ==> r.value == Filled(TEXT_COLUMNS, title, details, parse, zone)
  {
    var values: Columns := map[];
    ghost var done: set<Column> := {};
    assert values == Filled(done, title, details, parse, zone);
    PutAgrees(values, done, CalendarId, Num(DEFAULT_CALENDAR_ID), title, details, parse, zone);
    values := values[CalendarId := Num(DEFAULT_CALENDAR_ID)];
    done := done + {CalendarId};
    if title.Some? {
      PutAgrees(values, done, Title, Str(title.value), title, details, parse, zone);
      values := values[Title := Str(title.value)];
    } else {
      SkipAgrees(values, done, Title, title, details, parse, zone);
    }
    done := done + {Title};
    if NOTES in details {
      var notes := GetString(details, NOTES);
      if notes.Err? {
        return Err(notes.error);
      }
      PutAgrees(values, done, Description, StringValue(notes.value), title, details, parse, zone);
      values := values[Description := StringValue(notes.value)];
    } else {
      SkipAgrees(values, done, Description, title, details, parse, zone);
    }
    done := done + {Description};
    if LOCATION in details {
      var location := GetString(details, LOCATION);
      if location.Err? {
        return Err(location.error);
      }
      PutAgrees(values, done, EventLocation, StringValue(location.value), title, details, parse, zone);
      values := values[EventLocation := StringValue(location.value)];
    } else {
      SkipAgrees(values, done, EventLocation, title, details, parse, zone);
    }
    done := done + {EventLocation};
    assert done == TEXT_COLUMNS;
    r := Ok(values);
  }

  /** CalendarEvents.java:137-143: the start and end dates, each parsed to milliseconds. */
  method PutDateColumns(values: Columns, title: Option<string>, details: map<string, Value>, parse: DateParser, zone: string)
    returns (r: Result<Columns, Failure>)
    requires values == Filled(TEXT_COLUMNS, title, details, parse, zone)
    ensures r.Err? <==> DateFailure(details, parse).Some?
    ensures r.Err? ==> r.error == DateFailure(details, parse).value
    ensures r.Ok? ==> r.value == Filled(DATED_COLUMNS, title, details, parse, zone)
  {
    var record := values;
    ghost var done := TEXT_COLUMNS;
    if START_DATE in details {
      var start := Timestamp(details, START_DATE, parse);
      if start.Err? {
        return Err(start.error);
      }
      PutAgrees(record, done, DtStart, Num(start.value), title, details, parse, zone);
      record := record[DtStart := Num(start.value)];
    } else {
      SkipAgrees(record, done, DtStart, title, details, parse, zone);
    }
    done := done + {DtStart};
    if END_DATE in details {
      var end := Timestamp(details, END_DATE, parse);
      if end.Err? {
        return Err(end.error);
      }
      PutAgrees(record, done, DtEnd, Num(end.value), title, details, parse, zone);
      record := record[DtEnd := Num(end.value)];
    } else {
      SkipAgrees(record, done, DtEnd, title, details, parse, zone);
    }
    done := done + {DtEnd};
    assert done == DATED_COLUMNS;
    r := Ok(record);
  }

  /** CalendarEvents.java:145-157: the recurrence rule, the all-day flag, the device's
      time zone and the alarm flag. */
  method PutFlagColumns(values: Columns, title: Option<string>, details: map<string, Value>, parse: DateParser, zone: string)
    returns (r: Result<Columns, Failure>)
    requires values == Filled(DATED_COLUMNS, title, details, parse, zone)
    ensures r.Err? <==> FlagFailure(details).Some?
    ensures r.Err? ==> r.error == FlagFailure(details).value
    ensures r.Ok? ==> r.value == Filled(EVENT_COLUMNS, title, details, parse, zone)
  {
    var record := values;
    ghost var done := DATED_COLUMNS;
    if RECURRENCE in details {
      var recurrence := GetString(details, RECURRENCE);
      if recurrence.Err? {
        return Err(recurrence.error);
      }
      var rule := Recurrence.RecurrenceRule(recurrence.value);
      if rule.Some? {
        PutAgrees(record, done, RRule, Str(rule.value), title, details, parse, zone);
        record := record[RRule := Str(rule.value)];
      } else {
        SkipAgrees(record, done, RRule, title, details, parse, zone);
      }
    } else {
      SkipAgrees(record, done, RRule, title, details, parse, zone);
    }
    done := done + {RRule};
    if ALL_DAY_KEY in details {
      var allDay := GetBoolean(details, ALL_DAY_KEY);
      if allDay.Err? {
        return Err(allDay.error);
      }
      PutAgrees(record, done, AllDay, Bool(allDay.value), title, details, parse, zone);
      record := record[AllDay := Bool(allDay.value)];
    } else {
      SkipAgrees(record, done, AllDay, title, details, parse, zone);
    }
    done := done + {AllDay};
    PutAgrees(record, done, EventTimezone, Str(zone), title, details, parse, zone);
    record := record[EventTimezone := Str(zone)];
    done := done + {EventTimezone};
    if ALARMS in details {
      PutAgrees(record, done, HasAlarm, Bool(true), title, details, parse, zone);
      record := record[HasAlarm := Bool(true)];
    } else {
      SkipAgrees(record, done, HasAlarm, title, details, parse, zone);
    }
    done := done + {HasAlarm};
    assert done == EVENT_COLUMNS;
    r := Ok(record);
  }

  /** The record once the columns `done` are filled: each of them holding
      its ColumnValue, where it has one. */
  function Filled(done: set<Column>, title: Option<string>, details: map<string, Value>, parse: DateParser, zone: string): Columns {
    map c | c in done && ColumnValue(c, title, details, parse, zone).Some? :: ColumnValue(c, title, details, parse, zone).value
  }

  lemma PutAgrees(values: Columns, done: set<Column>, column: Column, v: Value,
                  title: Option<string>, details: map<string, Value>, parse: DateParser, zone: string)
    requires values == Filled(done, title, details, parse, zone)
    requires ColumnValue(column, title, details, parse, zone) == Some(v)
    ensures values[column := v] == Filled(done + {column}, title, details, parse, zone)
  {
    assert values[column := v].Keys == Filled(done + {column}, title, details, parse, zone).Keys;
  }

  lemma SkipAgrees(values: Columns, done: set<Column>, column: Column,
                   title: Option<string>, details: map<string, Value>, parse: DateParser, zone: string)
    requires values == Filled(done, title, details, parse, zone)
    requires ColumnValue(column, title, details, parse, zone) == None
    ensures values == Filled(done + {column}, title, details, parse, zone)
  {
    assert values.Keys == Filled(done + {column}, title, details, parse, zone).Keys;
  }

  /** An alarm entry the reminder loop can read: a map with a "date" key. */
  predicate ReadableAlarm(alarm: Value) {
    alarm.Obj? && DATE in alarm.fields
  }

  /** The date of an alarm whose "date" is a number; None for an entry the
      loop skips. */
  function AlarmDate(alarm: Value): (date: Option<int>)
    ensures date.Some? <==> ReadableAlarm(alarm) && alarm.fields[DATE].Num?
    ensures date.Some? ==> alarm.fields[DATE] == Num(date.value)
  {
    if alarm.Obj? && DATE in alarm.fields && alarm.fields[DATE].Num? then Some(alarm.fields[DATE].n)
    else None
  }

  /** The numeric dates of a list of alarms, in list order. */
  function NumericDates(alarms: seq<Value>): (dates: seq<int>)
    ensures |dates| <= |alarms|
  {
    if alarms == [] then [] else ToSeq(AlarmDate(alarms[0])) + NumericDates(alarms[1..])
  }

  /** How many leading alarms the loop reads before it meets one it cannot. */
  function ReadablePrefix(alarms: seq<Value>): (n: nat)
    ensures n <= |alarms|
  {
    if alarms == [] || !ReadableAlarm(alarms[0]) then 0 else 1 + ReadablePrefix(alarms[1..])
  }

  /** The reminder row for an alarm `date` minutes from the start of event
      `eventId`. */
  function ReminderValues(eventId: int, date: int): Columns {
    map[EventId := Num(eventId), Minutes := Num(-date), Method := Num(METHOD_DEFAULT)]
  }

  /** A reminder row writes only reminders columns: the event's id, the
      minutes before the start (the alarm date negated) and the default
      method. */
  lemma ReminderValuesHold(eventId: int, date: int)
    ensures var row := ReminderValues(eventId, date);
      && row.Keys !! EVENT_COLUMNS
      && EventId in row && row[EventId] == Num(eventId)
      && Minutes in row && row[Minutes].Num? && row[Minutes].n + date == 0
      && Method in row && row[Method] == Num(METHOD_DEFAULT)
  {
  }

  /** One reminder row per date, in order. */
  function ReminderRows(eventId: int, dates: seq<int>): (rows: seq<Columns>)
    ensures |rows| == |dates|
  {
    if dates == [] then [] else [ReminderValues(eventId, dates[0])] + ReminderRows(eventId, dates[1..])
  }

  /** Row i is the reminder for date i. */
  lemma {:induction false} ReminderRowsAt(eventId: int, dates: seq<int>, i: nat)
    requires i < |dates|
    ensures ReminderRows(eventId, dates)[i] == ReminderValues(eventId, dates[i])
    decreases i
  {
    if i > 0 {
      ReminderRowsAt(eventId, dates[1..], i - 1);
    }
  }

  lemma {:induction false} NumericDatesAppend(a: seq<Value>, b: seq<Value>)
    ensures NumericDates(a + b) == NumericDates(a) + NumericDates(b)
    decreases |a|
  {
    if a != [] {
      assert (a + b)[1..] == a[1..] + b;
      NumericDatesAppend(a[1..], b);
    } else {
      assert a + b == b;
    }
  }

  /** Each alarm with a numeric date gets its own row, in list order: the
      row after those of the numeric alarms before it. */
  lemma NumericDatesAt(alarms: seq<Value>, i: nat)
    requires i < |alarms| && AlarmDate(alarms[i]).Some?
    ensures |NumericDates(alarms[..i])| < |NumericDates(alarms)|
    ensures NumericDates(alarms)[|NumericDates(alarms[..i])|] == AlarmDate(alarms[i]).value
  {
    assert alarms == alarms[..i] + [alarms[i]] + alarms[i + 1..];
    NumericDatesAppend(alarms[..i] + [alarms[i]], alarms[i + 1..]);
    NumericDatesAppend(alarms[..i], [alarms[i]]);
  }

  /** ReadablePrefix counts exactly the leading readable alarms. */
  lemma {:induction false} ReadablePrefixMeans(alarms: seq<Value>)
    ensures forall j :: 0 <= j < ReadablePrefix(alarms) ==> ReadableAlarm(alarms[j])
    ensures ReadablePrefix(alarms) < |alarms| ==> !ReadableAlarm(alarms[ReadablePrefix(alarms)])
  {
    if alarms != [] && ReadableAlarm(alarms[0]) {
      ReadablePrefixMeans(alarms[1..]);
      forall j | 0 <= j < ReadablePrefix(alarms)
        ensures ReadableAlarm(alarms[j])
      {
        if j > 0 {
          assert alarms[j] == alarms[1..][j - 1];
        }
      }
    }
  }

  /** And it is the only count with that property. */
  lemma {:induction false} ReadablePrefixIs(alarms: seq<Value>, n: nat)
    requires n <= |alarms|
    requires forall j :: 0 <= j < n ==> ReadableAlarm(alarms[j])
    requires n < |alarms| ==> !ReadableAlarm(alarms[n])
    ensures ReadablePrefix(alarms) == n
    decreases n
  {
    if n > 0 {
      ReadablePrefixIs(alarms[1..], n - 1);
    }
  }

  /** While the loop is inside the readable prefix, the next alarm is
      readable exactly when the prefix goes on past it. */
  lemma {:induction false} ReadablePrefixStep(alarms: seq<Value>, i: nat)
    requires i < |alarms| && i <= ReadablePrefix(alarms)
    ensures ReadableAlarm(alarms[i]) <==> i < ReadablePrefix(alarms)
    decreases i
  {
    if i > 0 {
      ReadablePrefixStep(alarms[1..], i - 1);
    }
  }

  /** createRemindersForEvent: walk the alarms in order and insert one
      reminder row for each whose date is a number, with the minutes
      negated; stop at the first entry that cannot be read. */
  method CreateRemindersForEvent(provider: CalendarProvider, eventId: int, alarms: seq<Value>)
    returns (failure: Option<Failure>)
    requires provider.Valid()
    modifies provider
    ensures provider.Valid() && provider.events == old(provider.events)
    ensures failure.None? <==> ReadablePrefix(alarms) == |alarms|
    ensures failure.Some? ==> failure.value == UnreadableAlarm
    ensures provider.reminders == old(provider.reminders) +
      (if provider.accepting then ReminderRows(eventId, NumericDates(alarms[..ReadablePrefix(alarms)])) else [])
  {
    var i := 0;
    while i < |alarms|
      invariant 0 <= i <= |alarms|
      invariant i <= ReadablePrefix(alarms)
      invariant provider.Valid() && provider.events == old(provider.events)
      invariant provider.accepting ==>
        provider.reminders == old(provider.reminders) + ReminderRows(eventId, NumericDates(alarms[..i]))
      invariant !provider.accepting ==> provider.reminders == old(provider.reminders)
    {
      var alarm := alarms[i];
      ReadablePrefixStep(alarms, i);
      if !alarm.Obj? || DATE !in alarm.fields {
        assert i == ReadablePrefix(alarms);
        return Some(UnreadableAlarm);
      }
      InsertAlarmReminder(provider, eventId, alarm);
      RowsStep(eventId, alarms, i);
      i := i + 1;
    }
    assert alarms[..i] == alarms;
    failure := None;
  }

  /** CalendarEvents.java:176-185 for one readable alarm: a reminder row when its date is
      a number, nothing otherwise. */
  method InsertAlarmReminder(provider: CalendarProvider, eventId: int, alarm: Value)
    requires provider.Valid() && ReadableAlarm(alarm)
    modifies provider
    ensures provider.Valid() && provider.events == old(provider.events)
    ensures provider.reminders == old(provider.reminders) +
      (if provider.accepting then ReminderRows(eventId, ToSeq(AlarmDate(alarm))) else [])
  {
    if alarm.fields[DATE].Num? {
      var values := ReminderValues(eventId, alarm.fields[DATE].n);
      assert ReminderRows(eventId, ToSeq(AlarmDate(alarm))) == [values];
      var uri := provider.InsertReminder(values);
    }
  }

  /** The rows for the first i + 1 alarms: those for the first i, then the
      row for alarm i if its date is a number. */
  lemma RowsStep(eventId: int, alarms: seq<Value>, i: nat)
    requires i < |alarms|
    ensures ReminderRows(eventId, NumericDates(alarms[..i + 1]))
         == ReminderRows(eventId, NumericDates(alarms[..i])) + ReminderRows(eventId, ToSeq(AlarmDate(alarms[i])))
  {
    assert alarms[..i + 1] == alarms[..i] + [alarms[i]];
    NumericDatesAppend(alarms[..i], [alarms[i]]);
    assert NumericDates([alarms[i]]) == ToSeq(AlarmDate(alarms[i])) + NumericDates([]);
    assert NumericDates(alarms[..i + 1]) == NumericDates(alarms[..i]) + ToSeq(AlarmDate(alarms[i]));
    RowsAppend(eventId, NumericDates(alarms[..i]), ToSeq(AlarmDate(alarms[i])));
  }

  lemma RowsAppend(eventId: int, a: seq<int>, b: seq<int>)
    ensures ReminderRows(eventId, a + b) == ReminderRows(eventId, a) + ReminderRows(eventId, b)
  {
    var rows := ReminderRows(eventId, a + b);
    var parts := ReminderRows(eventId, a) + ReminderRows(eventId, b);
    forall i | 0 <= i < |rows| ensures rows[i] == parts[i] {
      ReminderRowsAt(eventId, a + b, i);
      if i < |a| {
        ReminderRowsAt(eventId, a, i);
      } else {
        ReminderRowsAt(eventId, b, i - |a|);
        assert (a + b)[i] == b[i - |a|];
      }
    }
  }

  /** What addEvent raises after the event row is in, while it reads the
      alarms: getArray on something that is not a list, or an entry the
      reminder loop cannot read. */
  function AlarmFailure(details: map<string, Value>): (f: Option<Failure>)
    ensures f.Some? <==> (ALARMS in details &&
      (!details[ALARMS].Arr? || exists j :: 0 <= j < |details[ALARMS].items| && !ReadableAlarm(details[ALARMS].items[j])))
    ensures f.Some? ==> f.value == if details[ALARMS].Arr? then UnreadableAlarm else WrongType(ALARMS)
  {
    if ALARMS !in details then None
    else if !details[ALARMS].Arr? then Some(WrongType(ALARMS))
    else
      ReadablePrefixMeans(details[ALARMS].items);
      if ReadablePrefix(details[ALARMS].items) < |details[ALARMS].items| then Some(UnreadableAlarm)
      else None
  }

  /** The reminder rows addEvent writes for event `eventId`: none unless
      "alarms" is a list, and otherwise at most one per entry. */
  function EventReminders(eventId: int, details: map<string, Value>): (rows: seq<Columns>)
    ensures !(ALARMS in details && details[ALARMS].Arr?) ==> rows == []
    ensures ALARMS in details && details[ALARMS].Arr? ==> |rows| <= |details[ALARMS].items|
  {
    if ALARMS in details && details[ALARMS].Arr? then
      var alarms := details[ALARMS].items;
      ReminderRows(eventId, NumericDates(alarms[..ReadablePrefix(alarms)]))
    else []
  }

  /** addEvent: build the event row, insert it, read its id back from the
      returned URI, then write the reminders against that id. Nothing is
      inserted when reading the description fails; an alarm failure comes
      after the event row is in. */
  method AddEvent(provider: CalendarProvider, title: Option<string>, details: map<string, Value>, parse: DateParser, zone: string)
    returns (r: Result<int, Failure>)
    requires provider.Valid()
    modifies provider
    ensures provider.Valid()
    ensures FirstFailure(details, parse).Some? ==>
      && r == Err(FirstFailure(details, parse).value)
      && provider.events == old(provider.events) && provider.reminders == old(provider.reminders)
    ensures FirstFailure(details, parse).None? && !provider.accepting ==>
      && r == Err(InsertFailed)
      && provider.events == old(provider.events) && provider.reminders == old(provider.reminders)
    ensures FirstFailure(details, parse).None? && provider.accepting ==>
      var id := old(provider.lastId) + 1;
      && id !in old(provider.events)
      && provider.events == old(provider.events)[id := ExpectedColumns(title, details, parse, zone)]
      && provider.reminders == old(provider.reminders) + EventReminders(id, details)
      && r == if AlarmFailure(details).Some? then Err(AlarmFailure(details).value) else Ok(id)
  {
    var values := BuildEventValues(title, details, parse, zone);
    if values.Err? {
      return Err(values.error);
    }
    var uri := provider.InsertEvent(values.value);
    if uri.None? {
      return Err(InsertFailed);
    }
    RowIdRoundTrip(EVENTS_URI, provider.lastId);
    var eventId := Decimal.ParseInt(LastPathSegment(uri.value)).value;
    if ALARMS in details {
      var alarms := details[ALARMS];
      if !alarms.Arr? {
        return Err(WrongType(ALARMS));
      }
      var failure := CreateRemindersForEvent(provider, eventId, alarms.items);
      if failure.Some? {
        return Err(failure.value);
      }
    }
    r := Ok(eventId);
  }

  /** Why saveEvent rejected: the fixed permission message, or the
      exception addEvent raised. */
  datatype Reason = Message(text: string) | Raised(failure: Failure)

  /** What saveEvent settles its promise with. */
  datatype SaveResult = Saved(eventId: int) | Rejected(code: string, reason: Reason)

  /** saveEvent: without the calendar permission, reject at once; otherwise
      run addEvent and resolve with the new id, or reject with what it
      raised. */
  method SaveEvent(provider: CalendarProvider, title: Option<string>, details: map<string, Value>,
                   parse: DateParser, zone: string, havePermission: bool)
    returns (r: SaveResult)
    requires provider.Valid()
    modifies provider
    ensures provider.Valid()
    ensures r.Rejected? ==> r.code == ADD_EVENT_ERROR
    ensures !havePermission ==>
      r == Rejected(ADD_EVENT_ERROR, Message(NO_PERMISSION_MESSAGE)) && unchanged(provider)
    ensures havePermission && FirstFailure(details, parse).Some? ==>
      && r == Rejected(ADD_EVENT_ERROR, Raised(FirstFailure(details, parse).value))
      && provider.events == old(provider.events) && provider.reminders == old(provider.reminders)
    ensures havePermission && FirstFailure(details, parse).None? && !provider.accepting ==>
      && r == Rejected(ADD_EVENT_ERROR, Raised(InsertFailed))
      && provider.events == old(provider.events) && provider.reminders == old(provider.reminders)
    ensures havePermission && FirstFailure(details, parse).None? && provider.accepting && AlarmFailure(details).Some? ==>
      var id := old(provider.lastId) + 1;
      && r == Rejected(ADD_EVENT_ERROR, Raised(AlarmFailure(details).value))
      && id !in old(provider.events)
      && provider.events == old(provider.events)[id := ExpectedColumns(title, details, parse, zone)]
      && provider.reminders == old(provider.reminders) + EventReminders(id, details)
    ensures r.Saved? <==>
      havePermission && FirstFailure(details, parse).None? && provider.accepting && AlarmFailure(details).None?
    ensures r.Saved? ==>
      && r.eventId == old(provider.lastId) + 1 && r.eventId !in old(provider.events)
      && provider.events == old(provider.events)[r.eventId := ExpectedColumns(title, details, parse, zone)]
      && provider.reminders == old(provider.reminders) + EventReminders(r.eventId, details)
  {
    if !havePermission {
      return Rejected(ADD_EVENT_ERROR, Message(NO_PERMISSION_MESSAGE));
    }
    var added := AddEvent(provider, title, details, parse, zone);
    match added
    case Ok(id) => r := Saved(id);
    case Err(e) => r := Rejected(ADD_EVENT_ERROR, Raised(e));
  }

  /** A daily stand-up with a ten-minute alarm. */
  function StandupDetails(): map<string, Value> {
    map[START_DATE := Str("2024-01-02T09:00:00.000Z"),
        END_DATE := Str("2024-01-02T09:15:00.000Z"),
        RECURRENCE := Str("daily"),
        ALARMS := Arr([Obj(map[DATE := Num(-10)])])]
  }

  /** It is read without failure, before and after the event insert. */
  lemma StandupReadable(parse: DateParser)
    requires parse("2024-01-02T09:00:00.000Z").Some? && parse("2024-01-02T09:15:00.000Z").Some?
    ensures FirstFailure(StandupDetails(), parse).None?
    ensures AlarmFailure(StandupDetails()).None?
  {
  }

  /** Under the value-equality reading of createRecurrenceRule, its event
      row carries the rule FREQ=DAILY. */
  lemma StandupRule(parse: DateParser, zone: string)
    requires parse("2024-01-02T09:00:00.000Z").Some? && parse("2024-01-02T09:15:00.000Z").Some?
    ensures FirstFailure(StandupDetails(), parse).None?
    ensures Lookup(ExpectedColumns(Some("Standup"), StandupDetails(), parse, zone), RRule)
         == Some(Str(Recurrence.FreqRule("DAILY")))
  {
    StandupReadable(parse);
    ExpectedColumnsDescribesEvent(Some("Standup"), StandupDetails(), parse, zone);
    assert Recurrence.RecurrenceRule(Some("daily")) == Some(Recurrence.FreqRule("DAILY"));
  }

  /** And it gets one reminder row, ten minutes before the start. */
  lemma StandupReminder(id: int)
    ensures EventReminders(id, StandupDetails())
         == [map[EventId := Num(id), Minutes := Num(10), Method := Num(METHOD_DEFAULT)]]
  {
  }
}
