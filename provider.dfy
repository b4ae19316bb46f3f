/** The values the bridge exchanges (ReadableMap entries from JavaScript and
    ContentValues columns for the calendar provider) and a stand-in for the
    calendar provider behind ContentResolver.insert: it stores the rows it
    accepts, gives each a fresh id, and answers with the new row's URI. */
module Provider {
  import opened Wrappers
  import Decimal

  /** A value read from JavaScript or written to a column. Numbers are
      integers here. */
  datatype Value =
    | Null
    | Bool(b: bool)
    | Num(n: int)
    | Str(s: string)
    | Arr(items: seq<Value>)
    | Obj(fields: map<string, Value>)

  /** The columns the bridge writes: those of CalendarContract.Events, then
      those of CalendarContract.Reminders. */
  datatype Column =
    | CalendarId | Title | Description | EventLocation | DtStart | DtEnd
    | RRule | AllDay | EventTimezone | HasAlarm
    | EventId | Minutes | Method

  /** A ContentValues record: column to value. */
  type Columns = map<Column, Value>

  /** CalendarContract.Events.CONTENT_URI and Reminders.CONTENT_URI. */
  const EVENTS_URI: string := "content://com.android.calendar/events"
  const REMINDERS_URI: string := "content://com.android.calendar/reminders"

  /** The URI of row `id` of the table at `base`. */
  function RowUri(base: string, id: int): string {
    base + "/" + Decimal.IntToString(id)
  }

  /** A row URI is the table's URI, a '/', and text that parses back to the
      row's id. */
  lemma RowUriShape(base: string, id: int)
    ensures var uri := RowUri(base, id);
      && |uri| > |base| + 1 && uri[..|base|] == base && uri[|base|] == '/'
      && Decimal.ParseInt(uri[|base| + 1..]) == Some(id)
  {
    var digits := Decimal.IntToString(id);
    Decimal.IntToStringRoundTrip(id);
    assert RowUri(base, id)[|base| + 1..] == digits;
  }

  /** Uri.getLastPathSegment for a URI that does not end in '/': the text
      after the last '/'. */
  function LastPathSegment(uri: string): (segment: string)
    ensures |segment| <= |uri| && segment == uri[|uri| - |segment|..]
    ensures forall i :: 0 <= i < |segment| ==> segment[i] != '/'
  {
    if uri == [] || uri[|uri| - 1] == '/' then []
    else LastPathSegment(uri[..|uri| - 1]) + [uri[|uri| - 1]]
  }

  lemma {:induction false} LastSegmentAfterSlash(prefix: string, segment: string)
    requires forall i :: 0 <= i < |segment| ==> segment[i] != '/'
    ensures LastPathSegment(prefix + "/" + segment) == segment
    decreases |segment|
  {
    var uri := prefix + "/" + segment;
    if segment != [] {
      var shorter := segment[..|segment| - 1];
      assert uri[..|uri| - 1] == prefix + "/" + shorter;
      LastSegmentAfterSlash(prefix, shorter);
      assert shorter + [segment[|segment| - 1]] == segment;
    }
  }

  /** The id the bridge reads back from a row URI
      (Integer.parseInt(uri.getLastPathSegment())) is the row's id. */
  lemma RowIdRoundTrip(base: string, id: int)
    ensures Decimal.ParseInt(LastPathSegment(RowUri(base, id))) == Some(id)
  {
    var digits := Decimal.IntToString(id);
    LastSegmentAfterSlash(base, digits);
    Decimal.IntToStringRoundTrip(id);
  }

  /** The calendar provider: the event rows by id, the reminder rows in the
      order they were inserted, and the last id handed out. A provider that
      does not accept inserts answers every insert with null. */
  class CalendarProvider {
    var events: map<int, Columns>
    var reminders: seq<Columns>
    var lastId: int
    const accepting: bool

    ghost predicate Valid()
      reads this
    {
      forall id :: id in events ==> id <= lastId
    }

    constructor (accepting: bool)
      ensures Valid() && this.accepting == accepting
      ensures events == map[] && reminders == [] && lastId == 0
    {
      this.accepting := accepting;
      events := map[];
      reminders := [];
      lastId := 0;
    }

    /** ContentResolver.insert on the events table. */
    method InsertEvent(values: Columns) returns (uri: Option<string>)
      requires Valid()
      modifies this
      ensures Valid() && reminders == old(reminders)
      ensures accepting ==>
        && lastId == old(lastId) + 1 && lastId !in old(events)
        && events == old(events)[lastId := values]
        && uri == Some(RowUri(EVENTS_URI, lastId))
      ensures !accepting ==>
        uri == None && events == old(events) && lastId == old(lastId)
    {
      if !accepting {
        return None;
      }
      lastId := lastId + 1;
      events := events[lastId := values];
      uri := Some(RowUri(EVENTS_URI, lastId));
    }

    /** ContentResolver.insert on the reminders table. */
    method InsertReminder(values: Columns) returns (uri: Option<string>)
      requires Valid()
      modifies this
      ensures Valid() && events == old(events)
      ensures accepting ==>
        && lastId == old(lastId) + 1
        && reminders == old(reminders) + [values]
        && uri == Some(RowUri(REMINDERS_URI, lastId))
      ensures !accepting ==>
        uri == None && reminders == old(reminders) && lastId == old(lastId)
    {
      if !accepting {
        return None;
      }
      lastId := lastId + 1;
      reminders := reminders + [values];
      uri := Some(RowUri(REMINDERS_URI, lastId));
    }
  }
}
