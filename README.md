# Calendar bridge (Android) in Dafny

A model of the Android side of react-native-calendar-events: the native
module `CalendarEvents` that JavaScript calls through the React Native
bridge. Two parts of it are modelled and proved.

- **The permission gate.** `requestCalendarPermissions` resolves
  `"authorized"` at once when the app already holds the calendar permission.
  Otherwise, when there is no current activity, it rejects with
  `E_ACTIVITY_DOES_NOT_EXIST` and leaves the counter and the map alone. With
  an activity it bumps the static request-code counter (starting at 37),
  registers the promise in the static `permissionsPromises` map under the new
  code and asks the OS. `onRequestPermissionsResult` settles the promise
  registered under the code it is given and removes it: `"authorized"` on a
  grant, `"denied"` on a denial, and otherwise a rejection with the code
  `"permissions - unknown error"`, but only when it was the only pending
  request. The static fields become the class `Permissions.PermissionGate`.
  Its methods are proved against pure transition functions (`Request`,
  `Callback`, `AskPermission`) on a `Gate` value. A ghost log records every
  promise settlement. Lemmas show that the gate invariant holds along every
  run from start-up, so no promise is ever settled twice. They also show
  exactly when an answered promise is settled and when it is dropped
  unsettled.
- **The event translator.** `addEvent` turns an event description (a
  `ReadableMap`) into one row of the calendar provider's events table. It
  then writes one reminders row per alarm whose `date` is a number, with the
  minutes negated. `saveEvent` puts the permission check in front and turns
  the outcome into a resolve or a reject. The provider behind
  `ContentResolver.insert` is the class `Provider.CalendarProvider`. It hands
  out fresh ids and answers with the new row's URI. The model reads the id
  back from that URI the way the source does, and `Provider.RowIdRoundTrip`
  proves this gives the row's id. `Events.BuildEventValues` fills the record
  one conditional put at a time, in three stages that follow the source's
  blocks. It is proved equal to `Events.ExpectedColumns`, and
  `Events.DescribesEvent` spells out that row column by column. Any read
  that raises before the insert is `Events.FirstFailure`, which follows the
  order of the reads in the source.
- **The recurrence rule.** `createRecurrenceRule` maps the keywords
  daily/weekly/monthly/yearly to the `FREQ` rule part of an iCalendar RRULE
  (section 3.3.10 of RFC 5545). The model uses the value-equality reading.
  The code as written is modelled as well; see "## Findings".

Without the permission, `saveEvent` does not ask for it: it rejects at
once with "you don't have permissions to add an event to the users
calendar" (`CalendarEvents.java:231-233`).

Files: `wrappers.dfy` (Option, Result), `decimal.dfy` (`String.valueOf(int)`
and `Integer.parseInt`), `permissions.dfy`, `recurrence.dfy`,
`provider.dfy` (values, columns, provider, URIs) and `events.dfy`.

## Model

| member | source | states |
|---|---|---|
| Permissions.Request | android/src/main/java/com/calendarevents/CalendarEvents.java:58-70 | Without an activity, the promise is rejected with E_ACTIVITY_DOES_NOT_EXIST and counter and map are unchanged. With one, the counter goes up by one, the promise is registered under the new code, that code goes to the OS prompt, and every other entry is kept. |
| Permissions.Settle | android/src/main/java/com/calendarevents/CalendarEvents.java:77-85 | A grant resolves "authorized" and a denial resolves "denied". Any other answer rejects with "permissions - unknown error" only when the entry is the only one pending. The promise goes unsettled exactly when the answer is unrecognised and other requests are pending. |
| Permissions.UnknownErrorMessage | android/src/main/java/com/calendarevents/CalendarEvents.java:84 | The rejection message parses back to the first grant value. For an empty answer it is "Request was cancelled". |
| Permissions.Callback | android/src/main/java/com/calendarevents/CalendarEvents.java:72-88 | The answered code is removed from the map and the counter is unchanged. An unknown code changes nothing. For a known code, the log grows by exactly the settlement Settle gives. |
| Permissions.AskPermission | android/src/main/java/com/calendarevents/CalendarEvents.java:213-220 | With the permission held, the promise resolves "authorized" and nothing else changes. Otherwise the call is a permission request. |
| Permissions.AppendFreshSettlement | android/src/main/java/com/calendarevents/CalendarEvents.java:79-84 | Settling a promise not settled before keeps every promise settled at most once and adds exactly that promise to the settled ones. |
| Permissions.RequestKeepsInvariant | android/src/main/java/com/calendarevents/CalendarEvents.java:58-70 | A request with a fresh promise keeps the gate invariant. The invariant: codes come from the counter, no promise is settled twice, pending promises are unsettled, and no promise is pending under two codes. |
| Permissions.CallbackKeepsInvariant | android/src/main/java/com/calendarevents/CalendarEvents.java:72-88 | The callback keeps the gate invariant, whatever code and answer it gets. |
| Permissions.AskKeepsInvariant | android/src/main/java/com/calendarevents/CalendarEvents.java:213-220 | requestCalendarPermissions with a fresh promise keeps the gate invariant. |
| Permissions.SecondCallbackIsNoOp | android/src/main/java/com/calendarevents/CalendarEvents.java:74-86 | A second answer for the same code changes nothing. |
| Permissions.AnsweredPromiseLeavesGate | android/src/main/java/com/calendarevents/CalendarEvents.java:74-87 | After the callback, the answered promise is pending under no code. It is settled exactly when the answer is recognised or it was the only pending request. |
| Permissions.RunKeepsInvariant | android/src/main/java/com/calendarevents/CalendarEvents.java:58-88 | Along any run of calls and callbacks with fresh promises, the gate invariant holds and no promise is settled twice. |
| Permissions.SettledAtMostOnceFromStart | android/src/main/java/com/calendarevents/CalendarEvents.java:37-45 | From the start state (counter 37, empty map), every run in which each call brings a new promise settles each promise at most once. |
| Permissions.PermissionGate.constructor | android/src/main/java/com/calendarevents/CalendarEvents.java:37-45 | The static state starts with code 37 and no pending promises. |
| Permissions.PermissionGate.RequestCalendarReadWritePermission | android/src/main/java/com/calendarevents/CalendarEvents.java:58-70 | Updates the counter and map in place as Request says and keeps the invariant. |
| Permissions.PermissionGate.OnRequestPermissionsResult | android/src/main/java/com/calendarevents/CalendarEvents.java:72-88 | Updates the map and log in place as Callback says and keeps the invariant. |
| Permissions.PermissionGate.RequestCalendarPermissions | android/src/main/java/com/calendarevents/CalendarEvents.java:213-220 | Updates the state in place as AskPermission says and keeps the invariant. |
| Recurrence.RecurrenceRule | android/src/main/java/com/calendarevents/CalendarEvents.java:192-209 | There is a rule exactly for the four keywords. Each rule is FREQ= followed by a frequency of RFC 5545, one of DAILY, WEEKLY, MONTHLY and YEARLY. |
| Recurrence.KeywordOf | android/src/main/java/com/calendarevents/CalendarEvents.java:194 | Reading a rule back yields only one of the four keywords. |
| Recurrence.RuleRoundTrip | android/src/main/java/com/calendarevents/CalendarEvents.java:196-205 | Each keyword's rule reads back to that keyword. |
| Recurrence.RuleInjective | android/src/main/java/com/calendarevents/CalendarEvents.java:197-204 | No two keywords share a rule. |
| Recurrence.RecurrenceRuleAsWritten | android/src/main/java/com/calendarevents/CalendarEvents.java:192-209 | As written, a rule comes only for an interned string, and it is then the value-equality rule. |
| Recurrence.SameObjectIsStricterThanEquals | android/src/main/java/com/calendarevents/CalendarEvents.java:197-203 | Java `==` on strings, which reference identity decides: it implies equal characters, and on equal characters it holds exactly for the interned instance. |
| Recurrence.BridgeKeywordGetsNoRule | android/src/main/java/com/calendarevents/CalendarEvents.java:196-198 | A "daily" built at run time gets no rule as written, although value equality gives it FREQ=DAILY. |
| Recurrence.AsWrittenDropsEveryBridgeString | android/src/main/java/com/calendarevents/CalendarEvents.java:196-205 | As written, no string that is not interned gets a rule. |
| Recurrence.AsWrittenAgreesOnInterned | android/src/main/java/com/calendarevents/CalendarEvents.java:196-205 | On interned strings, the code as written and value equality agree. |
| Decimal.NatToDigits | android/src/main/java/com/calendarevents/CalendarEvents.java:84 | The digits of a natural number are non-empty and all digits, with a leading zero only for zero. |
| Decimal.DigitsRoundTrip | android/src/main/java/com/calendarevents/CalendarEvents.java:161 | The value of the digits of n is n. |
| Decimal.IntToString | android/src/main/java/com/calendarevents/CalendarEvents.java:84 | String.valueOf(int) starts with '-' exactly for negatives, and the rest is digits. |
| Decimal.ParseIntAccepts | android/src/main/java/com/calendarevents/CalendarEvents.java:161 | The model of Integer.parseInt accepts exactly ASCII digits with an optional leading minus. The value is non-negative without the sign and non-positive with it. |
| Decimal.IntToStringRoundTrip | android/src/main/java/com/calendarevents/CalendarEvents.java:84 | Integer.parseInt of String.valueOf(n) is n. |
| Decimal.IntToStringInjective | android/src/main/java/com/calendarevents/CalendarEvents.java:84 | Distinct ints have distinct decimal texts. |
| Provider.LastPathSegment | android/src/main/java/com/calendarevents/CalendarEvents.java:161 | getLastPathSegment is a suffix of the URI with no '/' in it. |
| Provider.RowUriShape | android/src/main/java/com/calendarevents/CalendarEvents.java:160 | The URI of an inserted row is the table URI, then a '/', then text that parses back to the row id. |
| Provider.LastSegmentAfterSlash | android/src/main/java/com/calendarevents/CalendarEvents.java:161 | The last segment of prefix + "/" + s is s when s has no '/'. |
| Provider.RowIdRoundTrip | android/src/main/java/com/calendarevents/CalendarEvents.java:159-161 | Parsing the last segment of a row URI gives the row's id. |
| Provider.CalendarProvider.constructor | android/src/main/java/com/calendarevents/CalendarEvents.java:121 | The provider starts empty. |
| Provider.CalendarProvider.InsertEvent | android/src/main/java/com/calendarevents/CalendarEvents.java:159-160 | An accepting provider stores the row under a fresh id and returns its URI. Otherwise it returns null and changes nothing. |
| Provider.CalendarProvider.InsertReminder | android/src/main/java/com/calendarevents/CalendarEvents.java:185 | An accepting provider appends the reminder row. Otherwise it returns null and changes nothing. The events are untouched. |
| Events.GetString | android/src/main/java/com/calendarevents/CalendarEvents.java:131-146 | ReadableMap.getString succeeds exactly on a string or null and returns that value. On anything else it raises WrongType for the key. |
| Events.GetBoolean | android/src/main/java/com/calendarevents/CalendarEvents.java:152 | ReadableMap.getBoolean succeeds exactly on a boolean and returns it. On anything else, null included, it raises WrongType for the key. |
| Events.Timestamp | android/src/main/java/com/calendarevents/CalendarEvents.java:137-143 | dateStringToTimestamp(getString(key)) succeeds exactly when the value is a string the parser accepts, with the parsed milliseconds. A null or unparseable string raises BadDate, and any other value raises WrongType. |
| Events.FirstFailure | android/src/main/java/com/calendarevents/CalendarEvents.java:130-152 | Reading the description fails exactly when some read of notes, location, startDate, endDate, recurrence or allDay raises. The failure names a key that is present. |
| Events.ExpectedColumns | android/src/main/java/com/calendarevents/CalendarEvents.java:125-157 | The event row writes only events columns and always holds calendar id 1 and the device's time zone. |
| Events.ExpectedColumnsDescribesEvent | android/src/main/java/com/calendarevents/CalendarEvents.java:125-157 | The event row holds calendar id 1 and the device's zone. It holds the title iff it is non-null, notes, location and allDay iff their keys are present, and dtstart/dtend iff their dates are present (the parsed value). It holds the rule iff the recurrence is a keyword, the alarm flag iff alarms are given, and no other column. |
| Events.DescribesEventUnique | android/src/main/java/com/calendarevents/CalendarEvents.java:125-157 | DescribesEvent pins the row down: two rows that both fit the description of lines 125-157 are equal. |
| Events.BuildEventValues | android/src/main/java/com/calendarevents/CalendarEvents.java:122-157 | Fails exactly when some read fails, with the first failing read in source order. Otherwise it returns exactly the described row. |
| Events.PutTextColumns | android/src/main/java/com/calendarevents/CalendarEvents.java:125-135 | Fails exactly on a notes or location value that is not a string or null. Otherwise it fills calendar id, title, description and location as described. |
| Events.PutDateColumns | android/src/main/java/com/calendarevents/CalendarEvents.java:137-143 | Fails exactly on a present start or end date that is not a parseable string, start first. Otherwise it adds the parsed dates. |
| Events.PutFlagColumns | android/src/main/java/com/calendarevents/CalendarEvents.java:145-157 | Fails exactly on a recurrence that is not a string or null, or an allDay that is not a boolean. Otherwise it adds the rule, allDay, time zone and alarm flag. |
| Events.PutAgrees | android/src/main/java/com/calendarevents/CalendarEvents.java:125-157 | Putting a column's described value extends the described record by that column. |
| Events.SkipAgrees | android/src/main/java/com/calendarevents/CalendarEvents.java:127-157 | Skipping a column with no described value leaves the described record as it is. |
| Events.NumericDates | android/src/main/java/com/calendarevents/CalendarEvents.java:176-177 | At most one date per alarm. |
| Events.NumericDatesAppend | android/src/main/java/com/calendarevents/CalendarEvents.java:174 | The dates of two alarm lists in a row are the dates of each, in order. |
| Events.NumericDatesAt | android/src/main/java/com/calendarevents/CalendarEvents.java:174-186 | Each alarm with a numeric date contributes its own date, right after those of the numeric alarms before it. |
| Events.ReadablePrefix | android/src/main/java/com/calendarevents/CalendarEvents.java:174-176 | The number of leading alarms the loop reads without raising; it is at most the list's length. |
| Events.AlarmDate | android/src/main/java/com/calendarevents/CalendarEvents.java:176-178 | An alarm yields a date exactly when it is a map whose "date" is a number (getType is Number). The date is that number. |
| Events.ReadablePrefixMeans | android/src/main/java/com/calendarevents/CalendarEvents.java:174-176 | All alarms before the readable prefix are readable maps with a date, and the one after it is not. |
| Events.ReadablePrefixIs | android/src/main/java/com/calendarevents/CalendarEvents.java:174-176 | The readable prefix is the only count with that property. |
| Events.ReadablePrefixStep | android/src/main/java/com/calendarevents/CalendarEvents.java:174-176 | Inside the prefix, the next alarm is readable iff the prefix goes past it. |
| Events.ReminderRows | android/src/main/java/com/calendarevents/CalendarEvents.java:178-185 | One row per date. |
| Events.ReminderValuesHold | android/src/main/java/com/calendarevents/CalendarEvents.java:179-183 | A reminder row writes only reminders columns: the event id, minutes equal to minus the alarm date, and METHOD_DEFAULT. |
| Events.ReminderRowsAt | android/src/main/java/com/calendarevents/CalendarEvents.java:178-185 | Row i carries the event id, minus date i as minutes, and METHOD_DEFAULT. |
| Events.RowsAppend | android/src/main/java/com/calendarevents/CalendarEvents.java:174 | The rows for two date lists in a row are the rows of each, in order. |
| Events.RowsStep | android/src/main/java/com/calendarevents/CalendarEvents.java:174-186 | The rows after alarm i are the rows before it plus that alarm's row, if its date is a number. |
| Events.InsertAlarmReminder | android/src/main/java/com/calendarevents/CalendarEvents.java:176-185 | A readable alarm adds its row when its date is a number, and nothing otherwise. |
| Events.CreateRemindersForEvent | android/src/main/java/com/calendarevents/CalendarEvents.java:173-188 | Fails exactly when some alarm is unreadable. The reminders written are the rows of the numeric alarms before the first unreadable one, in order. The events are untouched. |
| Events.AlarmFailure | android/src/main/java/com/calendarevents/CalendarEvents.java:162-176 | After the event row is in, reading the alarms fails exactly when "alarms" is present and is not a list (null included: getArray gives null and `size()` raises) or holds an entry that is not a map with a "date" key. The failure is WrongType("alarms") for a non-list and UnreadableAlarm otherwise. So `{alarms: null}` stores the event row and then rejects with WrongType("alarms"). |
| Events.EventReminders | android/src/main/java/com/calendarevents/CalendarEvents.java:162-186 | The reminder rows addEvent writes: none when "alarms" is absent or not a list, otherwise at most one per entry. |
| Events.AddEvent | android/src/main/java/com/calendarevents/CalendarEvents.java:120-169 | A failed read inserts nothing and raises that failure. A refused insert raises. Otherwise the described row is stored under the new id, the alarm rows are written against that id, and the result is that id or the alarm failure. |
| Events.SaveEvent | android/src/main/java/com/calendarevents/CalendarEvents.java:222-234 | Without the permission it rejects with the fixed message and changes nothing. A failed read rejects with "add event error" and that failure, and nothing is stored. A refused insert rejects with InsertFailed, and nothing is stored. An alarm failure rejects with that failure, but the event row and the reminders before the bad alarm stay stored. It resolves with the new id exactly when every read, the insert and the alarms succeed. |
| Events.StandupReadable | android/src/main/java/com/calendarevents/CalendarEvents.java:130-157 | A daily stand-up description with two dates and one alarm is read without failure. |
| Events.StandupRule | android/src/main/java/com/calendarevents/CalendarEvents.java:145-150 | Under the value-equality reading, its event row carries FREQ=DAILY. |
| Events.StandupReminder | android/src/main/java/com/calendarevents/CalendarEvents.java:177-185 | Its alarm at date -10 gives one reminder row with 10 minutes. |

## Left out

- Android and React Native calls are inputs to the model. `getCurrentActivity() != null` is the `hasActivity` flag. `haveCalendarReadWritePermissions` (ContextCompat.checkSelfPermission) is the `havePermission` flag. `TimeZone.getDefault().getID()` is the `zone` string. `ActivityCompat.requestPermissions` is the returned code.
- Date parsing (`parseISODateString` with SimpleDateFormat in GMT, and `dateStringToTimestamp`) is a parameter `parse: string -> Option<int>`. The ISO-8601 format and calendar arithmetic are not modelled. A null date string fails as the NullPointerException would.
- `sendIntentForCalendarEvent`, `openEventInCalendar`, `uriForCalendar` and `getName` are not part of this model. They only build Android intents, URIs and names.
- Java's 32-bit `int` is not modelled. The model does not capture wrap-around of the request counter, of `-date`, or of `getInt` truncating a double. Integer.parseInt's range check and its `+` sign are not modelled either. Numbers are unbounded integers.
- Permissions.PermissionGate: the static fields are one object. The model does not capture several module instances sharing them, or threads calling the callback concurrently.
- Promises are numbered values. Each request must bring a fresh one (`Fresh`), as the bridge creates a new Promise per call.
- Exception messages (`e.getMessage()`) are `Failure` values (WrongType, BadDate, UnreadableAlarm, InsertFailed), not their texts.
- Provider.LastPathSegment models URIs that do not end in '/', which is all the provider returns.
- Provider.CalendarProvider keeps events and reminders in separate tables. It does not record the order of inserts across the two. Its refusal is all-or-nothing, fixed for its lifetime. Event and reminder rows draw their ids from one shared counter, where Android gives each table its own `_ID` sequence; nothing depends on this, because the reminder URI is ignored (CalendarEvents.java:185).
- Events.GetString: a ReadableMap getter on a missing key is not modelled, because every read is guarded by `hasKey`. The exception is `getType("date")` on an alarm, which is modelled as UnreadableAlarm.
- Events.AddEvent: the WritableMap `{eventID}` result is the plain id.
- Decimal.ParseInt: only the forms String.valueOf produces, plus unsigned digits, are accepted. Integer.parseInt also accepts non-ASCII decimal digits (it reads each character with Character.digit), which the model rejects. The provider's row ids at CalendarEvents.java:161 are ASCII, so the difference cannot arise there.

## Findings

| source | as written | input that shows it | evidently intended | confidence | as-written member | corrected member |
|---|---|---|---|---|---|---|
| android/src/main/java/com/calendarevents/CalendarEvents.java:197-204 | The guard `Arrays.asList(validValues).contains(recurrence)` compares by value. The four branches compare the keyword with `==`, which is reference identity in Java. A keyword that comes from `details.getString("recurrence")` is built at run time and is not the interned literal, so no branch matches and no RRULE is ever written. | `saveEvent("Standup", {recurrence: "daily", ...})`: the string "daily" arrives through the bridge, passes the guard and matches no branch, so the rule is null. | Compare with `equals`, so that "daily" gives FREQ=DAILY, and likewise for weekly, monthly and yearly. | high, not executed | Recurrence.BridgeKeywordGetsNoRule | Recurrence.RecurrenceRule |
