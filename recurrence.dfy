/** The recurrence keyword of an event description and the recurrence rule
    written for it: a FREQ rule part of the iCalendar RRULE grammar (section
    3.3.10 of RFC 5545). */
module Recurrence {
  import opened Wrappers

  /** The keywords createRecurrenceRule accepts. */
  const KEYWORDS: seq<string> := ["daily", "weekly", "monthly", "yearly"]

  /** The values of the FREQ rule part in section 3.3.10 of RFC 5545. */
  const FREQUENCIES: seq<string> :=
    ["SECONDLY", "MINUTELY", "HOURLY", "DAILY", "WEEKLY", "MONTHLY", "YEARLY"]

  /** The recurrence rule made of the single rule part FREQ=f. */
  function FreqRule(f: string): string {
    "FREQ=" + f
  }

  /** createRecurrenceRule with the keyword compared by value: the FREQ rule
      for a recognised keyword, null (None) for anything else, including a
      null keyword. */
  function RecurrenceRule(recurrence: Option<string>): (rule: Option<string>)
    ensures rule.Some? <==> recurrence.Some? && recurrence.value in KEYWORDS
    ensures rule.Some? ==> exists f :: f in FREQUENCIES && rule.value == FreqRule(f)
    ensures rule.Some? ==>
      rule.value in {FreqRule("DAILY"), FreqRule("WEEKLY"), FreqRule("MONTHLY"), FreqRule("YEARLY")}
  {
    if recurrence.Some? && recurrence.value in KEYWORDS then
      var keyword := recurrence.value;
      if keyword == "daily" then Some(FreqRule("DAILY"))
      else if keyword == "weekly" then Some(FreqRule("WEEKLY"))
      else if keyword == "monthly" then Some(FreqRule("MONTHLY"))
      else Some(FreqRule("YEARLY"))
    else None
  }

  /** Reads a rule back to the keyword it was written for. */
  function KeywordOf(rule: string): (keyword: Option<string>)
    ensures keyword.Some? ==> keyword.value in KEYWORDS
  {
    if |rule| < 5 || rule[..5] != "FREQ=" then None
    else
      var f := rule[5..];
      if f == "DAILY" then Some("daily")
      else if f == "WEEKLY" then Some("weekly")
      else if f == "MONTHLY" then Some("monthly")
      else if f == "YEARLY" then Some("yearly")
      else None
  }

  /** The table is one to one: each recognised keyword's rule reads back to
      that keyword, so no two keywords share a rule. */
  lemma RuleRoundTrip(keyword: string)
    requires keyword in KEYWORDS
    ensures RecurrenceRule(Some(keyword)).Some?
    ensures KeywordOf(RecurrenceRule(Some(keyword)).value) == Some(keyword)
  {
  }

  lemma RuleInjective(a: string, b: string)
    requires RecurrenceRule(Some(a)).Some? && RecurrenceRule(Some(a)) == RecurrenceRule(Some(b))
    ensures a == b
  {
    RuleRoundTrip(a);
    RuleRoundTrip(b);
  }

  /** A Java String reference: its characters, and whether it is the interned
      instance, the one object that every literal with these characters
      denotes. */
  datatype JavaString = JavaString(chars: string, interned: bool)

  /** Java's `s == "literal"` on strings: true only for the literal's own
      object, that is, an interned string with the same characters. */
  predicate SameObject(s: JavaString, literal: string) {
    s.interned && s.chars == literal
  }

  /** Reference identity is stricter than equals: it implies equal
      characters, and on equal characters it holds exactly for the interned
      instance. */
  lemma SameObjectIsStricterThanEquals(s: JavaString, literal: string)
    ensures SameObject(s, literal) ==> s.chars == literal
    ensures s.chars == literal ==> (SameObject(s, literal) <==> s.interned)
  {
  }

  /** createRecurrenceRule as written: the guard compares by value
      (List.contains calls equals), the four branches compare references. */
  function RecurrenceRuleAsWritten(recurrence: Option<JavaString>): (rule: Option<string>)
    ensures rule.Some? ==> recurrence.Some? && recurrence.value.interned
    ensures rule.Some? ==> rule == RecurrenceRule(Some(recurrence.value.chars))
  {
    if recurrence.Some? && recurrence.value.chars in KEYWORDS then
      var s := recurrence.value;
      if SameObject(s, "daily") then Some(FreqRule("DAILY"))
      else if SameObject(s, "weekly") then Some(FreqRule("WEEKLY"))
      else if SameObject(s, "monthly") then Some(FreqRule("MONTHLY"))
      else if SameObject(s, "yearly") then Some(FreqRule("YEARLY"))
      else None
    else None
  }

  /** A keyword that arrives from JavaScript is a string the bridge built at
      run time, not the interned literal: as written, it never gets a rule,
      although the value-equality reading gives it one. */
  lemma BridgeKeywordGetsNoRule()
    ensures RecurrenceRuleAsWritten(Some(JavaString("daily", false))) == None
    ensures RecurrenceRule(Some("daily")) == Some(FreqRule("DAILY"))
  {
  }

  lemma AsWrittenDropsEveryBridgeString(chars: string)
    ensures RecurrenceRuleAsWritten(Some(JavaString(chars, false))) == None
  {
  }

  /** On interned strings the code as written and the value-equality reading
      agree. */
  lemma AsWrittenAgreesOnInterned(chars: string)
    ensures RecurrenceRuleAsWritten(Some(JavaString(chars, true))) == RecurrenceRule(Some(chars))
  {
  }
}
