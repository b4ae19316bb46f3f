/** The permission gate of the calendar bridge: a request-code counter and a
    table from request code to the promise waiting for the OS's answer
    (static fields of CalendarEvents). A request either rejects at once or
    registers its promise under a new code; the OS callback settles the
    promise registered under its code and removes the entry.

    The transitions are stated first as functions on a Gate value; the class
    PermissionGate at the end holds the same state in fields that its
    methods update in place, and each method is proved against the function
    for its operation. */
module Permissions {
  import opened Wrappers
  import Decimal

  /** PackageManager.PERMISSION_GRANTED and PERMISSION_DENIED. */
  const PERMISSION_GRANTED: int := 0
  const PERMISSION_DENIED: int := -1

  /** The initial value of the request-code counter. */
  const FIRST_REQUEST_CODE: int := 37

  const AUTHORIZED: string := "authorized"
  const DENIED: string := "denied"
  const NO_ACTIVITY_CODE: string := "E_ACTIVITY_DOES_NOT_EXIST"
  const NO_ACTIVITY_MESSAGE: string := "Activity doesn't exist"
  const UNKNOWN_ERROR_CODE: string := "permissions - unknown error"
  const CANCELLED_MESSAGE: string := "Request was cancelled"

  /** Identifies one promise handed over by the React bridge. */
  type PromiseId = nat

  /** What a promise was settled with. */
  datatype Settlement =
    | Resolve(promise: PromiseId, status: string)
    | Reject(promise: PromiseId, code: string, message: string)

  /** The gate's state: the request-code counter, the pending table, and the
      log of every settlement made so far (the log is history, not state the
      source keeps). */
  datatype Gate = Gate(code: int, pending: map<int, PromiseId>, log: seq<Settlement>)

  function Initial(): Gate {
    Gate(FIRST_REQUEST_CODE, map[], [])
  }

  /** Every pending request code has been issued by the counter. */
  predicate CodesIssued(g: Gate) {
    forall k :: k in g.pending ==> k <= g.code
  }

  predicate Settled(p: PromiseId, log: seq<Settlement>) {
    exists i :: 0 <= i < |log| && log[i].promise == p
  }

  predicate SettledAtMostOnce(log: seq<Settlement>) {
    forall i, j :: 0 <= i < j < |log| ==> log[i].promise != log[j].promise
  }

  /** The gate's invariant: codes come from the counter, no promise is
      settled twice, a pending promise is not yet settled, and no promise is
      pending under two codes. */
  predicate GateInvariant(g: Gate) {
    && CodesIssued(g)
    && SettledAtMostOnce(g.log)
    && (forall k :: k in g.pending ==> !Settled(g.pending[k], g.log))
    && (forall k, k' :: k in g.pending && k' in g.pending && k != k' ==> g.pending[k] != g.pending[k'])
  }

  /** A promise the bridge has just created: neither settled nor pending. */
  predicate Fresh(g: Gate, p: PromiseId) {
    !Settled(p, g.log) && p !in g.pending.Values
  }

  /** requestCalendarReadWritePermission: with no current activity the
      promise is rejected and nothing else changes; otherwise the counter is
      bumped and the promise registered under the new code, which is the
      code handed to the OS's permission prompt (the second component). */
  function Request(g: Gate, promise: PromiseId, hasActivity: bool): (r: (Gate, Option<int>))
    ensures !hasActivity ==>
      && r.0.code == g.code && r.0.pending == g.pending && r.1 == None
      && r.0.log == g.log + [Reject(promise, NO_ACTIVITY_CODE, NO_ACTIVITY_MESSAGE)]
    ensures hasActivity ==>
      && r.0.code == g.code + 1 && r.1 == Some(r.0.code) && r.0.log == g.log
      && r.0.pending.Keys == g.pending.Keys + {r.0.code}
      && r.0.pending[r.0.code] == promise
    ensures hasActivity && CodesIssued(g) ==>
      && r.0.code !in g.pending && CodesIssued(r.0)
      && (forall k :: k in g.pending ==> r.0.pending[k] == g.pending[k])
  {
    if !hasActivity then
      (g.(log := g.log + [Reject(promise, NO_ACTIVITY_CODE, NO_ACTIVITY_MESSAGE)]), None)
    else
      var code := g.code + 1;
      (g.(code := code, pending := g.pending[code := promise]), Some(code))
  }

  /** A grant result the callback settles by resolving. */
  predicate Recognised(grants: seq<int>) {
    |grants| > 0 && (grants[0] == PERMISSION_GRANTED || grants[0] == PERMISSION_DENIED)
  }

  /** The message of the "unknown error" rejection: the first grant value in
      decimal, or a cancellation notice for an empty result. */
  function UnknownErrorMessage(grants: seq<int>): (m: string)
    ensures |grants| > 0 ==> Decimal.ParseInt(m) == Some(grants[0])
    ensures |grants| == 0 ==> m == CANCELLED_MESSAGE
  {
    if |grants| > 0 then
      Decimal.IntToStringRoundTrip(grants[0]);
      Decimal.IntToString(grants[0])
    else CANCELLED_MESSAGE
  }

  /** What the callback does to promise p, registered under its code, given
      the grant results and whether p's entry is the only one pending. */
  function Settle(p: PromiseId, grants: seq<int>, sole: bool): (s: Option<Settlement>)
    ensures s.Some? ==> s.value.promise == p
    ensures |grants| > 0 && grants[0] == PERMISSION_GRANTED ==> s == Some(Resolve(p, AUTHORIZED))
    ensures |grants| > 0 && grants[0] == PERMISSION_DENIED ==> s == Some(Resolve(p, DENIED))
    ensures !Recognised(grants) && sole ==>
      s == Some(Reject(p, UNKNOWN_ERROR_CODE, UnknownErrorMessage(grants)))
    ensures s.None? <==> !Recognised(grants) && !sole
  {
    if |grants| > 0 && grants[0] == PERMISSION_GRANTED then Some(Resolve(p, AUTHORIZED))
    else if |grants| > 0 && grants[0] == PERMISSION_DENIED then Some(Resolve(p, DENIED))
    else if sole then Some(Reject(p, UNKNOWN_ERROR_CODE, UnknownErrorMessage(grants)))
    else None
  }

  /** onRequestPermissionsResult: for a pending code, settle its promise as
      Settle says and remove the entry; for any other code, do nothing. */
  function Callback(g: Gate, requestCode: int, grants: seq<int>): (r: Gate)
    ensures r.code == g.code
    ensures r.pending == g.pending - {requestCode}
    ensures requestCode !in g.pending ==> r == g
    ensures requestCode in g.pending ==>
      r.log == g.log + ToSeq(Settle(g.pending[requestCode], grants, |g.pending| == 1))
  {
    if requestCode in g.pending then
      var settled := Settle(g.pending[requestCode], grants, |g.pending| == 1);
      Gate(g.code, g.pending - {requestCode}, g.log + ToSeq(settled))
    else g
  }

  /** requestCalendarPermissions: resolve "authorized" at once when the app
      already holds the permission, otherwise ask the OS. */
  function AskPermission(g: Gate, promise: PromiseId, havePermission: bool, hasActivity: bool): (r: (Gate, Option<int>))
    ensures havePermission ==>
      && r.0.code == g.code && r.0.pending == g.pending && r.1 == None
      && r.0.log == g.log + [Resolve(promise, AUTHORIZED)]
    ensures !havePermission ==> r == Request(g, promise, hasActivity)
  {
    if havePermission then (g.(log := g.log + [Resolve(promise, AUTHORIZED)]), None)
    else Request(g, promise, hasActivity)
  }

  /** Appending one settlement of a fresh promise keeps every promise settled
      at most once. */
  lemma {:induction false} AppendFreshSettlement(log: seq<Settlement>, s: Settlement)
    requires SettledAtMostOnce(log) && !Settled(s.promise, log)
    ensures SettledAtMostOnce(log + [s])
    ensures forall p :: Settled(p, log + [s]) <==> Settled(p, log) || p == s.promise
  {
    var log' := log + [s];
    forall i, j | 0 <= i < j < |log'| ensures log'[i].promise != log'[j].promise {
      if j == |log| {
        assert log'[i] == log[i];
      } else {
        assert log'[i] == log[i] && log'[j] == log[j];
      }
    }
    forall p ensures Settled(p, log') <==> Settled(p, log) || p == s.promise {
      if Settled(p, log') {
        var i :| 0 <= i < |log'| && log'[i].promise == p;
        if i < |log| { assert log[i] == log'[i]; }
      }
      if Settled(p, log) {
        var i :| 0 <= i < |log| && log[i].promise == p;
        assert log'[i] == log[i];
      }
      if p == s.promise {
        assert log'[|log|] == s;
      }
    }
  }

  lemma {:induction false} RequestKeepsInvariant(g: Gate, promise: PromiseId, hasActivity: bool)
    requires GateInvariant(g) && Fresh(g, promise)
    ensures GateInvariant(Request(g, promise, hasActivity).0)
  {
    var g' := Request(g, promise, hasActivity).0;
    if !hasActivity {
      AppendFreshSettlement(g.log, Reject(promise, NO_ACTIVITY_CODE, NO_ACTIVITY_MESSAGE));
      forall k | k in g'.pending ensures !Settled(g'.pending[k], g'.log) {
        assert g'.pending[k] == g.pending[k] != promise;
      }
    } else {
      var code := g.code + 1;
      forall k, k' | k in g'.pending && k' in g'.pending && k != k'
        ensures g'.pending[k] != g'.pending[k']
      {
        if k == code {
          assert g.pending[k'] in g.pending.Values;
        } else if k' == code {
          assert g.pending[k] in g.pending.Values;
        }
      }
    }
  }

  lemma {:induction false} CallbackKeepsInvariant(g: Gate, requestCode: int, grants: seq<int>)
    requires GateInvariant(g)
    ensures GateInvariant(Callback(g, requestCode, grants))
  {
    if requestCode in g.pending {
      var p := g.pending[requestCode];
      var g' := Callback(g, requestCode, grants);
      var settled := Settle(p, grants, |g.pending| == 1);
      if settled.Some? {
        AppendFreshSettlement(g.log, settled.value);
        forall k | k in g'.pending ensures !Settled(g'.pending[k], g'.log) {
          assert g'.pending[k] == g.pending[k] != p;
        }
      }
    }
  }

  lemma {:induction false} AskKeepsInvariant(g: Gate, promise: PromiseId, havePermission: bool, hasActivity: bool)
    requires GateInvariant(g) && Fresh(g, promise)
    ensures GateInvariant(AskPermission(g, promise, havePermission, hasActivity).0)
  {
    if havePermission {
      var g' := AskPermission(g, promise, havePermission, hasActivity).0;
      AppendFreshSettlement(g.log, Resolve(promise, AUTHORIZED));
      forall k | k in g'.pending ensures !Settled(g'.pending[k], g'.log) {
        assert g'.pending[k] == g.pending[k] != promise;
      }
    } else {
      RequestKeepsInvariant(g, promise, hasActivity);
    }
  }

  /** A callback for a code already handled (or never issued) is a no-op. */
  lemma SecondCallbackIsNoOp(g: Gate, requestCode: int, first: seq<int>, second: seq<int>)
    ensures Callback(Callback(g, requestCode, first), requestCode, second)
         == Callback(g, requestCode, first)
  {
  }

  /** The callback takes the answered promise out of the gate for good; it
      settles it exactly when the answer is recognised or no other request
      is pending. Otherwise the promise is left never to be settled. */
  lemma AnsweredPromiseLeavesGate(g: Gate, requestCode: int, grants: seq<int>)
    requires GateInvariant(g) && requestCode in g.pending
    ensures var p := g.pending[requestCode];
      var r := Callback(g, requestCode, grants);
      && p !in r.pending.Values
      && (Settled(p, r.log) <==> Recognised(grants) || |g.pending| == 1)
  {
    var p := g.pending[requestCode];
    var r := Callback(g, requestCode, grants);
    forall k | k in r.pending ensures r.pending[k] != p {
      assert k in g.pending && k != requestCode;
    }
    var settled := Settle(p, grants, |g.pending| == 1);
    if settled.Some? {
      AppendFreshSettlement(g.log, settled.value);
    } else {
      assert r.log == g.log;
    }
  }

  /** One step of the bridge's life: a JS call of requestCalendarPermissions,
      or an OS callback. */
  datatype Step =
    | Ask(promise: PromiseId, havePermission: bool, hasActivity: bool)
    | Answer(requestCode: int, grants: seq<int>)

  function Apply(g: Gate, step: Step): Gate {
    match step
    case Ask(p, have, act) => AskPermission(g, p, have, act).0
    case Answer(c, grants) => Callback(g, c, grants)
  }

  /** A run in which every call brings a promise the gate has not seen. */
  predicate FreshRun(g: Gate, steps: seq<Step>)
    decreases |steps|
  {
    steps == [] ||
    ((steps[0].Ask? ==> Fresh(g, steps[0].promise)) && FreshRun(Apply(g, steps[0]), steps[1..]))
  }

  function Run(g: Gate, steps: seq<Step>): Gate
    decreases |steps|
  {
    if steps == [] then g else Run(Apply(g, steps[0]), steps[1..])
  }

  /** Along any run, no promise is ever settled twice, every pending code was
      issued by the counter, and no pending promise has been settled. */
  lemma {:induction false} RunKeepsInvariant(g: Gate, steps: seq<Step>)
    requires GateInvariant(g) && FreshRun(g, steps)
    ensures GateInvariant(Run(g, steps))
    ensures SettledAtMostOnce(Run(g, steps).log)
    decreases |steps|
  {
    if steps != [] {
      match steps[0] {
        case Ask(p, have, act) => AskKeepsInvariant(g, p, have, act);
        case Answer(c, grants) => CallbackKeepsInvariant(g, c, grants);
      }
      RunKeepsInvariant(Apply(g, steps[0]), steps[1..]);
    }
  }

  /** Every state the bridge reaches from start-up settles each promise at
      most once. */
  lemma SettledAtMostOnceFromStart(steps: seq<Step>)
    requires FreshRun(Initial(), steps)
    ensures SettledAtMostOnce(Run(Initial(), steps).log)
  {
    RunKeepsInvariant(Initial(), steps);
  }

  /** The static state of CalendarEvents: PERMISSION_REQUEST_CODE and
      permissionsPromises, with a ghost log of what the promises were
      settled with. */
  class PermissionGate {
    var code: int
    var pending: map<int, PromiseId>
    ghost var log: seq<Settlement>

    ghost function State(): Gate
      reads this
    {
      Gate(code, pending, log)
    }

    ghost predicate Valid()
      reads this
    {
      GateInvariant(State())
    }

    constructor ()
      ensures Valid() && State() == Initial()
    {
      code := FIRST_REQUEST_CODE;
      pending := map[];
      log := [];
    }

    /** requestCalendarReadWritePermission; `requested` is the code passed to
        the OS prompt, `settled` what the promise was settled with. */
    method RequestCalendarReadWritePermission(promise: PromiseId, hasActivity: bool)
      returns (requested: Option<int>, settled: Option<Settlement>)
      requires Valid() && Fresh(State(), promise)
      modifies this
      ensures Valid()
      ensures (State(), requested) == Request(old(State()), promise, hasActivity)
      ensures settled == if hasActivity then None else Some(Reject(promise, NO_ACTIVITY_CODE, NO_ACTIVITY_MESSAGE))
      ensures log == old(log) + ToSeq(settled)
    {
      RequestKeepsInvariant(State(), promise, hasActivity);
      if !hasActivity {
        settled := Some(Reject(promise, NO_ACTIVITY_CODE, NO_ACTIVITY_MESSAGE));
        log := log + [settled.value];
        requested := None;
        return;
      }
      code := code + 1;
      pending := pending[code := promise];
      requested := Some(code);
      settled := None;
    }

    /** onRequestPermissionsResult. */
    method OnRequestPermissionsResult(requestCode: int, grants: seq<int>)
      returns (settled: Option<Settlement>)
      requires Valid()
      modifies this
      ensures Valid()
      ensures State() == Callback(old(State()), requestCode, grants)
      ensures settled ==
        if requestCode in old(pending) then Settle(old(pending)[requestCode], grants, |old(pending)| == 1) else None
      ensures log == old(log) + ToSeq(settled)
    {
      CallbackKeepsInvariant(State(), requestCode, grants);
      settled := None;
      if requestCode in pending {
        var promise := pending[requestCode];
        if |grants| > 0 && grants[0] == PERMISSION_GRANTED {
          settled := Some(Resolve(promise, AUTHORIZED));
        } else if |grants| > 0 && grants[0] == PERMISSION_DENIED {
          settled := Some(Resolve(promise, DENIED));
        } else if |pending| == 1 {
          var message := if |grants| > 0 then Decimal.IntToString(grants[0]) else CANCELLED_MESSAGE;
          settled := Some(Reject(promise, UNKNOWN_ERROR_CODE, message));
        }
        log := log + ToSeq(settled);
        pending := pending - {requestCode};
      }
    }

    /** requestCalendarPermissions. */
    method RequestCalendarPermissions(promise: PromiseId, havePermission: bool, hasActivity: bool)
      returns (requested: Option<int>, settled: Option<Settlement>)
      requires Valid() && Fresh(State(), promise)
      modifies this
      ensures Valid()
      ensures (State(), requested) == AskPermission(old(State()), promise, havePermission, hasActivity)
      ensures settled ==
        if havePermission then Some(Resolve(promise, AUTHORIZED))
        else if hasActivity then None
        else Some(Reject(promise, NO_ACTIVITY_CODE, NO_ACTIVITY_MESSAGE))
      ensures log == old(log) + ToSeq(settled)
    {
      if havePermission {
        AskKeepsInvariant(State(), promise, havePermission, hasActivity);
        settled := Some(Resolve(promise, AUTHORIZED));
        log := log + [settled.value];
        requested := None;
      } else {
        requested, settled := RequestCalendarReadWritePermission(promise, hasActivity);
      }
    }
  }
}
