/**
 * The bounded-retry rule of the client-error handler (src/DacpAccessory.js:133-153):
 * count the failure, log out, and schedule a reconnect after 120 seconds while
 * fewer than five failures have been counted; give up otherwise.
 *
 * The handler as written does not reach that rule (see the Findings in the
 * README): the counter is never initialised and line 136 reads an undeclared
 * name. Both are modelled here as written, next to the corrected rule that the
 * session controller uses.
 */
module RetryPolicy {

  import opened Wrappers

  const MaxFailures: nat := 5
  const RetryDelayMs: nat := 120000

  datatype Decision = Reconnect(delayMs: nat) | GiveUp

  /** The counter after a failure, and what the handler then does. */
  datatype Outcome = Outcome(errors: nat, decision: Decision)

  /** One client error, with the counter starting from an integer. */
  function OnFailure(errors: nat): (r: Outcome)
    ensures r.errors == errors + 1
    ensures r.decision.Reconnect? <==> r.errors < MaxFailures
    ensures r.decision.Reconnect? ==> r.decision.delayMs == RetryDelayMs
  {
    var n := errors + 1;
    Outcome(n, if n < MaxFailures then Reconnect(RetryDelayMs) else GiveUp)
  }

  /** The number of reconnects scheduled by `n` successive failures from the count `errors`. */
  function Reconnects(errors: nat, n: nat): nat
    decreases n
  {
    if n == 0 then 0
    else (if OnFailure(errors).decision.Reconnect? then 1 else 0) + Reconnects(errors + 1, n - 1)
  }

  function Min(a: nat, b: nat): nat {
    if a <= b then a else b
  }

  /**
   * Failures reconnect until the count reaches five: from the count `errors`,
   * `n` failures schedule min(n, 4 - errors) reconnects, and none once four
   * failures have been counted.
   */
  lemma {:induction false} ReconnectsClosedForm(errors: nat, n: nat)
    ensures Reconnects(errors, n) ==
      if errors + 1 >= MaxFailures then 0 else Min(n, MaxFailures - 1 - errors)
    decreases n
  {
    if n > 0 {
      ReconnectsClosedForm(errors + 1, n - 1);
    }
  }

  /** From a fresh count, the first four failures reconnect and the fifth gives up. */
  lemma FourReconnectsThenGiveUp()
    ensures OnFailure(4) == Outcome(5, GiveUp)
    ensures forall c: nat :: c < MaxFailures - 1 ==> OnFailure(c).decision == Reconnect(RetryDelayMs)
    ensures Reconnects(0, MaxFailures) == MaxFailures - 1
    ensures forall n: nat :: Reconnects(0, n) <= MaxFailures - 1
  {
    ReconnectsClosedForm(0, MaxFailures);
    forall n: nat ensures Reconnects(0, n) <= MaxFailures - 1 {
      ReconnectsClosedForm(0, n);
    }
  }

  // ---- The handler as written -------------------------------------------

  /** A JavaScript value the counter can hold: never assigned, NaN, or an integer. */
  datatype JsNumber = Undefined | NaN | Int(n: int)

  /** `x++` on such a value: `undefined` and NaN both become NaN. */
  function Increment(x: JsNumber): JsNumber {
    match x
    case Int(n) => Int(n + 1)
    case _ => NaN
  }

  /** `x < k`: false whenever `x` is not a number. */
  predicate LessThan(x: JsNumber, k: int) {
    x.Int? && x.n < k
  }

  /** Lines 138-150 on a counter that may hold any JavaScript value. */
  function OnFailureUninitialised(errors: JsNumber): (JsNumber, Decision) {
    var n := Increment(errors);
    (n, if LessThan(n, MaxFailures) then Reconnect(RetryDelayMs) else GiveUp)
  }

  /**
   * The bindings the model distinguishes where the handler runs: its parameter
   * `e`, `this`, the module-level bindings of lines 3-12 (the class
   * `DacpAccessory` included), Node's module names `require` and `module`, and
   * the globals `JSON` and `setTimeout`. Any other name is treated as unbound,
   * which is right for `error`: it is neither a parameter, nor a module
   * binding, nor a Node global.
   */
  const HandlerScope: set<string> := {
    "e", "this", "JSON", "setTimeout", "require", "module", "inherits", "DacpClient",
    "NowPlayingService", "PlayerControlsService", "SpeakerService", "Accessory",
    "Characteristic", "Service", "DacpAccessory"
  }

  /** The client calls the handler makes. */
  datatype HandlerCall = LogoutCall | SetTimeoutCall(delayMs: nat)

  /**
   * How a run of the handler ends: the counter after it, the calls it made, and
   * the unbound name whose lookup threw a ReferenceError, if any.
   */
  datatype HandlerRun = HandlerRun(counter: JsNumber, calls: seq<HandlerCall>, thrown: Option<string>)

  /** The calls lines 139-144 make for a decision of the retry rule. */
  function CallsFor(d: Decision): seq<HandlerCall> {
    match d
    case Reconnect(delay) => [LogoutCall, SetTimeoutCall(delay)]
    case GiveUp => [LogoutCall]
  }

  /**
   * `_onDacpFailure` (lines 133-153), line by line, with line 136 reading the
   * name `logged`: looking that name up throws when it is not bound, before the
   * counter is touched; otherwise lines 138-150 run on the counter as it is.
   */
  function OnDacpFailureReading(logged: string, counter: JsNumber): HandlerRun {
    if logged !in HandlerScope then HandlerRun(counter, [], Some(logged))
    else
      var (n, d) := OnFailureUninitialised(counter);
      HandlerRun(n, CallsFor(d), None)
  }

  /** The name line 136 reads as written, and the parameter it evidently means. */
  const AsWrittenName := "error"
  const IntendedName := "e"

  /**
   * With line 136 corrected, the counter left undefined turns NaN on the first
   * failure, so that failure already gives up, and NaN stays NaN.
   */
  lemma UninitialisedCounterGivesUpAtOnce()
    ensures OnDacpFailureReading(IntendedName, Undefined) == HandlerRun(NaN, [LogoutCall], None)
    ensures OnDacpFailureReading(IntendedName, NaN) == HandlerRun(NaN, [LogoutCall], None)
  {
  }

  /**
   * As written, every client error throws at line 136: whatever the counter
   * holds, it keeps its value, there is no logout and no reconnect.
   */
  lemma AsWrittenHandlerNeverRecovers(counter: JsNumber)
    ensures OnDacpFailureReading(AsWrittenName, counter) == HandlerRun(counter, [], Some(AsWrittenName))
    ensures LogoutCall !in OnDacpFailureReading(AsWrittenName, counter).calls
  {
    assert AsWrittenName !in HandlerScope;
  }

  /**
   * With both defects corrected (line 136 reads `e`, the counter is an
   * integer), the handler is the retry rule `OnFailure`: the counter it leaves,
   * and a logout followed by the reconnect timer exactly when that rule reconnects.
   */
  lemma CorrectedHandlerFollowsRetryRule(errors: nat)
    ensures OnDacpFailureReading(IntendedName, Int(errors)) ==
      HandlerRun(Int(OnFailure(errors).errors), CallsFor(OnFailure(errors).decision), None)
  {
  }
}
