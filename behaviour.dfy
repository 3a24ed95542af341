/** The decision tables of `getStatus` and `setStatus`, the interpretation of
    a status response, the aggregate outcome of a set batch and the reset a
    momentary switch schedules afterwards. */
module Behaviour {
  import opened Options
  import opened Http
  import opened SwitchTypes

  /** The regular expression a stateful switch tests status bodies with:
      the built-in `/1/`, or one compiled from the configured string. */
  datatype Pattern = DigitOne | Regex(source: string)

  /** `statusPattern.test(body)`. `/1/` matches any body containing the
      character '1'; a configured expression is matched by the regular
      expression engine `compile` stands for. */
  predicate Matches(p: Pattern, compile: string -> (string -> bool), body: string) {
    match p
    case DigitOne => '1' in body
    case Regex(source) => compile(source)(body)
  }

  /** The errors the host's callbacks can receive. */
  datatype SwitchError =
    | TransportFailure(message: string)  // the transport's own error
    | HttpErrorCode(code: int)           // "Got html error code <code>"
    | SetRequestsFailed                  // "Some or every request returned with an error. See above!"

  /** What a get callback receives: a value, or an error. */
  datatype GetReply = StatusIs(on: bool) | GetFailed(error: SwitchError)

  /** What a set callback receives: nothing, or an error. */
  datatype Outcome = Pass | Fail(error: SwitchError)

  /** What `getStatus` does: answer at once, or ask the device. */
  datatype GetAction = Answer(value: bool) | QueryStatus

  /** What `setStatus` does: call back at once with success, or send the
      `on` (toOn) or `off` URL list. */
  datatype SetAction = Acknowledge | Send(toOn: bool)

  /** The `getStatus` table. Momentary types answer their idle value, toggle
      types the current characteristic value; the stateful type answers the
      current value on a cache hit and otherwise asks the device. Only that
      last case issues a request. */
  function GetDecision(t: SwitchType, shouldQuery: bool, current: bool): (a: GetAction)
    ensures a.QueryStatus? <==> t == Stateful && shouldQuery
    ensures IsMomentary(t) ==> a == Answer(IdleValue(t).value)
    ensures !IsMomentary(t) && a.Answer? ==> a.value == current
  {
    match t
    case Stateful => if shouldQuery then QueryStatus else Answer(current)
    case Stateless => Answer(false)
    case StatelessReverse => Answer(true)
    case Toggle | ToggleReverse => Answer(current)
  }

  /** The `setStatus` table. A write of a momentary switch's idle value is
      acknowledged without a request; every other write sends a request, and
      it goes to the `on` list exactly when the requested value is true. A
      type is only ever sent to a list it requires. */
  function SetDecision(t: SwitchType, value: bool): (a: SetAction)
    ensures a.Acknowledge? <==> IdleValue(t) == Some(value)
    ensures a.Send? ==> a.toOn == value
    ensures a.Send? && a.toOn ==> RequiresOnUrl(t)
    ensures a.Send? && !a.toOn ==> RequiresOffUrl(t)
  {
    match t
    case Stateful => Send(value)
    case Stateless => if !value then Acknowledge else Send(true)
    case StatelessReverse => if value then Acknowledge else Send(false)
    case Toggle | ToggleReverse => Send(value)
  }

  /** The answer to a status request. It is a value exactly when the result
      is accepted (2xx or 3xx), and that value is whether the pattern matches
      the body; a transport error is passed on, any other code is reported. */
  function StatusReply(response: HttpResult, p: Pattern, compile: string -> (string -> bool)): (r: GetReply)
    ensures r.StatusIs? <==> Accepted(response)
    ensures r.StatusIs? ==> r.on == Matches(p, compile, response.body)
    ensures response.TransportError? ==> r == GetFailed(TransportFailure(response.message))
    ensures response.Response? && !Accepted(response) ==> r == GetFailed(HttpErrorCode(response.statusCode))
  {
    if response.TransportError? then
      GetFailed(TransportFailure(response.message))
    else if !(IsHttpSuccessCode(response.statusCode) || IsHttpRedirectCode(response.statusCode)) then
      GetFailed(HttpErrorCode(response.statusCode))
    else
      StatusIs(Matches(p, compile, response.body))
  }

  /** A characteristic write scheduled to happen `delay` milliseconds later. */
  datatype PendingReset = PendingReset(value: bool, delay: int)

  /** What `resetSwitchWithTimeoutIfStateless` schedules: for a momentary
      type one write of its idle value after `timeout`, otherwise nothing. */
  function ResetsAfterBatch(t: SwitchType, timeout: int): (r: seq<PendingReset>)
    ensures r != [] <==> IsMomentary(t)
    ensures r != [] ==> r == [PendingReset(IdleValue(t).value, timeout)]
  {
    match t
    case Stateless => [PendingReset(false, timeout)]
    case StatelessReverse => [PendingReset(true, timeout)]
    case _ => []
  }

  /** The outcome the `_makeSetRequest` callback reports for a batch: it
      splits the results and fails exactly when the `errors` list is not
      empty, so one rejected result fails the whole set even when the others
      succeeded. */
  method AggregateSetResults(results: seq<HttpResult>) returns (outcome: Outcome)
    ensures outcome.Fail? <==> exists i :: 0 <= i < |results| && !Accepted(results[i])
    ensures outcome.Fail? ==> outcome.error == SetRequestsFailed
  {
    var errors, successes := Partition(results);
    NoErrorsIffAllAccepted(results);
    if |errors| > 0 {
      outcome := Fail(SetRequestsFailed);
    } else {
      outcome := Pass;
    }
  }

  /** The reset a momentary switch schedules writes its idle value, and
      `setStatus` acknowledges that value without a request: the reset
      re-entering `setStatus` never starts another batch. */
  lemma ResetWriteIsAcknowledged(t: SwitchType, timeout: int)
    requires IsMomentary(t)
    ensures forall k :: 0 <= k < |ResetsAfterBatch(t, timeout)| ==>
              SetDecision(t, ResetsAfterBatch(t, timeout)[k].value) == Acknowledge
  {
  }

  /** A stateful switch with the default pattern: body "1" with 200 reads
      on, body "0" with 200 reads off, status 500 is an error. */
  lemma DefaultPatternScenario(compile: string -> (string -> bool))
    ensures StatusReply(Response(200, "1"), DigitOne, compile) == StatusIs(true)
    ensures StatusReply(Response(200, "0"), DigitOne, compile) == StatusIs(false)
    ensures StatusReply(Response(500, "1"), DigitOne, compile) == GetFailed(HttpErrorCode(500))
  {
  }
}
