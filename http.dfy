/** The parts of the HTTP layer the switch sees: URL objects produced by the
    configuration parser, the per-request result the transport hands back,
    the status-code classes, and the split of a batch of results into
    errors and successes that the set path performs. */
module Http {
  import opened Options
  import opened JsValue

  /** The credentials part of a URL object; None is an absent property. */
  datatype Auth = Auth(username: Option<Value>, password: Option<Value>, sendImmediately: Option<Value>)

  /** A parsed URL object: the address, the HTTP method and the credentials. */
  datatype UrlObject = UrlObject(url: string, httpMethod: Value, auth: Auth)

  /** What the transport reports for one request: the `error` it failed with,
      or the response's status code and body. */
  datatype HttpResult =
    | TransportError(message: string)
    | Response(statusCode: int, body: string)

  /** The library's success class: 2xx. */
  predicate IsHttpSuccessCode(code: int) {
    200 <= code <= 299
  }

  /** The library's redirect class: 3xx. */
  predicate IsHttpRedirectCode(code: int) {
    300 <= code <= 399
  }

  /** A result the switch accepts: no transport error, and a status code that
      is a success or a redirect. */
  predicate Accepted(r: HttpResult) {
    r.Response? && (IsHttpSuccessCode(r.statusCode) || IsHttpRedirectCode(r.statusCode))
  }

  /** Some result of the batch is not accepted. */
  predicate AnyFailed(results: seq<HttpResult>) {
    exists i :: 0 <= i < |results| && !Accepted(results[i])
  }

  /** Why one request of a batch failed. */
  datatype RequestError = Transport(message: string) | ErrorCode(code: int)

  /** An entry of the `errors` list: the request's index, its error and, for a
      bad status code, the response body. */
  datatype ErrorEntry = ErrorEntry(index: nat, error: RequestError, value: Option<string>)

  /** An entry of the `successes` list: the request's index and the body. */
  datatype SuccessEntry = SuccessEntry(index: nat, value: string)

  /** The `errors` entry recorded for a rejected result at index `i`. */
  function ErrorEntryOf(i: nat, r: HttpResult): ErrorEntry
    requires !Accepted(r)
  {
    match r
    case TransportError(message) => ErrorEntry(i, Transport(message), None)
    case Response(code, body) => ErrorEntry(i, ErrorCode(code), Some(body))
  }

  /** The `errors` list the set path builds from a batch, one entry per
      rejected result in index order. */
  function ErrorsOf(results: seq<HttpResult>): seq<ErrorEntry>
    decreases |results|
  {
    if results == [] then []
    else
      var n := |results| - 1;
      ErrorsOf(results[..n]) + if Accepted(results[n]) then [] else [ErrorEntryOf(n, results[n])]
  }

  /** The `successes` list the set path builds from a batch, one entry per
      accepted result (3xx included) in index order. */
  function SuccessesOf(results: seq<HttpResult>): seq<SuccessEntry>
    decreases |results|
  {
    if results == [] then []
    else
      var n := |results| - 1;
      SuccessesOf(results[..n]) + if Accepted(results[n]) then [SuccessEntry(n, results[n].body)] else []
  }

  /** The callback of the batch: walks the results in order and appends each
      to `errors` or `successes`. */
  method Partition(results: seq<HttpResult>) returns (errors: seq<ErrorEntry>, successes: seq<SuccessEntry>)
    ensures errors == ErrorsOf(results)
    ensures successes == SuccessesOf(results)
  {
    errors, successes := [], [];
    var i := 0;
    while i < |results|
      invariant 0 <= i <= |results|
      invariant errors == ErrorsOf(results[..i])
      invariant successes == SuccessesOf(results[..i])
    {
      assert results[..i + 1][..i] == results[..i];
      var result := results[i];
      if result.TransportError? {
        errors := errors + [ErrorEntry(i, Transport(result.message), None)];
      } else if !(IsHttpSuccessCode(result.statusCode) || IsHttpRedirectCode(result.statusCode)) {
        errors := errors + [ErrorEntry(i, ErrorCode(result.statusCode), Some(result.body))];
      } else {
        successes := successes + [SuccessEntry(i, result.body)];
      }
      i := i + 1;
    }
    assert results[..i] == results;
  }

  /** Every result lands in exactly one of the two lists. */
  lemma {:induction false} PartitionCounts(results: seq<HttpResult>)
    ensures |ErrorsOf(results)| + |SuccessesOf(results)| == |results|
    decreases |results|
  {
    if results != [] {
      PartitionCounts(results[..|results| - 1]);
    }
  }

  /** Every `errors` entry names a rejected result by its index and records
      its error, and the indices increase. */
  lemma {:induction false} ErrorsSound(results: seq<HttpResult>)
    ensures forall k :: 0 <= k < |ErrorsOf(results)| ==>
              && ErrorsOf(results)[k].index < |results|
              && !Accepted(results[ErrorsOf(results)[k].index])
              && ErrorsOf(results)[k] == ErrorEntryOf(ErrorsOf(results)[k].index, results[ErrorsOf(results)[k].index])
    ensures forall k, l :: 0 <= k < l < |ErrorsOf(results)| ==> ErrorsOf(results)[k].index < ErrorsOf(results)[l].index
    decreases |results|
  {
    if results != [] {
      var n := |results| - 1;
      var prefix := results[..n];
      ErrorsSound(prefix);
      var before, after := ErrorsOf(prefix), ErrorsOf(results);
      assert forall k :: 0 <= k < |before| ==> after[k] == before[k] && before[k].index < n && results[before[k].index] == prefix[before[k].index];
    }
  }

  /** Some entry of `errors` names the result at index `i`. */
  predicate HasErrorFor(errors: seq<ErrorEntry>, i: nat) {
    exists k :: 0 <= k < |errors| && errors[k].index == i
  }

  /** Some entry of `successes` names the result at index `i`. */
  predicate HasSuccessFor(successes: seq<SuccessEntry>, i: nat) {
    exists k :: 0 <= k < |successes| && successes[k].index == i
  }

  /** Every rejected result has an `errors` entry. */
  lemma {:induction false} ErrorsComplete(results: seq<HttpResult>)
    ensures forall i :: 0 <= i < |results| && !Accepted(results[i]) ==> HasErrorFor(ErrorsOf(results), i)
    decreases |results|
  {
    if results != [] {
      var n := |results| - 1;
      var prefix := results[..n];
      ErrorsComplete(prefix);
      var before, after := ErrorsOf(prefix), ErrorsOf(results);
      forall i | 0 <= i < |results| && !Accepted(results[i])
        ensures HasErrorFor(after, i)
      {
        if i < n {
          assert prefix[i] == results[i];
          var k :| 0 <= k < |before| && before[k].index == i;
          assert 0 <= k < |after| && after[k] == before[k];
          assert after[k].index == i;
        } else {
          assert 0 <= |before| < |after| && after[|before|].index == i;
        }
      }
    }
  }

  /** Every `successes` entry names an accepted result by its index and
      carries its body, and the indices increase. */
  lemma {:induction false} SuccessesSound(results: seq<HttpResult>)
    ensures forall k :: 0 <= k < |SuccessesOf(results)| ==>
              && SuccessesOf(results)[k].index < |results|
              && Accepted(results[SuccessesOf(results)[k].index])
              && SuccessesOf(results)[k].value == results[SuccessesOf(results)[k].index].body
    ensures forall k, l :: 0 <= k < l < |SuccessesOf(results)| ==> SuccessesOf(results)[k].index < SuccessesOf(results)[l].index
    decreases |results|
  {
    if results != [] {
      var n := |results| - 1;
      var prefix := results[..n];
      SuccessesSound(prefix);
      var before, after := SuccessesOf(prefix), SuccessesOf(results);
      assert forall k :: 0 <= k < |before| ==> after[k] == before[k] && before[k].index < n && results[before[k].index] == prefix[before[k].index];
    }
  }

  /** Every accepted result has a `successes` entry. */
  lemma {:induction false} SuccessesComplete(results: seq<HttpResult>)
    ensures forall i :: 0 <= i < |results| && Accepted(results[i]) ==> HasSuccessFor(SuccessesOf(results), i)
    decreases |results|
  {
    if results != [] {
      var n := |results| - 1;
      var prefix := results[..n];
      SuccessesComplete(prefix);
      var before, after := SuccessesOf(prefix), SuccessesOf(results);
      forall i | 0 <= i < |results| && Accepted(results[i])
        ensures HasSuccessFor(after, i)
      {
        if i < n {
          assert prefix[i] == results[i];
          var k :| 0 <= k < |before| && before[k].index == i;
          assert 0 <= k < |after| && after[k] == before[k];
          assert after[k].index == i;
        } else {
          assert 0 <= |before| < |after| && after[|before|].index == i;
        }
      }
    }
  }

  /** The batch has errors exactly when some result was rejected. */
  lemma {:induction false} NoErrorsIffAllAccepted(results: seq<HttpResult>)
    ensures ErrorsOf(results) == [] <==> !AnyFailed(results)
  {
    ErrorsSound(results);
    ErrorsComplete(results);
    if AnyFailed(results) {
      var i :| 0 <= i < |results| && !Accepted(results[i]);
      assert HasErrorFor(ErrorsOf(results), i);
    }
    if ErrorsOf(results) != [] {
      assert !Accepted(results[ErrorsOf(results)[0].index]);
    }
  }
}
