/**
 * The `onError` handlers of the submission mutations (patient signup, doctor signup,
 * approve and decline): which text the error notification is given for a failed request.
 */
module Submission {
  import opened JsValues

  /** `error.response.data`, the body the server sends back: `{ message?, errors? }`. */
  datatype ResponseData = ResponseData(message: Option<string>, errors: Option<seq<string>>)

  /** `error.response`: the HTTP status and the body, which may be missing. */
  datatype Response = Response(status: int, data: Option<ResponseData>)

  /** The error object a mutation hands to `onError`; `error` is its own `error.error` property. */
  datatype SubmitError = SubmitError(response: Option<Response>, message: Option<string>, error: Option<string>)

  /**
   * What reaches `showNotification`: a string, the error object itself (the decline chain
   * can select it), or nothing because the handler threw a TypeError on an unguarded read.
   */
  datatype Notice = Text(text: string) | WholeError | Throws

  const InternalServerError := "Internal Server Error"
  const GenericFailure := "An error occurred"

  /** The response exists and its status is exactly 400 or 500. */
  predicate IsServerRejection(e: SubmitError) {
    e.response.Some? && (e.response.value.status == 500 || e.response.value.status == 400)
  }

  /** `error.response.data` can be read without a TypeError and is an object. */
  predicate BodyReadable(e: SubmitError) {
    e.response.Some? && e.response.value.data.Some?
  }

  /** `error.response.data.errors[0]` can be read without a TypeError. */
  predicate ErrorsReadable(e: SubmitError) {
    BodyReadable(e) && e.response.value.data.value.errors.Some?
  }

  /** `errors[0]`: `undefined` when the list is empty. */
  function FirstListed(errors: seq<string>): Option<string> {
    if |errors| > 0 then Some(errors[0]) else None
  }

  /** Index `i` holds the first truthy candidate. */
  ghost predicate IsFirstTruthy(candidates: seq<Option<string>>, i: int) {
    0 <= i < |candidates| && Truthy(candidates[i]) &&
    forall j | 0 <= j < i :: !Truthy(candidates[j])
  }

  /**
   * Reference meaning of a JavaScript `c0 || c1 || ... || fallback` chain over strings:
   * the first truthy candidate, or the fallback when there is none.
   */
  function FirstTruthy(candidates: seq<Option<string>>, fallback: string): (r: string)
    ensures (forall i | 0 <= i < |candidates| :: !Truthy(candidates[i])) ==> r == fallback
    ensures forall i | IsFirstTruthy(candidates, i) :: r == candidates[i].value
    decreases |candidates|
  {
    if |candidates| == 0 then fallback
    else if Truthy(candidates[0]) then candidates[0].value
    else
      var rest := candidates[1..];
      assert forall i | IsFirstTruthy(candidates, i) :: IsFirstTruthy(rest, i - 1) && rest[i - 1] == candidates[i];
      FirstTruthy(rest, fallback)
  }

  /** The candidates of the unclassified branch, in the order the `||` chain tries them. */
  function UnclassifiedCandidates(e: SubmitError): seq<Option<string>>
    requires ErrorsReadable(e)
  {
    var data := e.response.value.data.value;
    [FirstListed(data.errors.value), data.message, e.message, e.error]
  }

  /**
   * The chain shared by the approve handler and both signup pages: a 400/500 response shows
   * the server message or "Internal Server Error"; any other failure shows the first truthy
   * of `errors[0]`, the server message, `error.message`, `error.error`, then "An error occurred".
   * The unclassified branch reads `error.response.data.errors[0]` without a guard.
   */
  function FailureNotice(e: SubmitError): (n: Notice)
    ensures n.Throws? <==> if IsServerRejection(e) then !BodyReadable(e) else !ErrorsReadable(e)
    ensures !n.WholeError?
    ensures n.Text? ==> n.text != ""
  {
    if IsServerRejection(e) then
      if !BodyReadable(e) then Throws
      else
        var data := e.response.value.data.value;
        Text(if Truthy(data.message) then data.message.value else InternalServerError)
    else if !ErrorsReadable(e) then Throws
    else
      var data := e.response.value.data.value;
      var first := FirstListed(data.errors.value);
      if Truthy(first) then Text(first.value)
      else if Truthy(data.message) then Text(data.message.value)
      else if Truthy(e.message) then Text(e.message.value)
      else if Truthy(e.error) then Text(e.error.value)
      else Text(GenericFailure)
  }

  /**
   * The decline handler's chain: as `FailureNotice`, except that `error` itself stands
   * between `error.message` and `error.error`. The error object is always truthy, so once
   * the first three candidates are falsy the object itself is what the notification gets.
   */
  function DeclineFailureNotice(e: SubmitError): (n: Notice)
    ensures n.Throws? <==> FailureNotice(e).Throws?
    ensures n.Text? ==> n.text != ""
  {
    if IsServerRejection(e) then
      if !BodyReadable(e) then Throws
      else
        var data := e.response.value.data.value;
        Text(if Truthy(data.message) then data.message.value else InternalServerError)
    else if !ErrorsReadable(e) then Throws
    else
      var data := e.response.value.data.value;
      var first := FirstListed(data.errors.value);
      if Truthy(first) then Text(first.value)
      else if Truthy(data.message) then Text(data.message.value)
      else if Truthy(e.message) then Text(e.message.value)
      else WholeError
  }

  /** A 400/500 rejection with a readable body shows the server message, else the fixed text. */
  lemma ServerRejectionShowsServerMessage(e: SubmitError)
    requires IsServerRejection(e) && BodyReadable(e)
    ensures FailureNotice(e) == DeclineFailureNotice(e)
    ensures FailureNotice(e) == Text(FirstTruthy([e.response.value.data.value.message], InternalServerError))
  {
    var c := [e.response.value.data.value.message];
    if Truthy(c[0]) {
      assert IsFirstTruthy(c, 0);
    }
  }

  /** Any other failure with a readable body shows the first truthy of the four candidates. */
  lemma UnclassifiedFollowsFallbackChain(e: SubmitError)
    requires !IsServerRejection(e) && ErrorsReadable(e)
    ensures FailureNotice(e) == Text(FirstTruthy(UnclassifiedCandidates(e), GenericFailure))
  {
    var c := UnclassifiedCandidates(e);
    if Truthy(c[0]) {
      assert IsFirstTruthy(c, 0);
    } else if Truthy(c[1]) {
      assert IsFirstTruthy(c, 1);
    } else if Truthy(c[2]) {
      assert IsFirstTruthy(c, 2);
    } else if Truthy(c[3]) {
      assert IsFirstTruthy(c, 3);
    }
  }

  /**
   * The decline chain differs from the shared one exactly when an unclassified failure has
   * no truthy `errors[0]`, server message or `error.message`: then it hands over the error
   * object, and `error.error` and "An error occurred" are never reached.
   */
  lemma DeclineDiffersOnlyAtErrorObject(e: SubmitError)
    ensures DeclineFailureNotice(e) != FailureNotice(e) <==>
              !IsServerRejection(e) && ErrorsReadable(e) &&
              forall i | 0 <= i < 3 :: !Truthy(UnclassifiedCandidates(e)[i])
    ensures DeclineFailureNotice(e) != FailureNotice(e) ==> DeclineFailureNotice(e) == WholeError
  {
    if !IsServerRejection(e) && ErrorsReadable(e) {
      var c := UnclassifiedCandidates(e);
      if !Truthy(c[0]) && !Truthy(c[1]) && !Truthy(c[2]) {
        assert forall i | 0 <= i < 3 :: !Truthy(c[i]);
      }
    }
  }

  /** A failure that carries no response at all makes the handler throw instead of notifying. */
  lemma NoResponseThrows(e: SubmitError)
    requires e.response.None?
    ensures FailureNotice(e) == Throws && DeclineFailureNotice(e) == Throws
  {
  }
}
