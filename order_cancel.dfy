/** The result decision of `cancelOrderFDK`: what it returns once the host's
    template call for `cancelOrder` has either returned a response or
    thrown. JSON parsing is abstracted to its outcome. */
module OrderCancel {
  import opened Wrappers
  import opened JsText

  /** The nested `error` object of a vendor error body. */
  datatype ErrorField = ErrorField(message: Option<string>)

  /** A parsed vendor error body: optional top-level `message` and optional
      `error.message`. Any other JSON value that is not `null` (a number, a
      string, an object without these keys) reads as `Body(None, None)`. */
  datatype Body = Body(message: Option<string>, error: Option<ErrorField>)

  /** What the host call did.
      - `Returned`: a response with its HTTP status, its status text and its
        body; `parsedBody` is `None` when the body is not JSON or is `null`
        (reading a property of `null` throws and lands in the same catch).
      - `Thrown`: the host rejected; `responseBody` is `None` when the error
        carries no (or an empty) `response`, `Some(None)` when it carries one
        that is not JSON or is `null`, `Some(Some(b))` when it parses to `b`;
        `errMessage` is the error's own `message`. */
  datatype HostOutcome =
    | Returned(status: nat, statusText: Option<string>, parsedBody: Option<Body>)
    | Thrown(responseBody: Option<Option<Body>>, errMessage: Option<string>)

  /** `{success: true}` or `{success: false, message}`. */
  datatype CancelResult = Success | Failure(message: string)

  const SuccessStatuses: set<nat> := {200, 204}
  const ApiPrefix := "API: "
  const ThrownPrefix := "Error  al cancelar la orden: "
  const HttpPrefix := "Error HTTP "
  const UnknownStatusText := "Error desconocido"
  const UnknownCancelError := "Error desconocido al cancelar la orden."

  /** `body.error.message`, missing when `error` is. */
  function ErrorMessageOf(b: Body): (m: Option<string>)
    ensures b.error.None? ==> m.None?
    ensures b.error.Some? ==> m == b.error.value.message
  {
    match b.error
    case None => None
    case Some(e) => e.message
  }

  /** `` `Error HTTP ${status}: ${statusText || 'Error desconocido'}` ``:
      the status digits (`HttpFallbackShowsStatus`), then ": " and the
      status text, or "Error desconocido" when there is none. */
  function HttpFallback(status: nat, statusText: Option<string>): (m: string)
    ensures |m| > |HttpPrefix| && m[..|HttpPrefix|] == HttpPrefix
    ensures var tail := ": " + Or(statusText, UnknownStatusText);
      |m| >= |tail| && m[|m| - |tail|..] == tail
  {
    var m := HttpPrefix + Decimal(status) + ": " + Or(statusText, UnknownStatusText);
    assert m[..|HttpPrefix|] == HttpPrefix;
    m
  }

  /** The message of a non-success response: `error.message` first, then
      `message`, then the HTTP fallback. */
  function ReturnedMessage(status: nat, statusText: Option<string>, parsed: Option<Body>): (m: string)
    ensures m != ""
    ensures parsed.Some? && Truthy(ErrorMessageOf(parsed.value)) ==>
      m == ErrorMessageOf(parsed.value).value
    ensures parsed.Some? && !Truthy(ErrorMessageOf(parsed.value)) && Truthy(parsed.value.message) ==>
      m == parsed.value.message.value
    ensures parsed.None? || (!Truthy(ErrorMessageOf(parsed.value)) && !Truthy(parsed.value.message)) ==>
      m == HttpFallback(status, statusText)
  {
    var fallback := HttpFallback(status, statusText);
    match parsed
    case None => fallback
    case Some(b) =>
      if Truthy(ErrorMessageOf(b)) then ErrorMessageOf(b).value
      else if Truthy(b.message) then b.message.value
      else fallback
  }

  /** The message of a thrown call. With a parsed body: top-level `message`
      first, then `error.message`, then the literal (the error's own message
      is not consulted). With no body, or one that does not parse or is
      `null`: the error's own message, then the literal. */
  function ThrownMessage(responseBody: Option<Option<Body>>, errMessage: Option<string>): (m: string)
    ensures m != ""
    ensures responseBody.Some? && responseBody.value.Some? ==>
      var b := responseBody.value.value;
      && (Truthy(b.message) ==> m == b.message.value)
      && (!Truthy(b.message) && Truthy(ErrorMessageOf(b)) ==> m == ErrorMessageOf(b).value)
      && (!Truthy(b.message) && !Truthy(ErrorMessageOf(b)) ==> m == UnknownCancelError)
    ensures responseBody.None? || responseBody.value.None? ==>
      m == Or(errMessage, UnknownCancelError)
  {
    match responseBody
    case None => Or(errMessage, UnknownCancelError)
    case Some(None) => Or(errMessage, UnknownCancelError)
    case Some(Some(b)) =>
      if Truthy(b.message) then b.message.value
      else if Truthy(ErrorMessageOf(b)) then ErrorMessageOf(b).value
      else UnknownCancelError
  }

  /** What `cancelOrderFDK` resolves to. It never throws: every outcome is
      one of the two result shapes. */
  function CancelDecision(o: HostOutcome): (r: CancelResult)
    ensures r.Success? <==> o.Returned? && o.status in SuccessStatuses
    ensures o.Returned? && o.status !in SuccessStatuses ==>
      r == Failure(ApiPrefix + ReturnedMessage(o.status, o.statusText, o.parsedBody))
    ensures o.Thrown? ==>
      r == Failure(ThrownPrefix + ThrownMessage(o.responseBody, o.errMessage))
  {
    match o
    case Returned(status, statusText, parsed) =>
      if status == 200 || status == 204 then Success
      else Failure(ApiPrefix + ReturnedMessage(status, statusText, parsed))
    case Thrown(responseBody, errMessage) =>
      Failure(ThrownPrefix + ThrownMessage(responseBody, errMessage))
  }

  /** A failure always carries a message with something after its prefix,
      so the caller's own fallback text is never shown. */
  lemma FailureMessageNonEmpty(o: HostOutcome)
    requires CancelDecision(o).Failure?
    ensures var m := CancelDecision(o).message;
      (|m| > |ApiPrefix| && m[..|ApiPrefix|] == ApiPrefix) ||
      (|m| > |ThrownPrefix| && m[..|ThrownPrefix|] == ThrownPrefix)
  {
  }

  /** The two branches read the two message fields in opposite orders: a
      body carrying both gives `error.message` when it comes with a
      response and `message` when it comes with a thrown error. */
  lemma OppositePriorities(b: Body, status: nat, statusText: Option<string>, errMessage: Option<string>)
    requires status !in SuccessStatuses
    requires Truthy(b.message) && Truthy(ErrorMessageOf(b))
    ensures CancelDecision(Returned(status, statusText, Some(b))) == Failure(ApiPrefix + ErrorMessageOf(b).value)
    ensures CancelDecision(Thrown(Some(Some(b)), errMessage)) == Failure(ThrownPrefix + b.message.value)
  {
  }

  /** A body that does not parse and a response without a body lead to the
      same message in the thrown branch. */
  lemma UnparsableBodyLikeNoBody(errMessage: Option<string>)
    ensures CancelDecision(Thrown(Some(None), errMessage)) == CancelDecision(Thrown(None, errMessage))
  {
  }

  /** The status number in the HTTP fallback reads back as the status. */
  lemma HttpFallbackShowsStatus(status: nat, statusText: Option<string>)
    ensures var m := HttpFallback(status, statusText);
      var digits := m[|HttpPrefix|..|HttpPrefix| + |Decimal(status)|];
      (forall i :: 0 <= i < |digits| ==> IsDigit(digits[i])) && DecimalValue(digits) == status
  {
    var m := HttpFallback(status, statusText);
    assert m[|HttpPrefix|..|HttpPrefix| + |Decimal(status)|] == Decimal(status);
    DecimalRoundTrip(status);
  }
}
