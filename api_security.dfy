/**
 * The API security middleware: the HTTPS guard run before every controller
 * action, and the mapping from an exception escaping an API controller to the
 * (id, message, HTTP status) triple of the JSON error reply.
 */
module ApiSecurity {
  import opened Common

  const PageControllerClass: string := "OCA\\Passwords\\Controller\\PageController"
  /** Exactly 28 characters: the namespace prefix of the API controllers. */
  const ApiControllerPrefix: string := "OCA\\Passwords\\Controller\\Api"
  const DoesNotExistClass: string := "OCP\\AppFramework\\Db\\DoesNotExistException"

  const DefaultId: int := 0
  const DefaultMessage: string := "Unable to complete request"
  const StatusServiceUnavailable: int := 503
  const StatusNotFound: int := 404

  /** What an `ApiException` carries. */
  datatype ApiError = ApiError(id: int, message: string, httpCode: int)

  /** An exception caught by the framework: its run-time class name and, when
      that class is `ApiException` or one of its subclasses, its payload. */
  datatype Thrown = Thrown(className: string, api: Option<ApiError>)

  /** Outcome of the guard: let the request through, or throw
      `ApiException(message, httpCode)`. */
  datatype Guard = Proceed | Reject(message: string, httpCode: int)

  /** The JSON error reply: its body fields and its HTTP status. */
  datatype ErrorReply = ErrorReply(status: string, id: int, message: string, httpStatus: int)

  /** `beforeController`: every controller except the page controller demands HTTPS. */
  function BeforeController(controllerClass: string, protocol: string): (g: Guard)
    ensures g.Reject? <==> controllerClass != PageControllerClass && protocol != "https"
    ensures g.Reject? ==> g == Reject("HTTPS required", 400)
  {
    if controllerClass != PageControllerClass && protocol != "https" then Reject("HTTPS required", 400)
    else Proceed
  }

  /** PHP `substr(s, 0, 28)`. */
  function Head28(s: string): string {
    if |s| <= 28 then s else s[..28]
  }

  /** `afterException`: no reply for controllers outside the API namespace;
      otherwise defaults, overridden by an `ApiException`'s own payload,
      overridden in turn by exactly `DoesNotExistException`. */
  function AfterException(controllerClass: string, e: Thrown): (r: Option<ErrorReply>)
    ensures r.None? <==> !(ApiControllerPrefix <= controllerClass)
    ensures r.Some? ==> r.value.status == "error"
    ensures r.Some? && e.className == DoesNotExistClass ==>
              r.value == ErrorReply("error", 404, "Resource not found", StatusNotFound)
    ensures r.Some? && e.className != DoesNotExistClass && e.api.Some? ==>
              r.value == ErrorReply("error", e.api.value.id, e.api.value.message, e.api.value.httpCode)
    ensures r.Some? && e.className != DoesNotExistClass && e.api.None? ==>
              r.value == ErrorReply("error", DefaultId, DefaultMessage, StatusServiceUnavailable)
  {
    if Head28(controllerClass) != ApiControllerPrefix then None
    else
      var id0, message0, status0 := DefaultId, DefaultMessage, StatusServiceUnavailable;
      var id1, message1, status1 :=
        if e.api.Some? then e.api.value.id else id0,
        if e.api.Some? then e.api.value.message else message0,
        if e.api.Some? then e.api.value.httpCode else status0;
      var id2, message2, status2 :=
        if e.className == DoesNotExistClass then 404 else id1,
        if e.className == DoesNotExistClass then "Resource not found" else message1,
        if e.className == DoesNotExistClass then 404 else status1;
      Some(ErrorReply("error", id2, message2, status2))
  }

  /** The namespace test is a prefix test, so it also admits any class whose
      name merely starts with "Api" in that namespace, and rejects any name
      shorter than the prefix. */
  lemma {:induction false} PrefixTestAdmitsLongerNames(suffix: string, e: Thrown)
    ensures AfterException(ApiControllerPrefix + suffix, e).Some?
    ensures |ApiControllerPrefix| == 28
  {
    assert ApiControllerPrefix <= ApiControllerPrefix + suffix;
  }
}
