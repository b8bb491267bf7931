/**
 * Thrown errors and the JSON error replies the route handlers build from them.
 * Two mappings from an error to an HTTP status exist in the routes: the plain
 * `error.status || 500`, and the "auth-aware" one that first answers 401 when
 * the message mentions "Unauthorized", "JWT" or "Expired".
 */
module Errors {
  import opened Common
  import opened Text

  /** A thrown error: its `message` and its optional numeric `status`. */
  datatype Error = Error(message: string, status: Option<int>)

  /** What `assertAdmin` throws when the session cookie is missing or empty. */
  const NoSession: Error := Error("Unauthorized: No session found", None)

  /** What `assertAdmin` throws when the session user is not in the admin set. */
  const NotAdmin: Error := Error("Forbidden: Not an admin", None)

  /**
   * What the document store throws for an update or delete of an unknown
   * document id. The store client puts the HTTP code in `code`, not in
   * `status`, so the routes see no status.
   */
  const DocumentNotFound: Error := Error(NotFoundMessage, None)

  /** The store's not-found message, written in pieces so that its letters can be inspected. */
  const NotFoundMessage: string := "Document with the " + "requested ID could" + " not be found."

  /** The reply of a route: a JSON body with status 200, or `{error}` with a status. */
  datatype Reply<+T> = Ok(body: T) | Refused(status: int, message: string)

  /** `error.status || 500`: a missing or zero status becomes 500. */
  function StatusOf(e: Error): (code: int)
    ensures code != 0
    ensures code != 500 ==> e.status == Some(code)
    ensures e.status.None? ==> code == 500
    ensures e.status.Some? && e.status.value != 0 ==> code == e.status.value
  {
    if e.status.Some? && e.status.value != 0 then e.status.value else 500
  }

  predicate AuthShaped(message: string)
  {
    Contains(message, "Unauthorized") || Contains(message, "JWT") || Contains(message, "Expired")
  }

  /** The status rule of the content and notification routes. */
  function AuthAwareStatus(e: Error): (code: int)
    ensures AuthShaped(e.message) ==> code == 401
    ensures !AuthShaped(e.message) ==> code == StatusOf(e)
    ensures code == 401 <==> AuthShaped(e.message) || e.status == Some(401)
  {
    if AuthShaped(e.message) then 401 else StatusOf(e)
  }

  /**
   * The failure `Promise.all` reports for `n` writes issued together, `faults(i)`
   * being the outcome of the i-th: that of the lowest-numbered failing write.
   */
  function FirstFault(faults: nat -> Option<Error>, n: nat): (r: Option<Error>)
    ensures r.None? <==> forall i :: 0 <= i < n ==> faults(i).None?
  {
    if n == 0 then None
    else match FirstFault(faults, n - 1)
      case Some(e) => Some(e)
      case None => faults(n - 1)
  }

  /** The reported failure is that of a write all of whose predecessors succeeded. */
  lemma {:induction false} FirstFaultIsFirst(faults: nat -> Option<Error>, n: nat)
    requires FirstFault(faults, n).Some?
    ensures exists i :: 0 <= i < n && faults(i) == FirstFault(faults, n) && forall j :: 0 <= j < i ==> faults(j).None?
    decreases n
  {
    if FirstFault(faults, n - 1).Some? {
      FirstFaultIsFirst(faults, n - 1);
    } else {
      assert faults(n - 1) == FirstFault(faults, n);
    }
  }

  /** The error reply of routes that use `error.status || 500`. */
  function Fail<T>(e: Error): (r: Reply<T>)
    ensures r.Refused? && r.message == e.message && r.status == StatusOf(e)
  {
    Refused(StatusOf(e), e.message)
  }

  /** The error reply of routes that use the auth-aware status rule. */
  function FailAuthAware<T>(e: Error): (r: Reply<T>)
    ensures r.Refused? && r.message == e.message && r.status == AuthAwareStatus(e)
  {
    Refused(AuthAwareStatus(e), e.message)
  }

  /**
   * A missing session surfaces as 401 only on the auth-aware routes; on the
   * others, which use `error.status || 500`, it surfaces as 500.
   */
  lemma NoSessionStatuses()
    ensures AuthAwareStatus(NoSession) == 401
    ensures StatusOf(NoSession) == 500
  {
    assert StartsWith(NoSession.message, "Unauthorized");
  }

  /** "Forbidden: Not an admin" carries no status, so every route answers it with 500, never 403. */
  lemma {:induction false} NotAdminStatuses()
    ensures AuthAwareStatus(NotAdmin) == 500
    ensures StatusOf(NotAdmin) == 500
  {
    var m := NotAdmin.message;
    assert m[0] == 'F' && m[1] == 'o' && m[2] == 'r';
    assert forall i :: 0 <= i < |m| ==> m[i] != 'U' && m[i] != 'J' && m[i] != 'E';
    NotContainsByFirstChar(m, "Unauthorized");
    NotContainsByFirstChar(m, "JWT");
    NotContainsByFirstChar(m, "Expired");
  }

  /**
   * The store's error for an unknown document id has no `status`, so both
   * status rules answer it with 500, never 404.
   */
  lemma DocumentNotFoundStatuses()
    ensures AuthAwareStatus(DocumentNotFound) == 500
    ensures StatusOf(DocumentNotFound) == 500
  {
    NotFoundMessageLetters();
    var m := DocumentNotFound.message;
    NotContainsByFirstChar(m, "Unauthorized");
    NotContainsByFirstChar(m, "JWT");
    NotContainsByFirstChar(m, "Expired");
  }

  /** None of the first letters of the auth-shaped words occurs in the not-found message. */
  lemma NotFoundMessageLetters()
    ensures 'U' !in NotFoundMessage && 'J' !in NotFoundMessage && 'E' !in NotFoundMessage
  {
    PieceLetters("Document with the ");
    PieceLetters("requested ID could");
    PieceLetters(" not be found.");
  }

  lemma PieceLetters(p: string)
    requires forall i :: 0 <= i < |p| ==> p[i] != 'U' && p[i] != 'J' && p[i] != 'E'
    ensures 'U' !in p && 'J' !in p && 'E' !in p
  {
  }
}
