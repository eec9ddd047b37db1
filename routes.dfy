/** The API router's tail: the fallback that turns every request no mounted
    router answered into a 404, and the error handler that maps error kinds
    to HTTP statuses and flattens the `errors` object into the JSON body. */
module Routes {
  import opened Js
  import opened Errors

  // ---------------------------------------------------------------------------
  // Mount points and the 404 fallback

  datatype Mount = UsersMount | IncidentsMount | SessionsMount

  function MountPath(m: Mount): string {
    match m
    case UsersMount => "/users"
    case IncidentsMount => "/incidents"
    case SessionsMount => "/sessions"
  }

  /** A router mounted at `prefix` sees `path` when the path is the prefix or
      continues it with a `/`; the comparison ignores case, as the router
      does by default. */
  predicate Under(path: string, prefix: string) {
    var p, q := ToLower(path), ToLower(prefix);
    p == q || StartsWith(p, q + "/")
  }

  /** The first mounted router, in mounting order, that sees `path`. */
  function MountFor(path: string): (m: Option<Mount>)
    ensures m.Some? ==> Under(path, MountPath(m.value))
    ensures m.None? <==> !Under(path, "/users") && !Under(path, "/incidents") && !Under(path, "/sessions")
  {
    if Under(path, "/users") then Some(UsersMount)
    else if Under(path, "/incidents") then Some(IncidentsMount)
    else if Under(path, "/sessions") then Some(SessionsMount)
    else None
  }

  const RouteNotFound: AppError := CreateError(404, "Route not found")

  /** The 404 fallback: a request reaches it when no router is mounted at
      its path, or when the mounted router had no route for it. */
  function Fallback(path: string, answeredByMount: bool): (e: Option<AppError>)
    ensures MountFor(path).None? ==> e == Some(RouteNotFound)
    ensures e.None? <==> MountFor(path).Some? && answeredByMount
  {
    if MountFor(path).Some? && answeredByMount then None else Some(RouteNotFound)
  }

  // ---------------------------------------------------------------------------
  // The error handler

  /** The classification chain: an identifier cast error becomes 404, a
      validation error 400, any other error without a status 500 keeping its
      message; an error with a status is left as it is. */
  function Normalize(e: AppError): (n: AppError)
    ensures HasStatus(n)
    ensures e.kind == CastErrorKind && Includes(e.message, "_id") ==> n == CreateError(404, "Resource not found")
    ensures !(e.kind == CastErrorKind && Includes(e.message, "_id")) && e.kind == ValidationErrorKind ==>
              n.message == e.message && n.errors == e.errors &&
              n.status == (if HasStatus(e) then e.status else Some(400))
    ensures !(e.kind == CastErrorKind && Includes(e.message, "_id")) && e.kind != ValidationErrorKind ==>
              n == (if HasStatus(e) then e else CreateError(500, e.message))
  {
    if e.kind == CastErrorKind && Includes(e.message, "_id") then CreateError(404, "Resource not found")
    else if e.kind == ValidationErrorKind then CreateErrorFrom(400, e)
    else if !HasStatus(e) then CreateError(500, e.message)
    else e
  }

  /** A flattened entry of the body's `errors` object. */
  datatype FlatEntry = Message(text: string) | Raw(entry: ErrorEntry)

  /** `error.errors[key]?.message || error.errors[key]` */
  function FlattenEntry(x: ErrorEntry): (f: FlatEntry)
    ensures f.Message? <==> x.ObjectEntry? && Truthy(x.message)
    ensures f.Message? ==> f.text == x.message.value
    ensures f.Raw? ==> f.entry == x
  {
    if x.ObjectEntry? && x.message.Some? && x.message.value != "" then Message(x.message.value) else Raw(x)
  }

  /** The JSON body the handler sends. */
  datatype ErrorBody = ErrorBody(message: string, errors: Option<map<string, FlatEntry>>)

  /** The reduce over `Object.keys(error.errors)`: one entry per key. */
  method FlattenErrors(errors: map<string, ErrorEntry>) returns (out: map<string, FlatEntry>)
    ensures out.Keys == errors.Keys
    ensures forall k :: k in errors ==> out[k] == FlattenEntry(errors[k])
  {
    out := map[];
    var keys := errors.Keys;
    while keys != {}
      invariant keys <= errors.Keys
      invariant out.Keys == errors.Keys - keys
      invariant forall k :: k in out ==> k in errors && out[k] == FlattenEntry(errors[k])
      decreases keys
    {
      var k :| k in keys;
      out := out[k := FlattenEntry(errors[k])];
      keys := keys - {k};
    }
  }

  /** The whole handler: classify, then send the status with a body that
      always has `message` and has `errors` exactly when the error does. */
  method HandleError(error: AppError) returns (status: int, body: ErrorBody)
    ensures status == Normalize(error).status.value && status != 0
    ensures body.message == Normalize(error).message
    ensures body.errors.Some? <==> Normalize(error).errors.Some?
    ensures body.errors.Some? ==>
              body.errors.value.Keys == Normalize(error).errors.value.Keys &&
              forall k :: k in body.errors.value ==> body.errors.value[k] == FlattenEntry(Normalize(error).errors.value[k])
  {
    var e := error;
    if e.kind == CastErrorKind && Includes(e.message, "_id") {
      e := CreateError(404, "Resource not found");
    } else if e.kind == ValidationErrorKind {
      e := CreateErrorFrom(400, e);
    } else if !HasStatus(e) {
      e := CreateError(500, e.message);
    }
    var data := ErrorBody(e.message, None);
    if e.errors.Some? {
      var flat := FlattenErrors(e.errors.value);
      data := data.(errors := Some(flat));
    }
    status, body := e.status.value, data;
  }

  // ---------------------------------------------------------------------------
  // Properties

  /** An identifier cast error is reported as a missing resource even when it
      also carries a status: the cast check comes first. */
  lemma CastBeforeEverything(e: AppError)
    requires e.kind == CastErrorKind && Includes(e.message, "_id")
    ensures Normalize(e).status == Some(404) && Normalize(e).message == "Resource not found"
    ensures Normalize(e).errors.None?
  {
  }

  /** A cast error on another path is not a 404: it becomes a 500 with its
      own message. */
  lemma CastOnOtherPath(m: string)
    requires !Includes(m, "_id")
    ensures Normalize(AppError(CastErrorKind, None, m, None)) == CreateError(500, m)
  {
  }

  /** Errors made by `createError` keep their status and message. */
  lemma ExplicitStatusKept(status: int, message: string)
    requires status != 0
    ensures Normalize(CreateError(status, message)) == CreateError(status, message)
  {
  }

  /** The cast error that an unreadable incident id produces is a 404. */
  lemma {:induction false} BadIdIsNotFound(value: string)
    ensures Normalize(CastError("_id", value, "Incident")) == CreateError(404, "Resource not found")
  {
    var msg := CastError("_id", value, "Incident").message;
    var prefix := "Cast to ObjectId failed for value \"" + value + "\" (type string) at path \"";
    assert msg == prefix + "_id" + "\" for model \"Incident\"";
    IncludesInside(prefix, "_id", "\" for model \"Incident\"");
  }

  lemma {:induction false} IncludesInside(a: string, t: string, b: string)
    ensures Includes(a + t + b, t)
    decreases |a|
  {
    if a == [] {
      assert (a + t + b)[..|t|] == t;
    } else {
      assert (a + t + b)[1..] == a[1..] + t + b;
      IncludesInside(a[1..], t, b);
    }
  }

  /** A path outside the three mounts is answered 404 "Route not found". */
  lemma UnknownPathIsNotFound(path: string, answered: bool)
    requires MountFor(path).None?
    ensures Fallback(path, answered) == Some(RouteNotFound)
    ensures Normalize(RouteNotFound) == RouteNotFound
  {
  }
}
