/** Requests followed from the client through the server's middleware,
    handlers and error handler, and back to the client's interceptor. */
module Pipeline {
  import opened Js
  import opened Errors
  import opened Routes
  import RoleGuard
  import Upload
  import IncidentModel
  import IncidentsController
  import UsersController
  import opened ApiClient
  import IncidentsPage
  import IncidentDetail

  /** What the server finally sends: a handler's own body, or the error
      handler's body. */
  datatype Reply<B> = Success(body: B) | Failure(error: ErrorBody)

  /** A handler's outcome turned into the status and body that go out: a
      forwarded error passes through the error handler. */
  method Serve<B>(o: Outcome<B>) returns (status: int, reply: Reply<B>)
    ensures o.Respond? ==> status == o.code && reply == Success(o.body)
    ensures o.Forward? ==> (status == Normalize(o.error).status.value && reply.Failure? &&
      reply.error.message == Normalize(o.error).message &&
      (reply.error.errors.Some? <==> Normalize(o.error).errors.Some?))
    ensures o.Forward? && reply.Failure? && reply.error.errors.Some? ==>
      reply.error.errors.value.Keys == Normalize(o.error).errors.value.Keys &&
      forall k :: k in reply.error.errors.value ==> reply.error.errors.value[k] == FlattenEntry(Normalize(o.error).errors.value[k])
  {
    match o
    case Respond(code, body) =>
      status, reply := code, Success(body);
    case Forward(e) =>
      var s, b := HandleError(e);
      status, reply := s, Failure(b);
  }

  // ---------------------------------------------------------------------------
  // Creating an incident as written

  /** The as-written create answers 400 whose `errors` name exactly the three
      identity fields, each with the schema's "required" message. */
  lemma CreateAsWrittenIsBadRequest(body: IncidentsController.CreateBody)
    requires Truthy(body.title) && Truthy(body.description)
    ensures var n := Normalize(ValidationError("Incident", IncidentModel.ValidationFailures(IncidentsController.DraftAsWritten(body))));
      n.status == Some(400) && n.message == "Incident validation failed" && n.errors.Some? &&
      n.errors.value.Keys == {"office", "name", "email"} &&
      forall k :: k in n.errors.value ==> FlattenEntry(n.errors.value[k]) == Message(IncidentModel.RequiredMessage(k))
  {
    IncidentsController.DraftAsWrittenFailures(body);
  }

  /** The same, through the store and the error handler: the client gets 400,
      nothing is stored, and its interceptor shows no notice for it. */
  method CreateAsWrittenEndToEnd(store: IncidentsController.IncidentStore, body: IncidentsController.CreateBody)
    returns (status: int, reply: Reply<IncidentsController.Body>)
    requires store.Consistent()
    requires Truthy(body.title) && Truthy(body.description)
    modifies store
    ensures store.incidents == old(store.incidents)
    ensures status == 400 && reply.Failure? && reply.error.errors.Some?
    ensures reply.error.errors.value.Keys == {"office", "name", "email"}
    ensures Classify(ApiError(Some(status))).None?
  {
    var o := store.Create(body);
    CreateAsWrittenIsBadRequest(body);
    status, reply := Serve(o);
  }

  // ---------------------------------------------------------------------------
  // Uploads, unknown routes, duplicate e-mails

  /** A file the filter refuses becomes a plain error, so the error handler
      answers 500 with the filter's message and the client shows its
      server-error notice. */
  lemma RejectedUploadIsServerError(originalName: string)
    requires Upload.Extension(originalName) !in Upload.AllowedExtensions
    ensures Upload.FileFilter(originalName).Reject?
    ensures Normalize(PlainError(Upload.FileFilter(originalName).message)) ==
      CreateError(500, "Tipo de archivo no permitido: " + Upload.Extension(originalName))
    ensures Classify(ApiError(Some(500))) == Some(ServerError)
  {
    var message := "Tipo de archivo no permitido: " + Upload.Extension(originalName);
    assert Upload.FileFilter(originalName) == Upload.Reject(message);
    var e := PlainError(message);
    assert e.kind == PlainErrorKind && !HasStatus(e) && e.message == message;
  }

  /** A path outside the three routers ends at the fallback, whose 404 the
      error handler keeps and the client reports as not found. */
  lemma UnknownRouteIsNotFound(path: string, answered: bool)
    requires MountFor(path).None?
    ensures Fallback(path, answered).Some?
    ensures Normalize(Fallback(path, answered).value) == CreateError(404, "Route not found")
    ensures Classify(ApiError(Some(404))) == Some(NotFound)
  {
    UnknownPathIsNotFound(path, answered);
  }

  /** Register turns the duplicate-key error into 400; the `create` handler
      forwards it unchanged, so the same e-mail clash answers 500 there. */
  lemma DuplicateEmailStatus()
    ensures Normalize(UsersController.EmailTaken) == CreateError(400, "El email ya está registrado")
    ensures Normalize(UsersController.DuplicateKey).status == Some(500)
  {
  }

  // ---------------------------------------------------------------------------
  // The status cell

  /** A plain user's click on a status cell is refused by the role guard; the
      error handler keeps its 403, which the client reports as a missing
      permission. */
  lemma UserStatusClickForbidden(i: ClientIncident)
    ensures RoleGuard.CheckUserRole("user", RoleGuard.UpdateBody(None, None, Some(IncidentsPage.StatusClick(i).status))) ==
      RoleGuard.Forbidden(403, RoleGuard.ForbiddenMessage)
    ensures Normalize(CreateError(403, RoleGuard.ForbiddenMessage)) == CreateError(403, RoleGuard.ForbiddenMessage)
    ensures Classify(ApiError(Some(403))) == Some(NoPermission)
  {
  }

  /** A technician's or admin's click passes the guard and stores "En
      Progreso", which the schema's enumeration does not contain. */
  lemma StaffStatusClickLeavesSchema(role: string, i: ClientIncident, d: IncidentModel.Incident)
    requires role == "admin" || role == "tecnico"
    requires IncidentModel.Valid(d)
    ensures RoleGuard.CheckUserRole(role, RoleGuard.UpdateBody(None, None, Some(IncidentsPage.StatusClick(i).status))) == RoleGuard.Next
    ensures IncidentsController.Patch(d, IncidentsController.UpdateBody(None, None, Some(IncidentsPage.StatusClick(i).status))).status ==
      Some("En Progreso")
    ensures !IncidentModel.Valid(IncidentsController.Patch(d, IncidentsController.UpdateBody(None, None, Some(IncidentsPage.StatusClick(i).status))))
  {
    IncidentsController.UpdateCanLeaveSchema(d);
  }

  /** A plain user can never save from the detail page: the edit buffer
      always carries a truthy status, either the incident's own or
      "Pendiente", so the payload trips the role guard even when only the
      title, the description or the priority was edited. */
  lemma UserDetailSaveForbidden(i: ClientIncident, name: string, value: string)
    requires name == "title" || name == "description" || name == "priority" ||
      (name == "status" && (value == "Pendiente" || value == "En Progreso" || value == "Resuelto"))
    ensures var p := IncidentDetail.MakePayload(IncidentDetail.EditCopy(i)[name := Some(value)], i);
      && {"title", "description", "status"} <= p.fields.Keys
      && RoleGuard.CheckUserRole("user", RoleGuard.UpdateBody(p.fields["title"], p.fields["description"], p.fields["status"])) ==
         RoleGuard.Forbidden(403, RoleGuard.ForbiddenMessage)
    ensures Classify(ApiError(Some(403))) == Some(NoPermission)
  {
    var b := IncidentDetail.EditCopy(i)[name := Some(value)];
    assert Truthy(b["status"]);
  }
}
