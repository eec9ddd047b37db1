/** The status-change guard placed before the incident update handler: a
    caller whose role is `user` may not set an incident's status. */
module RoleGuard {
  import opened Js

  /** The body fields of an incident update request. */
  datatype UpdateBody = UpdateBody(title: Field, description: Field, status: Field)

  /** What the guard does with the request: pass it on with `next()`, or
      forward a 403 error with `next(err)`. Exactly one of the two happens. */
  datatype GuardOutcome = Next | Forbidden(status: nat, message: string)

  const ForbiddenMessage: string := "No tienes permiso para cambiar el estado de la incidencia"

  function CheckUserRole(role: string, body: UpdateBody): (g: GuardOutcome)
    ensures g.Forbidden? <==> role == "user" && Truthy(body.status)
    ensures g.Forbidden? ==> g.status == 403 && g.message == ForbiddenMessage
  {
    if role == "user" && Truthy(body.status) then Forbidden(403, ForbiddenMessage)
    else Next
  }

  /** Administrators and technicians always pass, whatever the body holds. */
  lemma StaffAlwaysPass(role: string, body: UpdateBody)
    requires role == "admin" || role == "tecnico"
    ensures CheckUserRole(role, body) == Next
  {
  }

  /** Only the status is inspected: a `user` may change title and description,
      and changing those never changes the verdict. */
  lemma OnlyStatusInspected(role: string, a: UpdateBody, b: UpdateBody)
    requires a.status == b.status
    ensures CheckUserRole(role, a) == CheckUserRole(role, b)
  {
  }

  /** A `user` whose status field is absent or empty passes. */
  lemma UserWithoutStatusPasses(body: UpdateBody)
    requires !Truthy(body.status)
    ensures CheckUserRole("user", body) == Next
  {
  }
}
