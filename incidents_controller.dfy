/** The incident handlers over an abstract store of documents keyed by id:
    list, create, detail, partial update and delete. */
module IncidentsController {
  import opened Js
  import opened Errors
  import opened IncidentModel

  type Id = nat

  /** The JSON bodies the handlers send. */
  datatype Body =
    | All(incidents: map<Id, Incident>)
    | Created(message: string, incident: Incident, id: Id)
    | One(incident: Incident)
    | Updated(message: string, incident: Incident)
    | Done(message: string)

  /** The member names of a stored document as JSON: its id, Mongoose's
      version key, its timestamps, its files array and whichever schema
      paths it holds. */
  function DocumentMembers(d: Incident): (names: set<string>)
    ensures "incident" !in names
    ensures "title" in names <==> d.title.Some?
  {
    {"_id", "__v", "files", "creationDate", "createdAt", "updatedAt"} +
    Present("title", d.title) + Present("description", d.description) + Present("status", d.status) +
    Present("office", d.office) + Present("name", d.name) + Present("email", d.email) +
    Present("priority", d.priority)
  }

  /** The member names of the JSON object a body is sent as. `getAll` sends
      an array, which has no named members; `getDetail` sends the document
      itself, so its body has no `incident` member. */
  function ReplyMembers(b: Body): (names: set<string>)
    ensures b.One? ==> "incident" !in names && names == DocumentMembers(b.incident)
    ensures b.Created? ==> names == {"message", "incident", "id"}
    ensures b.Updated? ==> names == {"message", "incident"}
    ensures b.Done? ==> names == {"message"}
  {
    match b
    case All(_) => {}
    case Created(_, _, _) => {"message", "incident", "id"}
    case One(d) => DocumentMembers(d)
    case Updated(_, _) => {"message", "incident"}
    case Done(_) => {"message"}
  }

  /** The request body of a create: the client's fields, of which the
      handler reads only the first two. */
  datatype CreateBody = CreateBody(
    title: Field, description: Field,
    office: Field, name: Field, email: Field, priority: Field, status: Field)

  /** The request body of an update. */
  datatype UpdateBody = UpdateBody(title: Field, description: Field, status: Field)

  /** The caller's identity as the session supplies it. */
  datatype Identity = Identity(name: Field, email: Field, office: Field)

  const MissingFields: AppError := CreateError(400, "Title and description are required")
  const IncidentNotFound: AppError := CreateError(404, "Incident not found")

  /** `new Incident({ title, description })` with the schema's defaults. */
  function DraftAsWritten(body: CreateBody): (d: Incident)
    ensures d.title == body.title && d.description == body.description
    ensures d.office.None? && d.name.None? && d.email.None? && d.files == []
  {
    WithDefaults(Incident(body.title, body.description, None, None, None, None, [], None))
  }

  /** The document the create handler is evidently meant to build: the
      creator's office, name and email come from the session identity. */
  function DraftForCaller(body: CreateBody, caller: Identity): (d: Incident)
    ensures d.title == body.title && d.description == body.description
    ensures d.office == caller.office && d.name == caller.name && d.email == caller.email
    ensures d.status == Some(DefaultStatus) && d.priority == Some(DefaultPriority) && d.files == []
  {
    WithDefaults(Incident(body.title, body.description, None, caller.office, caller.name, caller.email, [], None))
  }

  /** Overwrite title, description and status with those present and
      non-empty in the body; everything else is kept. */
  function Patch(d: Incident, body: UpdateBody): (r: Incident)
    ensures r.title == (if Truthy(body.title) then body.title else d.title)
    ensures r.description == (if Truthy(body.description) then body.description else d.description)
    ensures r.status == (if Truthy(body.status) then body.status else d.status)
    ensures r.office == d.office && r.name == d.name && r.email == d.email
    ensures r.files == d.files && r.priority == d.priority
  {
    d.(title := if Truthy(body.title) then body.title else d.title,
       description := if Truthy(body.description) then body.description else d.description,
       status := if Truthy(body.status) then body.status else d.status)
  }

  class IncidentStore {
    var incidents: map<Id, Incident>
    var nextId: Id

    /** Every stored id was handed out before. */
    ghost predicate Consistent()
      reads this
    {
      forall id :: id in incidents ==> id < nextId
    }

    constructor ()
      ensures Consistent() && incidents == map[]
    {
      incidents := map[];
      nextId := 0;
    }

    /** `getAll`: every stored incident, with no filtering by caller. */
    function GetAll(): (r: Outcome<Body>)
      reads this
      ensures r.Respond? && r.code == 200 && r.body == All(incidents)
    {
      Respond(200, All(incidents))
    }

    /** `getDetail` */
    function GetDetail(id: Id): (r: Outcome<Body>)
      reads this
      ensures id !in incidents ==> r == Forward(IncidentNotFound)
      ensures id in incidents ==> r == Respond(200, One(incidents[id]))
    {
      if id in incidents then Respond(200, One(incidents[id])) else Forward(IncidentNotFound)
    }

    /** Saving a new document: the schema's validation, then insertion under
        a fresh id. */
    method Save(d: Incident) returns (r: Outcome<Body>)
      requires Consistent()
      modifies this
      ensures Consistent()
      ensures !Valid(d) ==> r == Forward(ValidationError("Incident", ValidationFailures(d))) && incidents == old(incidents) && nextId == old(nextId)
      ensures Valid(d) ==>
        old(nextId) !in old(incidents) && incidents == old(incidents)[old(nextId) := d] &&
        r == Respond(201, Created("Incident created successfully", d, old(nextId)))
    {
      var failures := ValidationFailures(d);
      ValidIffNoFailures(d);
      if failures != map[] {
        return Forward(ValidationError("Incident", failures));
      }
      var id := nextId;
      incidents := incidents[id := d];
      nextId := nextId + 1;
      r := Respond(201, Created("Incident created successfully", d, id));
    }

    /** `create` as written: only title and description are forwarded, so
        the store never changes. */
    method Create(body: CreateBody) returns (r: Outcome<Body>)
      requires Consistent()
      modifies this
      ensures Consistent() && incidents == old(incidents)
      ensures !Truthy(body.title) || !Truthy(body.description) ==> r == Forward(MissingFields)
      ensures Truthy(body.title) && Truthy(body.description) ==>
        r == Forward(ValidationError("Incident", ValidationFailures(DraftAsWritten(body))))
    {
      if !Truthy(body.title) || !Truthy(body.description) {
        return Forward(MissingFields);
      }
      var d := DraftAsWritten(body);
      r := Save(d);
    }

    /** `create` with the creator's identity filled in from the session. */
    method CreateForCaller(body: CreateBody, caller: Identity) returns (r: Outcome<Body>)
      requires Consistent()
      modifies this
      ensures Consistent()
      ensures !Truthy(body.title) || !Truthy(body.description) ==> r == Forward(MissingFields) && incidents == old(incidents)
      ensures Truthy(body.title) && Truthy(body.description) && Truthy(caller.office) && Truthy(caller.name) && Truthy(caller.email) ==>
        incidents == old(incidents)[old(nextId) := DraftForCaller(body, caller)] && old(nextId) !in old(incidents) &&
        r == Respond(201, Created("Incident created successfully", DraftForCaller(body, caller), old(nextId)))
    {
      if !Truthy(body.title) || !Truthy(body.description) {
        return Forward(MissingFields);
      }
      var d := DraftForCaller(body, caller);
      r := Save(d);
    }

    /** `update`: the patch is applied without re-validating the document,
        and the updated document is returned. */
    method Update(id: Id, body: UpdateBody) returns (r: Outcome<Body>)
      requires Consistent()
      modifies this
      ensures Consistent() && nextId == old(nextId)
      ensures id !in old(incidents) ==> r == Forward(IncidentNotFound) && incidents == old(incidents)
      ensures id in old(incidents) ==>
        incidents == old(incidents)[id := Patch(old(incidents)[id], body)] &&
        r == Respond(200, Updated("Incident updated successfully", incidents[id]))
    {
      if id !in incidents {
        return Forward(IncidentNotFound);
      }
      var updated := Patch(incidents[id], body);
      incidents := incidents[id := updated];
      r := Respond(200, Updated("Incident updated successfully", updated));
    }

    /** `delete`: removes exactly the given id. */
    method Delete(id: Id) returns (r: Outcome<Body>)
      requires Consistent()
      modifies this
      ensures Consistent() && nextId == old(nextId)
      ensures id !in old(incidents) ==> r == Forward(IncidentNotFound) && incidents == old(incidents)
      ensures id in old(incidents) ==>
        incidents == old(incidents) - {id} && r == Respond(200, Done("Incident deleted successfully"))
    {
      if id !in incidents {
        return Forward(IncidentNotFound);
      }
      incidents := incidents - {id};
      r := Respond(200, Done("Incident deleted successfully"));
    }
  }

  // ---------------------------------------------------------------------------
  // Properties

  /** As written, create never builds a document the schema accepts: office,
      name and email are always missing. */
  lemma DraftAsWrittenNeverValid(body: CreateBody)
    ensures !Valid(DraftAsWritten(body))
    ensures ValidationFailures(DraftAsWritten(body)).Keys >= {"office", "name", "email"}
  {
  }

  /** With title and description present, the only failures are the three
      identity fields. */
  lemma DraftAsWrittenFailures(body: CreateBody)
    requires Truthy(body.title) && Truthy(body.description)
    ensures ValidationFailures(DraftAsWritten(body)) ==
      map["office" := RequiredMessage("office"), "name" := RequiredMessage("name"), "email" := RequiredMessage("email")]
  {
    var f := ValidationFailures(DraftAsWritten(body));
    assert f.Keys == {"office", "name", "email"};
  }

  /** Create reads only title and description: the other body fields do not
      affect the document. */
  lemma DraftIgnoresOtherFields(a: CreateBody, b: CreateBody)
    requires a.title == b.title && a.description == b.description
    ensures DraftAsWritten(a) == DraftAsWritten(b)
  {
  }

  /** The corrected create builds a valid document whenever the handler's
      own check passes and the caller's identity is complete. */
  lemma DraftForCallerValid(body: CreateBody, caller: Identity)
    requires Truthy(body.title) && Truthy(body.description)
    requires Truthy(caller.office) && Truthy(caller.name) && Truthy(caller.email)
    ensures Valid(DraftForCaller(body, caller))
  {
  }

  /** Patching twice with the same body is patching once. */
  lemma PatchIdempotent(d: Incident, body: UpdateBody)
    ensures Patch(Patch(d, body), body) == Patch(d, body)
  {
  }

  /** An update whose fields are all absent or empty changes nothing. */
  lemma EmptyPatchIsIdentity(d: Incident, body: UpdateBody)
    requires !Truthy(body.title) && !Truthy(body.description) && !Truthy(body.status)
    ensures Patch(d, body) == d
  {
  }

  /** Because the update is not re-validated, it can store a status outside
      the schema's enumeration: the client's "En Progreso" turns a valid
      document into one the schema would refuse. */
  lemma UpdateCanLeaveSchema(d: Incident)
    requires Valid(d)
    ensures !Valid(Patch(d, UpdateBody(None, None, Some("En Progreso"))))
  {
    SpanishStatusRefused(Patch(d, UpdateBody(None, None, Some("En Progreso"))));
  }

  /** A found document answers 200 with the bare document, whose JSON has
      no `incident` member; `update`'s body has one. */
  lemma DetailReplyHasNoIncidentMember(store: IncidentStore, id: Id)
    requires id in store.incidents
    ensures store.GetDetail(id).Respond? && store.GetDetail(id).code == 200
    ensures "incident" !in ReplyMembers(store.GetDetail(id).body)
    ensures "incident" in ReplyMembers(Updated("Incident updated successfully", store.incidents[id]))
  {
  }
}
