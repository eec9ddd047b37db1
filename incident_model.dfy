/** The incident schema: field list, required fields, the status and
    priority enumerations with their defaults, and the validation a document
    undergoes when it is saved. */
module IncidentModel {
  import opened Js

  /** An incident document. String fields may be absent; `files` is a list
      of strings that defaults to empty. Creation timestamps are not part of
      this model. */
  datatype Incident = Incident(
    title: Field,
    description: Field,
    status: Field,
    office: Field,
    name: Field,
    email: Field,
    files: seq<string>,
    priority: Field)

  const StatusValues: seq<string> := ["Pending", "Resolved"]
  const DefaultStatus: string := "Pending"
  const PriorityValues: seq<string> := ["Alta", "Media", "Baja"]
  const DefaultPriority: string := "Media"

  /** Defaults are filled in for fields the document was built without. */
  function WithDefaults(d: Incident): (r: Incident)
    ensures r.status == (if d.status.None? then Some(DefaultStatus) else d.status)
    ensures r.priority == (if d.priority.None? then Some(DefaultPriority) else d.priority)
    ensures r.(status := d.status, priority := d.priority) == d
  {
    d.(status := if d.status.None? then Some(DefaultStatus) else d.status,
       priority := if d.priority.None? then Some(DefaultPriority) else d.priority)
  }

  /** A required string fails on an absent or empty value. */
  predicate RequiredOk(f: Field) {
    Truthy(f)
  }

  /** An enumerated string passes when absent or one of the listed values. */
  predicate EnumOk(f: Field, values: seq<string>) {
    f.None? || f.value in values
  }

  function RequiredMessage(path: string): string {
    "Path `" + path + "` is required."
  }

  function EnumMessage(value: string, path: string): string {
    "`" + value + "` is not a valid enum value for path `" + path + "`."
  }

  /** The validator errors of a document, keyed by path. */
  function ValidationFailures(d: Incident): (errs: map<string, string>)
    ensures "title" in errs <==> !RequiredOk(d.title)
    ensures "description" in errs <==> !RequiredOk(d.description)
    ensures "office" in errs <==> !RequiredOk(d.office)
    ensures "name" in errs <==> !RequiredOk(d.name)
    ensures "email" in errs <==> !RequiredOk(d.email)
    ensures "status" in errs <==> !EnumOk(d.status, StatusValues)
    ensures "priority" in errs <==> !EnumOk(d.priority, PriorityValues)
    ensures errs.Keys <= {"title", "description", "office", "name", "email", "status", "priority"}
    ensures "title" in errs ==> errs["title"] == "The title is required"
    ensures "description" in errs ==> errs["description"] == "The description is required"
  {
    var m0: map<string, string> := map[];
    var m1 := if RequiredOk(d.title) then m0 else m0["title" := "The title is required"];
    var m2 := if RequiredOk(d.description) then m1 else m1["description" := "The description is required"];
    var m3 := if EnumOk(d.status, StatusValues) then m2 else m2["status" := EnumMessage(d.status.value, "status")];
    var m4 := if RequiredOk(d.office) then m3 else m3["office" := RequiredMessage("office")];
    var m5 := if RequiredOk(d.name) then m4 else m4["name" := RequiredMessage("name")];
    var m6 := if RequiredOk(d.email) then m5 else m5["email" := RequiredMessage("email")];
    if EnumOk(d.priority, PriorityValues) then m6 else m6["priority" := EnumMessage(d.priority.value, "priority")]
  }

  /** A document the schema accepts. */
  predicate Valid(d: Incident) {
    && RequiredOk(d.title) && RequiredOk(d.description)
    && RequiredOk(d.office) && RequiredOk(d.name) && RequiredOk(d.email)
    && EnumOk(d.status, StatusValues) && EnumOk(d.priority, PriorityValues)
  }

  /** Saving succeeds exactly when there is no validator error. */
  lemma ValidIffNoFailures(d: Incident)
    ensures Valid(d) <==> ValidationFailures(d) == map[]
  {
    if !Valid(d) {
      assert ValidationFailures(d).Keys != {};
    }
  }

  /** A document built only from its strings, with status and priority left
      to their defaults, is valid exactly when all five required strings are
      non-empty; it then reads Pending with priority Media. */
  lemma DefaultedValidIff(d: Incident)
    requires d.status.None? && d.priority.None?
    ensures Valid(WithDefaults(d)) <==>
      Truthy(d.title) && Truthy(d.description) && Truthy(d.office) && Truthy(d.name) && Truthy(d.email)
    ensures WithDefaults(d).status == Some("Pending") && WithDefaults(d).priority == Some("Media")
  {
  }

  /** A status outside the schema's two values is refused on save. */
  lemma SpanishStatusRefused(d: Incident)
    requires d.status == Some("En Progreso") || d.status == Some("Pendiente") || d.status == Some("Resuelto")
    ensures !Valid(d)
    ensures "status" in ValidationFailures(d)
  {
    var s := d.status.value;
    assert s[0] != 'P' || s[1] != 'e' || |s| != 7;
  }
}
