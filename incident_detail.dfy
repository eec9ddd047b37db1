/** The incident detail page: the edit buffer and its toggle, the save
    payload, the upload and file-removal handlers with their guards, and the
    attachment names it displays. */
module IncidentDetail {
  import opened Js
  import opened ApiClient
  import IncidentsController

  /** The edit buffer: form field name to value (absent values stay absent). */
  type EditBuffer = map<string, Field>

  const SaveFailed: string := "Error al actualizar la incidencia. Por favor, intenta de nuevo más tarde."
  const UploadFailed: string := "Error al subir los archivos. Por favor, intenta de nuevo más tarde."
  const RemoveFailed: string := "Error al eliminar el archivo. Por favor, intenta de nuevo más tarde."
  const LoadFailed: string := "Error al cargar la incidencia. Por favor, intenta de nuevo más tarde."

  /** `response.data` of an incident handler's reply as the page receives
      it: the record itself, as `getDetail` sends it, or an object whose
      `incident` member holds the record, as `update` sends it. */
  datatype IncidentBody = Bare(record: ClientIncident) | Wrapped(message: string, incident: ClientIncident)

  /** `response.data.incident`: undefined unless the body has that member. */
  function IncidentMember(body: IncidentBody): (m: Option<ClientIncident>)
    ensures m.Some? <==> body.Wrapped?
    ensures body.Wrapped? ==> m == Some(body.incident)
  {
    match body
    case Bare(_) => None
    case Wrapped(_, i) => Some(i)
  }

  /** The body a server reply `b` arrives as, with `record` the page's
      reading of the document it carries; bodies that carry no single
      document are not incident replies. */
  function Received(b: IncidentsController.Body, record: ClientIncident): (r: Option<IncidentBody>)
    ensures r.Some? <==> b.One? || b.Updated?
    ensures r.Some? ==> (IncidentMember(r.value).Some? <==> "incident" in IncidentsController.ReplyMembers(b))
  {
    match b
    case One(_) => Some(Bare(record))
    case Updated(message, _) => Some(Wrapped(message, record))
    case _ => None
  }

  /** The buffer filled from an incident: title, description, priority and
      status, with a missing status shown as "Pendiente". */
  function EditCopy(i: ClientIncident): (b: EditBuffer)
    ensures b.Keys == {"title", "description", "priority", "status"}
    ensures b["title"] == Some(i.title) && b["description"] == Some(i.description)
    ensures b["priority"] == i.priority
    ensures b["status"] == if Truthy(i.status) then i.status else Some("Pendiente")
  {
    map["title" := Some(i.title), "description" := Some(i.description),
        "priority" := i.priority, "status" := Some(OrElse(i.status, "Pendiente"))]
  }

  /** `{ ...editedIncident, files: incident.files }`: the buffer's fields,
      with `files` always the incident's current list. */
  datatype SavePayload = SavePayload(fields: EditBuffer, files: seq<FileRef>)

  function MakePayload(edited: EditBuffer, i: ClientIncident): (p: SavePayload)
    ensures p.fields.Keys == edited.Keys - {"files"}
    ensures forall k :: k in p.fields ==> p.fields[k] == edited[k]
    ensures p.files == i.files
  {
    SavePayload(edited - {"files"}, i.files)
  }

  /** The local removal: files whose public id differs from the removed one. */
  function WithoutFile(files: seq<FileRef>, publicId: string): (r: seq<FileRef>)
    ensures forall k :: 0 <= k < |r| ==> r[k].publicId != publicId && r[k] in files
    ensures forall k :: 0 <= k < |files| && files[k].publicId != publicId ==> files[k] in r
    ensures multiset(r) <= multiset(files)
    ensures forall k :: 0 <= k < |files| && files[k].publicId != publicId ==> multiset(r)[files[k]] == multiset(files)[files[k]]
  {
    FilterMultiplicity(files, (f: FileRef) => f.publicId != publicId);
    Filter(files, (f: FileRef) => f.publicId != publicId)
  }

  /** `file.public_id.split('/').pop()` */
  function DisplayName(f: FileRef): (name: string)
    ensures '/' !in name
    ensures |name| <= |f.publicId| && name == f.publicId[|f.publicId| - |name|..]
  {
    LastSegment(f.publicId, '/')
  }

  class IncidentDetailPage {
    /** The id in the page's URL, used for every request the page makes. */
    const routeId: string
    var incident: Option<ClientIncident>
    var editing: bool
    var edited: EditBuffer
    var files: seq<string>
    var deleteFileId: Option<string>
    var showUploadModal: bool
    var showDeleteFileModal: bool
    var error: Option<string>

    constructor (id: string)
      ensures routeId == id
      ensures incident == None && !editing && edited == map[] && files == []
      ensures deleteFileId == None && !showUploadModal && !showDeleteFileModal && error == None
    {
      routeId := id;
      incident, editing, edited, files := None, false, map[], [];
      deleteFileId, showUploadModal, showDeleteFileModal, error := None, false, false, None;
    }

    /** The load effect as written: `response.data.incident` is stored, then
        its fields are read for the buffer. A body without that member stores
        undefined, and reading its title throws into the catch, which reports
        the load error; so does a failed request. */
    method LoadedAsWritten(reply: Option<IncidentBody>)
      modifies this
      ensures reply.Some? && reply.value.Wrapped? ==>
        incident == Some(reply.value.incident) && edited == EditCopy(reply.value.incident) && error == old(error)
      ensures reply.Some? && reply.value.Bare? ==> incident == None && edited == old(edited) && error == Some(LoadFailed)
      ensures reply.None? ==> incident == old(incident) && edited == old(edited) && error == Some(LoadFailed)
      ensures editing == old(editing) && files == old(files) && deleteFileId == old(deleteFileId)
      ensures showUploadModal == old(showUploadModal) && showDeleteFileModal == old(showDeleteFileModal)
    {
      if reply.None? {
        error := Some(LoadFailed);
        return;
      }
      var member := IncidentMember(reply.value);
      incident := member;
      if member.None? {
        error := Some(LoadFailed);
        return;
      }
      edited := EditCopy(member.value);
    }

    /** The load effect with the record read from `response.data`, which is
        what `getDetail` sends. */
    method Loaded(reply: Option<ClientIncident>)
      modifies this
      ensures reply.Some? ==> incident == reply && edited == EditCopy(reply.value) && error == old(error)
      ensures reply.None? ==> incident == old(incident) && edited == old(edited) && error == Some(LoadFailed)
      ensures editing == old(editing) && files == old(files) && deleteFileId == old(deleteFileId)
      ensures showUploadModal == old(showUploadModal) && showDeleteFileModal == old(showDeleteFileModal)
    {
      if reply.None? {
        error := Some(LoadFailed);
        return;
      }
      incident := reply;
      edited := EditCopy(reply.value);
    }

    /** `handleEditToggle`: entering edit mode refills the buffer from the
        incident; leaving it keeps the buffer. */
    method HandleEditToggle()
      requires !editing ==> incident.Some?
      modifies this
      ensures editing == !old(editing)
      ensures !old(editing) ==> edited == EditCopy(old(incident).value)
      ensures old(editing) ==> edited == old(edited)
      ensures incident == old(incident) && files == old(files) && deleteFileId == old(deleteFileId) && error == old(error)
      ensures showUploadModal == old(showUploadModal) && showDeleteFileModal == old(showDeleteFileModal)
    {
      var entering := !editing;
      editing := !editing;
      if entering {
        edited := EditCopy(incident.value);
      }
    }

    /** `handleInputChange`: only the named entry of the buffer changes. */
    method HandleInputChange(name: string, value: string)
      modifies this
      ensures edited == old(edited)[name := Some(value)]
      ensures incident == old(incident) && editing == old(editing) && files == old(files)
      ensures deleteFileId == old(deleteFileId) && error == old(error)
      ensures showUploadModal == old(showUploadModal) && showDeleteFileModal == old(showDeleteFileModal)
    {
      edited := edited[name := Some(value)];
    }

    /** `handleSaveChanges`: sends the payload; on success the reply's
        `incident` member replaces the shown one and edit mode ends. */
    method HandleSaveChanges(reply: Option<IncidentBody>) returns (request: Request, sent: SavePayload)
      requires incident.Some?
      modifies this
      ensures request == Endpoint(UpdateIncident(routeId))
      ensures sent == MakePayload(old(edited), old(incident).value)
      ensures reply.Some? ==> incident == IncidentMember(reply.value) && !editing && error == old(error)
      ensures reply.None? ==> incident == old(incident) && editing == old(editing) && error == Some(SaveFailed)
      ensures edited == old(edited) && files == old(files) && deleteFileId == old(deleteFileId)
      ensures showUploadModal == old(showUploadModal) && showDeleteFileModal == old(showDeleteFileModal)
    {
      request := Endpoint(UpdateIncident(routeId));
      sent := MakePayload(edited, incident.value);
      if reply.None? {
        error := Some(SaveFailed);
        return;
      }
      incident := IncidentMember(reply.value);
      editing := false;
    }

    method HandleFileChange(selected: seq<string>)
      modifies this
      ensures files == selected
      ensures incident == old(incident) && edited == old(edited) && editing == old(editing)
      ensures deleteFileId == old(deleteFileId) && error == old(error)
      ensures showUploadModal == old(showUploadModal) && showDeleteFileModal == old(showDeleteFileModal)
    {
      files := selected;
    }

    /** `handleUploadFiles`: nothing happens without selected files. The
        reply is the `incident` member of the answer to the upload call. */
    method HandleUploadFiles(reply: Option<ClientIncident>) returns (sent: Option<Request>)
      modifies this
      ensures sent.Some? <==> old(files) != []
      ensures sent.Some? ==> sent.value == Endpoint(AddFiles(routeId))
      ensures sent.None? ==> incident == old(incident) && files == old(files) && error == old(error) && showUploadModal == old(showUploadModal)
      ensures sent.Some? && reply.Some? ==> incident == reply && files == [] && !showUploadModal && error == old(error)
      ensures sent.Some? && reply.None? ==>
        incident == old(incident) && files == old(files) && error == Some(UploadFailed) && showUploadModal == old(showUploadModal)
      ensures edited == old(edited) && editing == old(editing) && deleteFileId == old(deleteFileId)
      ensures showDeleteFileModal == old(showDeleteFileModal)
    {
      if |files| == 0 {
        return None;
      }
      sent := Some(Endpoint(AddFiles(routeId)));
      if reply.None? {
        error := Some(UploadFailed);
        return;
      }
      incident := reply;
      showUploadModal := false;
      files := [];
    }

    /** The bin button on an attachment. */
    method SelectFileForDeletion(f: FileRef)
      modifies this
      ensures deleteFileId == Some(f.publicId) && showDeleteFileModal
      ensures incident == old(incident) && edited == old(edited) && editing == old(editing) && files == old(files)
      ensures error == old(error) && showUploadModal == old(showUploadModal)
    {
      deleteFileId := Some(f.publicId);
      showDeleteFileModal := true;
    }

    /** `handleDeleteFile`: nothing happens without a file to delete. On
        success the attachment is first removed locally, then the reply's
        incident replaces the shown one. The reply is the `incident` member
        of the answer to the removal call. */
    method HandleDeleteFile(reply: Option<ClientIncident>) returns (sent: Option<Request>)
      modifies this
      ensures sent.Some? <==> Truthy(old(deleteFileId))
      ensures sent.Some? ==> sent.value == Endpoint(RemoveFile(routeId, old(deleteFileId).value))
      ensures sent.None? ==>
        incident == old(incident) && deleteFileId == old(deleteFileId) && error == old(error) &&
        showDeleteFileModal == old(showDeleteFileModal)
      ensures sent.Some? && reply.Some? ==> incident == reply && deleteFileId == None && !showDeleteFileModal && error == old(error)
      ensures sent.Some? && reply.None? ==>
        incident == old(incident) && deleteFileId == old(deleteFileId) && error == Some(RemoveFailed) &&
        showDeleteFileModal == old(showDeleteFileModal)
      ensures edited == old(edited) && editing == old(editing) && files == old(files)
      ensures showUploadModal == old(showUploadModal)
    {
      if !Truthy(deleteFileId) {
        return None;
      }
      var id := deleteFileId.value;
      sent := Some(Endpoint(RemoveFile(routeId, id)));
      if reply.None? {
        error := Some(RemoveFailed);
        return;
      }
      if incident.Some? {
        incident := Some(incident.value.(files := WithoutFile(incident.value.files, id)));
      }
      incident := reply;
      showDeleteFileModal := false;
      deleteFileId := None;
    }
  }

  // ---------------------------------------------------------------------------
  // Properties

  /** Loading as written never shows an incident: `getDetail` answers a
      found id with the bare record, so the page stores undefined and
      reports the load error. */
  method DetailLoadAsWrittenFails(page: IncidentDetailPage, store: IncidentsController.IncidentStore, id: IncidentsController.Id, record: ClientIncident)
    requires id in store.incidents
    modifies page
    ensures page.incident == None && page.error == Some(LoadFailed)
  {
    IncidentsController.DetailReplyHasNoIncidentMember(store, id);
    page.LoadedAsWritten(Received(store.GetDetail(id).body, record));
  }

  /** Read from `response.data`, the same reply shows the record. */
  method DetailLoadShowsRecord(page: IncidentDetailPage, store: IncidentsController.IncidentStore, id: IncidentsController.Id, record: ClientIncident)
    requires id in store.incidents
    modifies page
    ensures page.incident == Some(record) && page.edited == EditCopy(record)
  {
    var body := Received(store.GetDetail(id).body, record);
    page.Loaded(Some(body.value.record));
  }

  /** `update`'s reply has the `incident` member, so a save shows the
      updated record. */
  lemma UpdateReplyHasIncident(store: IncidentsController.IncidentStore, id: IncidentsController.Id, record: ClientIncident)
    requires id in store.incidents
    ensures var b := Received(IncidentsController.Updated("Incident updated successfully", store.incidents[id]), record);
      b.Some? && IncidentMember(b.value) == Some(record)
  {
  }

  /** Entering and then leaving edit mode keeps the refilled buffer. */
  method ToggleTwiceKeepsCopy(page: IncidentDetailPage)
    requires !page.editing && page.incident.Some?
    modifies page
    ensures !page.editing && page.edited == EditCopy(old(page.incident).value)
  {
    page.HandleEditToggle();
    page.HandleEditToggle();
  }

  /** The payload's files are always the incident's, even when the buffer has
      a `files` entry of its own. */
  lemma PayloadFilesFromIncident(edited: EditBuffer, i: ClientIncident, v: Field)
    ensures MakePayload(edited["files" := v], i).files == i.files
    ensures "files" !in MakePayload(edited["files" := v], i).fields
  {
  }

  /** The local removal keeps the other attachments in order and drops every
      attachment with that id. */
  lemma WithoutFileKeepsOrder(files: seq<FileRef>, publicId: string)
    ensures Subsequence(WithoutFile(files, publicId), files)
    ensures forall f :: f in WithoutFile(files, publicId) ==> f.publicId != publicId
  {
    FilterIsSubsequence(files, (f: FileRef) => f.publicId != publicId);
  }

  /** The name shown for a file stored under a folder is the part after the
      folder. */
  lemma DisplayNameAfterFolder(url: string, folder: string, name: string)
    requires '/' !in name
    ensures DisplayName(FileRef(url, folder + "/" + name)) == name
  {
    LastSegmentAfter(folder, '/', name);
    assert folder + "/" + name == folder + ['/'] + name;
  }
}
