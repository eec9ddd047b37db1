/** The client's HTTP layer: the response interceptor that turns a failed
    response into at most one notice (and a redirect on 401), and the table
    of service endpoints. */
module ApiClient {
  import opened Js
  import Routes

  // ---------------------------------------------------------------------------
  // The response interceptor

  /** A failed request: the response's status, or no response at all. */
  datatype ApiError = ApiError(responseStatus: Option<int>)

  datatype Notice = SessionExpired | NoPermission | NotFound | ServerError | NetworkError

  function NoticeText(n: Notice): string {
    match n
    case SessionExpired => "Session expired. Please login again."
    case NoPermission => "You do not have permission to perform this action."
    case NotFound => "Resource not found."
    case ServerError => "Server error. Please try again later."
    case NetworkError => "Network error. Please check your connection."
  }

  const LoginPath: string := "/login"

  /** The if/else-if chain on the status: the notice to show, if any. */
  function Classify(error: ApiError): (n: Option<Notice>)
    ensures error.responseStatus == Some(401) <==> n == Some(SessionExpired)
    ensures error.responseStatus == Some(403) <==> n == Some(NoPermission)
    ensures error.responseStatus == Some(404) <==> n == Some(NotFound)
    ensures error.responseStatus == Some(500) <==> n == Some(ServerError)
    ensures error.responseStatus.None? <==> n == Some(NetworkError)
    ensures n.None? <==> error.responseStatus.Some? && error.responseStatus.value !in {401, 403, 404, 500}
  {
    match error.responseStatus
    case None => Some(NetworkError)
    case Some(s) =>
      if s == 401 then Some(SessionExpired)
      else if s == 403 then Some(NoPermission)
      else if s == 404 then Some(NotFound)
      else if s == 500 then Some(ServerError)
      else None
  }

  /** The browser state the interceptor touches: the toasts shown so far and
      the current location. */
  class Browser {
    var toasts: seq<string>
    var location: string

    constructor (at: string)
      ensures toasts == [] && location == at
    {
      toasts := [];
      location := at;
    }

    /** A successful response passes through unchanged. */
    method OnFulfilled<R>(response: R) returns (passed: R)
      ensures passed == response
    {
      passed := response;
    }

    /** A failed response: show the notice, redirect on 401, and reject with
        the same error. */
    method OnRejected(error: ApiError) returns (rejected: ApiError)
      modifies this
      ensures rejected == error
      ensures Classify(error).Some? ==> toasts == old(toasts) + [NoticeText(Classify(error).value)]
      ensures Classify(error).None? ==> toasts == old(toasts)
      ensures location == if error.responseStatus == Some(401) then LoginPath else old(location)
    {
      var status := error.responseStatus;
      if status == Some(401) {
        toasts := toasts + [NoticeText(SessionExpired)];
        location := LoginPath;
      } else if status == Some(403) {
        toasts := toasts + [NoticeText(NoPermission)];
      } else if status == Some(404) {
        toasts := toasts + [NoticeText(NotFound)];
      } else if status == Some(500) {
        toasts := toasts + [NoticeText(ServerError)];
      } else if status.None? {
        toasts := toasts + [NoticeText(NetworkError)];
      }
      rejected := error;
    }
  }

  /** A validation failure (400) or a conflict produces no notice: the page
      that made the call is left to report it. */
  lemma BadRequestIsSilent(s: int)
    requires s != 401 && s != 403 && s != 404 && s != 500
    ensures Classify(ApiError(Some(s))).None?
  {
  }

  // ---------------------------------------------------------------------------
  // The records the pages receive

  /** An attachment as the detail page lists it. */
  datatype FileRef = FileRef(url: string, publicId: string)

  /** An incident as the client pages read it. The text fields are strings
      because the pages call string methods on them; priority and status may
      be absent. */
  datatype ClientIncident = ClientIncident(
    id: string,
    title: string,
    description: string,
    name: string,
    email: string,
    office: string,
    priority: Field,
    status: Field,
    files: seq<FileRef>)

  // ---------------------------------------------------------------------------
  // The endpoint table

  datatype HttpMethod = Get | Post | Patch | Delete

  /** What travels in the request body. */
  datatype Payload = NoPayload | Json | Multipart | PublicIdPayload(publicId: string)

  datatype Request = Request(httpMethod: HttpMethod, path: string, payload: Payload)

  /** The calls the auth, user and incident services make; ids are the
      strings the client holds. */
  datatype Call =
    | Login | Logout | GetOwnProfile | Register
    | GetAllUsers | CreateUser | DeleteUser(userId: string)
    | GetAllIncidents | GetIncidentById(id: string) | CreateIncident
    | UpdateIncident(id: string) | DeleteIncident(id: string)
    | AddFiles(id: string) | RemoveFile(id: string, publicId: string)

  /** The request each service call sends, relative to the API base. */
  function Endpoint(c: Call): (r: Request)
    ensures c.RemoveFile? ==> r == Request(Delete, "/incidents/" + c.id + "/files", PublicIdPayload(c.publicId))
    ensures c.AddFiles? ==> r == Request(Patch, "/incidents/" + c.id + "/files", Multipart)
    ensures r.payload.PublicIdPayload? <==> c.RemoveFile?
  {
    match c
    case Login => Request(Post, "/sessions", Json)
    case Logout => Request(Delete, "/sessions", NoPayload)
    case GetOwnProfile => Request(Get, "/users/me", NoPayload)
    case Register => Request(Post, "/users", Json)
    case GetAllUsers => Request(Get, "/users", NoPayload)
    case CreateUser => Request(Post, "/users", Json)
    case DeleteUser(u) => Request(Delete, "/users/" + u, NoPayload)
    case GetAllIncidents => Request(Get, "/incidents", NoPayload)
    case GetIncidentById(i) => Request(Get, "/incidents/" + i, NoPayload)
    case CreateIncident => Request(Post, "/incidents", Multipart)
    case UpdateIncident(i) => Request(Patch, "/incidents/" + i, Json)
    case DeleteIncident(i) => Request(Delete, "/incidents/" + i, NoPayload)
    case AddFiles(i) => Request(Patch, "/incidents/" + i + "/files", Multipart)
    case RemoveFile(i, p) => Request(Delete, "/incidents/" + i + "/files", PublicIdPayload(p))
  }

  /** Adding and removing files share one path and differ in method. */
  lemma FilesEndpointsShareAPath(id: string, publicId: string)
    ensures Endpoint(AddFiles(id)).path == Endpoint(RemoveFile(id, publicId)).path
    ensures Endpoint(AddFiles(id)).httpMethod == Patch && Endpoint(RemoveFile(id, publicId)).httpMethod == Delete
  {
  }

  /** Every incident call lands on the server's incidents router, whatever
      the id. */
  lemma IncidentCallsReachIncidentsRouter(c: Call)
    requires c.GetAllIncidents? || c.GetIncidentById? || c.CreateIncident? || c.UpdateIncident? ||
             c.DeleteIncident? || c.AddFiles? || c.RemoveFile?
    ensures Routes.MountFor(Endpoint(c).path) == Some(Routes.IncidentsMount)
  {
    var path := Endpoint(c).path;
    if c.GetAllIncidents? || c.CreateIncident? {
      assert path == "/incidents";
      BaseRouted();
    } else if c.GetIncidentById? || c.UpdateIncident? || c.DeleteIncident? {
      assert path == "/incidents/" + c.id;
      BelowRouted(c.id);
    } else {
      assert path == "/incidents/" + (c.id + "/files");
      BelowRouted(c.id + "/files");
    }
  }

  lemma BaseRouted()
    ensures Routes.MountFor("/incidents") == Some(Routes.IncidentsMount)
  {
    LowerIncidents();
    DiffersAt("/incidents", "/users", 1);
  }

  lemma BelowRouted(rest: string)
    ensures Routes.MountFor("/incidents/" + rest) == Some(Routes.IncidentsMount)
  {
    var base := "/incidents";
    LowerIncidents();
    assert "/incidents/" + rest == base + "/" + rest;
    LowerUnder(base, rest);
    DiffersAt("/incidents/" + rest, "/users", 1);
  }

  /** Paths whose lower-cased forms differ within the prefix are not under it. */
  lemma DiffersAt(path: string, prefix: string, k: nat)
    requires k < |path| && k < |prefix| && LowerChar(path[k]) != LowerChar(prefix[k])
    ensures !Routes.Under(path, prefix)
  {
    var p, q := ToLower(path), ToLower(prefix);
    assert p[k] != q[k];
    assert p != q;
  }

  lemma LowerIncidents()
    ensures ToLower("/incidents") == "/incidents"
  {
    var s := ToLower("/incidents");
    assert s[0] == '/' && s[1] == 'i' && s[2] == 'n' && s[3] == 'c' && s[4] == 'i';
    assert s[5] == 'd' && s[6] == 'e' && s[7] == 'n' && s[8] == 't' && s[9] == 's';
  }

  /** Lower-casing a path below an already lower-case prefix keeps the prefix. */
  lemma LowerUnder(base: string, rest: string)
    requires ToLower(base) == base
    ensures ToLower(base + "/" + rest) == base + "/" + ToLower(rest)
    ensures Routes.Under(base + "/" + rest, base)
  {
    ToLowerAround(base, '/', rest);
    assert ToLower(base + "/" + rest) == ToLower(base + ['/'] + rest);
    var p := ToLower(base + "/" + rest);
    assert p[..|base| + 1] == base + "/";
  }
}
