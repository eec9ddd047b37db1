/** The user handlers over an abstract store of users keyed by id, in which
    no two users share an email: create, register, profile and getProfile. */
module UsersController {
  import opened Js
  import opened Errors

  type Id = nat

  /** A stored user. The role is absent when the request did not supply it;
      the user model that would fill a default is not part of this model. */
  datatype User = User(name: Field, email: Field, password: Field, role: Field, office: Field)

  /** The fields a create or register request may carry. */
  datatype SignupBody = SignupBody(name: Field, email: Field, password: Field, role: Field, office: Field)

  /** The JSON bodies the handlers send. */
  datatype Body =
    | Note(message: string)
    | Full(user: User)
    | View(name: Field, email: Field, office: Field)

  /** The member names of the JSON object a body is sent as; absent fields
      are left out, as `JSON.stringify` leaves out undefined values. */
  function ReplyMembers(b: Body): (names: set<string>)
    ensures b.Note? ==> names == {"message"}
    ensures names <= {"message", "name", "email", "password", "role", "office"}
  {
    match b
    case Note(_) => {"message"}
    case Full(u) => Present("name", u.name) + Present("email", u.email) + Present("password", u.password) +
                    Present("role", u.role) + Present("office", u.office)
    case View(n, e, o) => Present("name", n) + Present("email", e) + Present("office", o)
  }

  /** The session as the session middleware leaves it on the request. */
  datatype Session = Session(userId: Option<Id>)

  const MissingFields: AppError := CreateError(400, "Name, email, password y office son requeridos")
  const EmailTaken: AppError := CreateError(400, "El email ya está registrado")
  const DuplicateKey: AppError := DuplicateKeyError("E11000 duplicate key error collection: users index: email_1 dup key")

  /** No two stored users share an email. */
  ghost predicate EmailsUnique(users: map<Id, User>) {
    forall i, j :: i in users && j in users && users[i].email == users[j].email ==> i == j
  }

  predicate Registered(users: map<Id, User>, email: Field) {
    exists i :: i in users && users[i].email == email
  }

  /** `profile`: 401 without a session user id and before any lookup, 404
      for an unknown id, otherwise the user's name, email and office. */
  function Profile(users: map<Id, User>, session: Option<Session>): (r: Outcome<Body>)
    ensures (session.None? || session.value.userId.None?) ==> r == Respond(401, Note("No autorizado"))
    ensures session.Some? && session.value.userId.Some? && session.value.userId.value !in users ==>
      r == Respond(404, Note("Usuario no encontrado"))
    ensures session.Some? && session.value.userId.Some? && session.value.userId.value in users ==>
      var u := users[session.value.userId.value];
      r == Respond(200, View(u.name, u.email, u.office))
    ensures r.Respond? && !r.body.Full?
  {
    if session.None? || session.value.userId.None? then Respond(401, Note("No autorizado"))
    else if session.value.userId.value !in users then Respond(404, Note("Usuario no encontrado"))
    else
      var u := users[session.value.userId.value];
      Respond(200, View(u.name, u.email, u.office))
  }

  /** `getProfile`: the request's user object is sent back as it is. */
  function GetProfile<U>(requestUser: U): (r: Outcome<U>)
    ensures r.Respond? && r.code == 200 && r.body == requestUser
  {
    Respond(200, requestUser)
  }

  class UserStore {
    var users: map<Id, User>
    var nextId: Id

    ghost predicate Consistent()
      reads this
    {
      EmailsUnique(users) && forall id :: id in users ==> id < nextId
    }

    constructor ()
      ensures Consistent() && users == map[]
    {
      users := map[];
      nextId := 0;
    }

    /** Saving a new user: the user model's own verdict (not part of this
        model) comes first, then the unique email index. */
    method Insert(u: User, modelError: Option<AppError>) returns (r: Outcome<Id>)
      requires Consistent()
      modifies this
      ensures Consistent()
      ensures modelError.Some? ==> r == Forward(modelError.value) && users == old(users)
      ensures modelError.None? && Registered(old(users), u.email) ==> r == Forward(DuplicateKey) && users == old(users)
      ensures modelError.None? && !Registered(old(users), u.email) ==>
        r == Respond(201, old(nextId)) && old(nextId) !in old(users) && users == old(users)[old(nextId) := u]
    {
      if modelError.Some? {
        return Forward(modelError.value);
      }
      if Registered(users, u.email) {
        return Forward(DuplicateKey);
      }
      var id := nextId;
      users := users[id := u];
      nextId := nextId + 1;
      r := Respond(201, id);
    }

    /** `create`: the four fields must be truthy; the role is never taken
        from the body. A duplicate email is forwarded as the driver's error. */
    method Create(body: SignupBody, modelError: Option<AppError>) returns (r: Outcome<Body>)
      requires Consistent()
      modifies this
      ensures Consistent()
      ensures !Truthy(body.name) || !Truthy(body.email) || !Truthy(body.password) || !Truthy(body.office) ==>
        r == Forward(MissingFields) && users == old(users)
      ensures r.Respond? ==>
        r == Respond(201, Note("Usuario creado exitosamente")) &&
        users == old(users)[old(nextId) := User(body.name, body.email, body.password, None, body.office)]
      ensures r.Forward? ==> users == old(users)
      ensures (Truthy(body.name) && Truthy(body.email) && Truthy(body.password) && Truthy(body.office) &&
               modelError.Some?) ==> r == Forward(modelError.value) && users == old(users)
      ensures (Truthy(body.name) && Truthy(body.email) && Truthy(body.password) && Truthy(body.office) &&
               modelError.None? && Registered(old(users), body.email)) ==> r == Forward(DuplicateKey) && users == old(users)
      ensures (Truthy(body.name) && Truthy(body.email) && Truthy(body.password) && Truthy(body.office) &&
               modelError.None? && !Registered(old(users), body.email)) ==>
        r == Respond(201, Note("Usuario creado exitosamente")) &&
        users == old(users)[old(nextId) := User(body.name, body.email, body.password, None, body.office)]
    {
      if !Truthy(body.name) || !Truthy(body.email) || !Truthy(body.password) || !Truthy(body.office) {
        return Forward(MissingFields);
      }
      var saved := Insert(User(body.name, body.email, body.password, None, body.office), modelError);
      if saved.Forward? {
        return Forward(saved.error);
      }
      r := Respond(201, Note("Usuario creado exitosamente"));
    }

    /** `register`: every field is passed on as given; a duplicate email
        becomes 400 and any other error is forwarded unchanged. */
    method Register(body: SignupBody, modelError: Option<AppError>) returns (r: Outcome<Body>)
      requires Consistent()
      modifies this
      ensures Consistent()
      ensures modelError.Some? ==> r == Forward(if modelError.value.kind == DuplicateKeyKind then EmailTaken else modelError.value) && users == old(users)
      ensures modelError.None? && Registered(old(users), body.email) ==> r == Forward(EmailTaken) && users == old(users)
      ensures modelError.None? && !Registered(old(users), body.email) ==>
        var u := User(body.name, body.email, body.password, body.role, body.office);
        r == Respond(201, Full(u)) && users == old(users)[old(nextId) := u]
    {
      var u := User(body.name, body.email, body.password, body.role, body.office);
      var saved := Insert(u, modelError);
      if saved.Forward? {
        if saved.error.kind == DuplicateKeyKind {
          return Forward(EmailTaken);
        }
        return Forward(saved.error);
      }
      r := Respond(201, Full(u));
    }
  }

  // ---------------------------------------------------------------------------
  // Properties

  /** The profile depends on nothing but the stored name, email and office:
      two stores that differ only in passwords and roles answer alike. */
  lemma ProfileIgnoresSecrets(a: map<Id, User>, b: map<Id, User>, session: Option<Session>)
    requires a.Keys == b.Keys
    requires forall i :: i in a ==> a[i].name == b[i].name && a[i].email == b[i].email && a[i].office == b[i].office
    ensures Profile(a, session) == Profile(b, session)
  {
  }

  /** With the uniqueness rule in force, an email identifies at most one
      user, so adding a user under an unregistered email keeps the rule. */
  lemma FreshEmailKeepsUnique(users: map<Id, User>, id: Id, u: User)
    requires EmailsUnique(users) && id !in users && !Registered(users, u.email)
    ensures EmailsUnique(users[id := u])
  {
  }

  /** The body a successful registration sends is the user itself: it has no
      `user` member. */
  lemma RegisterReplyHasNoUserMember(u: User)
    ensures "user" !in ReplyMembers(Full(u))
  {
  }

  /** After a registration, the email is registered. */
  lemma RegisteredAfterInsert(users: map<Id, User>, id: Id, u: User)
    ensures Registered(users[id := u], u.email)
  {
    assert users[id := u][id].email == u.email;
  }
}
