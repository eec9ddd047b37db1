/** The user administration page: the search effect, the new-user form, and
    the create and delete handlers with their effect on the two lists. */
module UsersPage {
  import opened Js
  import UsersController

  /** A user as the page lists it. */
  datatype ClientUser = ClientUser(id: string, name: string, email: string, office: string, role: string)

  /** The new-user form. */
  datatype NewUserForm = NewUserForm(name: string, email: string, password: string, role: string, office: string)

  datatype FormField = NameField | EmailField | PasswordField | RoleField | OfficeField

  /** The form as it starts and as a successful create leaves it. */
  const EmptyForm: NewUserForm := NewUserForm("", "", "", "user", "Malaga")

  const CreateFailed: string := "Error al crear el usuario. Por favor, intenta de nuevo más tarde."
  const DeleteFailed: string := "Error al eliminar el usuario. Por favor, intenta de nuevo más tarde."

  /** `handleInputChange`: the named field takes the new value. */
  function WithField(f: NewUserForm, field: FormField, value: string): (r: NewUserForm)
    ensures field == NameField ==> r == f.(name := value)
    ensures field == EmailField ==> r == f.(email := value)
    ensures field == PasswordField ==> r == f.(password := value)
    ensures field == RoleField ==> r == f.(role := value)
    ensures field == OfficeField ==> r == f.(office := value)
  {
    match field
    case NameField => f.(name := value)
    case EmailField => f.(email := value)
    case PasswordField => f.(password := value)
    case RoleField => f.(role := value)
    case OfficeField => f.(office := value)
  }

  // ---------------------------------------------------------------------------
  // Search

  /** Name, email and office, lower-cased, are searched for the lower-cased term. */
  predicate UserMatches(u: ClientUser, term: string) {
    Includes(ToLower(u.name), term) || Includes(ToLower(u.email), term) || Includes(ToLower(u.office), term)
  }

  /** The search effect. */
  function SearchResult(users: seq<ClientUser>, searchTerm: string): seq<ClientUser> {
    if searchTerm == "" then users
    else Filter(users, u => UserMatches(u, ToLower(searchTerm)))
  }

  /** The shown users are the loaded users that match, in their order. */
  lemma SearchKeepsMatchesInOrder(users: seq<ClientUser>, searchTerm: string)
    requires searchTerm != ""
    ensures Subsequence(SearchResult(users, searchTerm), users)
    ensures forall k :: 0 <= k < |SearchResult(users, searchTerm)| ==>
      UserMatches(SearchResult(users, searchTerm)[k], ToLower(searchTerm))
    ensures forall k :: 0 <= k < |users| && UserMatches(users[k], ToLower(searchTerm)) ==>
      users[k] in SearchResult(users, searchTerm)
    ensures multiset(SearchResult(users, searchTerm)) <= multiset(users)
    ensures forall k :: 0 <= k < |users| && UserMatches(users[k], ToLower(searchTerm)) ==>
      multiset(SearchResult(users, searchTerm))[users[k]] == multiset(users)[users[k]]
  {
    FilterIsSubsequence(users, u => UserMatches(u, ToLower(searchTerm)));
    FilterMultiplicity(users, u => UserMatches(u, ToLower(searchTerm)));
  }

  /** Every user matches the empty string, so the two branches of the effect
      agree on it. */
  lemma EmptyTermMatchesEveryone(users: seq<ClientUser>)
    ensures Filter(users, u => UserMatches(u, ToLower(""))) == users == SearchResult(users, "")
  {
    forall u | u in users ensures UserMatches(u, ToLower("")) {
      IncludesEmpty(ToLower(u.name));
    }
    FilterAll(users, u => UserMatches(u, ToLower("")));
  }

  // ---------------------------------------------------------------------------
  // Delete

  /** `users.filter(user => user.id !== id)` */
  function WithoutId(users: seq<ClientUser>, id: string): (r: seq<ClientUser>)
    ensures forall k :: 0 <= k < |r| ==> r[k].id != id && r[k] in users
    ensures forall k :: 0 <= k < |users| && users[k].id != id ==> users[k] in r
    ensures multiset(r) <= multiset(users)
    ensures forall k :: 0 <= k < |users| && users[k].id != id ==> multiset(r)[users[k]] == multiset(users)[users[k]]
  {
    FilterMultiplicity(users, (u: ClientUser) => u.id != id);
    Filter(users, (u: ClientUser) => u.id != id)
  }

  /** Removing an id keeps the other users in their order, and removing it
      again changes nothing. */
  lemma WithoutIdKeepsOrder(users: seq<ClientUser>, id: string)
    ensures Subsequence(WithoutId(users, id), users)
    ensures WithoutId(WithoutId(users, id), id) == WithoutId(users, id)
  {
    FilterIsSubsequence(users, (u: ClientUser) => u.id != id);
    var once := WithoutId(users, id);
    FilterAll(once, (u: ClientUser) => u.id != id);
  }

  // ---------------------------------------------------------------------------
  // Page state

  /** What the create request came back with. */
  datatype CreateReply = Created(user: ClientUser) | Failed(message: Field)

  class UsersPage {
    var users: seq<ClientUser>
    var filteredUsers: seq<ClientUser>
    var searchTerm: string
    var newUser: NewUserForm
    var validated: bool
    var error: Option<string>

    constructor ()
      ensures users == [] && filteredUsers == [] && searchTerm == ""
      ensures newUser == EmptyForm && !validated && error == None
    {
      users, filteredUsers, searchTerm := [], [], "";
      newUser, validated, error := EmptyForm, false, None;
    }

    method Refilter()
      modifies this
      ensures filteredUsers == SearchResult(users, searchTerm)
      ensures users == old(users) && searchTerm == old(searchTerm) && newUser == old(newUser)
      ensures validated == old(validated) && error == old(error)
    {
      if searchTerm != "" {
        var term := ToLower(searchTerm);
        filteredUsers := Filter(users, u => UserMatches(u, term));
      } else {
        filteredUsers := users;
      }
    }

    method HandleInputChange(field: FormField, value: string)
      modifies this
      ensures newUser == WithField(old(newUser), field, value)
      ensures users == old(users) && filteredUsers == old(filteredUsers) && searchTerm == old(searchTerm)
      ensures validated == old(validated) && error == old(error)
    {
      newUser := WithField(newUser, field, value);
    }

    /** `handleCreateUser`, with the created user taken from the reply body
        itself. An invalid form only marks the form validated. */
    method HandleCreateUser(formValid: bool, reply: CreateReply)
      modifies this
      ensures !formValid ==> validated && users == old(users) && newUser == old(newUser) && error == old(error)
      ensures formValid && reply.Created? ==>
        users == old(users) + [reply.user] && newUser == EmptyForm && !validated && error == old(error)
      ensures formValid && reply.Failed? ==>
        users == old(users) && newUser == old(newUser) && validated == old(validated) &&
        error == Some(OrElse(reply.message, CreateFailed))
      ensures filteredUsers == old(filteredUsers) && searchTerm == old(searchTerm)
    {
      if !formValid {
        validated := true;
        return;
      }
      match reply
      case Created(u) =>
        users := users + [u];
        newUser := EmptyForm;
        validated := false;
      case Failed(m) =>
        error := Some(OrElse(m, CreateFailed));
    }

    /** `handleDeleteUser`: nothing changes unless the user confirmed; the
        lists change only when the server call succeeded. */
    method HandleDeleteUser(id: string, confirmed: bool, serverOk: bool)
      modifies this
      ensures confirmed && serverOk ==>
        users == WithoutId(old(users), id) && filteredUsers == WithoutId(old(filteredUsers), id) && error == old(error)
      ensures confirmed && !serverOk ==>
        users == old(users) && filteredUsers == old(filteredUsers) && error == Some(DeleteFailed)
      ensures !confirmed ==> users == old(users) && filteredUsers == old(filteredUsers) && error == old(error)
      ensures searchTerm == old(searchTerm) && newUser == old(newUser) && validated == old(validated)
    {
      if !confirmed {
        return;
      }
      if !serverOk {
        error := Some(DeleteFailed);
        return;
      }
      users := WithoutId(users, id);
      filteredUsers := WithoutId(filteredUsers, id);
    }
  }

  // ---------------------------------------------------------------------------
  // The created user as the page reads it

  /** `response.data.user` as written: the reply's `user` member, which is
      undefined (None) when the reply has no member of that name. */
  function UserMemberAsWritten(reply: UsersController.Body): (m: Option<UsersController.User>)
    ensures m.None? <==> "user" !in UsersController.ReplyMembers(reply)
  {
    // No body the user handlers send has a `user` member.
    None
  }

  /** The create call goes to the register handler, whose success body is the
      user itself, so the page as written appends `undefined`. */
  lemma AsWrittenAppendsUndefined(u: UsersController.User)
    ensures UserMemberAsWritten(UsersController.Full(u)).None?
  {
    UsersController.RegisterReplyHasNoUserMember(u);
  }
}
