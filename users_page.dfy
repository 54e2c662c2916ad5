/**
 * The users page: the list of users, deletion after confirmation, and the form's save, which
 * replaces the user with the same id when editing and appends a new user otherwise.
 * `Date.now().toString()` and the answer to `window.confirm` are inputs.
 */
module UsersPage {
  import opened Wrappers
  import opened JsString
  import opened RecordList

  datatype User = User(id: string, name: string, email: string, role: string, organization: string)

  function UserId(u: User): string { u.id }

  const InitialUsers: seq<User> := [
    User("1", "John Doe", "john@example.com", "Admin", "Acme Inc"),
    User("2", "Jane Smith", "jane@example.com", "User", "Acme Inc"),
    User("3", "Bob Johnson", "bob@example.com", "Manager", "Globex Corp")
  ]

  /** `handleDeleteUser`: every user with that id goes, but only when confirmed. */
  function DeleteUser(users: seq<User>, id: string, confirmed: bool): (r: seq<User>)
    ensures !confirmed ==> r == users
    ensures confirmed ==> forall i :: 0 <= i < |r| ==> r[i].id != id
    ensures confirmed ==> forall u :: u in users && u.id != id ==> u in r
    ensures forall u :: u in r ==> u in users
  {
    if confirmed then RemoveId(users, id, UserId) else users
  }

  /** `onSave`: replace by id while editing, else append with a fresh id. */
  function SaveUser(users: seq<User>, editing: Option<User>, user: User, now: string): (r: seq<User>)
    ensures editing.Some? ==> |r| == |users| && Ids(r, UserId) == Ids(users, UserId)
    ensures editing.None? ==> r == users + [user.(id := now)]
  {
    if editing.Some? then ReplaceId(users, user, UserId)
    else users + [user.(id := now)]
  }

  /** The form's fields. */
  datatype UserForm = UserForm(name: string, email: string, role: string, organization: string)

  /** The fields' initial values: the edited user's, else empty, and `User` for the role. */
  function InitialForm(user: Option<User>): (r: UserForm)
    ensures user.None? ==> r == UserForm("", "", "User", "")
    ensures r.role != ""
  {
    match user
    case None => UserForm("", "", "User", "")
    case Some(u) => UserForm(u.name, u.email, OrString(u.role, "User"), u.organization)
  }

  /** `handleSubmit`: the user handed to `onSave`. */
  function SubmitUser(user: Option<User>, form: UserForm, now: string): (r: User)
    ensures user.Some? && user.value.id != "" ==> r.id == user.value.id
    ensures !(user.Some? && user.value.id != "") ==> r.id == now
    ensures r.name == form.name && r.email == form.email && r.role == form.role
    ensures r.organization == form.organization
  {
    User(if user.Some? then OrString(user.value.id, now) else now,
         form.name, form.email, form.role, form.organization)
  }

  // ---------------------------------------------------------------------------------------
  // Properties

  /** Deletion drops exactly the users with that id and keeps the others in order. */
  lemma DeleteKeepsOrder(a: seq<User>, b: seq<User>, id: string)
    ensures DeleteUser(a + b, id, true) == DeleteUser(a, id, true) + DeleteUser(b, id, true)
    ensures |DeleteUser(a + b, id, true)| == |a + b| - CountId(a + b, id, UserId)
  {
    RemoveConcat(a, b, id, UserId);
    RemoveCount(a + b, id, UserId);
  }

  /** Editing an existing user and saving puts the new fields at its position, with all other
   *  users and the order unchanged. */
  lemma EditReplacesInPlace(users: seq<User>, previous: User, user: User, now: string, i: nat)
    requires i < |users| && users[i].id == user.id
    ensures SaveUser(users, Some(previous), user, now)[i] == user
    ensures forall j :: 0 <= j < |users| && users[j].id != user.id ==>
              SaveUser(users, Some(previous), user, now)[j] == users[j]
  {
  }

  /** Editing a user through the form keeps its id, so the save replaces and never appends. */
  lemma EditedUserKeepsId(users: seq<User>, u: User, form: UserForm, now: string, i: nat)
    requires i < |users| && users[i] == u && u.id != ""
    ensures SubmitUser(Some(u), form, now).id == u.id
    ensures SaveUser(users, Some(u), SubmitUser(Some(u), form, now), now)[i] == SubmitUser(Some(u), form, now)
  {
  }

  /** A new user is appended once, under the fresh id; with a fresh id the ids stay unique. */
  lemma AddAppendsOnce(users: seq<User>, user: User, now: string)
    requires UniqueIds(users, UserId) && !HasId(users, now, UserId)
    ensures |SaveUser(users, None, user, now)| == |users| + 1
    ensures SaveUser(users, None, user, now)[|users|].id == now
    ensures UniqueIds(SaveUser(users, None, user, now), UserId)
  {
    AppendKeepsUnique(users, user.(id := now), UserId);
  }

  /** Deletion and editing keep ids unique. */
  lemma UpdatesKeepIdsUnique(users: seq<User>, id: string, confirmed: bool, previous: User, user: User, now: string)
    requires UniqueIds(users, UserId)
    ensures UniqueIds(DeleteUser(users, id, confirmed), UserId)
    ensures UniqueIds(SaveUser(users, Some(previous), user, now), UserId)
  {
    RemoveKeepsUnique(users, id, UserId);
    ReplaceKeepsUnique(users, user, UserId);
  }

  /** The starting list has unique ids. */
  lemma InitialUsersUnique()
    ensures UniqueIds(InitialUsers, UserId)
  {
  }
}
