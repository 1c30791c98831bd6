/** The settings page: the list of users who may log in. Every user saved here
    is an administrator; a new user may not take a username already in use,
    and a user may be removed only while others remain and only by someone
    else. */
module Settings {
  import opened Wrappers
  import opened Seqs
  import opened Types
  import opened DataManager

  datatype UserForm = UserForm(name: string, username: string, password: string)

  /** The form as it is opened for a new user and after each save. */
  const InitialForm: UserForm := UserForm("", "", "")

  /** The user a submit saves, if any: refused when the username or the
      password is empty; any name is accepted and the role is always admin. */
  function BuildUser(form: UserForm, editingId: Option<Id>, freshId: Id): (r: Option<User>)
    ensures r.None? <==> form.username == "" || form.password == ""
    ensures r.Some? ==>
              var u := r.value;
              u.role == AdminRole && u.id == (if Editing(editingId) then editingId.value else freshId) &&
              u.name == form.name && u.username == form.username && u.password == form.password
  {
    if form.username == "" || form.password == "" then None
    else Some(User(if Editing(editingId) then editingId.value else freshId,
                   form.name, form.username, form.password, AdminRole))
  }

  /** `users.some(u => u.username === name)`. */
  predicate UsernameTaken(users: seq<User>, username: string) {
    exists i :: 0 <= i < |users| && users[i].username == username
  }

  /** No two users share a username. */
  predicate UniqueUsernames(users: seq<User>) {
    forall i, j :: 0 <= i < j < |users| ==> users[i].username != users[j].username
  }

  /** What the list becomes on a submit: an edit replaces the user with the
      edited id, a new user is appended unless the username is taken. */
  function UsersAfterSubmit(users: seq<User>, form: UserForm, editingId: Option<Id>, freshId: Id): seq<User> {
    match BuildUser(form, editingId, freshId)
    case None => users
    case Some(u) =>
      if Editing(editingId) then ReplaceByKey(users, UserId, u)
      else if UsernameTaken(users, u.username) then users
      else users + [u]
  }

  /** Creating a user keeps usernames unique: a taken username is refused. */
  lemma AddKeepsUsernamesUnique(users: seq<User>, form: UserForm, freshId: Id)
    requires UniqueUsernames(users)
    ensures UniqueUsernames(UsersAfterSubmit(users, form, None, freshId))
  {
    var r := UsersAfterSubmit(users, form, None, freshId);
    if r != users {
      var u := BuildUser(form, None, freshId).value;
      assert r == users + [u];
      forall i, j | 0 <= i < j < |r| ensures r[i].username != r[j].username {
        if j == |users| {
          assert r[i] == users[i];
        } else {
          assert r[i] == users[i] && r[j] == users[j];
        }
      }
    }
  }

  /** Editing a user is not checked against the other usernames: giving one
      user another user's username is accepted and leaves the list with a
      duplicate. */
  lemma EditMayDuplicateUsername()
    ensures var users := [User("1", "Ana", "ana", "x", AdminRole), User("2", "Bia", "bia", "y", AdminRole)];
            var r := UsersAfterSubmit(users, UserForm("Bia", "ana", "y"), Some("2"), "3");
            UniqueUsernames(users) && !UniqueUsernames(r)
  {
    var users := [User("1", "Ana", "ana", "x", AdminRole), User("2", "Bia", "bia", "y", AdminRole)];
    var r := UsersAfterSubmit(users, UserForm("Bia", "ana", "y"), Some("2"), "3");
    assert r[0].username == r[1].username;
  }

  /** The form filled in from a user by the edit button. */
  function EditForm(u: User): UserForm {
    UserForm(u.name, u.username, u.password)
  }

  /** Saving an unchanged edit form gives the same user back, as an admin. */
  lemma EditRoundTrip(u: User, freshId: Id)
    requires u.id != "" && u.username != "" && u.password != ""
    ensures BuildUser(EditForm(u), Some(u.id), freshId) == Some(u.(role := AdminRole))
  {
  }

  /** `handleSubmit`: updates or adds the user as `UsersAfterSubmit` says; an
      edit also refreshes the session's copy. The form is reset, and editing
      ends, unless the submit was refused (empty field or taken username). */
  method SubmitUser(store: DataProvider, form: UserForm, editingId: Option<Id>, freshId: Id)
    returns (saved: bool, nextForm: UserForm, nextEditing: Option<Id>)
    modifies store`users, store`currentUser
    ensures store.users == UsersAfterSubmit(old(store.users), form, editingId, freshId)
    ensures saved <==> BuildUser(form, editingId, freshId).Some? &&
                       (Editing(editingId) || !UsernameTaken(old(store.users), form.username))
    ensures store.currentUser ==
              if saved && Editing(editingId) then SessionAfterUserUpdate(old(store.currentUser), BuildUser(form, editingId, freshId).value)
              else old(store.currentUser)
    ensures saved ==> nextForm == InitialForm && nextEditing == None
    ensures !saved ==> nextForm == form && nextEditing == editingId
    ensures old(store.SessionValid()) ==> store.SessionValid()
  {
    var built := BuildUser(form, editingId, freshId);
    if built.None? {
      return false, form, editingId;
    }
    if Editing(editingId) {
      store.UpdateUser(built.value);
    } else {
      if UsernameTaken(store.users, built.value.username) {
        return false, form, editingId;
      }
      store.AddUser(built.value);
    }
    saved, nextForm, nextEditing := true, InitialForm, None;
  }

  /** The delete button is offered only while there is more than one user and
      the row is not the logged-in user's. */
  predicate CanDeleteUser(users: seq<User>, currentUser: Option<User>, target: User) {
    |users| > 1 && (currentUser.None? || currentUser.value.id != target.id)
  }

  /** A deletion the page offers never removes the logged-in user: the session
      stays in the list, which therefore keeps at least one user. */
  lemma OfferedDeleteKeepsSession(users: seq<User>, currentUser: Option<User>, target: User)
    requires SessionIn(users, currentUser)
    requires CanDeleteUser(users, currentUser, target)
    ensures SessionIn(WithoutKey(users, UserId, target.id), currentUser)
    ensures currentUser.Some? ==> |WithoutKey(users, UserId, target.id)| > 0
  {
    DeleteUserKeepsSession(users, currentUser, target.id);
  }
}
