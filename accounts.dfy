/**
 * The account endpoints (backend/controllers/authController.js) over an
 * in-memory user collection keyed by id: registration, login, profile and
 * password changes, and account deletion together with the user's projects.
 * Password hashing is the store's `hash` function; `compare` is equality
 * of hashes.
 */
module Accounts {
  import opened Wrappers
  import Projects

  /**
   * A value as a JSON body carries it: the property missing (`undefined`),
   * `null`, or a string.
   */
  datatype JsonString = Undefined | Null | Text(value: string)

  /** A stored user; `password` holds the hash. */
  datatype User = User(name: string, email: string, password: string, role: string, profilePicture: JsonString)

  /** The user object of a response: every field but the password. */
  datatype UserView = UserView(id: string, name: string, email: string, role: string, profilePicture: JsonString)

  const UserExists := Projects.Failure(400, "User already exists")
  const InvalidCredentials := Projects.Failure(400, "Invalid credentials")
  const UserNotFound := Projects.Failure(404, "User not found")
  const WrongPassword := Projects.Failure(400, "Incorrect current password")
  const PasswordUpdated := "Password updated successfully"
  const AccountDeleted := "Account and associated data deleted successfully"

  function View(id: string, u: User): UserView {
    UserView(id, u.name, u.email, u.role, u.profilePicture)
  }

  datatype RegisterBody = RegisterBody(name: string, email: string, password: string, role: Option<string>)

  /** `role || 'user'`. */
  function RoleOf(role: Option<string>): (r: string)
    ensures Truthy(role) ==> r == role.value
    ensures !Truthy(role) ==> r == "user"
    ensures r != ""
  {
    if Truthy(role) then role.value else "user"
  }

  /**
   * A registered user: the body's name and email, the hashed password, the
   * role or "user", and no picture set.
   */
  function NewUser(body: RegisterBody, hash: string -> string): (u: User)
    ensures u.name == body.name && u.email == body.email
    ensures u.password == hash(body.password) && u.role == RoleOf(body.role)
    ensures u.profilePicture == Undefined
  {
    User(body.name, body.email, hash(body.password), RoleOf(body.role), Undefined)
  }

  predicate EmailTaken(users: map<string, User>, email: string) {
    exists id :: id in users && users[id].email == email
  }

  /** What `login` accepts: a user with that email whose stored hash is the password's hash. */
  predicate Authenticates(users: map<string, User>, hash: string -> string, email: string, password: string) {
    exists id :: id in users && users[id].email == email && users[id].password == hash(password)
  }

  /** The fields `updateProfile` reads from the body; a `None` name is `undefined`. */
  datatype ProfileBody = ProfileBody(name: Option<string>, profilePicture: JsonString)

  /**
   * A truthy name replaces the name; a picture that is not `undefined`,
   * `null` and "" included, replaces the picture; email, role and password
   * stay.
   */
  function Profiled(u: User, body: ProfileBody): (v: User)
    ensures v.email == u.email && v.role == u.role && v.password == u.password
    ensures Truthy(body.name) ==> v.name == body.name.value
    ensures !Truthy(body.name) ==> v.name == u.name
    ensures body.profilePicture != Undefined ==> v.profilePicture == body.profilePicture
    ensures body.profilePicture == Undefined ==> v.profilePicture == u.profilePicture
  {
    u.(name := if Truthy(body.name) then body.name.value else u.name,
       profilePicture := if body.profilePicture != Undefined then body.profilePicture else u.profilePicture)
  }

  /** Sending the same profile change twice is the same as sending it once. */
  lemma ProfiledIdempotent(u: User, body: ProfileBody)
    ensures Profiled(Profiled(u, body), body) == Profiled(u, body)
  {
  }

  /** No two users share an email address. */
  ghost predicate UniqueEmails(users: map<string, User>) {
    forall a, b :: a in users && b in users && users[a].email == users[b].email ==> a == b
  }

  /** Replacing a user by one with the same email keeps the addresses unique. */
  lemma SameEmailKeepsUnique(users: map<string, User>, id: string, u: User)
    requires UniqueEmails(users) && id in users && u.email == users[id].email
    ensures UniqueEmails(users[id := u])
  {
  }

  class UserStore {
    const hash: string -> string
    var users: map<string, User>

    ghost predicate Valid()
      reads this
    {
      UniqueEmails(users)
    }

    constructor(hash: string -> string)
      ensures Valid() && users == map[] && this.hash == hash
    {
      this.hash := hash;
      users := map[];
    }

    /**
     * `register`: a known email is a 400 and changes nothing; otherwise the
     * new user is stored under the fresh id `newId` and can log in with the
     * given password.
     */
    method Register(body: RegisterBody, newId: string) returns (r: Result<UserView, Projects.Failure>)
      requires Valid()
      requires newId !in users
      modifies this
      ensures Valid()
      ensures EmailTaken(old(users), body.email) ==> r == Err(UserExists) && users == old(users)
      ensures !EmailTaken(old(users), body.email) ==>
                users == old(users)[newId := NewUser(body, hash)] && r == Ok(View(newId, NewUser(body, hash)))
      ensures r.Ok? ==> Authenticates(users, hash, body.email, body.password)
    {
      if EmailTaken(users, body.email) {
        return Err(UserExists);
      }
      var u := NewUser(body, hash);
      users := users[newId := u];
      assert users[newId].email == body.email;
      r := Ok(View(newId, u));
    }

    /**
     * `login`: succeeds exactly when the credentials authenticate, with the
     * matching user; an unknown email and a wrong password give the same
     * 400. Nothing changes.
     */
    method Login(email: string, password: string) returns (r: Result<UserView, Projects.Failure>)
      requires Valid()
      ensures r.Ok? <==> Authenticates(users, hash, email, password)
      ensures r.Err? ==> r.error == InvalidCredentials
      ensures r.Ok? ==> r.value.id in users && r.value == View(r.value.id, users[r.value.id]) && r.value.email == email
    {
      if !EmailTaken(users, email) {
        return Err(InvalidCredentials);
      }
      var id :| id in users && users[id].email == email;
      if users[id].password != hash(password) {
        return Err(InvalidCredentials);
      }
      r := Ok(View(id, users[id]));
    }

    /** `getUser`: the caller's own record without the password, or a 404. */
    method GetUser(id: string) returns (r: Result<UserView, Projects.Failure>)
      ensures id !in users ==> r == Err(UserNotFound)
      ensures id in users ==> r == Ok(View(id, users[id]))
    {
      if id !in users {
        return Err(UserNotFound);
      }
      r := Ok(View(id, users[id]));
    }

    /** `updateProfile`: 404 for an unknown caller; otherwise only that user's name and picture change. */
    method UpdateProfile(id: string, body: ProfileBody) returns (r: Result<UserView, Projects.Failure>)
      requires Valid()
      modifies this
      ensures Valid()
      ensures id !in old(users) ==> r == Err(UserNotFound) && users == old(users)
      ensures id in old(users) ==>
                users == old(users)[id := Profiled(old(users)[id], body)]
                && r == Ok(View(id, Profiled(old(users)[id], body)))
    {
      if id !in users {
        return Err(UserNotFound);
      }
      var u := Profiled(users[id], body);
      SameEmailKeepsUnique(users, id, u);
      users := users[id := u];
      r := Ok(View(id, u));
    }

    /**
     * `updatePassword`: 404 for an unknown caller; a current password that
     * does not match is a 400 and keeps the stored hash; otherwise the hash
     * of the new password is stored, and the new password logs in.
     */
    method UpdatePassword(id: string, currentPassword: string, newPassword: string) returns (r: Result<string, Projects.Failure>)
      requires Valid()
      modifies this
      ensures Valid()
      ensures id !in old(users) ==> r == Err(UserNotFound) && users == old(users)
      ensures id in old(users) && old(users)[id].password != hash(currentPassword) ==>
                r == Err(WrongPassword) && users == old(users)
      ensures id in old(users) && old(users)[id].password == hash(currentPassword) ==>
                r == Ok(PasswordUpdated) && users == old(users)[id := old(users)[id].(password := hash(newPassword))]
      ensures r.Ok? ==> Authenticates(users, hash, users[id].email, newPassword)
    {
      if id !in users {
        return Err(UserNotFound);
      }
      if users[id].password != hash(currentPassword) {
        return Err(WrongPassword);
      }
      var u := users[id].(password := hash(newPassword));
      SameEmailKeepsUnique(users, id, u);
      users := users[id := u];
      r := Ok(PasswordUpdated);
    }

    /**
     * `deleteAccount` as written: the user is removed, and the projects are
     * deleted with a filter on a `user` path that no project has, so every
     * project stays, the user's own included.
     */
    method DeleteAccountAsWritten(id: string, store: Projects.ProjectStore) returns (r: Result<string, Projects.Failure>)
      requires Valid() && store.Valid()
      modifies this, store
      ensures Valid() && store.Valid()
      ensures id !in old(users) ==> r == Err(UserNotFound) && users == old(users) && store.projects == old(store.projects)
      ensures id in old(users) ==> r == Ok(AccountDeleted) && users == old(users) - {id}
      ensures store.projects == old(store.projects)
    {
      if id !in users {
        return Err(UserNotFound);
      }
      Projects.UserFilterDeletesNothing(store.projects, id);
      store.DeleteMany("user", id);
      users := users - {id};
      r := Ok(AccountDeleted);
    }

    /**
     * `deleteAccount` with the filter on the owner path: the user is
     * removed together with exactly the projects they own.
     */
    method DeleteAccount(id: string, store: Projects.ProjectStore) returns (r: Result<string, Projects.Failure>)
      requires Valid() && store.Valid()
      modifies this, store
      ensures Valid() && store.Valid()
      ensures id !in old(users) ==> r == Err(UserNotFound) && users == old(users) && store.projects == old(store.projects)
      ensures id in old(users) ==> r == Ok(AccountDeleted) && users == old(users) - {id}
      ensures id in old(users) ==>
                (forall k :: k in store.projects <==> k in old(store.projects) && old(store.projects)[k].userId != id)
                && (forall k :: k in store.projects ==> store.projects[k] == old(store.projects)[k])
    {
      if id !in users {
        return Err(UserNotFound);
      }
      Projects.OwnerFilterDeletesOwned(store.projects, id);
      store.DeleteMany("userId", id);
      users := users - {id};
      r := Ok(AccountDeleted);
    }
  }
}
