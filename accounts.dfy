/**
 * The user directory of useUsers.ts as values: the account record, the
 * administrator seeded on first run, and the transforms behind
 * registration, login, role change and activation toggling.
 */
module Accounts {
  import opened Wrappers
  import opened Seqs

  datatype Role = User | Admin

  datatype RegisteredUser = RegisteredUser(
    id: string,
    email: string,
    name: string,
    password: string,
    role: Role,
    registerDate: string,
    isActive: bool)

  /** The directory written when none is stored: one active administrator. */
  function AdminSeed(registerDate: string): (r: seq<RegisteredUser>)
    ensures |r| == 1 && r[0].role == Admin && r[0].isActive
    ensures r[0].id == "admin_1" && r[0].email == "admin@mall.com"
  {
    [RegisteredUser("admin_1", "admin@mall.com", "管理员", "admin123", Admin, registerDate, true)]
  }

  /** `users.find(u => u.email === email)` found someone: the email is taken exactly (case-sensitively). */
  function EmailTaken(users: seq<RegisteredUser>, email: string): (taken: bool)
    ensures taken <==> exists u :: u in users && u.email == email
  {
    Find(users, (u: RegisteredUser) => u.email == email).Some?
  }

  /**
   * `registerUser`: with a fresh email, the directory gains exactly one
   * active ordinary account at its end; with a taken email it is refused
   * and nothing changes.
   */
  function Registered(users: seq<RegisteredUser>, id: string, email: string, password: string,
                      name: string, registerDate: string): (r: (bool, seq<RegisteredUser>))
    ensures r.0 <==> forall u :: u in users ==> u.email != email
    ensures !r.0 ==> r.1 == users
    ensures r.0 ==> r.1 == users + [RegisteredUser(id, email, name, password, User, registerDate, true)]
  {
    if EmailTaken(users, email) then (false, users)
    else (true, users + [RegisteredUser(id, email, name, password, User, registerDate, true)])
  }

  /** Registration never introduces a second account with the same email. */
  lemma RegisteredKeepsEmailsUnique(users: seq<RegisteredUser>, id: string, email: string, password: string,
                                    name: string, registerDate: string)
    requires forall i, j :: 0 <= i < j < |users| ==> users[i].email != users[j].email
    ensures var r := Registered(users, id, email, password, name, registerDate).1;
            forall i, j :: 0 <= i < j < |r| ==> r[i].email != r[j].email
  {
    var r := Registered(users, id, email, password, name, registerDate).1;
    forall i, j | 0 <= i < j < |r| ensures r[i].email != r[j].email {
      if j == |users| {
        assert r[i] == users[i] && users[i] in users;
      } else {
        assert r[i] == users[i] && r[j] == users[j];
      }
    }
  }

  /** `validateLogin`: the first account whose email and password match and which is active. */
  function LoginMatch(users: seq<RegisteredUser>, email: string, password: string): (r: Option<RegisteredUser>)
    ensures r.Some? ==> r.value in users && r.value.email == email && r.value.password == password && r.value.isActive
    ensures r.None? <==> forall u :: u in users ==> !(u.email == email && u.password == password && u.isActive)
  {
    Find(users, (u: RegisteredUser) => u.email == email && u.password == password && u.isActive)
  }

  /** A deactivated account cannot log in, even with the right password. */
  lemma InactiveCannotLogIn(users: seq<RegisteredUser>, email: string, password: string)
    requires forall u :: u in users && u.email == email ==> !u.isActive
    ensures LoginMatch(users, email, password).None?
  {
  }

  /** `updateUserRole`: only the role of accounts with the id changes. */
  function RoleUpdated(users: seq<RegisteredUser>, id: string, role: Role): (r: seq<RegisteredUser>)
    ensures |r| == |users|
    ensures forall i :: 0 <= i < |users| ==> r[i] == if users[i].id == id then users[i].(role := role) else users[i]
  {
    Map(users, (u: RegisteredUser) => if u.id == id then u.(role := role) else u)
  }

  /** `toggleUserStatus`: only the active flag of accounts with the id flips. */
  function StatusToggled(users: seq<RegisteredUser>, id: string): (r: seq<RegisteredUser>)
    ensures |r| == |users|
    ensures forall i :: 0 <= i < |users| ==> r[i] == if users[i].id == id then users[i].(isActive := !users[i].isActive) else users[i]
  {
    Map(users, (u: RegisteredUser) => if u.id == id then u.(isActive := !u.isActive) else u)
  }

  /** Toggling the same account twice restores the directory. */
  lemma ToggleTwiceRestores(users: seq<RegisteredUser>, id: string)
    ensures StatusToggled(StatusToggled(users, id), id) == users
  {
    var r := StatusToggled(StatusToggled(users, id), id);
    assert forall i :: 0 <= i < |users| ==> r[i] == users[i];
  }
}
