/**
 * The authentication context: a mock login against three fixed demo accounts,
 * one per role, and the signed-in user mirrored into the browser's storage.
 * It is a state machine over the signed-in user, not a security boundary.
 */
module Auth {
  import opened Options

  datatype Role = Admin | Officer | Citizen

  /** One entry of `TEST_ACCOUNTS`. */
  datatype Account = Account(email: string, password: string, name: string)

  /** `TEST_ACCOUNTS[role]`. */
  function TestAccount(role: Role): Account {
    match role
    case Officer => Account("urzednik@gov.pl", "urzednik123", "Jan Urzędnik")
    case Admin => Account("admin@gov.pl", "admin123", "Admin System")
    case Citizen => Account("obywatel@example.com", "obywatel123", "Anna Obywatel")
  }

  datatype User = User(
    id: string,
    email: string,
    name: string,
    role: Role,
    subscriptions: seq<string>,
    createdAt: string)

  /** The credential check of `login`: a role must be given, and the email and
      password must be exactly those of that role's demo account. */
  function Accepts(role: Option<Role>, email: string, password: string): (accepted: bool)
    ensures role.None? ==> !accepted
    ensures accepted ==> forall other :: other != role.value ==> email != TestAccount(other).email
  {
    role.Some? && email == TestAccount(role.value).email && password == TestAccount(role.value).password
  }

  /** A call without a role is always refused, whatever the credentials. */
  lemma NoRoleNoLogin(email: string, password: string)
    ensures !Accepts(None, email, password)
  {
  }

  /** The demo credentials of one role never open another role's account. */
  lemma RolesDoNotShareCredentials(r1: Role, r2: Role, email: string, password: string)
    requires Accepts(Some(r1), email, password) && Accepts(Some(r2), email, password)
    ensures r1 == r2
  {
  }

  /** Each role's own demo credentials are accepted for it. */
  lemma DemoAccountsWork(role: Role)
    ensures Accepts(Some(role), TestAccount(role).email, TestAccount(role).password)
  {
  }

  /** The provider's state: the user held by `useState`, and the "user" and
      "token" entries of local storage. */
  class AuthContext {
    var user: Option<User>
    var storedUser: Option<User>
    var token: Option<string>

    /** Storage always holds the signed-in user. */
    predicate Persisted()
      reads this
    {
      storedUser == user
    }

    /** The provider starts from the user saved in storage, if any. */
    constructor(saved: Option<User>, savedToken: Option<string>)
      ensures user == saved && storedUser == saved && token == savedToken
      ensures Persisted()
    {
      user := saved;
      storedUser := saved;
      token := savedToken;
    }

    /** `isAuthenticated: !!user`. */
    predicate IsAuthenticated()
      reads this
    {
      user.Some?
    }

    /** `login(email, password, role)`. The random id and the clock are
        parameters; a missing `role` is `None`. A refused login changes nothing. */
    method Login(email: string, password: string, role: Option<Role>, newId: string, now: string)
      returns (ok: bool)
      modifies this
      ensures ok <==> Accepts(role, email, password)
      ensures ok ==> user == Some(User(newId, email, TestAccount(role.value).name, role.value, [], now))
      ensures ok ==> IsAuthenticated() && storedUser == user
      ensures !ok ==> user == old(user) && storedUser == old(storedUser)
      ensures token == old(token)
    {
      if Accepts(role, email, password) {
        var account := TestAccount(role.value);
        var u := User(newId, email, account.name, role.value, [], now);
        user := Some(u);
        storedUser := Some(u);
        return true;
      }
      return false;
    }

    /** `logout`: the user and both storage entries are gone. */
    method Logout()
      modifies this
      ensures user == None && storedUser == None && token == None
      ensures !IsAuthenticated() && Persisted()
    {
      user := None;
      storedUser := None;
      token := None;
    }

    /** `updateSubscriptions`: replaces the signed-in user's list, keeping the
        rest of the user; without a user nothing happens. */
    method UpdateSubscriptions(subscriptions: seq<string>)
      modifies this
      ensures old(user).None? ==> user == None && storedUser == old(storedUser)
      ensures old(user).Some? ==>
                user == Some(old(user).value.(subscriptions := subscriptions)) && storedUser == user
      ensures token == old(token)
    {
      if user.Some? {
        var updated := user.value.(subscriptions := subscriptions);
        user := Some(updated);
        storedUser := Some(updated);
      }
    }
  }
}
