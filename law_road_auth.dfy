/**
 * The authentication context of the earlier (law-road) revision: any non-empty
 * email and password sign in as an editor whose name is the email's local part.
 */
module LawRoadAuth {
  import opened Options
  import opened Text

  datatype Role = User | Editor | Admin

  datatype Account = Account(id: string, email: string, name: string, role: Role)

  /** `email.split("@")[0]`: everything before the first "@", or the whole
      address when it has none. */
  function DisplayName(email: string): (name: string)
    ensures StartsWith(email, name)
    ensures '@' !in name
    ensures '@' in email ==> email[|name|] == '@'
    ensures '@' !in email ==> name == email
  {
    BeforeFirstIsFirstPiece(email, '@');
    Split(email, '@')[0]
  }

  class AuthContext {
    var user: Option<Account>
    var storedUser: Option<Account>

    constructor(saved: Option<Account>)
      ensures user == saved && storedUser == saved
    {
      user := saved;
      storedUser := saved;
    }

    predicate IsAuthenticated()
      reads this
    {
      user.Some?
    }

    /** `login`: succeeds exactly when both strings are non-empty, with the fixed
        id "1" and the editor role; a refused login changes nothing. */
    method Login(email: string, password: string) returns (ok: bool)
      modifies this
      ensures ok <==> email != "" && password != ""
      ensures ok ==> user == Some(Account("1", email, DisplayName(email), Editor)) && storedUser == user
      ensures !ok ==> user == old(user) && storedUser == old(storedUser)
    {
      if email != "" && password != "" {
        var u := Account("1", email, DisplayName(email), Editor);
        user := Some(u);
        storedUser := Some(u);
        return true;
      }
      return false;
    }

    method Logout()
      modifies this
      ensures user == None && storedUser == None
      ensures !IsAuthenticated()
    {
      user := None;
      storedUser := None;
    }
  }
}
