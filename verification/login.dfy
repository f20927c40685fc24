/**
 * The credential gate of the application component: two fixed reference
 * strings, an exact comparison, and two pieces of state (the logged-in flag
 * and the error text shown under the form). There is no attempt counter, no
 * delay and no logout.
 */
module LoginGate {

  const ValidUsername: string := "demo"
  const ValidPassword: string := "password123"
  const InvalidCredentials: string := "Invalid username or password"

  /** The comparison the submit handler makes: both strings, exactly, case-sensitively. */
  predicate Authenticates(username: string, password: string)
  {
    username == ValidUsername && password == ValidPassword
  }

  /** Exactly one pair is accepted; any change to either string, even of letter case, is refused. */
  lemma OnlyTheReferencePairAuthenticates(username: string, password: string)
    ensures Authenticates(username, password) <==> username == "demo" && password == "password123"
    ensures Authenticates(username, password) ==> |username| == 4 && |password| == 11
    ensures !Authenticates("Demo", "password123") && !Authenticates("demo", "Password123")
    ensures !Authenticates("demo ", "password123") && !Authenticates("", "")
  {
  }

  /** The application component `SecurePDFApp`: login form state plus the flag that mounts the viewer. */
  class SecurePDFApp {
    var isLoggedIn: bool
    var username: string
    var password: string
    var loginError: string

    /** Mount: empty form, not logged in, no error. */
    constructor ()
      ensures !isLoggedIn && username == "" && password == "" && loginError == ""
    {
      isLoggedIn := false;
      username := "";
      password := "";
      loginError := "";
    }

    /** The username field's change handler. */
    method SetUsername(value: string)
      modifies this`username
      ensures username == value
    {
      username := value;
    }

    /** The password field's change handler. */
    method SetPassword(value: string)
      modifies this`password
      ensures password == value
    {
      password := value;
    }

    /**
     * The sign-in button. Both inputs carry the `required` attribute, so the
     * browser's form validation refuses to raise the submit event while either
     * field is empty: nothing changes then. Otherwise the submit event is
     * raised and the submit handler runs; `submitted` says which happened.
     */
    method Submit() returns (submitted: bool)
      modifies this`isLoggedIn, this`loginError
      ensures submitted <==> username != "" && password != ""
      ensures username == "" || password == "" ==>
                isLoggedIn == old(isLoggedIn) && loginError == old(loginError)
      ensures username != "" && password != "" && Authenticates(username, password) ==>
                isLoggedIn && loginError == ""
      ensures username != "" && password != "" && !Authenticates(username, password) ==>
                isLoggedIn == old(isLoggedIn) && loginError == InvalidCredentials
    {
      submitted := username != "" && password != "";
      if !submitted {
        return;
      }
      var defaultPrevented := HandleLogin();
    }

    /**
     * The submit handler. It always cancels the submit event's default
     * action (a page reload), which is what lets this state survive the
     * submission; `defaultPrevented` reports that. On the reference pair the flag is set and the error
     * cleared; on any other pair the error text is set and the flag is left
     * as it was. Nothing else is recorded, so any number of failed attempts
     * leaves the next attempt exactly as able to succeed as the first.
     */
    method HandleLogin() returns (defaultPrevented: bool)
      modifies this`isLoggedIn, this`loginError
      ensures defaultPrevented
      ensures Authenticates(username, password) ==> isLoggedIn && loginError == ""
      ensures !Authenticates(username, password) ==>
                isLoggedIn == old(isLoggedIn) && loginError == InvalidCredentials
      ensures old(isLoggedIn) ==> isLoggedIn
    {
      defaultPrevented := true;
      if username == ValidUsername && password == ValidPassword {
        isLoggedIn := true;
        loginError := "";
      } else {
        loginError := InvalidCredentials;
      }
    }
  }
}
