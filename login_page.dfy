/** The login form (src/pages/LoginPage.tsx): it hands the typed email and
    password to login, then picks a destination from the typed email. */
module LoginPage {
  import opened Wrappers
  import opened Types
  import opened Text
  import opened Auth

  /** Where a successful login goes: the admin area exactly for the demo
      admin's email, in any letter case, and the student area otherwise. The
      choice looks at the email, not at the user's role. */
  function LoginDestination(email: string): (path: string)
    ensures path == "/admin" || path == "/student"
    ensures path == "/admin" ==> Lower(email) == "admin@demo.com"
    ensures Lower(email) == "admin@demo.com" ==> path == "/admin"
  {
    if Lower(email) == "admin@demo.com" then "/admin" else "/student"
  }

  /** What the form does after submitting: navigate, or show the error and
      stay. */
  datatype LoginResult = GoTo(path: string) | ShowError(message: string)

  /** While the registry holds only students under non-demo keys, the
      email-based destination agrees with the logged-in user's role: the
      admin area for an admin and the student area for a student. */
  lemma DestinationMatchesRole(registered: map<string, Account>, email: string, password: string)
    requires RegistryValid(registered)
    requires forall k :: k in registered ==> registered[k].user.role == Student
    requires Authenticate(registered, email, password).Ok?
    ensures var u := Authenticate(registered, email, password).value;
      LoginDestination(email) == (if u.role == Admin then "/admin" else "/student")
  {
    var key := Lower(email);
    assert DemoUsers().Keys == {"student@demo.com", "admin@demo.com"};
    if key in DemoUsers() && DemoUsers()[key].password == password {
      if key == "admin@demo.com" {
        assert DemoUsers()[key].user.role == Admin;
      } else {
        assert key == "student@demo.com";
        assert DemoUsers()[key].user.role == Student;
      }
    } else {
      assert key in registered;
      assert key != "admin@demo.com";
    }
  }

  class LoginForm {
    var email: string
    var password: string
    var loading: bool

    constructor ()
      ensures email == "" && password == "" && !loading
    {
      email := "";
      password := "";
      loading := false;
    }

    /** handleSubmit: login gets the email and password exactly as typed;
        on success the form goes to the email's destination, on failure it
        shows login's error and stays. Either way it is no longer loading,
        and the typed values are kept. */
    method HandleSubmit(auth: AuthContext) returns (res: LoginResult)
      modifies this, auth
      ensures auth.registered == old(auth.registered)
      ensures var a := Authenticate(old(auth.registered), email, password);
        && (a.Ok? ==> auth.user == Some(a.value) && res == GoTo(LoginDestination(email)))
        && (a.Err? ==> auth.user == old(auth.user) && res == ShowError(LoginError))
      ensures email == old(email) && password == old(password) && !loading
    {
      loading := true;
      var outcome := auth.Login(email, password);
      if outcome.Succeeded? {
        res := GoTo(LoginDestination(email));
      } else {
        res := ShowError(outcome.error);
      }
      loading := false;
    }
  }
}
