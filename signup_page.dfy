/** The signup form (src/pages/SignupPage.tsx): two password checks in a
    fixed order, then signup, then a destination or an error. */
module SignupPage {
  import opened Wrappers
  import opened Text
  import opened Auth

  const PasswordMismatch: string := "كلمة المرور غير متطابقة"
  const PasswordTooShort: string := "كلمة المرور يجب أن تكون 6 أحرف على الأقل"

  /** The form's own checks: the confirmation must match first, and only
      then is the length (in UTF-16 code units) checked against 6. */
  function PasswordError(password: string, confirm: string): (e: Option<string>)
    ensures e.None? <==> password == confirm && Utf16Length(password) >= 6
    ensures password != confirm ==> e == Some(PasswordMismatch)
    ensures password == confirm && Utf16Length(password) < 6 ==> e == Some(PasswordTooShort)
  {
    if password != confirm then Some(PasswordMismatch)
    else if Utf16Length(password) < 6 then Some(PasswordTooShort)
    else None
  }

  /** A password of six or more characters always passes the length check
      and one of fewer than three never does; from three to five characters
      the outcome depends on how many of them lie above U+FFFF, each of which
      counts twice. */
  lemma LengthBoundsOfCheck(password: string)
    ensures |password| >= 6 ==> PasswordError(password, password).None?
    ensures |password| < 3 ==> PasswordError(password, password) == Some(PasswordTooShort)
  {
  }

  datatype SignupResult = GoTo(path: string) | ShowError(message: string)

  class SignupForm {
    var fullName: string
    var email: string
    var password: string
    var confirmPassword: string
    var phone: string
    var school: string
    var grade: string
    var bio: string
    var avatar: Option<string>
    var loading: bool

    constructor ()
      ensures fullName == "" && email == "" && password == "" && confirmPassword == ""
      ensures phone == "" && school == "" && grade == "" && bio == "" && avatar == None
      ensures !loading
    {
      fullName, email, password, confirmPassword := "", "", "", "";
      phone, school, grade, bio := "", "", "", "";
      avatar := None;
      loading := false;
    }

    /** The data handed to signup: the text fields as typed, empty ones
        included. */
    function Data(): SignupData
      reads this
    {
      SignupData(fullName, email, password, Some(phone), Some(school), Some(grade), Some(bio), avatar)
    }

    /** handleSubmit: a failed password check shows its message and leaves
        the account registry and the current user alone; otherwise signup
        runs, and the form goes to the student area on success or shows
        signup's error. Once signup has run the form is no longer loading. */
    method HandleSubmit(auth: AuthContext, freshId: string) returns (res: SignupResult)
      modifies this, auth
      ensures var pe := PasswordError(old(password), old(confirmPassword));
        var se := SignupError(old(auth.registered), old(email));
        && (pe.Some? ==>
              && res == ShowError(pe.value)
              && auth.registered == old(auth.registered) && auth.user == old(auth.user)
              && loading == old(loading))
        && (pe.None? && se.Some? ==>
              && res == ShowError(se.value)
              && auth.registered == old(auth.registered) && auth.user == old(auth.user))
        && (pe.None? && se.None? ==>
              && res == GoTo("/student")
              && auth.registered == Register(old(auth.registered), old(Data()), freshId)
              && auth.user == Some(NewUser(old(Data()), freshId)))
        && (pe.None? ==> !loading)
      ensures Data() == old(Data()) && confirmPassword == old(confirmPassword)
    {
      var pe := PasswordError(password, confirmPassword);
      if pe.Some? {
        return ShowError(pe.value);
      }
      loading := true;
      var outcome := auth.Signup(Data(), freshId);
      if outcome.Succeeded? {
        res := GoTo("/student");
      } else {
        res := ShowError(outcome.error);
      }
      loading := false;
    }
  }
}
