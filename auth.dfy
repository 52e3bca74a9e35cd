/** The demo account registry and the current user
    (src/contexts/AuthContext.tsx). Two demo accounts are fixed; accounts made
    by signup live in a map keyed by the lower-cased email, which the browser
    keeps in local storage and the model keeps as a field. */
module Auth {
  import opened Wrappers
  import opened Types
  import opened Text

  datatype User = User(
    id: string,
    email: string,
    fullName: string,
    role: Role,
    phone: Option<string>,
    school: Option<string>,
    grade: Option<string>,
    bio: Option<string>,
    avatar: Option<string>)

  /** A registry entry: the plain-text password and the user. */
  datatype Account = Account(password: string, user: User)

  datatype SignupData = SignupData(
    fullName: string,
    email: string,
    password: string,
    phone: Option<string>,
    school: Option<string>,
    grade: Option<string>,
    bio: Option<string>,
    avatar: Option<string>)

  /** `{ success, error? }` as login and signup return it. */
  datatype Outcome = Succeeded | Failed(error: string)

  const LoginError: string := "البريد الإلكتروني أو كلمة المرور غير صحيحة"
  const EmailTakenByDemo: string := "هذا البريد الإلكتروني مستخدم بالفعل"
  const EmailAlreadyRegistered: string := "هذا البريد الإلكتروني مسجل بالفعل"

  /** The two built-in accounts, keyed by email. */
  function DemoUsers(): map<string, Account> {
    map[
      "student@demo.com" := Account("123456", User(
        "student-1", "student@demo.com", "أحمد محمد", Student, Some("01012345678"),
        Some("مدرسة وي للتكنولوجيا التطبيقية"), Some("الصف الثاني"),
        Some("طالب شغوف بالتكنولوجيا والبرمجة"), None)),
      "admin@demo.com" := Account("123456", User(
        "admin-1", "admin@demo.com", "محمد أحمد", Admin, Some("01098765432"),
        None, None, Some("مدير المنصة"), None))
    ]
  }

  /** login's decision: the demo table first, then the registry, both under
      the lower-cased email; only an exact password match succeeds, and a
      demo entry with the wrong password falls through to the registry. */
  function Authenticate(registered: map<string, Account>, email: string, password: string)
    : (r: Result<User, string>)
    ensures r.Ok? <==>
      (Lower(email) in DemoUsers() && DemoUsers()[Lower(email)].password == password)
      || (Lower(email) in registered && registered[Lower(email)].password == password)
    ensures r.Err? ==> r.error == LoginError
  {
    var key := Lower(email);
    if key in DemoUsers() && DemoUsers()[key].password == password then Ok(DemoUsers()[key].user)
    else if key in registered && registered[key].password == password then Ok(registered[key].user)
    else Err(LoginError)
  }

  /** signup's checks, in order: a demo email, then a registered email. */
  function SignupError(registered: map<string, Account>, email: string): (e: Option<string>)
    ensures e.None? <==> Lower(email) !in DemoUsers() && Lower(email) !in registered
  {
    var key := Lower(email);
    if key in DemoUsers() then Some(EmailTakenByDemo)
    else if key in registered then Some(EmailAlreadyRegistered)
    else None
  }

  /** The user signup creates: a student under the lower-cased email. */
  function NewUser(data: SignupData, id: string): User {
    User(id, Lower(data.email), data.fullName, Student, data.phone, data.school,
         data.grade, data.bio, data.avatar)
  }

  /** The registry after a successful signup. */
  function Register(registered: map<string, Account>, data: SignupData, id: string)
    : map<string, Account>
  {
    registered[Lower(data.email) := Account(data.password, NewUser(data, id))]
  }

  /** What the registry looks like when only signup and updateUser write it:
      every key is lower-case and none is a demo email. */
  ghost predicate RegistryValid(registered: map<string, Account>) {
    forall k :: k in registered ==> k !in DemoUsers() && Lower(k) == k
  }

  /** A successful signup adds exactly one entry, under the lower-cased
      email, for a student, and keeps the registry valid. */
  lemma RegisterSpec(registered: map<string, Account>, data: SignupData, id: string)
    requires RegistryValid(registered)
    requires SignupError(registered, data.email).None?
    ensures var r := Register(registered, data, id);
      && r.Keys == registered.Keys + {Lower(data.email)}
      && Lower(data.email) !in registered
      && r[Lower(data.email)].user.role == Student
      && r[Lower(data.email)].user.email == Lower(data.email)
      && (forall k :: k in registered ==> r[k] == registered[k])
      && RegistryValid(r)
  {
    LowerIdempotent(data.email);
  }

  /** The round trip: after a successful signup, logging in with the same
      email in any letter case and the same password yields the new user. */
  lemma SignupThenLogin(registered: map<string, Account>, data: SignupData, id: string, email: string)
    requires SignupError(registered, data.email).None?
    requires Lower(email) == Lower(data.email)
    ensures Authenticate(Register(registered, data, id), email, data.password) == Ok(NewUser(data, id))
  {
  }

  /** A rejected signup names the reason: the demo check comes first. */
  lemma SignupErrorOrder(registered: map<string, Account>, email: string)
    ensures Lower(email) in DemoUsers() ==> SignupError(registered, email) == Some(EmailTakenByDemo)
    ensures Lower(email) !in DemoUsers() && Lower(email) in registered ==>
      SignupError(registered, email) == Some(EmailAlreadyRegistered)
  {
  }

  /** `Partial<User>`: `Some(None)` on an optional field is a present key
      holding `undefined`. */
  datatype UserPatch = UserPatch(
    id: Option<string>,
    email: Option<string>,
    fullName: Option<string>,
    role: Option<Role>,
    phone: Option<Option<string>>,
    school: Option<Option<string>>,
    grade: Option<Option<string>>,
    bio: Option<Option<string>>,
    avatar: Option<Option<string>>)

  /** `{ ...prev, ...data }` */
  function MergeUser(u: User, p: UserPatch): User {
    User(p.id.GetOr(u.id), p.email.GetOr(u.email), p.fullName.GetOr(u.fullName),
         p.role.GetOr(u.role), p.phone.GetOr(u.phone), p.school.GetOr(u.school),
         p.grade.GetOr(u.grade), p.bio.GetOr(u.bio), p.avatar.GetOr(u.avatar))
  }

  class AuthContext {
    var user: Option<User>
    var registered: map<string, Account>

    /** The saved user, if any, and the saved registry (empty when none). */
    constructor (savedUser: Option<User>, savedRegistered: map<string, Account>)
      ensures user == savedUser && registered == savedRegistered
    {
      user := savedUser;
      registered := savedRegistered;
    }

    /** login: on success the matched user becomes current; on failure the
        current user stays. The registry is only read. */
    method Login(email: string, password: string) returns (r: Outcome)
      modifies this
      ensures registered == old(registered)
      ensures var a := Authenticate(old(registered), email, password);
        && (a.Ok? ==> r == Succeeded && user == Some(a.value))
        && (a.Err? ==> r == Failed(LoginError) && user == old(user))
    {
      var a := Authenticate(registered, email, password);
      if a.Ok? {
        user := Some(a.value);
        return Succeeded;
      }
      return Failed(LoginError);
    }

    /** signup: a taken email is refused and nothing changes; otherwise the
        new student is registered and becomes current. */
    method Signup(data: SignupData, freshId: string) returns (r: Outcome)
      modifies this
      ensures var e := SignupError(old(registered), data.email);
        && (e.Some? ==> r == Failed(e.value) && registered == old(registered) && user == old(user))
        && (e.None? ==>
              && r == Succeeded
              && registered == Register(old(registered), data, freshId)
              && user == Some(NewUser(data, freshId)))
    {
      var e := SignupError(registered, data.email);
      if e.Some? {
        return Failed(e.value);
      }
      var newUser := NewUser(data, freshId);
      registered := registered[Lower(data.email) := Account(data.password, newUser)];
      user := Some(newUser);
      r := Succeeded;
    }

    /** logout */
    method Logout()
      modifies this
      ensures user == None && registered == old(registered)
    {
      user := None;
    }

    /** updateUser: nothing without a current user; otherwise the patch is
        merged into the current user and into the registry entry kept under
        the previous email, when there is one. */
    method UpdateUser(p: UserPatch)
      modifies this
      ensures old(user).None? ==> user == None && registered == old(registered)
      ensures old(user).Some? ==>
        var prev := old(user).value;
        var updated := MergeUser(prev, p);
        && user == Some(updated)
        && (prev.email in old(registered) ==>
              registered == old(registered)[prev.email := old(registered)[prev.email].(user := updated)])
        && (prev.email !in old(registered) ==> registered == old(registered))
    {
      if user.None? {
        return;
      }
      var prev := user.value;
      var updated := MergeUser(prev, p);
      user := Some(updated);
      if prev.email in registered {
        registered := registered[prev.email := registered[prev.email].(user := updated)];
      }
    }
  }

  /** updateUser keeps the keys of the registry, so it keeps it valid. */
  lemma UpdateKeepsRegistryValid(registered: map<string, Account>, key: string, u: User)
    requires RegistryValid(registered)
    requires key in registered
    ensures RegistryValid(registered[key := registered[key].(user := u)])
  {
  }
}
