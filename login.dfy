/** The login form of app/login/page.tsx: its schema, the change handler and the
    submit procedure (validate, look the email up, compare the password, set the
    session flag, report and navigate). */
module Login {
  import opened Utils
  import opened Forms

  datatype LoginField = Email | Password

  datatype LoginFormData = LoginFormData(email: string, password: string) {
    function Get(f: LoginField): string
    {
      match f
      case Email => email
      case Password => password
    }
  }

  const SuccessMessage: string := "Login successful! Redirecting to dashboard..."
  const InvalidMessage: string := "Invalid email or password. Try demo@example.com / password"

  /** loginSchema, in field order. `isEmail` stands for zod's email check. */
  function LoginIssues(form: LoginFormData, isEmail: string -> bool): (issues: seq<Issue<LoginField>>)
    ensures issues == [] <==> isEmail(form.email) && |form.password| >= 6
  {
    Check(isEmail(form.email), Email, EmailMessage)
      + Check(|form.password| >= 6, Password, PasswordMessage)
  }

  /** The errors the catch block shows: one entry per failing field, with that field's message. */
  function LoginErrors(form: LoginFormData, isEmail: string -> bool): (errors: map<LoginField, string>)
    ensures Email in errors <==> !isEmail(form.email)
    ensures Password in errors <==> |form.password| < 6
    ensures Email in errors ==> errors[Email] == EmailMessage
    ensures Password in errors ==> errors[Password] == PasswordMessage
  {
    var c1 := Check(isEmail(form.email), Email, EmailMessage);
    var c2 := Check(|form.password| >= 6, Password, PasswordMessage);
    assert [] + c1 == c1;
    FieldErrorsThenCheck([], isEmail(form.email), Email, EmailMessage);
    FieldErrorsThenCheck(c1, |form.password| >= 6, Password, PasswordMessage);
    FieldErrors(LoginIssues(form, isEmail))
  }

  /** How one submission ends, decided from the form and the stored collection. */
  datatype LoginVerdict =
    | Rejected(errors: map<LoginField, string>)  // the ZodError branch
    | Granted(id: nat)                           // the record at `id` is marked logged in
    | WrongCredentials                           // the else branch of the credential test
    | Unexpected                                 // a TypeError caught by the generic branch

  /** The decision handleSubmit takes. An unknown email makes `users[id]` undefined, and
      reading its password throws before any credential test. The email test is always
      true once the lookup found the record, so access depends on the password alone. */
  function LoginDecision(form: LoginFormData, users: seq<UserRecord>, isEmail: string -> bool, kdf: Kdf): (v: LoginVerdict)
    ensures v.Rejected? <==> !(isEmail(form.email) && |form.password| >= 6)
    ensures v.Rejected? ==> v.errors == LoginErrors(form, isEmail)
    ensures v.Unexpected? <==> !v.Rejected? && forall k :: 0 <= k < |users| ==> users[k].email != form.email
    ensures v.Granted? <==> (!v.Rejected? && 0 <= FindUserByEmail(users, form.email)
                             && ComparePassword(kdf, form.password, users[FindUserByEmail(users, form.email)].password))
    ensures v.Granted? ==> v.id == FindUserByEmail(users, form.email) && users[v.id].email == form.email
    ensures v.WrongCredentials? <==> (!v.Rejected? && 0 <= FindUserByEmail(users, form.email)
                                      && !ComparePassword(kdf, form.password, users[FindUserByEmail(users, form.email)].password))
  {
    var issues := LoginIssues(form, isEmail);
    if issues != [] then Rejected(FieldErrors(issues))
    else
      var id := FindUserByEmail(users, form.email);
      if id == -1 then Unexpected
      else if form.email == users[id].email && ComparePassword(kdf, form.password, users[id].password) then Granted(id)
      else WrongCredentials
  }

  /** The collection a verdict leaves in storage. */
  function AfterLogin(v: LoginVerdict, users: seq<UserRecord>): seq<UserRecord>
  {
    if v.Granted? && v.id < |users| then SetLoggedIn(users, v.id, true) else users
  }

  class LoginPage {
    const storage: LocalStorage
    const isEmail: string -> bool
    const kdf: Kdf
    var formData: LoginFormData
    var errors: map<LoginField, string>
    var status: Status
    var isLoading: bool
    /** Destinations passed to router.push, in order. */
    var pushed: seq<string>

    constructor (storage: LocalStorage, isEmail: string -> bool, kdf: Kdf)
      ensures this.storage == storage && this.isEmail == isEmail && this.kdf == kdf
      ensures formData == LoginFormData("", "") && errors == map[] && status == Cleared
      ensures !isLoading && pushed == []
    {
      this.storage, this.isEmail, this.kdf := storage, isEmail, kdf;
      formData := LoginFormData("", "");
      errors, status, isLoading, pushed := map[], Cleared, false, [];
    }

    /** handleChange: the named field takes the typed value and its error, when one is
        shown (a non-empty message), is cleared; nothing else changes. */
    method HandleChange(name: LoginField, value: string)
      modifies this
      ensures formData.Get(name) == value
      ensures forall f :: f != name ==> formData.Get(f) == old(formData).Get(f)
      ensures errors == if name in old(errors) && old(errors)[name] != "" then old(errors) - {name} else old(errors)
      ensures status == old(status) && isLoading == old(isLoading) && pushed == old(pushed)
    {
      match name {
        case Email => formData := formData.(email := value);
        case Password => formData := formData.(password := value);
      }
      if name in errors && errors[name] != "" {
        errors := errors - {name};
      }
    }

    /** handleSubmit. A rejected form replaces the errors and leaves the banner cleared;
        every other outcome keeps the errors shown before. Only a granted login writes
        storage, and it sets that one record's flag without clearing anyone else's. */
    method HandleSubmit()
      modifies this, storage
      ensures formData == old(formData) && !isLoading
      ensures var users := Stored(old(storage.items), FleetUser);
              var v := LoginDecision(formData, users, isEmail, kdf);
              && (v.Rejected? ==> errors == v.errors && status == Cleared)
              && (!v.Rejected? ==> errors == old(errors))
              && (v.Granted? ==> status == Success(SuccessMessage))
              && (v.WrongCredentials? ==> status == Error(InvalidMessage))
              && (v.Unexpected? ==> status == Error(UnexpectedMessage))
              && (v.Granted? ==> storage.items == old(storage.items)[FleetUser := AfterLogin(v, users)])
              && (!v.Granted? ==> storage.items == old(storage.items))
              && pushed == old(pushed) + (if v.Granted? then [DashboardRoute] else [])
    {
      status := Cleared;
      var issues := LoginIssues(formData, isEmail);
      if issues != [] {
        errors := FieldErrors(issues);
      } else {
        isLoading := true;
        var users := GetUsersFromStorage(storage, FleetUser);
        var id := FindUserByEmail(users[..], formData.email);
        if id == -1 {
          // users[-1] is undefined: reading its password throws, and the catch block
          // reports the error as unexpected.
          status := Error(UnexpectedMessage);
        } else {
          var user := users[id];
          var isCorrectPwd := ComparePassword(kdf, formData.password, user.password);
          if formData.email == user.email && isCorrectPwd {
            status := Success(SuccessMessage);
            var again := GetUsersFromStorage(storage, FleetUser);
            var againId := FindUserByEmail(again[..], formData.email);
            UpdateUserInStorage(storage, again, againId, true);
            pushed := pushed + [DashboardRoute];
          } else {
            status := Error(InvalidMessage);
          }
        }
      }
      isLoading := false;
    }
  }

  /** A granted login marks the found record and leaves every other record, and so every
      other session flag, as it was. */
  lemma LoginKeepsOtherSessions(form: LoginFormData, users: seq<UserRecord>, isEmail: string -> bool, kdf: Kdf)
    requires LoginDecision(form, users, isEmail, kdf).Granted?
    ensures var v := LoginDecision(form, users, isEmail, kdf);
            var after := AfterLogin(v, users);
            && |after| == |users| && after[v.id].isLoggedIn && after[v.id].email == form.email
            && forall k :: 0 <= k < |users| && k != v.id ==> after[k] == users[k]
  {
  }
}
