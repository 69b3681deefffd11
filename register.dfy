/** The registration form of app/register/page.tsx: its schema with the
    password-confirmation refinement, the change handler and the create-if-absent
    submit procedure. */
module Register {
  import opened Utils
  import opened Forms

  datatype RegisterField = Email | BusinessName | PhoneNumber | Password | ConfirmPassword

  datatype RegisterFormData = RegisterFormData(
    email: string, businessName: string, phoneNumber: string, password: string, confirmPassword: string)
  {
    function Get(f: RegisterField): string
    {
      match f
      case Email => email
      case BusinessName => businessName
      case PhoneNumber => phoneNumber
      case Password => password
      case ConfirmPassword => confirmPassword
    }
  }

  const BusinessNameMessage: string := "Business name must be at least 2 characters"
  const PhoneNumberMessage: string := "Please enter a valid phone number"
  const ConfirmPasswordMessage: string := "Confirm password must be at least 6 characters"
  const MismatchMessage: string := "Passwords do not match"
  const SuccessMessage: string := "Registration successful! Redirecting to dashboard..."

  /** The schema accepts exactly the forms that meet every field check and whose two
      passwords are equal. */
  predicate RegisterAccepts(form: RegisterFormData, isEmail: string -> bool)
  {
    && isEmail(form.email)
    && |form.businessName| >= 2
    && |form.phoneNumber| >= 10
    && |form.password| >= 6
    && |form.confirmPassword| >= 6
    && form.password == form.confirmPassword
  }

  /** registerSchema's issues, in order: the field checks in field order, then the
      refinement, which still runs when field checks failed (they do not abort parsing). */
  function RegisterIssues(form: RegisterFormData, isEmail: string -> bool): (issues: seq<Issue<RegisterField>>)
    ensures issues == [] <==> RegisterAccepts(form, isEmail)
  {
    Check(isEmail(form.email), Email, EmailMessage)
      + Check(|form.businessName| >= 2, BusinessName, BusinessNameMessage)
      + Check(|form.phoneNumber| >= 10, PhoneNumber, PhoneNumberMessage)
      + Check(|form.password| >= 6, Password, PasswordMessage)
      + Check(|form.confirmPassword| >= 6, ConfirmPassword, ConfirmPasswordMessage)
      + Check(form.password == form.confirmPassword, ConfirmPassword, MismatchMessage)
  }

  /** The conversion of the six checks' issues, each outcome and message left open, is
      the six checks recorded one after the other. */
  lemma RegisterChecksFold(ok1: bool, ok2: bool, ok3: bool, ok4: bool, ok5: bool, ok6: bool,
                           m1: string, m2: string, m3: string, m4: string, m5: string, m6: string)
    ensures FieldErrors(Check(ok1, Email, m1) + Check(ok2, BusinessName, m2) + Check(ok3, PhoneNumber, m3)
                        + Check(ok4, Password, m4) + Check(ok5, ConfirmPassword, m5) + Check(ok6, ConfirmPassword, m6))
         == RecordChecks(ok1, ok2, ok3, ok4, ok5, ok6, m1, m2, m3, m4, m5, m6)
  {
    var c1 := Check(ok1, Email, m1);
    var c2 := c1 + Check(ok2, BusinessName, m2);
    var c3 := c2 + Check(ok3, PhoneNumber, m3);
    var c4 := c3 + Check(ok4, Password, m4);
    var c5 := c4 + Check(ok5, ConfirmPassword, m5);
    assert [] + c1 == c1;
    FieldErrorsThenCheck([], ok1, Email, m1);
    FieldErrorsThenCheck(c1, ok2, BusinessName, m2);
    FieldErrorsThenCheck(c2, ok3, PhoneNumber, m3);
    FieldErrorsThenCheck(c3, ok4, Password, m4);
    FieldErrorsThenCheck(c4, ok5, ConfirmPassword, m5);
    FieldErrorsThenCheck(c5, ok6, ConfirmPassword, m6);
  }

  /** The six checks recorded in schema order, starting from no errors. Each field check
      fails alone on its own field; the refinement, coming last, writes over
      confirmPassword's own message. */
  function RecordChecks(ok1: bool, ok2: bool, ok3: bool, ok4: bool, ok5: bool, ok6: bool,
                        m1: string, m2: string, m3: string, m4: string, m5: string, m6: string): (e: map<RegisterField, string>)
    ensures (Email in e <==> !ok1) && (Email in e ==> e[Email] == m1)
    ensures (BusinessName in e <==> !ok2) && (BusinessName in e ==> e[BusinessName] == m2)
    ensures (PhoneNumber in e <==> !ok3) && (PhoneNumber in e ==> e[PhoneNumber] == m3)
    ensures (Password in e <==> !ok4) && (Password in e ==> e[Password] == m4)
    ensures (ConfirmPassword in e <==> !ok5 || !ok6)
    ensures ConfirmPassword in e ==> e[ConfirmPassword] == if !ok6 then m6 else m5
  {
    var e1 := RecordCheck(map[], ok1, Email, m1);
    var e2 := RecordCheck(e1, ok2, BusinessName, m2);
    var e3 := RecordCheck(e2, ok3, PhoneNumber, m3);
    var e4 := RecordCheck(e3, ok4, Password, m4);
    var e5 := RecordCheck(e4, ok5, ConfirmPassword, m5);
    RecordCheck(e5, ok6, ConfirmPassword, m6)
  }

  /** The errors the catch block shows. A mismatch is reported on confirmPassword and,
      coming last, hides that field's own length message. */
  function RegisterErrors(form: RegisterFormData, isEmail: string -> bool): (errors: map<RegisterField, string>)
    ensures Email in errors <==> !isEmail(form.email)
    ensures BusinessName in errors <==> |form.businessName| < 2
    ensures PhoneNumber in errors <==> |form.phoneNumber| < 10
    ensures Password in errors <==> |form.password| < 6
    ensures ConfirmPassword in errors <==> |form.confirmPassword| < 6 || form.password != form.confirmPassword
    ensures Email in errors ==> errors[Email] == EmailMessage
    ensures BusinessName in errors ==> errors[BusinessName] == BusinessNameMessage
    ensures PhoneNumber in errors ==> errors[PhoneNumber] == PhoneNumberMessage
    ensures Password in errors ==> errors[Password] == PasswordMessage
    ensures ConfirmPassword in errors ==>
              errors[ConfirmPassword] == if form.password != form.confirmPassword then MismatchMessage else ConfirmPasswordMessage
  {
    RegisterChecksFold(isEmail(form.email), |form.businessName| >= 2, |form.phoneNumber| >= 10,
                       |form.password| >= 6, |form.confirmPassword| >= 6, form.password == form.confirmPassword,
                       EmailMessage, BusinessNameMessage, PhoneNumberMessage, PasswordMessage,
                       ConfirmPasswordMessage, MismatchMessage);
    FieldErrors(RegisterIssues(form, isEmail))
  }

  /** `after` is `before` grown by one logged-in record carrying the form's email and
      business name and a digest of the form's password (not the plaintext itself). */
  predicate IsRegistration(before: seq<UserRecord>, after: seq<UserRecord>, form: RegisterFormData, kdf: Kdf)
  {
    && |after| == |before| + 1
    && after[..|before|] == before
    && after[|before|].email == form.email
    && after[|before|].businessName == form.businessName
    && after[|before|].isLoggedIn
    && ComparePassword(kdf, form.password, after[|before|].password)
  }

  class RegisterPage {
    const storage: LocalStorage
    const isEmail: string -> bool
    const kdf: Kdf
    var formData: RegisterFormData
    var errors: map<RegisterField, string>
    var status: Status
    var isLoading: bool
    /** Destinations passed to router.push, in order. */
    var pushed: seq<string>

    constructor (storage: LocalStorage, isEmail: string -> bool, kdf: Kdf)
      ensures this.storage == storage && this.isEmail == isEmail && this.kdf == kdf
      ensures formData == RegisterFormData("", "", "", "", "") && errors == map[] && status == Cleared
      ensures !isLoading && pushed == []
    {
      this.storage, this.isEmail, this.kdf := storage, isEmail, kdf;
      formData := RegisterFormData("", "", "", "", "");
      errors, status, isLoading, pushed := map[], Cleared, false, [];
    }

    /** handleChange: the named field takes the typed value and its error, when one is
        shown (a non-empty message), is cleared; nothing else changes. */
    method HandleChange(name: RegisterField, value: string)
      modifies this
      ensures formData.Get(name) == value
      ensures forall f :: f != name ==> formData.Get(f) == old(formData).Get(f)
      ensures errors == if name in old(errors) && old(errors)[name] != "" then old(errors) - {name} else old(errors)
      ensures status == old(status) && isLoading == old(isLoading) && pushed == old(pushed)
    {
      match name {
        case Email => formData := formData.(email := value);
        case BusinessName => formData := formData.(businessName := value);
        case PhoneNumber => formData := formData.(phoneNumber := value);
        case Password => formData := formData.(password := value);
        case ConfirmPassword => formData := formData.(confirmPassword := value);
      }
      if name in errors && errors[name] != "" {
        errors := errors - {name};
      }
    }

    /** handleSubmit. A rejected form replaces the errors and writes nothing. An accepted
        form always ends in the success banner and the move to the dashboard, whether or
        not a record was created: an email already present leaves storage as it was. */
    method HandleSubmit()
      modifies this, storage
      ensures formData == old(formData) && !isLoading
      ensures !RegisterAccepts(formData, isEmail) ==>
                && errors == RegisterErrors(formData, isEmail) && status == Cleared
                && storage.items == old(storage.items) && pushed == old(pushed)
      ensures RegisterAccepts(formData, isEmail) ==>
                && errors == old(errors) && status == Success(SuccessMessage)
                && pushed == old(pushed) + [DashboardRoute]
      ensures var before := Stored(old(storage.items), FleetUser);
              RegisterAccepts(formData, isEmail) && FindUserByEmail(before, formData.email) == -1 ==>
                && storage.items == old(storage.items)[FleetUser := Stored(storage.items, FleetUser)]
                && IsRegistration(before, Stored(storage.items, FleetUser), formData, kdf)
      ensures var before := Stored(old(storage.items), FleetUser);
              RegisterAccepts(formData, isEmail) && FindUserByEmail(before, formData.email) != -1 ==>
                storage.items == old(storage.items)
    {
      status := Cleared;
      var issues := RegisterIssues(formData, isEmail);
      if issues != [] {
        errors := FieldErrors(issues);
      } else {
        isLoading := true;
        var fleetUsers := GetUsersFromStorage(storage, FleetUser);
        var id := FindUserByEmail(fleetUsers[..], formData.email);
        var hashed := EncryptPassword(kdf, formData.password);
        var withDigest := formData.(password := hashed);
        CreateUserInStorage(storage, fleetUsers, id, withDigest.email, withDigest.businessName, withDigest.password);
        status := Success(SuccessMessage);
        pushed := pushed + [DashboardRoute];
      }
      isLoading := false;
    }
  }
}
