/** Properties that span the pages: a registration followed by a login, the session
    a login leaves, and whole runs of the pages against one shared storage. */
module Scenarios {
  import opened Utils
  import opened Forms
  import opened DashboardLayout
  import Login
  import Register

  /** Registering a new email with password p and then logging in with that email and p
      is granted, and the record granted is the one the registration appended. */
  lemma RegisterThenLogin(before: seq<UserRecord>, after: seq<UserRecord>, form: Register.RegisterFormData,
                          isEmail: string -> bool, kdf: Kdf)
    requires Register.RegisterAccepts(form, isEmail)
    requires FindUserByEmail(before, form.email) == -1
    requires Register.IsRegistration(before, after, form, kdf)
    ensures Login.LoginDecision(Login.LoginFormData(form.email, form.password), after, isEmail, kdf)
            == Login.Granted(|before|)
  {
  }

  /** After a granted login the current user is at or before the record just marked,
      and is that record exactly when no earlier record was already logged in. */
  lemma LoginThenCurrentUser(form: Login.LoginFormData, users: seq<UserRecord>, isEmail: string -> bool, kdf: Kdf)
    requires Login.LoginDecision(form, users, isEmail, kdf).Granted?
    ensures var v := Login.LoginDecision(form, users, isEmail, kdf);
            var cur := GetAuthUser(Login.AfterLogin(v, users), true);
            && 0 <= cur <= v.id
            && (cur == v.id <==> forall k :: 0 <= k < v.id ==> !users[k].isLoggedIn)
  {
  }

  /** Fill in and submit the registration form for a@x.com against an empty collection:
      the collection becomes that one logged-in record. */
  method RegisterAcme(storage: LocalStorage, isEmail: string -> bool, kdf: Kdf)
    returns (form: Register.RegisterFormData)
    requires isEmail("a@x.com") && storage.items == map[]
    modifies storage
    ensures form == Register.RegisterFormData("a@x.com", "Acme", "0123456789", "secret1", "secret1")
    ensures FleetUser in storage.items && storage.items == map[FleetUser := storage.items[FleetUser]]
    ensures Register.IsRegistration([], storage.items[FleetUser], form, kdf)
  {
    var register := new Register.RegisterPage(storage, isEmail, kdf);
    register.HandleChange(Register.Email, "a@x.com");
    register.HandleChange(Register.BusinessName, "Acme");
    register.HandleChange(Register.PhoneNumber, "0123456789");
    register.HandleChange(Register.Password, "secret1");
    register.HandleChange(Register.ConfirmPassword, "secret1");
    form := register.formData;
    assert form == Register.RegisterFormData("a@x.com", "Acme", "0123456789", "secret1", "secret1");
    assert Register.RegisterAccepts(form, isEmail);
    assert Stored(storage.items, FleetUser) == [];
    register.HandleSubmit();
  }

  /** Register, log in, open the dashboard, log out, open it again, all against one
      storage that starts empty. */
  method RegisterLoginLogout(isEmail: string -> bool, kdf: Kdf)
    returns (stored: seq<UserRecord>, shown: Option<UserRecord>, remount: Outcome)
    requires isEmail("a@x.com")
    ensures |stored| == 1 && stored[0].email == "a@x.com" && stored[0].businessName == "Acme"
    ensures ComparePassword(kdf, "secret1", stored[0].password)
    ensures !stored[0].isLoggedIn && GetAuthUser(stored, true) == -1
    ensures shown.Some? && shown.value.email == "a@x.com" && shown.value.isLoggedIn
    ensures remount.TypeError?
  {
    var storage := new LocalStorage(map[]);
    var form := RegisterAcme(storage, isEmail, kdf);
    var users := storage.items[FleetUser];
    assert users == [users[0]];

    var login := new Login.LoginPage(storage, isEmail, kdf);
    login.HandleChange(Login.Email, "a@x.com");
    login.HandleChange(Login.Password, "secret1");
    assert login.formData == Login.LoginFormData("a@x.com", "secret1");
    RegisterThenLogin([], users, form, isEmail, kdf);
    login.HandleSubmit();
    assert SetLoggedIn(users, 0, true) == users;
    assert Stored(storage.items, FleetUser) == users;

    var layout := new Layout(storage);
    var mounted := layout.Mount();
    shown := layout.userData;

    var out := layout.HandleLogout();
    stored := Stored(storage.items, FleetUser);
    LogoutEndsOnlySession(users, 0);

    remount := layout.Mount();
  }

  /** Registering an email that is already present reports success and sends the user
      to the dashboard, but the stored record keeps its first password. */
  method DuplicateRegistration(isEmail: string -> bool, kdf: Kdf)
    returns (status: Status, pushed: seq<string>, stored: seq<UserRecord>)
    requires isEmail("a@x.com")
    ensures status == Success(Register.SuccessMessage) && pushed == [DashboardRoute, DashboardRoute]
    ensures |stored| == 1 && ComparePassword(kdf, "secret1", stored[0].password)
  {
    var storage := new LocalStorage(map[]);
    var register := new Register.RegisterPage(storage, isEmail, kdf);
    register.HandleChange(Register.Email, "a@x.com");
    register.HandleChange(Register.BusinessName, "Acme");
    register.HandleChange(Register.PhoneNumber, "0123456789");
    register.HandleChange(Register.Password, "secret1");
    register.HandleChange(Register.ConfirmPassword, "secret1");
    assert register.formData == Register.RegisterFormData("a@x.com", "Acme", "0123456789", "secret1", "secret1");
    assert Register.RegisterAccepts(register.formData, isEmail);
    assert Stored(storage.items, FleetUser) == [];
    register.HandleSubmit();
    var first := Stored(storage.items, FleetUser);

    register.HandleChange(Register.Password, "other-secret");
    register.HandleChange(Register.ConfirmPassword, "other-secret");
    assert register.formData == Register.RegisterFormData("a@x.com", "Acme", "0123456789", "other-secret", "other-secret");
    assert Register.RegisterAccepts(register.formData, isEmail);
    assert FindUserByEmail(first, "a@x.com") == 0;
    register.HandleSubmit();
    status, pushed, stored := register.status, register.pushed, Stored(storage.items, FleetUser);
  }

  /** Logging in with an email nobody registered ends in the unexpected-error banner,
      not the invalid-credentials one, and writes nothing. */
  method UnknownEmailLogin(isEmail: string -> bool, kdf: Kdf)
    returns (status: Status, items: map<string, seq<UserRecord>>)
    requires isEmail("nobody@x.com")
    ensures status == Error(UnexpectedMessage) && items == map[]
  {
    var storage := new LocalStorage(map[]);
    var login := new Login.LoginPage(storage, isEmail, kdf);
    login.HandleChange(Login.Email, "nobody@x.com");
    login.HandleChange(Login.Password, "secret1");
    login.HandleSubmit();
    status, items := login.status, storage.items;
  }
}
