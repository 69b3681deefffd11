/** The session logic of app/dashboard/layout.tsx: the current user is the first record
    whose flag is set; mounting gates the dashboard on it and logging out clears it. */
module DashboardLayout {
  import opened Utils

  /** getAuthUser: the first record whose isLoggedIn is true, or -1. The second argument
      is accepted and ignored, as `getAuthUser` does. */
  function GetAuthUser(users: seq<UserRecord>, isLoggedIn: bool): (id: int)
    ensures -1 <= id < |users|
    ensures id == -1 <==> forall k :: 0 <= k < |users| ==> !users[k].isLoggedIn
    ensures 0 <= id ==> users[id].isLoggedIn
    ensures 0 <= id ==> forall k :: 0 <= k < id ==> !users[k].isLoggedIn
  {
    FindIndex(users, (u: UserRecord) => u.isLoggedIn == true)
  }

  /** How the mount-time effect ends. */
  datatype Gate =
    | ShowDashboard(user: UserRecord)  // setUserData(user)
    | RedirectToLogin                  // router.push("/login")
    | MountFault                       // reading isLoggedIn of undefined throws

  /** The effect's decision. `storedUsers[id]` is read before the length test; with
      records present but none logged in it is undefined and the property read on it
      throws, so the inner redirect is never taken. */
  function MountGate(users: seq<UserRecord>): (g: Gate)
    ensures g == RedirectToLogin <==> |users| == 0
    ensures g.ShowDashboard? <==> 0 <= GetAuthUser(users, true)
    ensures g.ShowDashboard? ==> g.user == users[GetAuthUser(users, true)] && g.user.isLoggedIn
    ensures g.MountFault? <==> |users| > 0 && forall k :: 0 <= k < |users| ==> !users[k].isLoggedIn
  {
    var id := GetAuthUser(users, true);
    if |users| > 0 then
      if id == -1 then MountFault
      else if users[id].isLoggedIn then ShowDashboard(users[id])
      else RedirectToLogin
    else RedirectToLogin
  }

  class Layout {
    const storage: LocalStorage
    var userData: Option<UserRecord>
    var isMounted: bool
    /** Destinations passed to router.push, in order. */
    var pushed: seq<string>

    constructor (storage: LocalStorage)
      ensures this.storage == storage && userData == None && !isMounted && pushed == []
    {
      this.storage := storage;
      userData, isMounted, pushed := None, false, [];
    }

    /** The mount-time effect: it reads storage and never writes it. */
    method Mount() returns (r: Outcome)
      modifies this
      ensures isMounted
      ensures var g := MountGate(Stored(storage.items, FleetUser));
              && (g.ShowDashboard? ==> userData == Some(g.user) && pushed == old(pushed) && r == Completed)
              && (g.RedirectToLogin? ==> userData == old(userData) && pushed == old(pushed) + [LoginRoute] && r == Completed)
              && (g.MountFault? ==> userData == old(userData) && pushed == old(pushed) && r.TypeError?)
    {
      isMounted := true;
      var storedUsers := GetUsersFromStorage(storage, FleetUser);
      var id := GetAuthUser(storedUsers[..], true);
      if storedUsers.Length > 0 {
        if id == -1 {
          r := TypeError("Cannot read properties of undefined (reading 'isLoggedIn')");
          return;
        }
        var user := storedUsers[id];
        if user.isLoggedIn {
          userData := Some(user);
        } else {
          // The effect's inner branch would push `/login` here, but the record found by
          // getAuthUser is always logged in.
          assert false;
        }
      } else {
        pushed := pushed + [LoginRoute];
      }
      r := Completed;
    }

    /** handleLogout: the first logged-in record is cleared in place and the whole
        collection written back before going to the login page. With no logged-in
        record the assignment to `users[-1]` throws and nothing is written. */
    method HandleLogout() returns (r: Outcome)
      modifies this, storage
      ensures userData == old(userData) && isMounted == old(isMounted)
      ensures var users := Stored(old(storage.items), FleetUser);
              var id := GetAuthUser(users, true);
              && (id == -1 ==> r.TypeError? && storage.items == old(storage.items) && pushed == old(pushed))
              && (0 <= id ==> r == Completed && pushed == old(pushed) + [LoginRoute]
                              && storage.items == old(storage.items)[FleetUser := SetLoggedIn(users, id, false)])
    {
      var users := GetUsersFromStorage(storage, FleetUser);
      var authUser := GetAuthUser(users[..], true);
      if authUser == -1 {
        r := TypeError("Cannot set properties of undefined (setting 'isLoggedIn')");
        return;
      }
      users[authUser] := users[authUser].(isLoggedIn := false);
      WriteStorage(storage, FleetUser, users[..]);
      pushed := pushed + [LoginRoute];
      r := Completed;
    }
  }

  /** Logging out the only logged-in record leaves no current user. */
  lemma LogoutEndsOnlySession(users: seq<UserRecord>, i: nat)
    requires i < |users| && users[i].isLoggedIn
    requires forall k :: 0 <= k < |users| && k != i ==> !users[k].isLoggedIn
    ensures GetAuthUser(users, true) == i
    ensures GetAuthUser(SetLoggedIn(users, i, false), true) == -1
  {
  }

  /** Logout clears one flag: when a second record is also logged in, a session survives
      and the final current user is the next logged-in record. */
  lemma LogoutLeavesLaterSession(users: seq<UserRecord>, i: nat, j: nat)
    requires i < j < |users| && users[i].isLoggedIn && users[j].isLoggedIn
    requires forall k :: 0 <= k < j && k != i ==> !users[k].isLoggedIn
    ensures GetAuthUser(users, true) == i
    ensures GetAuthUser(SetLoggedIn(users, i, false), true) == j
  {
  }
}
