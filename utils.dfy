/** The user-record table of lib/utils.ts: the collection kept under one key of the
    browser's key-value storage, lookup by email, create-if-absent, the in-place
    session-flag update, and the contract of the password hasher. */
module Utils {

  datatype Option<T> = None | Some(value: T)

  /** One entry of the collection. Email is the lookup key, password holds a digest. */
  datatype UserRecord = UserRecord(email: string, businessName: string, password: string, isLoggedIn: bool)

  /** What an event handler or effect ends with when a handler or effect lets a TypeError escape. */
  datatype Outcome = Completed | TypeError(reason: string)

  /** The one storage key that holds the whole collection. */
  const FleetUser: string := "fleetUser"

  /** Destinations handed to the router. */
  const LoginRoute: string := "/login"
  const DashboardRoute: string := "/dashboard"

  // ---------------------------------------------------------------------------
  // Storage. JSON.stringify followed by JSON.parse is taken to be the identity,
  // so every key maps directly to a sequence of records.
  // ---------------------------------------------------------------------------

  /** What reading `key` yields: the stored sequence, or [] when the key is absent. */
  function Stored(items: map<string, seq<UserRecord>>, key: string): seq<UserRecord>
  {
    if key in items then items[key] else []
  }

  /** The browser's localStorage, restricted to entries that hold record collections. */
  class LocalStorage {
    var items: map<string, seq<UserRecord>>

    constructor (initial: map<string, seq<UserRecord>>)
      ensures items == initial
    {
      items := initial;
    }
  }

  /** getUsersFromStorage: parsing builds a fresh array on every call, so callers that
      write into the result never touch the stored value itself. */
  method GetUsersFromStorage(storage: LocalStorage, name: string) returns (users: array<UserRecord>)
    ensures fresh(users)
    ensures users[..] == Stored(storage.items, name)
    ensures name !in storage.items ==> users.Length == 0
  {
    if name in storage.items {
      var s := storage.items[name];
      users := new UserRecord[|s|](i requires 0 <= i < |s| => s[i]);
      assert users[..] == s;
    } else {
      users := new UserRecord[0];
    }
  }

  /** writeStorage: replaces the entry under `name` and leaves every other key alone. */
  method WriteStorage(storage: LocalStorage, name: string, data: seq<UserRecord>)
    modifies storage
    ensures storage.items == old(storage.items)[name := data]
    ensures Stored(storage.items, name) == data
    ensures forall k :: k != name ==> Stored(storage.items, k) == Stored(old(storage.items), k)
  {
    storage.items := storage.items[name := data];
  }

  // ---------------------------------------------------------------------------
  // Lookup
  // ---------------------------------------------------------------------------

  /** Array.prototype.findIndex: the first index whose element satisfies p, or -1. */
  function FindIndex<T>(s: seq<T>, p: T -> bool): (i: int)
    ensures -1 <= i < |s|
    ensures i == -1 <==> forall k :: 0 <= k < |s| ==> !p(s[k])
    ensures 0 <= i ==> p(s[i]) && forall k :: 0 <= k < i ==> !p(s[k])
    decreases |s|
  {
    if |s| == 0 then -1
    else if p(s[0]) then 0
    else
      var j := FindIndex(s[1..], p);
      if j == -1 then -1 else j + 1
  }

  /** findUserByEmail: the first record whose email is exactly (case-sensitively) `email`. */
  function FindUserByEmail(users: seq<UserRecord>, email: string): (id: int)
    ensures -1 <= id < |users|
    ensures id == -1 <==> forall k :: 0 <= k < |users| ==> users[k].email != email
    ensures 0 <= id ==> users[id].email == email
    ensures 0 <= id ==> forall k :: 0 <= k < id ==> users[k].email != email
  {
    FindIndex(users, (u: UserRecord) => u.email == email)
  }

  // ---------------------------------------------------------------------------
  // Create and update
  // ---------------------------------------------------------------------------

  /** The collection with record `id`'s session flag set to `flag` and nothing else changed. */
  function SetLoggedIn(users: seq<UserRecord>, id: nat, flag: bool): (r: seq<UserRecord>)
    requires id < |users|
    ensures |r| == |users|
    ensures r[id].isLoggedIn == flag
    ensures r[id].email == users[id].email && r[id].businessName == users[id].businessName
    ensures r[id].password == users[id].password
    ensures forall k :: 0 <= k < |users| && k != id ==> r[k] == users[k]
  {
    users[id := users[id].(isLoggedIn := flag)]
  }

  /** createUserInStorage: when the lookup found nothing (id is -1) the collection grows by
      one logged-in record built from the email, business name and password it is given;
      any other id writes nothing. The array passed in is only read. */
  method CreateUserInStorage(storage: LocalStorage, users: array<UserRecord>, id: int,
                             email: string, businessName: string, password: string)
    modifies storage
    ensures id == -1 ==> storage.items == old(storage.items)[FleetUser := users[..] + [UserRecord(email, businessName, password, true)]]
    ensures id != -1 ==> storage.items == old(storage.items)
    ensures users[..] == old(users[..])
  {
    if id == -1 {
      var user := UserRecord(email, businessName, password, true);
      WriteStorage(storage, FleetUser, users[..] + [user]);
    }
  }

  /** updateUserInStorage: for id >= 0 the record is overwritten in place with its flag set
      to true, whatever `isLoggedIn` says, and the whole array is written back; a negative
      id changes nothing. */
  method UpdateUserInStorage(storage: LocalStorage, users: array<UserRecord>, id: int, isLoggedIn: bool)
    requires id < users.Length
    modifies storage, users
    ensures 0 <= id ==> users[..] == SetLoggedIn(old(users[..]), id, true)
    ensures 0 <= id ==> storage.items == old(storage.items)[FleetUser := users[..]]
    ensures id < 0 ==> users[..] == old(users[..]) && storage.items == old(storage.items)
  {
    if id >= 0 {
      users[id] := users[id].(isLoggedIn := true);
      WriteStorage(storage, FleetUser, users[..]);
    }
  }

  // ---------------------------------------------------------------------------
  // Password hashing. bcrypt's key derivation is external and is a parameter here:
  // it maps a salt and a plaintext to a tag. A digest is its salt followed by the tag,
  // and comparing re-derives the tag from the salt found at the front of the digest.
  // ---------------------------------------------------------------------------

  type Kdf = (string, string) -> string

  /** Length of the salt prefix ("$2a$10$" and 22 salt characters). */
  const SaltLength: nat := 29

  /** comparePassword: true when the tag of `hash` is what the derivation gives for `password`
      under the salt `hash` starts with, that is, exactly when `hash` is some salt followed
      by the tag that salt gives for `password`. */
  function ComparePassword(kdf: Kdf, password: string, hash: string): (r: bool)
    ensures r <==> exists salt :: |salt| == SaltLength && hash == salt + kdf(salt, password)
  {
    if |hash| >= SaltLength then
      assert hash == hash[..SaltLength] + hash[SaltLength..];
      kdf(hash[..SaltLength], password) == hash[SaltLength..]
    else false
  }

  /** encryptPassword: a fresh salt is chosen (any salt may come out) and the digest it
      yields always compares equal to the password it was made from. */
  method EncryptPassword(kdf: Kdf, pwd: string) returns (hash: string)
    ensures ComparePassword(kdf, pwd, hash)
  {
    assert |seq(SaltLength, _ => '.')| == SaltLength;
    var salt: string :| |salt| == SaltLength;
    hash := salt + kdf(salt, pwd);
    assert hash[..SaltLength] == salt && hash[SaltLength..] == kdf(salt, pwd);
  }
}
