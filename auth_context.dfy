/** The mock session store of the router demo (`AuthProvider`): the current
    user, a loading flag, and a browser key-value store that keeps the session
    across reloads. Users are plain JavaScript objects, modelled as maps from
    field names to values; the spread `{ ...a, ...b }` is Dafny's right-biased
    map union `a + b`. */
module AuthContext {
  import opened Text

  /** The field values a user object holds: strings and numbers. */
  datatype Value = Str(s: string) | Num(n: int)

  /** A JavaScript object with named fields. */
  type Record = map<string, Value>

  /** JavaScript truthiness of a field value. */
  predicate Truthy(v: Value) {
    match v
    case Str(s) => s != ""
    case Num(n) => n != 0
  }

  /** What the key-value store holds under a key: a serialised user object
      (whose serialised text is never empty) or a plain string. Parsing a
      serialised user gives back the same object. */
  datatype Stored = Serialized(user: Record) | Raw(text: string)

  predicate StoredTruthy(v: Stored) {
    match v
    case Serialized(_) => true
    case Raw(t) => t != ""
  }

  type Storage = map<string, Stored>

  const UserKey := "user"
  const TokenKey := "token"

  /** The mount effect restores a user only when both keys hold a non-empty value. */
  predicate CanRestore(st: Storage) {
    UserKey in st && TokenKey in st && StoredTruthy(st[UserKey]) && StoredTruthy(st[TokenKey])
    && st[UserKey].Serialized?
  }

  /** `email.split('@')[0]`: the text before the first '@', or all of it. */
  function NameFromEmail(email: string): (name: string)
    ensures |name| <= |email| && name == email[..|name|]
    ensures '@' !in name
    ensures |name| == |email| || email[|name|] == '@'
  {
    if email == [] || email[0] == '@' then []
    else [email[0]] + NameFromEmail(email[1..])
  }

  const AvatarPrefix := "https://i.pravatar.cc/150?u="

  /** The user object a successful login builds; `idTime` is the clock
      reading taken for its id. */
  function MockUser(email: string, idTime: int): Record {
    map["id" := Num(idTime),
        "email" := Str(email),
        "name" := Str(NameFromEmail(email)),
        "role" := Str(if Contains(email, "admin") then "admin" else "user"),
        "avatar" := Str(AvatarPrefix + email)]
  }

  function MockToken(tokenTime: int): string {
    "mock-jwt-token-" + IntToString(tokenTime)
  }

  /** `isAuthenticated: !!user`. */
  predicate IsAuthenticated(user: Option<Record>) {
    user.Some?
  }

  /** `isAdmin: user?.role === 'admin'`; only a present user can be an admin. */
  function IsAdmin(user: Option<Record>): (r: bool)
    ensures r ==> IsAuthenticated(user)
    ensures r <==> user.Some? && "role" in user.value && user.value["role"] == Str("admin")
  {
    match user
    case None => false
    case Some(u) => "role" in u && u["role"] == Str("admin")
  }

  /** The user a login with `email` produces is an admin exactly when the email
      contains "admin" (case-sensitive), its email is the given one, and its
      name is the part before the first '@'. */
  lemma MockUserFields(email: string, idTime: int)
    ensures IsAdmin(Some(MockUser(email, idTime))) <==> Contains(email, "admin")
    ensures MockUser(email, idTime)["email"] == Str(email)
    ensures MockUser(email, idTime)["name"] == Str(NameFromEmail(email))
    ensures '@' !in email ==> MockUser(email, idTime)["name"] == Str(email)
  {
  }

  /** `{ ...base, ...updates }`: every updated field takes its new value, every
      other field of `base` keeps its value, and no other field appears. */
  function Merge(base: Record, updates: Record): (r: Record)
    ensures r.Keys == base.Keys + updates.Keys
    ensures forall k :: k in updates ==> r[k] == updates[k]
    ensures forall k :: k in base && k !in updates ==> r[k] == base[k]
  {
    base + updates
  }

  /** The key-value store after logout: both session keys removed, the rest kept. */
  function WithoutSession(st: Storage): (r: Storage)
    ensures UserKey !in r && TokenKey !in r
    ensures forall k :: k in st && k != UserKey && k != TokenKey ==> k in r && r[k] == st[k]
    ensures r.Keys <= st.Keys
  {
    st - {UserKey, TokenKey}
  }

  /** Logging out twice stores the same as logging out once. */
  lemma WithoutSessionIdempotent(st: Storage)
    ensures WithoutSession(WithoutSession(st)) == WithoutSession(st)
  {
  }

  /** What a successful login stores is restored by the next mount: the
      restored user is the logged-in user. */
  lemma LoginStorageRestores(st: Storage, u: Record, tokenTime: int)
    ensures var st' := st[UserKey := Serialized(u)][TokenKey := Raw(MockToken(tokenTime))];
            CanRestore(st') && st'[UserKey].user == u
  {
  }

  /** After logout nothing is restored by the next mount. */
  lemma LogoutStorageNotRestored(st: Storage)
    ensures !CanRestore(WithoutSession(st))
  {
  }

  datatype LoginResult = LoggedIn(user: Record) | Rejected(message: string)

  class AuthProvider {
    var user: Option<Record>
    var loading: bool
    var storage: Storage

    /** A fresh provider: no user, still loading; `storage` is what the browser holds. */
    constructor (storage0: Storage)
      ensures user == None && loading && storage == storage0
    {
      user := None;
      loading := true;
      storage := storage0;
    }

    /** The mount effect: restore the stored user when both keys are present,
        and stop loading in every case. */
    method RestoreSession()
      modifies this
      ensures !loading && storage == old(storage)
      ensures user == if CanRestore(old(storage)) then Some(old(storage)[UserKey].user) else old(user)
    {
      if CanRestore(storage) {
        user := Some(storage[UserKey].user);
      }
      loading := false;
    }

    /** `login(email, password)` with the 500 ms delay left out: succeeds exactly
        when both are non-empty, then sets and stores the mock user and a token;
        otherwise rejects with "Invalid credentials" and changes nothing. */
    method Login(email: string, password: string, idTime: int, tokenTime: int) returns (r: LoginResult)
      modifies this
      ensures r.LoggedIn? <==> email != "" && password != ""
      ensures r.LoggedIn? ==> r.user == MockUser(email, idTime) && user == Some(r.user)
      ensures r.LoggedIn? ==>
                storage == old(storage)[UserKey := Serialized(r.user)][TokenKey := Raw(MockToken(tokenTime))]
      ensures r.Rejected? ==> r.message == "Invalid credentials" && user == old(user) && storage == old(storage)
      ensures loading == old(loading)
    {
      if email != "" && password != "" {
        var mockUser := MockUser(email, idTime);
        var mockToken := MockToken(tokenTime);
        user := Some(mockUser);
        storage := storage[UserKey := Serialized(mockUser)];
        storage := storage[TokenKey := Raw(mockToken)];
        r := LoggedIn(mockUser);
      } else {
        r := Rejected("Invalid credentials");
      }
    }

    /** `logout()`: no user, and neither session key stored. */
    method Logout()
      modifies this
      ensures user == None && storage == WithoutSession(old(storage)) && loading == old(loading)
    {
      user := None;
      storage := storage - {UserKey};
      storage := storage - {TokenKey};
    }

    /** `updateProfile(updates)`: the current user (or an empty object when
        there is none) overwritten by `updates` becomes both the session user
        and the stored user, and is returned. */
    method UpdateProfile(updates: Record) returns (updated: Record)
      modifies this
      ensures updated == Merge(if old(user).Some? then old(user).value else map[], updates)
      ensures user == Some(updated)
      ensures storage == old(storage)[UserKey := Serialized(updated)] && loading == old(loading)
    {
      var base := if user.Some? then user.value else map[];
      updated := base + updates;
      user := Some(updated);
      storage := storage[UserKey := Serialized(updated)];
    }
  }
}
