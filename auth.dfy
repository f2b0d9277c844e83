/** The session store (`src/stores/auth.ts`): the current bearer token, the
    current user, the profile-refresh flags and the initialisation flag,
    mirrored write-through into two localStorage keys.

    The store's behaviour is specified by pure transition functions over a
    `State` value (WithUser, Cleared, LoggedIn, Hydrated, Refreshed); the
    class `Session` holds the same fields as mutable refs, and each of its
    methods performs the source's steps one by one and is proved to end in
    the state its transition function prescribes. */
module Auth {
  import opened Js

  // ---------------------------------------------------------------------
  // Roles

  datatype Role = SuperAdmin | Admin | Rider | User | Unknown

  /** The string value of each member of the `Role` enum. */
  function RoleName(r: Role): string {
    match r
    case SuperAdmin => "super_admin"
    case Admin => "admin"
    case Rider => "rider"
    case User => "user"
    case Unknown => "unknown"
  }

  /** `Object.keys(Role)`, in declaration order. */
  const RoleKeys: seq<Role> := [SuperAdmin, Admin, Rider, User, Unknown]

  /** `Object.values(Role)`. */
  const RoleValues: seq<string> := ["super_admin", "admin", "rider", "user", "unknown"]

  lemma RoleNameInjective()
    ensures forall a: Role, b: Role :: RoleName(a) == RoleName(b) ==> a == b
  {
  }

  /** isValidRole: the string is one of the enum's values. */
  function IsValidRole(value: string): (b: bool)
    ensures b <==> exists r: Role :: RoleName(r) == value
  {
    assert forall r: Role :: RoleName(r) in RoleValues;
    assert value in RoleValues ==> RoleName(RoleKeys[IndexOf(RoleValues, value)]) == value;
    value in RoleValues
  }

  function IndexOf(xs: seq<string>, x: string): (i: nat)
    requires x in xs
    ensures i < |xs| && xs[i] == x
  {
    if xs[0] == x then 0 else 1 + IndexOf(xs[1..], x)
  }

  /** The `find` over `Object.keys(Role)` in setUserState: the first key
      whose value is strictly equal to the given role value. */
  function FindRoleKey(keys: seq<Role>, v: JsVal): (r: Option<Role>)
    ensures r.Some? ==> r.value in keys && v == Str(RoleName(r.value))
    ensures r.None? ==> forall k :: k in keys ==> v != Str(RoleName(k))
  {
    if keys == [] then None
    else if v == Str(RoleName(keys[0])) then Some(keys[0])
    else FindRoleKey(keys[1..], v)
  }

  /** The role a raw role value is mapped to: the member whose value it is,
      and `Unknown` for anything else (other strings, non-strings). */
  function MapRole(v: JsVal): (r: Role)
    ensures forall k :: v == Str(RoleName(k)) ==> r == k
    ensures (forall k :: v != Str(RoleName(k))) ==> r == Unknown
  {
    RoleNameInjective();
    match FindRoleKey(RoleKeys, v)
    case Some(k) => k
    case None => Unknown
  }

  // ---------------------------------------------------------------------
  // Users

  /** An `ApiUser` as it arrives from the API or from storage: every field
      is a dynamic value, whatever its declared TypeScript type. */
  datatype ApiUser = ApiUser(
    id: JsVal,
    fullname: JsVal,
    email: JsVal,
    phone: JsVal,
    role: JsVal,
    verificationStatus: JsVal,
    branchId: JsVal,
    branch: JsVal,
    userProfile: JsVal,
    balance: JsVal,
    bannedAt: JsVal,
    createdAt: JsVal,
    updatedAt: JsVal)

  /** The user's role is a string value of the `Role` enum. */
  predicate HasRoleValue(u: ApiUser) {
    u.role.Str? && IsValidRole(u.role.s)
  }

  /** `{ ...apiUserData, role: userRoleEnum }` in setUserState. */
  function WithMappedRole(u: ApiUser): (m: ApiUser)
    ensures HasRoleValue(m)
    ensures HasRoleValue(u) ==> m == u
    ensures !HasRoleValue(u) ==> m.role == Str("unknown")
    ensures m.(role := u.role) == u
  {
    u.(role := Str(RoleName(MapRole(u.role))))
  }

  /** The fields a reload is expected to reproduce. */
  predicate SameIdentity(a: ApiUser, b: ApiUser) {
    && a.id == b.id
    && a.fullname == b.fullname
    && a.email == b.email
    && a.phone == b.phone
    && a.verificationStatus == b.verificationStatus
    && a.role == b.role
  }

  // ---------------------------------------------------------------------
  // Durable storage

  const AuthTokenKey: string := "authToken"
  const UserDataKey: string := "userData"

  /** What `JSON.parse` yields for a stored user record. */
  datatype Doc = Unparseable | NotAnObject | UserObject(user: ApiUser)

  /** A localStorage value: a raw string (the token), or the serialisation
      of a user, represented by what parsing it back yields. A serialisation
      is never the empty string. */
  datatype StoredValue = Text(text: string) | Json(doc: Doc)

  /** The shapes the store itself writes: a raw string under the token key,
      a serialised user (or an empty string) under the user key. */
  predicate SlotsWellFormed(m: map<string, StoredValue>) {
    && (AuthTokenKey in m ==> m[AuthTokenKey].Text?)
    && (UserDataKey in m ==> m[UserDataKey].Json? || m[UserDataKey] == Text(""))
  }

  /** `!!localStorage.getItem(key)` */
  predicate StoredTruthy(m: map<string, StoredValue>, key: string) {
    key in m && (m[key].Json? || m[key].text != "")
  }

  /** setTokenStorage */
  function StoreToken(m: map<string, StoredValue>, t: Option<string>): map<string, StoredValue> {
    if Present(t) then m[AuthTokenKey := Text(t.value)] else m - {AuthTokenKey}
  }

  /** setUserStorage */
  function StoreUser(m: map<string, StoredValue>, u: Option<ApiUser>): map<string, StoredValue> {
    if u.Some? then m[UserDataKey := Json(UserObject(u.value))] else m - {UserDataKey}
  }

  // ---------------------------------------------------------------------
  // Store state and derived facts

  datatype State = State(
    token: Option<string>,
    currentUser: Option<ApiUser>,
    profileLoading: bool,
    profileError: Option<string>,
    isInitialized: bool,
    storage: map<string, StoredValue>)

  /** The refs' initial values over a given localStorage. */
  function Initial(storage: map<string, StoredValue>): State {
    State(None, None, false, None, false, storage)
  }

  /** What holds between any two store actions: storage has the shapes the
      store writes, every user it holds has a `Role` value as its role, and
      no profile refresh is half done. */
  predicate Inv(s: State) {
    && SlotsWellFormed(s.storage)
    && (s.currentUser.Some? ==> HasRoleValue(s.currentUser.value))
    && !s.profileLoading
  }

  /** isAuthenticated: `!!token && !!currentUser`. Under the invariant an
      authenticated session always has a typed role. */
  function IsAuthenticated(s: State): (b: bool)
    ensures b <==> s.token.Some? && s.token.value != "" && s.currentUser.Some?
    ensures b && Inv(s) ==> s.currentUser.value.role.Str? && IsValidRole(s.currentUser.value.role.s)
  {
    Present(s.token) && s.currentUser.Some?
  }

  /** userRole: `currentUser?.role ?? null` */
  function UserRole(s: State): (r: JsVal)
    ensures r != Undefined
    ensures s.currentUser.None? ==> r == Null
  {
    if s.currentUser.None? then Null
    else
      var role := s.currentUser.value.role;
      if role == Undefined || role == Null then Null else role
  }

  /** userProfile: `currentUser?.user_profile ?? null` */
  function UserProfile(s: State): (r: JsVal)
    ensures r != Undefined
    ensures s.currentUser.None? ==> r == Null
    ensures s.currentUser.Some? && s.currentUser.value.userProfile !in {Undefined, Null} ==>
              r == s.currentUser.value.userProfile
    ensures s.currentUser.Some? && s.currentUser.value.userProfile in {Undefined, Null} ==> r == Null
  {
    if s.currentUser.None? then Null
    else
      var profile := s.currentUser.value.userProfile;
      if profile == Undefined || profile == Null then Null else profile
  }

  /** userRoleTyped: the user's role when it is a truthy `Role` value, null otherwise. */
  function UserRoleTyped(s: State): (r: Option<Role>)
    ensures r.Some? <==> s.currentUser.Some? && HasRoleValue(s.currentUser.value)
    ensures r.Some? ==> s.currentUser.value.role == Str(RoleName(r.value))
  {
    if s.currentUser.None? then None
    else
      var roleString := s.currentUser.value.role;
      if Truthy(roleString) && roleString.Str? && IsValidRole(roleString.s) then Some(MapRole(roleString))
      else None
  }

  /** Every user the store holds carries a `Role` value, so the typed role is
      exactly the current user's role, and null when there is no user. */
  lemma TypedRoleIsUserRole(s: State)
    requires Inv(s)
    ensures s.currentUser.None? ==> UserRoleTyped(s).None?
    ensures s.currentUser.Some? ==> UserRoleTyped(s).Some?
                                    && Str(RoleName(UserRoleTyped(s).value)) == s.currentUser.value.role
                                    && UserRole(s) == s.currentUser.value.role
  {
  }

  // ---------------------------------------------------------------------
  // Transitions

  /** setUserState */
  function WithUser(s: State, u: Option<ApiUser>): (r: State)
    ensures r.currentUser.Some? <==> u.Some?
    ensures u.Some? ==> HasRoleValue(r.currentUser.value) && r.currentUser.value.(role := u.value.role) == u.value
    ensures u.Some? ==> r.currentUser.value.role == Str(RoleName(MapRole(u.value.role)))
    ensures r.(currentUser := s.currentUser) == s
    ensures Inv(s) ==> Inv(r)
  {
    s.(currentUser := if u.Some? then Some(WithMappedRole(u.value)) else None)
  }

  /** clearAuthData(clearToken) */
  function Cleared(s: State, clearToken: bool): (r: State)
    ensures r.token == (if clearToken then None else s.token)
    ensures r.currentUser.None? && !IsAuthenticated(r) && UserRoleTyped(r).None?
    ensures AuthTokenKey !in r.storage && UserDataKey !in r.storage
    ensures r.storage == s.storage - {AuthTokenKey, UserDataKey}
    ensures r.profileError.None? && !r.profileLoading
    ensures r.isInitialized == s.isInitialized
    ensures Inv(r)
  {
    var s1 := if clearToken then s.(token := None) else s;
    var s2 := WithUser(s1, None);
    s2.(storage := StoreUser(StoreToken(s2.storage, None), None), profileError := None, profileLoading := false)
  }

  /** Logging out twice leaves the same state as logging out once. */
  lemma LogoutIdempotent(s: State)
    ensures Cleared(Cleared(s, true), true) == Cleared(s, true)
  {
  }

  /** login / handleRiderRegistration, given the response's token and user. */
  function LoggedIn(s: State, t: Option<string>, u: Option<ApiUser>): (r: State)
    ensures r.token == t
    ensures IsAuthenticated(r) <==> Present(t) && u.Some?
    ensures Present(t) ==> AuthTokenKey in r.storage && r.storage[AuthTokenKey] == Text(t.value)
    ensures !Present(t) ==> AuthTokenKey !in r.storage
    ensures u.Some? ==> && r.currentUser.Some?
                        && r.currentUser.value.(role := u.value.role) == u.value
                        && HasRoleValue(r.currentUser.value)
                        && UserDataKey in r.storage
                        && r.storage[UserDataKey] == Json(UserObject(r.currentUser.value))
    ensures u.Some? ==> r.currentUser == Some(WithMappedRole(u.value))
    ensures u.None? ==> r.currentUser.None? && UserDataKey !in r.storage
    ensures r.storage == StoreUser(StoreToken(s.storage, t), r.currentUser)
    ensures r.profileError.None?
    ensures r.profileLoading == s.profileLoading && r.isInitialized == s.isInitialized
    ensures SlotsWellFormed(r.storage)
    ensures Inv(s) ==> Inv(r)
  {
    var s1 := WithUser(s.(token := t), u);
    s1.(storage := StoreUser(StoreToken(s1.storage, t), s1.currentUser), profileError := None)
  }

  /** The field-by-field validation of a stored user record: a non-empty
      string `id`, string `fullname`, `email`, `phone` and
      `verification_status`, and a non-empty `role` that is a `Role` value. */
  function StoredUserValid(p: ApiUser): (b: bool)
    ensures b ==> HasRoleValue(p) && p.id.Str? && p.id.s != ""
    ensures b <==> && p.id.Str? && p.id.s != "" && p.fullname.Str? && p.email.Str? && p.phone.Str?
                   && p.verificationStatus.Str? && HasRoleValue(p)
    ensures b ==> WithMappedRole(FromStorage(p)) == FromStorage(p)
  {
    var hasId := p.id.Str? && p.id.s != "";
    var hasRole := p.role.Str? && p.role.s != "";
    var roleIsValid := hasRole && IsValidRole(p.role.s);
    var hasRequiredFields := hasId && p.fullname.Str? && p.email.Str? && p.phone.Str?
                             && p.verificationStatus.Str?;
    hasRequiredFields && roleIsValid
  }

  /** The user rebuilt from a validated stored record: the validated fields
      are copied, `branch_id` is made a number or null, `branch` and
      `user_profile` are kept only when they are objects, `balance` and
      `banned_at` only when they are strings. */
  function FromStorage(p: ApiUser): (u: ApiUser)
    ensures SameIdentity(u, p)
    ensures u.branchId == Null || TypeOf(u.branchId) == "number"
    ensures TypeOf(p.branchId) == "number" ==> u.branchId == p.branchId
    ensures p.branchId.Str? ==> u.branchId == ParseInt(p.branchId.s)
    ensures TypeOf(p.branchId) != "number" && !p.branchId.Str? ==> u.branchId == Null
    ensures p.branch.Obj? ==> u.branch == p.branch
    ensures !p.branch.Obj? ==> u.branch == Null
    ensures p.userProfile.Obj? ==> u.userProfile == p.userProfile
    ensures !p.userProfile.Obj? ==> u.userProfile == Null
    ensures p.balance.Str? ==> u.balance == p.balance
    ensures !p.balance.Str? ==> u.balance == Undefined
    ensures p.bannedAt.Str? ==> u.bannedAt == p.bannedAt
    ensures !p.bannedAt.Str? ==> u.bannedAt == Undefined
    ensures u.createdAt == p.createdAt && u.updatedAt == p.updatedAt
  {
    ApiUser(
      id := p.id,
      fullname := p.fullname,
      email := p.email,
      phone := p.phone,
      role := p.role,
      verificationStatus := p.verificationStatus,
      branchId :=
        if p.branchId != Null && p.branchId != Undefined then
          if TypeOf(p.branchId) == "number" then p.branchId
          else if p.branchId.Str? then ParseInt(p.branchId.s)
          else Null
        else Null,
      branch := if Truthy(p.branch) && TypeOf(p.branch) == "object" then p.branch else Null,
      userProfile := if Truthy(p.userProfile) && TypeOf(p.userProfile) == "object" then p.userProfile else Null,
      balance := if p.balance.Str? then p.balance else Undefined,
      bannedAt := if p.bannedAt.Str? then p.bannedAt else Undefined,
      createdAt := p.createdAt,
      updatedAt := p.updatedAt)
  }

  /** Rebuilding is stable: a user already rebuilt from storage is rebuilt
      to itself, so a record the store wrote after a reload reloads unchanged. */
  lemma FromStorageIdempotent(p: ApiUser)
    ensures FromStorage(FromStorage(p)) == FromStorage(p)
  {
  }

  /** A stored user record is adopted: it parses to an object that passes validation. */
  predicate AdoptableDoc(m: map<string, StoredValue>) {
    UserDataKey in m && m[UserDataKey].Json? && m[UserDataKey].doc.UserObject?
    && StoredUserValid(m[UserDataKey].doc.user)
  }

  /** loadAuthFromStorage */
  function Hydrated(s: State): (r: State)
    requires SlotsWellFormed(s.storage)
    ensures r.isInitialized
    ensures !StoredTruthy(s.storage, AuthTokenKey) ==>
              r.token.None? && r.currentUser.None? && r.profileError.None? && !r.profileLoading
              && r.storage == s.storage - {AuthTokenKey, UserDataKey}
    ensures StoredTruthy(s.storage, AuthTokenKey) ==>
              r.token == Some(s.storage[AuthTokenKey].text) && Present(r.token)
              && r.profileError == s.profileError && r.profileLoading == s.profileLoading
    ensures StoredTruthy(s.storage, AuthTokenKey) && AdoptableDoc(s.storage) ==>
              var stored := s.storage[UserDataKey].doc.user;
              && r.currentUser == Some(WithMappedRole(FromStorage(stored)))
              && SameIdentity(r.currentUser.value, stored)
              && IsAuthenticated(r)
              && r.storage == s.storage
    ensures StoredTruthy(s.storage, AuthTokenKey) && StoredTruthy(s.storage, UserDataKey) && !AdoptableDoc(s.storage) ==>
              r.currentUser.None? && !IsAuthenticated(r) && r.storage == s.storage - {UserDataKey}
    ensures StoredTruthy(s.storage, AuthTokenKey) && !StoredTruthy(s.storage, UserDataKey) ==>
              r.currentUser == s.currentUser && r.storage == s.storage
    ensures SlotsWellFormed(r.storage)
    ensures Inv(s) ==> Inv(r)
  {
    if StoredTruthy(s.storage, AuthTokenKey) then
      var s1 := s.(token := Some(s.storage[AuthTokenKey].text));
      var s2 :=
        if !StoredTruthy(s.storage, UserDataKey) then s1
        else if AdoptableDoc(s.storage) then WithUser(s1, Some(FromStorage(s.storage[UserDataKey].doc.user)))
        else
          var s3 := WithUser(s1, None);
          s3.(storage := StoreUser(s3.storage, None));
      s2.(isInitialized := true)
    else
      Cleared(s, true).(isInitialized := true)
  }

  /** Hydrating twice from the same storage gives the same state as hydrating once. */
  lemma HydrateIdempotent(s: State)
    requires SlotsWellFormed(s.storage)
    ensures Hydrated(Hydrated(s)) == Hydrated(s)
  {
  }

  /** A reload right after a login: fresh refs over the storage the login
      wrote, then loadAuthFromStorage, give an authenticated session with the
      same token and the same identity fields and mapped role. */
  lemma ReloadAfterLogin(s: State, t: string, u: ApiUser)
    requires t != ""
    requires u.id.Str? && u.id.s != ""
    requires u.fullname.Str? && u.email.Str? && u.phone.Str? && u.verificationStatus.Str?
    ensures var reloaded := Hydrated(Initial(LoggedIn(s, Some(t), Some(u)).storage));
            && IsAuthenticated(reloaded)
            && reloaded.token == Some(t)
            && reloaded.currentUser.Some?
            && SameIdentity(reloaded.currentUser.value, WithMappedRole(u))
            && reloaded.isInitialized
  {
    var written := LoggedIn(s, Some(t), Some(u));
    var m := WithMappedRole(u);
    assert written.storage[UserDataKey] == Json(UserObject(m));
    assert StoredUserValid(m);
    assert AdoptableDoc(written.storage);
  }

  // ---------------------------------------------------------------------
  // Profile refresh

  const NoUserDataMessage: string := "Failed to load profile data."
  const UnknownErrorMessage: string := "An unknown error occurred while fetching profile."
  const Unauthorized: int := 401

  /** How `getMe(token)` settles: a response whose `user` is present or
      absent, a thrown `Error` with its message and the HTTP status of the
      response it carries (if any), or a thrown value that is not an `Error`. */
  datatype MeOutcome =
    | Resolved(user: Option<ApiUser>)
    | ThrownError(message: string, status: Option<int>)
    | ThrownNonError

  /** fetchProfile, given how `getMe` settles. */
  function Refreshed(s: State, o: MeOutcome): (r: State)
    ensures !Present(s.token) ==> r == s
    ensures Present(s.token) ==> !r.profileLoading && r.isInitialized == s.isInitialized
    ensures Present(s.token) && o.Resolved? && o.user.Some? ==>
              && r.token == s.token
              && r.currentUser == Some(WithMappedRole(o.user.value))
              && IsAuthenticated(r)
              && r.storage == s.storage[UserDataKey := Json(UserObject(r.currentUser.value))]
              && r.profileError.None?
    ensures Present(s.token) && o.ThrownError? && o.status == Some(Unauthorized) ==>
              && r.token.None? && r.currentUser.None?
              && r.storage == s.storage - {AuthTokenKey, UserDataKey}
              && r.profileError.None?
    ensures Present(s.token) && !(o.Resolved? && o.user.Some?) && !(o.ThrownError? && o.status == Some(Unauthorized)) ==>
              && r.token == s.token && r.currentUser == s.currentUser && r.storage == s.storage
              && r.profileError == Some(if o.ThrownError? then o.message
                                        else if o.ThrownNonError? then UnknownErrorMessage
                                        else NoUserDataMessage)
    ensures Inv(s) ==> Inv(r)
  {
    if !Present(s.token) then s
    else
      var busy := s.(profileLoading := true, profileError := None);
      var settled :=
        match o
        case Resolved(Some(u)) =>
          var s1 := WithUser(busy, Some(u));
          s1.(storage := StoreUser(s1.storage, s1.currentUser))
        case Resolved(None) => busy.(profileError := Some(NoUserDataMessage))
        case ThrownError(message, status) =>
          var s1 := busy.(profileError := Some(message));
          if status == Some(Unauthorized) then Cleared(s1, true) else s1
        case ThrownNonError => busy.(profileError := Some(UnknownErrorMessage));
      settled.(profileLoading := false)
  }

  // ---------------------------------------------------------------------
  // The store

  datatype LoginResponse = LoginResponse(token: Option<string>, user: Option<ApiUser>)
  datatype RiderRegistrationResponse = RiderRegistrationResponse(accessToken: Option<string>, user: Option<ApiUser>)

  class Session {
    var token: Option<string>
    var currentUser: Option<ApiUser>
    var profileLoading: bool
    var profileError: Option<string>
    var isInitialized: bool
    var storage: map<string, StoredValue>

    function Snapshot(): State
      reads this
    {
      State(token, currentUser, profileLoading, profileError, isInitialized, storage)
    }

    ghost predicate Valid()
      reads this
    {
      Inv(Snapshot())
    }

    /** Creating the store runs the initial loadAuthFromStorage, which has no
        suspension point and so completes before the store is handed out. */
    constructor (initial: map<string, StoredValue>)
      requires SlotsWellFormed(initial)
      ensures Valid()
      ensures Snapshot() == Hydrated(Initial(initial))
    {
      token := None;
      currentUser := None;
      profileLoading := false;
      profileError := None;
      isInitialized := false;
      storage := initial;
      new;
      LoadAuthFromStorage();
    }

    method SetUserState(apiUserData: Option<ApiUser>)
      modifies this
      ensures Snapshot() == WithUser(old(Snapshot()), apiUserData)
    {
      if apiUserData.None? {
        currentUser := None;
        return;
      }
      var userRoleEnum := Unknown;
      var roleKey := FindRoleKey(RoleKeys, apiUserData.value.role);
      if roleKey.Some? {
        userRoleEnum := roleKey.value;
      }
      currentUser := Some(apiUserData.value.(role := Str(RoleName(userRoleEnum))));
    }

    method SetTokenState(newToken: Option<string>)
      modifies this
      ensures Snapshot() == old(Snapshot()).(token := newToken)
    {
      token := newToken;
    }

    method SetUserStorage(user: Option<ApiUser>)
      modifies this
      ensures Snapshot() == old(Snapshot()).(storage := StoreUser(old(storage), user))
    {
      if user.Some? {
        storage := storage[UserDataKey := Json(UserObject(user.value))];
      } else {
        storage := storage - {UserDataKey};
      }
    }

    method SetTokenStorage(tokenValue: Option<string>)
      modifies this
      ensures Snapshot() == old(Snapshot()).(storage := StoreToken(old(storage), tokenValue))
    {
      if Present(tokenValue) {
        storage := storage[AuthTokenKey := Text(tokenValue.value)];
      } else {
        storage := storage - {AuthTokenKey};
      }
    }

    method ClearAuthData(clearToken: bool)
      modifies this
      ensures Valid()
      ensures Snapshot() == Cleared(old(Snapshot()), clearToken)
    {
      if clearToken {
        SetTokenState(None);
      }
      SetUserState(None);
      SetTokenStorage(None);
      SetUserStorage(None);
      profileError := None;
      profileLoading := false;
    }

    method FetchProfile(outcome: MeOutcome)
      requires Valid()
      modifies this
      ensures Valid()
      ensures Snapshot() == Refreshed(old(Snapshot()), outcome)
    {
      if !Present(token) {
        return;
      }
      profileLoading := true;
      profileError := None;
      match outcome {
        case Resolved(user) =>
          if user.Some? {
            SetUserState(user);
            SetUserStorage(currentUser);
          } else {
            profileError := Some(NoUserDataMessage);
          }
        case ThrownError(message, status) =>
          profileError := Some(message);
          if status == Some(Unauthorized) {
            ClearAuthData(true);
          }
        case ThrownNonError =>
          profileError := Some(UnknownErrorMessage);
      }
      profileLoading := false;
    }

    method LoadAuthFromStorage()
      requires Valid()
      modifies this
      ensures Valid()
      ensures Snapshot() == Hydrated(old(Snapshot()))
    {
      if StoredTruthy(storage, AuthTokenKey) {
        token := Some(storage[AuthTokenKey].text);
        if StoredTruthy(storage, UserDataKey) {
          var stored := storage[UserDataKey];
          if stored.Json? && stored.doc.UserObject? && StoredUserValid(stored.doc.user) {
            SetUserState(Some(FromStorage(stored.doc.user)));
          } else {
            SetUserState(None);
            SetUserStorage(None);
          }
        }
      } else {
        ClearAuthData(true);
      }
      isInitialized := true;
    }

    method Login(loginResponse: LoginResponse)
      requires Valid()
      modifies this
      ensures Valid()
      ensures Snapshot() == LoggedIn(old(Snapshot()), loginResponse.token, loginResponse.user)
    {
      SetTokenState(loginResponse.token);
      SetUserState(loginResponse.user);
      SetTokenStorage(loginResponse.token);
      SetUserStorage(currentUser);
      profileError := None;
    }

    method Logout()
      modifies this
      ensures Valid()
      ensures Snapshot() == Cleared(old(Snapshot()), true)
    {
      ClearAuthData(true);
    }

    method HandleRiderRegistration(registrationResponse: RiderRegistrationResponse)
      requires Valid()
      modifies this
      ensures Valid()
      ensures Snapshot() == LoggedIn(old(Snapshot()), registrationResponse.accessToken, registrationResponse.user)
    {
      SetTokenState(registrationResponse.accessToken);
      SetUserState(registrationResponse.user);
      SetTokenStorage(registrationResponse.accessToken);
      SetUserStorage(currentUser);
      profileError := None;
    }
  }
}
