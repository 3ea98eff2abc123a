/**
 * The user session store: an in-memory profile and token, mirrored to
 * `localStorage` under fixed keys, with three mutators and three derived views.
 *
 * The store is in one of two states, logged out (no profile) or logged in
 * (a profile is present). Each mutator is specified by a function on a
 * Snapshot of the in-memory fields and the storage table; the lemmas at the
 * end are stated on those functions.
 */
module UserStore {
  import opened Wrappers
  import opened Profile
  import opened ProfileJson
  import opened BrowserStorage

  /** The storage key of the serialized profile. */
  const UserInfoKey: string := "userInfo"
  /** The storage key of the token. */
  const TokenKey: string := "token"
  /** The image shown for a profile without an avatar. */
  const FallbackAvatar: string := "https://picsum.photos/seed/useravatar/100/100"

  // ---------------------------------------------------------------------------
  // Derived views of the in-memory profile

  /** `isLoggedIn`: a profile object is always truthy, so this is "a profile is present". */
  predicate IsLoggedIn(info: Option<UserInfo>) {
    info.Some?
  }

  /** `userAvatar`: the profile's avatar, or the fallback image when it is missing or empty. */
  function UserAvatar(info: Option<UserInfo>): (r: string)
    ensures r == "" <==> !IsLoggedIn(info)
    ensures IsLoggedIn(info) ==> r == FallbackAvatar || Some(r) == info.value.userAvatar
    ensures IsLoggedIn(info) && IsTruthy(info.value.userAvatar) ==> Some(r) == info.value.userAvatar
  {
    if info.None? then ""
    else if IsTruthy(info.value.userAvatar) then info.value.userAvatar.value
    else FallbackAvatar
  }

  /**
   * `userName`: the display name, or else the account name. The account name may
   * itself be absent, so the result is `None` when neither field gives a value.
   */
  function UserName(info: Option<UserInfo>): (r: Option<string>)
    ensures !IsLoggedIn(info) ==> r == Some("")
    ensures IsLoggedIn(info) ==> r == info.value.userName || r == info.value.userAccount
    ensures IsLoggedIn(info) && IsTruthy(info.value.userName) ==> r == info.value.userName
    ensures r.None? <==>
      IsLoggedIn(info) && !IsTruthy(info.value.userName) && info.value.userAccount.None?
    ensures IsTruthy(r) <==>
      IsLoggedIn(info) && (IsTruthy(info.value.userName) || IsTruthy(info.value.userAccount))
  {
    if info.None? then Some("")
    else if IsTruthy(info.value.userName) then info.value.userName
    else info.value.userAccount
  }

  // ---------------------------------------------------------------------------
  // The mutators as functions of the whole state

  /** The in-memory fields of the store together with the storage table. */
  datatype Snapshot = Snapshot(userInfo: Option<UserInfo>, token: string, items: map<string, string>)

  /** `setUserInfo(user, userToken)`. */
  function AfterSetUserInfo(w: Snapshot, user: UserInfo, userToken: string): (r: Snapshot)
    ensures r.userInfo == Some(user) && r.token == userToken
    ensures UserInfoKey in r.items && r.items[UserInfoKey] == Serialize(user)
    ensures TokenKey in r.items && r.items[TokenKey] == userToken
    ensures forall k :: k != UserInfoKey && k != TokenKey ==>
      (k in r.items <==> k in w.items) && (k in r.items ==> r.items[k] == w.items[k])
  {
    Snapshot(Some(user), userToken, w.items[UserInfoKey := Serialize(user)][TokenKey := userToken])
  }

  /** `clearUserInfo()`. */
  function AfterClearUserInfo(w: Snapshot): (r: Snapshot)
    ensures r.userInfo == None && r.token == ""
    ensures UserInfoKey !in r.items && TokenKey !in r.items
    ensures forall k :: k != UserInfoKey && k != TokenKey ==>
      (k in r.items <==> k in w.items) && (k in r.items ==> r.items[k] == w.items[k])
  {
    Snapshot(None, "", w.items - {UserInfoKey, TokenKey})
  }

  /** Both stored entries are present and non-empty (`savedUserInfo && savedToken`). */
  predicate HasSavedSession(items: map<string, string>): (r: bool)
    ensures r <==>
      UserInfoKey in items && items[UserInfoKey] != "" && TokenKey in items && items[TokenKey] != ""
  {
    IsTruthy(Lookup(items, UserInfoKey)) && IsTruthy(Lookup(items, TokenKey))
  }

  /** `initUserInfo()`. */
  function AfterInitUserInfo(w: Snapshot): (r: Snapshot)
    ensures !HasSavedSession(w.items) ==> r == w
    ensures HasSavedSession(w.items) && Parse(w.items[UserInfoKey]).ParseError? ==>
      r == AfterClearUserInfo(w)
    ensures HasSavedSession(w.items) && Parse(w.items[UserInfoKey]).Parsed? ==>
      r.userInfo == Parse(w.items[UserInfoKey]).value
      && r.token == w.items[TokenKey]
      && r.items == w.items
  {
    if HasSavedSession(w.items) then
      match Parse(w.items[UserInfoKey])
      case Parsed(v) => w.(userInfo := v, token := w.items[TokenKey])
      case ParseError => AfterClearUserInfo(w)
    else w
  }

  // ---------------------------------------------------------------------------
  // The store object

  class Store {
    var userInfo: Option<UserInfo>
    var token: string
    /** The page's `localStorage`, shared with everything else on the page. */
    const storage: LocalStorage

    /** A new store starts logged out, with an empty token. */
    constructor (storage: LocalStorage)
      ensures this.storage == storage
      ensures userInfo == None && token == ""
    {
      this.storage := storage;
      userInfo := None;
      token := "";
    }

    function State(): Snapshot
      reads this, storage
    {
      Snapshot(userInfo, token, storage.items)
    }

    method SetUserInfo(user: UserInfo, userToken: string)
      modifies this, storage
      ensures State() == AfterSetUserInfo(old(State()), user, userToken)
    {
      userInfo := Some(user);
      token := userToken;
      storage.SetItem(UserInfoKey, Serialize(user));
      storage.SetItem(TokenKey, userToken);
    }

    method ClearUserInfo()
      modifies this, storage
      ensures State() == AfterClearUserInfo(old(State()))
    {
      userInfo := None;
      token := "";
      storage.RemoveItem(UserInfoKey);
      storage.RemoveItem(TokenKey);
    }

    method InitUserInfo()
      modifies this, storage
      ensures State() == AfterInitUserInfo(old(State()))
    {
      var savedUserInfo := storage.GetItem(UserInfoKey);
      var savedToken := storage.GetItem(TokenKey);
      if IsTruthy(savedUserInfo) && IsTruthy(savedToken) {
        var parsed := Parse(savedUserInfo.value);
        if parsed.Parsed? {
          userInfo := parsed.value;
          token := savedToken.value;
        } else {
          // the failure is logged to the console, which the model leaves out
          ClearUserInfo();
        }
      }
    }
  }

  // ---------------------------------------------------------------------------
  // Properties of the session

  /** After setUserInfo the store is logged in and the views come from the new profile. */
  lemma SetUserInfoLogsIn(w: Snapshot, user: UserInfo, userToken: string)
    ensures var r := AfterSetUserInfo(w, user, userToken);
      IsLoggedIn(r.userInfo)
      && UserAvatar(r.userInfo) == (if IsTruthy(user.userAvatar) then user.userAvatar.value else FallbackAvatar)
      && UserName(r.userInfo) == (if IsTruthy(user.userName) then user.userName else user.userAccount)
  {
  }

  /** The login state is visible in the views: the avatar is shown exactly when logged in. */
  lemma LoggedInIffAvatarShown(info: Option<UserInfo>)
    ensures IsLoggedIn(info) <==> UserAvatar(info) != ""
    ensures !IsLoggedIn(info) ==> UserName(info) == Some("")
  {
  }

  /** After clearUserInfo the store is logged out and the views are empty strings. */
  lemma ClearUserInfoLogsOut(w: Snapshot)
    ensures var r := AfterClearUserInfo(w);
      !IsLoggedIn(r.userInfo) && UserAvatar(r.userInfo) == "" && UserName(r.userInfo) == Some("")
  {
  }

  /** clearUserInfo is idempotent. */
  lemma ClearUserInfoIdempotent(w: Snapshot)
    ensures AfterClearUserInfo(AfterClearUserInfo(w)) == AfterClearUserInfo(w)
  {
  }

  /** initUserInfo is idempotent: a second call with the same storage changes nothing. */
  lemma InitUserInfoIdempotent(w: Snapshot)
    ensures AfterInitUserInfo(AfterInitUserInfo(w)) == AfterInitUserInfo(w)
  {
  }

  /**
   * initUserInfo moves a logged-out store to logged in only by reading a stored
   * profile object, and it never changes a stored entry except by removing both.
   */
  lemma InitUserInfoLogsInOnlyFromStorage(w: Snapshot)
    ensures var r := AfterInitUserInfo(w);
      (!IsLoggedIn(w.userInfo) && IsLoggedIn(r.userInfo) ==>
         HasSavedSession(w.items) && Parse(w.items[UserInfoKey]) == Parsed(r.userInfo))
      && (r.items == w.items || r.items == w.items - {UserInfoKey, TokenKey})
  {
  }

  /**
   * Persistence round trip: save a session with a non-empty token, reload the
   * page (a new store over the same storage) and call initUserInfo. The reloaded
   * store holds the saved profile and token, and calling initUserInfo again
   * changes nothing.
   */
  lemma ReloadRestoresSession(w: Snapshot, user: UserInfo, userToken: string)
    requires userToken != ""
    ensures var saved := AfterSetUserInfo(w, user, userToken);
      var reloaded := AfterInitUserInfo(Snapshot(None, "", saved.items));
      reloaded == saved && AfterInitUserInfo(reloaded) == reloaded
  {
    var saved := AfterSetUserInfo(w, user, userToken);
    ParseSerialize(user);
    assert HasSavedSession(saved.items);
    InitUserInfoIdempotent(Snapshot(None, "", saved.items));
  }

  /** After clearUserInfo and a reload, initUserInfo leaves the store logged out. */
  lemma ReloadAfterClearStaysLoggedOut(w: Snapshot)
    ensures var cleared := AfterClearUserInfo(w);
      AfterInitUserInfo(Snapshot(None, "", cleared.items)) == Snapshot(None, "", cleared.items)
  {
  }

  /**
   * The token is not tied to the profile: a stored profile text `null` with a
   * stored token restores a logged-out store that nevertheless holds the token.
   */
  lemma StoredNullProfileKeepsToken(t: string)
    requires t != ""
    ensures var r := AfterInitUserInfo(Snapshot(None, "", map[UserInfoKey := "null", TokenKey := t]));
      !IsLoggedIn(r.userInfo) && r.token == t
  {
  }

  /** Two sign-ins and a sign-out run against the store object. */
  method SignInScenarios()
  {
    var storage := new LocalStorage(map[]);
    var store := new Store(storage);
    store.SetUserInfo(UserInfo(Some(1), Some("alice"), None, None), "tok123");
    assert IsLoggedIn(store.userInfo);
    assert UserName(store.userInfo) == Some("alice");
    assert UserAvatar(store.userInfo) == FallbackAvatar;
    assert storage.items[TokenKey] == "tok123";

    store.SetUserInfo(UserInfo(None, Some("bob"), Some("http://x/a.png"), Some("Bob")), "tok456");
    assert UserName(store.userInfo) == Some("Bob");
    assert UserAvatar(store.userInfo) == "http://x/a.png";

    store.ClearUserInfo();
    assert !IsLoggedIn(store.userInfo) && UserAvatar(store.userInfo) == "";
    assert UserInfoKey !in storage.items && TokenKey !in storage.items;
  }

  /**
   * A page reload: a second store over the same storage restores the session
   * the first one saved. A later sign-out through the first store empties the
   * shared storage but not the second store's in-memory fields.
   */
  method ReloadScenario(user: UserInfo, userToken: string)
    requires userToken != ""
  {
    var storage := new LocalStorage(map[]);
    var store := new Store(storage);
    store.SetUserInfo(user, userToken);

    var reloaded := new Store(storage);
    ParseSerialize(user);
    reloaded.InitUserInfo();
    assert reloaded.State() == store.State();

    store.ClearUserInfo();
    label cleared:
    reloaded.InitUserInfo();
    assert reloaded.State() == old@cleared(reloaded.State());
    assert IsLoggedIn(reloaded.userInfo) && !IsLoggedIn(store.userInfo);
  }
}
