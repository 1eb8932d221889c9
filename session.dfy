/**
 * The app-wide providers: a mock signed-in user and the dark-theme switch,
 * both written through to local storage under `researchflow_user` and
 * `researchflow_theme`.
 */
module Session {
  import opened Wrappers
  import opened Text
  import opened Json
  import Storage

  const UserKey := "researchflow_user"
  const ThemeKey := "researchflow_theme"

  datatype Subscription = Free | Premium

  datatype User = User(id: string, email: string, name: string, subscription: Subscription)

  function SubscriptionName(s: Subscription): (r: string)
    ensures r == "free" <==> s == Free
  {
    match s
    case Free => "free"
    case Premium => "premium"
  }

  function SubscriptionFromName(name: string): (r: Option<Subscription>)
    ensures r.Some? ==> SubscriptionName(r.value) == name
  {
    if name == "free" then Some(Free)
    else if name == "premium" then Some(Premium)
    else None
  }

  /** The members `JSON.stringify` writes for a user, in declaration order. */
  function UserJson(u: User): Json {
    JObj([ Member("id", JStr(u.id)), Member("email", JStr(u.email)), Member("name", JStr(u.name)),
      Member("subscription", JStr(SubscriptionName(u.subscription))) ])
  }

  function UserFromJson(j: Json): Option<User> {
    match j
    case JObj(ms) =>
      var id, email, name := StrField(ms, "id"), StrField(ms, "email"), StrField(ms, "name");
      var sub := StrField(ms, "subscription");
      if id.Some? && email.Some? && name.Some? && sub.Some? && SubscriptionFromName(sub.value).Some?
      then Some(User(id.value, email.value, name.value, SubscriptionFromName(sub.value).value))
      else None
    case _ => None
  }

  /** `JSON.stringify(user)`. */
  function EncodeUser(u: User): string {
    Stringify(UserJson(u))
  }

  /** `JSON.parse(saved)` read as a user; `None` where parsing would throw or the shape is wrong. */
  function DecodeUser(s: string): Option<User> {
    match Parse(s)
    case Some(j) => UserFromJson(j)
    case None => None
  }

  /** A stored user reads back as the same user. */
  lemma DecodeEncodeUser(u: User)
    ensures DecodeUser(EncodeUser(u)) == Some(u)
  {
    ParseStringify(UserJson(u));
    var ms := UserJson(u).members;
    ReadString(ms, 0, u.id);
    ReadString(ms, 1, u.email);
    ReadString(ms, 2, u.name);
    ReadString(ms, 3, SubscriptionName(u.subscription));
  }

  /** The user `login` makes up: id "1", free, named after the part of the email before its first '@'. */
  function LoginUser(email: string): (u: User)
    ensures u.id == "1" && u.email == email && u.subscription == Free
    ensures u.name <= email && '@' !in u.name
    ensures |u.name| < |email| ==> email[|u.name|] == '@'
  {
    User("1", email, BeforeFirst(email, '@'), Free)
  }

  /** An email without '@' names the user in full. */
  lemma LoginNameWithoutAt(email: string)
    requires '@' !in email
    ensures LoginUser(email).name == email
  {
  }

  /** The user `signup` makes up: the given name as it is, id "1", free. */
  function SignupUser(email: string, name: string): (u: User)
    ensures u.id == "1" && u.email == email && u.name == name && u.subscription == Free
  {
    User("1", email, name, Free)
  }

  /** Login and signup make the same user when the given name is the email's local part. */
  lemma LoginIsSignupWithLocalPart(email: string)
    ensures LoginUser(email) == SignupUser(email, BeforeFirst(email, '@'))
  {
  }

  /** The stored theme word. */
  function ThemeName(isDark: bool): (r: string)
    ensures r == "dark" <==> isDark
  {
    if isDark then "dark" else "light"
  }

  class AppSession {
    var user: Option<User>
    var isDark: bool
    var loading: bool
    const store: Storage.LocalStorage

    constructor(store: Storage.LocalStorage)
      ensures this.store == store
      ensures user == None && !isDark && loading
    {
      this.store := store;
      user := None;
      isDark := false;
      loading := true;
    }

    /**
     * The init effect. A non-empty saved user is restored (text that does not
     * parse as a user stops the effect where `JSON.parse` would throw); a saved
     * theme of exactly "dark" turns the dark theme on; loading then ends.
     * Storage is only read.
     */
    method Init()
      modifies this
      ensures var saved := store.Get(UserKey);
        if saved.Some? && saved.value != "" && DecodeUser(saved.value).None? then
          user == old(user) && isDark == old(isDark) && loading == old(loading)
        else
          && user == (if saved.Some? && saved.value != "" then DecodeUser(saved.value) else old(user))
          && isDark == (old(isDark) || store.Get(ThemeKey) == Some("dark"))
          && !loading
    {
      var saved := store.Get(UserKey);
      if saved.Some? && saved.value != "" {
        var restored := DecodeUser(saved.value);
        if restored.None? {
          return;
        }
        user := restored;
      }
      var theme := store.Get(ThemeKey);
      if theme == Some("dark") {
        isDark := true;
      }
      loading := false;
    }

    /** `login`: the password is not looked at; the made-up user is set and stored, and login succeeds. */
    method Login(email: string, password: string) returns (ok: bool)
      modifies this, store
      ensures ok
      ensures user == Some(LoginUser(email))
      ensures store.items == old(store.items)[UserKey := EncodeUser(LoginUser(email))]
      ensures DecodeUser(store.items[UserKey]) == user
      ensures isDark == old(isDark) && loading == old(loading)
    {
      var u := LoginUser(email);
      user := Some(u);
      store.SetItem(UserKey, EncodeUser(u));
      DecodeEncodeUser(u);
      ok := true;
    }

    /** `signup`: like login, but the user carries the given name. */
    method Signup(email: string, password: string, name: string) returns (ok: bool)
      modifies this, store
      ensures ok
      ensures user == Some(SignupUser(email, name))
      ensures store.items == old(store.items)[UserKey := EncodeUser(SignupUser(email, name))]
      ensures DecodeUser(store.items[UserKey]) == user
      ensures isDark == old(isDark) && loading == old(loading)
    {
      var u := SignupUser(email, name);
      user := Some(u);
      store.SetItem(UserKey, EncodeUser(u));
      DecodeEncodeUser(u);
      ok := true;
    }

    /** `logout`: no user, and none stored. */
    method Logout()
      modifies this, store
      ensures user == None
      ensures store.items == old(store.items) - {UserKey}
      ensures store.Get(UserKey) == None
      ensures isDark == old(isDark) && loading == old(loading)
    {
      user := None;
      store.RemoveItem(UserKey);
    }

    /** `toggleTheme`: the theme flips and the stored word says which one is on. */
    method ToggleTheme()
      modifies this, store
      ensures isDark == !old(isDark)
      ensures store.items == old(store.items)[ThemeKey := ThemeName(isDark)]
      ensures store.Get(ThemeKey) == Some("dark") <==> isDark
      ensures user == old(user) && loading == old(loading)
    {
      var newIsDark := !isDark;
      isDark := newIsDark;
      if newIsDark {
        store.SetItem(ThemeKey, "dark");
      } else {
        store.SetItem(ThemeKey, "light");
      }
    }
  }

  /** Signing in and reloading: a new session's init restores the user and the theme that were stored. */
  method LoginThenReload(store: Storage.LocalStorage, email: string, password: string)
    returns (before: AppSession, after: AppSession)
    modifies store
    ensures after.user == Some(LoginUser(email)) && !after.loading
    ensures after.isDark == before.isDark
  {
    before := new AppSession(store);
    var _ := before.Login(email, password);
    before.ToggleTheme();
    after := new AppSession(store);
    after.Init();
  }
}
