/** The signed-in user, kept in memory and in the browser's key-value store
    under `user` (serialised) with the session token under `access_token`.

    Serialisation is a parameter: `serialize` is `JSON.stringify` of a user,
    `parse` is `JSON.parse` of the stored text, `Unparsable` when it throws. */
module AuthContext {
  import opened Common
  import opened MyTemplates

  datatype User = User(id: string, email: string)

  /** The result of `JSON.parse` on the stored text: a user, `null`, or an
      exception. */
  datatype Parsed = Parsed(user: Option<User>) | Unparsable

  const UserKey := "user"
  const TokenKey := "access_token"

  function SavedDocsKey(id: string): string { "savedDocs_" + id }
  function CustomTemplatesKey(id: string): string { "customTemplates_" + id }

  /** The keys `logout` removes. */
  function LogoutKeys(user: Option<User>): (r: set<string>)
    ensures UserKey in r && TokenKey in r
    ensures user.Some? ==> SavedDocsKey(user.value.id) in r && CustomTemplatesKey(user.value.id) in r
    ensures user.None? ==> r == {UserKey, TokenKey}
  {
    if user.Some? then {UserKey, TokenKey, SavedDocsKey(user.value.id), CustomTemplatesKey(user.value.id)}
    else {UserKey, TokenKey}
  }

  /** Two keys with different first characters differ. */
  lemma KeysDiffer(a: string, b: string)
    requires a != [] && b != [] && a[0] != b[0]
    ensures a != b
  {
  }

  /** The store after `logout`: the user and the token are gone, and with a
      user their saved documents and custom templates as well. */
  function LogoutStore(store: map<string, string>, user: Option<User>): (r: map<string, string>)
    ensures forall k :: k in r <==> k in store && k !in LogoutKeys(user)
    ensures forall k :: k in r ==> r[k] == store[k]
  {
    store - LogoutKeys(user)
  }

  /** The templates page's key is never among the keys `logout` removes, so
      a user's templates survive signing out. */
  lemma TemplatesSurviveLogout(store: map<string, string>, user: Option<User>, id: string)
    requires TemplatesKey(id) in store
    ensures TemplatesKey(id) in LogoutStore(store, user)
    ensures LogoutStore(store, user)[TemplatesKey(id)] == store[TemplatesKey(id)]
  {
    var k := TemplatesKey(id);
    assert k[0] == 'u' && |k| > |UserKey|;
    assert k != UserKey;
    KeysDiffer(k, TokenKey);
    if user.Some? {
      KeysDiffer(k, SavedDocsKey(user.value.id));
      KeysDiffer(k, CustomTemplatesKey(user.value.id));
    }
  }

  /** What the provider's mount effect makes of the stored user: a stored
      text that parses sets the user; one that does not removes both keys. */
  function Restore(store: map<string, string>, parse: string -> Parsed): (r: (Option<User>, map<string, string>))
    ensures UserKey !in store || store[UserKey] == "" ==> r == (None, store)
    ensures UserKey in store && store[UserKey] != "" && parse(store[UserKey]).Parsed? ==>
      r == (parse(store[UserKey]).user, store)
    ensures UserKey in store && store[UserKey] != "" && parse(store[UserKey]).Unparsable? ==>
      r.0.None? && r.1 == store - {UserKey, TokenKey}
  {
    if UserKey in store && store[UserKey] != "" then
      match parse(store[UserKey])
      case Parsed(u) => (u, store)
      case Unparsable => (None, store - {UserKey, TokenKey})
    else (None, store)
  }

  /** A user restored from the store is the one `login` wrote there. */
  lemma RestoreAfterLogin(store: map<string, string>, u: User, serialize: User -> string, parse: string -> Parsed)
    requires serialize(u) != "" && parse(serialize(u)) == Parsed(Some(u))
    ensures Restore(store[UserKey := serialize(u)], parse).0 == Some(u)
  {
  }

  class Auth {
    var user: Option<User>
    var loading: bool
    var store: map<string, string>

    constructor (store: map<string, string>)
      ensures user.None? && loading && this.store == store
    {
      user := None;
      loading := true;
      this.store := store;
    }

    /** The mount effect, run while no user is set; loading ends whatever
        the stored text holds. */
    method Init(parse: string -> Parsed)
      requires user.None?
      modifies this
      ensures (user, store) == Restore(old(store), parse) && !loading && RendersChildren()
    {
      if UserKey in store && store[UserKey] != "" {
        match parse(store[UserKey]) {
          case Parsed(u) => user := u;
          case Unparsable => store := store - {UserKey, TokenKey};
        }
      }
      loading := false;
    }

    /** `login`: a user is stored and set only when given, a token stored
        only when non-empty. */
    method Login(userData: Option<User>, serialize: User -> string, token: string)
      modifies this
      ensures userData.Some? ==> user == userData && UserKey in store && store[UserKey] == serialize(userData.value)
      ensures userData.None? ==> user == old(user)
      ensures userData.Some? ==> IsAuthenticated()
      ensures token != "" ==> TokenKey in store && store[TokenKey] == token
      ensures token == "" ==>
        (TokenKey in store <==> TokenKey in old(store)) && (TokenKey in old(store) ==> store[TokenKey] == old(store)[TokenKey])
      ensures userData.None? ==>
        (UserKey in store <==> UserKey in old(store)) && (UserKey in old(store) ==> store[UserKey] == old(store)[UserKey])
      ensures forall k :: k in old(store) && k != UserKey && k != TokenKey ==> k in store && store[k] == old(store)[k]
      ensures forall k :: k in store ==> k == UserKey || k == TokenKey || k in old(store)
      ensures userData.None? && token == "" ==> store == old(store)
      ensures loading == old(loading)
    {
      if userData.Some? {
        store := store[UserKey := serialize(userData.value)];
        user := userData;
      }
      if token != "" {
        store := store[TokenKey := token];
      }
    }

    /** `logout` */
    method Logout()
      modifies this
      ensures user.None? && !IsAuthenticated() && store == LogoutStore(old(store), old(user))
      ensures loading == old(loading)
    {
      store := store - LogoutKeys(user);
      user := None;
    }

    /** `isAuthenticated` */
    predicate IsAuthenticated()
      reads this
    {
      user.Some?
    }

    /** The provider renders its children only once loading is over. */
    predicate RendersChildren()
      reads this
    {
      !loading
    }
  }
}
