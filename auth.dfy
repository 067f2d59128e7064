/**
 * The session holder (src/context/AuthContext.jsx): the access token and the
 * user record, restored from `localStorage` when the provider mounts,
 * mirrored back into it whenever either changes, set by `login` and cleared
 * by `logout`.
 *
 * `localStorage` is a map from key to text. `JSON.parse` and `JSON.stringify`
 * are parameters: `parse` gives None where it throws, `Some(None)` for a
 * text that parses to a falsy value (`null`, `0`, `false`, `""`) and
 * `Some(Some(u))` for a truthy one.
 */
module Auth {
  import opened Js

  const TokenKey: string := "accessToken"
  const UserKey: string := "user"

  /** A truthy user value; only its `id` is read anywhere in the core (a
      truthy non-object has no `id`, which reads as undefined). */
  datatype UserRecord = UserRecord(id: Value)

  /** `token` and `user`; None stands for null (or any falsy value). */
  datatype Session = Session(token: Option<string>, user: Option<UserRecord>)

  /** `localStorage.getItem(key)`: null for an absent key. */
  function Stored(storage: map<string, string>, key: string): Option<string>
  {
    if key in storage then Some(storage[key]) else None
  }

  /** Storage holds the token exactly when the token is truthy, and the
      user's JSON exactly when there is a user. */
  predicate Mirrors(storage: map<string, string>, s: Session, stringify: UserRecord -> string)
  {
    && (TokenKey in storage <==> Present(s.token))
    && (Present(s.token) ==> storage[TokenKey] == s.token.value)
    && (UserKey in storage <==> s.user.Some?)
    && (s.user.Some? ==> storage[UserKey] == stringify(s.user.value))
  }

  /** The session after the hydration effect, from the session it starts
      from: a truthy stored token replaces the token, and a truthy stored
      user text that parses replaces the user (a text parsing to a falsy
      value sets the user to null). */
  function Hydrated(prior: Session, storage: map<string, string>,
                    parse: string -> Option<Option<UserRecord>>): (s: Session)
    ensures s.token == if Present(Stored(storage, TokenKey)) then Stored(storage, TokenKey) else prior.token
    ensures Present(Stored(storage, UserKey)) && parse(storage[UserKey]).Some? ==>
              s.user == parse(storage[UserKey]).value
    ensures !Present(Stored(storage, UserKey)) || parse(storage[UserKey]).None? ==> s.user == prior.user
  {
    var storedToken := Stored(storage, TokenKey);
    var storedUser := Stored(storage, UserKey);
    var token := if Present(storedToken) then storedToken else prior.token;
    var user := if Present(storedUser) && parse(storedUser.value).Some? then parse(storedUser.value).value
                else prior.user;
    Session(token, user)
  }

  /** Storage after the hydration effect: a stored user text that does not
      parse is removed, and nothing else changes. */
  function HydratedStorage(storage: map<string, string>,
                           parse: string -> Option<Option<UserRecord>>): (r: map<string, string>)
    ensures r.Keys <= storage.Keys
    ensures forall k :: k in r ==> r[k] == storage[k]
    ensures UserKey !in r <==> UserKey !in storage || (storage[UserKey] != "" && parse(storage[UserKey]).None?)
    ensures forall k :: k in storage && k != UserKey ==> k in r
  {
    var storedUser := Stored(storage, UserKey);
    if Present(storedUser) && parse(storedUser.value).None? then storage - {UserKey} else storage
  }

  /** The persistence effect: each key is written from a truthy value and
      removed otherwise; every other key is kept. */
  function Persisted(storage: map<string, string>, s: Session, stringify: UserRecord -> string)
    : (r: map<string, string>)
    ensures Mirrors(r, s, stringify)
    ensures forall k :: k != TokenKey && k != UserKey ==> (k in r <==> k in storage)
    ensures forall k :: k in r && k != TokenKey && k != UserKey ==> r[k] == storage[k]
  {
    var withToken := if Present(s.token) then storage[TokenKey := s.token.value] else storage - {TokenKey};
    if s.user.Some? then withToken[UserKey := stringify(s.user.value)] else withToken - {UserKey}
  }

  /** `logout`'s two removals. */
  function LoggedOut(storage: map<string, string>): (r: map<string, string>)
    ensures TokenKey !in r && UserKey !in r
    ensures forall k :: k != TokenKey && k != UserKey ==> (k in r <==> k in storage)
    ensures forall k :: k in r ==> r[k] == storage[k]
  {
    storage - {TokenKey, UserKey}
  }

  /** A persistence step overwrites whatever an earlier one wrote. */
  lemma PersistOverwrites(storage: map<string, string>, a: Session, b: Session, stringify: UserRecord -> string)
    ensures Persisted(Persisted(storage, a, stringify), b, stringify) == Persisted(storage, b, stringify)
  {
    var x := Persisted(Persisted(storage, a, stringify), b, stringify);
    var y := Persisted(storage, b, stringify);
    assert forall k :: k in x <==> k in y;
    assert x.Keys == y.Keys;
  }

  /** A malformed stored user: the user stays as it was (null on mount),
      the `user` key is removed, and a stored token is still restored. */
  lemma {:induction false} HydrateMalformedUser(storage: map<string, string>,
                                                parse: string -> Option<Option<UserRecord>>)
    requires UserKey in storage && storage[UserKey] != "" && parse(storage[UserKey]).None?
    ensures Hydrated(Session(None, None), storage, parse).user == None
    ensures UserKey !in HydratedStorage(storage, parse)
    ensures Present(Stored(storage, TokenKey)) ==>
              Hydrated(Session(None, None), storage, parse).token == Some(storage[TokenKey]) &&
              HydratedStorage(storage, parse)[TokenKey] == storage[TokenKey]
  {
  }

  /** What the persistence effect wrote is what the next mount restores,
      when `parse` reads back what `stringify` wrote. */
  lemma {:induction false} ReloadRestoresSession(storage: map<string, string>, s: Session,
                                                 parse: string -> Option<Option<UserRecord>>,
                                                 stringify: UserRecord -> string)
    requires s.token.None? || Present(s.token)
    requires s.user.Some? ==> stringify(s.user.value) != "" && parse(stringify(s.user.value)) == Some(s.user)
    ensures Hydrated(Session(None, None), Persisted(storage, s, stringify), parse) == s
    ensures HydratedStorage(Persisted(storage, s, stringify), parse) == Persisted(storage, s, stringify)
  {
  }

  /** Logging out twice is logging out once. */
  lemma LogoutIdempotent(storage: map<string, string>)
    ensures LoggedOut(LoggedOut(storage)) == LoggedOut(storage)
    ensures forall stringify: UserRecord -> string :: Mirrors(LoggedOut(storage), Session(None, None), stringify)
  {
  }

  /** The provider's state and the browser storage it reads and writes. */
  class AuthProvider {
    var token: Option<string>
    var user: Option<UserRecord>
    var isLoading: bool
    var storage: map<string, string>

    function Current(): Session
      reads this
    {
      Session(token, user)
    }

    constructor (initial: map<string, string>)
      ensures token == None && user == None && isLoading
      ensures storage == initial
    {
      token := None;
      user := None;
      isLoading := true;
      storage := initial;
    }

    /** The hydration effect; it always ends the loading state. */
    method Hydrate(parse: string -> Option<Option<UserRecord>>)
      modifies this
      ensures !isLoading
      ensures Current() == Hydrated(old(Current()), old(storage), parse)
      ensures storage == HydratedStorage(old(storage), parse)
    {
      var storedToken := Stored(storage, TokenKey);
      var storedUser := Stored(storage, UserKey);
      if Present(storedToken) {
        token := storedToken;
      }
      if Present(storedUser) {
        var parsed := parse(storedUser.value);
        if parsed.Some? {
          user := parsed.value;
        } else {
          storage := storage - {UserKey};
        }
      }
      isLoading := false;
    }

    /** The persistence effect, run for the session `s` it was rendered
        with. */
    method PersistFor(s: Session, stringify: UserRecord -> string)
      modifies this
      ensures storage == Persisted(old(storage), s, stringify)
      ensures Mirrors(storage, s, stringify)
      ensures Current() == old(Current()) && isLoading == old(isLoading)
    {
      if Present(s.token) {
        storage := storage[TokenKey := s.token.value];
      } else {
        storage := storage - {TokenKey};
      }
      if s.user.Some? {
        storage := storage[UserKey := stringify(s.user.value)];
      } else {
        storage := storage - {UserKey};
      }
    }

    /** Mounting: both effects run once with the initial null session (the
        hydration's updates are not yet visible to the second), and the
        persistence effect runs again if hydration changed the session. */
    method Mount(parse: string -> Option<Option<UserRecord>>, stringify: UserRecord -> string)
      modifies this
      ensures !isLoading
      ensures Current() == Hydrated(old(Current()), old(storage), parse)
      ensures storage == Persisted(HydratedStorage(old(storage), parse), Current(), stringify)
      ensures Mirrors(storage, Current(), stringify)
    {
      var rendered := Current();
      Hydrate(parse);
      var afterHydrate := storage;
      PersistFor(rendered, stringify);
      if Current() != rendered {
        PersistFor(Current(), stringify);
        PersistOverwrites(afterHydrate, rendered, Current(), stringify);
      }
    }

    /** `login`: sets the two values and nothing else; the persistence
        effect then writes them. */
    method Login(userData: Option<UserRecord>, accessToken: Option<string>)
      modifies this
      ensures token == accessToken && user == userData
      ensures isLoading == old(isLoading) && storage == old(storage)
    {
      token := accessToken;
      user := userData;
    }

    /** `logout`: clears both values and both keys. */
    method Logout()
      modifies this
      ensures token == None && user == None && isLoading == old(isLoading)
      ensures storage == LoggedOut(old(storage))
    {
      token := None;
      user := None;
      storage := storage - {TokenKey};
      storage := storage - {UserKey};
      assert storage == old(storage) - {TokenKey, UserKey};
    }
  }
}
