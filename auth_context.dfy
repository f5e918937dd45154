/** The session store of the AuthProvider: the current user, kept in step with two keys of
    the browser's localStorage. The storage is a map from keys to strings; JSON.stringify and
    JSON.parse of the user object are modelled by an encoding of our own whose round trip is
    proved below. */
module AuthContext {
  import opened Common
  import opened UserDetails

  type Storage = map<string, string>

  const TokenKey := "authToken"
  const UserKey := "userData"

  // ---- the stored form of a user ----

  /** Escapes the two characters the encoding uses as delimiter and escape. */
  function Escape(s: string): (r: string)
    ensures |r| >= |s|
  {
    if s == [] then []
    else (if s[0] == '\\' || s[0] == ';' then ['\\', s[0]] else [s[0]]) + Escape(s[1..])
  }

  /** Reads an escaped string up to its unescaped terminator; returns it and what follows. */
  function Unescape(t: string): Option<(string, string)>
    decreases |t|
  {
    if t == [] then None
    else if t[0] == ';' then Some(([], t[1..]))
    else if t[0] == '\\' then
      if |t| < 2 then None
      else match Unescape(t[2..])
           case Some((s, r)) => Some(([t[1]] + s, r))
           case None => None
    else match Unescape(t[1..])
         case Some((s, r)) => Some(([t[0]] + s, r))
         case None => None
  }

  lemma {:induction false} UnescapeEscape(s: string, rest: string)
    ensures Unescape(Escape(s) + ";" + rest) == Some((s, rest))
    decreases |s|
  {
    var t := Escape(s) + ";" + rest;
    if s == [] {
      assert t == [';'] + rest;
      assert t[1..] == rest;
    } else {
      var c := s[0];
      var tail := Escape(s[1..]) + ";" + rest;
      UnescapeEscape(s[1..], rest);
      var prefix: string := if c == '\\' || c == ';' then ['\\', c] else [c];
      assert Escape(s) == prefix + Escape(s[1..]);
      assert t == prefix + tail;
      assert t[|prefix|..] == tail;
      assert [c] + s[1..] == s;
    }
  }

  /** One member: '-' when absent, 'f' or 't' for a boolean, 's' and the escaped text for a string. */
  function EncodeMember(u: User, f: UserField): (r: string)
    ensures r != []
  {
    if f !in u then "-"
    else match u[f]
         case Flag(b) => if b then "t" else "f"
         case Text(s) => "s" + Escape(s) + ";"
  }

  function DecodeMember(t: string): Option<(Option<Value>, string)> {
    if t == [] then None
    else if t[0] == '-' then Some((None, t[1..]))
    else if t[0] == 't' then Some((Some(Flag(true)), t[1..]))
    else if t[0] == 'f' then Some((Some(Flag(false)), t[1..]))
    else if t[0] == 's' then
      match Unescape(t[1..])
      case Some((s, r)) => Some((Some(Text(s)), r))
      case None => None
    else None
  }

  lemma DecodeEncodeMember(u: User, f: UserField, rest: string)
    ensures DecodeMember(EncodeMember(u, f) + rest) == Some((if f in u then Some(u[f]) else None, rest))
  {
    var e := EncodeMember(u, f);
    var t := e + rest;
    if f in u && u[f].Text? {
      var s := u[f].text;
      UnescapeEscape(s, rest);
      assert e == "s" + Escape(s) + ";";
      assert t[0] == 's';
      assert t[1..] == Escape(s) + ";" + rest;
    } else {
      assert |e| == 1 && t[0] == e[0];
      assert t[1..] == rest;
    }
  }

  function EncodeFields(u: User, fs: seq<UserField>): string {
    if fs == [] then "" else EncodeMember(u, fs[0]) + EncodeFields(u, fs[1..])
  }

  function DecodeFields(fs: seq<UserField>, t: string): Option<(User, string)> {
    if fs == [] then Some((map[], t))
    else match DecodeMember(t)
         case None => None
         case Some((v, r)) =>
           match DecodeFields(fs[1..], r)
           case None => None
           case Some((m, r')) => Some((if v.Some? then m[fs[0] := v.value] else m, r'))
  }

  /** The members of `u` named in `fs`. */
  function Restrict(u: User, fs: seq<UserField>): User {
    map f | f in u && f in fs :: u[f]
  }

  lemma {:induction false} DecodeEncodeFields(u: User, fs: seq<UserField>, rest: string)
    ensures DecodeFields(fs, EncodeFields(u, fs) + rest) == Some((Restrict(u, fs), rest))
    decreases |fs|
  {
    if fs == [] {
      assert EncodeFields(u, fs) + rest == rest;
      assert Restrict(u, fs) == map[];
    } else {
      var f := fs[0];
      var tail := EncodeFields(u, fs[1..]) + rest;
      assert EncodeFields(u, fs) + rest == EncodeMember(u, f) + tail;
      DecodeEncodeMember(u, f, tail);
      DecodeEncodeFields(u, fs[1..], rest);
      var m := Restrict(u, fs[1..]);
      if f in u {
        assert m[f := u[f]] == Restrict(u, fs);
      } else {
        assert m == Restrict(u, fs);
      }
    }
  }

  /** JSON.stringify of the user object. */
  function Serialize(u: User): (r: string)
    ensures r != []
  {
    EncodeFields(u, AllFields)
  }

  /** JSON.parse of a stored user; None where JSON.parse would throw. */
  function Parse(t: string): Option<User> {
    match DecodeFields(AllFields, t)
    case Some((u, r)) => if r == [] then Some(u) else None
    case None => None
  }

  /** What is written is read back unchanged. */
  lemma ParseSerialize(u: User)
    ensures Parse(Serialize(u)) == Some(u)
  {
    DecodeEncodeFields(u, AllFields, []);
    assert Serialize(u) + [] == Serialize(u);
    forall f | f in u ensures f in AllFields {
      AllFieldsComplete(f);
    }
    assert Restrict(u, AllFields) == u;
  }

  // ---- the session operations, on values ----

  /** The outcome of the lazy initialiser of the `user` state: either a user (or none), or
      the exception JSON.parse throws on a malformed stored value. */
  datatype Restored = Restored(user: Option<User>) | ParseThrows

  /** `localStorage.getItem(k)` is truthy: present and non-empty. */
  predicate HasTruthy(st: Storage, k: string) {
    k in st && st[k] != ""
  }

  /** The initial restore from storage. */
  function Restore(st: Storage): Restored {
    if HasTruthy(st, TokenKey) && HasTruthy(st, UserKey) then
      match Parse(st[UserKey])
      case Some(u) => Restored(Some(u))
      case None => ParseThrows
    else Restored(None)
  }

  /** `userData.token || ''`, as localStorage stores it. */
  function StoredToken(u: User): string {
    if Token in u && Truthy(u[Token]) then ValueString(u[Token]) else ""
  }

  function LoginStorage(st: Storage, u: User): Storage {
    st[TokenKey := StoredToken(u)][UserKey := Serialize(u)]
  }

  function LogoutStorage(st: Storage): Storage {
    st - {TokenKey, UserKey}
  }

  /** The user is restored exactly when both keys hold non-empty strings that parse. */
  lemma RestoreIff(st: Storage)
    ensures Restore(st).Restored? && Restore(st).user.Some? <==>
      HasTruthy(st, TokenKey) && HasTruthy(st, UserKey) && Parse(st[UserKey]).Some?
    ensures Restore(st) == ParseThrows <==>
      HasTruthy(st, TokenKey) && HasTruthy(st, UserKey) && Parse(st[UserKey]).None?
  {
  }

  /** After login, a reload restores the same user when the user carried a truthy token, and
      no user otherwise (the stored token is then ''). */
  lemma RestoreAfterLogin(st: Storage, u: User)
    ensures Restore(LoginStorage(st, u)) == Restored(if StoredToken(u) != "" then Some(u) else None)
    ensures LoginStorage(st, u)[TokenKey] == StoredToken(u)
  {
    ParseSerialize(u);
    var st' := LoginStorage(st, u);
    assert st'[UserKey] == Serialize(u);
    assert st'[TokenKey] == StoredToken(u);
  }

  /** After logout, a reload restores no user and both keys are gone; other keys stay. */
  lemma RestoreAfterLogout(st: Storage)
    ensures Restore(LogoutStorage(st)) == Restored(None)
    ensures TokenKey !in LogoutStorage(st) && UserKey !in LogoutStorage(st)
    ensures forall k :: k in st && k != TokenKey && k != UserKey ==> k in LogoutStorage(st) && LogoutStorage(st)[k] == st[k]
  {
  }

  /** After updateUser, a reload restores the merged user. */
  lemma RestoreAfterUpdate(st: Storage, u: User, patch: User)
    requires Restore(st) == Restored(Some(u))
    ensures Restore(st[UserKey := Serialize(Spread(u, patch))]) == Restored(Some(Spread(u, patch)))
  {
    ParseSerialize(Spread(u, patch));
  }

  /** Whether a provider mounted over this storage starts authenticated. */
  predicate AuthenticatedOnLoad(st: Storage) {
    Restore(st).Restored? && Restore(st).user.Some?
  }

  /** `isAuthenticated` after a reload: login keeps the session only for a user with a truthy
      token (otherwise '' is stored and the live session is lost on reload), logout ends it,
      and updateUser keeps it. */
  lemma AuthenticationAcrossReload(st: Storage, u: User, patch: User)
    ensures AuthenticatedOnLoad(LoginStorage(st, u)) <==> StoredToken(u) != ""
    ensures !AuthenticatedOnLoad(LogoutStorage(st))
    ensures Restore(st) == Restored(Some(u)) ==>
      AuthenticatedOnLoad(st[UserKey := Serialize(Spread(u, patch))])
  {
    RestoreAfterLogin(st, u);
    RestoreAfterLogout(st);
    if Restore(st) == Restored(Some(u)) {
      RestoreAfterUpdate(st, u, patch);
    }
  }

  // ---- the provider ----

  class AuthProvider {
    var storage: Storage
    var user: Option<User>

    /** Mounting the provider runs the lazy initialiser. A malformed stored user makes
        JSON.parse throw, so no provider exists for such a storage. */
    constructor (st: Storage)
      requires Restore(st) != ParseThrows
      ensures storage == st && user == Restore(st).user
      ensures IsAuthenticated() <==> AuthenticatedOnLoad(st)
    {
      storage := st;
      var token := if TokenKey in st then st[TokenKey] else "";
      var userData := if UserKey in st then st[UserKey] else "";
      if token != "" && userData != "" {
        user := Parse(userData);
      } else {
        user := None;
      }
    }

    method Login(userData: User)
      modifies this
      ensures storage == LoginStorage(old(storage), userData)
      ensures user == Some(userData)
      ensures IsAuthenticated()
    {
      storage := storage[TokenKey := StoredToken(userData)];
      storage := storage[UserKey := Serialize(userData)];
      user := Some(userData);
    }

    method Logout()
      modifies this
      ensures storage == LogoutStorage(old(storage))
      ensures user == None
      ensures !IsAuthenticated()
    {
      storage := storage - {TokenKey};
      storage := storage - {UserKey};
      user := None;
    }

    /** A no-op when nobody is logged in. */
    method UpdateUser(patch: User)
      modifies this
      ensures old(user).None? ==> storage == old(storage) && user == None
      ensures old(user).Some? ==>
        && user == Some(Spread(old(user).value, patch))
        && storage == old(storage)[UserKey := Serialize(Spread(old(user).value, patch))]
    {
      if user.Some? {
        var updated := Spread(user.value, patch);
        storage := storage[UserKey := Serialize(updated)];
        user := Some(updated);
      }
    }

    /** `!!user` */
    function IsAuthenticated(): (r: bool)
      reads this
      ensures r <==> user.Some?
    {
      user.Some?
    }
  }
}
