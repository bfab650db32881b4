// The local key/value store (Utilities/Local/UserDefaultsManager.swift):
// records are JSON-encoded and kept under five fixed keys of the user
// defaults. Two of its methods route to an unexpected key: `deleteTokens`
// removes the connectedIn user, and device tokens are saved under one key
// but read back from another.

module LocalStore {
  import opened Models

  const UserKey: string := "USER_KEY"
  const PendingUserKey: string := "PENDING_USER_KEY"
  const ConnectedInUserKey: string := "CONNECTEDIN_USER_KEY"
  const ConnectedInTokenKey: string := "CONNECTEDIN_TOKEN_KEY"
  const ConnectedInDeviceTokenKey: string := "CONNECTEDIN_DEVICE_TOKEN_KEY"

  lemma KeysDistinct()
    ensures UserKey != PendingUserKey && UserKey != ConnectedInUserKey && UserKey != ConnectedInTokenKey
    ensures UserKey != ConnectedInDeviceTokenKey && PendingUserKey != ConnectedInUserKey
    ensures PendingUserKey != ConnectedInTokenKey && PendingUserKey != ConnectedInDeviceTokenKey
    ensures ConnectedInUserKey != ConnectedInTokenKey && ConnectedInUserKey != ConnectedInDeviceTokenKey
    ensures ConnectedInTokenKey != ConnectedInDeviceTokenKey
  {
  }

  /** The profile the login flow stores; only its e-mail is read here. */
  datatype LocalUser = LocalUser(email: string)

  /** JSON produced by the encoder, tagged by the type that was encoded; the
      decoder reads a value back exactly when asked for that same type. */
  datatype Blob =
    | LocalUserJson(localUser: LocalUser)
    | PendingUserJson(pendingUser: PendingUser)
    | UserJson(user: User)
    | StringJson(text: string)
    | TokensJson(tokens: Tokens)

  /** A value in the user defaults: data, or an object of another kind. */
  datatype StoredValue = Data(blob: Blob) | NotData

  type Store = map<string, StoredValue>

  /** `defaults.object(forKey:) as? Data`. */
  function DataAt(d: Store, key: string): (r: Option<Blob>)
    ensures r.Some? <==> key in d && d[key].Data?
  {
    if key in d && d[key].Data? then Some(d[key].blob) else None
  }

  // The getters: read the key, then decode as the requested type.

  function UserIn(d: Store): Option<LocalUser> {
    var b := DataAt(d, UserKey);
    if b.Some? && b.value.LocalUserJson? then Some(b.value.localUser) else None
  }

  function PendingUserIn(d: Store): Option<PendingUser> {
    var b := DataAt(d, PendingUserKey);
    if b.Some? && b.value.PendingUserJson? then Some(b.value.pendingUser) else None
  }

  function ConnectedInUserIn(d: Store): Option<User> {
    var b := DataAt(d, ConnectedInUserKey);
    if b.Some? && b.value.UserJson? then Some(b.value.user) else None
  }

  function TokensIn(d: Store): Option<Tokens> {
    var b := DataAt(d, ConnectedInTokenKey);
    if b.Some? && b.value.TokensJson? then Some(b.value.tokens) else None
  }

  /** `getDeviceTokens`: reads the token key, not the device-token key. */
  function DeviceTokensIn(d: Store): Option<string> {
    var b := DataAt(d, ConnectedInTokenKey);
    if b.Some? && b.value.StringJson? then Some(b.value.text) else None
  }

  /** A getter returns a value exactly when its key holds data encoding that
      value's type; a missing key, a non-data object or data of another type
      gives nil. */
  lemma GettersReadOnlyMatchingData(d: Store, u: LocalUser, p: PendingUser, c: User, t: Tokens, s: string)
    ensures UserIn(d) == Some(u) <==> UserKey in d && d[UserKey] == Data(LocalUserJson(u))
    ensures PendingUserIn(d) == Some(p) <==> PendingUserKey in d && d[PendingUserKey] == Data(PendingUserJson(p))
    ensures ConnectedInUserIn(d) == Some(c) <==> ConnectedInUserKey in d && d[ConnectedInUserKey] == Data(UserJson(c))
    ensures TokensIn(d) == Some(t) <==> ConnectedInTokenKey in d && d[ConnectedInTokenKey] == Data(TokensJson(t))
    ensures DeviceTokensIn(d) == Some(s) <==> ConnectedInTokenKey in d && d[ConnectedInTokenKey] == Data(StringJson(s))
  {
  }

  // The writes.

  /** `set(_:forKey:)` when the encoder produced `encoded`; nothing when it threw. */
  function Saved(d: Store, key: string, encoded: Option<Blob>): (r: Store)
    ensures encoded.Some? ==> key in r && r[key] == Data(encoded.value)
    ensures encoded.None? ==> r == d
  {
    if encoded.Some? then d[key := Data(encoded.value)] else d
  }

  /** `removeObject(forKey:)`. */
  function Removed(d: Store, key: string): (r: Store)
    ensures key !in r
  {
    d - {key}
  }

  /** A save or delete touches its own key and no other. */
  lemma WritesTouchOneKey(d: Store, key: string, encoded: Option<Blob>, other: string)
    requires other != key
    ensures other in Saved(d, key, encoded) <==> other in d
    ensures other in d ==> Saved(d, key, encoded)[other] == d[other]
    ensures other in Removed(d, key) <==> other in d
    ensures other in d ==> Removed(d, key)[other] == d[other]
  {
  }

  /** What the encoder yields for a value: the value's JSON, or nothing. */
  function Encoded(b: Blob, encodes: bool): Option<Blob> {
    if encodes then Some(b) else None
  }

  /** Saving and then reading back returns the saved value. */
  lemma SaveThenGet(d: Store, u: LocalUser, p: PendingUser, c: User, t: Tokens)
    ensures UserIn(Saved(d, UserKey, Some(LocalUserJson(u)))) == Some(u)
    ensures PendingUserIn(Saved(d, PendingUserKey, Some(PendingUserJson(p)))) == Some(p)
    ensures ConnectedInUserIn(Saved(d, ConnectedInUserKey, Some(UserJson(c)))) == Some(c)
    ensures TokensIn(Saved(d, ConnectedInTokenKey, Some(TokensJson(t)))) == Some(t)
  {
  }

  /** Deleting and then reading back returns nil. */
  lemma DeleteThenGet(d: Store)
    ensures UserIn(Removed(d, UserKey)) == None
    ensures PendingUserIn(Removed(d, PendingUserKey)) == None
    ensures ConnectedInUserIn(Removed(d, ConnectedInUserKey)) == None
  {
  }

  /** `deleteTokens` removes the connectedIn user and leaves the tokens. */
  lemma DeleteTokensKeepsTokens(d: Store)
    ensures TokensIn(Removed(d, ConnectedInUserKey)) == TokensIn(d)
    ensures ConnectedInUserIn(Removed(d, ConnectedInUserKey)) == None
  {
  }

  /** Saving a device token never changes what `getDeviceTokens` returns. */
  lemma DeviceTokenNotReadBack(d: Store, token: string, encodes: bool)
    ensures DeviceTokensIn(Saved(d, ConnectedInDeviceTokenKey, Encoded(StringJson(token), encodes))) == DeviceTokensIn(d)
  {
  }

  /** The manager's operations, each with the encoder's success where it
      encodes. */
  datatype Operation =
    | SaveUser(localUser: LocalUser, encodes: bool)
    | DeleteUser
    | SavePendingUser(pendingUser: PendingUser, encodes: bool)
    | DeletePendingUser
    | SaveConnectedInUser(user: User, encodes: bool)
    | SaveDeviceToken(token: string, encodes: bool)
    | DeleteConnectedInUser
    | SaveTokens(tokens: Tokens, encodes: bool)
    | DeleteTokens

  /** The store after one operation. */
  function Apply(d: Store, op: Operation): Store {
    match op
    case SaveUser(u, e) => Saved(d, UserKey, Encoded(LocalUserJson(u), e))
    case DeleteUser => Removed(d, UserKey)
    case SavePendingUser(p, e) => Saved(d, PendingUserKey, Encoded(PendingUserJson(p), e))
    case DeletePendingUser => Removed(d, PendingUserKey)
    case SaveConnectedInUser(c, e) => Saved(d, ConnectedInUserKey, Encoded(UserJson(c), e))
    case SaveDeviceToken(t, e) => Saved(d, ConnectedInDeviceTokenKey, Encoded(StringJson(t), e))
    case DeleteConnectedInUser => Removed(d, ConnectedInUserKey)
    case SaveTokens(t, e) => Saved(d, ConnectedInTokenKey, Encoded(TokensJson(t), e))
    case DeleteTokens => Removed(d, ConnectedInUserKey)
  }

  function ApplyAll(d: Store, ops: seq<Operation>): Store
    decreases |ops|
  {
    if ops == [] then d else ApplyAll(Apply(d, ops[0]), ops[1..])
  }

  /** The token key holds nothing, or encoded tokens. */
  predicate TokenKeyHoldsTokens(d: Store) {
    ConnectedInTokenKey in d ==> d[ConnectedInTokenKey].Data? && d[ConnectedInTokenKey].blob.TokensJson?
  }

  /** Under that invariant `getDeviceTokens` cannot find a string. */
  lemma NoDeviceTokensUnderInvariant(d: Store)
    requires TokenKeyHoldsTokens(d)
    ensures DeviceTokensIn(d) == None
  {
  }

  /** Only `saveTokens` writes the token key, so the manager keeps the
      invariant, and after any run of its operations from such a store
      `getDeviceTokens` returns nil, whatever device tokens were saved. */
  lemma {:induction false} OperationsNeverYieldDeviceTokens(d: Store, ops: seq<Operation>)
    requires TokenKeyHoldsTokens(d)
    ensures TokenKeyHoldsTokens(ApplyAll(d, ops))
    ensures DeviceTokensIn(ApplyAll(d, ops)) == None
    decreases |ops|
  {
    if ops != [] {
      assert TokenKeyHoldsTokens(Apply(d, ops[0]));
      OperationsNeverYieldDeviceTokens(Apply(d, ops[0]), ops[1..]);
    }
  }

  class UserDefaultsManager {
    /** `UserDefaults.standard`. */
    var defaults: Store

    constructor (defaults: Store)
      ensures this.defaults == defaults
    {
      this.defaults := defaults;
    }

    method SaveUser(user: LocalUser, encodes: bool)
      modifies this
      ensures defaults == Apply(old(defaults), Operation.SaveUser(user, encodes))
    {
      if encodes {
        defaults := defaults[UserKey := Data(LocalUserJson(user))];
      }
    }

    method GetUser() returns (r: Option<LocalUser>)
      ensures r == UserIn(defaults)
    {
      if UserKey in defaults && defaults[UserKey].Data? {
        var saved := defaults[UserKey].blob;
        if saved.LocalUserJson? {
          return Some(saved.localUser);
        }
      }
      return None;
    }

    method DeleteUser()
      modifies this
      ensures defaults == Apply(old(defaults), Operation.DeleteUser)
    {
      defaults := defaults - {UserKey};
    }

    method SavePendingUser(user: PendingUser, encodes: bool)
      modifies this
      ensures defaults == Apply(old(defaults), Operation.SavePendingUser(user, encodes))
    {
      if encodes {
        defaults := defaults[PendingUserKey := Data(PendingUserJson(user))];
      }
    }

    method GetPendingUser() returns (r: Option<PendingUser>)
      ensures r == PendingUserIn(defaults)
    {
      if PendingUserKey in defaults && defaults[PendingUserKey].Data? {
        var saved := defaults[PendingUserKey].blob;
        if saved.PendingUserJson? {
          return Some(saved.pendingUser);
        }
      }
      return None;
    }

    method DeletePendingUser()
      modifies this
      ensures defaults == Apply(old(defaults), Operation.DeletePendingUser)
    {
      defaults := defaults - {PendingUserKey};
    }

    method SaveConnectedInUser(user: User, encodes: bool)
      modifies this
      ensures defaults == Apply(old(defaults), Operation.SaveConnectedInUser(user, encodes))
    {
      if encodes {
        defaults := defaults[ConnectedInUserKey := Data(UserJson(user))];
      }
    }

    method SaveDeviceToken(token: string, encodes: bool)
      modifies this
      ensures defaults == Apply(old(defaults), Operation.SaveDeviceToken(token, encodes))
    {
      if encodes {
        defaults := defaults[ConnectedInDeviceTokenKey := Data(StringJson(token))];
      }
    }

    method GetConnectedInUser() returns (r: Option<User>)
      ensures r == ConnectedInUserIn(defaults)
    {
      if ConnectedInUserKey in defaults && defaults[ConnectedInUserKey].Data? {
        var saved := defaults[ConnectedInUserKey].blob;
        if saved.UserJson? {
          return Some(saved.user);
        }
      }
      return None;
    }

    method DeleteConnectedInUser()
      modifies this
      ensures defaults == Apply(old(defaults), Operation.DeleteConnectedInUser)
    {
      defaults := defaults - {ConnectedInUserKey};
    }

    method SaveTokens(tokens: Tokens, encodes: bool)
      modifies this
      ensures defaults == Apply(old(defaults), Operation.SaveTokens(tokens, encodes))
    {
      if encodes {
        defaults := defaults[ConnectedInTokenKey := Data(TokensJson(tokens))];
      }
    }

    method GetTokens() returns (r: Option<Tokens>)
      ensures r == TokensIn(defaults)
    {
      if ConnectedInTokenKey in defaults && defaults[ConnectedInTokenKey].Data? {
        var saved := defaults[ConnectedInTokenKey].blob;
        if saved.TokensJson? {
          return Some(saved.tokens);
        }
      }
      return None;
    }

    method GetDeviceTokens() returns (r: Option<string>)
      ensures r == DeviceTokensIn(defaults)
    {
      if ConnectedInTokenKey in defaults && defaults[ConnectedInTokenKey].Data? {
        var saved := defaults[ConnectedInTokenKey].blob;
        if saved.StringJson? {
          return Some(saved.text);
        }
      }
      return None;
    }

    /** `deleteTokens`: removes the connectedIn user key. */
    method DeleteTokens()
      modifies this
      ensures defaults == Apply(old(defaults), Operation.DeleteTokens)
    {
      defaults := defaults - {ConnectedInUserKey};
    }
  }
}
