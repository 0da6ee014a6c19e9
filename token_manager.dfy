/** `TokenManager` (Service/Auth/TokenManager.swift) over the keychain wrapper
    it is given (`KeychainService`, Service/Auth/KeychainService.swift). The
    keychain is a store from account keys to bytes; the status codes the
    Security framework returns for an add or a delete are parameters. */
module TokenManager {
  import opened Wrappers
  import opened Base64

  const AccessTokenKey: string := "accessToken"
  const RefreshTokenKey: string := "refreshToken"

  /** `errSecSuccess` and `errSecItemNotFound`. */
  const ErrSecSuccess: int := 0
  const ErrSecItemNotFound: int := -25300

  /** `KeychainError`. */
  datatype KeychainError = ItemNotFound | DuplicateItem | InvalidItemFormat | UnexpectedStatus(status: int)

  /** The keychain's generic-password items of this app, by account. */
  type Store = map<string, seq<Byte>>

  /** A store after a write, with what the write reported. */
  datatype Written = Written(store: Store, outcome: Outcome<KeychainError>)

  /** The statuses the two keychain calls of one `save` return: the delete
      of the old item, which `save` ignores, and the add of the new one. */
  datatype SaveStatus = SaveStatus(deleteStatus: int, addStatus: int)

  /** A delete with this status leaves the key absent. */
  predicate DeleteSucceeds(status: int) {
    status == ErrSecSuccess || status == ErrSecItemNotFound
  }

  /** `KeychainService.delete`: success and "not found" both leave the key
      absent; any other status is reported and nothing is removed. */
  function DeleteItem(store: Store, key: string, status: int): (w: Written)
    ensures w.outcome.Pass? <==> DeleteSucceeds(status)
    ensures w.outcome.Pass? ==> w.store == store - {key}
    ensures w.outcome.Fail? ==> w.store == store && w.outcome.error == UnexpectedStatus(status)
  {
    if DeleteSucceeds(status) then Written(store - {key}, Pass)
    else Written(store, Fail(UnexpectedStatus(status)))
  }

  /** `KeychainService.save`: the old item is deleted, whatever that
      reports, then the new one added. Only the add decides the outcome; when
      it fails, the old item is gone exactly when the delete removed it. */
  function SaveItem(store: Store, key: string, data: seq<Byte>, status: SaveStatus): (w: Written)
    ensures w.outcome.Pass? <==> status.addStatus == ErrSecSuccess
    ensures w.outcome.Pass? ==> w.store == store[key := data]
    ensures w.outcome.Fail? ==> w.outcome.error == UnexpectedStatus(status.addStatus)
    ensures w.outcome.Fail? && DeleteSucceeds(status.deleteStatus) ==> w.store == store - {key}
    ensures w.outcome.Fail? && !DeleteSucceeds(status.deleteStatus) ==> w.store == store
  {
    var cleared := DeleteItem(store, key, status.deleteStatus).store;
    if status.addStatus == ErrSecSuccess then Written(cleared[key := data], Pass)
    else Written(cleared, Fail(UnexpectedStatus(status.addStatus)))
  }

  /** `KeychainService.read`: the stored bytes, or `itemNotFound`. */
  function ReadItem(store: Store, key: string): (r: Result<seq<Byte>, KeychainError>)
    ensures r.Success? <==> key in store
    ensures r.Success? ==> r.value == store[key]
    ensures r.Failure? ==> r.error == ItemNotFound
  {
    if key in store then Success(store[key]) else Failure(ItemNotFound)
  }

  /** A token read back: the stored bytes decoded as UTF-8, or
      `invalidItemFormat` when they are not UTF-8. */
  function ReadToken(store: Store, key: string): (r: Result<string, KeychainError>)
    ensures key !in store ==> r == Failure(ItemNotFound)
    ensures key in store && Utf8Decode(store[key]).Some? ==> r == Success(Utf8Decode(store[key]).value)
    ensures key in store && Utf8Decode(store[key]).None? ==> r == Failure(InvalidItemFormat)
  {
    match ReadItem(store, key)
    case Failure(e) => Failure(e)
    case Success(data) =>
      match Utf8Decode(data)
      case None => Failure(InvalidItemFormat)
      case Some(token) => Success(token)
  }

  /** `saveTokens`: the access token, and then, only if that worked, the
      refresh token. */
  function SaveBoth(store: Store, accessToken: string, refreshToken: string, access: SaveStatus, refresh: SaveStatus): (w: Written)
    ensures w.outcome.Pass? <==> access.addStatus == ErrSecSuccess && refresh.addStatus == ErrSecSuccess
    ensures access.addStatus != ErrSecSuccess ==> w == SaveItem(store, AccessTokenKey, Utf8Encode(accessToken), access)
  {
    var first := SaveItem(store, AccessTokenKey, Utf8Encode(accessToken), access);
    if first.outcome.Fail? then first
    else SaveItem(first.store, RefreshTokenKey, Utf8Encode(refreshToken), refresh)
  }

  /** `clearTokens`: the access token, and then, only if that worked, the
      refresh token. */
  function ClearBoth(store: Store, accessStatus: int, refreshStatus: int): (w: Written)
    ensures !DeleteSucceeds(accessStatus) ==> w.store == store
  {
    var first := DeleteItem(store, AccessTokenKey, accessStatus);
    if first.outcome.Fail? then first
    else DeleteItem(first.store, RefreshTokenKey, refreshStatus)
  }

  /** A token written successfully reads back unchanged, whatever the delete
      before the add reported. */
  lemma SaveThenRead(store: Store, key: string, token: string, deleteStatus: int)
    ensures ReadToken(SaveItem(store, key, Utf8Encode(token), SaveStatus(deleteStatus, ErrSecSuccess)).store, key) == Success(token)
  {
    Utf8RoundTrip(token);
  }

  /** After a successful `saveTokens`, both getters return the saved
      tokens; the other items of the store are kept. */
  lemma SaveTokensRoundTrip(store: Store, accessToken: string, refreshToken: string, access: SaveStatus, refresh: SaveStatus)
    requires access.addStatus == ErrSecSuccess && refresh.addStatus == ErrSecSuccess
    ensures var w := SaveBoth(store, accessToken, refreshToken, access, refresh);
      && ReadToken(w.store, AccessTokenKey) == Success(accessToken)
      && ReadToken(w.store, RefreshTokenKey) == Success(refreshToken)
      && (forall k :: k in store && k != AccessTokenKey && k != RefreshTokenKey ==> k in w.store && w.store[k] == store[k])
  {
    Utf8RoundTrip(accessToken);
    Utf8RoundTrip(refreshToken);
  }

  /** When the access token cannot be added, the refresh token is not
      written: the refresh item is as it was. The old access token is gone
      when the delete before the add removed it, and otherwise nothing
      changed at all. */
  lemma FailedAccessWriteSkipsRefresh(store: Store, accessToken: string, refreshToken: string, access: SaveStatus, refresh: SaveStatus)
    requires access.addStatus != ErrSecSuccess
    ensures var w := SaveBoth(store, accessToken, refreshToken, access, refresh);
      && w.outcome == Fail(UnexpectedStatus(access.addStatus))
      && (RefreshTokenKey in w.store <==> RefreshTokenKey in store)
      && (RefreshTokenKey in store ==> w.store[RefreshTokenKey] == store[RefreshTokenKey])
      && (DeleteSucceeds(access.deleteStatus) ==> ReadToken(w.store, AccessTokenKey) == Failure(ItemNotFound))
      && (!DeleteSucceeds(access.deleteStatus) ==> w.store == store)
  {
  }

  /** After a successful `clearTokens` neither token can be read. */
  lemma ClearTokensRemovesBoth(store: Store, accessStatus: int, refreshStatus: int)
    requires DeleteSucceeds(accessStatus) && DeleteSucceeds(refreshStatus)
    ensures var w := ClearBoth(store, accessStatus, refreshStatus);
      && w.outcome == Pass
      && ReadToken(w.store, AccessTokenKey) == Failure(ItemNotFound)
      && ReadToken(w.store, RefreshTokenKey) == Failure(ItemNotFound)
  {
  }

  /** Every item holds well-formed UTF-8: the store only ever receives
      encoded strings. */
  ghost predicate HoldsText(store: Store) {
    forall k :: k in store ==> Utf8Decode(store[k]).Some?
  }

  /** Writing encoded tokens keeps every item well-formed. */
  lemma SaveTokensKeepsText(store: Store, accessToken: string, refreshToken: string, access: SaveStatus, refresh: SaveStatus)
    requires HoldsText(store)
    ensures HoldsText(SaveBoth(store, accessToken, refreshToken, access, refresh).store)
  {
    Utf8RoundTrip(accessToken);
    Utf8RoundTrip(refreshToken);
  }

  /** On such a store, a token can be read exactly when its item exists. */
  lemma ReadableIffPresent(store: Store, key: string)
    requires HoldsText(store)
    ensures ReadToken(store, key).Success? <==> key in store
  {
  }

  /** The keychain wrapper, holding the items it has been given. */
  class Keychain {
    var items: Store

    constructor (items: Store)
      ensures this.items == items
    {
      this.items := items;
    }

    /** `save(key:data:)`, with the statuses its delete and its add return:
        the old item is deleted, ignoring what that reports, then the new
        one is added. */
    method Save(key: string, data: seq<Byte>, status: SaveStatus) returns (r: Outcome<KeychainError>)
      modifies this
      ensures Written(items, r) == SaveItem(old(items), key, data, status)
    {
      var _ := Delete(key, status.deleteStatus);
      if status.addStatus != ErrSecSuccess {
        return Fail(UnexpectedStatus(status.addStatus));
      }
      items := items[key := data];
      r := Pass;
    }

    /** `read(key:)`. */
    method Read(key: string) returns (r: Result<seq<Byte>, KeychainError>)
      ensures r == ReadItem(items, key)
    {
      if key !in items {
        return Failure(ItemNotFound);
      }
      r := Success(items[key]);
    }

    /** `delete(key:)`, with the status the delete returns. */
    method Delete(key: string, status: int) returns (r: Outcome<KeychainError>)
      modifies this
      ensures Written(items, r) == DeleteItem(old(items), key, status)
    {
      if !DeleteSucceeds(status) {
        return Fail(UnexpectedStatus(status));
      }
      items := items - {key};
      r := Pass;
    }
  }

  /** The token store. */
  class Tokens {
    const keychain: Keychain

    constructor (keychain: Keychain)
      ensures this.keychain == keychain
    {
      this.keychain := keychain;
    }

    /** `saveTokens(accessToken:refreshToken:)`, with the statuses of the
        keychain calls of each `save`. */
    method SaveTokens(accessToken: string, refreshToken: string, access: SaveStatus, refresh: SaveStatus)
      returns (r: Outcome<KeychainError>)
      modifies keychain
      ensures Written(keychain.items, r)
        == SaveBoth(old(keychain.items), accessToken, refreshToken, access, refresh)
    {
      r := keychain.Save(AccessTokenKey, Utf8Encode(accessToken), access);
      if r.Fail? {
        return;
      }
      r := keychain.Save(RefreshTokenKey, Utf8Encode(refreshToken), refresh);
    }

    /** `getAccessToken()`. */
    method GetAccessToken() returns (r: Result<string, KeychainError>)
      ensures r == ReadToken(keychain.items, AccessTokenKey)
    {
      r := GetToken(AccessTokenKey);
    }

    /** `getRefreshToken()`. */
    method GetRefreshToken() returns (r: Result<string, KeychainError>)
      ensures r == ReadToken(keychain.items, RefreshTokenKey)
    {
      r := GetToken(RefreshTokenKey);
    }

    method GetToken(key: string) returns (r: Result<string, KeychainError>)
      ensures r == ReadToken(keychain.items, key)
    {
      var data := keychain.Read(key);
      if data.Failure? {
        return Failure(data.error);
      }
      var token := Utf8Decode(data.value);
      if token.None? {
        return Failure(InvalidItemFormat);
      }
      r := Success(token.value);
    }

    /** `clearTokens()`. */
    method ClearTokens(accessStatus: int, refreshStatus: int) returns (r: Outcome<KeychainError>)
      modifies keychain
      ensures Written(keychain.items, r) == ClearBoth(old(keychain.items), accessStatus, refreshStatus)
    {
      r := keychain.Delete(AccessTokenKey, accessStatus);
      if r.Fail? {
        return;
      }
      r := keychain.Delete(RefreshTokenKey, refreshStatus);
    }

    /** `isAuthenticated()`: the access token can be read; on a store of
        encoded strings, exactly when its item exists. */
    method IsAuthenticated() returns (b: bool)
      ensures b <==> ReadToken(keychain.items, AccessTokenKey).Success?
      ensures HoldsText(keychain.items) ==> (b <==> AccessTokenKey in keychain.items)
    {
      var token := GetAccessToken();
      b := token.Success?;
    }
  }
}
