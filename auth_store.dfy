/** The frontend's authentication store: the bearer token and the signed-in user, with the token
    mirrored in the browser's local storage under the key "token". */
module AuthStore {
  import opened Wrappers

  /** The profile the backend returns for the signed-in user. */
  datatype UserProfile = UserProfile(
    id: int, email: string, fullName: string, phone: Option<string>, isActive: bool, createdAt: string)

  const TokenKey: string := "token"

  /** The browser's `localStorage`: a string-to-string dictionary shared by the whole page. */
  class LocalStorage {
    var items: map<string, string>

    constructor (initial: map<string, string>)
      ensures items == initial
    {
      items := initial;
    }

    /** `getItem`: the stored value, or null when the key is absent. */
    function GetItem(key: string): (r: Option<string>)
      reads this
      ensures r.Some? <==> key in items
      ensures r.Some? ==> r.value == items[key]
    {
      if key in items then Some(items[key]) else None
    }

    method SetItem(key: string, value: string)
      modifies this
      ensures items == old(items)[key := value]
    {
      items := items[key := value];
    }

    method RemoveItem(key: string)
      modifies this
      ensures items == old(items) - {key}
    {
      items := items - {key};
    }
  }

  class AuthStore {
    const storage: LocalStorage
    var token: Option<string>
    var user: Option<UserProfile>

    /** The token in memory is the one in storage. */
    predicate Synced()
      reads this, storage
    {
      token == storage.GetItem(TokenKey)
    }

    /** `isAuthenticated`: `!!token`, so a token that is present and not empty. */
    predicate IsAuthenticated()
      reads this
    {
      Truthy(token)
    }

    /** The store starts from the stored token, and with no user. */
    constructor (storage: LocalStorage)
      ensures this.storage == storage
      ensures token == storage.GetItem(TokenKey) && user == None
      ensures Synced()
    {
      this.storage := storage;
      token := storage.GetItem(TokenKey);
      user := None;
    }

    /** `setToken`: keep the token in memory and write it to storage. */
    method SetToken(newToken: string)
      modifies this, storage
      ensures token == Some(newToken) && user == old(user)
      ensures storage.items == old(storage.items)[TokenKey := newToken]
      ensures Synced()
      ensures IsAuthenticated() <==> newToken != ""
    {
      token := Some(newToken);
      storage.SetItem(TokenKey, newToken);
    }

    /** `setUser`: only the user changes. */
    method SetUser(userData: UserProfile)
      modifies this`user
      ensures user == Some(userData)
    {
      user := Some(userData);
    }

    /** `logout`: forget token and user, and remove the stored token. */
    method Logout()
      modifies this, storage
      ensures token == None && user == None
      ensures storage.items == old(storage.items) - {TokenKey}
      ensures Synced() && !IsAuthenticated()
    {
      token := None;
      user := None;
      storage.RemoveItem(TokenKey);
    }
  }
}
