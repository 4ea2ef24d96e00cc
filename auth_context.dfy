/**
 * The session provider: the `user` and `loading` state cells and the
 * 'token' entry of local storage, written by the bootstrap fetch, `login`
 * and `logout`. Each backend call is an outcome given by the caller.
 */
module AuthContext {
  import opened Json
  import opened Outcomes
  import opened Storage

  class AuthProvider {
    var user: Value
    var loading: bool
    const storage: LocalStorage

    /** On mount: no user yet, and loading until the profile fetch settles. */
    constructor (storage: LocalStorage)
      ensures user == Null && loading
      ensures this.storage == storage
    {
      user := Null;
      loading := true;
      this.storage := storage;
    }

    /**
     * `fetchUser`: the profile on success, null on failure, and loading ends
     * either way. A failed fetch leaves the stored token where it is.
     */
    method FetchUser(profile: Outcome<Value>)
      modifies this
      ensures profile.Success? ==> user == profile.data
      ensures profile.Failure? ==> user == Null
      ensures !loading
      ensures storage.items == old(storage.items)
    {
      match profile {
        case Success(data) => user := data;
        case Failure => user := Null;
      }
      loading := false;
    }

    /**
     * `login`: on success stores `String(data.token)` under 'token', sets
     * the user to `data.user` and returns the whole response; on failure it
     * rethrows and changes nothing.
     */
    method Login(credentials: Value, response: Outcome<Value>) returns (r: Outcome<Value>)
      modifies this, storage
      ensures r == response
      ensures response.Success? ==>
        storage.items == old(storage.items)["token" := ToStr(Get(response.data, "token"))]
        && user == Get(response.data, "user")
      ensures response.Failure? ==> storage.items == old(storage.items) && user == old(user)
      ensures loading == old(loading)
    {
      match response {
        case Success(data) =>
          storage.SetItem("token", ToStr(Get(data, "token")));
          user := Get(data, "user");
        case Failure =>
      }
      r := response;
    }

    /** `logout`: only once the backend confirms does it drop the token and the user. */
    method Logout(response: Outcome<()>)
      modifies this, storage
      ensures response.Success? ==> storage.items == old(storage.items) - {"token"} && user == Null
      ensures response.Failure? ==> storage.items == old(storage.items) && user == old(user)
      ensures loading == old(loading)
    {
      if response.Success? {
        storage.RemoveItem("token");
        user := Null;
      }
    }

    /** The context value: `{ user, login, logout, loading }`. */
    function ContextValue(): (v: Value)
      reads this
      ensures Get(v, "user") == user
      ensures Get(v, "loading") == Bool(loading)
      ensures Get(v, "token") == Undefined
    {
      Obj(map["user" := user, "login" := Func("login"), "logout" := Func("logout"), "loading" := Bool(loading)])
    }
  }
}
