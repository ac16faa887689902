/** The `auth` slice of the Redux store: who is signed in. Its case reducers
    also write the browser's localStorage, modelled as the `storage` map of
    the same state. */
module AuthSlice {
  import opened JsValue
  import opened SliceOps
  import JsString

  /** The async thunks of the slice. */
  datatype Thunk = Login | Register | Password | Resetpassword | LoadUser

  /** `localStorage.getItem(k)`: the stored text, or null. */
  function StoredItem(storage: map<string, string>, k: string): (item: Value)
    ensures item.Str? <==> k in storage
    ensures item.Null? <==> k !in storage
    ensures Truthy(item) <==> k in storage && storage[k] != ""
  {
    if k in storage then Str(storage[k]) else Null
  }

  /** The email that `Resetpassword` posts: `pathname.split("/").pop()`, the
      part of the path after its last slash. */
  function ResetEmail(pathname: string): (email: string)
    ensures '/' !in email
    ensures |email| <= |pathname| && pathname[|pathname| - |email|..] == email
    ensures |email| < |pathname| ==> pathname[|pathname| - |email| - 1] == '/'
  {
    JsString.LastPiece(pathname, '/');
    JsString.Last(JsString.Split(pathname, '/'))
  }

  /** A reset link `…/<email>` yields exactly its email. */
  lemma ResetEmailOfLink(prefix: string, email: string)
    requires '/' !in email
    ensures ResetEmail(prefix + "/" + email) == email
  {
    var path := prefix + "/" + email;
    var r := ResetEmail(path);
    var n := |path|;
    assert path[n - |email|..] == email;
    assert path[n - |email| - 1] == '/';
    assert |r| == |email|;
    assert path[n - |r|..] == path[n - |email|..];
  }

  class State {
    var user: Value
    var error: Value
    var loading: bool
    var isAuthenticated: Value
    var role: Value
    /** localStorage, as a map from key to stored text. */
    var storage: map<string, string>

    /** The initial state, computed from what localStorage holds when the
        store is created: signed in when a non-empty token is stored. */
    constructor (stored: map<string, string>)
      ensures user == Null && error == Str("") && !loading
      ensures isAuthenticated == Bool("token" in stored && stored["token"] != "")
      ensures role == StoredItem(stored, "role")
      ensures storage == stored
    {
      user := Null;
      error := Str("");
      loading := false;
      isAuthenticated := Bool(Truthy(StoredItem(stored, "token")));
      role := StoredItem(stored, "role");
      storage := stored;
    }

    /** `setError`: the error becomes the payload. */
    method SetError(payload: Value)
      modifies this`error
      ensures error == payload
    {
      error := payload;
    }

    /** `setAuthenticated`: the flag becomes the payload. */
    method SetAuthenticated(payload: Value)
      modifies this`isAuthenticated
      ensures isAuthenticated == payload
    {
      isAuthenticated := payload;
    }

    /** The `pending` case reducers; `Resetpassword` has none. */
    method Pending(t: Thunk)
      modifies this`loading
      ensures t != Resetpassword ==> loading
      ensures t == Resetpassword ==> loading == old(loading)
    {
      if t != Resetpassword {
        loading := true;
      }
    }

    /** `login.fulfilled`, with `profileText` the text `JSON.stringify` gives
        for the payload. The profile is stored before `payload.token` is
        read, so when that read throws, localStorage keeps the new profile
        while the slice state stays as it was. */
    method LoginFulfilled(payload: Value, profileText: string) returns (ok: bool)
      modifies this`loading, this`isAuthenticated, this`user, this`storage
      ensures ok <==> !Nullish(payload)
      ensures ok ==> !loading && isAuthenticated == Bool(true) && user == payload
      ensures ok ==> storage == old(storage)["profile" := profileText]
                                            ["token" := ToStr(Field(payload, "token"))]
                                            ["role" := ToStr(Field(payload, "role"))]
      ensures !ok ==> loading == old(loading) && isAuthenticated == old(isAuthenticated) && user == old(user)
      ensures !ok ==> storage == old(storage)["profile" := profileText]
    {
      storage := storage["profile" := profileText];
      if Nullish(payload) {
        return false;
      }
      storage := storage["token" := ToStr(Field(payload, "token"))];
      storage := storage["role" := ToStr(Field(payload, "role"))];
      loading := false;
      isAuthenticated := Bool(true);
      user := payload;
      ok := true;
    }

    /** `register.fulfilled`: the user is recorded, the flag is not touched. */
    method RegisterFulfilled(payload: Value)
      modifies this`loading, this`user
      ensures !loading && user == payload
    {
      loading := false;
      user := payload;
    }

    /** `password.fulfilled`: the user is recorded, the flag is not touched. */
    method PasswordFulfilled(payload: Value)
      modifies this`loading, this`user
      ensures !loading && user == payload
    {
      loading := false;
      user := payload;
    }

    /** `loadUser.fulfilled`: signed in as the payload. */
    method LoadUserFulfilled(payload: Value)
      modifies this`loading, this`isAuthenticated, this`user
      ensures !loading && isAuthenticated == Bool(true) && user == payload
    {
      loading := false;
      isAuthenticated := Bool(true);
      user := payload;
    }

    /** The `rejected` case reducers. Login, register and password record the
        error; a rejected `loadUser` signs out and clears localStorage without
        recording an error; `Resetpassword` has none. */
    method Rejected(t: Thunk, payload: Value)
      modifies this`loading, this`error, this`isAuthenticated, this`user, this`storage
      ensures t in {Login, Register, Password} ==>
        && !loading && error == RejectionError(payload)
        && isAuthenticated == old(isAuthenticated) && user == old(user) && storage == old(storage)
      ensures t == LoadUser ==>
        && !loading && isAuthenticated == Bool(false) && user == Null && storage == map[]
        && error == old(error)
      ensures t == Resetpassword ==>
        && loading == old(loading) && error == old(error)
        && isAuthenticated == old(isAuthenticated) && user == old(user) && storage == old(storage)
    {
      match t
      case Login =>
        loading := false;
        error := RejectionError(payload);
      case Register =>
        loading := false;
        error := RejectionError(payload);
      case Password =>
        loading := false;
        error := RejectionError(payload);
      case LoadUser =>
        loading := false;
        isAuthenticated := Bool(false);
        user := Null;
        storage := map[];
      case Resetpassword =>
    }
  }
}
