/** The `user` slice of the Redux store: the users, keyed by `CIN`. Each case reducer is a method on the slice state. A case
    reducer that throws a TypeError leaves the state as it was (the store
    discards the draft); such methods report it with `ok == false`. */
module UserSlice {
  import opened Wrappers
  import opened JsValue
  import opened SliceOps

  /** The field that identifies a user. */
  const Key := "CIN"

  /** The async thunks whose actions this slice handles. */
  datatype Thunk = AddUser | GetUser | GetUserByID | UpdateUser | DeleteUser

  class State {
    var users: Value
    var userByID: Value
    var error: Value
    var loading: bool
    /** `currentPage` is not in the initial state: None while it is absent. */
    var currentPage: Option<Value>

    /** The initial state. */
    constructor ()
      ensures users == Arr([]) && userByID == Arr([])
      ensures error == Str("") && !loading && currentPage == None
    {
      currentPage := None;
      users := Arr([]);
      userByID := Arr([]);
      error := Str("");
      loading := false;
    }

    /** `setError`: the error becomes the payload. */
    method SetError(payload: Value)
      modifies this`error
      ensures error == payload
    {
      error := payload;
    }

    /** `setCurrentPage`: the page becomes the payload. */
    method SetCurrentPage(payload: Value)
      modifies this`currentPage
      ensures currentPage == Some(payload)
    {
      currentPage := Some(payload);
    }

    /** The `pending` case reducer of every thunk of the slice. */
    method Pending(t: Thunk)
      modifies this`loading
      ensures loading
    {
      loading := true;
    }

    /** The `rejected` case reducers: `updateUser.rejected` records the raw
        payload, every other one the payload's message or the default. */
    method Rejected(t: Thunk, payload: Value)
      modifies this`loading, this`error
      ensures !loading
      ensures t == UpdateUser ==> error == payload
      ensures t != UpdateUser ==> error == RejectionError(payload)
    {
      loading := false;
      if t == UpdateUser {
        error := payload;
      } else {
        error := RejectionError(payload);
      }
    }

    /** `addUser.fulfilled`: `payload.profile` is pushed onto the list. */
    method AddFulfilled(payload: Value) returns (ok: bool)
      modifies this`loading, this`users
      ensures ok <==> old(users).Arr? && !Nullish(payload)
      ensures ok ==> !loading && users == Arr(old(users).items + [Field(payload, "profile")])
      ensures !ok ==> loading == old(loading) && users == old(users)
    {
      if !users.Arr? || Nullish(payload) {
        return false;
      }
      loading := false;
      users := Arr(users.items + [Field(payload, "profile")]);
      ok := true;
    }

    /** `getUser.fulfilled`: the payload becomes the list. */
    method GetFulfilled(payload: Value)
      modifies this`loading, this`users
      ensures !loading && users == payload
    {
      loading := false;
      users := payload;
    }

    /** `getUserByID.fulfilled`: the payload becomes `userByID`. */
    method GetByIDFulfilled(payload: Value)
      modifies this`loading, this`userByID
      ensures !loading && userByID == payload
    {
      loading := false;
      userByID := payload;
    }

    /** `updateUser.fulfilled` with `id` the thunk argument's `id`: when
        `id` is truthy, every user whose `CIN` is `id` is replaced by
        the whole payload. */
    method UpdateFulfilled(id: Value, payload: Value) returns (ok: bool)
      modifies this`loading, this`users
      ensures !Truthy(id) ==> ok && users == old(users)
      ensures Truthy(id) ==>
        ok == (old(users).Arr? && MapReplace(old(users).items, Key, id, Some(payload)).Some?)
      ensures ok && Truthy(id) ==>
        users == Arr(MapReplace(old(users).items, Key, id, Some(payload)).value)
      ensures ok ==> !loading
      ensures !ok ==> loading == old(loading) && users == old(users)
    {
      if !Truthy(id) {
        loading := false;
        return true;
      }
      if !users.Arr? {
        return false;
      }
      var updated := MapReplace(users.items, Key, id, Some(payload));
      if updated.None? {
        return false;
      }
      loading := false;
      users := Arr(updated.value);
      ok := true;
    }

    /** `deleteUser.fulfilled` with `id` the thunk argument's `id`: when
        `id` is truthy, the users whose `CIN` is `id` are filtered out. */
    method DeleteFulfilled(id: Value) returns (ok: bool)
      modifies this`loading, this`users
      ensures !Truthy(id) ==> ok && users == old(users)
      ensures Truthy(id) ==>
        ok == (old(users).Arr? && FilterOut(old(users).items, Key, Some(id)).Some?)
      ensures ok && Truthy(id) ==>
        users == Arr(FilterOut(old(users).items, Key, Some(id)).value)
      ensures ok ==> !loading
      ensures !ok ==> loading == old(loading) && users == old(users)
    {
      if !Truthy(id) {
        loading := false;
        return true;
      }
      if !users.Arr? {
        return false;
      }
      var kept := FilterOut(users.items, Key, Some(id));
      if kept.None? {
        return false;
      }
      loading := false;
      users := Arr(kept.value);
      ok := true;
    }
  }
}
