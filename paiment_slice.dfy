/** The `paiment` slice of the Redux store: the payments, keyed by
    `idpaiment`. Each case reducer is a method on the slice state. A case
    reducer that throws a TypeError leaves the state as it was (the store
    discards the draft); such methods report it with `ok == false`. */
module PaimentSlice {
  import opened Wrappers
  import opened JsValue
  import opened SliceOps

  /** The field that identifies a payment. */
  const Key := "idpaiment"

  /** The async thunks whose actions this slice handles. */
  datatype Thunk = GetPaiment | GetPaimentByID | GetPaimentByUser | CreatePaiment | UpdatePaiment | Payee | DeletePaiment

  class State {
    var paiment: Value
    var paimentByID: Value
    var error: Value
    var loading: bool

    /** The initial state. */
    constructor ()
      ensures paiment == Arr([]) && paimentByID == Arr([])
      ensures error == Str("") && !loading
    {
      paiment := Arr([]);
      paimentByID := Arr([]);
      error := Str("");
      loading := false;
    }

    /** `setError`: the error becomes the payload. */
    method SetError(payload: Value)
      modifies this`error
      ensures error == payload
    {
      error := payload;
    }

    /** The `pending` case reducers. The slice registers `payee.pending`
        twice and `deletePaiment.pending` never, so a pending delete leaves
        the state as it was. */
    method Pending(t: Thunk)
      modifies this`loading
      ensures t != DeletePaiment ==> loading
      ensures t == DeletePaiment ==> loading == old(loading)
    {
      if t != DeletePaiment {
        loading := true;
      }
    }

    /** The `rejected` case reducer of every thunk of the slice. */
    method Rejected(t: Thunk, payload: Value)
      modifies this`loading, this`error
      ensures !loading && error == RejectionError(payload)
    {
      loading := false;
      error := RejectionError(payload);
    }

    /** `createPaiment.fulfilled`: `payload.data` is pushed onto the list. */
    method CreateFulfilled(payload: Value) returns (ok: bool)
      modifies this`loading, this`paiment
      ensures ok <==> old(paiment).Arr? && !Nullish(payload)
      ensures ok ==> !loading && paiment == Arr(old(paiment).items + [Field(payload, "data")])
      ensures !ok ==> loading == old(loading) && paiment == old(paiment)
    {
      if !paiment.Arr? || Nullish(payload) {
        return false;
      }
      loading := false;
      paiment := Arr(paiment.items + [Field(payload, "data")]);
      ok := true;
    }

    /** `getPaiment.fulfilled`: the payload becomes the list. */
    method GetFulfilled(payload: Value)
      modifies this`loading, this`paiment
      ensures !loading && paiment == payload
    {
      loading := false;
      paiment := payload;
    }

    /** `getPaimentByUser.fulfilled`: the same as `getPaiment.fulfilled`, the
        payload replaces the whole list. */
    method GetByUserFulfilled(payload: Value)
      modifies this`loading, this`paiment
      ensures !loading && paiment == payload
    {
      GetFulfilled(payload);
    }

    /** `getPaimentByID.fulfilled`: the payload becomes `paimentByID`. */
    method GetByIDFulfilled(payload: Value)
      modifies this`loading, this`paimentByID
      ensures !loading && paimentByID == payload
    {
      loading := false;
      paimentByID := payload;
    }

    /** `updatePaiment.fulfilled` with `id` the thunk argument's `id`: when
        `id` is truthy, every payment whose `idpaiment` is `id` is replaced by
        `payload.data`. */
    method UpdateFulfilled(id: Value, payload: Value) returns (ok: bool)
      modifies this`loading, this`paiment
      ensures !Truthy(id) ==> ok && paiment == old(paiment)
      ensures Truthy(id) ==>
        ok == (old(paiment).Arr? && MapReplace(old(paiment).items, Key, id, Get(payload, "data")).Some?)
      ensures ok && Truthy(id) ==>
        paiment == Arr(MapReplace(old(paiment).items, Key, id, Get(payload, "data")).value)
      ensures ok ==> !loading
      ensures !ok ==> loading == old(loading) && paiment == old(paiment)
    {
      if !Truthy(id) {
        loading := false;
        return true;
      }
      if !paiment.Arr? {
        return false;
      }
      var updated := MapReplace(paiment.items, Key, id, Get(payload, "data"));
      if updated.None? {
        return false;
      }
      loading := false;
      paiment := Arr(updated.value);
      ok := true;
    }

    /** `payee.fulfilled`: the same as `updatePaiment.fulfilled`. */
    method PayeeFulfilled(id: Value, payload: Value) returns (ok: bool)
      modifies this`loading, this`paiment
      ensures !Truthy(id) ==> ok && paiment == old(paiment)
      ensures Truthy(id) ==>
        ok == (old(paiment).Arr? && MapReplace(old(paiment).items, Key, id, Get(payload, "data")).Some?)
      ensures ok && Truthy(id) ==>
        paiment == Arr(MapReplace(old(paiment).items, Key, id, Get(payload, "data")).value)
      ensures ok ==> !loading
      ensures !ok ==> loading == old(loading) && paiment == old(paiment)
    {
      ok := UpdateFulfilled(id, payload);
    }

    /** `deletePaiment.fulfilled` with `id` the thunk argument's `id`: when
        `id` is truthy, the payments whose `idpaiment` is `id` are filtered out. */
    method DeleteFulfilled(id: Value) returns (ok: bool)
      modifies this`loading, this`paiment
      ensures !Truthy(id) ==> ok && paiment == old(paiment)
      ensures Truthy(id) ==>
        ok == (old(paiment).Arr? && FilterOut(old(paiment).items, Key, Some(id)).Some?)
      ensures ok && Truthy(id) ==>
        paiment == Arr(FilterOut(old(paiment).items, Key, Some(id)).value)
      ensures ok ==> !loading
      ensures !ok ==> loading == old(loading) && paiment == old(paiment)
    {
      if !Truthy(id) {
        loading := false;
        return true;
      }
      if !paiment.Arr? {
        return false;
      }
      var kept := FilterOut(paiment.items, Key, Some(id));
      if kept.None? {
        return false;
      }
      loading := false;
      paiment := Arr(kept.value);
      ok := true;
    }
  }
}
