/** The `depense` slice of the Redux store: the expenses, keyed by
    `iddepense`. Each case reducer is a method on the slice state. A case
    reducer that throws a TypeError leaves the state as it was (the store
    discards the draft); such methods report it with `ok == false`. */
module DepenseSlice {
  import opened Wrappers
  import opened JsValue
  import opened SliceOps

  /** The field that identifies an expense. */
  const Key := "iddepense"

  /** The async thunks whose actions this slice handles. */
  datatype Thunk = GetDepense | GetDepenseByID | CreateDepense | UpdateDepense | DeleteDepense

  class State {
    var depenses: Value
    var depenseByID: Value
    var error: Value
    var loading: bool

    /** The initial state. */
    constructor ()
      ensures depenses == Arr([]) && depenseByID == Arr([])
      ensures error == Str("") && !loading
    {
      depenses := Arr([]);
      depenseByID := Arr([]);
      error := Str("");
      loading := false;
    }

    /** `setError`: the error becomes the payload. */
    method SetError(payload: Value)
      modifies this`error
      ensures error == payload
    {
      error := payload;
    }

    /** The `pending` case reducer of every thunk of the slice. */
    method Pending(t: Thunk)
      modifies this`loading
      ensures loading
    {
      loading := true;
    }

    /** The `rejected` case reducer of every thunk of the slice. */
    method Rejected(t: Thunk, payload: Value)
      modifies this`loading, this`error
      ensures !loading && error == RejectionError(payload)
    {
      loading := false;
      error := RejectionError(payload);
    }

    /** `createDepense.fulfilled`: `payload.data` is pushed onto the list. */
    method CreateFulfilled(payload: Value) returns (ok: bool)
      modifies this`loading, this`depenses
      ensures ok <==> old(depenses).Arr? && !Nullish(payload)
      ensures ok ==> !loading && depenses == Arr(old(depenses).items + [Field(payload, "data")])
      ensures !ok ==> loading == old(loading) && depenses == old(depenses)
    {
      if !depenses.Arr? || Nullish(payload) {
        return false;
      }
      loading := false;
      depenses := Arr(depenses.items + [Field(payload, "data")]);
      ok := true;
    }

    /** `getDepense.fulfilled`: the payload becomes the list. */
    method GetFulfilled(payload: Value)
      modifies this`loading, this`depenses
      ensures !loading && depenses == payload
    {
      loading := false;
      depenses := payload;
    }

    /** `getDepenseByID.fulfilled`: the payload becomes `depenseByID`. */
    method GetByIDFulfilled(payload: Value)
      modifies this`loading, this`depenseByID
      ensures !loading && depenseByID == payload
    {
      loading := false;
      depenseByID := payload;
    }

    /** `updateDepense.fulfilled` with `id` the thunk argument's `id`: when
        `id` is truthy, every expense whose `iddepense` is `id` is replaced by
        the whole payload. */
    method UpdateFulfilled(id: Value, payload: Value) returns (ok: bool)
      modifies this`loading, this`depenses
      ensures !Truthy(id) ==> ok && depenses == old(depenses)
      ensures Truthy(id) ==>
        ok == (old(depenses).Arr? && MapReplace(old(depenses).items, Key, id, Some(payload)).Some?)
      ensures ok && Truthy(id) ==>
        depenses == Arr(MapReplace(old(depenses).items, Key, id, Some(payload)).value)
      ensures ok ==> !loading
      ensures !ok ==> loading == old(loading) && depenses == old(depenses)
    {
      if !Truthy(id) {
        loading := false;
        return true;
      }
      if !depenses.Arr? {
        return false;
      }
      var updated := MapReplace(depenses.items, Key, id, Some(payload));
      if updated.None? {
        return false;
      }
      loading := false;
      depenses := Arr(updated.value);
      ok := true;
    }

    /** `deleteDepense.fulfilled` with `id` the thunk argument's `id`: when
        `id` is truthy, the expenses whose `iddepense` is `id` are filtered out. */
    method DeleteFulfilled(id: Value) returns (ok: bool)
      modifies this`loading, this`depenses
      ensures !Truthy(id) ==> ok && depenses == old(depenses)
      ensures Truthy(id) ==>
        ok == (old(depenses).Arr? && FilterOut(old(depenses).items, Key, Some(id)).Some?)
      ensures ok && Truthy(id) ==>
        depenses == Arr(FilterOut(old(depenses).items, Key, Some(id)).value)
      ensures ok ==> !loading
      ensures !ok ==> loading == old(loading) && depenses == old(depenses)
    {
      if !Truthy(id) {
        loading := false;
        return true;
      }
      if !depenses.Arr? {
        return false;
      }
      var kept := FilterOut(depenses.items, Key, Some(id));
      if kept.None? {
        return false;
      }
      loading := false;
      depenses := Arr(kept.value);
      ok := true;
    }
  }
}
