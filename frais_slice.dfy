/** The `frais` slice of the Redux store: the fees (revenues), keyed by
    `Nom`. Each case reducer is a method on the slice state. A case
    reducer that throws a TypeError leaves the state as it was (the store
    discards the draft); such methods report it with `ok == false`. */
module FraisSlice {
  import opened Wrappers
  import opened JsValue
  import opened SliceOps

  /** The field that identifies a fee. */
  const Key := "Nom"

  /** The async thunks whose actions this slice handles. */
  datatype Thunk = GetFrais | GetFraisByID | CreateFrais | UpdateFrais | DeleteFrais

  class State {
    var frais: Value
    var fraisByID: Value
    var error: Value
    var loading: bool

    /** The initial state. */
    constructor ()
      ensures frais == Arr([]) && fraisByID == Arr([])
      ensures error == Str("") && !loading
    {
      frais := Arr([]);
      fraisByID := Arr([]);
      error := Str("");
      loading := false;
    }

    /** `setError`: the error becomes the payload. */
    method SetError(payload: Value)
      modifies this`error
      ensures error == payload
    {
      error := payload;
    }

    /** The `pending` case reducer of every thunk of the slice. */
    method Pending(t: Thunk)
      modifies this`loading
      ensures loading
    {
      loading := true;
    }

    /** The `rejected` case reducer of every thunk of the slice. */
    method Rejected(t: Thunk, payload: Value)
      modifies this`loading, this`error
      ensures !loading && error == RejectionError(payload)
    {
      loading := false;
      error := RejectionError(payload);
    }

    /** `createFrais.fulfilled`: `payload.data` is pushed onto the list. */
    method CreateFulfilled(payload: Value) returns (ok: bool)
      modifies this`loading, this`frais
      ensures ok <==> old(frais).Arr? && !Nullish(payload)
      ensures ok ==> !loading && frais == Arr(old(frais).items + [Field(payload, "data")])
      ensures !ok ==> loading == old(loading) && frais == old(frais)
    {
      if !frais.Arr? || Nullish(payload) {
        return false;
      }
      loading := false;
      frais := Arr(frais.items + [Field(payload, "data")]);
      ok := true;
    }

    /** `getFrais.fulfilled`: the payload becomes the list. */
    method GetFulfilled(payload: Value)
      modifies this`loading, this`frais
      ensures !loading && frais == payload
    {
      loading := false;
      frais := payload;
    }

    /** `getFraisByID.fulfilled`: the payload becomes `fraisByID`. */
    method GetByIDFulfilled(payload: Value)
      modifies this`loading, this`fraisByID
      ensures !loading && fraisByID == payload
    {
      loading := false;
      fraisByID := payload;
    }

    /** `updateFrais.fulfilled` with `id` the thunk argument's `id`: when
        `id` is truthy, every fee whose `Nom` is `id` is replaced by
        `payload.data`. */
    method UpdateFulfilled(id: Value, payload: Value) returns (ok: bool)
      modifies this`loading, this`frais
      ensures !Truthy(id) ==> ok && frais == old(frais)
      ensures Truthy(id) ==>
        ok == (old(frais).Arr? && MapReplace(old(frais).items, Key, id, Get(payload, "data")).Some?)
      ensures ok && Truthy(id) ==>
        frais == Arr(MapReplace(old(frais).items, Key, id, Get(payload, "data")).value)
      ensures ok ==> !loading
      ensures !ok ==> loading == old(loading) && frais == old(frais)
    {
      if !Truthy(id) {
        loading := false;
        return true;
      }
      if !frais.Arr? {
        return false;
      }
      var updated := MapReplace(frais.items, Key, id, Get(payload, "data"));
      if updated.None? {
        return false;
      }
      loading := false;
      frais := Arr(updated.value);
      ok := true;
    }

    /** `deleteFrais.fulfilled` with `id` the thunk argument's `id`: when
        `id` is truthy, the fees whose `Nom` is `id` are filtered out. */
    method DeleteFulfilled(id: Value) returns (ok: bool)
      modifies this`loading, this`frais
      ensures !Truthy(id) ==> ok && frais == old(frais)
      ensures Truthy(id) ==>
        ok == (old(frais).Arr? && FilterOut(old(frais).items, Key, Some(id)).Some?)
      ensures ok && Truthy(id) ==>
        frais == Arr(FilterOut(old(frais).items, Key, Some(id)).value)
      ensures ok ==> !loading
      ensures !ok ==> loading == old(loading) && frais == old(frais)
    {
      if !Truthy(id) {
        loading := false;
        return true;
      }
      if !frais.Arr? {
        return false;
      }
      var kept := FilterOut(frais.items, Key, Some(id));
      if kept.None? {
        return false;
      }
      loading := false;
      frais := Arr(kept.value);
      ok := true;
    }
  }
}
