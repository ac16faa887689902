/** The `partenaire` slice of the Redux store: the partners, keyed by `id`.
    Each case reducer is a method on the slice state. A case reducer that
    throws a TypeError leaves the state as it was (the store discards the
    draft); such methods report it with `ok == false`. */
module PartenaireSlice {
  import opened Wrappers
  import opened JsValue
  import opened SliceOps

  /** The async thunks whose actions this slice handles. */
  datatype Thunk = GetPartenaireByID | GetAllPartenaires | CreatePartenaire | UpdatePartenaire | DeletePartenaire

  /** `action.payload.data.id`; None when reading it throws. */
  function PayloadDataId(payload: Value): Option<Value>
  {
    match Get(payload, "data")
    case None => None
    case Some(data) => Get(data, "id")
  }

  class State {
    var partenaires: Value
    var partenaireByID: Value
    var error: Value
    var loading: bool

    /** The initial state. */
    constructor ()
      ensures partenaires == Arr([]) && partenaireByID == Arr([])
      ensures error == Str("") && !loading
    {
      partenaires := Arr([]);
      partenaireByID := Arr([]);
      error := Str("");
      loading := false;
    }

    /** `setError`: the error becomes the payload. */
    method SetError(payload: Value)
      modifies this`error
      ensures error == payload
    {
      error := payload;
    }

    /** The `pending` case reducer of every thunk of the slice. */
    method Pending(t: Thunk)
      modifies this`loading
      ensures loading
    {
      loading := true;
    }

    /** The slice registers no `rejected` case reducer, so a rejected action
        changes nothing: `loading` stays as the pending action left it. */
    method Rejected(t: Thunk, payload: Value)
      ensures unchanged(this)
    {
    }

    /** `createPartenaire.fulfilled`: `payload.data` is pushed onto the list. */
    method CreateFulfilled(payload: Value) returns (ok: bool)
      modifies this`loading, this`partenaires
      ensures ok <==> old(partenaires).Arr? && !Nullish(payload)
      ensures ok ==> !loading && partenaires == Arr(old(partenaires).items + [Field(payload, "data")])
      ensures !ok ==> loading == old(loading) && partenaires == old(partenaires)
    {
      if !partenaires.Arr? || Nullish(payload) {
        return false;
      }
      loading := false;
      partenaires := Arr(partenaires.items + [Field(payload, "data")]);
      ok := true;
    }

    /** `getAllPartenaires.fulfilled`: the payload becomes the list. */
    method GetAllFulfilled(payload: Value)
      modifies this`loading, this`partenaires
      ensures !loading && partenaires == payload
    {
      loading := false;
      partenaires := payload;
    }

    /** `getPartenaireByID.fulfilled`: the payload becomes `partenaireByID`. */
    method GetByIDFulfilled(payload: Value)
      modifies this`loading, this`partenaireByID
      ensures !loading && partenaireByID == payload
    {
      loading := false;
      partenaireByID := payload;
    }

    /** `updatePartenaire.fulfilled`: `payload.data` is merged into every
        partner with the same `id`; there is no guard on the thunk argument. */
    method UpdateFulfilled(payload: Value) returns (ok: bool)
      modifies this`loading, this`partenaires
      ensures ok == (old(partenaires).Arr? && MapMerge(old(partenaires).items, Get(payload, "data")).Some?)
      ensures ok ==> !loading && partenaires == Arr(MapMerge(old(partenaires).items, Get(payload, "data")).value)
      ensures !ok ==> loading == old(loading) && partenaires == old(partenaires)
    {
      if !partenaires.Arr? {
        return false;
      }
      var merged := MapMerge(partenaires.items, Get(payload, "data"));
      if merged.None? {
        return false;
      }
      loading := false;
      partenaires := Arr(merged.value);
      ok := true;
    }

    /** `deletePartenaire.fulfilled`: the partners whose `id` is
        `payload.data.id` (the server's answer, not the thunk argument) are
        filtered out. */
    method DeleteFulfilled(payload: Value) returns (ok: bool)
      modifies this`loading, this`partenaires
      ensures ok == (old(partenaires).Arr? && FilterOut(old(partenaires).items, "id", PayloadDataId(payload)).Some?)
      ensures ok ==> !loading && partenaires == Arr(FilterOut(old(partenaires).items, "id", PayloadDataId(payload)).value)
      ensures !ok ==> loading == old(loading) && partenaires == old(partenaires)
    {
      if !partenaires.Arr? {
        return false;
      }
      var kept := FilterOut(partenaires.items, "id", PayloadDataId(payload));
      if kept.None? {
        return false;
      }
      loading := false;
      partenaires := Arr(kept.value);
      ok := true;
    }
  }
}
