/** The `categorie` slice of the Redux store: the expense categories, keyed
    by `NomCat`. Each case reducer is a method on the slice state. A case
    reducer that throws a TypeError leaves the state as it was (the store
    discards the draft); such methods report it with `ok == false`. */
module CategorieSlice {
  import opened Wrappers
  import opened JsValue
  import opened SliceOps

  /** The field that identifies a category. */
  const Key := "NomCat"

  /** The async thunks whose actions this slice handles. */
  datatype Thunk = GetCategories | GetCategorieByID | CreateCategorie | UpdateCategorie | DeleteCategorie

  class State {
    var categories: Value
    var categorieByID: Value
    var error: Value
    var loading: bool

    /** The initial state. */
    constructor ()
      ensures categories == Arr([]) && categorieByID == Arr([])
      ensures error == Str("") && !loading
    {
      categories := Arr([]);
      categorieByID := Arr([]);
      error := Str("");
      loading := false;
    }

    /** `setError`: the error becomes the payload. */
    method SetError(payload: Value)
      modifies this`error
      ensures error == payload
    {
      error := payload;
    }

    /** The `pending` case reducer of every thunk of the slice. */
    method Pending(t: Thunk)
      modifies this`loading
      ensures loading
    {
      loading := true;
    }

    /** The `rejected` case reducer of every thunk of the slice. */
    method Rejected(t: Thunk, payload: Value)
      modifies this`loading, this`error
      ensures !loading && error == RejectionError(payload)
    {
      loading := false;
      error := RejectionError(payload);
    }

    /** `createCategorie.fulfilled`: `payload.data` is pushed onto the list. */
    method CreateFulfilled(payload: Value) returns (ok: bool)
      modifies this`loading, this`categories
      ensures ok <==> old(categories).Arr? && !Nullish(payload)
      ensures ok ==> !loading && categories == Arr(old(categories).items + [Field(payload, "data")])
      ensures !ok ==> loading == old(loading) && categories == old(categories)
    {
      if !categories.Arr? || Nullish(payload) {
        return false;
      }
      loading := false;
      categories := Arr(categories.items + [Field(payload, "data")]);
      ok := true;
    }

    /** `getCategories.fulfilled`: the payload becomes the list. */
    method GetFulfilled(payload: Value)
      modifies this`loading, this`categories
      ensures !loading && categories == payload
    {
      loading := false;
      categories := payload;
    }

    /** `getCategorieByID.fulfilled`: the payload becomes `categorieByID`. */
    method GetByIDFulfilled(payload: Value)
      modifies this`loading, this`categorieByID
      ensures !loading && categorieByID == payload
    {
      loading := false;
      categorieByID := payload;
    }

    /** `updateCategorie.fulfilled` with `id` the thunk argument's `id`: when
        `id` is truthy, every category whose `NomCat` is `id` is replaced by
        `payload.categorie`. */
    method UpdateFulfilled(id: Value, payload: Value) returns (ok: bool)
      modifies this`loading, this`categories
      ensures !Truthy(id) ==> ok && categories == old(categories)
      ensures Truthy(id) ==>
        ok == (old(categories).Arr? && MapReplace(old(categories).items, Key, id, Get(payload, "categorie")).Some?)
      ensures ok && Truthy(id) ==>
        categories == Arr(MapReplace(old(categories).items, Key, id, Get(payload, "categorie")).value)
      ensures ok ==> !loading
      ensures !ok ==> loading == old(loading) && categories == old(categories)
    {
      if !Truthy(id) {
        loading := false;
        return true;
      }
      if !categories.Arr? {
        return false;
      }
      var updated := MapReplace(categories.items, Key, id, Get(payload, "categorie"));
      if updated.None? {
        return false;
      }
      loading := false;
      categories := Arr(updated.value);
      ok := true;
    }

    /** `deleteCategorie.fulfilled` with `id` the thunk argument's `id`: when
        `id` is truthy, the categories whose `NomCat` is `id` are filtered out. */
    method DeleteFulfilled(id: Value) returns (ok: bool)
      modifies this`loading, this`categories
      ensures !Truthy(id) ==> ok && categories == old(categories)
      ensures Truthy(id) ==>
        ok == (old(categories).Arr? && FilterOut(old(categories).items, Key, Some(id)).Some?)
      ensures ok && Truthy(id) ==>
        categories == Arr(FilterOut(old(categories).items, Key, Some(id)).value)
      ensures ok ==> !loading
      ensures !ok ==> loading == old(loading) && categories == old(categories)
    {
      if !Truthy(id) {
        loading := false;
        return true;
      }
      if !categories.Arr? {
        return false;
      }
      var kept := FilterOut(categories.items, Key, Some(id));
      if kept.None? {
        return false;
      }
      loading := false;
      categories := Arr(kept.value);
      ok := true;
    }
  }
}
