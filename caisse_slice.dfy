/** The `caisse` slice of the Redux store: the cash-box summary the backend
    computes, fetched by the one thunk `getCaisse`. */
module CaisseSlice {
  import opened JsValue
  import opened SliceOps

  class State {
    var caisse: Value
    var error: Value
    var loading: bool

    /** The initial state. */
    constructor ()
      ensures caisse == Arr([]) && error == Str("") && !loading
    {
      caisse := Arr([]);
      error := Str("");
      loading := false;
    }

    /** `setError`: the error becomes the payload. */
    method SetError(payload: Value)
      modifies this`error
      ensures error == payload
    {
      error := payload;
    }

    /** `getCaisse.pending`. */
    method Pending()
      modifies this`loading
      ensures loading
    {
      loading := true;
    }

    /** `getCaisse.fulfilled`: the payload becomes the cash box. */
    method Fulfilled(payload: Value)
      modifies this`loading, this`caisse
      ensures !loading && caisse == payload
    {
      loading := false;
      caisse := payload;
    }

    /** `getCaisse.rejected`: the cash box is kept. */
    method Rejected(payload: Value)
      modifies this`loading, this`error
      ensures !loading && error == RejectionError(payload)
    {
      loading := false;
      error := RejectionError(payload);
    }
  }
}
