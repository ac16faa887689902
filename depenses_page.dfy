/** The expenses page: a paginated table of the expenses in the `depense`
    slice, with popups to add, edit and delete one. The event handlers are
    methods on the page's component state; what they dispatch to the store
    or show as a toast is returned as a list of effects. The table body is
    described by pure functions of that state. */
module DepensesPage {
  import opened Wrappers
  import opened JsValue
  import JsString

  /** The choices of the rows-per-page selector; -1 ("Tout") shows every row. */
  const RowsPerPageOptions: seq<int> := [5, 10, 25, -1]

  /** The message of an incomplete add form. */
  const NullFieldError := "Field can not be null"

  function Min(a: int, b: int): int
  {
    if a <= b then a else b
  }

  /** An index of `Array.prototype.slice`: a negative one counts from the
      end, and the result is clamped to [0, n]. */
  function SliceIndex(k: int, n: nat): (r: nat)
    ensures r <= n
    ensures 0 <= k ==> r == Min(k, n)
  {
    if k < 0 then (if n + k < 0 then 0 else n + k) else Min(k, n)
  }

  /** `xs.slice(start, end)`. */
  function ArraySlice(xs: seq<Value>, start: int, end: int): (r: seq<Value>)
    ensures 0 <= start <= end ==> r == xs[Min(start, |xs|)..Min(end, |xs|)]
  {
    var a := SliceIndex(start, |xs|);
    var b := SliceIndex(end, |xs|);
    if a < b then xs[a..b] else []
  }

  /** `xs.slice(start, start + r)` for a positive count r: at most r
      expenses from index `start` on, cut off at the end of the list. */
  function Stretch(xs: seq<Value>, start: nat, r: int): (w: seq<Value>)
    requires r > 0
    ensures |w| <= r
    ensures |w| == (if start >= |xs| then 0 else Min(r, |xs| - start))
    ensures forall i :: 0 <= i < |w| ==> start + i < |xs| && w[i] == xs[start + i]
  {
    ArraySlice(xs, start, start + r)
  }

  /** A rows-per-page value that shows every row: not positive, or NaN (None). */
  predicate ShowsAll(rowsPerPage: Option<int>)
  {
    rowsPerPage.None? || rowsPerPage.value <= 0
  }

  /** The expenses of the current page:
      `rowsPerPage > 0 ? xs.slice(page * rowsPerPage, page * rowsPerPage + rowsPerPage) : xs`.
      With a positive count it is the stretch of at most that many expenses
      starting at `page * rowsPerPage`, cut off at the end of the list. */
  function Window(xs: seq<Value>, page: nat, rowsPerPage: Option<int>): (w: seq<Value>)
    ensures ShowsAll(rowsPerPage) ==> w == xs
    ensures !ShowsAll(rowsPerPage) ==>
      var r := rowsPerPage.value;
      && |w| <= r
      && |w| == (if page * r >= |xs| then 0 else Min(r, |xs| - page * r))
      && forall i :: 0 <= i < |w| ==> page * r + i < |xs| && w[i] == xs[page * r + i]
  {
    if ShowsAll(rowsPerPage) then xs
    else
      var r := rowsPerPage.value;
      assert page * r >= 0;
      Stretch(xs, page * r, r)
  }

  /** With a positive count, every expense is on exactly one page: the
      expense at index i is row i % r of page i / r. */
  lemma WindowCovers(xs: seq<Value>, r: int, i: nat)
    requires r > 0 && i < |xs|
    ensures var w := Window(xs, i / r, Some(r));
      i % r < |w| && w[i % r] == xs[i]
  {
    var p := i / r;
    assert p * r + i % r == i;
    assert p * r <= i < |xs|;
  }

  /** Every choice of the rows-per-page selector survives the round trip
      through `parseInt(String(o), 10)`, and on the first page the Tout
      choice -1 shows the whole list while the others show its first o
      expenses. */
  lemma RowsPerPageOptionsPaginate(xs: seq<Value>, k: nat)
    requires k < |RowsPerPageOptions|
    ensures var o := RowsPerPageOptions[k];
      && JsString.ParseInt(ToStr(Num(o))) == Some(o)
      && (o > 0 ==> Window(xs, 0, Some(o)) == xs[..Min(o, |xs|)])
      && (o <= 0 ==> Window(xs, 0, Some(o)) == xs)
  {
    var o := RowsPerPageOptions[k];
    JsString.ParseIntOfIntToString(o);
    if o > 0 {
      var w := Window(xs, 0, Some(o));
      assert |w| == Min(o, |xs|);
      assert forall i :: 0 <= i < |w| ==> w[i] == xs[i];
    }
  }

  /** The date cell:
      `d.split("-")[0]-d.split("-")[1]-d.split("-")[2].substring(0, 2)`.
      None: rendering throws, because `datedep` is not a string or holds
      fewer than two dashes (`split("-")[2]` is then undefined). */
  function FormatDate(datedep: Value): (r: Option<string>)
    ensures r.Some? <==> datedep.Str? && JsString.Count(datedep.s, '-') >= 2
  {
    match datedep
    case Str(s) =>
      var parts := JsString.Split(s, '-');
      if |parts| < 3 then None
      else Some(parts[0] + "-" + parts[1] + "-" + JsString.Substring(parts[2], 0, 2))
    case _ => None
  }

  /** A string that starts with an ISO 8601 calendar date `YYYY-MM-DD`, as the
      backend's timestamps do. */
  predicate StartsWithIsoDate(s: string)
  {
    && |s| >= 10 && s[4] == '-' && s[7] == '-'
    && forall i :: 0 <= i < 10 && i != 4 && i != 7 ==> JsString.IsDigit(s[i])
  }

  /** The year, month and day fields of an ISO date hold no dash. */
  lemma IsoFieldsDashFree(s: string)
    requires StartsWithIsoDate(s)
    ensures '-' !in s[..4] && '-' !in s[5..7] && '-' !in s[8..10]
  {
    assert forall i :: 0 <= i < 4 ==> s[..4][i] == s[i];
    assert forall i :: 0 <= i < 2 ==> s[5..7][i] == s[5 + i] && s[8..10][i] == s[8 + i];
  }

  /** Splitting an ISO timestamp on dashes gives the year, the month, then
      the pieces of what follows the second dash. */
  lemma SplitIsoDate(s: string)
    requires StartsWithIsoDate(s)
    ensures JsString.Split(s, '-') == [s[..4], s[5..7]] + JsString.Split(s[8..], '-')
  {
    IsoFieldsDashFree(s);
    var year, month, rest := s[..4], s[5..7], s[8..];
    assert s == year + ['-'] + (month + ['-'] + rest);
    JsString.SplitAfter(year, '-', month + ['-'] + rest);
    JsString.SplitAfter(month, '-', rest);
  }

  /** The piece after the second dash starts with the two day digits. */
  lemma IsoDayPiece(s: string)
    requires StartsWithIsoDate(s)
    ensures var day := JsString.Split(s[8..], '-')[0];
      |day| >= 2 && day[..2] == s[8..10]
  {
    IsoFieldsDashFree(s);
    var rest := s[8..];
    assert rest == s[8..10] + rest[2..];
    JsString.SplitHead(s[8..10], '-', rest[2..]);
  }

  /** The date cell of an ISO timestamp is its `YYYY-MM-DD` prefix. */
  lemma FormatIsoDate(s: string)
    requires StartsWithIsoDate(s)
    ensures FormatDate(Str(s)) == Some(s[..10])
  {
    SplitIsoDate(s);
    IsoDayPiece(s);
    var day := JsString.Split(s[8..], '-')[0];
    assert JsString.Substring(day, 0, 2) == s[8..10];
    assert s[..10] == s[..4] + "-" + s[5..7] + "-" + s[8..10];
  }

  /** One rendered row: the number in the first column, the expense (whose
      fields fill the other cells and which the edit and delete buttons
      pass on) and the text of the date cell. */
  datatype Row = Row(number: int, depense: Value, date: string)

  /** A value React accepts as the child of a cell: anything but an object,
      where an array is accepted when all its elements are. Null, undefined
      and booleans render as nothing; an object child makes React throw. */
  predicate ValidChild(v: Value)
    decreases v
  {
    match v
    case Obj(_) => false
    case Arr(items) => forall i :: 0 <= i < |items| ==> ValidChild(items[i])
    case _ => true
  }

  /** Whether the row of `depense` renders: reading `depense.description`
      throws on null or undefined, the description, amount and category
      cells must be valid children, and the date cell must not throw. */
  predicate RowRenders(depense: Value)
  {
    && !Nullish(depense)
    && ValidChild(Field(depense, "description"))
    && ValidChild(Field(depense, "montantdep"))
    && ValidChild(Field(depense, "CategorieNomCat"))
    && FormatDate(Field(depense, "datedep")).Some?
  }

  /** The table body: nothing when `depenses` is falsy; otherwise the
      expenses of the current page, numbered `index + 1` within it. None:
      rendering throws, because `depenses` is truthy but not an array or one
      of the page's rows does not render. */
  function VisibleRows(depenses: Value, page: nat, rowsPerPage: Option<int>): (rows: Option<seq<Row>>)
    ensures !Truthy(depenses) ==> rows == Some([])
    ensures Truthy(depenses) && !depenses.Arr? ==> rows.None?
    ensures depenses.Arr? ==>
      var w := Window(depenses.items, page, rowsPerPage);
      (rows.Some? <==> forall i :: 0 <= i < |w| ==> RowRenders(w[i]))
  {
    if !Truthy(depenses) then Some([])
    else if !depenses.Arr? then None
    else
      var w := Window(depenses.items, page, rowsPerPage);
      if forall i :: 0 <= i < |w| ==> RowRenders(w[i]) then
        Some(seq(|w|, i requires 0 <= i < |w| =>
          Row(i + 1, w[i], FormatDate(Field(w[i], "datedep")).value)))
      else None
  }

  /** With a positive count, the rows of a page are numbered 1, 2, … from
      its first row whatever the page, and row k shows the expense at
      `page * r + k` with its formatted date. */
  lemma RowsNumberedFromOne(xs: seq<Value>, page: nat, r: int)
    requires r > 0
    requires VisibleRows(Arr(xs), page, Some(r)).Some?
    ensures var rows := VisibleRows(Arr(xs), page, Some(r));
      && rows.Some? && |rows.value| <= r
      && forall k :: 0 <= k < |rows.value| ==>
           && rows.value[k].number == k + 1
           && rows.value[k].depense == xs[page * r + k]
           && Some(rows.value[k].date) == FormatDate(Field(xs[page * r + k], "datedep"))
  {
  }

  /** What a handler hands on: a dispatched thunk or action, or a toast. */
  datatype Effect =
    | DispatchCreate(formValue: Value)
    | DispatchUpdate(id: Value, formValue: Value)
    | DispatchDelete(id: Value)
    | DispatchSetError(message: Value)
    | ToastError(text: string)

  /** The add form is complete: description, category and amount are
      truthy, so the form data is an object holding all three. */
  function FormComplete(data: Value): (complete: bool)
    ensures complete ==>
      && data.Obj? && "description" in data.fields
      && "CategorieNomCat" in data.fields && "montantdep" in data.fields
    ensures complete ==> !Nullish(data)
  {
    Truthy(Field(data, "description")) && Truthy(Field(data, "CategorieNomCat")) && Truthy(Field(data, "montantdep"))
  }

  /** The body `createDepense` posts; the category travels as `categorie`. */
  function AddFormValue(data: Value): Value
  {
    Obj(map["description" := Field(data, "description"),
            "categorie" := Field(data, "CategorieNomCat"),
            "montantdep" := Field(data, "montantdep")])
  }

  /** The body `updateDepense` posts. */
  function EditFormValue(data: Value): Value
  {
    Obj(map["description" := Field(data, "description"),
            "CategorieNomCat" := Field(data, "CategorieNomCat"),
            "montantdep" := Field(data, "montantdep")])
  }

  /** The component state of the page. A handler sees the state of the
      render it belongs to, so reading a field after setting it in the same
      handler still gives the old value. */
  class Page {
    var page: nat
    var rowsPerPage: Option<int>
    var showAddDepensePopup: bool
    var showEditDepensePopup: bool
    var showDeleteDepensePopup: bool
    var depenseData: Value
    var selectedDepenseForEdit: Value
    var selectedDepenseForDelete: Value
    /** Never changed by the component: it stays "". */
    var stringErrorMessage: string

    /** At most one of the three popups is open. */
    predicate AtMostOnePopup()
      reads this
    {
      && !(showAddDepensePopup && showEditDepensePopup)
      && !(showAddDepensePopup && showDeleteDepensePopup)
      && !(showEditDepensePopup && showDeleteDepensePopup)
    }

    /** The state of the first render. */
    constructor ()
      ensures page == 0 && rowsPerPage == Some(5)
      ensures !showAddDepensePopup && !showEditDepensePopup && !showDeleteDepensePopup
      ensures depenseData == Obj(map["description" := Str(""), "CategorieNomCat" := Str(""), "montantdep" := Str("")])
      ensures selectedDepenseForEdit == Null && selectedDepenseForDelete == Null
      ensures stringErrorMessage == ""
      ensures AtMostOnePopup()
    {
      page := 0;
      rowsPerPage := Some(5);
      showAddDepensePopup, showEditDepensePopup, showDeleteDepensePopup := false, false, false;
      depenseData := Obj(map["description" := Str(""), "CategorieNomCat" := Str(""), "montantdep" := Str("")]);
      selectedDepenseForEdit, selectedDepenseForDelete := Null, Null;
      stringErrorMessage := "";
    }

    /** `handleInputChange`: the field `name` of the form data becomes
        `value` (the other fields are copied), and the slice error is cleared. */
    method InputChange(name: string, value: Value) returns (effects: seq<Effect>)
      modifies this`depenseData
      ensures depenseData == Obj(Own(old(depenseData))[name := value])
      ensures effects == [DispatchSetError(Str(""))]
    {
      depenseData := Obj(Own(depenseData)[name := value]);
      effects := [DispatchSetError(Str(""))];
    }

    /** `handleAddDepense`: the add popup opens alone and the form data
        becomes the empty string. */
    method AddDepense()
      modifies this`showAddDepensePopup, this`showEditDepensePopup, this`showDeleteDepensePopup, this`depenseData
      ensures showAddDepensePopup && !showEditDepensePopup && !showDeleteDepensePopup
      ensures depenseData == Str("")
      ensures AtMostOnePopup()
    {
      showAddDepensePopup := true;
      showEditDepensePopup := false;
      showDeleteDepensePopup := false;
      depenseData := Str("");
    }

    /** `handleAddDepenseSubmit`. A complete form dispatches `createDepense`
        unless a string error is pending, in which case the handler returns
        at once and the popup stays open; an incomplete form shows and
        records "Field can not be null". ok is false when reading the form
        data throws (it is null or undefined); nothing happens then. */
    method AddDepenseSubmit() returns (ok: bool, effects: seq<Effect>)
      requires AtMostOnePopup()
      modifies this`showAddDepensePopup
      ensures ok <==> !Nullish(depenseData)
      ensures AtMostOnePopup()
      ensures !ok ==> effects == [] && showAddDepensePopup == old(showAddDepensePopup)
      ensures ok && FormComplete(depenseData) && stringErrorMessage != "" ==>
        effects == [] && showAddDepensePopup == old(showAddDepensePopup)
      ensures ok && FormComplete(depenseData) && stringErrorMessage == "" ==>
        effects == [DispatchCreate(AddFormValue(depenseData))] && !showAddDepensePopup
      ensures ok && !FormComplete(depenseData) ==>
        effects == [ToastError(NullFieldError), DispatchSetError(Str(NullFieldError))] && !showAddDepensePopup
    {
      if Nullish(depenseData) {
        return false, [];
      }
      ok := true;
      if FormComplete(depenseData) {
        if stringErrorMessage != "" {
          return true, [];
        }
        effects := [DispatchCreate(AddFormValue(depenseData))];
      } else {
        effects := [ToastError(NullFieldError), DispatchSetError(Str(NullFieldError))];
      }
      showAddDepensePopup := false;
    }

    /** `handleEditDepense`: the expense becomes the selection and the form
        data. The popup test reads the selection of the previous render, so
        the edit popup opens (alone) only when an expense was already
        selected before this click. */
    method EditDepense(depense: Value)
      requires AtMostOnePopup()
      modifies this`selectedDepenseForEdit, this`depenseData
      modifies this`showAddDepensePopup, this`showEditDepensePopup, this`showDeleteDepensePopup
      ensures selectedDepenseForEdit == depense && depenseData == depense
      ensures Truthy(old(selectedDepenseForEdit)) ==>
        showEditDepensePopup && !showAddDepensePopup && !showDeleteDepensePopup
      ensures !Truthy(old(selectedDepenseForEdit)) ==>
        && showEditDepensePopup == old(showEditDepensePopup)
        && showAddDepensePopup == old(showAddDepensePopup)
        && showDeleteDepensePopup == old(showDeleteDepensePopup)
      ensures AtMostOnePopup()
    {
      var previous := selectedDepenseForEdit;
      selectedDepenseForEdit := depense;
      depenseData := depense;
      if Truthy(previous) {
        showEditDepensePopup := true;
        showAddDepensePopup := false;
        showDeleteDepensePopup := false;
      }
    }

    /** `handleConfirmEditDepense`: with a selection, `updateDepense` is
        dispatched for its `iddepense` with the form data; the edit popup
        closes. ok is false when reading the form data throws. */
    method ConfirmEditDepense() returns (ok: bool, effects: seq<Effect>)
      requires AtMostOnePopup()
      modifies this`showEditDepensePopup
      ensures ok <==> !(Truthy(selectedDepenseForEdit) && Nullish(depenseData))
      ensures AtMostOnePopup()
      ensures !ok ==> effects == [] && showEditDepensePopup == old(showEditDepensePopup)
      ensures ok ==> !showEditDepensePopup
      ensures ok && Truthy(selectedDepenseForEdit) ==>
        effects == [DispatchUpdate(Field(selectedDepenseForEdit, "iddepense"), EditFormValue(depenseData))]
      ensures !Truthy(selectedDepenseForEdit) ==> effects == []
    {
      effects := [];
      if Truthy(selectedDepenseForEdit) {
        if Nullish(depenseData) {
          return false, [];
        }
        effects := [DispatchUpdate(Field(selectedDepenseForEdit, "iddepense"), EditFormValue(depenseData))];
      }
      showEditDepensePopup := false;
      ok := true;
    }

    /** `handleDeleteDepense`: the expense becomes the selection to delete
        and the delete popup opens alone. */
    method DeleteDepense(depense: Value)
      modifies this`selectedDepenseForDelete
      modifies this`showAddDepensePopup, this`showEditDepensePopup, this`showDeleteDepensePopup
      ensures selectedDepenseForDelete == depense
      ensures showDeleteDepensePopup && !showAddDepensePopup && !showEditDepensePopup
      ensures AtMostOnePopup()
    {
      selectedDepenseForDelete := depense;
      showDeleteDepensePopup := true;
      showAddDepensePopup := false;
      showEditDepensePopup := false;
    }

    /** `handleConfirmDeleteDepense`: with a selection, `deleteDepense` is
        dispatched for its `iddepense`; the delete popup closes either way. */
    method ConfirmDeleteDepense() returns (effects: seq<Effect>)
      requires AtMostOnePopup()
      modifies this`showDeleteDepensePopup
      ensures !showDeleteDepensePopup && AtMostOnePopup()
      ensures Truthy(selectedDepenseForDelete) ==>
        effects == [DispatchDelete(Field(selectedDepenseForDelete, "iddepense"))]
      ensures !Truthy(selectedDepenseForDelete) ==> effects == []
    {
      effects := [];
      if Truthy(selectedDepenseForDelete) {
        effects := [DispatchDelete(Field(selectedDepenseForDelete, "iddepense"))];
      }
      showDeleteDepensePopup := false;
    }

    /** The Cancel button of the add popup. */
    method CancelAdd()
      requires AtMostOnePopup()
      modifies this`showAddDepensePopup
      ensures !showAddDepensePopup && AtMostOnePopup()
    {
      showAddDepensePopup := false;
    }

    /** The Cancel button of the edit popup. */
    method CancelEdit()
      requires AtMostOnePopup()
      modifies this`showEditDepensePopup
      ensures !showEditDepensePopup && AtMostOnePopup()
    {
      showEditDepensePopup := false;
    }

    /** The Cancel button of the delete popup. */
    method CancelDelete()
      requires AtMostOnePopup()
      modifies this`showDeleteDepensePopup
      ensures !showDeleteDepensePopup && AtMostOnePopup()
    {
      showDeleteDepensePopup := false;
    }

    /** `handleChangePage`. */
    method ChangePage(newPage: nat)
      modifies this`page
      ensures page == newPage
    {
      page := newPage;
    }

    /** `handleChangeRowsPerPage`: the count becomes `parseInt(value, 10)`
        (NaN is None) and the table goes back to the first page. A numeric
        choice such as 5 or -1 is kept as it is. */
    method ChangeRowsPerPage(value: Value)
      modifies this`rowsPerPage, this`page
      ensures rowsPerPage == JsString.ParseInt(ToStr(value)) && page == 0
      ensures value.Num? ==> rowsPerPage == Some(value.n)
    {
      if value.Num? {
        assert ToStr(value) == JsString.IntToString(value.n);
        JsString.ParseIntOfIntToString(value.n);
      }
      rowsPerPage := JsString.ParseInt(ToStr(value));
      page := 0;
    }
  }
}
