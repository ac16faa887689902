# Redux slices and the expenses page of the cryptocity frontend

This project models the state logic of the cryptocity frontend, a React and
Redux Toolkit application. Residents, expenses, categories, fees, payments,
partners and the cash box are managed through a REST backend.

- **Entity slices.** Each slice of the Redux store (`categorie`, `depense`,
  `frais`, `paiment`, `user`, `partenaire`, `caisse`) is a `class State`.
  Its fields are the slice's fields. Each case reducer is a method that
  updates those fields:
  - `pending` raises `loading`;
  - `rejected` records `payload?.message || "Some Backend Error"`;
  - `create.fulfilled` pushes part of the payload;
  - `get.fulfilled` replaces the list;
  - `update.fulfilled` maps matching items to a replacement;
  - `delete.fulfilled` filters matching items out.

  Each slice matches on its own key: `NomCat`, `iddepense`, `Nom`,
  `idpaiment`, `CIN`, or `id`.
- **Shared expressions.** The `map` and `filter` callbacks are the pure
  functions `SliceOps.MapReplace`, `SliceOps.FilterOut` and
  `SliceOps.MapMerge`. Lemmas prove their specifications:
  - which inputs make the expression throw;
  - length and order;
  - every matching item replaced, every other item untouched;
  - deleted keys gone, all other items kept in order with their
    multiplicity.
- **Auth slice.** The `auth` slice is a state machine over `user`, `error`,
  `loading`, `isAuthenticated` and `role`. The browser's `localStorage` is a
  `map<string, string>` field of the same object.
- **Expenses page.** `Depenses.js` is the `DepensesPage.Page` class: its
  `useState` variables are fields and its event handlers are methods. What a
  handler dispatches or toasts is returned as a list of `Effect`s. The
  table body is pure functions:
  - the pagination window;
  - the row numbering;
  - the `YYYY-MM-DD` date cell.
- **JavaScript semantics.** The model writes out:
  - the JavaScript values involved, as `JsValue.Value`;
  - truthiness;
  - property access that throws on `null`/`undefined`;
  - `String(v)`;
  - `split`/`join` on one character, `substring`, `slice`;
  - `parseInt(s, 10)`.

A case reducer that throws a TypeError on its payload leaves the store
as it was, because Redux Toolkit discards the draft. Such methods return
`ok == false` and keep every field. The one exception is `login.fulfilled`.
It writes the profile to `localStorage` before the access that throws, and
that write stays.

Where the code differs from a natural reading, the model follows the code:

- The initial `isAuthenticated` is `!!localStorage.getItem("token")`. An
  empty stored token therefore counts as signed out, not only an absent one.
- `handleEditDepense` tests `selectedDepenseForEdit` as it was before the
  click, because React state updates only show at the next render. The first
  click on an edit button selects the expense but does not open the popup.
- `paimentSlice.js` registers `payee.pending` twice and has no
  `deletePaiment.pending`. A pending delete therefore changes nothing.
- `partenaireSlice.js` has no `rejected` reducers. A rejected partner action
  leaves the state unchanged, including `loading == true`.

## Model

| member | source | states |
|---|---|---|
| SliceOps.RejectionError | frontend/frontend/src/redux/features/categorieSlice.js:91 | the recorded error is always truthy; it is the payload's message when that is truthy, else "Some Backend Error" |
| SliceOps.MapReplaceSpec | frontend/frontend/src/redux/features/categorieSlice.js:124-128 | the update map throws iff some item is nullish, or some item matches and the replacement throws; otherwise same length, every item whose key `===` id is the replacement, every other item unchanged, in place |
| SliceOps.FilterOutSpec | frontend/frontend/src/redux/features/categorieSlice.js:142-146 | the delete filter throws iff the list is non-empty and an item is nullish or the compared id throws; otherwise the result is an order-preserving subsequence, no survivor has the deleted key, and every item with another key keeps its multiplicity |
| SliceOps.FilterOutIdempotent | frontend/frontend/src/redux/features/depenseSlice.js:142 | deleting the same key a second time changes nothing |
| SliceOps.MapReplaceAfterFilterOut | frontend/frontend/src/redux/features/depenseSlice.js:118-144 | an update of a key right after its delete leaves the list as the delete left it |
| SliceOps.MapMergeSpec | frontend/frontend/src/redux/features/partenaireSlice.js:104-108 | the merging map throws iff the list is non-empty and an item, the payload or `payload.data` is nullish; otherwise same length, every item with the same `id` gets the payload's fields over its own other fields, every other item unchanged |
| JsValue.Merge | frontend/frontend/src/redux/features/partenaireSlice.js:106 | `{...a, ...b}`: b's fields win, a's other fields are kept |
| JsString.Split | frontend/frontend/src/redux/features/authSlice.js:45 | a split gives one more piece than there are separators, and no piece holds a separator |
| JsString.Substring | frontend/frontend/src/components/Depenses.js:371 | in-range bounds give exactly `s[start..end]`; an end past the string gives the suffix from start |
| JsString.ParseInt | frontend/frontend/src/components/Depenses.js:163 | `parseInt(s, 10)` of the empty string is NaN (see the three lemmas below for what it reads) |
| JsString.ParseIntSkipsSpace | frontend/frontend/src/components/Depenses.js:163 | leading white space does not change what `parseInt` reads |
| JsString.ParseIntOfDigits | frontend/frontend/src/components/Depenses.js:163 | a run of decimal digits reads as its value, and a minus sign before them negates it |
| JsValue.ToStr | frontend/frontend/src/redux/features/authSlice.js:90-92 | `String(v)`: a string is itself, a number its decimal rendering, null and undefined "null" and "undefined" (used again at Depenses.js:163) |
| AuthSlice.StoredItem | frontend/frontend/src/redux/features/authSlice.js:73-74 | `localStorage.getItem(k)` is the stored text iff the key is stored, null iff it is not, and truthy iff a non-empty text is stored |
| DepensesPage.FormComplete | frontend/frontend/src/components/Depenses.js:95-99 | a form that passes the guard is an object holding all three fields (so it cannot be null) |
| DepensesPage.Stretch | frontend/frontend/src/components/Depenses.js:359 | `slice(start, start + r)` holds at most r expenses, exactly those from `start` on, cut off at the end of the list |
| JsString.ParseIntOfIntToString | frontend/frontend/src/components/Depenses.js:163 | `parseInt(String(n), 10) == n` for every integer n of the model (integers are exact and rendered in plain decimal; see Left out) |
| CategorieSlice.State.constructor | frontend/frontend/src/redux/features/categorieSlice.js:70-75 | empty lists, empty error, not loading |
| CategorieSlice.State.SetError | frontend/frontend/src/redux/features/categorieSlice.js:77-79 | only `error` changes, to the payload |
| CategorieSlice.State.Pending | frontend/frontend/src/redux/features/categorieSlice.js:82-84 | every pending reducer (lines 82, 94, 105, 116, 134) sets only `loading`, to true |
| CategorieSlice.State.Rejected | frontend/frontend/src/redux/features/categorieSlice.js:89-92 | every rejected reducer (lines 89, 101, 112, 130, 148) clears `loading` and records the rejection error; the lists are untouched |
| CategorieSlice.State.CreateFulfilled | frontend/frontend/src/redux/features/categorieSlice.js:85-88 | `payload.data` is appended and earlier items stay; throws (state kept) iff the list is not an array or the payload is nullish |
| CategorieSlice.State.GetFulfilled | frontend/frontend/src/redux/features/categorieSlice.js:97-100 | the list becomes the payload; nothing but `loading` and the list changes |
| CategorieSlice.State.GetByIDFulfilled | frontend/frontend/src/redux/features/categorieSlice.js:108-111 | only `categorieByID` (and `loading`) change |
| CategorieSlice.State.UpdateFulfilled | frontend/frontend/src/redux/features/categorieSlice.js:119-129 | falsy id: list unchanged; otherwise the list is the `NomCat` map to `payload.categorie` (see MapReplaceSpec), and the state is kept when it throws |
| CategorieSlice.State.DeleteFulfilled | frontend/frontend/src/redux/features/categorieSlice.js:137-147 | falsy id: list unchanged; otherwise the list is the `NomCat` filter (see FilterOutSpec), and the state is kept when it throws |
| DepenseSlice.State.constructor | frontend/frontend/src/redux/features/depenseSlice.js:69-74 | empty lists, empty error, not loading |
| DepenseSlice.State.SetError | frontend/frontend/src/redux/features/depenseSlice.js:76-78 | only `error` changes, to the payload |
| DepenseSlice.State.Pending | frontend/frontend/src/redux/features/depenseSlice.js:81-83 | every pending reducer sets only `loading`, to true |
| DepenseSlice.State.Rejected | frontend/frontend/src/redux/features/depenseSlice.js:88-91 | every rejected reducer clears `loading` and records the rejection error |
| DepenseSlice.State.CreateFulfilled | frontend/frontend/src/redux/features/depenseSlice.js:84-87 | `payload.data` is appended; throws (state kept) iff the list is not an array or the payload is nullish |
| DepenseSlice.State.GetFulfilled | frontend/frontend/src/redux/features/depenseSlice.js:96-99 | `depenses` becomes the payload |
| DepenseSlice.State.GetByIDFulfilled | frontend/frontend/src/redux/features/depenseSlice.js:107-110 | only `depenseByID` (and `loading`) change |
| DepenseSlice.State.UpdateFulfilled | frontend/frontend/src/redux/features/depenseSlice.js:118-128 | falsy id: list unchanged; otherwise items with `iddepense === id` become the whole payload (MapReplace) |
| DepenseSlice.State.DeleteFulfilled | frontend/frontend/src/redux/features/depenseSlice.js:136-144 | falsy id: list unchanged; otherwise the `iddepense` filter (FilterOut) |
| FraisSlice.State.constructor | frontend/frontend/src/redux/features/fraisSlice.js:69-74 | empty lists, empty error, not loading |
| FraisSlice.State.SetError | frontend/frontend/src/redux/features/fraisSlice.js:76-78 | only `error` changes, to the payload |
| FraisSlice.State.Pending | frontend/frontend/src/redux/features/fraisSlice.js:81-83 | every pending reducer sets only `loading`, to true |
| FraisSlice.State.Rejected | frontend/frontend/src/redux/features/fraisSlice.js:88-91 | every rejected reducer clears `loading` and records the rejection error |
| FraisSlice.State.CreateFulfilled | frontend/frontend/src/redux/features/fraisSlice.js:84-87 | `payload.data` is appended; throws (state kept) iff the list is not an array or the payload is nullish |
| FraisSlice.State.GetFulfilled | frontend/frontend/src/redux/features/fraisSlice.js:96-99 | `frais` becomes the payload |
| FraisSlice.State.GetByIDFulfilled | frontend/frontend/src/redux/features/fraisSlice.js:107-110 | only `fraisByID` (and `loading`) change |
| FraisSlice.State.UpdateFulfilled | frontend/frontend/src/redux/features/fraisSlice.js:118-128 | falsy id: list unchanged; otherwise items with `Nom === id` become `payload.data` (MapReplace) |
| FraisSlice.State.DeleteFulfilled | frontend/frontend/src/redux/features/fraisSlice.js:136-144 | falsy id: list unchanged; otherwise the `Nom` filter (FilterOut) |
| PaimentSlice.State.constructor | frontend/frontend/src/redux/features/paimentSlice.js:92-97 | empty lists, empty error, not loading |
| PaimentSlice.State.SetError | frontend/frontend/src/redux/features/paimentSlice.js:99-101 | only `error` changes, to the payload |
| PaimentSlice.State.Pending | frontend/frontend/src/redux/features/paimentSlice.js:104-188 | every registered pending reducer sets `loading`; a pending `deletePaiment` (no reducer, line 186 repeats `payee.pending`) changes nothing |
| PaimentSlice.State.Rejected | frontend/frontend/src/redux/features/paimentSlice.js:111-114 | every rejected reducer (lines 111, 123, 134, 145, 163, 182, 198) clears `loading` and records the rejection error |
| PaimentSlice.State.CreateFulfilled | frontend/frontend/src/redux/features/paimentSlice.js:107-110 | `payload.data` is appended; throws (state kept) iff the list is not an array or the payload is nullish |
| PaimentSlice.State.GetFulfilled | frontend/frontend/src/redux/features/paimentSlice.js:119-122 | `paiment` becomes the payload |
| PaimentSlice.State.GetByUserFulfilled | frontend/frontend/src/redux/features/paimentSlice.js:141-144 | the same as `getPaiment.fulfilled`: `paiment` becomes the payload |
| PaimentSlice.State.GetByIDFulfilled | frontend/frontend/src/redux/features/paimentSlice.js:130-133 | only `paimentByID` (and `loading`) change |
| PaimentSlice.State.UpdateFulfilled | frontend/frontend/src/redux/features/paimentSlice.js:152-162 | falsy id: list unchanged; otherwise items with `idpaiment === id` become `payload.data` (MapReplace) |
| PaimentSlice.State.PayeeFulfilled | frontend/frontend/src/redux/features/paimentSlice.js:171-181 | the same transition as `updatePaiment.fulfilled` |
| PaimentSlice.State.DeleteFulfilled | frontend/frontend/src/redux/features/paimentSlice.js:189-197 | falsy id: list unchanged; otherwise the `idpaiment` filter (FilterOut) |
| UserSlice.State.constructor | frontend/frontend/src/redux/features/userSlice.js:70-75 | empty lists, empty error, not loading, no `currentPage` |
| UserSlice.State.SetError | frontend/frontend/src/redux/features/userSlice.js:77-79 | only `error` changes, to the payload |
| UserSlice.State.SetCurrentPage | frontend/frontend/src/redux/features/userSlice.js:80-82 | only `currentPage` changes, it is now present and holds the payload |
| UserSlice.State.Pending | frontend/frontend/src/redux/features/userSlice.js:85-87 | every pending reducer sets only `loading`, to true |
| UserSlice.State.Rejected | frontend/frontend/src/redux/features/userSlice.js:92-95 | `updateUser.rejected` (lines 132-135) records the raw payload, every other rejected reducer the rejection error; `loading` is cleared |
| UserSlice.State.AddFulfilled | frontend/frontend/src/redux/features/userSlice.js:88-91 | `payload.profile` is appended; throws (state kept) iff the list is not an array or the payload is nullish |
| UserSlice.State.GetFulfilled | frontend/frontend/src/redux/features/userSlice.js:99-102 | `users` becomes the payload |
| UserSlice.State.GetByIDFulfilled | frontend/frontend/src/redux/features/userSlice.js:110-113 | only `userByID` (and `loading`) change |
| UserSlice.State.UpdateFulfilled | frontend/frontend/src/redux/features/userSlice.js:121-131 | falsy id: list unchanged; otherwise users with `CIN === id` become the whole payload (MapReplace) |
| UserSlice.State.DeleteFulfilled | frontend/frontend/src/redux/features/userSlice.js:139-147 | falsy id: list unchanged; otherwise the `CIN` filter (FilterOut) |
| PartenaireSlice.State.constructor | frontend/frontend/src/redux/features/partenaireSlice.js:73-78 | empty lists, empty error, not loading |
| PartenaireSlice.State.SetError | frontend/frontend/src/redux/features/partenaireSlice.js:80-82 | only `error` changes, to the payload |
| PartenaireSlice.State.Pending | frontend/frontend/src/redux/features/partenaireSlice.js:85-87 | every pending reducer sets only `loading`, to true |
| PartenaireSlice.State.Rejected | frontend/frontend/src/redux/features/partenaireSlice.js:84-126 | no rejected reducer is registered: the state is unchanged, `loading` included |
| PartenaireSlice.State.CreateFulfilled | frontend/frontend/src/redux/features/partenaireSlice.js:88-91 | `payload.data` is appended; throws (state kept) iff the list is not an array or the payload is nullish |
| PartenaireSlice.State.GetAllFulfilled | frontend/frontend/src/redux/features/partenaireSlice.js:95-98 | `partenaires` becomes the payload |
| PartenaireSlice.State.GetByIDFulfilled | frontend/frontend/src/redux/features/partenaireSlice.js:122-125 | only `partenaireByID` (and `loading`) change |
| PartenaireSlice.State.UpdateFulfilled | frontend/frontend/src/redux/features/partenaireSlice.js:102-109 | the list is the `id` merge with `payload.data` (see MapMergeSpec); state kept when it throws |
| PartenaireSlice.State.DeleteFulfilled | frontend/frontend/src/redux/features/partenaireSlice.js:113-118 | the list is the filter on `id !== payload.data.id`, the id taken from the payload (see FilterOutSpec) |
| CaisseSlice.State.constructor | frontend/frontend/src/redux/features/caisseSlice.js:18-22 | empty cash box, empty error, not loading |
| CaisseSlice.State.SetError | frontend/frontend/src/redux/features/caisseSlice.js:24-26 | only `error` changes, to the payload |
| CaisseSlice.State.Pending | frontend/frontend/src/redux/features/caisseSlice.js:29-31 | only `loading` changes, to true |
| CaisseSlice.State.Fulfilled | frontend/frontend/src/redux/features/caisseSlice.js:32-35 | `caisse` becomes the payload, `loading` false |
| CaisseSlice.State.Rejected | frontend/frontend/src/redux/features/caisseSlice.js:36-39 | `loading` false and the rejection error recorded; `caisse` untouched |
| AuthSlice.ResetEmail | frontend/frontend/src/redux/features/authSlice.js:44-45 | the email is the longest slash-free suffix of the path: it holds no "/", ends the path, and is preceded by "/" unless it is the whole path |
| AuthSlice.ResetEmailOfLink | frontend/frontend/src/redux/features/authSlice.js:44-45 | a path ending in "/" followed by a slash-free email yields exactly that email |
| AuthSlice.State.constructor | frontend/frontend/src/redux/features/authSlice.js:69-75 | signed in iff a non-empty token is stored; the role is the stored role or null; no user, no error |
| AuthSlice.State.SetError | frontend/frontend/src/redux/features/authSlice.js:77-79 | only `error` changes, to the payload |
| AuthSlice.State.SetAuthenticated | frontend/frontend/src/redux/features/authSlice.js:80-82 | only `isAuthenticated` changes, to the payload |
| AuthSlice.State.Pending | frontend/frontend/src/redux/features/authSlice.js:85-87 | login, register, password and loadUser pending set `loading`; `Resetpassword` has no reducer and changes nothing |
| AuthSlice.State.LoginFulfilled | frontend/frontend/src/redux/features/authSlice.js:88-95 | signed in as the payload, with profile, token and role written to storage; a nullish payload throws after the profile write, so only that write survives |
| AuthSlice.State.RegisterFulfilled | frontend/frontend/src/redux/features/authSlice.js:103-106 | `user` becomes the payload; `isAuthenticated` is not changed |
| AuthSlice.State.PasswordFulfilled | frontend/frontend/src/redux/features/authSlice.js:114-117 | `user` becomes the payload; `isAuthenticated` is not changed |
| AuthSlice.State.LoadUserFulfilled | frontend/frontend/src/redux/features/authSlice.js:125-129 | signed in as the payload |
| AuthSlice.State.Rejected | frontend/frontend/src/redux/features/authSlice.js:96-135 | login, register and password record the rejection error and touch nothing else; loadUser signs out, clears storage and keeps the old error; `Resetpassword` changes nothing |
| DepensesPage.SliceIndex | frontend/frontend/src/components/Depenses.js:359 | a `slice` index lands in [0, n] and a non-negative one is clamped to n |
| DepensesPage.ArraySlice | frontend/frontend/src/components/Depenses.js:359 | for 0 <= start <= end, `slice` is the stretch between the two bounds clamped to the length |
| DepensesPage.Window | frontend/frontend/src/components/Depenses.js:357-360 | a non-positive or NaN count shows every expense; a positive count r shows at most r expenses, exactly those from index `page * r` on, cut off at the end of the list |
| DepensesPage.RowsPerPageOptionsPaginate | frontend/frontend/src/components/Depenses.js:158-165 | each selector choice comes back unchanged through `parseInt(String(o), 10)`; on the first page "Tout" (-1) shows the whole list and a positive choice o its first o expenses |
| DepensesPage.WindowCovers | frontend/frontend/src/components/Depenses.js:357-360 | with a positive count every expense appears, as row `i % r` of page `i / r` |
| DepensesPage.VisibleRows | frontend/frontend/src/components/Depenses.js:357-375 | a falsy list renders no row; a truthy non-array throws; an array renders iff every expense of the window renders, that is, it is not nullish, its description, amount and category are valid React children (no object, also inside an array), and its date cell does not throw |
| DepensesPage.RowsNumberedFromOne | frontend/frontend/src/components/Depenses.js:360-371 | whenever a page renders, its row numbers restart at 1; row k shows the expense at `page * r + k` and its formatted date |
| DepensesPage.FormatDate | frontend/frontend/src/components/Depenses.js:369-371 | the date cell renders iff `datedep` is a string with at least two dashes |
| DepensesPage.FormatIsoDate | frontend/frontend/src/components/Depenses.js:369-371 | the date cell of an ISO timestamp `YYYY-MM-DD…` is its first ten characters |
| DepensesPage.Page.constructor | frontend/frontend/src/components/Depenses.js:52-66 | first page, five rows per page, all popups closed, empty form, no selections |
| DepensesPage.Page.InputChange | frontend/frontend/src/components/Depenses.js:77-84 | the named form field becomes the value and the others are copied; the slice error is cleared |
| DepensesPage.Page.AddDepense | frontend/frontend/src/components/Depenses.js:86-91 | the add popup opens alone and the form data is reset to "" |
| DepensesPage.Page.AddDepenseSubmit | frontend/frontend/src/components/Depenses.js:93-115 | `createDepense` is dispatched iff all three fields are truthy and no string error is pending; a pending error returns early and leaves the popup open; a missing field toasts and records "Field can not be null"; otherwise the popup closes; at most one popup stays open |
| DepensesPage.Page.EditDepense | frontend/frontend/src/components/Depenses.js:117-127 | the expense becomes the selection and the form data; the edit popup opens alone only if a selection existed before the click |
| DepensesPage.Page.ConfirmEditDepense | frontend/frontend/src/components/Depenses.js:129-141 | with a selection, `updateDepense` is dispatched for its `iddepense` and the form fields; the edit popup closes |
| DepensesPage.Page.DeleteDepense | frontend/frontend/src/components/Depenses.js:143-148 | the expense becomes the selection to delete and the delete popup opens alone |
| DepensesPage.Page.ConfirmDeleteDepense | frontend/frontend/src/components/Depenses.js:150-156 | `deleteDepense` is dispatched for the selection's `iddepense` iff there is a selection; the delete popup always closes |
| DepensesPage.Page.CancelAdd | frontend/frontend/src/components/Depenses.js:222 | the add popup closes; at most one popup stays open |
| DepensesPage.Page.CancelEdit | frontend/frontend/src/components/Depenses.js:294 | the edit popup closes; at most one popup stays open |
| DepensesPage.Page.CancelDelete | frontend/frontend/src/components/Depenses.js:319 | the delete popup closes; at most one popup stays open |
| DepensesPage.Page.ChangePage | frontend/frontend/src/components/Depenses.js:159-161 | the page becomes the one asked for |
| DepensesPage.Page.ChangeRowsPerPage | frontend/frontend/src/components/Depenses.js:162-165 | the count becomes `parseInt` of the choice (a numeric choice such as -1 is kept as it is) and the page is reset to 0 |

## Left out

- The bodies of the `createAsyncThunk` thunks are not modelled: the axios calls, toasts, `navigate` and `window.location`. They matter here only as the source of pending, fulfilled and rejected actions, whose payloads are inputs.
- The `Resetpassword` thunk is modelled only through the email it extracts. The slice has no fulfilled reducer for it.
- Action ordering is not modelled. Async timing and the interleaving of dispatches are outside the model; actions are method calls in sequence.
- `action.meta.arg.id` is a parameter of the update and delete reducers. A missing `meta.arg`, which would throw in the destructuring, is not modelled.
- `JSON.stringify(action.payload)`, written to the profile entry, is the parameter `profileText`. JSON serialisation is not modelled.
- `===` on objects and arrays is modelled as structural equality, not reference identity. The keys compared in the source are strings and numbers, where the two agree.
- Numbers are unbounded, exact integers. Floating point, NaN as a value and `-0` are not modelled, except that `parseInt` returning NaN is `None`. Nor are the precision loss of integers above 2^53 and the exponent form `String()` gives for magnitudes of 1e21 and more (`String(1e21)` is "1e+21"). `JsValue.ToStr` and `JsString.ParseIntOfIntToString` therefore hold for plain decimal renderings only.
- Strings are sequences of Unicode scalar values, not of UTF-16 code units. `JsString.Substring` therefore counts a character outside the Basic Multilingual Plane as one position where JavaScript counts two, so the date cell of a `datedep` whose day piece starts with such a character can differ. Splitting on "-" or "/" and `parseInt` are not affected.
- `{...v}` of a non-empty string or of an array is not modelled: spreading either copies indexed elements. The source spreads objects and, after `handleAddDepense` has reset the form data to "", the empty string, which copies nothing; both cases are modelled.
- `JsString.IsSpace` covers ASCII white space, U+00A0, U+FEFF and the two line separators. The other Unicode space separators that `parseInt` also skips are not listed.
- The JSX and styling of `Depenses.js` are not modelled: the popup forms, the category drop-downs, the loading spinner, the leading space in the date cell, and the role check that hides the action buttons from residents. The same goes for the `useEffect` that dispatches `getDepense` and `getCategories` on mount.
- `stringErrorMessage` has no setter anywhere in the component, so it stays "". It is kept as a field so that the early return in `handleAddDepenseSubmit` is modelled.
- The Hedera ledger scripts under `backend/` are not modelled. `token_creation.js`, the wallet and signer helpers, `Login.js`, `api.js`, `store.js`, `App.js` and the other UI components are not modelled either. They are network, SDK or wiring code with no state logic of their own.
