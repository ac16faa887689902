/** The expressions the entity slices share: the error text of a rejected
    action, and the `map`/`filter` callbacks their update and delete case
    reducers run over the entity list. A result of None means that the
    JavaScript expression throws a TypeError. */
module SliceOps {
  import opened Wrappers
  import opened JsValue

  /** The error a rejected action records when its payload has no message. */
  const DefaultError := "Some Backend Error"

  /** `payload?.message || "Some Backend Error"`. */
  function RejectionError(payload: Value): (e: Value)
    ensures Truthy(e)
    ensures Truthy(OptionalField(payload, "message")) ==> e == OptionalField(payload, "message")
    ensures !Truthy(OptionalField(payload, "message")) ==> e == Str(DefaultError)
  {
    var message := OptionalField(payload, "message");
    if Truthy(message) then message else Str(DefaultError)
  }

  /** No element of the list is null or undefined, so reading a field of
      each element does not throw. */
  predicate NoNullish(xs: seq<Value>)
  {
    forall i :: 0 <= i < |xs| ==> !Nullish(xs[i])
  }

  /** `xs.map(item => item[key] === id ? repl : item)`, where `repl` is the
      replacement expression, evaluated at each match (None: it throws). */
  function MapReplace(xs: seq<Value>, key: string, id: Value, repl: Option<Value>): Option<seq<Value>>
  {
    if xs == [] then Some([])
    else if Nullish(xs[0]) || (Field(xs[0], key) == id && repl.None?) then None
    else
      match MapReplace(xs[1..], key, id, repl)
      case None => None
      case Some(rest) => Some([if Field(xs[0], key) == id then repl.value else xs[0]] + rest)
  }

  /** The update map throws exactly when an element is nullish, or when some
      element matches and the replacement throws; otherwise it keeps the
      length and the order, replaces every matching element and leaves every
      other element as it was. */
  lemma {:induction false} MapReplaceSpec(xs: seq<Value>, key: string, id: Value, repl: Option<Value>)
    ensures MapReplace(xs, key, id, repl).Some? <==>
      NoNullish(xs) && (repl.None? ==> forall i :: 0 <= i < |xs| ==> Field(xs[i], key) != id)
    ensures MapReplace(xs, key, id, repl).Some? ==>
      var r := MapReplace(xs, key, id, repl).value;
      && |r| == |xs|
      && forall i :: 0 <= i < |xs| ==> r[i] == if Field(xs[i], key) == id then repl.value else xs[i]
    decreases |xs|
  {
    if xs != [] {
      MapReplaceSpec(xs[1..], key, id, repl);
      var tail := MapReplace(xs[1..], key, id, repl);
      if NoNullish(xs) && (repl.None? ==> forall i :: 0 <= i < |xs| ==> Field(xs[i], key) != id) {
        assert NoNullish(xs[1..]);
        assert repl.None? ==> forall i :: 0 <= i < |xs[1..]| ==> Field(xs[1..][i], key) != id by {
          if repl.None? {
            forall i | 0 <= i < |xs[1..]| ensures Field(xs[1..][i], key) != id {
              assert xs[1..][i] == xs[i + 1];
            }
          }
        }
        var r := MapReplace(xs, key, id, repl).value;
        forall i | 0 <= i < |xs|
          ensures r[i] == if Field(xs[i], key) == id then repl.value else xs[i]
        {
          if i > 0 {
            assert r[i] == tail.value[i - 1];
            assert xs[1..][i - 1] == xs[i];
          }
        }
      } else if !NoNullish(xs) {
        var j :| 0 <= j < |xs| && Nullish(xs[j]);
        if j > 0 {
          assert xs[1..][j - 1] == xs[j];
        }
      } else {
        var j :| 0 <= j < |xs| && Field(xs[j], key) == id;
        if j > 0 {
          assert xs[1..][j - 1] == xs[j];
        }
      }
    }
  }

  /** `xs.filter(item => item[key] !== id)`, where `id` is the compared
      expression, evaluated for each element (None: it throws). */
  function FilterOut(xs: seq<Value>, key: string, id: Option<Value>): Option<seq<Value>>
  {
    if xs == [] then Some([])
    else if Nullish(xs[0]) || id.None? then None
    else
      match FilterOut(xs[1..], key, id)
      case None => None
      case Some(rest) => Some(if Field(xs[0], key) == id.value then rest else [xs[0]] + rest)
  }

  /** `r` is `xs` with some elements taken out and the rest in their order. */
  predicate IsSubsequence(r: seq<Value>, xs: seq<Value>)
    decreases |xs|
  {
    if r == [] then true
    else if xs == [] then false
    else if r[0] == xs[0] then IsSubsequence(r[1..], xs[1..])
    else IsSubsequence(r, xs[1..])
  }

  lemma {:induction false} SubsequenceCons(x: Value, r: seq<Value>, xs: seq<Value>)
    requires IsSubsequence(r, xs)
    ensures IsSubsequence([x] + r, [x] + xs)
  {
    assert ([x] + r)[1..] == r;
    assert ([x] + xs)[1..] == xs;
  }

  /** Putting an element in front of the list keeps a subsequence one. */
  lemma {:induction false} SubsequenceSkip(x: Value, r: seq<Value>, xs: seq<Value>)
    requires IsSubsequence(r, xs)
    ensures IsSubsequence(r, [x] + xs)
    decreases |xs|, 1
  {
    assert ([x] + xs)[1..] == xs;
    if r != [] && r[0] == x {
      SubsequenceTail(r, xs);
    }
  }

  /** Dropping the first element of a subsequence keeps it a subsequence. */
  lemma {:induction false} SubsequenceTail(r: seq<Value>, xs: seq<Value>)
    requires r != [] && IsSubsequence(r, xs)
    ensures IsSubsequence(r[1..], xs)
    decreases |xs|, 0
  {
    assert [xs[0]] + xs[1..] == xs;
    if r[0] == xs[0] {
      SubsequenceSkip(xs[0], r[1..], xs[1..]);
    } else {
      SubsequenceTail(r, xs[1..]);
      SubsequenceSkip(xs[0], r[1..], xs[1..]);
    }
  }

  /** The delete filter throws exactly when the list is non-empty and an
      element is nullish or the compared id throws. Otherwise the survivors
      are an order-preserving subsequence of the list, none of them has the
      deleted key, and every element with a different key survives as many
      times as it occurred. */
  lemma {:induction false} FilterOutSpec(xs: seq<Value>, key: string, id: Option<Value>)
    ensures FilterOut(xs, key, id).Some? <==> NoNullish(xs) && (xs != [] ==> id.Some?)
    ensures FilterOut(xs, key, id).Some? && xs != [] ==>
      var r := FilterOut(xs, key, id).value;
      && IsSubsequence(r, xs)
      && (forall i :: 0 <= i < |r| ==> Field(r[i], key) != id.value)
      && (forall x :: Field(x, key) != id.value ==> multiset(r)[x] == multiset(xs)[x])
    decreases |xs|
  {
    if xs != [] {
      FilterOutSpec(xs[1..], key, id);
      assert xs == [xs[0]] + xs[1..];
      if NoNullish(xs) && id.Some? {
        assert NoNullish(xs[1..]) by {
          forall i | 0 <= i < |xs[1..]| ensures !Nullish(xs[1..][i]) {
            assert xs[1..][i] == xs[i + 1];
          }
        }
        var rest := FilterOut(xs[1..], key, id).value;
        if xs[1..] == [] {
          assert rest == [];
        }
        assert IsSubsequence(rest, xs[1..]) by {
          if xs[1..] == [] { assert rest == []; }
        }
        var r := FilterOut(xs, key, id).value;
        if Field(xs[0], key) == id.value {
          assert r == rest;
          SubsequenceSkip(xs[0], rest, xs[1..]);
        } else {
          assert r == [xs[0]] + rest;
          SubsequenceCons(xs[0], rest, xs[1..]);
        }
      } else if !NoNullish(xs) {
        var j :| 0 <= j < |xs| && Nullish(xs[j]);
        if j > 0 {
          assert xs[1..][j - 1] == xs[j];
        }
      }
    }
  }

  /** Deleting twice deletes nothing more. */
  lemma {:induction false} FilterOutIdempotent(xs: seq<Value>, key: string, id: Value)
    requires FilterOut(xs, key, Some(id)).Some?
    ensures FilterOut(FilterOut(xs, key, Some(id)).value, key, Some(id)) == FilterOut(xs, key, Some(id))
    decreases |xs|
  {
    if xs != [] {
      FilterOutIdempotent(xs[1..], key, id);
      var rest := FilterOut(xs[1..], key, Some(id)).value;
      if Field(xs[0], key) != id {
        assert ([xs[0]] + rest)[1..] == rest;
      }
    }
  }

  /** After a delete, an update of the same key finds nothing to replace. */
  lemma {:induction false} MapReplaceAfterFilterOut(xs: seq<Value>, key: string, id: Value, repl: Option<Value>)
    requires FilterOut(xs, key, Some(id)).Some?
    ensures MapReplace(FilterOut(xs, key, Some(id)).value, key, id, repl) == FilterOut(xs, key, Some(id))
    decreases |xs|
  {
    if xs != [] {
      MapReplaceAfterFilterOut(xs[1..], key, id, repl);
      var rest := FilterOut(xs[1..], key, Some(id)).value;
      if Field(xs[0], key) != id {
        assert ([xs[0]] + rest)[1..] == rest;
      }
    }
  }

  /** `xs.map(p => p.id === data.id ? {...p, ...data} : p)`, where `data` is
      the value of `action.payload.data` (None: reading it throws) and
      `data.id` is evaluated for each element. */
  function MapMerge(xs: seq<Value>, data: Option<Value>): Option<seq<Value>>
  {
    if xs == [] then Some([])
    else if Nullish(xs[0]) || data.None? || Nullish(data.value) then None
    else
      match MapMerge(xs[1..], data)
      case None => None
      case Some(rest) =>
        Some([if Field(xs[0], "id") == Field(data.value, "id") then Merge(xs[0], data.value) else xs[0]] + rest)
  }

  /** The merging map throws exactly when the list is non-empty and an
      element or `payload.data` is nullish (or the payload itself is).
      Otherwise it keeps the length and order, merges `payload.data` into
      every element with the same `id` (the payload's fields win, the
      element's other fields stay) and leaves every other element alone. */
  lemma {:induction false} MapMergeSpec(xs: seq<Value>, data: Option<Value>)
    ensures MapMerge(xs, data).Some? <==>
      NoNullish(xs) && (xs != [] ==> data.Some? && !Nullish(data.value))
    ensures MapMerge(xs, data).Some? && xs != [] ==>
      var r := MapMerge(xs, data).value;
      && |r| == |xs|
      && forall i :: 0 <= i < |xs| ==>
           if Field(xs[i], "id") == Field(data.value, "id") then
             && r[i].Obj?
             && (forall k :: k in Own(data.value) ==> Field(r[i], k) == Field(data.value, k))
             && (forall k :: k !in Own(data.value) ==> Field(r[i], k) == Field(xs[i], k))
           else r[i] == xs[i]
    decreases |xs|
  {
    if xs != [] {
      MapMergeSpec(xs[1..], data);
      if NoNullish(xs) && data.Some? && !Nullish(data.value) {
        assert NoNullish(xs[1..]) by {
          forall i | 0 <= i < |xs[1..]| ensures !Nullish(xs[1..][i]) {
            assert xs[1..][i] == xs[i + 1];
          }
        }
        var r := MapMerge(xs, data).value;
        var d := data.value;
        forall i | 0 <= i < |xs|
          ensures if Field(xs[i], "id") == Field(d, "id") then
             && r[i].Obj?
             && (forall k :: k in Own(d) ==> Field(r[i], k) == Field(d, k))
             && (forall k :: k !in Own(d) ==> Field(r[i], k) == Field(xs[i], k))
           else r[i] == xs[i]
        {
          if i == 0 {
            assert r[0] == if Field(xs[0], "id") == Field(d, "id") then Merge(xs[0], d) else xs[0];
          } else {
            assert xs[1..][i - 1] == xs[i];
            assert r[i] == MapMerge(xs[1..], data).value[i - 1];
          }
        }
      } else if !NoNullish(xs) {
        var j :| 0 <= j < |xs| && Nullish(xs[j]);
        if j > 0 {
          assert xs[1..][j - 1] == xs[j];
        }
      }
    }
  }
}
