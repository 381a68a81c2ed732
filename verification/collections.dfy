/** The three array idioms every child collection of a trip is edited with:
    `filter(x => x.id !== id)`, `map(x => x.id === id ? item : x)` and
    `find(x => x.id === id)`. Each is generic in the element type and takes
    the element's `id` accessor as `key`. */
module Collections {
  import opened Wrappers

  /** No two elements share a key. */
  ghost predicate UniqueKeys<T>(xs: seq<T>, key: T -> string) {
    forall i, j :: 0 <= i < j < |xs| ==> key(xs[i]) != key(xs[j])
  }

  /** Number of elements whose key is `id`. */
  function CountKey<T>(xs: seq<T>, key: T -> string, id: string): (n: nat)
    ensures n <= |xs|
  {
    if |xs| == 0 then 0
    else (if key(xs[0]) == id then 1 else 0) + CountKey(xs[1..], key, id)
  }

  /** `xs.filter(x => x.id !== id)`: exactly the elements whose key is not
      `id` survive, and the rest are dropped. */
  function RemoveById<T>(xs: seq<T>, key: T -> string, id: string): (r: seq<T>)
    ensures forall i :: 0 <= i < |r| ==> key(r[i]) != id && r[i] in xs
    ensures forall i :: 0 <= i < |xs| && key(xs[i]) != id ==> xs[i] in r
    ensures |r| == |xs| - CountKey(xs, key, id)
  {
    if |xs| == 0 then []
    else if key(xs[0]) != id then [xs[0]] + RemoveById(xs[1..], key, id)
    else RemoveById(xs[1..], key, id)
  }

  /** `xs.map(x => x.id === id ? item : x)`: every element keyed `id` becomes
      `item`, every other element stays where it was. */
  function ReplaceById<T>(xs: seq<T>, key: T -> string, id: string, item: T): (r: seq<T>)
    ensures |r| == |xs|
    ensures forall i :: 0 <= i < |xs| && key(xs[i]) == id ==> r[i] == item
    ensures forall i :: 0 <= i < |xs| && key(xs[i]) != id ==> r[i] == xs[i]
  {
    if |xs| == 0 then []
    else [if key(xs[0]) == id then item else xs[0]] + ReplaceById(xs[1..], key, id, item)
  }

  /** Position of the first element keyed `id` (`findIndex`), if any. */
  function FindIndex<T>(xs: seq<T>, key: T -> string, id: string): (r: Option<nat>)
    ensures r.Some? ==> r.value < |xs| && key(xs[r.value]) == id
    ensures r.Some? ==> forall j :: 0 <= j < r.value ==> key(xs[j]) != id
    ensures r.None? ==> forall j :: 0 <= j < |xs| ==> key(xs[j]) != id
  {
    if |xs| == 0 then None
    else if key(xs[0]) == id then Some(0)
    else match FindIndex(xs[1..], key, id)
      case None => None
      case Some(k) => Some(k + 1)
  }

  /** `xs.find(x => x.id === id)`. */
  function Find<T>(xs: seq<T>, key: T -> string, id: string): (r: Option<T>)
    ensures r.Some? <==> exists j :: 0 <= j < |xs| && key(xs[j]) == id
    ensures r.Some? ==> key(r.value) == id
    ensures r.Some? ==> FindIndex(xs, key, id).Some? && r.value == xs[FindIndex(xs, key, id).value]
  {
    match FindIndex(xs, key, id)
    case None => None
    case Some(k) => Some(xs[k])
  }

  /** Filtering distributes over concatenation, so the survivors keep their
      relative order. */
  lemma {:induction false} RemoveByIdConcat<T>(a: seq<T>, b: seq<T>, key: T -> string, id: string)
    ensures RemoveById(a + b, key, id) == RemoveById(a, key, id) + RemoveById(b, key, id)
  {
    if |a| == 0 {
      assert a + b == b;
    } else {
      assert (a + b)[0] == a[0];
      assert (a + b)[1..] == a[1..] + b;
      RemoveByIdConcat(a[1..], b, key, id);
      if key(a[0]) != id {
        var x, y := RemoveById(a[1..], key, id), RemoveById(b, key, id);
        assert [a[0]] + (x + y) == [a[0]] + x + y;
      }
    }
  }

  /** Removing an id nobody carries changes nothing. */
  lemma {:induction false} RemoveAbsentId<T>(xs: seq<T>, key: T -> string, id: string)
    requires forall j :: 0 <= j < |xs| ==> key(xs[j]) != id
    ensures RemoveById(xs, key, id) == xs
  {
    if |xs| > 0 {
      RemoveAbsentId(xs[1..], key, id);
    }
  }

  /** Removing twice is removing once. */
  lemma RemoveByIdIdempotent<T>(xs: seq<T>, key: T -> string, id: string)
    ensures RemoveById(RemoveById(xs, key, id), key, id) == RemoveById(xs, key, id)
  {
    RemoveAbsentId(RemoveById(xs, key, id), key, id);
  }

  /** Replacing an id nobody carries changes nothing. */
  lemma ReplaceAbsentId<T>(xs: seq<T>, key: T -> string, id: string, item: T)
    requires forall j :: 0 <= j < |xs| ==> key(xs[j]) != id
    ensures ReplaceById(xs, key, id, item) == xs
  {
  }

  /** With unique keys, replacing the id at position `k` is a point update. */
  lemma ReplaceUniqueId<T>(xs: seq<T>, key: T -> string, k: nat, item: T)
    requires UniqueKeys(xs, key)
    requires k < |xs|
    ensures ReplaceById(xs, key, key(xs[k]), item) == xs[k := item]
  {
  }

  /** Saving a form whose items are appended:
      `editingId ? xs.map(x => x.id === editingId ? item : x) : [...xs, item]`. */
  function SaveAppending<T>(xs: seq<T>, key: T -> string, editingId: Option<string>, item: T): (r: seq<T>)
    ensures !Truthy(editingId) ==> |r| == |xs| + 1 && r[..|xs|] == xs && r[|xs|] == item
    ensures Truthy(editingId) ==> r == ReplaceById(xs, key, editingId.value, item)
  {
    if Truthy(editingId) then ReplaceById(xs, key, editingId.value, item) else xs + [item]
  }

  /** Saving a form whose items are prepended:
      `editingId ? xs.map(x => x.id === editingId ? item : x) : [item, ...xs]`. */
  function SavePrepending<T>(xs: seq<T>, key: T -> string, editingId: Option<string>, item: T): (r: seq<T>)
    ensures !Truthy(editingId) ==> |r| == |xs| + 1 && r[0] == item && r[1..] == xs
    ensures Truthy(editingId) ==> r == ReplaceById(xs, key, editingId.value, item)
  {
    if Truthy(editingId) then ReplaceById(xs, key, editingId.value, item) else [item] + xs
  }

  /** An edit of an item that exists, in a list with unique ids, replaces
      that item in place and nothing else. */
  lemma EditReplacesInPlace<T>(xs: seq<T>, key: T -> string, k: nat, item: T)
    requires UniqueKeys(xs, key) && k < |xs| && key(xs[k]) != ""
    ensures SaveAppending(xs, key, Some(key(xs[k])), item) == xs[k := item]
    ensures SavePrepending(xs, key, Some(key(xs[k])), item) == xs[k := item]
  {
    ReplaceUniqueId(xs, key, k, item);
  }
}
