/**
 * What the overlay cards read from the static data lists:
 * `records.find(r => r.id === selected)`, where `selected` may be `null`
 * (no string id equals `null`), and the short list block of a card.
 */
module Lookup {
  import opened Wrappers

  /** No key occurs twice. */
  predicate Distinct<T(==)>(s: seq<T>)
  {
    forall i, j :: 0 <= i < j < |s| ==> s[i] != s[j]
  }

  /** True when some record has the key `id`. */
  predicate HasKey<T>(xs: seq<T>, key: T -> string, id: string)
  {
    exists i :: 0 <= i < |xs| && key(xs[i]) == id
  }

  /**
   * The index of the first record at or after `from` whose key is `id`.
   */
  function FindFrom<T>(xs: seq<T>, key: T -> string, id: string, from: nat): (r: Option<nat>)
    requires from <= |xs|
    ensures r.Some? ==> from <= r.value < |xs| && key(xs[r.value]) == id
    ensures r.Some? ==> forall j :: from <= j < r.value ==> key(xs[j]) != id
    ensures r.None? ==> forall j :: from <= j < |xs| ==> key(xs[j]) != id
    decreases |xs| - from
  {
    if from == |xs| then None
    else if key(xs[from]) == id then Some(from)
    else FindFrom(xs, key, id, from + 1)
  }

  /**
   * The index of the record `find` returns: the first one whose key equals
   * the selection, and none for a `null` selection or an unknown id.
   */
  function FindIndex<T>(xs: seq<T>, key: T -> string, selected: Option<string>): (r: Option<nat>)
    ensures r.Some? <==> selected.Some? && HasKey(xs, key, selected.value)
    ensures r.Some? ==> r.value < |xs| && key(xs[r.value]) == selected.value
    ensures r.Some? ==> forall j :: 0 <= j < r.value ==> key(xs[j]) != selected.value
  {
    match selected
    case None => None
    case Some(id) => FindFrom(xs, key, id, 0)
  }

  /** `find` itself: the record at `FindIndex`. */
  function Find<T>(xs: seq<T>, key: T -> string, selected: Option<string>): (r: Option<T>)
    ensures r.Some? <==> selected.Some? && HasKey(xs, key, selected.value)
    ensures r.Some? ==> r.value in xs && key(r.value) == selected.value
  {
    match FindIndex(xs, key, selected)
    case None => None
    case Some(i) => Some(xs[i])
  }

  /** With distinct keys, `find` returns exactly the record at the index holding the id. */
  lemma FindDistinct<T>(xs: seq<T>, key: T -> string, i: nat)
    requires i < |xs|
    requires forall a, b :: 0 <= a < b < |xs| ==> key(xs[a]) != key(xs[b])
    ensures Find(xs, key, Some(key(xs[i]))) == Some(xs[i])
  {
    var r := FindIndex(xs, key, Some(key(xs[i])));
    assert HasKey(xs, key, key(xs[i]));
    assert r.Some?;
  }

  /**
   * A card's list block, `xs && xs.length > 0 && xs.slice(0, 3)`: shown only
   * for a present, non-empty list, and then its first three items in order.
   */
  function Preview(xs: Option<seq<string>>): (r: Option<seq<string>>)
    ensures r.Some? <==> xs.Some? && |xs.value| > 0
    ensures r.Some? ==> |r.value| == (if |xs.value| < 3 then |xs.value| else 3)
    ensures r.Some? ==> forall k :: 0 <= k < |r.value| ==> r.value[k] == xs.value[k]
  {
    if xs.Some? && |xs.value| > 0 then
      Some(if |xs.value| < 3 then xs.value else xs.value[..3])
    else None
  }
}
