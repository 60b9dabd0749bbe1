/** `Array.prototype.find` specialised to "the element whose id equals `id`". */
module Lookup {
  import opened Wrappers

  /** Index of the first element whose key is `id`, if any. */
  function FindIndex<T>(xs: seq<T>, key: T -> string, id: string): (r: Option<nat>)
    ensures r.Some? ==> r.value < |xs| && key(xs[r.value]) == id
    ensures r.Some? ==> forall j :: 0 <= j < r.value ==> key(xs[j]) != id
    ensures r.None? ==> forall j :: 0 <= j < |xs| ==> key(xs[j]) != id
  {
    if |xs| == 0 then None
    else if key(xs[0]) == id then Some(0)
    else match FindIndex(xs[1..], key, id)
      case None => None
      case Some(i) => Some(i + 1)
  }

  /** The first element whose key is `id`; `None` plays the part of `undefined`. */
  function FindById<T>(xs: seq<T>, key: T -> string, id: string): (r: Option<T>)
    ensures r.Some? ==> r.value in xs && key(r.value) == id
    ensures r.None? <==> forall x :: x in xs ==> key(x) != id
  {
    match FindIndex(xs, key, id)
    case None => None
    case Some(i) => Some(xs[i])
  }

  /** The element `find` returns is the one at the first matching index. */
  lemma FindByIdIsFirst<T>(xs: seq<T>, key: T -> string, id: string)
    ensures FindIndex(xs, key, id).Some? <==> FindById(xs, key, id).Some?
    ensures FindIndex(xs, key, id).Some? ==>
      FindById(xs, key, id).value == xs[FindIndex(xs, key, id).value]
  {
  }

  /** When `xs[k]` is the only element with key `id`, `find` returns it. */
  lemma FindByIdUnique<T>(xs: seq<T>, key: T -> string, k: nat)
    requires k < |xs|
    requires forall j :: 0 <= j < |xs| && j != k ==> key(xs[j]) != key(xs[k])
    ensures FindById(xs, key, key(xs[k])) == Some(xs[k])
  {
    var r := FindIndex(xs, key, key(xs[k]));
    assert r.Some?;
  }
}
