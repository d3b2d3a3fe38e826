/**
  Lists of records with a string id, updated the way both the structure store
  and the page's item list update them: map a merge over the records whose id
  matches, or filter out the records whose id matches. The id of a record is
  read through `key`, the merge is any total function on records.
*/
module Keyed {

  /** prev.map(x => key(x) === id ? merge(x) : x) */
  function UpdateById<T>(xs: seq<T>, key: T -> string, id: string, merge: T -> T): (r: seq<T>)
    ensures |r| == |xs|
    ensures forall k :: 0 <= k < |xs| && key(xs[k]) == id ==> r[k] == merge(xs[k])
    ensures forall k :: 0 <= k < |xs| && key(xs[k]) != id ==> r[k] == xs[k]
  {
    if xs == [] then []
    else
      var head := if key(xs[0]) == id then merge(xs[0]) else xs[0];
      var rest := UpdateById(xs[1..], key, id, merge);
      assert forall k :: 1 <= k < |xs| ==> xs[k] == xs[1..][k - 1];
      [head] + rest
  }

  /** prev.filter(x => key(x) !== id) */
  function RemoveById<T>(xs: seq<T>, key: T -> string, id: string): (r: seq<T>)
    ensures |r| <= |xs|
    ensures forall k :: 0 <= k < |r| ==> key(r[k]) != id && r[k] in xs
  {
    if xs == [] then []
    else if key(xs[0]) == id then RemoveById(xs[1..], key, id)
    else [xs[0]] + RemoveById(xs[1..], key, id)
  }

  /** Every record with another id survives the removal. */
  lemma {:induction false} RemoveByIdKeepsOthers<T>(xs: seq<T>, key: T -> string, id: string)
    ensures forall k :: 0 <= k < |xs| && key(xs[k]) != id ==> xs[k] in RemoveById(xs, key, id)
  {
    if xs != [] {
      RemoveByIdKeepsOthers(xs[1..], key, id);
      assert forall k :: 1 <= k < |xs| ==> xs[k] == xs[1..][k - 1];
    }
  }

  /** Removing from a concatenation removes from each part: the survivors keep their relative order. */
  lemma {:induction false} RemoveByIdDistributes<T>(a: seq<T>, b: seq<T>, key: T -> string, id: string)
    ensures RemoveById(a + b, key, id) == RemoveById(a, key, id) + RemoveById(b, key, id)
  {
    if a == [] {
      assert a + b == b;
    } else {
      assert (a + b)[1..] == a[1..] + b;
      RemoveByIdDistributes(a[1..], b, key, id);
    }
  }

  /** Removing an id no record carries changes nothing. */
  lemma {:induction false} RemoveByIdAbsent<T>(xs: seq<T>, key: T -> string, id: string)
    requires forall k :: 0 <= k < |xs| ==> key(xs[k]) != id
    ensures RemoveById(xs, key, id) == xs
  {
    if xs != [] {
      RemoveByIdAbsent(xs[1..], key, id);
    }
  }

  /** Removing the same id a second time removes nothing more. */
  lemma RemoveByIdIdempotent<T>(xs: seq<T>, key: T -> string, id: string)
    ensures RemoveById(RemoveById(xs, key, id), key, id) == RemoveById(xs, key, id)
  {
    RemoveByIdAbsent(RemoveById(xs, key, id), key, id);
  }

  /** Appending a record under an id not yet in use and then removing that id gives back the list before. */
  lemma AddThenRemove<T>(xs: seq<T>, x: T, key: T -> string)
    requires forall k :: 0 <= k < |xs| ==> key(xs[k]) != key(x)
    ensures RemoveById(xs + [x], key, key(x)) == xs
  {
    RemoveByIdDistributes(xs, [x], key, key(x));
    RemoveByIdAbsent(xs, key, key(x));
    assert [x][1..] == [];
  }

  /** Updating records that keep their id and then removing them is the same as removing them straight away. */
  lemma {:induction false} RemoveAfterUpdate<T>(xs: seq<T>, key: T -> string, id: string, merge: T -> T)
    requires forall x :: key(merge(x)) == key(x)
    ensures RemoveById(UpdateById(xs, key, id, merge), key, id) == RemoveById(xs, key, id)
  {
    if xs != [] {
      var r := UpdateById(xs, key, id, merge);
      assert r[1..] == UpdateById(xs[1..], key, id, merge);
      RemoveAfterUpdate(xs[1..], key, id, merge);
    }
  }
}
