/** `RandomnessGenerator` of decoy_service/utils.py: uniform choice and
    shuffling. Each random draw is a nondeterministic choice within its
    range. */
module Randomness {
  import opened Values

  /** `get_random_element(items)`, i.e. `random.choice`, which raises
      IndexError on an empty list; that case answers None here. */
  method GetRandomElement<T>(items: seq<T>) returns (r: Option<T>)
    ensures r.None? <==> items == []
    ensures r.Some? ==> r.value in items
  {
    if items == [] {
      return None;
    }
    var i :| 0 <= i < |items|;
    r := Some(items[i]);
  }

  /** `shuffle_list(items)`: a copy of `items`, shuffled in place as
      `random.shuffle` does (from the last position down, each swapped with
      a position at or before it). The result holds exactly the elements of
      `items`, as many times each; `items` itself is a value and stays as
      it was. */
  method ShuffleList<T>(items: seq<T>) returns (shuffled: seq<T>)
    ensures |shuffled| == |items|
    ensures multiset(shuffled) == multiset(items)
  {
    var a := new T[|items|](k requires 0 <= k < |items| => items[k]);
    assert a[..] == items;
    var i := |items| - 1;
    while i > 0
      invariant i < |items|
      invariant multiset(a[..]) == multiset(items)
    {
      var j :| 0 <= j <= i;
      a[i], a[j] := a[j], a[i];
      i := i - 1;
    }
    shuffled := a[..];
  }
}
