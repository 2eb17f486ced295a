/** The meaning of the Rust iterator adapters the selection code is built
    from (`find`, `max_by_key`, `filter_map(.. .ok())`), over sequences. */
module Iter {
  import opened Vk

  /** Index of the first element satisfying `p`, scanning from `from`. */
  function FindIndexFrom<T>(xs: seq<T>, p: T -> bool, from: nat): (r: Option<nat>)
    requires from <= |xs|
    ensures r.Some? ==> from <= r.value < |xs| && p(xs[r.value])
    ensures r.Some? ==> forall j :: from <= j < r.value ==> !p(xs[j])
    ensures r.None? ==> forall j :: from <= j < |xs| ==> !p(xs[j])
    decreases |xs| - from
  {
    if from == |xs| then None
    else if p(xs[from]) then Some(from)
    else FindIndexFrom(xs, p, from + 1)
  }

  /** `Iterator::find`: the first element satisfying `p`, if any. */
  function Find<T>(xs: seq<T>, p: T -> bool): (r: Option<T>)
    ensures r.Some? ==> p(r.value) && r.value in xs
    ensures r.Some? ==> exists k :: 0 <= k < |xs| && xs[k] == r.value && forall j :: 0 <= j < k ==> !p(xs[j])
    ensures r.None? <==> forall j :: 0 <= j < |xs| ==> !p(xs[j])
  {
    match FindIndexFrom(xs, p, 0)
    case None => None
    case Some(k) => Some(xs[k])
  }

  /** The index `Iterator::max_by_key` picks. Rust folds left and keeps the
      later element whenever its key is not smaller, so among several equal
      maxima the LAST one wins. */
  function MaxByKeyIndex<T>(xs: seq<T>, key: T -> int): (k: nat)
    requires |xs| > 0
    ensures k < |xs|
    ensures forall j :: 0 <= j < |xs| ==> key(xs[j]) <= key(xs[k])
    ensures forall j :: k < j < |xs| ==> key(xs[j]) < key(xs[k])
  {
    if |xs| == 1 then 0
    else
      var best := MaxByKeyIndex(xs[..|xs| - 1], key);
      if key(xs[best]) <= key(xs[|xs| - 1]) then |xs| - 1 else best
  }

  /** `Iterator::max_by_key`: `None` exactly for an empty iterator. */
  function MaxByKey<T>(xs: seq<T>, key: T -> int): (r: Option<T>)
    ensures r.None? <==> |xs| == 0
    ensures r.Some? ==> r.value in xs && forall j :: 0 <= j < |xs| ==> key(xs[j]) <= key(r.value)
  {
    if |xs| == 0 then None else Some(xs[MaxByKeyIndex(xs, key)])
  }

  /** `filter_map(|x| f(x).ok())`: the successful results, in order. */
  function Successes<T>(rs: seq<Result<T>>): (out: seq<T>)
    ensures |out| <= |rs|
    ensures forall i :: 0 <= i < |out| ==> Ok(out[i]) in rs
    ensures forall i :: 0 <= i < |rs| && rs[i].Ok? ==> rs[i].value in out
  {
    if |rs| == 0 then []
    else
      var init := Successes(rs[..|rs| - 1]);
      assert rs == rs[..|rs| - 1] + [rs[|rs| - 1]];
      match rs[|rs| - 1]
      case Ok(x) => init + [x]
      case Err(_) => init
  }

  /** Order preservation of `Successes`: filtering a concatenation is the
      concatenation of the filtered parts. */
  lemma {:induction false} SuccessesAppend<T>(a: seq<Result<T>>, b: seq<Result<T>>)
    ensures Successes(a + b) == Successes(a) + Successes(b)
    decreases |b|
  {
    if |b| == 0 {
      assert a + b == a;
    } else {
      var b' := b[..|b| - 1];
      assert (a + b)[..|a + b| - 1] == a + b';
      SuccessesAppend(a, b');
    }
  }
}
