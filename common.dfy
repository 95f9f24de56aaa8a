/** Small shared datatypes: optional values and the valid/invalid verdict
    that every validator of the system returns. */
module Common {

  /** A value that may be absent (PHP `null`). */
  datatype Option<+T> = None | Some(value: T)

  /** The outcome of a validation step: either valid, or invalid with the
      user-facing message the source reports. */
  datatype Check = Valid | Invalid(error: string)

  /** A user, by identity. Users are looked up by the framework; the model
      only needs to tell them apart. */
  type UserId = nat

  function Max(a: int, b: int): int
  {
    if a >= b then a else b
  }

  function Min(a: int, b: int): int
  {
    if a <= b then a else b
  }

  /** The first element of `xs`, in order, that fails `ok`: the shape of the
      source's early-return loops over a list of required fields. */
  function FirstFailing<T>(xs: seq<T>, ok: T -> bool): (r: Option<T>)
    ensures r.None? <==> forall k :: 0 <= k < |xs| ==> ok(xs[k])
    ensures r.Some? ==> exists k :: 0 <= k < |xs| && xs[k] == r.value && !ok(xs[k])
                                    && forall j :: 0 <= j < k ==> ok(xs[j])
  {
    if xs == [] then None
    else if !ok(xs[0]) then Some(xs[0])
    else
      var r := FirstFailing(xs[1..], ok);
      assert r.Some? ==> exists k :: 1 <= k < |xs| && xs[k] == r.value && !ok(xs[k])
                                     && forall j :: 0 <= j < k ==> ok(xs[j]) by {
        if r.Some? {
          var k' :| 0 <= k' < |xs| - 1 && xs[1..][k'] == r.value && !ok(xs[1..][k'])
                    && forall j :: 0 <= j < k' ==> ok(xs[1..][j]);
          assert forall j :: 1 <= j < k' + 1 ==> ok(xs[j]) by {
            forall j | 1 <= j < k' + 1 ensures ok(xs[j]) { assert xs[j] == xs[1..][j - 1]; }
          }
        }
      }
      r
  }

  /** The first failing element is pinned down by the position where an
      early-return loop stops: every element before it passes, it fails. */
  lemma FirstFailingAt<T>(xs: seq<T>, ok: T -> bool, i: int)
    requires 0 <= i < |xs| && !ok(xs[i])
    requires forall j :: 0 <= j < i ==> ok(xs[j])
    ensures FirstFailing(xs, ok) == Some(xs[i])
  {
    var r := FirstFailing(xs, ok);
    assert r.Some?;
    var k :| 0 <= k < |xs| && xs[k] == r.value && !ok(xs[k]) && forall j :: 0 <= j < k ==> ok(xs[j]);
    assert k == i;
  }
}
