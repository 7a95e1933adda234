/** Values shared by the inventory and the provisioning models. */
module Common {

  /** An optional value: a JSON key that may be absent, a lookup that may find nothing. */
  datatype Option<T> = None | Some(value: T) {

    /** Python's `d.get(key, default)`: the value when present, even an empty one. */
    function GetOr(default: T): T {
      match this
      case Some(v) => v
      case None => default
    }
  }

  /** Python's `x or default` on an optional string: a missing value and "" both fall back. */
  function OrElse(x: Option<string>, default: string): string {
    if x.Some? && x.value != "" then x.value else default
  }

  /** Python's truth value of an optional numeric id: `None` and `0` are both false. */
  predicate IsTruthyId(id: Option<int>) {
    id.Some? && id.value != 0
  }

  /** Index of the first element of `s` that satisfies `p`, or `|s|` when none does. */
  function FirstIndexWhere<T>(s: seq<T>, p: T -> bool): (i: nat)
    ensures i <= |s|
    ensures forall j :: 0 <= j < i ==> !p(s[j])
    ensures i < |s| ==> p(s[i])
  {
    if s == [] then 0
    else if p(s[0]) then 0
    else 1 + FirstIndexWhere(s[1..], p)
  }

  /** The concatenation of `f(x)` for every `x` of `s`, in order. */
  function FlatMap<A, B>(s: seq<A>, f: A -> seq<B>): seq<B> {
    if s == [] then [] else FlatMap(s[..|s| - 1], f) + f(s[|s| - 1])
  }

  lemma {:induction false} FlatMapAppend<A, B>(a: seq<A>, b: seq<A>, f: A -> seq<B>)
    ensures FlatMap(a + b, f) == FlatMap(a, f) + FlatMap(b, f)
    decreases |b|
  {
    if b == [] {
      assert a + b == a;
    } else {
      var b' := b[..|b| - 1];
      assert (a + b)[..|a + b| - 1] == a + b';
      FlatMapAppend(a, b', f);
    }
  }

  /** Cutting `s` at element `k` cuts its flat map at `f(s[k])`. */
  lemma FlatMapAt<A, B>(s: seq<A>, k: nat, f: A -> seq<B>)
    requires k < |s|
    ensures FlatMap(s, f) == FlatMap(s[..k], f) + f(s[k]) + FlatMap(s[k + 1..], f)
  {
    var front := s[..k + 1];
    assert s == front + s[k + 1..];
    FlatMapAppend(front, s[k + 1..], f);
    assert front[..k] == s[..k];
  }

  lemma FlatMapStep<A, B>(s: seq<A>, k: nat, f: A -> seq<B>)
    requires k < |s|
    ensures FlatMap(s[..k + 1], f) == FlatMap(s[..k], f) + f(s[k])
  {
    assert s[..k + 1][..k] == s[..k];
  }
}
