/** Small vocabulary shared by the models: options, filters and maps over sequences. */
module Prelude {

  datatype Option<+T> = None | Some(value: T)

  function Lookup<K, V>(m: map<K, V>, k: K): Option<V> {
    if k in m then Some(m[k]) else None
  }

  function Bit(b: bool): nat {
    if b then 1 else 0
  }

  /** The elements of `s` that satisfy `p`, in order. */
  function Filter<T>(p: T -> bool, s: seq<T>): seq<T> {
    if |s| == 0 then []
    else
      var rest := Filter(p, s[..|s| - 1]);
      if p(s[|s| - 1]) then rest + [s[|s| - 1]] else rest
  }

  lemma InitAndLast<T>(s: seq<T>)
    requires |s| > 0
    ensures s[..|s| - 1] + [s[|s| - 1]] == s
    ensures multiset(s) == multiset(s[..|s| - 1]) + multiset{s[|s| - 1]}
  {
    assert s[..|s| - 1] + [s[|s| - 1]] == s;
  }

  lemma FilterSnoc<T>(p: T -> bool, s: seq<T>, x: T)
    ensures Filter(p, s + [x]) == if p(x) then Filter(p, s) + [x] else Filter(p, s)
  {
    assert (s + [x])[..|s|] == s;
  }

  lemma {:induction false} FilterConcat<T>(p: T -> bool, a: seq<T>, b: seq<T>)
    ensures Filter(p, a + b) == Filter(p, a) + Filter(p, b)
  {
    if |b| == 0 {
      assert a + b == a;
    } else {
      var b' := b[..|b| - 1];
      FilterConcat(p, a, b');
      FilterSnoc(p, a + b', b[|b| - 1]);
      assert a + b == (a + b') + [b[|b| - 1]];
    }
  }

  /** Whatever holds of all elements holds of the filtered ones, which also satisfy `p`. */
  lemma {:induction false} FilterAll<T>(p: T -> bool, q: T -> bool, s: seq<T>)
    requires forall i | 0 <= i < |s| :: q(s[i])
    ensures |Filter(p, s)| <= |s|
    ensures forall i | 0 <= i < |Filter(p, s)| :: q(Filter(p, s)[i]) && p(Filter(p, s)[i])
  {
    if |s| > 0 {
      FilterAll(p, q, s[..|s| - 1]);
    }
  }
}
