/** Images of finite sets, used for the backend's `stream().map(...).collect(...)` over unordered collections. */
module Sets {

  /** `f` never maps two different elements of `s` to the same value. */
  predicate InjectiveOn<A, B(==)>(s: set<A>, f: A -> B) {
    forall x, y :: x in s && y in s && f(x) == f(y) ==> x == y
  }

  /** `{ f(x) | x in s }`. */
  function Image<A, B(==)>(s: set<A>, f: A -> B): (r: set<B>)
    ensures forall x :: x in s ==> f(x) in r
    ensures forall y :: y in r ==> exists x :: x in s && f(x) == y
  {
    set x | x in s :: f(x)
  }

  /** An injective map loses no element: the image is exactly as large as the set. */
  lemma {:induction false} ImageOfInjectiveKeepsSize<A, B>(s: set<A>, f: A -> B)
    requires InjectiveOn(s, f)
    ensures |Image(s, f)| == |s|
    decreases |s|
  {
    if s != {} {
      var x :| x in s;
      var rest := s - {x};
      ImageOfInjectiveKeepsSize(rest, f);
      assert Image(s, f) == Image(rest, f) + {f(x)};
      assert f(x) !in Image(rest, f);
    }
  }

  /** A map never enlarges a set. */
  lemma {:induction false} ImageNoLarger<A, B>(s: set<A>, f: A -> B)
    ensures |Image(s, f)| <= |s|
    decreases |s|
  {
    if s != {} {
      var x :| x in s;
      var rest := s - {x};
      ImageNoLarger(rest, f);
      assert Image(s, f) == Image(rest, f) + {f(x)};
    }
  }

  /** Some element of a non-empty set. */
  lemma Pick<T>(s: set<T>) returns (x: T)
    requires s != {}
    ensures x in s
  {
    x :| x in s;
  }

  /** When every value carries its own key, a map has as many distinct values as keys. */
  lemma KeyedValuesCount<K, V>(m: map<K, V>, key: V -> K)
    requires forall k :: k in m ==> key(m[k]) == k
    ensures |m.Values| == |m.Keys|
  {
    assert InjectiveOn(m.Values, key) by {
      forall v, w | v in m.Values && w in m.Values && key(v) == key(w) ensures v == w {
        var kv :| kv in m && m[kv] == v;
        var kw :| kw in m && m[kw] == w;
      }
    }
    ImageOfInjectiveKeepsSize(m.Values, key);
    assert Image(m.Values, key) == m.Keys;
  }
}
