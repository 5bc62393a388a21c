/** Tables as maps from primary key to row, and the two shapes of Spring Data
    finder the repositories declare: a `List<T>` finder (every row satisfying a
    condition, in no particular order) and an `Optional<T>` finder (at most one
    row, or an error when several match). */
module Store {
  import opened Wrappers

  /** `r` holds some of the rows of `t`, each under its own key and unchanged. */
  predicate SelectionOf<T(==)>(r: map<int, T>, t: map<int, T>) {
    forall id :: id in r ==> id in t && r[id] == t[id]
  }

  /** The rows of `t` that satisfy `p`. */
  function Where<T(==)>(t: map<int, T>, p: T -> bool): (r: map<int, T>)
    ensures SelectionOf(r, t)
    ensures forall id :: id in t ==> (id in r <==> p(t[id]))
  {
    map id | id in t && p(t[id]) :: t[id]
  }

  /** An `Optional<T>` finder: nothing when no row matches, the key of the only
      match, or `NonUniqueResult` when two or more rows match. */
  ghost function FindOne<T>(t: map<int, T>, p: T -> bool): (r: Result<Option<int>>)
    ensures r == Ok(None) <==> forall id :: id in t ==> !p(t[id])
    ensures r.Ok? && r.value.Some? ==>
      r.value.value in t && p(t[r.value.value]) &&
      forall id :: id in t && p(t[id]) ==> id == r.value.value
    ensures r.Err? ==>
      r.error == NonUniqueResult &&
      exists i, j :: i in t && j in t && i != j && p(t[i]) && p(t[j])
  {
    if forall id :: id in t ==> !p(t[id]) then Ok(None)
    else
      var id :| id in t && p(t[id]);
      if forall j :: j in t && p(t[j]) ==> j == id then Ok(Some(id))
      else Err(NonUniqueResult)
  }

  /** A set that is not empty has an element. */
  lemma SomeKey(keys: set<int>)
    ensures keys != {} ==> exists x :: x in keys
  {
    if forall y :: y !in keys {
      assert keys == {};
    }
  }

  /** A table that is not empty has a row. */
  lemma SomeRow<T>(t: map<int, T>)
    ensures t != map[] ==> exists k :: k in t
  {
    if forall k :: k !in t {
      assert t == map[];
    }
  }

  /** The least of a non-empty set of keys. */
  ghost function MinKey(keys: set<int>): (m: int)
    requires keys != {}
    ensures m in keys && forall j :: j in keys ==> m <= j
    decreases |keys|
  {
    SomeKey(keys);
    var x :| x in keys;
    if keys == {x} then x
    else
      var m := MinKey(keys - {x});
      assert forall j :: j in keys ==> j == x || j in keys - {x};
      if x < m then x else m
  }

  /** The least key of a non-empty table. */
  function LeastKey<T>(t: map<int, T>): (k: int)
    requires t != map[]
    ensures k in t && forall j :: j in t ==> k <= j
  {
    assert MinKey(t.Keys) in t;
    var k :| k in t && forall j :: j in t ==> k <= j;
    k
  }

  /** A `SUM` aggregate: `f` added up over the rows of `t`. */
  function Total<T>(t: map<int, T>, f: T -> real): real
    decreases |t.Keys|
  {
    if t == map[] then 0.0
    else
      var k := LeastKey(t);
      f(t[k]) + Total(t - {k}, f)
  }

  /** The sum does not depend on the order the rows are taken in: any row can
      be taken first. */
  lemma {:induction false} TotalRemove<T>(t: map<int, T>, f: T -> real, k: int)
    requires k in t
    ensures Total(t, f) == f(t[k]) + Total(t - {k}, f)
    decreases |t.Keys|
  {
    var m := LeastKey(t);
    if k != m {
      var t1, t2 := t - {m}, t - {k};
      TotalRemove(t1, f, k);
      assert m in t2;
      assert LeastKey(t2) == m;
      assert t1 - {k} == t2 - {m};
    }
  }

  /** Adding a row adds its value to the sum. */
  lemma TotalInsert<T>(t: map<int, T>, f: T -> real, k: int, v: T)
    requires k !in t
    ensures Total(t[k := v], f) == Total(t, f) + f(v)
  {
    TotalRemove(t[k := v], f, k);
    assert t[k := v] - {k} == t;
  }

  /** Replacing a row replaces its value in the sum. */
  lemma TotalUpdate<T>(t: map<int, T>, f: T -> real, k: int, v: T)
    requires k in t
    ensures Total(t[k := v], f) == Total(t, f) - f(t[k]) + f(v)
  {
    TotalRemove(t[k := v], f, k);
    TotalRemove(t, f, k);
    assert t[k := v] - {k} == t - {k};
  }
}
