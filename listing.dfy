/**
 * Sorted query results. The store answers `find(...).sort(...)` with every
 * matching document, once each, in the order of the sort key; ties may come
 * in any order. Tasks are sorted by creation stamp descending, folders by
 * name ascending, comparing names code point by code point (the store's
 * binary string comparison).
 */
module Listing {
  import opened TaskModel

  /** Lexicographic order on strings, comparing code points. */
  predicate LexLe(a: string, b: string)
    decreases |a|
  {
    |a| == 0 || (|b| > 0 && (a[0] < b[0] || (a[0] == b[0] && LexLe(a[1..], b[1..]))))
  }

  lemma {:induction false} LexTotal(a: string, b: string)
    ensures LexLe(a, b) || LexLe(b, a)
    decreases |a|
  {
    if |a| > 0 && |b| > 0 && a[0] == b[0] {
      LexTotal(a[1..], b[1..]);
    }
  }

  lemma {:induction false} LexTransitive(a: string, b: string, c: string)
    requires LexLe(a, b) && LexLe(b, c)
    ensures LexLe(a, c)
    decreases |a|
  {
    if |a| > 0 && a[0] == b[0] && b[0] == c[0] {
      LexTransitive(a[1..], b[1..], c[1..]);
    }
  }

  /** Two names that sort before each other are the same name. */
  lemma {:induction false} LexAntisymmetric(a: string, b: string)
    requires LexLe(a, b) && LexLe(b, a)
    ensures a == b
    decreases |a|
  {
    if |a| > 0 {
      LexAntisymmetric(a[1..], b[1..]);
      assert a == [a[0]] + a[1..] && b == [b[0]] + b[1..];
    }
  }

  /** `before(x, y)` may place `x` ahead of `y` in a result. */
  ghost predicate TotalPreorder<V(!new)>(before: (V, V) -> bool) {
    && (forall x, y :: before(x, y) || before(y, x))
    && (forall x, y, z :: before(x, y) && before(y, z) ==> before(x, z))
  }

  /** `sort({ createdAt: -1 })`: newer tasks first. */
  predicate NewerOrSame(a: Task, b: Task) {
    a.created >= b.created
  }

  /** `sort({ name: 1 })`: folders by name, ascending. */
  predicate NameNotAfter(a: Folder, b: Folder) {
    LexLe(a.name, b.name)
  }

  lemma NewestFirstIsPreorder()
    ensures TotalPreorder(NewerOrSame)
  {
  }

  lemma ByNameIsPreorder()
    ensures TotalPreorder(NameNotAfter)
  {
    forall x: Folder, y: Folder ensures NameNotAfter(x, y) || NameNotAfter(y, x) {
      LexTotal(x.name, y.name);
    }
    forall x: Folder, y: Folder, z: Folder | NameNotAfter(x, y) && NameNotAfter(y, z)
      ensures NameNotAfter(x, z)
    {
      LexTransitive(x.name, y.name, z.name);
    }
  }

  /** `k` may come first among the documents `ids` of `m`. */
  ghost predicate IsFirst<V>(m: map<Id, V>, ids: set<Id>, before: (V, V) -> bool, k: Id) {
    k in ids && k in m && forall j | j in ids && j in m :: before(m[k], m[j])
  }

  lemma {:induction false} FirstExists<V(!new)>(m: map<Id, V>, ids: set<Id>, before: (V, V) -> bool)
    requires ids <= m.Keys && ids != {}
    requires TotalPreorder(before)
    ensures exists k :: IsFirst(m, ids, before, k)
    decreases |ids|
  {
    var x :| x in ids;
    if ids == {x} {
      assert IsFirst(m, ids, before, x);
    } else {
      FirstExists(m, ids - {x}, before);
      var y :| IsFirst(m, ids - {x}, before, y);
      if before(m[x], m[y]) {
        assert IsFirst(m, ids, before, x);
      } else {
        assert before(m[y], m[x]);
        assert IsFirst(m, ids, before, y);
      }
    }
  }

  /** What a sorted listing of the documents `ids` of `m` is. */
  ghost predicate Lists<V>(r: seq<(Id, V)>, m: map<Id, V>, ids: set<Id>, before: (V, V) -> bool) {
    && |r| == |ids|
    && (forall i | 0 <= i < |r| :: r[i].0 in ids && r[i].0 in m && r[i].1 == m[r[i].0])
    && (forall k | k in ids :: exists i | 0 <= i < |r| :: r[i].0 == k)
    && (forall i, j | 0 <= i < j < |r| :: r[i].0 != r[j].0)
    && (forall i, j | 0 <= i < j < |r| :: before(r[i].1, r[j].1))
  }

  /** A first document followed by a sorted listing of the others is a sorted listing. */
  lemma ListsCons<V>(m: map<Id, V>, ids: set<Id>, before: (V, V) -> bool, k: Id, rest: seq<(Id, V)>)
    requires IsFirst(m, ids, before, k)
    requires Lists(rest, m, ids - {k}, before)
    ensures Lists([(k, m[k])] + rest, m, ids, before)
  {
    var r := [(k, m[k])] + rest;
    assert forall i | 1 <= i < |r| :: r[i] == rest[i - 1];
    forall j | j in ids ensures exists i | 0 <= i < |r| :: r[i].0 == j {
      if j == k {
        assert r[0].0 == j;
      } else {
        assert j in ids - {k};
        var i' :| 0 <= i' < |rest| && rest[i'].0 == j;
        assert r[i' + 1].0 == j;
      }
    }
  }

  /**
   * The documents `ids` of `m`, each exactly once, ordered by `before`.
   */
  ghost function SortedBy<V(!new)>(m: map<Id, V>, ids: set<Id>, before: (V, V) -> bool): (r: seq<(Id, V)>)
    requires ids <= m.Keys
    requires TotalPreorder(before)
    ensures Lists(r, m, ids, before)
    decreases |ids|
  {
    if ids == {} then []
    else
      FirstExists(m, ids, before);
      var k :| IsFirst(m, ids, before, k);
      var rest := SortedBy(m, ids - {k}, before);
      ListsCons(m, ids, before, k, rest);
      [(k, m[k])] + rest
  }
}
