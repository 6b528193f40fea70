/**
 * Generic relational tables: a table is the sequence of its rows, each row
 * carrying the automatic primary key `id` that every Django model has.
 * The functions here are the queryset operations the models rely on:
 * lookup by key (`Find` returns `None` where `.get(pk=…)` would raise
 * `DoesNotExist`), `.filter()`/`.exclude()` and `.order_by()`.
 */
module Tables {
  import opened Wrappers

  type Id = nat

  datatype Row<T> = Row(id: Id, val: T)

  /** The primary keys present in table `t`. */
  function Ids<T(==)>(t: seq<Row<T>>): set<Id>
  {
    set r | r in t :: r.id
  }

  /** The primary-key constraint: no two rows share an id. */
  predicate UniqueIds<T>(t: seq<Row<T>>)
  {
    forall i, j :: 0 <= i < j < |t| ==> t[i].id != t[j].id
  }

  /** The row with key `id`, if there is one. */
  function Find<T(==)>(t: seq<Row<T>>, id: Id): (r: Option<T>)
    ensures r.Some? <==> id in Ids(t)
    ensures r.Some? ==> Row(id, r.value) in t
  {
    if t == [] then None
    else if t[0].id == id then Some(t[0].val)
    else Find(t[1..], id)
  }

  /** The rows of `t` that satisfy `keep`, in table order. */
  function Where<T(==,!new)>(t: seq<Row<T>>, keep: Row<T> -> bool): (r: seq<Row<T>>)
    ensures forall x :: x in r <==> x in t && keep(x)
    ensures UniqueIds(t) ==> UniqueIds(r)
    ensures |r| <= |t|
  {
    if t == [] then []
    else
      var rest := Where(t[1..], keep);
      assert UniqueIds(t) ==> UniqueIds(t[1..]) by {
        if UniqueIds(t) {
          forall i, j | 0 <= i < j < |t[1..]| ensures t[1..][i].id != t[1..][j].id {
            assert t[1..][i] == t[i + 1] && t[1..][j] == t[j + 1];
          }
        }
      }
      if keep(t[0]) then
        assert UniqueIds(t) ==> t[0].id !in Ids(rest) by {
          if UniqueIds(t) {
            forall x | x in rest ensures x.id != t[0].id {
              var k :| 0 <= k < |t[1..]| && t[1..][k] == x;
              assert t[k + 1] == x;
            }
          }
        }
        [t[0]] + rest
      else rest
  }

  /** Filtering with a weaker condition first changes nothing. */
  lemma {:induction false} WhereWhere<T(!new)>(t: seq<Row<T>>, first: Row<T> -> bool, second: Row<T> -> bool)
    requires forall x :: second(x) ==> first(x)
    ensures Where(Where(t, first), second) == Where(t, second)
  {
    if t != [] {
      WhereWhere(t[1..], first, second);
    }
  }

  /** `s` is in ascending order of `key`. */
  predicate SortedBy<T>(s: seq<T>, key: T -> int)
  {
    forall i, j :: 0 <= i < j < |s| ==> key(s[i]) <= key(s[j])
  }

  /** Places `x` into the sorted sequence `s`, before every element whose key
      is at least `x`'s. */
  function InsertBy<T>(x: T, s: seq<T>, key: T -> int): seq<T>
  {
    if s == [] || key(x) <= key(s[0]) then [x] + s
    else [s[0]] + InsertBy(x, s[1..], key)
  }

  /** `.order_by(key)`: the rows of `s` in ascending order of `key`. */
  function SortBy<T>(s: seq<T>, key: T -> int): seq<T>
  {
    if s == [] then [] else InsertBy(s[0], SortBy(s[1..], key), key)
  }

  lemma {:induction false} InsertByPermutes<T>(x: T, s: seq<T>, key: T -> int)
    ensures multiset(InsertBy(x, s, key)) == multiset(s) + multiset{x}
  {
    if s != [] && key(x) > key(s[0]) {
      InsertByPermutes(x, s[1..], key);
      assert s == [s[0]] + s[1..];
    }
  }

  lemma {:induction false} InsertBySorted<T>(x: T, s: seq<T>, key: T -> int)
    requires SortedBy(s, key)
    ensures SortedBy(InsertBy(x, s, key), key)
  {
    if s != [] && key(x) > key(s[0]) {
      var rest := InsertBy(x, s[1..], key);
      InsertBySorted(x, s[1..], key);
      InsertByPermutes(x, s[1..], key);
      forall j | 0 <= j < |rest| ensures key(s[0]) <= key(rest[j]) {
        assert rest[j] in multiset(rest);
        if rest[j] != x {
          assert rest[j] in multiset(s[1..]);
          var k :| 0 <= k < |s[1..]| && s[1..][k] == rest[j];
          assert s[k + 1] == rest[j];
        }
      }
    }
  }

  /** Sorting yields an ascending permutation of its input. */
  lemma {:induction false} SortByCorrect<T>(s: seq<T>, key: T -> int)
    ensures SortedBy(SortBy(s, key), key)
    ensures multiset(SortBy(s, key)) == multiset(s)
  {
    if s != [] {
      SortByCorrect(s[1..], key);
      InsertBySorted(s[0], SortBy(s[1..], key), key);
      InsertByPermutes(s[0], SortBy(s[1..], key), key);
      assert s == [s[0]] + s[1..];
    }
  }
}
