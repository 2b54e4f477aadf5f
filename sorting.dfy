/**
 * Python's `list.sort(key=...)` and `sorted(..., key=...)`: a stable sort.
 * The order is given as a total preorder `le` ("key of a <= key of b"); the
 * sort is insertion sort, whose result is the one permutation that is sorted
 * and keeps every group of equal keys in input order.
 */
module Sorting {

  /** `le` is total and transitive: it compares elements by a key. */
  ghost predicate TotalPreorder<T(!new)>(le: (T, T) -> bool)
  {
    && (forall a, b :: le(a, b) || le(b, a))
    && (forall a, b, c :: le(a, b) && le(b, c) ==> le(a, c))
  }

  /** Non-decreasing under `le`. */
  ghost predicate SortedBy<T>(s: seq<T>, le: (T, T) -> bool)
  {
    forall i, j :: 0 <= i < j < |s| ==> le(s[i], s[j])
  }

  /** The elements of `s` whose key equals the key of `p`, in their order in `s`. */
  function Ties<T>(s: seq<T>, p: T, le: (T, T) -> bool): seq<T>
  {
    if s == [] then []
    else (if le(s[0], p) && le(p, s[0]) then [s[0]] else []) + Ties(s[1..], p, le)
  }

  /** Places `x` in front of the first element it is not greater than. */
  function Insert<T>(x: T, s: seq<T>, le: (T, T) -> bool): seq<T>
  {
    if s == [] || le(x, s[0]) then [x] + s else [s[0]] + Insert(x, s[1..], le)
  }

  /** Stable sort of `s` by `le`. */
  function SortBy<T>(s: seq<T>, le: (T, T) -> bool): seq<T>
  {
    if s == [] then [] else Insert(s[0], SortBy(s[1..], le), le)
  }

  lemma {:induction false} InsertPermutes<T>(x: T, s: seq<T>, le: (T, T) -> bool)
    ensures multiset(Insert(x, s, le)) == multiset(s) + multiset{x}
  {
    if s != [] && !le(x, s[0]) {
      InsertPermutes(x, s[1..], le);
      assert s == [s[0]] + s[1..];
    }
  }

  lemma {:induction false} InsertSorted<T(!new)>(x: T, s: seq<T>, le: (T, T) -> bool)
    requires TotalPreorder(le) && SortedBy(s, le)
    ensures SortedBy(Insert(x, s, le), le)
  {
    if s == [] || le(x, s[0]) {
      var r := [x] + s;
      forall i, j | 0 <= i < j < |r| ensures le(r[i], r[j]) {
        if i == 0 && j > 1 {
          assert le(x, s[0]) && le(s[0], s[j - 1]);
        }
      }
    } else {
      var t := s[1..];
      InsertSorted(x, t, le);
      InsertPermutes(x, t, le);
      var u := Insert(x, t, le);
      var r := [s[0]] + u;
      assert le(s[0], x);
      forall j | 0 <= j < |u| ensures le(s[0], u[j]) {
        assert u[j] in multiset(u);
        if u[j] != x {
          assert u[j] in multiset(t);
          var k :| 0 <= k < |t| && t[k] == u[j];
          assert t[k] == s[k + 1];
        }
      }
      forall i, j | 0 <= i < j < |r| ensures le(r[i], r[j]) {
        if i == 0 {
          assert r[j] == u[j - 1];
        } else {
          assert r[i] == u[i - 1] && r[j] == u[j - 1];
        }
      }
    }
  }

  /**
   * Inserting `x` adds it to the ties of `p` at their front. The one fact of
   * the order this needs is transitivity through `p`: an element tied with `p`
   * is never placed after another one tied with `p`.
   */
  lemma {:induction false} InsertTies<T(!new)>(x: T, s: seq<T>, p: T, le: (T, T) -> bool)
    requires forall a :: le(x, p) && le(p, a) ==> le(x, a)
    ensures Ties(Insert(x, s, le), p, le)
         == (if le(x, p) && le(p, x) then [x] else []) + Ties(s, p, le)
  {
    if s == [] || le(x, s[0]) {
      TiesCons(x, s, p, le);
    } else {
      var t := Insert(x, s[1..], le);
      InsertTies(x, s[1..], p, le);
      TiesCons(s[0], t, p, le);
      assert s == [s[0]] + s[1..];
      TiesCons(s[0], s[1..], p, le);
      assert !(le(x, p) && le(p, s[0]));
    }
  }

  lemma TiesCons<T>(a: T, t: seq<T>, p: T, le: (T, T) -> bool)
    ensures Ties([a] + t, p, le) == (if le(a, p) && le(p, a) then [a] else []) + Ties(t, p, le)
  {
    assert ([a] + t)[1..] == t;
  }

  /**
   * The sort returns a permutation of its input, in non-decreasing key order,
   * in which elements with equal keys keep their input order.
   */
  lemma {:induction false} SortByCorrect<T(!new)>(s: seq<T>, le: (T, T) -> bool)
    requires TotalPreorder(le)
    ensures multiset(SortBy(s, le)) == multiset(s)
    ensures SortedBy(SortBy(s, le), le)
    ensures forall p :: Ties(SortBy(s, le), p, le) == Ties(s, p, le)
  {
    if s != [] {
      var t := SortBy(s[1..], le);
      SortByCorrect(s[1..], le);
      InsertPermutes(s[0], t, le);
      InsertSorted(s[0], t, le);
      assert s == [s[0]] + s[1..];
      forall p ensures Ties(SortBy(s, le), p, le) == Ties(s, p, le) {
        InsertTies(s[0], t, p, le);
      }
    }
  }
}
