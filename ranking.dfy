/**
 * The ordering both list pages use: `Array.prototype.sort` with the
 * comparator `(a, b) => key(b) - key(a)`, which is stable, so it puts the
 * highest key first and keeps equal keys in their original order; and the
 * `slice(0, 10)` and `slice(-10)` that take the first and the last ten.
 */
module Ranking {

  /** Highest key first. */
  ghost predicate NonIncreasing<T>(s: seq<T>, key: T -> int)
  {
    forall i, j :: 0 <= i < j < |s| ==> key(s[i]) >= key(s[j])
  }

  /** `x` placed into the ordered `s` after every element whose key is at least its own. */
  function Insert<T>(x: T, s: seq<T>, key: T -> int): (t: seq<T>)
    ensures |t| == |s| + 1
  {
    if s == [] then [x]
    else if key(s[0]) >= key(x) then [s[0]] + Insert(x, s[1..], key)
    else [x] + s
  }

  /** The stable descending sort: each element in turn is placed after the equal keys already placed. */
  function SortDesc<T>(s: seq<T>, key: T -> int): (t: seq<T>)
    ensures |t| == |s|
  {
    if s == [] then [] else Insert(s[|s| - 1], SortDesc(s[..|s| - 1], key), key)
  }

  /** `sorted.slice(0, 10)` */
  function Top10<T>(s: seq<T>): (t: seq<T>)
  {
    s[..if |s| < 10 then |s| else 10]
  }

  /** `sorted.slice(-10)` */
  function Bottom10<T>(s: seq<T>): (t: seq<T>)
  {
    s[if |s| < 10 then 0 else |s| - 10..]
  }

  lemma {:induction false} InsertKeeps<T>(x: T, s: seq<T>, key: T -> int)
    ensures multiset(Insert(x, s, key)) == multiset(s) + multiset{x}
    ensures forall y :: y in Insert(x, s, key) <==> y == x || y in s
  {
    if s != [] && key(s[0]) >= key(x) {
      InsertKeeps(x, s[1..], key);
      assert s == [s[0]] + s[1..];
    }
  }

  lemma {:induction false} InsertOrdered<T>(x: T, s: seq<T>, key: T -> int)
    requires NonIncreasing(s, key)
    ensures NonIncreasing(Insert(x, s, key), key)
  {
    if s != [] && key(s[0]) >= key(x) {
      InsertOrdered(x, s[1..], key);
      InsertBounded(x, s[1..], key, key(s[0]));
    }
  }

  /** Inserting keeps every key under a bound that `x` and all of `s` are under. */
  lemma {:induction false} InsertBounded<T>(x: T, s: seq<T>, key: T -> int, bound: int)
    requires key(x) <= bound && forall i :: 0 <= i < |s| ==> key(s[i]) <= bound
    ensures forall i :: 0 <= i < |s| + 1 ==> key(Insert(x, s, key)[i]) <= bound
  {
    if s != [] && key(s[0]) >= key(x) {
      InsertBounded(x, s[1..], key, bound);
    }
  }

  /** The sort is a permutation: every row keeps its number of occurrences. */
  lemma {:induction false} SortDescPermutes<T>(s: seq<T>, key: T -> int)
    ensures multiset(SortDesc(s, key)) == multiset(s)
  {
    if s != [] {
      var init := s[..|s| - 1];
      SortDescPermutes(init, key);
      InsertKeeps(s[|s| - 1], SortDesc(init, key), key);
      assert s == init + [s[|s| - 1]];
    }
  }

  /** The sort puts the highest key first. */
  lemma {:induction false} SortDescOrdered<T>(s: seq<T>, key: T -> int)
    ensures NonIncreasing(SortDesc(s, key), key)
  {
    if s != [] {
      SortDescOrdered(s[..|s| - 1], key);
      InsertOrdered(s[|s| - 1], SortDesc(s[..|s| - 1], key), key);
    }
  }

  /** An element whose key is at most every key of `s` goes to the end. */
  lemma {:induction false} InsertLast<T>(x: T, s: seq<T>, key: T -> int)
    requires forall i :: 0 <= i < |s| ==> key(s[i]) >= key(x)
    ensures Insert(x, s, key) == s + [x]
  {
    if s != [] {
      InsertLast(x, s[1..], key);
      assert s == [s[0]] + s[1..];
    }
  }

  /** A list already in order is left as it is, ties included: the sort is stable and idempotent. */
  lemma {:induction false} SortDescOfOrdered<T>(s: seq<T>, key: T -> int)
    requires NonIncreasing(s, key)
    ensures SortDesc(s, key) == s
  {
    if s != [] {
      var init := s[..|s| - 1];
      SortDescOfOrdered(init, key);
      InsertLast(s[|s| - 1], init, key);
      assert init + [s[|s| - 1]] == s;
    }
  }

  /**
   * The top list is the first `min(10, n)` entries and the bottom list the
   * last `min(10, n)`; with at most ten entries both are the whole list.
   */
  lemma Slices<T>(s: seq<T>)
    ensures |Top10(s)| == (if |s| < 10 then |s| else 10) && Top10(s) == s[..|Top10(s)|]
    ensures |Bottom10(s)| == (if |s| < 10 then |s| else 10) && Bottom10(s) == s[|s| - |Bottom10(s)|..]
    ensures |s| <= 10 ==> Top10(s) == s && Bottom10(s) == s
  {
  }

  /**
   * In an ordered list, every entry of the top ten has a key at least that of
   * every entry after it, and every entry of the bottom ten a key at most
   * that of every entry before it.
   */
  lemma SlicesRankFirstAndLast<T>(s: seq<T>, key: T -> int)
    requires NonIncreasing(s, key)
    ensures forall i, j :: 0 <= i < |Top10(s)| && |Top10(s)| <= j < |s| ==> key(Top10(s)[i]) >= key(s[j])
    ensures forall i, j :: 0 <= j < |s| - |Bottom10(s)| && 0 <= i < |Bottom10(s)| ==>
              key(s[j]) >= key(Bottom10(s)[i])
  {
    Slices(s);
    forall i, j | 0 <= j < |s| - |Bottom10(s)| && 0 <= i < |Bottom10(s)|
      ensures key(s[j]) >= key(Bottom10(s)[i])
    {
      assert Bottom10(s)[i] == s[|s| - |Bottom10(s)| + i];
    }
  }
}
