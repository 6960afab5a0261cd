/** Python's stable `sorted` with an integer key. */
module Sorting {
  function Insert<T>(x: T, s: seq<T>, key: T -> int): seq<T> {
    if |s| == 0 || key(x) <= key(s[0]) then [x] + s else [s[0]] + Insert(x, s[1..], key)
  }

  function Sort<T>(s: seq<T>, key: T -> int): seq<T> {
    if |s| == 0 then [] else Insert(s[0], Sort(s[1..], key), key)
  }

  ghost predicate Sorted<T(!new)>(s: seq<T>, key: T -> int) {
    forall i, j :: 0 <= i < j < |s| ==> key(s[i]) <= key(s[j])
  }

  ghost predicate Distinct<T(!new)>(s: seq<T>, key: T -> int) {
    forall i, j :: 0 <= i < j < |s| ==> key(s[i]) != key(s[j])
  }

  /** The elements with one key, in their order. */
  function AtKey<T>(s: seq<T>, key: T -> int, k: int): seq<T> {
    if |s| == 0 then [] else OnlyAt(s[0], key, k) + AtKey(s[1..], key, k)
  }

  function OnlyAt<T>(x: T, key: T -> int, k: int): seq<T> {
    if key(x) == k then [x] else []
  }

  // ---------------------------------------------------------------- insertion

  lemma {:induction false} InsertPermutes<T>(x: T, s: seq<T>, key: T -> int)
    ensures multiset(Insert(x, s, key)) == multiset{x} + multiset(s)
    decreases |s|
  {
    if |s| > 0 && key(x) > key(s[0]) {
      InsertPermutes(x, s[1..], key);
      assert s == [s[0]] + s[1..];
    }
  }

  /** What holds of the new element and of all others holds of all after the insertion. */
  lemma InsertKeeps<T(!new)>(x: T, s: seq<T>, key: T -> int, p: T -> bool)
    requires p(x) && forall i :: 0 <= i < |s| ==> p(s[i])
    ensures forall j :: 0 <= j < |Insert(x, s, key)| ==> p(Insert(x, s, key)[j])
  {
    var t := Insert(x, s, key);
    InsertPermutes(x, s, key);
    forall j | 0 <= j < |t| ensures p(t[j]) {
      assert t[j] in multiset(t);
      assert t[j] == x || t[j] in s;
    }
  }

  lemma {:induction false} InsertSorts<T(!new)>(x: T, s: seq<T>, key: T -> int)
    requires Sorted(s, key)
    ensures Sorted(Insert(x, s, key), key)
    decreases |s|
  {
    if |s| > 0 && key(x) > key(s[0]) {
      InsertSorts(x, s[1..], key);
      InsertKeeps(x, s[1..], key, y => key(s[0]) <= key(y));
    }
  }

  lemma {:induction false} InsertDistinct<T(!new)>(x: T, s: seq<T>, key: T -> int)
    requires Distinct(s, key) && forall i :: 0 <= i < |s| ==> key(s[i]) != key(x)
    ensures Distinct(Insert(x, s, key), key)
    decreases |s|
  {
    if |s| > 0 && key(x) > key(s[0]) {
      InsertDistinct(x, s[1..], key);
      InsertKeeps(x, s[1..], key, y => key(s[0]) != key(y));
    }
  }

  lemma AtCons<T>(x: T, s: seq<T>, key: T -> int, k: int)
    ensures AtKey([x] + s, key, k) == OnlyAt(x, key, k) + AtKey(s, key, k)
  {
    assert ([x] + s)[1..] == s;
  }

  /** A new element goes before the others with its key. */
  lemma {:induction false} InsertAt<T>(x: T, s: seq<T>, key: T -> int, k: int)
    ensures AtKey(Insert(x, s, key), key, k) == OnlyAt(x, key, k) + AtKey(s, key, k)
    decreases |s|
  {
    if |s| == 0 || key(x) <= key(s[0]) {
      AtCons(x, s, key, k);
    } else {
      var head, tail := s[0], s[1..];
      assert s == [head] + tail;
      AtCons(head, tail, key, k);
      AtCons(head, Insert(x, tail, key), key, k);
      InsertAt(x, tail, key, k);
      assert OnlyAt(head, key, k) == [] || OnlyAt(x, key, k) == [];
    }
  }

  // ---------------------------------------------------------------- sorting

  lemma {:induction false} SortPermutes<T>(s: seq<T>, key: T -> int)
    ensures multiset(Sort(s, key)) == multiset(s)
    decreases |s|
  {
    if |s| > 0 {
      SortPermutes(s[1..], key);
      InsertPermutes(s[0], Sort(s[1..], key), key);
      assert s == [s[0]] + s[1..];
    }
  }

  lemma {:induction false} SortSorts<T(!new)>(s: seq<T>, key: T -> int)
    ensures Sorted(Sort(s, key), key)
    decreases |s|
  {
    if |s| > 0 {
      SortSorts(s[1..], key);
      InsertSorts(s[0], Sort(s[1..], key), key);
    }
  }

  /** Sorting is stable. */
  lemma {:induction false} SortAt<T>(s: seq<T>, key: T -> int, k: int)
    ensures AtKey(Sort(s, key), key, k) == AtKey(s, key, k)
    decreases |s|
  {
    if |s| > 0 {
      SortAt(s[1..], key, k);
      InsertAt(s[0], Sort(s[1..], key), key, k);
    }
  }

  lemma {:induction false} SortDistinct<T(!new)>(s: seq<T>, key: T -> int)
    requires Distinct(s, key)
    ensures Distinct(Sort(s, key), key)
    decreases |s|
  {
    if |s| > 0 {
      var rest := Sort(s[1..], key);
      SortDistinct(s[1..], key);
      SortPermutes(s[1..], key);
      forall i | 0 <= i < |rest| ensures key(rest[i]) != key(s[0]) {
        assert rest[i] in multiset(rest);
        assert rest[i] in s[1..];
      }
      InsertDistinct(s[0], rest, key);
    }
  }

  // ---------------------------------------------------------------- a sorted list is determined key by key

  ghost predicate SameAtEachKey<T(!new)>(s: seq<T>, t: seq<T>, key: T -> int) {
    forall k :: AtKey(s, key, k) == AtKey(t, key, k)
  }

  lemma {:induction false} HeadAt<T(!new)>(s: seq<T>, key: T -> int, k: int)
    requires Sorted(s, key) && AtKey(s, key, k) != []
    ensures |s| > 0 && key(s[0]) <= k
    decreases |s|
  {
    if key(s[0]) != k {
      HeadAt(s[1..], key, k);
    }
  }

  lemma HeadOf<T>(s: seq<T>, key: T -> int)
    requires |s| > 0
    ensures AtKey(s, key, key(s[0])) != [] && AtKey(s, key, key(s[0]))[0] == s[0]
  {
  }

  lemma SameHead<T(!new)>(s: seq<T>, t: seq<T>, key: T -> int)
    requires Sorted(s, key) && Sorted(t, key) && SameAtEachKey(s, t, key) && |s| > 0
    ensures |t| > 0 && s[0] == t[0]
  {
    HeadOf(s, key);
    assert AtKey(t, key, key(s[0])) == AtKey(s, key, key(s[0]));
    HeadAt(t, key, key(s[0]));
    HeadOf(t, key);
    assert AtKey(s, key, key(t[0])) == AtKey(t, key, key(t[0]));
    HeadAt(s, key, key(t[0]));
  }

  lemma TailAt<T>(s: seq<T>, key: T -> int, k: int)
    requires |s| > 0
    ensures AtKey(s[1..], key, k) == if key(s[0]) == k then AtKey(s, key, k)[1..] else AtKey(s, key, k)
  {
    if key(s[0]) == k {
      assert AtKey(s, key, k) == [s[0]] + AtKey(s[1..], key, k);
    }
  }

  lemma SameTail<T(!new)>(s: seq<T>, t: seq<T>, key: T -> int)
    requires SameAtEachKey(s, t, key) && |s| > 0 && |t| > 0 && s[0] == t[0]
    ensures SameAtEachKey(s[1..], t[1..], key)
  {
    forall k ensures AtKey(s[1..], key, k) == AtKey(t[1..], key, k) {
      assert AtKey(s, key, k) == AtKey(t, key, k);
      TailAt(s, key, k);
      TailAt(t, key, k);
    }
  }

  /** Sorted lists are equal when they agree key by key. */
  lemma {:induction false} SortedUnique<T(!new)>(s: seq<T>, t: seq<T>, key: T -> int)
    requires Sorted(s, key) && Sorted(t, key) && SameAtEachKey(s, t, key)
    ensures s == t
    decreases |s|
  {
    if |s| > 0 {
      SameHead(s, t, key);
      SameTail(s, t, key);
      SortedUnique(s[1..], t[1..], key);
      assert s == [s[0]] + s[1..] && t == [t[0]] + t[1..];
    } else if |t| > 0 {
      SameHead(t, s, key);
    }
  }
}
