/**
 * The stable descending sort behind `sorted(..., key=..., reverse=True)`, over any key
 * function: an insertion sort that keeps entries with equal keys in input order.
 */
module StableSort {

  /** Keys never increase along the sequence. */
  ghost predicate Descending<T>(key: T -> nat, s: seq<T>)
  {
    forall a, b | 0 <= a < b < |s| :: key(s[a]) >= key(s[b])
  }

  /**
   * One insertion step: `x` goes in front of the first entry with a smaller key, so
   * after every entry whose key is at least its own.
   */
  function Insert<T>(key: T -> nat, x: T, s: seq<T>): (r: seq<T>)
    ensures |r| == |s| + 1
  {
    if s == [] then [x]
    else if key(x) > key(s[0]) then [x] + s
    else [s[0]] + Insert(key, x, s[1..])
  }

  lemma {:induction false} InsertPermutes<T>(key: T -> nat, x: T, s: seq<T>)
    ensures multiset(Insert(key, x, s)) == multiset(s) + multiset{x}
  {
    if s != [] && key(x) <= key(s[0]) {
      InsertPermutes(key, x, s[1..]);
      assert s == [s[0]] + s[1..];
    }
  }

  /** Inserting an entry whose key is at most `m` into entries whose keys are at most `m`. */
  lemma {:induction false} InsertBounded<T>(key: T -> nat, x: T, s: seq<T>, m: nat)
    requires key(x) <= m && forall j | 0 <= j < |s| :: key(s[j]) <= m
    ensures forall j | 0 <= j < |Insert(key, x, s)| :: key(Insert(key, x, s)[j]) <= m
  {
    if s != [] && key(x) <= key(s[0]) {
      InsertBounded(key, x, s[1..], m);
      var tail := Insert(key, x, s[1..]);
      assert forall j | 1 <= j < |tail| + 1 :: ([s[0]] + tail)[j] == tail[j - 1];
    }
  }

  lemma {:induction false} InsertDescending<T>(key: T -> nat, x: T, s: seq<T>)
    requires Descending(key, s)
    ensures Descending(key, Insert(key, x, s))
  {
    if s != [] && key(x) <= key(s[0]) {
      var tail := Insert(key, x, s[1..]);
      assert Descending(key, s[1..]);
      InsertDescending(key, x, s[1..]);
      InsertBounded(key, x, s[1..], key(s[0]));
      var r := [s[0]] + tail;
      assert r == Insert(key, x, s);
      assert forall j | 1 <= j < |r| :: r[j] == tail[j - 1];
    }
  }

  /** The trades sorted by descending key, inserting them in input order. */
  function SortDesc<T>(key: T -> nat, ts: seq<T>): (r: seq<T>)
    ensures |r| == |ts|
  {
    if |ts| == 0 then [] else Insert(key, ts[|ts| - 1], SortDesc(key, ts[..|ts| - 1]))
  }

  /** The sort is a permutation. */
  lemma {:induction false} SortPermutes<T>(key: T -> nat, ts: seq<T>)
    ensures multiset(SortDesc(key, ts)) == multiset(ts)
  {
    if |ts| > 0 {
      assert ts == ts[..|ts| - 1] + [ts[|ts| - 1]];
      SortPermutes(key, ts[..|ts| - 1]);
      InsertPermutes(key, ts[|ts| - 1], SortDesc(key, ts[..|ts| - 1]));
    }
  }

  lemma {:induction false} SortDescending<T>(key: T -> nat, ts: seq<T>)
    ensures Descending(key, SortDesc(key, ts))
  {
    if |ts| > 0 {
      SortDescending(key, ts[..|ts| - 1]);
      InsertDescending(key, ts[|ts| - 1], SortDesc(key, ts[..|ts| - 1]));
    }
  }

  /** The entries with key `k`, in order. */
  function WithKey<T>(key: T -> nat, s: seq<T>, k: nat): seq<T>
  {
    if s == [] then [] else (if key(s[0]) == k then [s[0]] else []) + WithKey(key, s[1..], k)
  }

  lemma WithKeyCons<T>(key: T -> nat, h: T, t: seq<T>, k: nat)
    ensures WithKey(key, [h] + t, k) == (if key(h) == k then [h] else []) + WithKey(key, t, k)
  {
    assert ([h] + t)[0] == h && ([h] + t)[1..] == t;
  }

  lemma {:induction false} WithKeyConcat<T>(key: T -> nat, a: seq<T>, b: seq<T>, k: nat)
    ensures WithKey(key, a + b, k) == WithKey(key, a, k) + WithKey(key, b, k)
  {
    if a == [] {
      assert a + b == b;
    } else {
      assert a == [a[0]] + a[1..];
      assert a + b == [a[0]] + (a[1..] + b);
      WithKeyConcat(key, a[1..], b, k);
      WithKeyCons(key, a[0], a[1..] + b, k);
      WithKeyCons(key, a[0], a[1..], k);
    }
  }

  /** A descending sequence whose first key is below `k` has no entry with key `k`. */
  lemma {:induction false} WithKeyAbove<T>(key: T -> nat, s: seq<T>, k: nat)
    requires Descending(key, s) && s != [] && key(s[0]) < k
    ensures WithKey(key, s, k) == []
  {
    if |s| > 1 {
      assert Descending(key, s[1..]);
      WithKeyAbove(key, s[1..], k);
    }
  }

  lemma {:induction false} InsertWithKey<T>(key: T -> nat, x: T, s: seq<T>, k: nat)
    requires Descending(key, s)
    ensures WithKey(key, Insert(key, x, s), k) == WithKey(key, s, k) + (if key(x) == k then [x] else [])
  {
    if s == [] {
      assert Insert(key, x, s) == [x] + [];
      WithKeyCons(key, x, [], k);
    } else if key(x) > key(s[0]) {
      assert Insert(key, x, s) == [x] + s;
      WithKeyCons(key, x, s, k);
      if key(x) == k {
        WithKeyAbove(key, s, k);
      }
    } else {
      var rest := s[1..];
      assert Descending(key, rest);
      InsertWithKey(key, x, rest, k);
      assert Insert(key, x, s) == [s[0]] + Insert(key, x, rest);
      WithKeyCons(key, s[0], Insert(key, x, rest), k);
      assert s == [s[0]] + rest;
      WithKeyCons(key, s[0], rest, k);
    }
  }

  /** Entries that share a key keep their input order. */
  lemma {:induction false} SortIsStable<T>(key: T -> nat, ts: seq<T>, k: nat)
    ensures WithKey(key, SortDesc(key, ts), k) == WithKey(key, ts, k)
  {
    if |ts| > 0 {
      var init, last := ts[..|ts| - 1], ts[|ts| - 1];
      assert ts == init + [last];
      SortIsStable(key, init, k);
      SortDescending(key, init);
      InsertWithKey(key, last, SortDesc(key, init), k);
      WithKeyConcat(key, init, [last], k);
    }
  }
}
