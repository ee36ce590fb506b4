/** `ORDER BY key DESC` as SQLite evaluates it: larger keys first, NULL keys
    last. Rows with equal keys keep their stored order here. */
module Sorting {
  import opened Wrappers

  /** A row with key `a` may come before a row with key `b`. */
  predicate RanksBefore(a: Option<int>, b: Option<int>) {
    b.None? || (a.Some? && a.value >= b.value)
  }

  predicate SortedDesc<T>(s: seq<T>, key: T -> Option<int>) {
    forall i, j :: 0 <= i < j < |s| ==> RanksBefore(key(s[i]), key(s[j]))
  }

  /** The row with key `a` must come before the row with key `b`. */
  predicate RanksAbove(a: Option<int>, b: Option<int>) {
    RanksBefore(a, b) && !RanksBefore(b, a)
  }

  /** Places `x` before the first row that does not rank strictly above it,
      so `x` precedes the rows whose keys equal its own. */
  function Insert<T>(x: T, s: seq<T>, key: T -> Option<int>): (r: seq<T>)
    ensures |r| == |s| + 1
    ensures multiset(r) == multiset(s) + multiset{x}
    decreases |s|
  {
    if s == [] then [x]
    else if RanksAbove(key(s[0]), key(x)) then
      var rest := Insert(x, s[1..], key);
      assert s == [s[0]] + s[1..];
      [s[0]] + rest
    else
      assert s == [s[0]] + s[1..];
      [x] + s
  }

  /** The position at which `Insert` places `x`. */
  function InsertAt<T>(x: T, s: seq<T>, key: T -> Option<int>): (k: nat)
    ensures k <= |s|
    decreases |s|
  {
    if s == [] then 0
    else if RanksAbove(key(s[0]), key(x)) then 1 + InsertAt(x, s[1..], key)
    else 0
  }

  lemma ConsSplit<T>(s: seq<T>, k: nat, x: T)
    requires k < |s|
    ensures [s[0]] + (s[1..][..k] + [x] + s[1..][k..]) == s[..k + 1] + [x] + s[k + 1..]
  {
    assert s[..k + 1] == [s[0]] + s[1..][..k];
    assert s[k + 1..] == s[1..][k..];
  }

  lemma {:induction false} InsertSplits<T>(x: T, s: seq<T>, key: T -> Option<int>)
    ensures Insert(x, s, key) == s[..InsertAt(x, s, key)] + [x] + s[InsertAt(x, s, key)..]
    decreases |s|
  {
    if s == [] {
      assert s[..0] == [] && s[0..] == s;
    } else if RanksAbove(key(s[0]), key(x)) {
      var k := InsertAt(x, s[1..], key);
      InsertSplits(x, s[1..], key);
      ConsSplit(s, k, x);
      calc {
        Insert(x, s, key);
        [s[0]] + Insert(x, s[1..], key);
        [s[0]] + (s[1..][..k] + [x] + s[1..][k..]);
        s[..k + 1] + [x] + s[k + 1..];
        s[..InsertAt(x, s, key)] + [x] + s[InsertAt(x, s, key)..];
      }
    } else {
      assert s[..0] == [] && s[0..] == s;
    }
  }

  lemma {:induction false} InsertAtRanks<T>(x: T, s: seq<T>, key: T -> Option<int>)
    ensures forall i :: 0 <= i < InsertAt(x, s, key) ==> RanksAbove(key(s[i]), key(x))
    ensures InsertAt(x, s, key) < |s| ==> !RanksAbove(key(s[InsertAt(x, s, key)]), key(x))
    decreases |s|
  {
    if s != [] && RanksAbove(key(s[0]), key(x)) {
      var t := s[1..];
      var k := InsertAt(x, t, key);
      InsertAtRanks(x, t, key);
      forall i | 0 <= i < k + 1 ensures RanksAbove(key(s[i]), key(x)) {
        if i > 0 {
          assert s[i] == t[i - 1];
        }
      }
      if k < |t| {
        assert s[k + 1] == t[k];
      }
    }
  }

  /** `x` goes in after exactly the leading rows that rank strictly above
      it, so it precedes every row whose key ties with its own. */
  lemma InsertStable<T>(x: T, s: seq<T>, key: T -> Option<int>)
    ensures Insert(x, s, key) == s[..InsertAt(x, s, key)] + [x] + s[InsertAt(x, s, key)..]
    ensures forall i :: 0 <= i < InsertAt(x, s, key) ==> RanksAbove(key(s[i]), key(x))
    ensures InsertAt(x, s, key) < |s| ==> !RanksAbove(key(s[InsertAt(x, s, key)]), key(x))
  {
    InsertSplits(x, s, key);
    InsertAtRanks(x, s, key);
  }

  function SortDesc<T>(s: seq<T>, key: T -> Option<int>): (r: seq<T>)
    ensures |r| == |s|
    ensures multiset(r) == multiset(s)
    decreases |s|
  {
    if s == [] then []
    else
      assert s == [s[0]] + s[1..];
      Insert(s[0], SortDesc(s[1..], key), key)
  }

  lemma RanksBeforeTotal(a: Option<int>, b: Option<int>)
    ensures RanksBefore(a, b) || RanksBefore(b, a)
  {
  }

  lemma RanksBeforeTransitive(a: Option<int>, b: Option<int>, c: Option<int>)
    requires RanksBefore(a, b) && RanksBefore(b, c)
    ensures RanksBefore(a, c)
  {
  }

  lemma {:induction false} InsertSorted<T>(x: T, s: seq<T>, key: T -> Option<int>)
    requires SortedDesc(s, key)
    ensures SortedDesc(Insert(x, s, key), key)
    decreases |s|
  {
    if s != [] && RanksAbove(key(s[0]), key(x)) {
      var rest := Insert(x, s[1..], key);
      assert SortedDesc(s[1..], key) by {
        forall i, j | 0 <= i < j < |s[1..]| ensures RanksBefore(key(s[1..][i]), key(s[1..][j])) {
          assert s[1..][i] == s[i + 1] && s[1..][j] == s[j + 1];
        }
      }
      InsertSorted(x, s[1..], key);
      var r := [s[0]] + rest;
      forall j | 1 <= j < |r| ensures RanksBefore(key(s[0]), key(r[j])) {
        assert r[j] in multiset(rest);
        assert r[j] in multiset(s[1..]) + multiset{x};
        if r[j] in multiset(s[1..]) {
          var k :| 0 <= k < |s[1..]| && s[1..][k] == r[j];
          assert s[1..][k] == s[k + 1];
        }
      }
      forall i, j | 0 <= i < j < |r| ensures RanksBefore(key(r[i]), key(r[j])) {
        if i > 0 {
          assert r[i] == rest[i - 1] && r[j] == rest[j - 1];
        }
      }
    } else if s != [] {
      var r := [x] + s;
      RanksBeforeTotal(key(s[0]), key(x));
      forall i, j | 0 <= i < j < |r| ensures RanksBefore(key(r[i]), key(r[j])) {
        if i == 0 {
          assert r[j] == s[j - 1];
          if j > 1 {
            RanksBeforeTransitive(key(x), key(s[0]), key(s[j - 1]));
          }
        } else {
          assert r[i] == s[i - 1] && r[j] == s[j - 1];
        }
      }
    }
  }

  /** The sorted rows are in descending key order. */
  lemma {:induction false} SortDescSorted<T>(s: seq<T>, key: T -> Option<int>)
    ensures SortedDesc(SortDesc(s, key), key)
    decreases |s|
  {
    if s != [] {
      SortDescSorted(s[1..], key);
      InsertSorted(s[0], SortDesc(s[1..], key), key);
    }
  }
}
