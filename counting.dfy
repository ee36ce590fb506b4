/** Counting dicts, `m[k] = m.get(k, 0) + 1` over a sequence of keys, as
    the access analyser and the assessment statistics build them. */
module Counting {
  /** `m[k] = m.get(k, 0) + 1` */
  function Bump(m: map<string, nat>, k: string): map<string, nat>
  {
    m[k := (if k in m then m[k] else 0) + 1]
  }

  /** The counting dict a sequence of keys produces. */
  function Tally(s: seq<string>): map<string, nat> {
    if s == [] then map[] else Bump(Tally(s[..|s| - 1]), s[|s| - 1])
  }

  function Occurrences(s: seq<string>, k: string): (r: nat)
    ensures r <= |s|
  {
    if s == [] then 0 else Occurrences(s[..|s| - 1], k) + (if s[|s| - 1] == k then 1 else 0)
  }

  /** Every key seen is counted, with its number of occurrences, and
      nothing else is. */
  lemma {:induction false} TallyCounts(s: seq<string>)
    ensures forall k :: k in Tally(s) <==> k in s
    ensures forall k :: k in Tally(s) ==> Tally(s)[k] == Occurrences(s, k)
    ensures Tally(s).Keys == set k | k in s
    decreases |s|
  {
    if s != [] {
      var init := s[..|s| - 1];
      TallyCounts(init);
      assert s == init + [s[|s| - 1]];
      forall k ensures k in Tally(s) <==> k in s {
        assert k in s <==> k in init || k == s[|s| - 1];
      }
      forall k | k in Tally(s) ensures Tally(s)[k] == Occurrences(s, k) {
        if k != s[|s| - 1] {
          assert k in init;
        } else if k !in init {
          OccurrencesAbsent(init, k);
        }
      }
    }
  }

  lemma {:induction false} OccurrencesAbsent(s: seq<string>, k: string)
    requires k !in s
    ensures Occurrences(s, k) == 0
    decreases |s|
  {
    if s != [] {
      assert forall j :: j in s[..|s| - 1] ==> j in s;
      OccurrencesAbsent(s[..|s| - 1], k);
    }
  }

  /** Counting one more key bumps its count. */
  lemma TallySnoc(s: seq<string>, k: string)
    ensures Tally(s + [k]) == Bump(Tally(s), k)
  {
    assert (s + [k])[..|s|] == s;
  }

  /** The distinct keys in order of first appearance, which is the order of
      a counting dict's keys. */
  function Distinct(s: seq<string>): (r: seq<string>)
    ensures forall k :: k in r <==> k in s
    decreases |s|
  {
    if s == [] then []
    else
      var init := Distinct(s[..|s| - 1]);
      var last := s[|s| - 1];
      assert forall k :: k in s <==> k in s[..|s| - 1] || k == last;
      if last in init then init else init + [last]
  }

  predicate NoDuplicates(s: seq<string>) {
    forall i, j :: 0 <= i < j < |s| ==> s[i] != s[j]
  }

  lemma {:induction false} DistinctHasNoDuplicates(s: seq<string>)
    ensures NoDuplicates(Distinct(s))
    decreases |s|
  {
    if s != [] {
      DistinctHasNoDuplicates(s[..|s| - 1]);
    }
  }

  /** The sum of the counts of the given keys; a missing key counts 0. */
  function SumCounts(keys: seq<string>, m: map<string, nat>): nat
    decreases |keys|
  {
    if keys == [] then 0
    else
      var k := keys[|keys| - 1];
      SumCounts(keys[..|keys| - 1], m) + (if k in m then m[k] else 0)
  }

  /** Bumping a key adds one to a sum over distinct keys that holds it and
      nothing to one that does not. */
  lemma {:induction false} SumCountsBump(keys: seq<string>, m: map<string, nat>, k: string)
    requires NoDuplicates(keys)
    ensures SumCounts(keys, Bump(m, k)) == SumCounts(keys, m) + (if k in keys then 1 else 0)
    decreases |keys|
  {
    if keys != [] {
      var init := keys[..|keys| - 1];
      assert NoDuplicates(init);
      SumCountsBump(init, m, k);
      assert k in keys <==> k in init || k == keys[|keys| - 1];
    }
  }

  /** The counts of a counting dict add up to the number of keys counted. */
  lemma {:induction false} TallySum(s: seq<string>)
    ensures SumCounts(Distinct(s), Tally(s)) == |s|
    decreases |s|
  {
    if s != [] {
      var init, last := s[..|s| - 1], s[|s| - 1];
      TallySum(init);
      DistinctHasNoDuplicates(init);
      var keys := Distinct(init);
      SumCountsBump(keys, Tally(init), last);
      if last !in keys {
        assert (keys + [last])[..|keys|] == keys;
        TallyCounts(init);
        assert last !in Tally(init);
      }
    }
  }
}
