// Shared vocabulary: a missing value, and the one fact about finite sets that
// the bounds in this project rest on.
module Options {
  datatype Option<+T> = None | Some(value: T)

  ghost predicate Distinct<T>(s: seq<T>) {
    forall i, j :: 0 <= i < j < |s| ==> s[i] != s[j]
  }

  // A list without repetitions drawn from a finite set is no longer than the set is large.
  lemma {:induction false} DistinctFits<T>(s: seq<T>, u: set<T>)
    requires Distinct(s)
    requires forall x :: x in s ==> x in u
    ensures |s| <= |u|
  {
    if s != [] {
      var last := s[|s| - 1];
      var init := s[..|s| - 1];
      forall x | x in init ensures x in u - {last} {
        assert x in s;
      }
      DistinctFits(init, u - {last});
    }
  }
}
