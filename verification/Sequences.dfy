// Sequences without repetition.
module Sequences {

  predicate Distinct<T(==)>(s: seq<T>) { forall i, j :: 0 <= i < j < |s| ==> s[i] != s[j] }

  ghost predicate Apart<T>(s: seq<T>, t: seq<T>) { forall i, j :: 0 <= i < |s| && 0 <= j < |t| ==> s[i] != t[j] }

  lemma DistinctCons<T>(x: T, s: seq<T>)
    requires Distinct(s) && forall i :: 0 <= i < |s| ==> s[i] != x
    ensures Distinct([x] + s)
  {
  }

  lemma DistinctConcat<T>(s: seq<T>, t: seq<T>)
    ensures Distinct(s + t) <==> Distinct(s) && Distinct(t) && Apart(s, t)
  {
    var u := s + t;
    if Distinct(u) {
      forall i, j | 0 <= i < j < |t| ensures t[i] != t[j] {
        assert t[i] == u[|s| + i] && t[j] == u[|s| + j];
      }
      forall i, j | 0 <= i < j < |s| ensures s[i] != s[j] {
        assert s[i] == u[i] && s[j] == u[j];
      }
      forall i, j | 0 <= i < |s| && 0 <= j < |t| ensures s[i] != t[j] {
        assert s[i] == u[i] && t[j] == u[|s| + j];
      }
    }
    if Distinct(s) && Distinct(t) && Apart(s, t) {
      forall i, j | 0 <= i < j < |u| ensures u[i] != u[j] {
        if j < |s| {
          assert u[i] == s[i] && u[j] == s[j];
        } else if i < |s| {
          assert u[i] == s[i] && u[j] == t[j - |s|];
        } else {
          assert u[i] == t[i - |s|] && u[j] == t[j - |s|];
        }
      }
    }
  }

  // Three parts, the outer two known to be in order: the middle one decides.
  lemma MiddleDecides<T>(s: seq<T>, m: seq<T>, t: seq<T>)
    requires Distinct(s) && Distinct(t) && Apart(s, m) && Apart(s, t) && Apart(m, t)
    ensures Distinct(s + m + t) <==> Distinct(m)
  {
    DistinctConcat(s, m);
    DistinctConcat(s + m, t);
    forall i, j | 0 <= i < |s + m| && 0 <= j < |t| ensures (s + m)[i] != t[j] {
      if i < |s| { assert (s + m)[i] == s[i]; } else { assert (s + m)[i] == m[i - |s|]; }
    }
  }
}
