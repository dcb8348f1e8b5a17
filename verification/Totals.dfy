/** Sums of a weight over a sequence: counters and termination measures of the other modules. */
module Totals {

  function Total<T>(s: seq<T>, w: T -> nat): nat {
    if s == [] then 0 else w(s[0]) + Total(s[1..], w)
  }

  lemma {:induction false} TotalUpdate<T>(s: seq<T>, w: T -> nat, i: nat, x: T)
    requires i < |s|
    ensures Total(s[i := x], w) + w(s[i]) == Total(s, w) + w(x)
  {
    if i == 0 {
      assert s[i := x][1..] == s[1..];
    } else {
      assert s[i := x][1..] == s[1..][i - 1 := x];
      TotalUpdate(s[1..], w, i - 1, x);
    }
  }

  // A pointwise smaller (or equal) weighting has a smaller (or equal) total.
  lemma {:induction false} TotalMonotone<T, U>(s: seq<T>, v: T -> nat, t: seq<U>, w: U -> nat)
    requires |s| == |t|
    requires forall i :: 0 <= i < |s| ==> v(s[i]) <= w(t[i])
    ensures Total(s, v) <= Total(t, w)
  {
    if s != [] {
      assert forall i :: 0 <= i < |s[1..]| ==> s[1..][i] == s[i + 1] && t[1..][i] == t[i + 1];
      TotalMonotone(s[1..], v, t[1..], w);
    }
  }

  lemma TotalSame<T>(s: seq<T>, t: seq<T>, w: T -> nat)
    requires |s| == |t|
    requires forall i :: 0 <= i < |s| ==> w(s[i]) == w(t[i])
    ensures Total(s, w) == Total(t, w)
  {
    TotalMonotone(s, w, t, w);
    TotalMonotone(t, w, s, w);
  }

  lemma {:induction false} TotalAtLeast<T>(s: seq<T>, w: T -> nat, i: nat)
    requires i < |s|
    ensures w(s[i]) <= Total(s, w)
  {
    if i > 0 {
      TotalAtLeast(s[1..], w, i - 1);
    }
  }

  // A 0/1 weight counts: the total is the length exactly when every element counts.
  lemma {:induction false} TotalFull<T>(s: seq<T>, w: T -> nat)
    requires forall i :: 0 <= i < |s| ==> w(s[i]) <= 1
    ensures Total(s, w) <= |s|
    ensures Total(s, w) == |s| <==> forall i :: 0 <= i < |s| ==> w(s[i]) == 1
  {
    if s != [] {
      assert forall i :: 0 <= i < |s[1..]| ==> s[1..][i] == s[i + 1];
      TotalFull(s[1..], w);
      if Total(s, w) == |s| {
        forall i | 0 <= i < |s| ensures w(s[i]) == 1 {
          if i > 0 { assert s[i] == s[1..][i - 1]; }
        }
      }
    }
  }

  lemma {:induction false} TotalZero<T>(s: seq<T>, w: T -> nat)
    ensures Total(s, w) == 0 <==> forall i :: 0 <= i < |s| ==> w(s[i]) == 0
  {
    if s != [] {
      assert forall i :: 0 <= i < |s[1..]| ==> s[1..][i] == s[i + 1];
      TotalZero(s[1..], w);
      if Total(s, w) == 0 {
        forall i | 0 <= i < |s| ensures w(s[i]) == 0 {
          if i > 0 { assert s[i] == s[1..][i - 1]; }
        }
      }
    }
  }
}
