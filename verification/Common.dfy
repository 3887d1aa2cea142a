/** Small datatypes used by every part of the model. */
module Wrappers {
  datatype Option<+T> = None | Some(value: T)

  datatype Result<+T, +E> = Ok(value: T) | Err(error: E)
}

/** Sums of a measure over a sequence, updated one element at a time. */
module Sums {
  function Total<T>(s: seq<T>, f: T -> nat): (sum: nat)
  {
    if s == [] then 0 else f(s[0]) + Total(s[1..], f)
  }

  lemma {:induction false} TotalUpdate<T>(s: seq<T>, i: nat, x: T, f: T -> nat)
    requires i < |s|
    ensures Total(s[i := x], f) == Total(s, f) - f(s[i]) + f(x)
  {
    if i == 0 {
      assert s[i := x][1..] == s[1..];
    } else {
      assert s[i := x][1..] == s[1..][i - 1 := x];
      TotalUpdate(s[1..], i - 1, x, f);
    }
  }

  lemma {:induction false} TotalAtLeast<T>(s: seq<T>, i: nat, f: T -> nat)
    requires i < |s|
    ensures f(s[i]) <= Total(s, f)
  {
    if i > 0 {
      TotalAtLeast(s[1..], i - 1, f);
    }
  }

  lemma {:induction false} TotalZero<T>(s: seq<T>, f: T -> nat)
    requires forall i :: 0 <= i < |s| ==> f(s[i]) == 0
    ensures Total(s, f) == 0
  {
    if s != [] {
      forall i | 0 <= i < |s[1..]| ensures f(s[1..][i]) == 0 {
        assert s[1..][i] == s[i + 1];
      }
      TotalZero(s[1..], f);
    }
  }

  /** A sum of zeros and ones reaches the length only when no term is zero. */
  lemma {:induction false} TotalFull<T>(s: seq<T>, f: T -> nat)
    requires forall i :: 0 <= i < |s| ==> f(s[i]) <= 1
    ensures Total(s, f) <= |s|
    ensures Total(s, f) == |s| <==> forall i :: 0 <= i < |s| ==> f(s[i]) == 1
  {
    if s != [] {
      forall i | 0 <= i < |s[1..]| ensures f(s[1..][i]) == f(s[i + 1]) {}
      TotalFull(s[1..], f);
      if forall i :: 0 <= i < |s[1..]| ==> f(s[1..][i]) == 1 {
        forall i | 0 < i < |s| ensures f(s[i]) == 1 {
          assert s[i] == s[1..][i - 1];
        }
      } else {
        var j :| 0 <= j < |s[1..]| && f(s[1..][j]) != 1;
        assert f(s[j + 1]) != 1;
      }
    }
  }
}
