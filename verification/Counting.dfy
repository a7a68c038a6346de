/** Sums of a weight over a sequence: the thread tables of every machine are counted with it. */
module Counting {

  /** The positive part of a counter. */
  function Max0(x: int): nat { if x > 0 then x else 0 }

  function Total<T>(w: T -> nat, s: seq<T>): nat {
    if s == [] then 0 else w(s[0]) + Total(w, s[1..])
  }

  /** Replacing one entry changes the total by exactly that entry's weight. */
  lemma {:induction false} TotalUpdate<T>(w: T -> nat, s: seq<T>, i: nat, v: T)
    requires i < |s|
    ensures Total(w, s[i := v]) + w(s[i]) == Total(w, s) + w(v)
  {
    if i == 0 {
      assert s[i := v][1..] == s[1..];
    } else {
      TotalUpdate(w, s[1..], i - 1, v);
      assert s[i := v][1..] == s[1..][i - 1 := v];
    }
  }

  lemma {:induction false} TotalAppend<T>(w: T -> nat, s: seq<T>, v: T)
    ensures Total(w, s + [v]) == Total(w, s) + w(v)
  {
    if s == [] {
      assert s + [v] == [v];
    } else {
      TotalAppend(w, s[1..], v);
      assert (s + [v])[1..] == s[1..] + [v];
    }
  }

  lemma {:induction false} TotalAtLeast<T>(w: T -> nat, s: seq<T>, i: nat)
    requires i < |s|
    ensures w(s[i]) <= Total(w, s)
  {
    if i != 0 {
      TotalAtLeast(w, s[1..], i - 1);
    }
  }

  lemma {:induction false} TotalOfTwo<T>(w: T -> nat, s: seq<T>, i: nat, j: nat)
    requires i < j < |s|
    ensures w(s[i]) + w(s[j]) <= Total(w, s)
  {
    if i == 0 {
      TotalAtLeast(w, s[1..], j - 1);
    } else {
      TotalOfTwo(w, s[1..], i - 1, j - 1);
    }
  }

  lemma {:induction false} TotalZero<T>(w: T -> nat, s: seq<T>)
    requires forall i :: 0 <= i < |s| ==> w(s[i]) == 0
    ensures Total(w, s) == 0
  {
    if s != [] {
      TotalZero(w, s[1..]);
    }
  }

  /** Taking one entry out lowers the total by exactly that entry's weight. */
  lemma {:induction false} TotalRemove<T>(w: T -> nat, s: seq<T>, i: nat)
    requires i < |s|
    ensures Total(w, s[..i] + s[i + 1..]) + w(s[i]) == Total(w, s)
  {
    if i == 0 {
      assert s[..i] + s[i + 1..] == s[1..];
    } else {
      TotalRemove(w, s[1..], i - 1);
      assert (s[..i] + s[i + 1..])[1..] == s[1..][..i - 1] + s[1..][i..];
    }
  }
}
