/** What several modules say of numbers and sequences. */
module Collections {
  function Min(a: int, b: int): int {
    if a < b then a else b
  }

  function Max(a: int, b: int): int {
    if a < b then b else a
  }

  function Sum(s: seq<nat>): nat
    decreases |s|
  {
    if s == [] then 0 else Sum(s[..|s| - 1]) + s[|s| - 1]
  }

  lemma {:induction false} SumLast(s: seq<nat>, n: nat)
    ensures Sum(s + [n]) == Sum(s) + n
  {
    assert (s + [n])[..|s|] == s;
  }

  /** What holds at the start, and from one state to the next, holds of every state. */
  lemma {:induction false} Inductive<S>(states: seq<S>, good: S -> bool, k: nat)
    requires k < |states| && good(states[0])
    requires forall n: nat {:trigger states[n]} :: n + 1 < |states| && good(states[n]) ==> good(states[n + 1])
    ensures good(states[k])
    decreases k
  {
    if k == 0 {
    } else {
      var n: nat := k - 1;
      Inductive(states, good, n);
      assert good(states[n]);
    }
  }

  /** What holds of the first number, and with each of the next, holds of all up to the last. */
  lemma {:induction false} Ascending(good: nat -> bool, last: nat)
    requires good(0) && forall n: nat {:trigger good(n)} :: n < last && good(n) ==> good(n + 1)
    ensures forall k: nat :: k <= last ==> good(k)
    decreases last
  {
    if last == 0 {
    } else {
      var n: nat := last - 1;
      Ascending(good, n);
      assert good(n);
    }
  }

  predicate Distinct<T(==)>(s: seq<T>) {
    forall i, j :: 0 <= i < j < |s| ==> s[i] != s[j]
  }

  /** A sequence without its element at `i`. */
  function Without<T>(s: seq<T>, i: nat): (r: seq<T>)
    requires i < |s|
    ensures |r| == |s| - 1
    ensures forall j :: 0 <= j < |r| ==> r[j] == s[if j < i then j else j + 1]
  {
    s[..i] + s[i + 1..]
  }
}
