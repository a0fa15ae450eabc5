/** Order-preserving filtering: what a backward loop with in-place `splice` leaves of a list. */
module Seqs {

  /** The elements of `s` that satisfy `keep`, in their original order. */
  function Keep<T>(s: seq<T>, keep: T -> bool): (r: seq<T>)
    ensures |r| <= |s|
  {
    if s == [] then [] else (if keep(s[0]) then [s[0]] else []) + Keep(s[1..], keep)
  }

  /** Filtering distributes over concatenation: survivors keep their relative order. */
  lemma {:induction false} KeepAppend<T>(a: seq<T>, b: seq<T>, keep: T -> bool)
    ensures Keep(a + b, keep) == Keep(a, keep) + Keep(b, keep)
  {
    if a == [] {
      assert a + b == b;
    } else {
      var head := if keep(a[0]) then [a[0]] else [];
      assert (a + b)[0] == a[0];
      assert (a + b)[1..] == a[1..] + b;
      assert Keep(a + b, keep) == head + Keep(a[1..] + b, keep);
      KeepAppend(a[1..], b, keep);
      assert head + (Keep(a[1..], keep) + Keep(b, keep)) == (head + Keep(a[1..], keep)) + Keep(b, keep);
    }
  }

  /** Exactly the elements satisfying `keep` survive. */
  lemma {:induction false} KeepMembers<T>(s: seq<T>, keep: T -> bool, x: T)
    ensures x in Keep(s, keep) <==> x in s && keep(x)
  {
    if s != [] {
      KeepMembers(s[1..], keep, x);
      assert s == [s[0]] + s[1..];
    }
  }

  /** Overwriting the element between `a` and `b`. */
  lemma ReplaceAt<T>(a: seq<T>, x: T, b: seq<T>, y: T)
    ensures (a + ([x] + b))[|a| := y] == a + ([y] + b)
  {
    var s := a + ([x] + b);
    assert forall k :: 0 <= k < |s| ==> s[|a| := y][k] == (a + ([y] + b))[k];
  }

  /** `splice(i, 1)` of the element between `a` and `b`. */
  lemma RemoveAt<T>(a: seq<T>, x: T, b: seq<T>)
    ensures (a + ([x] + b))[..|a|] + (a + ([x] + b))[|a| + 1..] == a + b
  {
    var s := a + ([x] + b);
    assert s[..|a|] == a;
    assert s[|a| + 1..] == b;
  }
}
