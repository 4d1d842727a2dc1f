/** Notions that several components share. */
module Basics {

  function Max(a: nat, b: nat): nat { if a > b then a else b }

  ghost predicate Distinct<T>(xs: seq<T>) {
    forall i, j :: 0 <= i < j < |xs| ==> xs[i] != xs[j]
  }

  /** Text order, character by character. */
  predicate TextBelow(a: string, b: string) {
    a == "" || (b != "" && (a[0] < b[0] || (a[0] == b[0] && TextBelow(a[1..], b[1..]))))
  }

  lemma {:induction false} TextOrder(a: string, b: string, c: string)
    ensures TextBelow(a, b) || TextBelow(b, a)
    ensures TextBelow(a, b) && TextBelow(b, a) ==> a == b
    ensures TextBelow(a, b) && TextBelow(b, c) ==> TextBelow(a, c)
  {
    if a != "" && b != "" {
      TextOrder(a[1..], b[1..], if c == "" then "" else c[1..]);
      if TextBelow(a, b) && TextBelow(b, a) { assert a == [a[0]] + a[1..] && b == [b[0]] + b[1..]; }
    }
  }

  /** The texts agree up to a place where the first has the smaller character. */
  ghost predicate Differs(a: string, b: string, i: nat) {
    i < |a| && i < |b| && a[..i] == b[..i] && a[i] < b[i]
  }

  /** A text comes before every longer one it begins, and where two differ first decides otherwise. */
  lemma {:induction false} TextBelowExactly(a: string, b: string)
    ensures TextBelow(a, b) <==> a <= b || exists i: nat :: Differs(a, b, i)
  {
    if a != "" && b != "" {
      TextBelowExactly(a[1..], b[1..]);
      assert a == [a[0]] + a[1..] && b == [b[0]] + b[1..];
      if a[0] == b[0] && TextBelow(a[1..], b[1..]) && !(a[1..] <= b[1..]) {
        var i: nat :| Differs(a[1..], b[1..], i);
        assert a[..i + 1] == [a[0]] + a[1..][..i] && b[..i + 1] == [b[0]] + b[1..][..i];
        assert Differs(a, b, i + 1);
      }
      if a[0] < b[0] { assert Differs(a, b, 0); }
      if i: nat :| Differs(a, b, i) {
        if i > 0 {
          assert a[..i][0] == a[0] && b[..i][0] == b[0];
          assert a[1..][..i - 1] == a[..i][1..] && b[1..][..i - 1] == b[..i][1..];
          assert Differs(a[1..], b[1..], i - 1);
        }
      }
    }
  }
}
