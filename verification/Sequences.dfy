/** What proofs by induction over rearranged sequences share. */
module Sequences {

  /** A rearrangement of `a` holds a's last element somewhere; without it, it rearranges the rest of `a`. */
  lemma LastIsSomewhere<T>(a: seq<T>, b: seq<T>) returns (before: seq<T>, after: seq<T>)
    requires a != [] && multiset(a) == multiset(b)
    ensures b == before + [a[|a| - 1]] + after
    ensures multiset(before + after) == multiset(a[..|a| - 1])
  {
    var last, rest := a[|a| - 1], a[..|a| - 1];
    assert a == rest + [last];
    assert last in multiset(b);
    var k :| 0 <= k < |b| && b[k] == last;
    before, after := b[..k], b[k + 1..];
    assert b == before + [last] + after;
    assert multiset(before + after) == multiset(b) - multiset{last} == multiset(rest);
  }
}
