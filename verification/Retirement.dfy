/**
 A current value and the bounded list of the values it superseded. Source scopes
 (src/store/evidence_store.cpp:93-116) and link generations (src/store/link_registry.cpp:142-181)
 keep this discipline: a value never seen, or forgotten, becomes current; a retained one is refused.
 */
module Retirement {

  /** The last `n` elements, as erasing from the front leaves them. */
  function KeepLast<T>(s: seq<T>, n: nat): seq<T> {
    if |s| > n then s[|s| - n..] else s
  }

  /** Erases from the front until at most `bound` elements are left. */
  method Trim<T>(s: seq<T>, bound: nat) returns (r: seq<T>)
    ensures r == KeepLast(s, bound)
  {
    r := s;
    while |r| > bound
      invariant |r| >= bound || r == s
      invariant |r| <= |s| && r == s[|s| - |r|..]
    {
      r := r[1..];
    }
  }

  /** `current` and `retired` are exactly the last adopted value and the last `bound` before it. */
  ghost predicate Records<T(!new)>(has: bool, current: T, retired: seq<T>, adopted: seq<T>, bound: nat) {
    && has == (adopted != [])
    && (adopted == [] ==> retired == [])
    && (adopted != [] ==>
          && current == adopted[|adopted| - 1]
          && retired == KeepLast(adopted[..|adopted| - 1], bound))
  }

  /** No value is adopted again while it is among the last `bound` superseded ones. */
  ghost predicate NoEarlyReturn<T(!new)>(adopted: seq<T>, bound: nat) {
    forall i, j | 0 <= i < j < |adopted| && j - i <= bound :: adopted[i] != adopted[j]
  }

  /** Bounded, free of duplicates and without the current value. */
  ghost predicate WellFormed<T(!new)>(current: T, retired: seq<T>, bound: nat) {
    && |retired| <= bound
    && current !in retired
    && (forall i, j | 0 <= i < j < |retired| :: retired[i] != retired[j])
  }

  lemma {:induction false} KeepLastTwice<T>(s: seq<T>, x: T, n: nat)
    ensures KeepLast(KeepLast(s, n) + [x], n) == KeepLast(s + [x], n)
  {
  }

  lemma {:induction false} KeptAt<T>(s: seq<T>, n: nat, i: nat)
    requires i < |s| && |s| - i <= n
    ensures s[i] in KeepLast(s, n)
  {
    var kept := KeepLast(s, n);
    assert kept[i - (|s| - |kept|)] == s[i];
  }

  /** Adopting a value that is neither current nor retained keeps the record exact. */
  lemma {:induction false} Adopt<T(!new)>(has: bool, current: T, retired: seq<T>, adopted: seq<T>, bound: nat, x: T)
    requires Records(has, current, retired, adopted, bound) && NoEarlyReturn(adopted, bound)
    requires has ==> x != current && x !in retired
    ensures
      var next := if has then KeepLast(retired + [current], bound) else retired;
      Records(true, x, next, adopted + [x], bound)
    ensures NoEarlyReturn(adopted + [x], bound)
  {
    var grown := adopted + [x];
    if adopted != [] {
      var n := |adopted| - 1;
      KeepLastTwice(adopted[..n], adopted[n], bound);
      assert adopted[..n] + [adopted[n]] == adopted;
      assert grown[..|grown| - 1] == adopted;
      forall i, j | 0 <= i < j < |grown| && j - i <= bound ensures grown[i] != grown[j] {
        if j == |grown| - 1 && i < n {
          KeptAt(adopted[..n], bound, i);
        }
      }
    }
  }

  lemma {:induction false} RecordedIsWellFormed<T(!new)>(has: bool, current: T, retired: seq<T>, adopted: seq<T>, bound: nat)
    requires Records(has, current, retired, adopted, bound) && NoEarlyReturn(adopted, bound)
    ensures WellFormed(current, retired, bound)
  {
    if adopted != [] {
      var base := |adopted| - 1 - |retired|;
      forall i | 0 <= i < |retired| ensures retired[i] == adopted[base + i] {
      }
    }
  }
}
