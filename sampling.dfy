// random.sample(bank, k): k entries of the bank drawn without replacement.
// The random generator is not modelled; the draw is an arbitrary choice of
// k distinct bank positions, in the order they were drawn.
module Sampling {

  /** Every position is a valid index into a bank of the given size. */
  predicate Below(picks: seq<nat>, size: nat) {
    forall i :: 0 <= i < |picks| ==> picks[i] < size
  }

  /** No position is drawn twice. */
  predicate Injective(picks: seq<nat>) {
    forall i, j :: 0 <= i < j < |picks| ==> picks[i] != picks[j]
  }

  /** The bank entries at the drawn positions. */
  function Chosen<T>(bank: seq<T>, picks: seq<nat>): seq<T>
    requires Below(picks, |bank|)
  {
    seq(|picks|, i requires 0 <= i < |picks| => bank[picks[i]])
  }

  /** `sample` is a draw without replacement from `bank` at positions `picks`. */
  ghost predicate IsDraw<T>(sample: seq<T>, bank: seq<T>, picks: seq<nat>) {
    Below(picks, |bank|) && Injective(picks) && sample == Chosen(bank, picks)
  }

  /** Draws k entries of the bank without replacement. */
  method Sample<T>(bank: seq<T>, k: nat) returns (picks: seq<nat>, sample: seq<T>)
    requires k <= |bank|
    ensures |picks| == k && |sample| == k
    ensures Below(picks, |bank|) && Injective(picks)
    ensures forall i :: 0 <= i < k ==> sample[i] == bank[picks[i]]
  {
    // positions not drawn yet
    var pool: seq<nat> := seq(|bank|, i requires 0 <= i => i as nat);
    picks, sample := [], [];
    while |picks| < k
      invariant |picks| <= k
      invariant |picks| + |pool| == |bank|
      invariant Below(picks, |bank|) && Below(pool, |bank|)
      invariant Injective(picks) && Injective(pool)
      invariant forall i, j :: 0 <= i < |picks| && 0 <= j < |pool| ==> picks[i] != pool[j]
      invariant |sample| == |picks|
      invariant forall i :: 0 <= i < |picks| ==> sample[i] == bank[picks[i]]
    {
      var j :| 0 <= j < |pool|;
      picks, sample := picks + [pool[j]], sample + [bank[pool[j]]];
      pool := pool[..j] + pool[j + 1..];
    }
  }

  lemma ChosenAppend<T>(bank: seq<T>, p1: seq<nat>, p2: seq<nat>)
    requires Below(p1, |bank|) && Below(p2, |bank|)
    ensures Below(p1 + p2, |bank|)
    ensures Chosen(bank, p1 + p2) == Chosen(bank, p1) + Chosen(bank, p2)
  {
  }

  /** Removing the draw of the last bank position leaves a draw from the
      bank without its last entry. */
  lemma DropLast(picks: seq<nat>, j: nat, n: nat)
    requires Below(picks, n + 1) && Injective(picks)
    requires j < |picks| && picks[j] == n
    ensures Below(picks[..j] + picks[j + 1..], n)
    ensures Injective(picks[..j] + picks[j + 1..])
  {
  }

  /** Positions below the last one pick the same entries with or without it. */
  lemma ChosenFront<T>(bank: seq<T>, picks: seq<nat>)
    requires |bank| > 0 && Below(picks, |bank| - 1)
    ensures Chosen(bank[..|bank| - 1], picks) == Chosen(bank, picks)
  {
  }

  /** The entries drawn before, at and after the j-th draw. */
  lemma ChosenSplit<T>(bank: seq<T>, picks: seq<nat>, j: nat)
    requires Below(picks, |bank|) && j < |picks|
    ensures Below(picks[..j], |bank|) && Below(picks[j + 1..], |bank|)
    ensures Chosen(bank, picks)
         == Chosen(bank, picks[..j]) + ([bank[picks[j]]] + Chosen(bank, picks[j + 1..]))
  {
  }

  /** Both parts of a concatenation stay below the bound the whole does. */
  lemma BelowParts(left: seq<nat>, right: seq<nat>, n: nat)
    requires Below(left + right, n)
    ensures Below(left, n) && Below(right, n)
  {
    forall i | 0 <= i < |left| ensures left[i] < n {
      assert left[i] == (left + right)[i];
    }
    forall i | 0 <= i < |right| ensures right[i] < n {
      assert right[i] == (left + right)[|left| + i];
    }
  }

  /** One step of the induction below: putting back the draw of the last
      bank position adds that entry to both sides. */
  lemma SubBagLast<T>(bank: seq<T>, picks: seq<nat>, j: nat)
    requires |bank| > 0 && Below(picks, |bank|)
    requires j < |picks| && picks[j] == |bank| - 1
    requires Below(picks[..j] + picks[j + 1..], |bank| - 1)
    requires multiset(Chosen(bank[..|bank| - 1], picks[..j] + picks[j + 1..])) <= multiset(bank[..|bank| - 1])
    ensures multiset(Chosen(bank, picks)) <= multiset(bank)
  {
    var n := |bank| - 1;
    var front := bank[..n];
    var left, right := picks[..j], picks[j + 1..];
    BelowParts(left, right, n);
    var a, b := Chosen(bank, left), Chosen(bank, right);
    assert Chosen(bank, picks) == a + ([bank[n]] + b) by {
      ChosenSplit(bank, picks, j);
    }
    assert Chosen(front, left + right) == a + b by {
      ChosenAppend(front, left, right);
      ChosenFront(bank, left);
      ChosenFront(bank, right);
    }
    MultisetSplit(bank[..n], bank[n], []);
    assert bank[..n] + ([bank[n]] + []) == bank;
    MultisetSplit(a, bank[n], b);
  }

  /** Taking one entry out of the middle of a sequence takes it out of its
      multiset. */
  lemma MultisetSplit<T>(a: seq<T>, x: T, b: seq<T>)
    ensures multiset(a + ([x] + b)) == multiset(a + b) + multiset{x}
  {
  }

  /** A draw without replacement takes each bank entry at most as often as
      the bank holds it: the sample is a sub-multiset of the bank. */
  lemma {:induction false} ChosenSubBag<T>(bank: seq<T>, picks: seq<nat>)
    requires Below(picks, |bank|) && Injective(picks)
    ensures multiset(Chosen(bank, picks)) <= multiset(bank)
    decreases |bank|
  {
    if picks != [] {
      assert picks[0] < |bank|;
      var n := |bank| - 1;
      if j :| 0 <= j < |picks| && picks[j] == n {
        DropLast(picks, j, n);
        ChosenSubBag(bank[..n], picks[..j] + picks[j + 1..]);
        SubBagLast(bank, picks, j);
      } else {
        assert Below(picks, n);
        ChosenSubBag(bank[..n], picks);
        ChosenFront(bank, picks);
        assert bank == bank[..n] + [bank[n]];
      }
    }
  }

  /** Drawing from a bank without duplicate entries gives a sample without
      duplicate entries. */
  lemma ChosenDistinct<T>(bank: seq<T>, picks: seq<nat>)
    requires Below(picks, |bank|) && Injective(picks)
    requires forall i, j :: 0 <= i < j < |bank| ==> bank[i] != bank[j]
    ensures var s := Chosen(bank, picks);
      forall i, j :: 0 <= i < j < |s| ==> s[i] != s[j]
  {
  }
}
