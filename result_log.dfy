/** The analysis history: newest first, at most fifty entries. Both handlers
    update it the same way, `[...fresh, ...prev].slice(0, 50)`. */
module ResultLog {

  const Capacity: nat := 50

  function Min(a: int, b: int): int { if a <= b then a else b }

  /** Puts `batch` in front of `log`, keeping the batch order, and cuts the
      result to the first `Capacity` entries. */
  function Prepend<T>(batch: seq<T>, log: seq<T>): (r: seq<T>)
    ensures |r| == Min(Capacity, |batch| + |log|)
    ensures forall i :: 0 <= i < |batch| && i < Capacity ==> r[i] == batch[i]
    ensures forall i :: 0 <= i < |log| && |batch| + i < Capacity ==> r[|batch| + i] == log[i]
    ensures |batch| >= Capacity ==> r == batch[..Capacity]
  {
    var all := batch + log;
    if |all| <= Capacity then all else all[..Capacity]
  }

  /** Two successive prepends are one prepend of the later batch followed by
      the earlier one: truncating in between loses nothing that would have
      survived anyway. */
  lemma PrependTwice<T>(a: seq<T>, b: seq<T>, log: seq<T>)
    ensures Prepend(b, Prepend(a, log)) == Prepend(b + a, log)
  {
  }
}
