/**
 * The summary shown above a list of orders (`updateStats` and
 * `updateStatsForPeriod`): how many orders, the sum of their amounts, and how
 * many carry a photo.
 */
module Stats {
  import opened Wrappers
  import opened Commandes

  datatype Stats = Stats(total: nat, montantTotal: real, avecPhoto: nat)

  /** `parseFloat(cmd.montant || 0)`: a null amount contributes nothing. */
  function Contribution(c: Commande): real {
    match c.montant
    case Some(v) => v
    case None => 0.0
  }

  /** The `reduce` over the amounts, folding from the left starting at 0. */
  function SumMontants(cs: seq<Commande>): (r: real)
    ensures (forall i :: 0 <= i < |cs| ==> Contribution(cs[i]) >= 0.0) ==> r >= 0.0
  {
    if cs == [] then 0.0 else SumMontants(cs[..|cs| - 1]) + Contribution(cs[|cs| - 1])
  }

  /** `commandes.filter(cmd => cmd.photo_url).length`. */
  function CountWithPhoto(cs: seq<Commande>): (n: nat)
    ensures n <= |cs|
  {
    if cs == [] then 0 else CountWithPhoto(cs[..|cs| - 1]) + (if HasPhoto(cs[|cs| - 1]) then 1 else 0)
  }

  function ComputeStats(cs: seq<Commande>): (s: Stats)
    ensures s.total == |cs| && s.avecPhoto <= s.total
    ensures cs == [] ==> s == Stats(0, 0.0, 0)
  {
    Stats(|cs|, SumMontants(cs), CountWithPhoto(cs))
  }

  /** Field-wise addition of two summaries. */
  function Combine(a: Stats, b: Stats): Stats {
    Stats(a.total + b.total, a.montantTotal + b.montantTotal, a.avecPhoto + b.avecPhoto)
  }

  /** The summary of two lists shown one after the other is the sum of their summaries. */
  lemma {:induction false} StatsOfConcat(a: seq<Commande>, b: seq<Commande>)
    ensures ComputeStats(a + b) == Combine(ComputeStats(a), ComputeStats(b))
    decreases |b|
  {
    if b == [] {
      assert a + b == a;
    } else {
      var b' := b[..|b| - 1];
      assert (a + b)[..|a + b| - 1] == a + b';
      assert (a + b)[|a + b| - 1] == b[|b| - 1];
      StatsOfConcat(a, b');
    }
  }

  /** The summary of a single order. */
  lemma StatsOfOne(c: Commande)
    ensures ComputeStats([c]) == Stats(1, Contribution(c), if HasPhoto(c) then 1 else 0)
  {
    assert [c][..0] == [];
    assert SumMontants([c]) == SumMontants([]) + Contribution(c);
    assert CountWithPhoto([c]) == CountWithPhoto([]) + (if HasPhoto(c) then 1 else 0);
  }

  /** Taking one order out of a list takes its share out of the summary. */
  lemma StatsWithoutAt(b: seq<Commande>, k: nat)
    requires k < |b|
    ensures ComputeStats(b) == Combine(ComputeStats(b[..k] + b[k + 1..]), ComputeStats([b[k]]))
  {
    var b1, b2 := b[..k], b[k + 1..];
    assert b == (b1 + [b[k]]) + b2;
    StatsOfConcat(b1 + [b[k]], b2);
    StatsOfConcat(b1, [b[k]]);
    StatsOfConcat(b1, b2);
  }

  lemma MultisetWithoutAt(a: seq<Commande>, x: Commande, b: seq<Commande>, k: nat)
    requires k < |b| && b[k] == x
    requires multiset(a + [x]) == multiset(b)
    ensures multiset(a) == multiset(b[..k] + b[k + 1..])
  {
    var rest := b[..k] + b[k + 1..];
    assert b == b[..k] + [x] + b[k + 1..];
    assert multiset(b) == multiset(rest) + multiset{x};
    assert multiset(a + [x]) == multiset(a) + multiset{x};
    assert multiset(a) == multiset(a + [x]) - multiset{x};
    assert multiset(rest) == multiset(b) - multiset{x};
  }

  /** The summary does not depend on the order in which the backend returned the rows. */
  lemma {:induction false} StatsPermutationInvariant(a: seq<Commande>, b: seq<Commande>)
    requires multiset(a) == multiset(b)
    ensures ComputeStats(a) == ComputeStats(b)
    decreases |a|
  {
    if a == [] {
      assert b == [];
    } else {
      var x := a[|a| - 1];
      var a' := a[..|a| - 1];
      assert a == a' + [x];
      assert x in multiset(b);
      var k :| 0 <= k < |b| && b[k] == x;
      MultisetWithoutAt(a', x, b, k);
      StatsPermutationInvariant(a', b[..k] + b[k + 1..]);
      StatsOfConcat(a', [x]);
      StatsWithoutAt(b, k);
    }
  }

  /** The photo count is the number of positions holding an order with a photo. */
  lemma {:induction false} CountWithPhotoIsCardinality(cs: seq<Commande>)
    ensures CountWithPhoto(cs) == |set i | 0 <= i < |cs| && HasPhoto(cs[i])|
  {
    if cs != [] {
      var n := |cs| - 1;
      var cs' := cs[..n];
      CountWithPhotoIsCardinality(cs');
      var before := set i | 0 <= i < n && HasPhoto(cs'[i]);
      var after := set i | 0 <= i < |cs| && HasPhoto(cs[i]);
      if HasPhoto(cs[n]) {
        assert after == before + {n};
      } else {
        assert after == before;
      }
    }
  }
}
