/**
 * Where show_stimulus puts the signs: the target ("RUTA 66") at one of the
 * eight positions 0..7, and distractors at positions sampled, without
 * replacement, from the seven others.
 */
module StimulusLayout {
  import opened SectorGeometry
  import opened LevelRules

  /** No element occurs twice. */
  predicate Distinct(s: seq<int>)
  {
    forall i, j :: 0 <= i < j < |s| ==> s[i] != s[j]
  }

  /** Python's `min` of two integers. */
  function Min(a: int, b: int): int
  {
    if b < a then b else a
  }

  /**
   * What `random.sample(population, k)` returns when the population has no
   * duplicates: `k` distinct members of it.
   */
  predicate IsSample(s: seq<int>, population: seq<int>, k: int)
  {
    |s| == k && Distinct(s) && forall x :: x in s ==> x in population
  }

  /** `list(range(8))`: the eight sign positions. */
  function Positions(): (ps: seq<int>)
    ensures |ps| == SectorCount
    ensures forall i :: 0 <= i < |ps| ==> ps[i] == i
  {
    seq(SectorCount, i => i)
  }

  /** `[p for p in xs if p != x]`: `xs` in order, with every `x` left out. */
  function Without(xs: seq<int>, x: int): (r: seq<int>)
    ensures forall y :: y in r <==> y in xs && y != x
    ensures Distinct(xs) ==> Distinct(r)
    ensures Distinct(xs) && x in xs ==> |r| == |xs| - 1
    ensures x !in xs ==> r == xs
  {
    if xs == [] then []
    else if xs[0] == x then Without(xs[1..], x)
    else
      var rest := Without(xs[1..], x);
      assert xs == [xs[0]] + xs[1..];
      assert Distinct(xs) ==> Distinct(xs[1..]) && xs[0] !in xs[1..];
      var r := [xs[0]] + rest;
      assert forall j :: 1 <= j < |r| ==> r[j] == rest[j - 1];
      r
  }

  /** The positions a distractor may take: every position but the target's. */
  function DistractorPool(target: int): (pool: seq<int>)
    ensures forall p :: p in pool <==> 0 <= p < SectorCount && p != target
    ensures Distinct(pool)
  {
    var ps := Positions();
    assert forall p :: p in ps <==> 0 <= p < SectorCount by {
      forall p | 0 <= p < SectorCount ensures p in ps {
        assert ps[p] == p;
      }
    }
    Without(ps, target)
  }

  /** `selected_distractors + [route66_position]`: every sign drawn, target last. */
  function SignLayout(distractors: seq<int>, target: int): (signs: seq<int>)
    ensures forall p :: p in signs <==> p in distractors || p == target
    ensures multiset(signs) == multiset(distractors) + multiset{target}
    ensures |signs| == |distractors| + 1 && signs[|distractors|] == target
  {
    distractors + [target]
  }

  /**
   * The pool holds the seven positions other than the target, each once, so a
   * sample of `min(num_distractors, len(pool))` takes exactly `num_distractors`.
   */
  lemma PoolShape(target: int)
    requires 0 <= target < SectorCount
    ensures |DistractorPool(target)| == MaxDistractors
    ensures Distinct(DistractorPool(target))
    ensures forall p :: p in DistractorPool(target) <==> 0 <= p < SectorCount && p != target
  {
    var ps := Positions();
    assert ps[target] == target;
  }

  /**
   * The signs drawn for a level: one more than the distractor count for the
   * level, all at positions 0..7, no position twice, and the target exactly once.
   */
  lemma LayoutShape(level: int, target: int, distractors: seq<int>)
    requires level >= 0
    requires 0 <= target < SectorCount
    requires IsSample(distractors, DistractorPool(target),
                      Min(NumDistractors(level), |DistractorPool(target)|))
    ensures |SignLayout(distractors, target)| == NumDistractors(level) + 1
    ensures Distinct(SignLayout(distractors, target))
    ensures forall p :: p in SignLayout(distractors, target) ==> 0 <= p < SectorCount
    ensures target !in distractors
    ensures multiset(SignLayout(distractors, target))[target] == 1
  {
    PoolShape(target);
    var signs := SignLayout(distractors, target);
    assert target !in distractors;
    assert forall i :: 0 <= i < |distractors| ==> signs[i] == distractors[i];
    assert multiset(distractors)[target] == 0;
  }
}
