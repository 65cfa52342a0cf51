/** Fish, locations and the weighted catch: each fish of a location gets a
    draw weight from its rarity and the equipment bonus, and one fish is
    drawn with probability proportional to its weight. */
module Catch {

  datatype Rarity = Common | Rare | Legendary

  /** A catchable fish; `location` is the name of the place it lives. */
  datatype Fish = Fish(name: string, rarity: Rarity, location: string)

  /** A named catalogue of fish. */
  datatype Location = Location(name: string, fishes: seq<Fish>)

  /** Draw weight of a rarity before the equipment bonus. */
  function BaseWeight(r: Rarity): (w: nat)
    ensures w > 0
  {
    match r
    case Common => 60
    case Rare => 30
    case Legendary => 10
  }

  /** Bonus weight per combined equipment level. */
  const BonusPerLevel: nat := 3

  /** Draw weight of one fish: the bonus goes in full to rare fish, halved
      (rounded down) to legendary fish, and not at all to common fish. */
  function RarityWeight(r: Rarity, bonusLevel: nat): (w: nat)
    ensures w >= BaseWeight(r) > 0
    ensures r == Common ==> w == 60
    ensures r == Rare ==> w == 30 + 3 * bonusLevel
    ensures r == Legendary ==> w == 10 + (3 * bonusLevel) / 2
  {
    var bonus := bonusLevel * BonusPerLevel;
    match r
    case Common => BaseWeight(r)
    case Rare => BaseWeight(r) + bonus
    case Legendary => BaseWeight(r) + bonus / 2
  }

  /** The weights of a catalogue, one per fish, in catalogue order. */
  function Weighted(fishes: seq<Fish>, bonusLevel: nat): (w: seq<nat>)
    ensures |w| == |fishes|
  {
    seq(|fishes|, i requires 0 <= i < |fishes| => RarityWeight(fishes[i].rarity, bonusLevel))
  }

  /** The weight list built for one fishing trip. */
  method CatchWeights(fishes: seq<Fish>, bonusLevel: nat) returns (weights: seq<nat>)
    ensures |weights| == |fishes|
    ensures forall i :: 0 <= i < |fishes| ==> weights[i] == RarityWeight(fishes[i].rarity, bonusLevel)
    ensures forall i :: 0 <= i < |weights| ==> weights[i] > 0
    ensures weights == Weighted(fishes, bonusLevel)
  {
    weights := [];
    for i := 0 to |fishes|
      invariant |weights| == i
      invariant forall j :: 0 <= j < i ==> weights[j] == RarityWeight(fishes[j].rarity, bonusLevel)
    {
      var fish := fishes[i];
      var base := BaseWeight(fish.rarity);
      var bonus := bonusLevel * BonusPerLevel;
      if fish.rarity == Rare {
        base := base + bonus;
      } else if fish.rarity == Legendary {
        base := base + bonus / 2;
      }
      weights := weights + [base];
    }
  }

  /** A better combined level never lowers a weight: rare and legendary
      weights grow with it and common weights stay where they are. */
  lemma WeightGrowsWithLevel(r: Rarity, lo: nat, hi: nat)
    requires lo <= hi
    ensures RarityWeight(r, lo) <= RarityWeight(r, hi)
    ensures r == Common ==> RarityWeight(r, lo) == RarityWeight(r, hi)
    ensures r == Rare ==> RarityWeight(r, hi) - RarityWeight(r, lo) == 3 * (hi - lo)
  {
  }

  /** Sum of a weight list. */
  function Sum(w: seq<nat>): nat
  {
    if w == [] then 0 else w[0] + Sum(w[1..])
  }

  /** Appending one weight adds it to the sum. */
  lemma {:induction false} SumSnoc(w: seq<nat>, x: nat)
    ensures Sum(w + [x]) == Sum(w) + x
  {
    if w != [] {
      assert (w + [x])[1..] == w[1..] + [x];
      SumSnoc(w[1..], x);
    }
  }

  /** The prefix sums of a weight list grow one weight at a time. */
  lemma PrefixStep(w: seq<nat>, i: nat)
    requires i < |w|
    ensures Sum(w[..i + 1]) == Sum(w[..i]) + w[i]
  {
    assert w[..i + 1] == w[..i] + [w[i]];
    SumSnoc(w[..i], w[i]);
  }

  /** Prefix sums never decrease, and pass each weight in full. */
  lemma {:induction false} PrefixMonotone(w: seq<nat>, i: nat, j: nat)
    requires i <= j <= |w|
    ensures Sum(w[..i]) <= Sum(w[..j])
    ensures i < j ==> Sum(w[..i + 1]) <= Sum(w[..j])
    decreases j - i
  {
    if i < j {
      PrefixStep(w, j - 1);
      PrefixMonotone(w, i, j - 1);
    }
  }

  /** The draw of `random.choices`: the first index whose running total
      exceeds the ticket. With `ticket` = floor(random() * Sum(w)) this is the
      same index that bisecting the running totals with the real number gives. */
  function Pick(w: seq<nat>, ticket: nat): (i: nat)
    requires ticket < Sum(w)
    ensures i < |w|
    ensures Sum(w[..i]) <= ticket < Sum(w[..i + 1])
    decreases |w|
  {
    assert w[..1] == [w[0]] && w[..0] == [];
    if ticket < w[0] then 0
    else
      var j := Pick(w[1..], ticket - w[0]);
      assert w[..j + 1][1..] == w[1..][..j];
      assert w[..j + 2][1..] == w[1..][..j + 1];
      j + 1
  }

  /** Exactly the tickets in [Sum(w[..i]), Sum(w[..i+1])) draw index `i`: a run
      of w[i] tickets out of Sum(w), so index `i` is drawn with probability
      w[i] / Sum(w). */
  lemma {:induction false} PickExactly(w: seq<nat>, ticket: nat, i: nat)
    requires ticket < Sum(w) && i < |w|
    ensures Pick(w, ticket) == i <==> Sum(w[..i]) <= ticket < Sum(w[..i + 1])
  {
    var k := Pick(w, ticket);
    if k < i {
      PrefixMonotone(w, k, i);
    } else if i < k {
      PrefixMonotone(w, i, k);
    }
  }

  /** Every index of positive weight can be drawn: its first ticket draws it. */
  lemma PickReaches(w: seq<nat>, i: nat)
    requires i < |w| && w[i] > 0
    ensures Sum(w[..i]) < Sum(w)
    ensures Pick(w, Sum(w[..i])) == i
  {
    PrefixStep(w, i);
    PrefixMonotone(w, i + 1, |w|);
    assert w[..|w|] == w;
    PickExactly(w, Sum(w[..i]), i);
  }
}
