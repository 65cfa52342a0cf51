/** Missions: a condition on the player's catch and a reward, completed at
    most once. Conditions and rewards are tagged values rather than closures. */
module Missions {
  import opened Lists
  import opened Gear
  import opened Catch

  /** What a mission asks of the inventory. */
  datatype Condition =
    | AtLeastRare(count: nat)   // at least `count` rare fish caught
    | AnyLegendary              // some legendary fish caught

  /** What completing a mission grants. */
  datatype Reward =
    | UnlockLocation(location: string)   // open a location, unless already open
    | UpgradePart(part: string)          // an equipment upgrade request ("1" = rod)

  /** A mission; missions are told apart by identity, as the game does. */
  class Mission {
    const description: string
    const condition: Condition
    const reward: Reward

    constructor (description: string, condition: Condition, reward: Reward)
      ensures this.description == description
      ensures this.condition == condition && this.reward == reward
    {
      this.description := description;
      this.condition := condition;
      this.reward := reward;
    }
  }

  /** Number of fish of rarity `r` in the inventory. */
  function CountRarity(inventory: seq<Fish>, r: Rarity): (n: nat)
    ensures n <= |inventory|
  {
    if inventory == [] then 0
    else (if inventory[0].rarity == r then 1 else 0) + CountRarity(inventory[1..], r)
  }

  /** Counting over two stretches of catches adds up. */
  lemma {:induction false} CountRarityConcat(a: seq<Fish>, b: seq<Fish>, r: Rarity)
    ensures CountRarity(a + b, r) == CountRarity(a, r) + CountRarity(b, r)
  {
    if a == [] {
      assert a + b == b;
    } else {
      assert (a + b)[1..] == a[1..] + b;
      CountRarityConcat(a[1..], b, r);
    }
  }

  /** The count is positive exactly when a fish of that rarity was caught. */
  lemma {:induction false} CountRarityPositive(inventory: seq<Fish>, r: Rarity)
    ensures CountRarity(inventory, r) > 0 <==> exists f :: f in inventory && f.rarity == r
  {
    if inventory != [] {
      CountRarityPositive(inventory[1..], r);
      assert inventory == [inventory[0]] + inventory[1..];
    }
  }

  /** Whether a condition holds of an inventory. */
  predicate Holds(c: Condition, inventory: seq<Fish>)
  {
    match c
    case AtLeastRare(n) => CountRarity(inventory, Rare) >= n
    case AnyLegendary => exists f :: f in inventory && f.rarity == Legendary
  }

  /** The inventory only grows, so a condition that holds keeps holding. */
  lemma HoldsPersists(c: Condition, inventory: seq<Fish>, more: seq<Fish>)
    requires Holds(c, inventory)
    ensures Holds(c, inventory + more)
  {
    match c
    case AtLeastRare(n) =>
      CountRarityConcat(inventory, more, Rare);
    case AnyLegendary =>
      var f :| f in inventory && f.rarity == Legendary;
      assert f in inventory + more;
  }

  /** "Catch 3 rare fish": false with two rare fish, true once a third is added. */
  lemma ThirdRareCompletes(inventory: seq<Fish>, f: Fish)
    requires CountRarity(inventory, Rare) == 2 && f.rarity == Rare
    ensures !Holds(AtLeastRare(3), inventory)
    ensures Holds(AtLeastRare(3), inventory + [f])
  {
    CountRarityConcat(inventory, [f], Rare);
    assert [f][1..] == [];
  }

  /** "Catch a legendary fish": false without one, true once one is added. */
  lemma FirstLegendaryCompletes(inventory: seq<Fish>, f: Fish)
    requires CountRarity(inventory, Legendary) == 0 && f.rarity == Legendary
    ensures !Holds(AnyLegendary, inventory)
    ensures Holds(AnyLegendary, inventory + [f])
  {
    CountRarityPositive(inventory, Legendary);
    assert f in inventory + [f];
  }

  /** The part of the player state that rewards change. */
  datatype Progress = Progress(unlocked: seq<string>, gear: Loadout)

  /** Location names a list of missions may unlock. */
  function UnlockTargets(ms: seq<Mission>): set<string>
  {
    set m | m in ms && m.reward.UnlockLocation? :: m.reward.location
  }

  /** Effect of one reward. An unlock appends the location only when it is not
      yet unlocked; an upgrade applies the equipment upgrade. */
  function ApplyReward(r: Reward, p: Progress): (q: Progress)
    requires p.gear.Valid()
    ensures q.gear.Valid()
    ensures p.unlocked <= q.unlocked
    ensures NoDup(p.unlocked) ==> NoDup(q.unlocked)
    ensures forall n :: n in q.unlocked ==> n in p.unlocked || r == UnlockLocation(n)
    ensures r.UnlockLocation? ==> r.location in q.unlocked && q.gear == p.gear
    ensures r.UpgradePart? ==> q.unlocked == p.unlocked && q.gear == UpgradeLoadout(p.gear, r.part)
  {
    match r
    case UnlockLocation(name) =>
      if name in p.unlocked then p else p.(unlocked := p.unlocked + [name])
    case UpgradePart(part) =>
      p.(gear := UpgradeLoadout(p.gear, part))
  }

  /** Completing mission `m` against the active list `ms`: when `m` is active
      and its condition holds, it leaves the list once and its reward is applied
      once; otherwise nothing changes. */
  function Complete(ms: seq<Mission>, inventory: seq<Fish>, m: Mission, p: Progress): (r: (seq<Mission>, Progress))
    requires p.gear.Valid()
    ensures r.1.gear.Valid()
    ensures m in ms && Holds(m.condition, inventory) ==>
      multiset(r.0) == multiset(ms) - multiset{m} && r.1 == ApplyReward(m.reward, p)
    ensures !(m in ms && Holds(m.condition, inventory)) ==> r == (ms, p)
    ensures NoDup(ms) ==> NoDup(r.0)
    ensures NoDup(ms) && Holds(m.condition, inventory) ==> m !in r.0
  {
    if m in ms && Holds(m.condition, inventory) then
      RemoveFirstNoDup(ms, m);
      RemoveFirstMultiset(ms, m);
      (RemoveFirst(ms, m), ApplyReward(m.reward, p))
    else (ms, p)
  }

  /** The missions a check pass over `ms` leaves active: those whose condition
      does not hold, in their order. (Rewards never touch the inventory, so every
      condition in a pass sees the same inventory.) */
  function Pending(ms: seq<Mission>, inventory: seq<Fish>): (r: seq<Mission>)
    ensures |r| <= |ms|
    ensures forall m :: m in r ==> m in ms && !Holds(m.condition, inventory)
    ensures forall m :: m in ms && !Holds(m.condition, inventory) ==> m in r
    decreases |ms|
  {
    if ms == [] then []
    else
      var last := ms[|ms| - 1];
      var rest := Pending(ms[..|ms| - 1], inventory);
      assert ms == ms[..|ms| - 1] + [last];
      if Holds(last.condition, inventory) then rest else rest + [last]
  }

  /** The rewards a check pass over `ms` applies: the reward of each mission
      whose condition holds, once, in list order. */
  function Settle(ms: seq<Mission>, inventory: seq<Fish>, p: Progress): (q: Progress)
    requires p.gear.Valid()
    ensures q.gear.Valid()
    ensures p.unlocked <= q.unlocked
    ensures p.gear.Total() <= q.gear.Total()
    ensures NoDup(p.unlocked) ==> NoDup(q.unlocked)
    ensures forall n :: n in q.unlocked ==> n in p.unlocked || n in UnlockTargets(ms)
    ensures (forall m :: m in ms ==> !Holds(m.condition, inventory)) ==> q == p
    decreases |ms|
  {
    if ms == [] then p
    else
      var last := ms[|ms| - 1];
      var mid := Settle(ms[..|ms| - 1], inventory, p);
      assert ms == ms[..|ms| - 1] + [last];
      assert UnlockTargets(ms[..|ms| - 1]) <= UnlockTargets(ms);
      if Holds(last.condition, inventory) then ApplyReward(last.reward, mid) else mid
  }

  /** One more mission examined: completing mission `i` of the copy against
      the live list and progress left by the first `i` missions gives the live
      list and progress of the first `i + 1`. */
  lemma PassStep(ms: seq<Mission>, i: nat, inventory: seq<Fish>, p: Progress)
    requires i < |ms| && p.gear.Valid()
    ensures Complete(Pending(ms[..i], inventory) + ms[i..], inventory, ms[i], Settle(ms[..i], inventory, p)) ==
      (Pending(ms[..i + 1], inventory) + ms[i + 1..], Settle(ms[..i + 1], inventory, p))
  {
    var done := Pending(ms[..i], inventory);
    var m := ms[i];
    assert ms[..i + 1][..i] == ms[..i];
    assert ms[i..] == [m] + ms[i + 1..];
    assert done + ms[i..] == done + [m] + ms[i + 1..];
    assert m in done + ms[i..];
    if Holds(m.condition, inventory) {
      RemoveFirstAt(done, m, ms[i + 1..]);
    } else {
      assert done + [m] + ms[i + 1..] == (done + [m]) + ms[i + 1..];
    }
  }

  /** A pass keeps a repeat-free mission list repeat-free. */
  lemma {:induction false} PendingNoDup(ms: seq<Mission>, inventory: seq<Fish>)
    requires NoDup(ms)
    ensures NoDup(Pending(ms, inventory))
    decreases |ms|
  {
    if ms != [] {
      var init := ms[..|ms| - 1];
      var last := ms[|ms| - 1];
      assert NoDup(init) by {
        forall i, j | 0 <= i < j < |init| ensures init[i] != init[j] {
          assert init[i] == ms[i] && init[j] == ms[j];
        }
      }
      PendingNoDup(init, inventory);
      assert last !in init by {
        forall k | 0 <= k < |init| ensures init[k] != last {
          assert init[k] == ms[k];
        }
      }
      var rest := Pending(init, inventory);
      if !Holds(last.condition, inventory) {
        var r := rest + [last];
        forall i, j | 0 <= i < j < |r| ensures r[i] != r[j] {
          if j == |rest| {
            assert r[i] == rest[i] && rest[i] in rest;
          } else {
            assert r[i] == rest[i] && r[j] == rest[j];
          }
        }
      }
    }
  }

  /** A pass removes every mission it can: a second pass right after it, with
      the same inventory, removes nothing and grants nothing. */
  lemma {:induction false} SecondPassIsQuiet(ms: seq<Mission>, inventory: seq<Fish>, p: Progress)
    requires p.gear.Valid()
    ensures Pending(Pending(ms, inventory), inventory) == Pending(ms, inventory)
    ensures Settle(Pending(ms, inventory), inventory, p) == p
    decreases |ms|
  {
    if ms != [] {
      var init := ms[..|ms| - 1];
      var last := ms[|ms| - 1];
      SecondPassIsQuiet(init, inventory, p);
      var rest := Pending(init, inventory);
      if !Holds(last.condition, inventory) {
        var r := rest + [last];
        assert r[..|r| - 1] == rest;
      }
    }
  }
}
