/** The player, the location registry and the game operations that change
    them: catching a fish, completing missions, checking all missions,
    choosing and adding locations, and counting the inventory. */
module Game {
  import opened Lists
  import opened Gear
  import opened Catch
  import opened Missions

  datatype Option<T> = None | Some(value: T)

  /** The outcome of a request to add a location. */
  datatype AddOutcome = Added | EmptyName | DuplicateName

  /** How the inventory listing groups fish: by name and rarity. */
  type Label = (string, Rarity)

  function LabelOf(f: Fish): Label
  {
    (f.name, f.rarity)
  }

  /** How many fish in the inventory carry label `k`. */
  function Occurrences(inventory: seq<Fish>, k: Label): (n: nat)
    ensures n <= |inventory|
    decreases |inventory|
  {
    if inventory == [] then 0
    else
      var last := inventory[|inventory| - 1];
      Occurrences(inventory[..|inventory| - 1], k) + (if LabelOf(last) == k then 1 else 0)
  }

  /** The labels of the inventory, each once, in order of first catch. */
  function FirstSeen(inventory: seq<Fish>): (r: seq<Label>)
    ensures NoDup(r)
    ensures forall k :: k in r <==> Occurrences(inventory, k) > 0
    decreases |inventory|
  {
    if inventory == [] then []
    else
      var rest := FirstSeen(inventory[..|inventory| - 1]);
      var k := LabelOf(inventory[|inventory| - 1]);
      if k in rest then rest
      else
        assert forall i :: 0 <= i < |rest| ==> (rest + [k])[i] == rest[i];
        rest + [k]
  }

  /** Counts over two stretches of catches add up. */
  lemma {:induction false} OccurrencesConcat(a: seq<Fish>, b: seq<Fish>, k: Label)
    ensures Occurrences(a + b, k) == Occurrences(a, k) + Occurrences(b, k)
    decreases |b|
  {
    if b == [] {
      assert a + b == a;
    } else {
      var b' := b[..|b| - 1];
      assert (a + b)[..|a + b| - 1] == a + b';
      OccurrencesConcat(a, b', k);
    }
  }

  /** The counts do not depend on the order of catches: swapping two stretches
      of the inventory leaves every count as it was. */
  lemma OccurrencesOrderFree(a: seq<Fish>, b: seq<Fish>, k: Label)
    ensures Occurrences(a + b, k) == Occurrences(b + a, k)
  {
    OccurrencesConcat(a, b, k);
    OccurrencesConcat(b, a, k);
  }

  /** A location filed under name `n`: it carries that name, has at least one
      fish, and each of its fish names it as home. */
  predicate FiledAs(n: string, loc: Location)
  {
    loc.name == n && |loc.fishes| > 0 &&
    forall f :: f in loc.fishes ==> f.location == n
  }

  /** Every registered location is filed correctly under its key. */
  predicate RegistryValid(registry: map<string, Location>)
  {
    forall n :: n in registry ==> FiledAs(n, registry[n])
  }

  /** A starting location: two common fish, one rare and one legendary. */
  function Catalogue(place: string, common1: string, common2: string, rare: string, legendary: string): (loc: Location)
    ensures FiledAs(place, loc) && |loc.fishes| == 4
  {
    Location(place, [
      Fish(common1, Common, place),
      Fish(common2, Common, place),
      Fish(rare, Rare, place),
      Fish(legendary, Legendary, place)])
  }

  /** The three locations the game starts with. */
  function StandardLocations(): (registry: map<string, Location>)
    ensures registry.Keys == {"Sungai", "Danau", "Laut"}
    ensures RegistryValid(registry)
  {
    var sungai := Catalogue("Sungai", "Ikan Mas", "Lele", "Toman", "Arwana");
    var danau := Catalogue("Danau", "Ikan Mujair", "Nila", "Bawal", "Gabus");
    var laut := Catalogue("Laut", "Kakap", "Kerapu", "Tuna", "Marlin");
    map["Sungai" := sungai, "Danau" := danau, "Laut" := laut]
  }

  /** The catalogue of a location added at run time: three common fish. */
  function DefaultFish(location: string): (fishes: seq<Fish>)
    ensures |fishes| == 3
    ensures forall f :: f in fishes ==> f.rarity == Common && f.location == location
  {
    [Fish("Ikan A-1", Common, location),
     Fish("Ikan A-2", Common, location),
     Fish("Ikan A-3", Common, location)]
  }

  /** The registry of locations, which only grows. */
  class World {
    var locations: map<string, Location>

    ghost predicate Valid()
      reads this
    {
      RegistryValid(locations)
    }

    constructor ()
      ensures Valid()
      ensures locations == StandardLocations()
    {
      locations := StandardLocations();
    }
  }

  class Player {
    const equipment: Equipment
    var inventory: seq<Fish>
    var missions: seq<Mission>
    var unlocked: seq<string>

    ghost predicate Valid()
      reads equipment.rod, equipment.hook, equipment.line
    {
      equipment.Valid()
    }

    /** What rewards act on: the unlocked locations and the equipment levels. */
    function Status(): Progress
      reads this, equipment.rod, equipment.hook, equipment.line
    {
      Progress(unlocked, equipment.Levels())
    }

    constructor ()
      ensures Valid()
      ensures fresh(equipment) && fresh(equipment.rod) && fresh(equipment.hook) && fresh(equipment.line)
      ensures equipment.Levels() == Loadout(0, 0, 0)
      ensures inventory == [] && missions == [] && unlocked == ["Sungai"]
    {
      equipment := new Equipment();
      inventory := [];
      missions := [];
      unlocked := ["Sungai"];
    }

    method AddFish(fish: Fish)
      modifies this
      ensures inventory == old(inventory) + [fish]
      ensures missions == old(missions) && unlocked == old(unlocked)
    {
      inventory := inventory + [fish];
    }

    /** Completes `m` if it is active and its condition holds: removes it from
        the active list once, then applies its reward once. Otherwise nothing
        changes. */
    method CompleteMission(m: Mission)
      requires Valid()
      modifies this, equipment.rod, equipment.hook, equipment.line
      ensures Valid()
      ensures inventory == old(inventory)
      ensures (missions, Status()) == Complete(old(missions), old(inventory), m, old(Status()))
    {
      if m !in missions {
        return;
      }
      if Holds(m.condition, inventory) {
        missions := RemoveFirst(missions, m);
        match m.reward
        case UnlockLocation(name) =>
          if name !in unlocked {
            unlocked := unlocked + [name];
          }
        case UpgradePart(part) =>
          equipment.Upgrade(part);
      }
    }

    /** The inventory listing: a count per (name, rarity), with the labels in
        the order the dictionary first received them. */
    method InventoryCounts() returns (counts: map<Label, nat>, order: seq<Label>)
      ensures order == FirstSeen(inventory)
      ensures NoDup(order)
      ensures forall k :: k in counts <==> k in order
      ensures forall k :: k in counts ==> counts[k] == Occurrences(inventory, k) > 0
      ensures inventory == [] ==> counts == map[] && order == []
    {
      counts := map[];
      order := [];
      if |inventory| == 0 {
        return;
      }
      for i := 0 to |inventory|
        invariant order == FirstSeen(inventory[..i])
        invariant forall k :: k in counts <==> k in order
        invariant forall k :: k in counts ==> counts[k] == Occurrences(inventory[..i], k)
      {
        assert inventory[..i + 1][..i] == inventory[..i];
        var key := LabelOf(inventory[i]);
        var seen := if key in counts then counts[key] else 0;
        if key !in counts {
          order := order + [key];
        }
        counts := counts[key := seen + 1];
      }
      assert inventory[..|inventory|] == inventory;
    }
  }

  /** `Location.fish`: weighs the catalogue for the player's equipment, draws
      the fish that `ticket` selects and adds it to the inventory. `ticket`
      stands for floor(random() * total weight). */
  method GoFishing(loc: Location, player: Player, ticket: nat) returns (caught: Fish)
    requires player.Valid()
    requires ticket < Sum(Weighted(loc.fishes, player.equipment.TotalLevel()))
    modifies player
    ensures player.Valid()
    ensures caught in loc.fishes
    ensures caught == loc.fishes[Pick(Weighted(loc.fishes, player.equipment.TotalLevel()), ticket)]
    ensures player.inventory == old(player.inventory) + [caught]
    ensures player.missions == old(player.missions) && player.unlocked == old(player.unlocked)
  {
    var weights := CatchWeights(loc.fishes, player.equipment.TotalLevel());
    var k := Pick(weights, ticket);
    caught := loc.fishes[k];
    player.AddFish(caught);
  }

  /** Every fish of a catalogue can be caught at every equipment level: some
      ticket draws it. */
  lemma EveryFishCatchable(fishes: seq<Fish>, bonusLevel: nat, i: nat)
    requires i < |fishes|
    ensures exists ticket: nat :: ticket < Sum(Weighted(fishes, bonusLevel)) &&
                             Pick(Weighted(fishes, bonusLevel), ticket) == i
  {
    var w := Weighted(fishes, bonusLevel);
    PickReaches(w, i);
  }

  /** One pass over the missions: each mission active at the start is
      examined exactly once, from a copy of the list, while completed ones are
      removed from the live list. */
  method CheckMissions(player: Player)
    requires player.Valid()
    modifies player, player.equipment.rod, player.equipment.hook, player.equipment.line
    ensures player.Valid()
    ensures player.inventory == old(player.inventory)
    ensures player.missions == Pending(old(player.missions), old(player.inventory))
    ensures player.Status() == Settle(old(player.missions), old(player.inventory), old(player.Status()))
    ensures NoDup(old(player.missions)) ==> NoDup(player.missions)
    ensures old(player.unlocked) <= player.unlocked
    ensures NoDup(old(player.unlocked)) ==> NoDup(player.unlocked)
    ensures forall n :: n in player.unlocked ==>
      n in old(player.unlocked) || n in UnlockTargets(old(player.missions))
    ensures UnlockTargets(player.missions) <= UnlockTargets(old(player.missions))
  {
    if |player.missions| == 0 {
      assert player.missions == [];
      return;
    }
    ghost var inventory := player.inventory;
    ghost var start := player.Status();
    var snapshot := player.missions;
    var i := 0;
    assert snapshot[..0] == [] && snapshot[0..] == snapshot;
    while i < |snapshot|
      invariant 0 <= i <= |snapshot|
      invariant player.Valid()
      invariant player.inventory == inventory
      invariant player.missions == Pending(snapshot[..i], inventory) + snapshot[i..]
      invariant player.Status() == Settle(snapshot[..i], inventory, start)
    {
      var m := snapshot[i];
      PassStep(snapshot, i, inventory, start);
      player.CompleteMission(m);
      i := i + 1;
    }
    assert snapshot[..|snapshot|] == snapshot;
    if NoDup(snapshot) {
      PendingNoDup(snapshot, inventory);
    }
  }

  /** The game's invariant across the player and the registry: every
      registered location has at least one fish and is filed under its own
      name, unlocked locations are registered and listed once, every unlock
      reward names a registered location, and the equipment is well formed. */
  ghost predicate Consistent(world: World, player: Player)
    reads world, player, player.equipment.rod, player.equipment.hook, player.equipment.line
  {
    world.Valid() && player.Valid() &&
    NoDup(player.unlocked) &&
    (forall n :: n in player.unlocked ==> n in world.locations) &&
    UnlockTargets(player.missions) <= world.locations.Keys
  }

  /** The location behind menu entry `choice` (1-based) of the unlocked list;
      any other choice cancels. */
  method ChooseLocation(world: World, player: Player, choice: int) returns (loc: Option<Location>)
    requires 1 <= choice <= |player.unlocked| ==> player.unlocked[choice - 1] in world.locations
    ensures loc.Some? <==> 1 <= choice <= |player.unlocked|
    ensures loc.Some? ==> loc.value == world.locations[player.unlocked[choice - 1]]
    ensures loc.Some? && RegistryValid(world.locations) ==>
      loc.value.name == player.unlocked[choice - 1] && |loc.value.fishes| > 0
  {
    if 1 <= choice <= |player.unlocked| {
      loc := Some(world.locations[player.unlocked[choice - 1]]);
    } else {
      loc := None;
    }
  }

  /** Registers a new location with the default catalogue and unlocks it,
      unless the name is empty or already registered. */
  method AddNewLocation(world: World, player: Player, name: string) returns (outcome: AddOutcome)
    modifies world, player
    ensures outcome == EmptyName <==> name == ""
    ensures outcome == DuplicateName <==> name != "" && name in old(world.locations)
    ensures outcome != Added ==>
      world.locations == old(world.locations) && player.unlocked == old(player.unlocked)
    ensures outcome == Added ==>
      world.locations == old(world.locations)[name := Location(name, DefaultFish(name))] &&
      player.unlocked == old(player.unlocked) + [name]
    ensures player.inventory == old(player.inventory) && player.missions == old(player.missions)
    ensures old(Consistent(world, player)) ==> Consistent(world, player)
  {
    if name == "" {
      return EmptyName;
    }
    if name in world.locations {
      return DuplicateName;
    }
    world.locations := world.locations[name := Location(name, DefaultFish(name))];
    player.unlocked := player.unlocked + [name];
    outcome := Added;
  }

  /** The menu's fishing action: choose a location, fish there, then check
      the missions. A cancelled choice changes nothing. */
  method FishingTrip(world: World, player: Player, choice: int, ticket: nat) returns (caught: Option<Fish>)
    requires Consistent(world, player)
    requires 1 <= choice <= |player.unlocked| ==>
      ticket < Sum(Weighted(world.locations[player.unlocked[choice - 1]].fishes, player.equipment.TotalLevel()))
    modifies player, player.equipment.rod, player.equipment.hook, player.equipment.line
    ensures Consistent(world, player)
    ensures caught.Some? <==> 1 <= choice <= |old(player.unlocked)|
    ensures caught.Some? ==>
      caught.value in world.locations[old(player.unlocked)[choice - 1]].fishes &&
      player.inventory == old(player.inventory) + [caught.value]
    ensures caught.None? ==>
      player.inventory == old(player.inventory) && player.missions == old(player.missions) &&
      player.unlocked == old(player.unlocked) && player.equipment.Levels() == old(player.equipment.Levels())
    ensures caught.Some? ==>
      player.missions == Pending(old(player.missions), player.inventory) &&
      player.Status() == Settle(old(player.missions), player.inventory, old(player.Status()))
  {
    var loc := ChooseLocation(world, player, choice);
    caught := None;
    if loc.Some? {
      var fish := GoFishing(loc.value, player, ticket);
      caught := Some(fish);
      CheckMissions(player);
    }
  }

  /** A new game: the standard registry, a fresh player and the two missions
      "catch 3 rare fish" (unlocks Danau) and "catch a legendary fish"
      (upgrades the rod). */
  method StartGame() returns (world: World, player: Player)
    ensures fresh(world) && fresh(player)
    ensures world.locations == StandardLocations()
    ensures player.inventory == [] && player.unlocked == ["Sungai"]
    ensures player.equipment.Levels() == Loadout(0, 0, 0)
    ensures |player.missions| == 2 && NoDup(player.missions)
    ensures player.missions[0].condition == AtLeastRare(3)
    ensures player.missions[0].reward == UnlockLocation("Danau")
    ensures player.missions[1].condition == AnyLegendary
    ensures player.missions[1].reward == UpgradePart("1")
    ensures Consistent(world, player)
  {
    world := new World();
    player := new Player();
    var rare := new Mission("Tangkap 3 ikan rare", AtLeastRare(3), UnlockLocation("Danau"));
    var legendary := new Mission("Tangkap ikan legendary", AnyLegendary, UpgradePart("1"));
    player.missions := player.missions + [rare, legendary];
  }
}
