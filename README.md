# Fishing game core, modelled in Dafny

The system is a text fishing game, "Petualangan Mancing Nusantara". A player
fishes at unlocked locations. Each catch is drawn at random, weighted by the
fish's rarity and the player's equipment. The player upgrades three equipment
parts (rod, hook, line) and completes missions that unlock locations or
upgrade the rod. New locations can be added at run time.

This project models the game's state and rules without the console menus:

- `lists.dfy` (`Lists`): the two Python list facts the game relies on. These
  are lists without repeats, and `list.remove`, which drops the first equal
  element.
- `gear.dfy` (`Gear`): `Component` and `Equipment` as classes whose `level`
  fields are updated in place. `Loadout`, `Bump` and `UpgradeLoadout` are
  their value-level specification.
- `catch.dfy` (`Catch`): fish and locations as values. The weight loop of a
  fishing trip is a method. The weighted draw of `random.choices` is the
  function `Pick`, which takes an integer ticket.
- `missions.dfy` (`Missions`): mission conditions and rewards as tagged
  values. The missions themselves are objects, because the game tells them
  apart by identity. This module also holds the value-level specification of
  completing one mission (`Complete`) and of a whole check pass (`Pending`,
  `Settle`).
- `game.dfy` (`Game`): the player and the location registry (`World`) as
  classes. It holds `CompleteMission`, the snapshot loop of `CheckMissions`,
  the fishing trip, location choice and creation, inventory counting, the
  initial game, and the joint invariant `Consistent`.

`Consistent` says four things:

- unlocked locations are registered;
- unlocked locations are listed once;
- every unlock reward names a registered location;
- every registered location has at least one fish, and each of its fish names
  it as home.

`StartGame` establishes it. `AddNewLocation` and `FishingTrip` preserve it.
`FishingTrip` is the menu's fishing action: choose a location, fish, then
check the missions.

Two details of the code that the model keeps:

- Active missions are a list, not a set. `complete_mission` removes the first
  entry identical to the mission.
- The "Danau" reward checks only the unlocked list, not the registry. The
  invariant `Consistent` is what makes that enough.

## Model

| member | source | states |
|---|---|---|
| `Gear.Bump` | main.py:26-31 | one upgrade stays within the tiers, raises the level by at most one, and leaves it unchanged exactly at the top tier |
| `Gear.Bumps` | main.py:26-31 | a run of upgrades never lowers the level and never passes the top tier |
| `Gear.BumpsSaturate` | main.py:26-31 | n upgrades from level l give min(l + n, 2) |
| `Gear.UpgradeLoadout` | main.py:40-48 | "1", "2" and "3" upgrade only the rod, the hook or the line; any other choice changes no level; the total rises by at most one |
| `Gear.Component.constructor` | main.py:18-20 | a new part starts at level 0 with its kind |
| `Gear.Component.Name` | main.py:22-24 | for every level a part can reach, the tier lookup is in range and yields one of the tier labels |
| `Gear.Component.Upgrade` | main.py:26-31 | below level 2 the level rises by exactly 1; at level 2 it stays; the level stays in 0..2 |
| `Gear.Equipment.constructor` | main.py:35-38 | three distinct fresh parts (Joran, Kail, Senar), all at level 0 |
| `Gear.Equipment.TotalLevel` | main.py:54-56 | the sum of the three levels, which lies in 0..6 |
| `Gear.Equipment.Upgrade` | main.py:40-48 | the new levels are the old ones upgraded at the chosen part only; the parts stay in range |
| `Catch.BaseWeight` | main.py:100 | every rarity has a positive base weight (60, 30, 10) |
| `Catch.RarityWeight` | main.py:100-106 | common 60, rare 30 + 3 * level, legendary 10 + (3 * level) / 2 rounded down; never below the base, always positive |
| `Catch.Weighted` | main.py:97-107 | one weight per fish of the catalogue |
| `Catch.CatchWeights` | main.py:97-107 | the loop builds one weight per fish, in catalogue order, with the rarity weight of that fish; every weight is positive |
| `Catch.WeightGrowsWithLevel` | main.py:101-106 | a higher combined level never lowers a weight; common weights do not change; rare weights gain exactly 3 per level |
| `Catch.Pick` | main.py:108 | the drawn index is in range, and it is the one whose running-total interval contains the ticket |
| `Catch.PickExactly` | main.py:108 | index i is drawn exactly for the w[i] tickets in its interval, so with probability w[i] / total |
| `Catch.PickReaches` | main.py:108 | every index of positive weight is drawn by some ticket |
| `Lists.RemoveFirst` | main.py:86 | removing an element that is present shortens the list by one |
| `Lists.RemoveFirstMultiset` | main.py:86 | removal takes away one copy of the mission and nothing else |
| `Lists.RemoveFirstAt` | main.py:86 | when the first copy sits between a and b, removal leaves exactly a + b |
| `Lists.RemoveFirstNoDup` | main.py:86 | in a list without repeats, removal keeps it without repeats and leaves no copy behind |
| `Missions.Mission.constructor` | main.py:112-116 | a mission holds its description, condition and reward |
| `Missions.CountRarity` | main.py:151 | the rare-fish count never exceeds the inventory size |
| `Missions.CountRarityConcat` | main.py:151 | counts over two stretches of catches add up |
| `Missions.CountRarityPositive` | main.py:151-156 | a rarity's count is positive exactly when some fish of that rarity was caught |
| `Missions.HoldsPersists` | main.py:148-158 | a mission condition that holds keeps holding as the inventory grows |
| `Missions.ThirdRareCompletes` | main.py:149-151 | with two rare fish, "catch 3 rare fish" fails; after a third rare catch it holds |
| `Missions.FirstLegendaryCompletes` | main.py:154-156 | with no legendary fish, "catch a legendary fish" fails; after one is caught it holds |
| `Missions.ApplyReward` | main.py:152-157 | an unlock adds the location only if it is missing, so the unlocked list keeps no repeats; an upgrade request applies the equipment upgrade; nothing else changes |
| `Missions.Complete` | main.py:81-87 | if the mission is active and its condition holds, it is removed once and its reward is applied once; otherwise nothing changes; a list without repeats then no longer contains it |
| `Missions.Pending` | main.py:231-232 | after a pass, exactly the active missions whose condition failed remain |
| `Missions.Settle` | main.py:231-232 | a pass applies rewards only of missions whose condition holds, only grows the unlocked list, keeps it without repeats, and unlocks only reward targets |
| `Missions.PassStep` | main.py:231-232 | examining the next mission of the copy turns the state after i missions into the state after i + 1 |
| `Missions.PendingNoDup` | main.py:231-232 | a pass keeps a repeat-free mission list repeat-free |
| `Missions.SecondPassIsQuiet` | main.py:223-232 | a second pass right after the first, with the same inventory, removes nothing and grants nothing |
| `Game.Occurrences` | main.py:75-77 | a fish label is counted at most once per catch |
| `Game.FirstSeen` | main.py:75-79 | the listed labels are without repeats and are exactly the labels caught at least once |
| `Game.OccurrencesConcat` | main.py:75-77 | counts over two stretches of catches add up |
| `Game.OccurrencesOrderFree` | main.py:75-77 | swapping two stretches of catches leaves every count unchanged |
| `Game.Catalogue` | main.py:127-144 | a starting location is filed under its name with four fish that all live there |
| `Game.StandardLocations` | main.py:126-145 | the registry starts with Sungai, Danau and Laut, each filed correctly |
| `Game.DefaultFish` | main.py:173-175 | a new location gets three common fish that all live there |
| `Game.World.constructor` | main.py:126-145 | the registry starts as the standard one, and it is well formed |
| `Game.Player.constructor` | main.py:60-64 | a new player has fresh level-0 equipment, an empty inventory, no missions, and Sungai unlocked |
| `Game.Player.AddFish` | main.py:66-68 | the inventory gains exactly the caught fish at its end; missions and unlocked locations are unchanged |
| `Game.Player.CompleteMission` | main.py:81-87 | the new missions and progress are those `Missions.Complete` gives; the inventory is unchanged |
| `Game.Player.InventoryCounts` | main.py:70-79 | one count per (name, rarity) label, equal to the number of such catches; labels listed once, in order of first catch; an empty inventory gives nothing |
| `Game.GoFishing` | main.py:95-109 | the caught fish is from the catalogue, at the index the weighted draw selects; the inventory grows by exactly that fish |
| `Game.EveryFishCatchable` | main.py:97-108 | at every equipment level, every fish of a catalogue can be drawn |
| `Game.CheckMissions` | main.py:223-232 | each mission active at the start is examined once; afterwards exactly the unmet ones remain; the rewards of the met ones are applied once, in list order; the inventory is unchanged; the unlocked list only grows, keeps no repeats, and gains only reward targets |
| `Game.ChooseLocation` | main.py:208-220 | a choice in 1..n yields the registered location of the chosen unlocked name; any other choice cancels |
| `Game.AddNewLocation` | main.py:163-178 | an empty or registered name is rejected, and the registry and unlocked list stay unchanged; otherwise the location is registered with three common fish and unlocked; `Consistent` is preserved |
| `Game.FishingTrip` | main.py:242-246 | the fishing action preserves `Consistent`; on a valid choice the inventory grows by one fish of the chosen location, then the mission check leaves exactly the unmet missions and applies the met ones' rewards in list order; on a cancel the inventory, missions, unlocked list and equipment levels are unchanged |
| `Game.StartGame` | main.py:235-237 | the standard registry, a fresh player and the two missions in order: "3 rare" unlocks Danau, "legendary" upgrades the rod; `Consistent` holds |

## Left out

- Console output and input are not modelled: `print`, `input`, `show_main_menu`, `show_equipment_menu` and the `main` loop's dispatch. The messages carry no state. The fishing action and the game start are modelled.
- `Fish.__str__` and `Equipment.status` are not modelled, because they only format text. `InventoryCounts` groups fish by (name, rarity). The text "name (rarity)" determines both, since the rarity is the text in the last parentheses.
- `random.random()` is a parameter. `GoFishing` takes `ticket` = floor(random() * total weight). Finding the first running total above the real number gives the same index as finding the first one above its integer part, so `Pick` is exact up to floating-point rounding in the library.
- `Game.AddNewLocation` takes the name after `.strip()`; the stripping of typed text is not modelled.
- `Game.ChooseLocation` takes the choice as an integer. Typed text that is not a number cancels, like an out-of-range number; `int()` parsing is not modelled.
- Rarity is a three-value type. The source uses strings and would fail on any other string; no fish in the game has one.
- Mission conditions and rewards are tags for the two shapes the game uses. General Python closures are not modelled.
- `Game.CheckMissions` does not mention the registry, so its contract does not state `Consistent` itself. It states the facts `Consistent` needs: unlocked names are new only if they are reward targets, the list stays repeat-free, and reward targets only shrink. `FishingTrip` combines them.
- The unused `sys` import is not modelled.
