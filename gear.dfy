/** Fishing equipment: three parts (rod, hook, line), each with a level that
    names one of three tiers and that an upgrade raises until the top tier. */
module Gear {

  /** Tier labels; a part's level is an index into this list. */
  const Tiers: seq<string> := ["Basic", "Advanced", "Pro"]

  /** The highest level a part can reach: the index of the last tier. */
  const MaxLevel: nat := |Tiers| - 1

  /** One upgrade of one part: up by exactly one below the top tier, no change at it. */
  function Bump(level: nat): (r: nat)
    requires level <= MaxLevel
    ensures r <= MaxLevel
    ensures level <= r <= level + 1
    ensures r == level <==> level == MaxLevel
  {
    if level < MaxLevel then level + 1 else level
  }

  /** `n` upgrades of one part in a row. */
  function Bumps(level: nat, n: nat): (r: nat)
    requires level <= MaxLevel
    ensures level <= r <= MaxLevel
    decreases n
  {
    if n == 0 then level else Bumps(Bump(level), n - 1)
  }

  /** Any run of upgrades saturates: the level climbs one per upgrade and stops at the top tier. */
  lemma {:induction false} BumpsSaturate(level: nat, n: nat)
    requires level <= MaxLevel
    ensures Bumps(level, n) == if level + n < MaxLevel then level + n else MaxLevel
    decreases n
  {
    if n > 0 {
      BumpsSaturate(Bump(level), n - 1);
    }
  }

  /** The levels of the three parts, as values. */
  datatype Loadout = Loadout(rod: nat, hook: nat, line: nat)
  {
    predicate Valid()
    {
      rod <= MaxLevel && hook <= MaxLevel && line <= MaxLevel
    }

    /** The combined level that feeds the catch bonus. */
    function Total(): (t: nat)
      requires Valid()
      ensures t <= 3 * MaxLevel
    {
      rod + hook + line
    }
  }

  /** An upgrade request for one part: "1" the rod, "2" the hook, "3" the line;
      any other choice changes nothing. */
  function UpgradeLoadout(g: Loadout, part: string): (h: Loadout)
    requires g.Valid()
    ensures h.Valid()
    ensures h.rod == (if part == "1" then Bump(g.rod) else g.rod)
    ensures h.hook == (if part == "2" then Bump(g.hook) else g.hook)
    ensures h.line == (if part == "3" then Bump(g.line) else g.line)
    ensures g.Total() <= h.Total() <= g.Total() + 1
  {
    if part == "1" then g.(rod := Bump(g.rod))
    else if part == "2" then g.(hook := Bump(g.hook))
    else if part == "3" then g.(line := Bump(g.line))
    else g
  }

  /** One part of the equipment; `kind` is its display name. */
  class Component {
    const kind: string
    var level: nat

    ghost predicate Valid()
      reads this
    {
      level <= MaxLevel
    }

    constructor (kind: string)
      ensures Valid()
      ensures this.kind == kind && level == 0
    {
      this.kind := kind;
      level := 0;
    }

    /** The tier label of the current level; the index is in range for every valid part. */
    function Name(): (s: string)
      reads this
      requires Valid()
      ensures s in Tiers
    {
      Tiers[level]
    }

    method Upgrade()
      requires Valid()
      modifies this
      ensures Valid()
      ensures old(level) < MaxLevel ==> level == old(level) + 1
      ensures old(level) == MaxLevel ==> level == old(level)
      ensures level == Bump(old(level))
    {
      if level < |Tiers| - 1 {
        level := level + 1;
      }
    }
  }

  /** The player's equipment: three separate parts. */
  class Equipment {
    const rod: Component
    const hook: Component
    const line: Component

    ghost predicate Valid()
      reads rod, hook, line
    {
      rod != hook && hook != line && rod != line &&
      rod.Valid() && hook.Valid() && line.Valid()
    }

    /** The three levels as a value. */
    function Levels(): Loadout
      reads rod, hook, line
    {
      Loadout(rod.level, hook.level, line.level)
    }

    constructor ()
      ensures Valid()
      ensures fresh(rod) && fresh(hook) && fresh(line)
      ensures rod.kind == "Joran" && hook.kind == "Kail" && line.kind == "Senar"
      ensures Levels() == Loadout(0, 0, 0)
    {
      rod := new Component("Joran");
      hook := new Component("Kail");
      line := new Component("Senar");
    }

    /** The sum of the three levels; it lies between 0 and 3 * MaxLevel. */
    function TotalLevel(): (t: nat)
      reads rod, hook, line
      requires Valid()
      ensures Levels().Valid()
      ensures t == Levels().Total()
      ensures t <= 3 * MaxLevel
    {
      rod.level + hook.level + line.level
    }

    method Upgrade(part: string)
      requires Valid()
      modifies rod, hook, line
      ensures Valid()
      ensures Levels() == UpgradeLoadout(old(Levels()), part)
    {
      if part == "1" {
        rod.Upgrade();
      } else if part == "2" {
        hook.Upgrade();
      } else if part == "3" {
        line.Upgrade();
      }
    }
  }
}
