/** The value records of the combat layer: the four-attribute stat block and
    the two status effects (buffs and poisons), with the validation their
    constructors perform. */
module Datatypes {
  import opened Errors
  import opened Wrappers

  /** Python's `max(0, x)`. */
  function ClampAtZero(x: int): (r: nat)
    ensures r >= x && (r == 0 || r == x)
  {
    if x > 0 then x else 0
  }

  /** Python's `min(a, b)`. */
  function Min(a: int, b: int): (r: int)
    ensures r <= a && r <= b && (r == a || r == b)
  {
    if a <= b then a else b
  }

  /** A stat block. Every Stats instance has passed the constructor's check,
      so the four fields are natural numbers. */
  datatype Stats = Stats(strength: nat, intelligence: nat, defense: nat, dexterity: nat)
  {
    /** Every field of this block is at least the matching field of `other`. */
    predicate AtLeast(other: Stats) {
      && strength >= other.strength
      && intelligence >= other.intelligence
      && defense >= other.defense
      && dexterity >= other.dexterity
    }

    /** `self + other`: a fieldwise sum, again a valid stat block. */
    function Add(other: Stats): (r: Stats)
      ensures r.AtLeast(this) && r.AtLeast(other)
    {
      Stats(strength + other.strength, intelligence + other.intelligence,
            defense + other.defense, dexterity + other.dexterity)
    }

    /** `self - other`: a fieldwise difference that stops at 0, so it is
        again a valid stat block, never above `self`, and a field is 0
        exactly when `other` had at least as much of it. */
    function Sub(other: Stats): (r: Stats)
      ensures this.AtLeast(r)
      ensures r.strength == 0 <==> strength <= other.strength
      ensures r.intelligence == 0 <==> intelligence <= other.intelligence
      ensures r.defense == 0 <==> defense <= other.defense
      ensures r.dexterity == 0 <==> dexterity <= other.dexterity
    {
      Stats(ClampAtZero(strength - other.strength),
            ClampAtZero(intelligence - other.intelligence),
            ClampAtZero(defense - other.defense),
            ClampAtZero(dexterity - other.dexterity))
    }
  }

  const Zero := Stats(0, 0, 0, 0)

  /** The constructor's check: the fields are inspected in declaration order
      and the first negative one is reported. */
  function NewStats(strength: int, intelligence: int, defense: int, dexterity: int): (r: Result<Stats>)
    ensures r.Ok? <==> strength >= 0 && intelligence >= 0 && defense >= 0 && dexterity >= 0
    ensures r.Ok? ==> r.value == Stats(strength, intelligence, defense, dexterity)
    ensures strength < 0 ==> r == Err(ValueError("strength"))
    ensures strength >= 0 && intelligence < 0 ==> r == Err(ValueError("intelligence"))
    ensures strength >= 0 && intelligence >= 0 && defense < 0 ==> r == Err(ValueError("defense"))
    ensures strength >= 0 && intelligence >= 0 && defense >= 0 && dexterity < 0 ==> r == Err(ValueError("dexterity"))
  {
    if strength < 0 then Err(ValueError("strength"))
    else if intelligence < 0 then Err(ValueError("intelligence"))
    else if defense < 0 then Err(ValueError("defense"))
    else if dexterity < 0 then Err(ValueError("dexterity"))
    else Ok(Stats(strength, intelligence, defense, dexterity))
  }

  /** Adding a block and then subtracting it again gives back the original. */
  lemma AddSubRoundTrip(a: Stats, b: Stats)
    ensures a.Add(b).Sub(b) == a
  {
  }

  /** Subtracting a block that is no larger and adding it back also gives
      back the original; without that premise the clamp loses information. */
  lemma SubAddRoundTrip(a: Stats, b: Stats)
    ensures a.AtLeast(b) <==> a.Sub(b).Add(b) == a
  {
  }

  /** A block minus itself is all zeros. */
  lemma SubSelfIsZero(a: Stats)
    ensures a.Sub(a) == Zero
  {
  }

  /** The stats a buff may name. */
  const BuffStats: seq<string> := ["defense", "strength", "dexterity", "intelligence"]

  datatype Buff = Buff(name: string, stat: string, amount: int, duration: int, applied: bool)
  {
    /** What the constructor guarantees of every Buff it lets through. */
    predicate Valid() {
      name != "" && stat in BuffStats && amount >= 0 && duration > 0
    }
  }

  /** The Buff constructor's checks in source order; `applied` defaults to false. */
  function NewBuff(name: string, stat: string, amount: int, duration: int, applied: bool := false): (r: Result<Buff>)
    ensures r.Ok? <==> name != "" && stat in BuffStats && amount >= 0 && duration > 0
    ensures r.Ok? ==> r.value == Buff(name, stat, amount, duration, applied) && r.value.Valid()
    ensures name == "" ==> r == Err(ValueError("name"))
    ensures name != "" && stat !in BuffStats ==> r == Err(ValueError("stat"))
    ensures name != "" && stat in BuffStats && amount < 0 ==> r == Err(ValueError("amount"))
    ensures name != "" && stat in BuffStats && amount >= 0 && duration <= 0 ==> r == Err(ValueError("duration"))
  {
    if name == "" then Err(ValueError("name"))
    else if stat !in BuffStats then Err(ValueError("stat"))
    else if amount < 0 then Err(ValueError("amount"))
    else if duration <= 0 then Err(ValueError("duration"))
    else Ok(Buff(name, stat, amount, duration, applied))
  }

  /** A buff built without naming `applied` starts out not applied. */
  lemma NewBuffNotApplied(name: string, stat: string, amount: int, duration: int)
    ensures NewBuff(name, stat, amount, duration).Ok? ==> !NewBuff(name, stat, amount, duration).value.applied
  {
  }

  datatype Poison = Poison(name: string, damagePerTurn: int, duration: int)
  {
    /** What the constructor guarantees of every Poison it lets through. */
    predicate Valid() {
      name != "" && damagePerTurn > 0 && duration > 0
    }
  }

  /** The Poison constructor's checks in source order. */
  function NewPoison(name: string, damagePerTurn: int, duration: int): (r: Result<Poison>)
    ensures r.Ok? <==> name != "" && damagePerTurn > 0 && duration > 0
    ensures r.Ok? ==> r.value == Poison(name, damagePerTurn, duration) && r.value.Valid()
    ensures name == "" ==> r == Err(ValueError("name"))
    ensures name != "" && damagePerTurn <= 0 ==> r == Err(ValueError("damage_per_turn"))
    ensures name != "" && damagePerTurn > 0 && duration <= 0 ==> r == Err(ValueError("duration"))
  {
    if name == "" then Err(ValueError("name"))
    else if damagePerTurn <= 0 then Err(ValueError("damage_per_turn"))
    else if duration <= 0 then Err(ValueError("duration"))
    else Ok(Poison(name, damagePerTurn, duration))
  }
}
