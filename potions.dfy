/** Consumables: potions that heal a character or give it a buff. A potion
    has no setters and using it touches only the target, so potions are
    values here, and `Use` cannot change a potion's uses or mana cost. */
module Potions {
  import opened Errors
  import opened Wrappers
  import opened Datatypes
  import opened Characters
  import opened Monsters

  datatype Potion =
    | PlainPotion(name: string, manaConsume: int, uses: int)
    | HealPotion(name: string, manaConsume: int, uses: int, healingEffect: int)
    | BuffPotion(name: string, manaConsume: int, uses: int, buff: Buff)
  {
    /** What the constructors guarantee of every potion they let through. */
    predicate Valid() {
      name != "" && manaConsume >= 0 && uses > 0 && (HealPotion? ==> healingEffect > 0)
    }
  }

  /** The Potion constructor's checks in source order. */
  function CheckPotion(name: string, manaConsume: int, uses: int): (r: Outcome)
    ensures r.Pass? <==> name != "" && manaConsume >= 0 && uses > 0
    ensures name == "" ==> r == Fail(ValueError("name"))
    ensures name != "" && manaConsume < 0 ==> r == Fail(ValueError("mana_consume"))
    ensures name != "" && manaConsume >= 0 && uses <= 0 ==> r == Fail(ValueError("uses"))
  {
    if name == "" then Fail(ValueError("name"))
    else if manaConsume < 0 then Fail(ValueError("mana_consume"))
    else if uses <= 0 then Fail(ValueError("uses"))
    else Pass
  }

  /** The base Potion constructor; one use unless told otherwise. */
  function NewPotion(name: string, manaConsume: int, uses: int := 1): (r: Result<Potion>)
    ensures r.Ok? <==> CheckPotion(name, manaConsume, uses).Pass?
    ensures r.Err? ==> Fail(r.error) == CheckPotion(name, manaConsume, uses)
    ensures r.Ok? ==> r.value == PlainPotion(name, manaConsume, uses) && r.value.Valid()
  {
    var check := CheckPotion(name, manaConsume, uses);
    if check.Fail? then Err(check.error) else Ok(PlainPotion(name, manaConsume, uses))
  }

  /** The HealPotion constructor: the Potion checks first, then a positive
      healing effect. */
  function NewHealPotion(name: string, manaConsume: int, healingEffect: int, uses: int := 1): (r: Result<Potion>)
    ensures r.Ok? <==> CheckPotion(name, manaConsume, uses).Pass? && healingEffect > 0
    ensures CheckPotion(name, manaConsume, uses).Fail? ==> Fail(r.error) == CheckPotion(name, manaConsume, uses)
    ensures CheckPotion(name, manaConsume, uses).Pass? && healingEffect <= 0 ==>
              r == Err(ValueError("healing_effect"))
    ensures r.Ok? ==> r.value == HealPotion(name, manaConsume, uses, healingEffect) && r.value.Valid()
  {
    var check := CheckPotion(name, manaConsume, uses);
    if check.Fail? then Err(check.error)
    else if healingEffect <= 0 then Err(ValueError("healing_effect"))
    else Ok(HealPotion(name, manaConsume, uses, healingEffect))
  }

  /** The BuffPotion constructor: the Potion checks; any Buff is accepted. */
  function NewBuffPotion(name: string, manaConsume: int, buff: Buff, uses: int := 1): (r: Result<Potion>)
    ensures r.Ok? <==> CheckPotion(name, manaConsume, uses).Pass?
    ensures r.Err? ==> Fail(r.error) == CheckPotion(name, manaConsume, uses)
    ensures r.Ok? ==> r.value == BuffPotion(name, manaConsume, uses, buff) && r.value.Valid()
  {
    var check := CheckPotion(name, manaConsume, uses);
    if check.Fail? then Err(check.error) else Ok(BuffPotion(name, manaConsume, uses, buff))
  }

  /** `use(character)`. The base potion's use does nothing. A heal or buff
      potion used on anything but a Character raises TypeError and changes
      nothing. A heal potion sets the character's hp to hp + healing effect,
      capped at max_hp, and changes nothing else: hp never ends above max_hp
      and, for a valid potion, an hp at most max_hp never goes down. A buff
      potion appends exactly its buff to the character's active buffs and
      changes nothing else, so hp, mana and stats stay as they were. */
  method Use(potion: Potion, target: Combatant) returns (r: Outcome)
    modifies target.Footprint()
    ensures potion.PlainPotion? ==> r == Pass && unchanged(target.Footprint())
    ensures !potion.PlainPotion? && target.Foe? ==>
              r == Fail(TypeError("character")) && unchanged(target.Footprint())
    ensures potion.HealPotion? && target.Hero? ==>
              r == Pass &&
              target.character.State() ==
              old(target.character.State()).(hp := Min(target.character.maxHp, old(target.character.hp) + potion.healingEffect))
    ensures potion.HealPotion? && target.Hero? ==> target.character.hp <= target.character.maxHp
    ensures potion.HealPotion? && potion.Valid() && target.Hero? && old(target.character.hp) <= target.character.maxHp ==>
              old(target.character.hp) <= target.character.hp
    ensures potion.BuffPotion? && target.Hero? ==>
              r == Pass &&
              target.character.State() ==
              old(target.character.State()).(activeBuffs := old(target.character.activeBuffs) + [potion.buff])
  {
    match potion
    case PlainPotion(_, _, _) =>
      r := Pass;
    case HealPotion(_, _, _, healingEffect) =>
      if target.Foe? {
        return Fail(TypeError("character"));
      }
      var c := target.character;
      c.SetHp(Min(c.maxHp, c.hp + healingEffect));
      r := Pass;
    case BuffPotion(_, _, _, buff) =>
      if target.Foe? {
        return Fail(TypeError("character"));
      }
      target.character.AddBuff(buff);
      r := Pass;
  }

  /** A heal potion of 20 used on a character at 90 of 100 hp leaves it at
      100, not 110. */
  method HealPotionCapsAtMaxHp() returns (before: int, after: int)
    ensures before == 90 && after == 100
  {
    var hero := new Character("hero", 100, Zero, map[], 1, {});
    hero.SetHp(90);
    before := hero.hp;
    var potion := HealPotion("potion", 0, 1, 20);
    var _ := Use(potion, Hero(hero));
    after := hero.hp;
  }
}
