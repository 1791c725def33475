/** The hero side of combat: a character's hp, mana, base stats, equipment
    and active status effects, and the operations that change them. */
module Characters {
  import opened Errors
  import opened Wrappers
  import opened Datatypes
  import opened Items

  /** The checks of the Character constructor that actually raise. The
      checks of the name, of hp and of base_stats build an exception without
      raising it, so they let everything through. `slots` is the fixed set
      of slot names the game allows. */
  function CheckCharacter(equipment: map<string, Option<Item>>, mana: int, slots: set<string>): (r: Outcome)
    ensures r.Pass? <==> equipment.Keys <= slots && mana > 0
    ensures !(equipment.Keys <= slots) ==> r == Fail(ValueError("equipment"))
    ensures equipment.Keys <= slots && mana <= 0 ==> r == Fail(ValueError("mana"))
  {
    if !(equipment.Keys <= slots) then Fail(ValueError("equipment"))
    else if mana <= 0 then Fail(ValueError("mana"))
    else Pass
  }

  /** Everything about a character that its operations may change. */
  datatype CharacterState = CharacterState(
    hp: int,
    baseStats: Stats,
    equipment: map<string, Option<Item>>,
    mana: int,
    activeBuffs: seq<Buff>,
    activePoisons: seq<Poison>)

  class Character {
    const name: string
    var hp: int
    /** The hp given at construction; there is no setter. */
    const maxHp: int
    var baseStats: Stats
    var equipment: map<string, Option<Item>>
    var mana: int
    var activeBuffs: seq<Buff>
    /** The poisons cast on this character. characters.py defines no
        `add_poison`, which the monsters call; this list and `AddPoison`
        stand for it. */
    var activePoisons: seq<Poison>

    /** The invariant the source keeps: mana starts positive and its setter
        refuses negative values. Nothing of the kind holds for hp. */
    ghost predicate Valid()
      reads this
    {
      mana >= 0
    }

    ghost function State(): CharacterState
      reads this
    {
      CharacterState(hp, baseStats, equipment, mana, activeBuffs, activePoisons)
    }

    /** Builds a character from arguments that passed `CheckCharacter`:
        max_hp is the initial hp and there are no active buffs. */
    constructor (name: string, hp: int, baseStats: Stats, equipment: map<string, Option<Item>>,
                 mana: int, slots: set<string>)
      requires CheckCharacter(equipment, mana, slots).Pass?
      ensures Valid()
      ensures this.name == name && maxHp == hp
      ensures State() == CharacterState(hp, baseStats, equipment, mana, [], [])
    {
      this.name := name;
      this.hp := hp;
      this.maxHp := hp;
      this.baseStats := baseStats;
      this.equipment := equipment;
      this.mana := mana;
      this.activeBuffs := [];
      this.activePoisons := [];
    }

    /** The hp setter. Its guards do not raise, so any value is stored. */
    method SetHp(value: int)
      modifies this`hp
      ensures hp == value
    {
      hp := value;
    }

    /** The mana setter: a negative value is rejected and nothing changes. */
    method SetMana(value: int) returns (r: Outcome)
      modifies this`mana
      ensures value < 0 ==> r == Fail(ValueError("mana")) && mana == old(mana)
      ensures value >= 0 ==> r == Pass && mana == value && Valid()
      ensures old(Valid()) ==> Valid()
    {
      if value < 0 {
        return Fail(ValueError("mana"));
      }
      mana := value;
      r := Pass;
    }

    /** The base_stats setter. Its guard does not raise; every Stats is stored. */
    method SetBaseStats(value: Stats)
      modifies this`baseStats
      ensures baseStats == value
    {
      baseStats := value;
    }

    /** Puts `item` into its slot. A slot the equipment mapping lacks raises
        KeyError, an occupied slot InvalidEquipError; either way nothing
        changes. Otherwise only that slot changes, and the base stats are not
        touched (only the equipment is in the frame). */
    method Equip(item: Item) returns (r: Outcome)
      modifies this`equipment
      ensures item.slot !in old(equipment) ==>
                r == Fail(KeyError(item.slot)) && equipment == old(equipment)
      ensures item.slot in old(equipment) && old(equipment)[item.slot].Some? ==>
                r == Fail(InvalidEquipError) && equipment == old(equipment)
      ensures item.slot in old(equipment) && old(equipment)[item.slot].None? ==>
                r == Pass && equipment == old(equipment)[item.slot := Some(item)]
      ensures equipment.Keys == old(equipment).Keys
    {
      if item.slot !in equipment {
        return Fail(KeyError(item.slot));
      }
      if equipment[item.slot].Some? {
        return Fail(InvalidEquipError);
      }
      equipment := equipment[item.slot := Some(item)];
      r := Pass;
    }

    /** Takes `item` out of its slot. Unless that slot holds this very item
        (items compare by identity) ValueError is raised and nothing changes;
        otherwise only that slot changes, to empty. */
    method Unequip(item: Item) returns (r: Outcome)
      modifies this`equipment
      ensures item.slot !in old(equipment) ==>
                r == Fail(KeyError(item.slot)) && equipment == old(equipment)
      ensures item.slot in old(equipment) && old(equipment)[item.slot] != Some(item) ==>
                r == Fail(ValueError("item")) && equipment == old(equipment)
      ensures item.slot in old(equipment) && old(equipment)[item.slot] == Some(item) ==>
                r == Pass && equipment == old(equipment)[item.slot := None]
      ensures equipment.Keys == old(equipment).Keys
    {
      if item.slot !in equipment {
        return Fail(KeyError(item.slot));
      }
      if equipment[item.slot] != Some(item) {
        return Fail(ValueError("item"));
      }
      equipment := equipment[item.slot := None];
      r := Pass;
    }

    /** Negative damage is rejected. Otherwise hp drops by the damage and
        stops at 0: afterwards hp is not negative, it is not above what it
        was whenever it was not negative before, and the character is still
        alive exactly when its hp exceeded the damage. */
    method ReceiveDamage(damage: int) returns (r: Outcome)
      modifies this`hp
      ensures damage < 0 ==> r == Fail(ValueError("damage")) && hp == old(hp)
      ensures damage >= 0 ==> r == Pass && hp == ClampAtZero(old(hp) - damage)
      ensures damage >= 0 ==> hp >= 0 && (IsAlive() <==> old(hp) > damage)
      ensures old(hp) >= 0 ==> hp <= old(hp)
    {
      if damage < 0 {
        return Fail(ValueError("damage"));
      }
      SetHp(ClampAtZero(hp - damage));
      r := Pass;
    }

    /** Whether the character still stands. */
    function IsAlive(): (alive: bool)
      reads this
      ensures alive <==> hp > 0
    {
      if hp > 0 then true else false
    }

    /** Only an amount of exactly 0 is rejected. Otherwise hp becomes
        hp + amount, capped at max_hp, so a successful heal never leaves hp
        above max_hp; a positive amount never lowers an hp that was at most
        max_hp, while a negative amount lowers hp (possibly below 0). */
    method Heal(amount: int) returns (r: Outcome)
      modifies this`hp
      ensures amount == 0 ==> r == Fail(ValueError("amount")) && hp == old(hp)
      ensures amount != 0 ==> r == Pass && hp == Min(maxHp, old(hp) + amount)
      ensures amount != 0 ==> hp <= maxHp
      ensures amount > 0 && old(hp) <= maxHp ==> old(hp) <= hp
      ensures amount < 0 ==> hp < old(hp)
    {
      if amount == 0 {
        return Fail(ValueError("amount"));
      }
      SetHp(Min(maxHp, hp + amount));
      r := Pass;
    }

    /** Appends exactly `buff` to the active buffs and changes nothing else. */
    method AddBuff(buff: Buff)
      modifies this`activeBuffs
      ensures activeBuffs == old(activeBuffs) + [buff]
    {
      activeBuffs := activeBuffs + [buff];
    }

    /** Appends exactly `poison` to the active poisons and changes nothing else. */
    method AddPoison(poison: Poison)
      modifies this`activePoisons
      ensures activePoisons == old(activePoisons) + [poison]
    {
      activePoisons := activePoisons + [poison];
    }
  }

  /** The Character constructor: an error, or a fresh character. */
  method NewCharacter(name: string, hp: int, baseStats: Stats, equipment: map<string, Option<Item>>,
                      mana: int, slots: set<string>) returns (r: Result<Character>)
    ensures r.Ok? <==> CheckCharacter(equipment, mana, slots).Pass?
    ensures r.Err? ==> Fail(r.error) == CheckCharacter(equipment, mana, slots)
    ensures r.Ok? ==> fresh(r.value) && r.value.Valid()
    ensures r.Ok? ==> r.value.name == name && r.value.maxHp == hp
    ensures r.Ok? ==> r.value.State() == CharacterState(hp, baseStats, equipment, mana, [], [])
  {
    var check := CheckCharacter(equipment, mana, slots);
    if check.Fail? {
      return Err(check.error);
    }
    var c := new Character(name, hp, baseStats, equipment, mana, slots);
    r := Ok(c);
  }

  /** Equipping an item into an empty slot and then unequipping it restores
      the equipment mapping exactly; the base stats never move. */
  method EquipUnequipRoundTrip(c: Character, item: Item) returns (equipped: Outcome, unequipped: Outcome)
    requires item.slot in c.equipment && c.equipment[item.slot].None?
    modifies c`equipment
    ensures equipped == Pass && unequipped == Pass
    ensures c.equipment == old(c.equipment)
    ensures c.baseStats == old(c.baseStats)
  {
    equipped := c.Equip(item);
    unequipped := c.Unequip(item);
  }
}
