/** The enemy side of combat: a monster's level-scaled hp and damage, its
    equipment and what it may drop, and the five variants (plain, Goblin,
    Witch, Zombie, Spider) with their attacks and special moves. Random
    rolls are parameters: the caller supplies which outcome happened. */
module Monsters {
  import opened Errors
  import opened Wrappers
  import opened Datatypes
  import opened Items
  import opened Characters
  import opened Lists

  /** Which monster class an object is, with the constructor arguments that
      class keeps: how many buffs a Goblin steals, a Zombie's unscaled hp for
      revival, a Spider's (scaled) poison. */
  datatype Kind = Basic | Goblin(buffStolePerTurn: int) | Witch | Zombie(initialHp: int) | Spider(poison: Poison)

  /** A target of a cast, a steal or a potion: only a Character passes the
      source's `isinstance(target, Character)` check. */
  datatype Combatant = Hero(character: Character) | Foe(monster: Monster)
  {
    function Footprint(): set<object> {
      match this
      case Hero(c) => {c}
      case Foe(m) => {m}
    }
  }

  /** The Monster constructor's checks in source order (non-int arguments and
      non-Item equipment are excluded by the types). */
  function CheckMonster(name: string, hp: int, baseDamage: int, bonusDamage: int,
                        equipment: map<string, Option<Item>>, level: int, slots: set<string>): (r: Outcome)
    ensures r.Pass? <==> name != "" && hp > 0 && baseDamage > 0 && bonusDamage > 0
                         && equipment.Keys <= slots && level > 0
    ensures name == "" ==> r == Fail(ValueError("name"))
    ensures name != "" && hp <= 0 ==> r == Fail(ValueError("hp"))
    ensures name != "" && hp > 0 && baseDamage <= 0 ==> r == Fail(ValueError("base_damage"))
    ensures name != "" && hp > 0 && baseDamage > 0 && bonusDamage <= 0 ==>
              r == Fail(ValueError("bonus_damage"))
    ensures name != "" && hp > 0 && baseDamage > 0 && bonusDamage > 0 && !(equipment.Keys <= slots) ==>
              r == Fail(ValueError("equipment"))
    ensures (name != "" && hp > 0 && baseDamage > 0 && bonusDamage > 0 && equipment.Keys <= slots
             && level <= 0) ==> r == Fail(ValueError("level"))
  {
    if name == "" then Fail(ValueError("name"))
    else if hp <= 0 then Fail(ValueError("hp"))
    else if baseDamage <= 0 then Fail(ValueError("base_damage"))
    else if bonusDamage <= 0 then Fail(ValueError("bonus_damage"))
    else if !(equipment.Keys <= slots) then Fail(ValueError("equipment"))
    else if level <= 0 then Fail(ValueError("level"))
    else Pass
  }

  /** The Goblin constructor: the Monster checks first, then a positive steal count. */
  function CheckGoblin(name: string, hp: int, baseDamage: int, bonusDamage: int,
                       equipment: map<string, Option<Item>>, buffStolePerTurn: int, level: int,
                       slots: set<string>): (r: Outcome)
    ensures r.Pass? <==> CheckMonster(name, hp, baseDamage, bonusDamage, equipment, level, slots).Pass?
                         && buffStolePerTurn > 0
    ensures CheckMonster(name, hp, baseDamage, bonusDamage, equipment, level, slots).Fail? ==>
              r == CheckMonster(name, hp, baseDamage, bonusDamage, equipment, level, slots)
    ensures (CheckMonster(name, hp, baseDamage, bonusDamage, equipment, level, slots).Pass?
             && buffStolePerTurn <= 0) ==> r == Fail(ValueError("buff_stole_per_turn"))
  {
    var base := CheckMonster(name, hp, baseDamage, bonusDamage, equipment, level, slots);
    if base.Fail? then base
    else if buffStolePerTurn <= 0 then Fail(ValueError("buff_stole_per_turn"))
    else Pass
  }

  /** A Witch's poison after construction: its damage is multiplied by the level. */
  function WitchScaled(p: Poison, level: int): Poison {
    p.(damagePerTurn := p.damagePerTurn * level)
  }

  /** A Spider's poison after construction: damage and duration are both
      multiplied by the level. */
  function SpiderScaled(p: Poison, level: int): Poison {
    p.(damagePerTurn := p.damagePerTurn * level, duration := p.duration * level)
  }

  /** Scaling by a positive level keeps a poison valid and never weakens it. */
  lemma ScaledPoisonsStayValid(p: Poison, level: int)
    requires p.Valid() && level > 0
    ensures WitchScaled(p, level).Valid() && SpiderScaled(p, level).Valid()
    ensures WitchScaled(p, level).damagePerTurn >= p.damagePerTurn
    ensures SpiderScaled(p, level).damagePerTurn >= p.damagePerTurn
    ensures SpiderScaled(p, level).duration >= p.duration
  {
    assert p.damagePerTurn * level >= p.damagePerTurn * 1;
    assert p.duration * level >= p.duration * 1;
  }

  /** Everything about a monster that its operations may change. */
  datatype MonsterState = MonsterState(hp: int, poisons: seq<Poison>, canRevive: bool, canUsePotion: bool)

  class Monster {
    const kind: Kind
    const level: int
    const name: string
    var hp: int
    /** The UNSCALED hp given to the constructor, while hp itself is scaled. */
    const maxHp: int
    const baseDamage: int
    const bonusDamage: int
    const equipment: map<string, Option<Item>>
    /** A Witch's remaining supply of poisons (empty for the other classes). */
    var poisons: seq<Poison>
    /** A Zombie's single revival (false for the other classes). */
    var canRevive: bool
    /** Whether a Spider may still cast its poison (false for the other classes). */
    var canUsePotion: bool

    /** What construction establishes and every operation keeps; in
        particular hp is never negative, since the hp setter refuses that. */
    ghost predicate Valid()
      reads this
    {
      && level > 0 && maxHp > 0 && hp >= 0 && baseDamage > 0 && bonusDamage > 0
      && (kind.Goblin? ==> kind.buffStolePerTurn > 0)
      && (kind.Spider? ==> kind.poison.Valid())
      && (kind.Zombie? ==> kind.initialHp == maxHp)
      && (!kind.Witch? ==> poisons == [])
      && (!kind.Zombie? ==> !canRevive)
      && (!kind.Spider? ==> !canUsePotion)
    }

    ghost function State(): MonsterState
      reads this
    {
      MonsterState(hp, poisons, canRevive, canUsePotion)
    }

    /** Builds a monster from checked arguments: hp, base damage and bonus
        damage are multiplied by the level, max_hp is not; a Witch's poisons
        and a Spider's poison are scaled as above. */
    constructor (name: string, hp: int, baseDamage: int, bonusDamage: int,
                 equipment: map<string, Option<Item>>, level: int, kind: Kind,
                 poisons: seq<Poison>, slots: set<string>)
      requires CheckMonster(name, hp, baseDamage, bonusDamage, equipment, level, slots).Pass?
      requires kind.Goblin? ==> kind.buffStolePerTurn > 0
      requires kind.Zombie? ==> kind.initialHp == hp
      requires kind.Spider? ==> kind.poison.Valid()
      requires !kind.Witch? ==> poisons == []
      ensures Valid()
      ensures this.name == name && this.level == level && this.equipment == equipment
      ensures this.hp == hp * level && maxHp == hp
      ensures this.baseDamage == baseDamage * level && this.bonusDamage == bonusDamage * level
      ensures this.kind == if kind.Spider? then Spider(SpiderScaled(kind.poison, level)) else kind
      ensures |this.poisons| == |poisons|
      ensures forall i :: 0 <= i < |poisons| ==> this.poisons[i] == WitchScaled(poisons[i], level)
      ensures canRevive == kind.Zombie? && canUsePotion == kind.Spider?
    {
      if kind.Spider? {
        ScaledPoisonsStayValid(kind.poison, level);
      }
      this.kind := if kind.Spider? then Spider(SpiderScaled(kind.poison, level)) else kind;
      this.level := level;
      this.name := name;
      this.hp := hp * level;
      this.maxHp := hp;
      this.baseDamage := baseDamage * level;
      this.bonusDamage := bonusDamage * level;
      this.equipment := equipment;
      this.poisons := seq(|poisons|, i requires 0 <= i < |poisons| => WitchScaled(poisons[i], level));
      this.canRevive := kind.Zombie?;
      this.canUsePotion := kind.Spider?;
    }

    /** The hp setter: a negative value is rejected and nothing changes. */
    method SetHp(value: int) returns (r: Outcome)
      requires Valid()
      modifies this`hp
      ensures Valid()
      ensures value < 0 ==> r == Fail(ValueError("hp")) && hp == old(hp)
      ensures value >= 0 ==> r == Pass && hp == value
    {
      if value < 0 {
        return Fail(ValueError("hp"));
      }
      hp := value;
      r := Pass;
    }

    /** Negative damage is rejected. Otherwise hp drops by the damage and
        stops at 0; a Zombie that reaches 0 while it can still revive comes
        back at its unscaled initial hp and loses the revival, and any other
        monster (or a Zombie that has revived already) stays where the
        damage left it. */
    method ReceiveDamage(damage: int) returns (r: Outcome)
      requires Valid()
      modifies this`hp, this`canRevive
      ensures Valid()
      ensures damage < 0 ==> r == Fail(ValueError("damage")) && State() == old(State())
      ensures damage >= 0 ==> r == Pass
      ensures damage >= 0 && kind.Zombie? && old(canRevive) && damage >= old(hp) ==>
                hp == kind.initialHp && !canRevive
      ensures damage >= 0 && !(kind.Zombie? && old(canRevive) && damage >= old(hp)) ==>
                hp == ClampAtZero(old(hp) - damage) && canRevive == old(canRevive)
      ensures damage >= 0 ==> hp <= old(hp) || (old(canRevive) && !canRevive)
    {
      if damage < 0 {
        return Fail(ValueError("damage"));
      }
      var _ := SetHp(ClampAtZero(hp - damage));
      if kind.Zombie? {
        Revive();
      }
      r := Pass;
    }

    /** A Zombie at 0 hp that can still revive returns to its initial hp and
        cannot revive again; otherwise nothing happens. */
    method Revive()
      requires Valid() && kind.Zombie?
      modifies this`hp, this`canRevive
      ensures Valid()
      ensures old(hp) == 0 && old(canRevive) ==> hp == kind.initialHp && !canRevive
      ensures !(old(hp) == 0 && old(canRevive)) ==> hp == old(hp) && canRevive == old(canRevive)
    {
      if hp == 0 && canRevive {
        var _ := SetHp(kind.initialHp);
        canRevive := false;
      }
    }

    /** `drop_item`: collects the items of the non-empty slots and picks one of
        them (the pick is left open). The result is None exactly when every
        slot is empty, and otherwise one of the equipped items. */
    static method DropItem(items: map<string, Option<Item>>) returns (drop: Option<Item>)
      ensures drop.None? <==> forall slot :: slot in items ==> items[slot].None?
      ensures drop.Some? ==> drop in items.Values
    {
      var possibleDrop: seq<Item> := [];
      var rest := items.Keys;
      while rest != {}
        invariant rest <= items.Keys
        invariant forall i :: 0 <= i < |possibleDrop| ==> Some(possibleDrop[i]) in items.Values
        invariant possibleDrop == [] <==> forall slot :: slot in items.Keys - rest ==> items[slot].None?
        decreases rest
      {
        var slot :| slot in rest;
        if items[slot].Some? {
          possibleDrop := possibleDrop + [items[slot].value];
        }
        rest := rest - {slot};
      }
      if possibleDrop == [] {
        drop := None;
      } else {
        var i :| 0 <= i < |possibleDrop|;
        drop := Some(possibleDrop[i]);
      }
    }

    /** The common attack (plain monsters and Zombies): the base damage, plus
        the bonus damage when the coin flip `bonusRoll` comes up, is applied
        to the target through its receive_damage and returned. */
    method Attack(target: Character, bonusRoll: bool) returns (damage: int)
      requires Valid() && (kind.Basic? || kind.Zombie?)
      modifies target`hp
      ensures damage == baseDamage + (if bonusRoll then bonusDamage else 0)
      ensures target.hp == ClampAtZero(old(target.hp) - damage)
    {
      damage := baseDamage;
      if bonusRoll {
        damage := damage + bonusDamage;
      }
      var _ := target.ReceiveDamage(damage);
    }

    /** A Goblin's attack: the bonus damage is added once for each of the two
        rolls that comes up (the coin flip and the one-in-five critical), so
        0, 1 or 2 times; exactly that damage is applied and returned. */
    method GoblinAttack(target: Character, bonusRoll: bool, criticalRoll: bool) returns (damage: int)
      requires Valid() && kind.Goblin?
      modifies target`hp
      ensures damage == baseDamage + ((if bonusRoll then 1 else 0) + (if criticalRoll then 1 else 0)) * bonusDamage
      ensures target.hp == ClampAtZero(old(target.hp) - damage)
    {
      damage := baseDamage;
      if bonusRoll {
        damage := damage + bonusDamage;
      }
      if criticalRoll {
        damage := damage + bonusDamage;
      }
      var _ := target.ReceiveDamage(damage);
    }

    /** `steal` AS WRITTEN. A non-Character target raises TypeError. With at
        most buff_stole_per_turn buffs, the source assigns to a property that
        has no setter, which raises AttributeError and leaves the buffs in
        place. With more, it removes one randomly chosen buff per step
        (`picks` says which), buff_stole_per_turn times. */
    method StealAsWritten(target: Combatant, picks: seq<nat>) returns (r: Outcome)
      requires kind.Goblin?
      requires target.Hero? && |target.character.activeBuffs| > kind.buffStolePerTurn ==>
                 |picks| == kind.buffStolePerTurn && ValidPicks(|target.character.activeBuffs|, picks)
      modifies target.Footprint()
      ensures target.Foe? ==> r == Fail(TypeError("target")) && unchanged(target.Footprint())
      ensures target.Hero? && |old(target.character.activeBuffs)| <= kind.buffStolePerTurn ==>
                r == Fail(AttributeError("active_buffs")) && unchanged(target.Footprint())
      ensures target.Hero? && |old(target.character.activeBuffs)| > kind.buffStolePerTurn ==>
                r == Pass && target.character.State() ==
                  old(target.character.State()).(activeBuffs := RemovePicks(old(target.character.activeBuffs), picks))
    {
      if target.Foe? {
        return Fail(TypeError("target"));
      }
      var c := target.character;
      if |c.activeBuffs| <= kind.buffStolePerTurn {
        return Fail(AttributeError("active_buffs"));
      }
      RemovePickedBuffs(c, picks);
      r := Pass;
    }

    /** `steal` as evidently intended: like StealAsWritten, except that a
        target with at most buff_stole_per_turn buffs is left with none.
        With more, exactly buff_stole_per_turn buffs go and what stays is a
        sub-multiset of the original buffs. Nothing else of the target changes. */
    method Steal(target: Combatant, picks: seq<nat>) returns (r: Outcome)
      requires kind.Goblin?
      requires target.Hero? && |target.character.activeBuffs| > kind.buffStolePerTurn ==>
                 |picks| == kind.buffStolePerTurn && ValidPicks(|target.character.activeBuffs|, picks)
      modifies target.Footprint()
      ensures target.Foe? ==> r == Fail(TypeError("target")) && unchanged(target.Footprint())
      ensures target.Hero? ==> r == Pass
      ensures target.Hero? && |old(target.character.activeBuffs)| <= kind.buffStolePerTurn ==>
                target.character.State() == old(target.character.State()).(activeBuffs := [])
      ensures target.Hero? && |old(target.character.activeBuffs)| > kind.buffStolePerTurn ==>
                target.character.State() ==
                  old(target.character.State()).(activeBuffs := RemovePicks(old(target.character.activeBuffs), picks))
      ensures target.Hero? && |old(target.character.activeBuffs)| > kind.buffStolePerTurn ==>
                |target.character.activeBuffs| == |old(target.character.activeBuffs)| - kind.buffStolePerTurn
                && multiset(target.character.activeBuffs) <= multiset(old(target.character.activeBuffs))
    {
      if target.Foe? {
        return Fail(TypeError("target"));
      }
      var c := target.character;
      if |c.activeBuffs| <= kind.buffStolePerTurn {
        c.activeBuffs := [];
      } else {
        RemovePicksShape(c.activeBuffs, picks);
        RemovePickedBuffs(c, picks);
      }
      r := Pass;
    }

    /** The removal loop of `steal`: at step i the buff at index picks[i] is
        chosen and the first buff equal to it is removed. */
    static method RemovePickedBuffs(c: Character, picks: seq<nat>)
      requires ValidPicks(|c.activeBuffs|, picks)
      modifies c`activeBuffs
      ensures c.activeBuffs == RemovePicks(old(c.activeBuffs), picks)
    {
      var i := 0;
      while i < |picks|
        invariant 0 <= i <= |picks|
        invariant ValidPicks(|c.activeBuffs|, picks[i..])
        invariant RemovePicks(c.activeBuffs, picks[i..]) == RemovePicks(old(c.activeBuffs), picks)
      {
        ValidPicksTail(|c.activeBuffs|, picks[i..]);
        assert picks[i..][1..] == picks[i + 1..];
        var chosen := c.activeBuffs[picks[i]];
        RemoveFirstMultiset(c.activeBuffs, chosen);
        c.activeBuffs := RemoveFirst(c.activeBuffs, chosen);
        i := i + 1;
      }
    }

    /** A Witch's `cast_poison`. A non-Character target raises TypeError and
        nothing changes. Otherwise the poison is added to the target and then
        removed from the Witch's supply; a poison missing from the supply
        raises ValueError AFTER the target has received it. */
    method WitchCastPoison(poison: Poison, target: Combatant) returns (r: Outcome)
      requires Valid() && kind.Witch?
      modifies this`poisons, target.Footprint()
      ensures Valid()
      ensures target.Foe? ==> r == Fail(TypeError("target")) && poisons == old(poisons)
                              && unchanged(target.Footprint())
      ensures target.Hero? ==>
                target.character.State() ==
                old(target.character.State()).(activePoisons := old(target.character.activePoisons) + [poison])
      ensures target.Hero? && poison in old(poisons) ==>
                r == Pass && poisons == RemoveFirst(old(poisons), poison)
                && |poisons| == |old(poisons)| - 1
      ensures target.Hero? && poison !in old(poisons) ==>
                r == Fail(ValueError("poison")) && poisons == old(poisons)
    {
      if target.Foe? {
        return Fail(TypeError("target"));
      }
      target.character.AddPoison(poison);
      if poison !in poisons {
        return Fail(ValueError("poison"));
      }
      RemoveFirstMultiset(poisons, poison);
      poisons := RemoveFirst(poisons, poison);
      r := Pass;
    }

    /** A Witch's attack: the damage is computed as in the common attack but
        NEVER applied. When the supply is not empty, the poison at index
        `pick` is cast on the target, so the supply shrinks by one. */
    method WitchAttack(target: Character, bonusRoll: bool, pick: nat) returns (damage: int)
      requires Valid() && kind.Witch?
      requires poisons != [] ==> pick < |poisons|
      modifies this`poisons, target
      ensures Valid()
      ensures damage == baseDamage + (if bonusRoll then bonusDamage else 0)
      ensures old(poisons) == [] ==> poisons == [] && target.State() == old(target.State())
      ensures old(poisons) != [] ==>
                poisons == RemoveFirst(old(poisons), old(poisons)[pick])
                && |poisons| == |old(poisons)| - 1
                && target.State() == old(target.State()).(activePoisons := old(target.activePoisons) + [old(poisons)[pick]])
    {
      damage := baseDamage;
      if bonusRoll {
        damage := damage + bonusDamage;
      }
      if poisons != [] {
        var poison := poisons[pick];
        var _ := WitchCastPoison(poison, Hero(target));
      }
    }

    /** The Spider's `poison` property as evidently intended: the poison
        stored (already scaled) at construction, which is a valid Poison, so
        casting it hands the target a poison that does damage and lasts. */
    function SpiderPoison(): (p: Poison)
      requires Valid() && kind.Spider?
      reads this
      ensures p.Valid() && p.damagePerTurn > 0 && p.duration > 0
      ensures p == kind.poison
    {
      kind.poison
    }

    /** A Spider's `cast_poison`. A non-Character target raises TypeError
        and nothing changes; otherwise the target receives the poison and the
        Spider can never cast again. */
    method SpiderCastPoison(poison: Poison, target: Combatant) returns (r: Outcome)
      requires Valid() && kind.Spider?
      modifies this`canUsePotion, target.Footprint()
      ensures Valid()
      ensures target.Foe? ==> r == Fail(TypeError("target")) && canUsePotion == old(canUsePotion)
                              && unchanged(target.Footprint())
      ensures target.Hero? ==>
                r == Pass && !canUsePotion &&
                target.character.State() ==
                old(target.character.State()).(activePoisons := old(target.character.activePoisons) + [poison])
    {
      if target.Foe? {
        return Fail(TypeError("target"));
      }
      target.character.AddPoison(poison);
      canUsePotion := false;
      r := Pass;
    }

    /** A Spider's attack: the damage is computed as in the common attack but
        NEVER applied. When the cast roll comes up and the Spider has not cast
        yet, its own poison is cast on the target; after that it never casts
        again. */
    method SpiderAttack(target: Character, bonusRoll: bool, castRoll: bool) returns (damage: int)
      requires Valid() && kind.Spider?
      modifies this`canUsePotion, target
      ensures Valid()
      ensures damage == baseDamage + (if bonusRoll then bonusDamage else 0)
      ensures castRoll && old(canUsePotion) ==>
                !canUsePotion &&
                target.State() == old(target.State()).(activePoisons := old(target.activePoisons) + [kind.poison])
      ensures !(castRoll && old(canUsePotion)) ==>
                canUsePotion == old(canUsePotion) && target.State() == old(target.State())
    {
      damage := baseDamage;
      if bonusRoll {
        damage := damage + bonusDamage;
      }
      if castRoll && canUsePotion {
        var _ := SpiderCastPoison(SpiderPoison(), Hero(target));
      }
    }
  }

  /** The Spider's `poison` property AS WRITTEN: the getter reads `self.poison`,
      that is, calls itself, and never looks at the stored poison. `frames` is
      the Python stack depth still available; when it runs out the
      interpreter raises RecursionError. So whatever the depth, the getter
      raises instead of returning the stored poison, and a Spider attack
      whose cast roll comes up raises before casting. */
  function PoisonPropertyAsWritten(stored: Poison, frames: nat): (r: Result<Poison>)
    ensures r == Err(RecursionError)
    decreases frames
  {
    if frames == 0 then Err(RecursionError) else PoisonPropertyAsWritten(stored, frames - 1)
  }

  /** A Spider's attack AS WRITTEN: the damage is computed, but when the cast
      roll comes up while the Spider can still cast, reading its `poison`
      property (PoisonPropertyAsWritten, with `frames` the stack depth left)
      raises RecursionError before anything is cast, so the attack raises
      and leaves the Spider and the target unchanged. Otherwise it returns
      the unapplied damage. */
  method SpiderAttackAsWritten(m: Monster, target: Character, bonusRoll: bool, castRoll: bool, frames: nat)
    returns (r: Result<int>)
    requires m.Valid() && m.kind.Spider?
    ensures castRoll && m.canUsePotion ==> r == Err(RecursionError)
    ensures !(castRoll && m.canUsePotion) ==>
              r == Ok(m.baseDamage + (if bonusRoll then m.bonusDamage else 0))
  {
    var damage := m.baseDamage;
    if bonusRoll {
      damage := damage + m.bonusDamage;
    }
    if castRoll && m.canUsePotion {
      var poison := PoisonPropertyAsWritten(m.kind.poison, frames);
      return Err(poison.error);
    }
    r := Ok(damage);
  }

  /** What every monster constructor promises on success. */
  ghost predicate Constructed(m: Monster, name: string, hp: int, baseDamage: int, bonusDamage: int,
                              equipment: map<string, Option<Item>>, level: int)
    reads m
  {
    && m.Valid()
    && m.name == name && m.level == level && m.equipment == equipment
    && m.hp == hp * level && m.maxHp == hp
    && m.baseDamage == baseDamage * level && m.bonusDamage == bonusDamage * level
  }

  /** The Monster constructor: an error, or a fresh plain monster. Its hp is
      scaled by the level but max_hp is not, so above level 1 the new
      monster's hp exceeds its max_hp. */
  method NewMonster(name: string, hp: int, baseDamage: int, bonusDamage: int,
                    equipment: map<string, Option<Item>>, level: int, slots: set<string>)
    returns (r: Result<Monster>)
    ensures r.Ok? <==> CheckMonster(name, hp, baseDamage, bonusDamage, equipment, level, slots).Pass?
    ensures r.Err? ==> Fail(r.error) == CheckMonster(name, hp, baseDamage, bonusDamage, equipment, level, slots)
    ensures r.Ok? ==> fresh(r.value) && Constructed(r.value, name, hp, baseDamage, bonusDamage, equipment, level)
    ensures r.Ok? ==> r.value.kind == Basic && r.value.State() == MonsterState(hp * level, [], false, false)
    ensures r.Ok? && level > 1 ==> r.value.hp > r.value.maxHp
  {
    var check := CheckMonster(name, hp, baseDamage, bonusDamage, equipment, level, slots);
    if check.Fail? {
      return Err(check.error);
    }
    var m := new Monster(name, hp, baseDamage, bonusDamage, equipment, level, Basic, [], slots);
    r := Ok(m);
  }

  /** The Goblin constructor (note the source's argument order: the steal
      count comes before the level). */
  method NewGoblin(name: string, hp: int, baseDamage: int, bonusDamage: int,
                   equipment: map<string, Option<Item>>, buffStolePerTurn: int, level: int,
                   slots: set<string>) returns (r: Result<Monster>)
    ensures r.Ok? <==> CheckGoblin(name, hp, baseDamage, bonusDamage, equipment, buffStolePerTurn, level, slots).Pass?
    ensures r.Err? ==>
              Fail(r.error) == CheckGoblin(name, hp, baseDamage, bonusDamage, equipment, buffStolePerTurn, level, slots)
    ensures r.Ok? ==> fresh(r.value) && Constructed(r.value, name, hp, baseDamage, bonusDamage, equipment, level)
    ensures r.Ok? ==>
              r.value.kind == Goblin(buffStolePerTurn) && r.value.State() == MonsterState(hp * level, [], false, false)
  {
    var check := CheckGoblin(name, hp, baseDamage, bonusDamage, equipment, buffStolePerTurn, level, slots);
    if check.Fail? {
      return Err(check.error);
    }
    var m := new Monster(name, hp, baseDamage, bonusDamage, equipment, level, Goblin(buffStolePerTurn), [], slots);
    r := Ok(m);
  }

  /** The Witch constructor: each poison of the supply has its damage
      multiplied by the level, in order. */
  method NewWitch(name: string, hp: int, baseDamage: int, bonusDamage: int,
                  equipment: map<string, Option<Item>>, level: int, poisons: seq<Poison>,
                  slots: set<string>) returns (r: Result<Monster>)
    ensures r.Ok? <==> CheckMonster(name, hp, baseDamage, bonusDamage, equipment, level, slots).Pass?
    ensures r.Err? ==> Fail(r.error) == CheckMonster(name, hp, baseDamage, bonusDamage, equipment, level, slots)
    ensures r.Ok? ==> fresh(r.value) && Constructed(r.value, name, hp, baseDamage, bonusDamage, equipment, level)
    ensures r.Ok? ==> r.value.kind == Witch && r.value.hp == hp * level && !r.value.canRevive && !r.value.canUsePotion
    ensures r.Ok? ==> |r.value.poisons| == |poisons|
    ensures r.Ok? ==> forall i :: 0 <= i < |poisons| ==> r.value.poisons[i] == WitchScaled(poisons[i], level)
  {
    var check := CheckMonster(name, hp, baseDamage, bonusDamage, equipment, level, slots);
    if check.Fail? {
      return Err(check.error);
    }
    var m := new Monster(name, hp, baseDamage, bonusDamage, equipment, level, Witch, poisons, slots);
    r := Ok(m);
  }

  /** The Zombie constructor: it remembers the unscaled hp for its single
      revival. */
  method NewZombie(name: string, hp: int, baseDamage: int, bonusDamage: int,
                   equipment: map<string, Option<Item>>, level: int, slots: set<string>)
    returns (r: Result<Monster>)
    ensures r.Ok? <==> CheckMonster(name, hp, baseDamage, bonusDamage, equipment, level, slots).Pass?
    ensures r.Err? ==> Fail(r.error) == CheckMonster(name, hp, baseDamage, bonusDamage, equipment, level, slots)
    ensures r.Ok? ==> fresh(r.value) && Constructed(r.value, name, hp, baseDamage, bonusDamage, equipment, level)
    ensures r.Ok? ==> r.value.kind == Zombie(hp) && r.value.State() == MonsterState(hp * level, [], true, false)
  {
    var check := CheckMonster(name, hp, baseDamage, bonusDamage, equipment, level, slots);
    if check.Fail? {
      return Err(check.error);
    }
    var m := new Monster(name, hp, baseDamage, bonusDamage, equipment, level, Zombie(hp), [], slots);
    r := Ok(m);
  }

  /** The Spider constructor: its poison's damage and duration are multiplied
      by the level and it starts able to cast. The poison is a valid one, as
      every Poison object has passed its own constructor's checks. */
  method NewSpider(name: string, hp: int, baseDamage: int, bonusDamage: int,
                   equipment: map<string, Option<Item>>, level: int, poison: Poison,
                   slots: set<string>) returns (r: Result<Monster>)
    requires poison.Valid()
    ensures r.Ok? <==> CheckMonster(name, hp, baseDamage, bonusDamage, equipment, level, slots).Pass?
    ensures r.Err? ==> Fail(r.error) == CheckMonster(name, hp, baseDamage, bonusDamage, equipment, level, slots)
    ensures r.Ok? ==> fresh(r.value) && Constructed(r.value, name, hp, baseDamage, bonusDamage, equipment, level)
    ensures r.Ok? ==>
              r.value.kind == Spider(SpiderScaled(poison, level))
              && r.value.State() == MonsterState(hp * level, [], false, true)
  {
    var check := CheckMonster(name, hp, baseDamage, bonusDamage, equipment, level, slots);
    if check.Fail? {
      return Err(check.error);
    }
    var m := new Monster(name, hp, baseDamage, bonusDamage, equipment, level, Spider(poison), [], slots);
    r := Ok(m);
  }

  /** A Zombie revives on the first hit that takes it to 0 and dies for good
      on the next one. */
  method ZombieRevivesOnce(z: Monster, first: int, second: int) returns (afterFirst: int, afterSecond: int)
    requires z.Valid() && z.kind.Zombie? && z.canRevive
    requires first >= z.hp && second >= z.kind.initialHp
    modifies z`hp, z`canRevive
    ensures afterFirst == z.kind.initialHp && afterSecond == 0
    ensures z.hp == 0 && !z.canRevive
  {
    var _ := z.ReceiveDamage(first);
    afterFirst := z.hp;
    var _ := z.ReceiveDamage(second);
    afterSecond := z.hp;
  }

  /** A Goblin that steals one buff per turn, used on a hero holding a single
      buff: as written the steal raises AttributeError and the buff stays;
      the corrected steal leaves no buff. */
  method StealAsWrittenCounterexample(buff: Buff)
    returns (asWritten: Outcome, leftAsWritten: seq<Buff>, corrected: Outcome, leftCorrected: seq<Buff>)
    ensures asWritten == Fail(AttributeError("active_buffs")) && leftAsWritten == [buff]
    ensures corrected == Pass && leftCorrected == []
  {
    var hero := new Character("hero", 10, Zero, map[], 1, {});
    hero.AddBuff(buff);
    var goblin := new Monster("goblin", 1, 1, 1, map[], 1, Goblin(1), [], {});
    asWritten := goblin.StealAsWritten(Hero(hero), []);
    leftAsWritten := hero.activeBuffs;
    corrected := goblin.Steal(Hero(hero), []);
    leftCorrected := hero.activeBuffs;
  }
}
