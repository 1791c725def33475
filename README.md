# Combat entities of a turn-based game, in Dafny

This project models the combat entity layer of a small turn-based Python game.
It covers:

- the four-field stat block (`Stats`) with its clamped subtraction;
- the buff and poison records;
- equippable items;
- the hero base class (`Character`): hp, mana, equipment and active buffs;
- the monster hierarchy (plain `Monster`, `Goblin`, `Witch`, `Zombie`, `Spider`);
- heal and buff potions.

Each Python class whose fields change in place is a Dafny `class`. The value
records (`Stats`, `Buff`, `Poison`) and the potions, which have no setters,
are datatypes. A Python constructor that may raise becomes three members:

- a pure `Check…` function that returns the first failing check in source order;
- a Dafny constructor that takes arguments which passed that check;
- a `New…` factory that returns either the error or the fresh object.

An exception is an `Err`/`Fail` value of type `Errors.Error`. Random rolls
(`randint`, `choice`) are inputs supplied by the caller: booleans for the coin
flips, list indices for the choices. The only exception is `drop_item`'s
final choice, which stays nondeterministic. The monster subclasses become one
class with a `kind` tag. The set of allowed equipment slots comes from a file
that is not part of this model (`project/valid_slot.py`), so it is a `slots`
parameter.

The model follows the code as written, and that departs from the design in
several places:

- Several `Character` guards build an exception without raising it, so they
  do nothing. The constructor therefore accepts any name, any hp (also 0 or
  below) and any stats. The hp and base_stats setters store any value.
- `heal` rejects only an amount of exactly 0. A negative amount lowers hp,
  possibly below 0. `receive_damage` then returns such an hp to 0, which is
  the one case in which it raises hp.
- `equip` and `unequip` never change `base_stats`.
- A monster's hp is multiplied by its level, but `max_hp` is not. Above
  level 1 the new monster's hp is larger than its `max_hp`.
- The Witch and Spider attacks compute a damage value and return it, but
  never apply it to the target.
- No potion `use` lowers the potion's `uses`.
- The base `Potion` is not an abstract class (it does not derive from ABC),
  so its `use` can be called and does nothing.
- `characters.py` defines no `add_poison`, yet the Witch and the Spider call
  it. `Character` gets an `activePoisons` list and an `AddPoison` that
  appends to it.
- The Item subclass that defines `slot` is not part of this model. `Item`
  gets a `slot` field that is fixed at construction.

## Model

| member | source | states |
|---|---|---|
| `Datatypes.NewStats` | project/datatypes.py:10-15 | a Stats is built exactly when all four fields are >= 0; otherwise ValueError names the first negative field in declaration order; on success the fields are the arguments |
| `Datatypes.Stats.Add` | project/datatypes.py:17-26 | the sum of two stat blocks is a valid block and is fieldwise at least each operand |
| `Datatypes.Stats.Sub` | project/datatypes.py:28-37 | the difference is a valid block (no field negative) and is fieldwise at most the left operand; a field is 0 exactly when the right operand had at least as much of it |
| `Datatypes.AddSubRoundTrip` | project/datatypes.py:17-37 | `(a + b) - b == a` for all stat blocks |
| `Datatypes.SubAddRoundTrip` | project/datatypes.py:17-37 | `(a - b) + b == a` holds exactly when a is fieldwise at least b |
| `Datatypes.SubSelfIsZero` | project/datatypes.py:28-37 | `a - a` is all zeros |
| `Datatypes.NewBuff` | project/datatypes.py:42-62 | a Buff is built exactly when the name is non-empty, the stat is one of defense/strength/dexterity/intelligence, amount >= 0 and duration > 0; otherwise ValueError names the first failing check |
| `Datatypes.NewBuffNotApplied` | project/datatypes.py:48 | a Buff built without naming `applied` is not applied |
| `Datatypes.NewPoison` | project/datatypes.py:67-83 | a Poison is built exactly when the name is non-empty, damage_per_turn > 0 and duration > 0; otherwise ValueError names the first failing check |
| `Lists.RemoveFirstMultiset` | project/monsters.py:153 | `list.remove(x)` on a list holding x takes out exactly one copy of x, so the list is one shorter |
| `Lists.RemovePicksShape` | project/monsters.py:121-124 | removing one chosen element per step, k times, leaves a sub-multiset of the list that is exactly k shorter |
| `Items.CheckItem` | project/items.py:7-16 | item arguments pass exactly when the name is non-empty and the weight is >= 0; otherwise a ValueError names the first failing check |
| `Items.Item.constructor` | project/items.py:17-19 | the stored name, weight and bonus stats are the arguments |
| `Items.NewItem` | project/items.py:6-19 | construction fails exactly as CheckItem says; on success it returns a fresh valid item holding the arguments |
| `Items.Item.SetWeight` | project/items.py:29-35 | a negative weight raises ValueError and leaves the weight unchanged; otherwise it is stored; validity is kept |
| `Items.Item.SetBonusStats` | project/items.py:41-45 | every Stats value is stored |
| `Characters.CheckCharacter` | project/characters.py:10-30 | character arguments pass exactly when every equipment key is an allowed slot and mana > 0 (the name, hp and stats guards never raise); a bad slot key is reported before bad mana |
| `Characters.Character.constructor` | project/characters.py:31-37 | max_hp equals the initial hp, the other fields are the arguments, and there are no active buffs or poisons |
| `Characters.NewCharacter` | project/characters.py:9-37 | construction fails exactly as CheckCharacter says; on success it returns a fresh character with mana >= 0, max_hp == hp and no buffs |
| `Characters.Character.SetHp` | project/characters.py:47-53 | the guards of the hp setter do not raise, so any value, negative ones included, is stored |
| `Characters.Character.SetBaseStats` | project/characters.py:59-63 | every Stats value is stored |
| `Characters.Character.SetMana` | project/characters.py:73-79 | negative mana raises ValueError and leaves mana unchanged; otherwise it is stored; mana >= 0 is kept |
| `Characters.Character.Equip` | project/characters.py:89-94 | a slot missing from the mapping raises KeyError; an occupied slot raises InvalidEquipError; in both cases the equipment is unchanged; otherwise only that slot changes, to the item; base stats are untouched |
| `Characters.Character.Unequip` | project/characters.py:96-101 | ValueError (or KeyError for a missing slot) unless the slot holds that very item, with the equipment unchanged; otherwise only that slot changes, to empty |
| `Characters.EquipUnequipRoundTrip` | project/characters.py:89-101 | equip into an empty slot, then unequip the same item: both succeed, the equipment mapping is exactly restored and the base stats are unchanged |
| `Characters.Character.ReceiveDamage` | project/characters.py:103-108 | negative damage raises ValueError with hp unchanged; otherwise hp becomes max(0, hp - damage): never negative, never above a non-negative old hp, and the character stays alive exactly when hp exceeded the damage |
| `Characters.Character.IsAlive` | project/characters.py:110-114 | true exactly when hp > 0 |
| `Characters.Character.Heal` | project/characters.py:116-121 | only amount 0 raises ValueError; otherwise hp becomes min(max_hp, hp + amount): never above max_hp, not lowered by a positive amount when hp <= max_hp, lowered by a negative amount |
| `Characters.Character.AddBuff` | project/characters.py:123-126 | appends exactly the given buff at the end of the active buffs and changes nothing else |
| `Characters.Character.AddPoison` | project/monsters.py:152 | the `add_poison` the monsters call: appends exactly the given poison to the active poisons and changes nothing else |
| `Monsters.CheckMonster` | project/monsters.py:11-37 | monster arguments pass exactly when the name is non-empty, hp, base_damage and bonus_damage are > 0, every equipment key is an allowed slot and level > 0; otherwise ValueError names the first failing check |
| `Monsters.CheckGoblin` | project/monsters.py:104-109 | the Monster checks first, then buff_stole_per_turn > 0 |
| `Monsters.ScaledPoisonsStayValid` | project/monsters.py:188-194 | scaling a valid poison by a positive level keeps it valid and never weakens it: damage and duration for a Spider (the cited lines), damage only for a Witch (project/monsters.py:143-144) |
| `Monsters.Monster.constructor` | project/monsters.py:38-44 | hp, base_damage and bonus_damage are multiplied by the level and max_hp is the unscaled hp; Witch poisons have their damage scaled (project/monsters.py:143-145) and the Spider poison its damage and duration (project/monsters.py:192-193), so a valid Spider poison stays valid; hp >= 0 and the kind's invariants hold |
| `Monsters.NewMonster` | project/monsters.py:10-44 | construction fails exactly as CheckMonster says; on success the fields are scaled as above and above level 1 hp exceeds max_hp |
| `Monsters.NewGoblin` | project/monsters.py:104-110 | construction fails exactly as CheckGoblin says; on success a Goblin keeps its steal count |
| `Monsters.NewWitch` | project/monsters.py:136-145 | construction fails exactly as CheckMonster says; on success the Witch's supply is the given poisons, in order, each with damage multiplied by the level |
| `Monsters.NewZombie` | project/monsters.py:165-168 | construction fails exactly as CheckMonster says; on success the Zombie keeps the unscaled hp for revival and can revive |
| `Monsters.NewSpider` | project/monsters.py:188-195 | for a valid Poison (every Poison object passed its own checks), construction fails exactly as CheckMonster says; on success the Spider's poison has damage and duration multiplied by the level and it can cast |
| `Monsters.Monster.SetHp` | project/monsters.py:58-64 | a negative hp raises ValueError and leaves hp unchanged; otherwise it is stored, so hp never becomes negative |
| `Monsters.Monster.ReceiveDamage` | project/monsters.py:78-83 | negative damage raises ValueError and nothing changes; otherwise hp becomes max(0, hp - damage), except that a Zombie which reaches 0 while it can revive comes back (as in Revive), following the Zombie override at project/monsters.py:179-185 |
| `Monsters.Monster.Revive` | project/monsters.py:174-177 | a Zombie at 0 hp that can revive returns to its unscaled initial hp and can never revive again; in every other state nothing changes |
| `Monsters.ZombieRevivesOnce` | project/monsters.py:164-185 | a Zombie hit to 0 for the first time is back at its initial hp; the next hit to 0 leaves it at 0 with no revival left |
| `Monsters.Monster.DropItem` | project/monsters.py:85-94 | returns None exactly when every slot is empty; otherwise returns one of the equipped items |
| `Monsters.Monster.Attack` | project/monsters.py:96-101 | returns base_damage + k * bonus_damage with k in {0, 1} set by the coin flip, and the target's hp becomes max(0, hp - that damage) |
| `Monsters.Monster.GoblinAttack` | project/monsters.py:126-133 | returns base_damage + k * bonus_damage with k in {0, 1, 2} (coin flip plus critical roll), and the target's hp becomes max(0, hp - that damage) |
| `Monsters.Monster.StealAsWritten` | project/monsters.py:116-124 | a non-Character target raises TypeError; a target with at most buff_stole_per_turn buffs raises AttributeError and keeps its buffs; with more, the chosen buffs are removed one by one |
| `Monsters.Monster.Steal` | project/monsters.py:116-124 | a non-Character target raises TypeError and nothing changes; a target with at most buff_stole_per_turn buffs ends with none; otherwise exactly buff_stole_per_turn buffs go and the rest is a sub-multiset of the original; nothing else of the target changes |
| `Monsters.Monster.RemovePickedBuffs` | project/monsters.py:121-124 | each step removes the first buff equal to the chosen one; the result is the repeated removal of the chosen buffs |
| `Monsters.StealAsWrittenCounterexample` | project/monsters.py:119-120 | with buff_stole_per_turn = 1 and one buff, the steal as written fails with AttributeError and the buff survives; the corrected steal leaves no buff |
| `Monsters.Monster.WitchCastPoison` | project/monsters.py:147-153 | a non-Character target raises TypeError and nothing changes; otherwise the target receives the poison, and the first equal poison leaves the supply, which shrinks by one; a poison not in the supply raises ValueError after the target has received it |
| `Monsters.Monster.WitchAttack` | project/monsters.py:155-162 | returns base_damage + k * bonus_damage with k in {0, 1} and never changes the target's hp; when the supply is non-empty, the chosen poison is cast and the supply shrinks by one; otherwise nothing changes |
| `Monsters.PoisonPropertyAsWritten` | project/monsters.py:197-199 | the Spider's `poison` getter as written calls itself and raises RecursionError at every stack depth, never returning the stored poison |
| `Monsters.Monster.SpiderPoison` | project/monsters.py:197-199 | the getter as intended returns the poison stored at construction, and that poison is valid (positive damage per turn and duration), as the monster invariant keeps it |
| `Monsters.Monster.SpiderCastPoison` | project/monsters.py:201-207 | a non-Character target raises TypeError and nothing changes; otherwise the target receives the poison and the Spider can never cast again |
| `Monsters.SpiderAttackAsWritten` | project/monsters.py:209-215 | as written, an attack whose cast roll comes up while the Spider can still cast raises RecursionError from the `poison` getter, at every stack depth; otherwise it returns base_damage + k * bonus_damage with k in {0, 1}; it changes nothing |
| `Monsters.Monster.SpiderAttack` | project/monsters.py:209-215 | returns base_damage + k * bonus_damage with k in {0, 1} and never changes the target's hp; casts its own poison only when the cast roll comes up and it has not cast before, after which it never casts again |
| `Potions.CheckPotion` | project/potions.py:8-19 | potion arguments pass exactly when the name is non-empty, mana_consume >= 0 and uses > 0; otherwise ValueError names the first failing check |
| `Potions.NewPotion` | project/potions.py:7-22 | construction fails exactly as CheckPotion says; uses defaults to 1; on success the potion is valid and holds the arguments |
| `Potions.NewHealPotion` | project/potions.py:41-47 | the Potion checks first, then healing_effect > 0 |
| `Potions.NewBuffPotion` | project/potions.py:62-66 | the Potion checks only; any Buff is accepted |
| `Potions.Use` | project/potions.py:36-78 | the base potion's use does nothing and raises nothing; a heal or buff potion used on a non-Character raises TypeError and nothing changes; a heal potion sets hp to min(max_hp, hp + healing_effect) and nothing else, so hp never exceeds max_hp and an hp <= max_hp never drops; a buff potion appends exactly its buff and leaves hp, mana and stats unchanged; the potion itself, a value, cannot change |
| `Potions.HealPotionCapsAtMaxHp` | project/potions.py:53-56 | a heal of 20 at 90 of 100 hp gives 100 |

## Left out

- Argument type checks (`isinstance` for int, str, dict, list, Stats, Item, Buff, Poison) and the TypeErrors and ValueErrors they raise: Dafny's static types exclude these calls. Most raise TypeError. The equipment-value checks (an entry that is neither an Item nor None, project/characters.py:25-26 and project/monsters.py:32-33) raise ValueError, and so do the string checks on a Buff's or Poison's name (project/datatypes.py:51-52 and 74-75). Only the Character-or-not checks on targets are modelled, through `Combatant`.
- Buffs, poisons and stats as shared mutable Python objects. The Witch and Spider constructors multiply the caller's own Poison objects in place. A poison object listed twice in a Witch's supply would be scaled twice. The model stores scaled copies.
- Aliasing of the equipment dict: the character or monster keeps the caller's dict, and the `equipment` getter hands that dict out.
- Aliasing of a Witch's poison list: the Witch keeps the caller's own list (project/monsters.py:145), so each cast's `remove` (project/monsters.py:153) shrinks the caller's list too. The model keeps a scaled copy, so the caller's list does not change.
- Probabilities of the 50%, 20% and 40% rolls and of `choice`. The caller supplies the outcome.
- Monster attacks on a non-Character target (Python duck typing would allow a Monster). Attack targets are Characters.
- `BuffPotion.use`'s conversion of AttributeError to ValueError: `add_buff` always exists on a Character, so this path cannot happen.
- `Character.attack` and `use_special_ability` (abstract), the character subclasses, Weapon, Troll and `project/valid_slot.py` are not part of this model.
- Buff and poison ticking, buff removal, buff application to stats, and the turn engine: none of these appear in the entity files.
- `__str__` methods, rendering, the controller loop, the factory and the data and asset loading.

## Findings

| source | as written | input that shows it | evidently intended | confidence | as-written member | corrected member |
|---|---|---|---|---|---|---|
| project/monsters.py:119-120 | `target.active_buffs = []` assigns to a property that has only a getter (project/characters.py:85-87), so it raises AttributeError and the buffs stay | a Goblin with buff_stole_per_turn = 1 steals from a character holding one buff | the target is left with no active buffs | high; not executed | `Monsters.Monster.StealAsWritten` | `Monsters.Monster.Steal` |
| project/monsters.py:197-199 | the `poison` property returns `self.poison`, which calls the property again without end, so it raises RecursionError | a Spider attack whose 40% roll comes up while it can still cast | the property returns the stored `__poison` | high; not executed | `Monsters.PoisonPropertyAsWritten` | `Monsters.Monster.SpiderPoison` |

`Monsters.StealAsWrittenCounterexample` calls both versions of the steal on the first input. `Monsters.PoisonPropertyAsWritten` states that the as-written getter fails at every stack depth. `Monsters.SpiderAttackAsWritten` states that the second input's attack fails with it. `Monsters.Monster.SpiderAttack` uses the corrected getter.
