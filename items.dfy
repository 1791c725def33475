/** Equippable items: a name, a weight and the bonus stats the item grants,
    with guarded setters for the weight and the bonus. */
module Items {
  import opened Errors
  import opened Wrappers
  import opened Datatypes

  /** The Item constructor's checks in source order (a non-string name and a
      non-Stats bonus are excluded by the types). */
  function CheckItem(name: string, weight: int): (r: Outcome)
    ensures r.Pass? <==> name != "" && weight >= 0
    ensures name == "" ==> r == Fail(ValueError("name"))
    ensures name != "" && weight < 0 ==> r == Fail(ValueError("weight"))
  {
    if name == "" then Fail(ValueError("name"))
    else if weight < 0 then Fail(ValueError("weight"))
    else Pass
  }

  class Item {
    /** No setter: the name stays as constructed. */
    const name: string
    var weight: int
    var bonusStats: Stats
    /** The equipment slot the item goes into. The subclass that defines it
        is not part of this model, so it is fixed at construction here. */
    const slot: string

    ghost predicate Valid()
      reads this
    {
      name != "" && weight >= 0
    }

    /** Builds an item from arguments that passed `CheckItem`. */
    constructor (name: string, weight: int, bonusStats: Stats, slot: string)
      requires CheckItem(name, weight).Pass?
      ensures Valid()
      ensures this.name == name && this.weight == weight
      ensures this.bonusStats == bonusStats && this.slot == slot
    {
      this.name := name;
      this.weight := weight;
      this.bonusStats := bonusStats;
      this.slot := slot;
    }

    /** The weight setter: a negative weight is rejected and nothing changes. */
    method SetWeight(value: int) returns (r: Outcome)
      modifies this`weight
      ensures value < 0 ==> r == Fail(ValueError("weight")) && weight == old(weight)
      ensures value >= 0 ==> r == Pass && weight == value
      ensures old(Valid()) ==> Valid()
    {
      if value < 0 {
        return Fail(ValueError("weight"));
      }
      weight := value;
      r := Pass;
    }

    /** The bonus_stats setter: every Stats value is accepted. */
    method SetBonusStats(value: Stats)
      modifies this`bonusStats
      ensures bonusStats == value
      ensures old(Valid()) ==> Valid()
    {
      bonusStats := value;
    }
  }

  /** The Item constructor: an error, or a fresh item holding the arguments. */
  method NewItem(name: string, weight: int, bonusStats: Stats, slot: string) returns (r: Result<Item>)
    ensures r.Ok? <==> CheckItem(name, weight).Pass?
    ensures r.Err? ==> Fail(r.error) == CheckItem(name, weight)
    ensures r.Ok? ==> fresh(r.value) && r.value.Valid()
    ensures r.Ok? ==> r.value.name == name && r.value.weight == weight
    ensures r.Ok? ==> r.value.bonusStats == bonusStats && r.value.slot == slot
  {
    var check := CheckItem(name, weight);
    if check.Fail? {
      return Err(check.error);
    }
    var item := new Item(name, weight, bonusStats, slot);
    r := Ok(item);
  }
}
