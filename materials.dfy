/** The player's resource counters. */
module Materials {

  /** A key of the inventory dictionary. */
  datatype Material = Wood | Stone | Ore

  /**
   * The inventory dictionary `{"wood": 0, "stone": 0, "ore": 0}`. The player owns it and
   * the building system updates the same object in place, so it is a class.
   */
  class Inventory {
    var counts: map<Material, int>

    ghost predicate Valid()
      reads this
    {
      forall m: Material :: m in counts
    }

    constructor ()
      ensures Valid() && counts == map[Wood := 0, Stone := 0, Ore := 0]
    {
      counts := map[Wood := 0, Stone := 0, Ore := 0];
      new;
      forall m: Material
        ensures m in counts
      {
        match m
        case Wood =>
        case Stone =>
        case Ore =>
      }
    }

    /** `inventory[m] += n`. */
    method Add(m: Material, n: int)
      requires Valid()
      modifies this
      ensures Valid() && counts == old(counts)[m := old(counts)[m] + n]
    {
      counts := counts[m := counts[m] + n];
    }
  }
}
