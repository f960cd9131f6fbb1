/**
 * Input rules of the two event loops (`Game.handle_events` in `game.py`, `main()` in
 * `main.py`): the inventory-slot cursor and the building-mode toggle, which both files
 * write the same way.
 */
module Controls {
  import opened Options
  import Tools

  /** Left arrow: `(selected_slot - 1) % len(inventory_slots)`, Python's floored modulo. */
  function SlotLeft(slot: int, count: int): (r: int)
    requires count > 0
    ensures 0 <= r < count
    ensures 0 <= slot < count ==> r == if slot == 0 then count - 1 else slot - 1
  {
    (slot - 1) % count
  }

  /** Right arrow: `(selected_slot + 1) % len(inventory_slots)`. */
  function SlotRight(slot: int, count: int): (r: int)
    requires count > 0
    ensures 0 <= r < count
    ensures 0 <= slot < count ==> r == if slot == count - 1 then 0 else slot + 1
  {
    (slot + 1) % count
  }

  /** The cursor after `n` presses of the right arrow. */
  function SlotRights(slot: int, count: int, n: nat): int
    requires count > 0
    decreases n
  {
    if n == 0 then slot else SlotRight(SlotRights(slot, count, n - 1), count)
  }

  /** Left undoes right and right undoes left on every valid slot. */
  lemma SlotLeftRightInverse(slot: int, count: int)
    requires 0 <= slot < count
    ensures SlotLeft(SlotRight(slot, count), count) == slot
    ensures SlotRight(SlotLeft(slot, count), count) == slot
  {
  }

  /** `n` right presses from a valid slot move the cursor `n` slots round the ring. */
  lemma {:induction false} SlotRightsWrap(slot: int, count: int, n: nat)
    requires 0 <= slot < count
    decreases n
    ensures SlotRights(slot, count, n) == (slot + n) % count
  {
    if n > 0 {
      SlotRightsWrap(slot, count, n - 1);
      ModSuccessor(slot + n - 1, count);
    }
  }

  /** Stepping one slot on from `a % count` reaches `(a + 1) % count`. */
  lemma ModSuccessor(a: int, count: int)
    requires count > 0
    ensures (if a % count == count - 1 then 0 else a % count + 1) == (a + 1) % count
  {
    var q, r := a / count, a % count;
    if r == count - 1 {
      ModOfDecomposition(a + 1, q + 1, 0, count);
    } else {
      ModOfDecomposition(a + 1, q, r + 1, count);
    }
  }

  /** Euclidean division is unique: a decomposition `a == q * n + r` with `0 <= r < n` gives `a % n == r`. */
  lemma ModOfDecomposition(a: int, q: int, r: int, n: int)
    requires n > 0 && 0 <= r < n && a == q * n + r
    ensures a % n == r
  {
    var q', r' := a / n, a % n;
    assert a == q' * n + r';
    if q' > q {
      MulAtLeast(q' - q, n);
    } else if q' < q {
      MulAtLeast(q - q', n);
    }
  }

  lemma MulAtLeast(k: int, n: int)
    requires k >= 1 && n > 0
    ensures k * n >= n
  {
  }

  /** Key B: toggles building mode and picks the house blueprint when it turns on. */
  method ToggleBuildingMode(buildingSystem: Tools.BuildingSystem)
    modifies buildingSystem`buildingMode, buildingSystem`currentBlueprint
    ensures buildingSystem.buildingMode == !old(buildingSystem.buildingMode)
    ensures buildingSystem.currentBlueprint == if buildingSystem.buildingMode then Some("house") else None
  {
    buildingSystem.buildingMode := !buildingSystem.buildingMode;
    if buildingSystem.buildingMode {
      buildingSystem.currentBlueprint := Some("house");
    } else {
      buildingSystem.currentBlueprint := None;
    }
  }
}
