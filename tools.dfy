/**
 * `tools.py`: cooldown-gated tools and the building economy.
 */
module Tools {
  import opened Options
  import opened Materials

  /** The three tool classes `Axe`, `Pickaxe` and `Hammer`, keyed by their names. */
  datatype ToolName = Axe | Pickaxe | Hammer {

    /** The key of the tool in `Player.tools`. */
    function Key(): string {
      match this
      case Axe => "axe"
      case Pickaxe => "pickaxe"
      case Hammer => "hammer"
    }
  }

  /** `tool_name in self.tools`: a name selects a tool exactly when it is one of the keys. */
  function ParseToolName(s: string): (r: Option<ToolName>)
    ensures r.Some? ==> r.value.Key() == s
    ensures r.None? ==> forall t: ToolName :: t.Key() != s
  {
    if s == "axe" then Some(Axe)
    else if s == "pickaxe" then Some(Pickaxe)
    else if s == "hammer" then Some(Hammer)
    else None
  }

  /** Frames `Tool.draw` keeps a swing visible. */
  const SWING_FRAMES := 20

  /** One `Tool.update`: the countdown drops by one while positive. */
  function Tick(c: int): int {
    if c > 0 then c - 1 else c
  }

  /** The countdown after `n` calls of `Tool.update`. */
  function Ticks(c: int, n: nat): int {
    if n == 0 then c else Ticks(Tick(c), n - 1)
  }

  /** From a countdown `c >= 0`, `n` updates leave `c - n`, and never less than zero. */
  lemma {:induction false} TicksClosedForm(c: nat, n: nat)
    ensures Ticks(c, n) == if n >= c then 0 else c - n
  {
    if n > 0 {
      TicksClosedForm(Tick(c), n - 1);
    }
  }

  /** A tool whose countdown was just set to `c` can be used again after exactly `c` updates. */
  lemma {:induction false} ReadyAfterExactly(c: nat, n: nat)
    ensures Ticks(c, n) >= 0
    ensures Ticks(c, n) == 0 <==> n >= c
  {
    TicksClosedForm(c, n);
  }

  /** A tool object: `name`, `damage` and `cooldown` are fixed, the rest is its state. */
  class Tool {
    const name: string
    const damage: int
    const cooldown: nat
    var currentCooldown: int
    var animationFrame: int
    var isSwinging: bool

    /** The countdown stays between zero and the tool's cooldown. */
    ghost predicate Valid()
      reads this
    {
      0 <= currentCooldown <= cooldown
    }

    /** `Tool.__init__`. */
    constructor (name: string, damage: int, cooldown: nat)
      ensures Valid()
      ensures this.name == name && this.damage == damage && this.cooldown == cooldown
      ensures currentCooldown == 0 && animationFrame == 0 && !isSwinging
    {
      this.name := name;
      this.damage := damage;
      this.cooldown := cooldown;
      currentCooldown := 0;
      animationFrame := 0;
      isSwinging := false;
    }

    /** The subclasses `Axe()`, `Pickaxe()` and `Hammer()`, which only fix the constants. */
    constructor OfKind(k: ToolName)
      ensures Valid() && name == k.Key()
      ensures (damage, cooldown) == match k
                                    case Axe => (2, 20)
                                    case Pickaxe => (2, 20)
                                    case Hammer => (1, 15)
      ensures currentCooldown == 0 && animationFrame == 0 && !isSwinging
    {
      name := k.Key();
      match k {
        case Axe => damage, cooldown := 2, 20;
        case Pickaxe => damage, cooldown := 2, 20;
        case Hammer => damage, cooldown := 1, 15;
      }
      currentCooldown := 0;
      animationFrame := 0;
      isSwinging := false;
    }

    /**
     * `can_use`: the countdown has run out, so `update` leaves it where it is and a
     * ready tool is always in a valid state.
     */
    predicate CanUse(): (ready: bool)
      reads this
      ensures ready ==> Valid()
      ensures Valid() ==> (ready <==> Tick(currentCooldown) == currentCooldown)
    {
      currentCooldown == 0
    }

    /** `update`: one frame of cooldown passes. */
    method Update()
      requires Valid()
      modifies this`currentCooldown
      ensures Valid()
      ensures currentCooldown == Tick(old(currentCooldown))
      ensures old(currentCooldown) > 0 ==> currentCooldown == old(currentCooldown) - 1
      ensures old(currentCooldown) == 0 ==> currentCooldown == 0
    {
      if currentCooldown > 0 {
        currentCooldown := currentCooldown - 1;
      }
    }

    /** `use`: succeeds only on a ready tool, which then starts its cooldown and a swing. */
    method Use() returns (ok: bool)
      requires Valid()
      modifies this
      ensures Valid()
      ensures ok == (old(currentCooldown) == 0)
      ensures ok ==> currentCooldown == cooldown && isSwinging && animationFrame == 0
      ensures !ok ==> unchanged(this)
    {
      if CanUse() {
        currentCooldown := cooldown;
        isSwinging := true;
        animationFrame := 0;
        return true;
      }
      return false;
    }

    /** The frame counter of `Tool.draw` (the drawing itself is not modelled). */
    method AdvanceSwing()
      modifies this`animationFrame, this`isSwinging
      ensures (isSwinging, animationFrame) == SwingFrame(old(isSwinging), old(animationFrame))
    {
      if isSwinging {
        animationFrame := animationFrame + 1;
        if animationFrame >= SWING_FRAMES {
          isSwinging := false;
        }
      }
    }
  }

  /** One call of `Tool.draw` on the pair `(is_swinging, animation_frame)`. */
  function SwingFrame(swinging: bool, frame: int): (bool, int) {
    if !swinging then (swinging, frame)
    else (frame + 1 < SWING_FRAMES, frame + 1)
  }

  /** `n` calls of `Tool.draw`. */
  function SwingFrames(swinging: bool, frame: int, n: nat): (bool, int)
    decreases n
  {
    if n == 0 then (swinging, frame)
    else var (s, f) := SwingFrame(swinging, frame); SwingFrames(s, f, n - 1)
  }

  /** Once a swing is underway at frame `f`, it stays visible until frame 20 and then stops. */
  lemma {:induction false} SwingFramesFrom(f: nat, n: nat)
    requires f < SWING_FRAMES
    decreases n
    ensures SwingFrames(true, f, n).0 <==> f + n < SWING_FRAMES
    ensures SwingFrames(true, f, n).1 == if f + n <= SWING_FRAMES then f + n else SWING_FRAMES
  {
    if n > 0 {
      if f + 1 < SWING_FRAMES {
        SwingFramesFrom(f + 1, n - 1);
      } else {
        assert SwingFrame(true, f) == (false, SWING_FRAMES);
        SwingFramesIdle(SWING_FRAMES, n - 1);
      }
    }
  }

  /** Drawing a tool that is not swinging leaves its counter alone. */
  lemma {:induction false} SwingFramesIdle(f: int, n: nat)
    ensures SwingFrames(false, f, n) == (false, f)
  {
    if n > 0 {
      SwingFramesIdle(f, n - 1);
    }
  }

  /** After `use`, a swing is shown for exactly 20 draws. */
  lemma {:induction false} SwingShownTwentyDraws(n: nat)
    ensures SwingFrames(true, 0, n).0 <==> n < SWING_FRAMES
  {
    SwingFramesFrom(0, n);
  }

  /** The fixed blueprint table of `BuildingSystem.__init__`. */
  function StandardBlueprints(): map<string, map<Material, int>> {
    map[
      "house" := map[Wood := 50, Stone := 30, Ore := 10],
      "toy_robot" := map[Wood := 20, Stone := 10, Ore := 30]
    ]
  }

  /** Every required material is available in at least the required amount. */
  predicate Affordable(counts: map<Material, int>, req: map<Material, int>) {
    forall m :: m in req ==> m in counts && counts[m] >= req[m]
  }

  /** The inventory after paying `req`: each required material drops by its amount. */
  function Deduct(counts: map<Material, int>, req: map<Material, int>): (r: map<Material, int>)
    ensures r.Keys == counts.Keys
  {
    map m | m in counts :: if m in req then counts[m] - req[m] else counts[m]
  }

  /** Paying an affordable cost from non-negative counts leaves every count non-negative. */
  lemma DeductNonNegative(counts: map<Material, int>, req: map<Material, int>)
    requires Affordable(counts, req)
    requires forall m :: m in counts ==> counts[m] >= 0
    ensures forall m :: m in counts ==> Deduct(counts, req)[m] >= 0
    ensures forall m :: m in req ==> Deduct(counts, req)[m] + req[m] == counts[m]
  {
  }

  /** The blueprint costs of the standard table, and that no other name is buildable. */
  lemma StandardCosts(name: string)
    ensures "house" in StandardBlueprints() && StandardBlueprints()["house"] == map[Wood := 50, Stone := 30, Ore := 10]
    ensures "toy_robot" in StandardBlueprints() && StandardBlueprints()["toy_robot"] == map[Wood := 20, Stone := 10, Ore := 30]
    ensures name in StandardBlueprints() <==> name == "house" || name == "toy_robot"
  {
  }

  /** The building economy: the blueprint table and the building-mode state. */
  class BuildingSystem {
    const blueprints: map<string, map<Material, int>>
    var currentBlueprint: Option<string>
    var buildingMode: bool

    /** `BuildingSystem.__init__`. */
    constructor ()
      ensures blueprints == StandardBlueprints()
      ensures currentBlueprint == None && !buildingMode
    {
      blueprints := StandardBlueprints();
      currentBlueprint := None;
      buildingMode := false;
    }

    /** The blueprint is known and its whole cost is covered by `counts`. */
    predicate CanAfford(counts: map<Material, int>, name: Option<string>) {
      name.Some? && name.value in blueprints && Affordable(counts, blueprints[name.value])
    }

    /**
     * `can_build`: False for an unknown name; otherwise an early-exit scan over the
     * requirements, True exactly when none of them is short.
     */
    method CanBuild(inventory: Inventory, name: Option<string>) returns (ok: bool)
      requires inventory.Valid()
      ensures ok <==> CanAfford(inventory.counts, name)
      ensures name.None? || name.value !in blueprints ==> !ok
    {
      if name.None? || name.value !in blueprints {
        return false;
      }
      var requirements := blueprints[name.value];
      var pending := requirements.Keys;
      while pending != {}
        invariant pending <= requirements.Keys
        invariant forall m :: m in requirements && m !in pending ==> inventory.counts[m] >= requirements[m]
        decreases pending
      {
        var material :| material in pending;
        if inventory.counts[material] < requirements[material] {
          return false;
        }
        pending := pending - {material};
      }
      return true;
    }

    /**
     * `build`: either pays the whole cost and answers True, or changes nothing and
     * answers False.
     */
    method Build(inventory: Inventory, name: Option<string>) returns (ok: bool)
      requires inventory.Valid()
      modifies inventory
      ensures inventory.Valid()
      ensures ok <==> old(CanAfford(inventory.counts, name))
      ensures ok ==> inventory.counts == Deduct(old(inventory.counts), blueprints[name.value])
      ensures !ok ==> inventory.counts == old(inventory.counts)
    {
      ok := CanBuild(inventory, name);
      if !ok {
        return;
      }
      var requirements := blueprints[name.value];
      ghost var before := inventory.counts;
      var pending := requirements.Keys;
      while pending != {}
        invariant pending <= requirements.Keys
        invariant inventory.Valid()
        invariant forall m :: m in before ==>
          inventory.counts[m] == if m in requirements && m !in pending then before[m] - requirements[m] else before[m]
        decreases pending
      {
        var material :| material in pending;
        inventory.counts := inventory.counts[material := inventory.counts[material] - requirements[material]];
        pending := pending - {material};
      }
      assert inventory.counts == Deduct(before, requirements);
    }
  }
}
