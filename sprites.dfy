/**
 * `sprites.py`: only the animation counters of `SpriteSheet.get_frame` and
 * `Character.draw` are modelled; images and blitting are not.
 */
module Sprites {
  import opened Geometry

  const CHARACTER_WIDTH := 32
  const CHARACTER_HEIGHT := 48
  /** `len(walking_frames)`. */
  const WALKING_FRAMES := 4
  const CHARACTER_ANIMATION_SPEED := 8

  /** The pair `(animation_timer, current_frame)` both classes keep. */
  datatype Counter = Counter(timer: int, frame: int)

  /** The counter lies in its range: a frame index, and a timer below the speed. */
  predicate InRange(c: Counter, speed: int, count: int) {
    0 <= c.frame < count && 0 <= c.timer && (speed >= 1 ==> c.timer < speed)
  }

  /** One call: the timer grows, and on reaching the speed it resets and the frame advances. */
  function Step(c: Counter, speed: int, count: int): (r: Counter)
    requires count > 0
    ensures c.timer >= 0 ==> (r.timer == 0 <==> c.timer + 1 >= speed)
    ensures r.frame == if c.timer + 1 >= speed then (c.frame + 1) % count else c.frame
    ensures InRange(c, speed, count) ==> InRange(r, speed, count)
  {
    var timer := c.timer + 1;
    if timer >= speed then Counter(0, (c.frame + 1) % count) else Counter(timer, c.frame)
  }

  /** `n` calls in a row. */
  function Steps(c: Counter, speed: int, count: int, n: nat): Counter
    requires count > 0
    decreases n
  {
    if n == 0 then c else Steps(Step(c, speed, count), speed, count, n - 1)
  }

  /** Calls compose: `a` calls then `b` calls are `a + b` calls. */
  lemma {:induction false} StepsAdd(c: Counter, speed: int, count: int, a: nat, b: nat)
    requires count > 0
    decreases a
    ensures Steps(c, speed, count, a + b) == Steps(Steps(c, speed, count, a), speed, count, b)
  {
    if a > 0 {
      StepsAdd(Step(c, speed, count), speed, count, a - 1, b);
    }
  }

  /** Within one period the timer counts up with the frame held; the period's last call advances it. */
  lemma {:induction false} WithinPeriod(t: nat, f: int, speed: nat, count: int, n: nat)
    requires count > 0 && t < speed && t + n <= speed
    decreases n
    ensures Steps(Counter(t, f), speed, count, n) ==
      if t + n < speed then Counter(t + n, f) else Counter(0, (f + 1) % count)
  {
    if n > 0 {
      if t + 1 < speed {
        WithinPeriod(t + 1, f, speed, count, n - 1);
      } else {
        assert n == 1;
      }
    }
  }

  /** The frame index after `k` single advances, each modulo `count`. */
  function Advance(f: int, count: int, k: nat): int
    requires count > 0
    decreases k
  {
    if k == 0 then f else (Advance(f, count, k - 1) + 1) % count
  }

  /** From a reset timer, every `speed` calls advance the frame exactly once. */
  lemma {:induction false} FullPeriods(f: int, speed: nat, count: int, k: nat)
    requires count > 0 && speed >= 1
    decreases k
    ensures Steps(Counter(0, f), speed, count, speed * k) == Counter(0, Advance(f, count, k))
  {
    if k > 0 {
      FullPeriods(f, speed, count, k - 1);
      assert speed * k == speed * (k - 1) + speed;
      StepsAdd(Counter(0, f), speed, count, speed * (k - 1), speed);
      WithinPeriod(0, Advance(f, count, k - 1), speed, count, speed);
    }
  }

  /** With four frames, `k` advances from frame `f` land on frame `(f + k) % 4`. */
  lemma {:induction false} AdvanceFour(f: int, k: nat)
    requires 0 <= f < WALKING_FRAMES
    decreases k
    ensures Advance(f, WALKING_FRAMES, k) == (f + k) % WALKING_FRAMES
  {
    if k > 0 {
      AdvanceFour(f, k - 1);
    }
  }

  /** `SpriteSheet`: a strip of equal frames stepped through at a fixed speed. */
  class SpriteSheet {
    const frameWidth: nat
    const frameHeight: nat
    const frames: int
    const animationSpeed: int
    var currentFrame: int
    var animationTimer: int

    ghost predicate Valid()
      reads this
    {
      frames > 0 && InRange(Counter(animationTimer, currentFrame), animationSpeed, frames)
    }

    /** `SpriteSheet.__init__` (the image itself is not modelled). */
    constructor (frameWidth: nat, frameHeight: nat, frames: int, animationSpeed: int)
      requires frames > 0
      ensures Valid()
      ensures this.frameWidth == frameWidth && this.frameHeight == frameHeight
      ensures this.frames == frames && this.animationSpeed == animationSpeed
      ensures currentFrame == 0 && animationTimer == 0
    {
      this.frameWidth := frameWidth;
      this.frameHeight := frameHeight;
      this.frames := frames;
      this.animationSpeed := animationSpeed;
      currentFrame := 0;
      animationTimer := 0;
    }

    /** `get_frame`: one counter step, then the source rectangle of the current frame. */
    method GetFrame() returns (r: Rect)
      requires Valid()
      modifies this`currentFrame, this`animationTimer
      ensures Valid()
      ensures Counter(animationTimer, currentFrame) == Step(old(Counter(animationTimer, currentFrame)), animationSpeed, frames)
      ensures r == Rect(currentFrame * frameWidth, 0, frameWidth, frameHeight)
    {
      animationTimer := animationTimer + 1;
      if animationTimer >= animationSpeed {
        animationTimer := 0;
        currentFrame := (currentFrame + 1) % frames;
      }
      var x := currentFrame * frameWidth;
      var y := 0;
      return Rect(x, y, frameWidth, frameHeight);
    }
  }

  /** `Character`: a 32 x 48 figure with four walking frames shown eight calls each. */
  class Character {
    const width := CHARACTER_WIDTH
    const height := CHARACTER_HEIGHT
    const frameCount := WALKING_FRAMES
    const animationSpeed := CHARACTER_ANIMATION_SPEED
    var currentFrame: int
    var animationTimer: int

    ghost predicate Valid()
      reads this
    {
      InRange(Counter(animationTimer, currentFrame), animationSpeed, frameCount)
    }

    /** `Character.__init__` (the pixel art is not modelled). */
    constructor ()
      ensures Valid() && currentFrame == 0 && animationTimer == 0
    {
      currentFrame := 0;
      animationTimer := 0;
    }

    /** The counter part of `Character.draw`; answers the index of the walking frame drawn. */
    method Draw() returns (frame: int)
      requires Valid()
      modifies this`currentFrame, this`animationTimer
      ensures Valid()
      ensures Counter(animationTimer, currentFrame) == Step(old(Counter(animationTimer, currentFrame)), animationSpeed, frameCount)
      ensures frame == currentFrame && 0 <= frame < frameCount
    {
      animationTimer := animationTimer + 1;
      if animationTimer >= animationSpeed {
        animationTimer := 0;
        currentFrame := (currentFrame + 1) % frameCount;
      }
      frame := currentFrame;
    }
  }

  /** The character's walking frame advances by one, modulo four, once every eight draws. */
  lemma WalkCycle(f: int, k: nat)
    requires 0 <= f < WALKING_FRAMES
    ensures Steps(Counter(0, f), CHARACTER_ANIMATION_SPEED, WALKING_FRAMES, CHARACTER_ANIMATION_SPEED * k)
            == Counter(0, (f + k) % WALKING_FRAMES)
    ensures forall n :: 0 < n < CHARACTER_ANIMATION_SPEED ==>
      Steps(Counter(0, f), CHARACTER_ANIMATION_SPEED, WALKING_FRAMES, n) == Counter(n, f)
  {
    FullPeriods(f, CHARACTER_ANIMATION_SPEED, WALKING_FRAMES, k);
    AdvanceFour(f, k);
    forall n | 0 < n < CHARACTER_ANIMATION_SPEED
      ensures Steps(Counter(0, f), CHARACTER_ANIMATION_SPEED, WALKING_FRAMES, n) == Counter(n, f)
    {
      WithinPeriod(0, f, CHARACTER_ANIMATION_SPEED, WALKING_FRAMES, n);
    }
  }
}
