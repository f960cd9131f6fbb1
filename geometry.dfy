/**
 * Integer geometry shared by both front ends of the game: pygame's `Rect`, the
 * tile and building records kept by the world, and Python's `list.remove`.
 */
module Geometry {

  /** A `pygame.Rect` with non-negative width and height. */
  datatype Rect = Rect(x: int, y: int, w: nat, h: nat) {

    /** `rect.centerx`: the left edge plus half the width, rounded down. */
    function CenterX(): int { x + w / 2 }

    /** `rect.centery`. */
    function CenterY(): int { y + h / 2 }

    /** `rect.collidepoint((px, py))`: the point lies in the half-open box. */
    predicate CollidePoint(px: int, py: int) {
      x <= px < x + w && y <= py < y + h
    }
  }

  /** The `"type"` entry of a tile dictionary. */
  datatype TileKind = Grass | Dirt | Tree | Stone

  /** A tile dictionary `{"rect": ..., "type": ...}`; Python compares these by value. */
  datatype Tile = Tile(rect: Rect, kind: TileKind)

  /** Only trees and stones can be harvested. */
  predicate Interactive(t: Tile) {
    t.kind == Tree || t.kind == Stone
  }

  /** An entry `(rect, blueprint_name)` of a world's building list. */
  datatype Building = Building(rect: Rect, blueprint: string)

  /** Python's `int()` of a float, which pygame applies to float rectangle coordinates. */
  function Truncate(r: real): (n: int)
    ensures 0.0 <= r ==> 0 <= n && n as real <= r < n as real + 1.0
    ensures r < 0.0 ==> n <= 0 && n as real - 1.0 < r <= n as real
  {
    if r >= 0.0 then r.Floor else -((-r).Floor)
  }

  /** A whole number is its own truncation. */
  lemma TruncateWhole(n: int)
    ensures Truncate(n as real) == n
  {
  }

  /**
   * `s.remove(x)` when `x in s`, and `s` itself otherwise (the guard every caller puts in
   * front of it): the FIRST entry equal to `x` is dropped.
   */
  function RemoveFirst<T(==)>(s: seq<T>, x: T): (r: seq<T>)
    ensures |r| == if x in s then |s| - 1 else |s|
  {
    if s == [] then []
    else if s[0] == x then s[1..]
    else [s[0]] + RemoveFirst(s[1..], x)
  }

  /** Removing a value that is not in the list changes nothing. */
  lemma {:induction false} RemoveFirstAbsent<T>(s: seq<T>, x: T)
    requires x !in s
    ensures RemoveFirst(s, x) == s
  {
    if s != [] {
      assert s[0] != x;
      assert x !in s[1..];
      RemoveFirstAbsent(s[1..], x);
      assert [s[0]] + s[1..] == s;
    }
  }

  /** When `k` is the first position holding `x`, exactly that position is dropped. */
  lemma {:induction false} RemoveFirstAt<T>(s: seq<T>, x: T, k: nat)
    requires k < |s| && s[k] == x && x !in s[..k]
    ensures RemoveFirst(s, x) == s[..k] + s[k + 1..]
  {
    if k > 0 {
      assert s[0] == s[..k][0];
      assert s[1..][..k - 1] == s[1..k];
      assert x !in s[1..][..k - 1];
      RemoveFirstAt(s[1..], x, k - 1);
      assert [s[0]] + (s[1..][..k - 1] + s[1..][k..]) == s[..k] + s[k + 1..];
    }
  }

  /** Removal takes away exactly one copy of a present value and nothing else. */
  lemma {:induction false} RemoveFirstMultiset<T>(s: seq<T>, x: T)
    requires x in s
    ensures multiset(RemoveFirst(s, x)) == multiset(s) - multiset{x}
  {
    if s[0] != x {
      assert x in s[1..];
      RemoveFirstMultiset(s[1..], x);
      assert s == [s[0]] + s[1..];
    } else {
      assert s == [s[0]] + s[1..];
    }
  }

  /** The number of tiles of kind `k` in `s`. */
  function CountKind(s: seq<Tile>, k: TileKind): (n: nat)
    ensures n <= |s|
  {
    if s == [] then 0
    else CountKind(s[..|s| - 1], k) + (if s[|s| - 1].kind == k then 1 else 0)
  }

  /** Counting distributes over concatenation. */
  lemma {:induction false} CountKindConcat(a: seq<Tile>, b: seq<Tile>, k: TileKind)
    ensures CountKind(a + b, k) == CountKind(a, k) + CountKind(b, k)
  {
    if b == [] {
      assert a + b == a;
    } else {
      CountKindConcat(a, b[..|b| - 1], k);
      assert (a + b)[..|a + b| - 1] == a + b[..|b| - 1];
    }
  }

  /** In a list of tiles all of kind `k`, every tile counts for `k` and none for another kind. */
  lemma {:induction false} CountKindUniform(s: seq<Tile>, k: TileKind)
    requires forall i :: 0 <= i < |s| ==> s[i].kind == k
    ensures forall other :: CountKind(s, other) == if other == k then |s| else 0
  {
    if s != [] {
      CountKindUniform(s[..|s| - 1], k);
    }
  }
}
