/** Projectiles: how they are spawned, how one update moves them, and when they are removed. */
module Projectiles {
  import opened Options
  import opened Tuning
  import opened Geometry

  /** A projectile in flight: its box, its direction and the x it was fired from. */
  datatype Projectile = Projectile(box: Rect, facingRight: bool, originX: int)

  /** A new projectile whose 20x10 box is centred on (cx, cy). */
  function Spawn(cx: int, cy: int, facingRight: bool): (p: Projectile)
    ensures CenterX(p.box) == cx && CenterY(p.box) == cy
    ensures p.box.w == PROJECTILE_W && p.box.h == PROJECTILE_H
    ensures p.originX == cx && p.facingRight == facingRight
  {
    Projectile(Rect(cx - PROJECTILE_W / 2, cy - PROJECTILE_H / 2, PROJECTILE_W, PROJECTILE_H), facingRight, cx)
  }

  /** Signed distance covered by one update. */
  function Velocity(p: Projectile): int
  {
    if p.facingRight then PROJECTILE_SPEED else -PROJECTILE_SPEED
  }

  /** The projectile moved dx pixels horizontally. */
  function Shifted(p: Projectile, dx: int): Projectile
  {
    p.(box := p.box.(x := p.box.x + dx))
  }

  /** The projectile has left its range: its box's left edge is more than WIDTH from the firing x. */
  predicate OutOfRange(p: Projectile)
  {
    Abs(p.box.x - p.originX) > WIDTH
  }

  /**
   * One Projectile.update: move, then report None when the projectile
   * killed itself for being out of range.
   */
  function Advance(p: Projectile): (r: Option<Projectile>)
    // removed exactly when the moved left edge is more than WIDTH from the firing x
    ensures var x := p.box.x + (if p.facingRight then PROJECTILE_SPEED else -PROJECTILE_SPEED);
      r.None? <==> x < p.originX - WIDTH || p.originX + WIDTH < x
    // a survivor moved PROJECTILE_SPEED pixels rightward when facing right, leftward otherwise
    ensures r.Some? ==> r.value.box.x == (if p.facingRight then p.box.x + PROJECTILE_SPEED else p.box.x - PROJECTILE_SPEED)
    // nothing else about it changed, and it is within range
    ensures r.Some? ==> r.value.box.(x := p.box.x) == p.box && r.value.facingRight == p.facingRight && r.value.originX == p.originX
    ensures r.Some? ==> Abs(r.value.box.x - r.value.originX) <= WIDTH
  {
    var moved := Shifted(p, Velocity(p));
    if OutOfRange(moved) then None else Some(moved)
  }

  /**
   * Group.update over a fighter's projectiles: each one advances, those that
   * killed themselves leave the group, the others keep their order.
   */
  function AdvanceAll(ps: seq<Projectile>): (r: seq<Projectile>)
    ensures |r| <= |ps|
    ensures forall j :: 0 <= j < |r| ==> !OutOfRange(r[j])
  {
    if ps == [] then []
    else
      var rest := AdvanceAll(ps[..|ps| - 1]);
      match Advance(ps[|ps| - 1])
      case None => rest
      case Some(q) => rest + [q]
  }

  /** A projectile survives the group update exactly when its single update keeps it. */
  lemma {:induction false} AdvanceAllMembers(ps: seq<Projectile>, q: Projectile)
    ensures q in AdvanceAll(ps) <==> exists p :: p in ps && Advance(p) == Some(q)
  {
    if ps != [] {
      var init, last := ps[..|ps| - 1], ps[|ps| - 1];
      assert ps == init + [last];
      AdvanceAllMembers(init, q);
      if q in AdvanceAll(ps) && q !in AdvanceAll(init) {
        assert Advance(last) == Some(q);
      }
    }
  }

  /** The projectile after n updates, or None once it has been removed. */
  function Flight(p: Projectile, n: nat): Option<Projectile>
  {
    if n == 0 then Some(p)
    else match Flight(p, n - 1)
      case None => None
      case Some(q) => Advance(q)
  }

  /**
   * Updates a freshly fired projectile survives. Its box starts 10 pixels left
   * of the firing x, so moving right it is removed once 10 * n - 10 > WIDTH
   * and moving left once 10 * n + 10 > WIDTH.
   */
  const RIGHT_LIFETIME: nat := 129
  const LEFT_LIFETIME: nat := 127

  lemma {:induction false} RightwardFlight(cx: int, cy: int, n: nat)
    ensures Flight(Spawn(cx, cy, true), n)
      == if n <= RIGHT_LIFETIME then Some(Shifted(Spawn(cx, cy, true), PROJECTILE_SPEED * n)) else None
  {
    if n > 0 {
      RightwardFlight(cx, cy, n - 1);
    }
  }

  lemma {:induction false} LeftwardFlight(cx: int, cy: int, n: nat)
    ensures Flight(Spawn(cx, cy, false), n)
      == if n <= LEFT_LIFETIME then Some(Shifted(Spawn(cx, cy, false), -PROJECTILE_SPEED * n)) else None
  {
    if n > 0 {
      LeftwardFlight(cx, cy, n - 1);
    }
  }
}
