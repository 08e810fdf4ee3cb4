/**
 * One frame of the PLAYING state of the game loop, on values: both players'
 * input, gravity and platform collision, the sprite updates, then the
 * projectile hits, player 1's projectiles first. Also the knockout test and
 * the winner announced on the game-over screen.
 */
module Duel {
  import opened Tuning
  import opened Geometry
  import opened Projectiles
  import opened FighterSpec
  import opened FighterLaws

  /** The two players, in the roles the game loop gives them. */
  datatype Bout = Bout(p1: FighterState, p2: FighterState)

  /** One frame's inputs: each player's held controls and the clock reading (milliseconds). */
  datatype Tick = Tick(k1: Intent, k2: Intent, now: int)

  /** An attacker's projectiles resolved against a defender. */
  datatype Clash = Clash(attacker: FighterState, defender: FighterState)

  datatype Player = Player1 | Player2

  /** The fixed platform layout: the ground (twice the screen wide) and seven floating platforms. */
  const PLATFORMS: seq<Rect> := [
    Rect(0, HEIGHT - 30, WIDTH * 2, 30),
    Rect(200, HEIGHT - 150, 150, 20),
    Rect(500, HEIGHT - 200, 100, 20),
    Rect(700, HEIGHT - 250, 120, 20),
    Rect(300, HEIGHT - 300, 140, 20),
    Rect(100, HEIGHT - 400, 80, 20),
    Rect(900, HEIGHT - 350, 90, 20),
    Rect(400, HEIGHT - 450, 60, 20)
  ]

  /** Some projectile of ps touches the target sprite rectangle. */
  predicate AnyHit(ps: seq<Projectile>, target: Rect)
  {
    ps != [] && (AnyHit(ps[..|ps| - 1], target) || Overlaps(ps[|ps| - 1].box, target))
  }

  /** The projectiles of ps that miss the target, in their original order. */
  function Survivors(ps: seq<Projectile>, target: Rect): (r: seq<Projectile>)
    ensures |r| <= |ps|
    ensures forall j :: 0 <= j < |r| ==> !Overlaps(r[j].box, target)
  {
    if ps == [] then []
    else
      var rest := Survivors(ps[..|ps| - 1], target);
      if Overlaps(ps[|ps| - 1].box, target) then rest else rest + [ps[|ps| - 1]]
  }

  /**
   * The hit loop of the game loop for one attacker: every projectile touching
   * the defender is removed; the defender takes 10 damage, and the attacker is
   * credited, only if the defender was vulnerable, and only once, since the
   * first hit starts the hurt animation.
   */
  function Volley(att: FighterState, def: FighterState, now: int): Clash
  {
    var hit := AnyHit(att.projectiles, def.body.rect);
    var a := if hit && Vulnerable(def) then CreditHit(att, now) else att;
    Clash(a.(projectiles := Survivors(att.projectiles, def.body.rect)),
          if hit then TakeDamage(def, PROJECTILE_DAMAGE, now) else def)
  }

  /** The second projectile pass of all_sprites.update: every projectile is advanced once more. */
  function Reflight(s: FighterState): FighterState
  {
    s.(projectiles := AdvanceAll(s.projectiles))
  }

  /** One player's input, gravity and collision, in that order. */
  function Act(s: FighterState, k: Intent, plats: seq<Rect>): FighterState
  {
    HandleCollision(ApplyGravity(HandleKeys(s, k)), plats)
  }

  /** One frame of the PLAYING state. */
  function Frame(b: Bout, plats: seq<Rect>, t: Tick): Bout
  {
    var a1 := Act(b.p1, t.k1, plats);
    var a2 := Act(b.p2, t.k2, plats);
    var c1 := Reflight(Update(a1, t.now));
    var c2 := Reflight(Update(a2, t.now));
    var v1 := Volley(c1, c2, t.now);
    var v2 := Volley(v1.defender, v1.attacker, t.now);
    Bout(v2.defender, v2.attacker)
  }

  /** The game ends once either player's health reaches 0. */
  predicate KnockedOut(b: Bout)
  {
    b.p1.stats.health <= 0 || b.p2.stats.health <= 0
  }

  /** The game-over screen's winner: Player 1 exactly when Player 2 has no health left. */
  function Winner(b: Bout): Player
  {
    if b.p2.stats.health <= 0 then Player1 else Player2
  }

  /** The frames of one match: frames run until the ticks run out or a player is knocked out. */
  function Play(b: Bout, plats: seq<Rect>, ticks: seq<Tick>): Bout
    decreases |ticks|
  {
    if ticks == [] || KnockedOut(b) then b else Play(Frame(b, plats, ticks[0]), plats, ticks[1..])
  }

  /** Both fighters within their invariant ranges. */
  predicate BoutInv(b: Bout)
  {
    Inv(b.p1) && Inv(b.p2)
  }

  // ---------------------------------------------------------------- hits

  /** AnyHit is the existence of a touching projectile. */
  lemma {:induction false} AnyHitExists(ps: seq<Projectile>, target: Rect)
    ensures AnyHit(ps, target) <==> exists j :: 0 <= j < |ps| && Overlaps(ps[j].box, target)
  {
    if ps != [] {
      var init := ps[..|ps| - 1];
      AnyHitExists(init, target);
      if AnyHit(init, target) {
        var j :| 0 <= j < |init| && Overlaps(init[j].box, target);
        assert ps[j] == init[j];
      }
      if exists j :: 0 <= j < |ps| && Overlaps(ps[j].box, target) {
        var j :| 0 <= j < |ps| && Overlaps(ps[j].box, target);
        if j < |init| {
          assert init[j] == ps[j];
        }
      }
    }
  }

  /** A projectile survives exactly when it was in the attacker's group and misses the target. */
  lemma {:induction false} SurvivorsMembers(ps: seq<Projectile>, target: Rect, q: Projectile)
    ensures q in Survivors(ps, target) <==> q in ps && !Overlaps(q.box, target)
  {
    if ps != [] {
      var init := ps[..|ps| - 1];
      SurvivorsMembers(init, target, q);
      assert ps == init + [ps[|ps| - 1]];
    }
  }

  /** Nothing is removed exactly when nothing hits. */
  lemma {:induction false} SurvivorsAllIffNoHit(ps: seq<Projectile>, target: Rect)
    ensures Survivors(ps, target) == ps <==> !AnyHit(ps, target)
  {
    if ps != [] {
      var init := ps[..|ps| - 1];
      SurvivorsAllIffNoHit(init, target);
      assert ps == init + [ps[|ps| - 1]];
      if Overlaps(ps[|ps| - 1].box, target) {
        assert Survivors(ps, target) != ps by {
          assert |Survivors(ps, target)| < |ps| by {
            assert |Survivors(init, target)| <= |init|;
          }
        }
      } else if AnyHit(init, target) {
        var r := Survivors(init, target);
        assert r != init;
        assert Survivors(ps, target)[..|r|] == r;
        assert ps[..|init|] == init;
      }
    }
  }

  /**
   * A volley damages the defender at most once: health drops by 10 (not below
   * 0) exactly when some projectile touches a vulnerable defender, and then the
   * attacker's combo rises by one and its meter by 10, capped.
   */
  lemma VolleyEffect(att: FighterState, def: FighterState, now: int)
    ensures var v, hit := Volley(att, def, now), AnyHit(att.projectiles, def.body.rect);
      v.defender.stats.health == (if hit && Vulnerable(def) then Max(0, def.stats.health - PROJECTILE_DAMAGE) else def.stats.health)
    ensures var v, hit := Volley(att, def, now), AnyHit(att.projectiles, def.body.rect);
      && v.attacker.stats.combo == (if hit && Vulnerable(def) then att.stats.combo + 1 else att.stats.combo)
      && v.attacker.stats.meter == (if hit && Vulnerable(def) then Min(MAX_SPECIAL, att.stats.meter + HIT_METER_GAIN) else att.stats.meter)
    ensures var v := Volley(att, def, now);
      && v.attacker.stats.health == att.stats.health
      && v.attacker.body == att.body && v.attacker.pose == att.pose
      && v.defender.body == def.body && v.defender.projectiles == def.projectiles
      && v.defender.stats.meter == def.stats.meter
  {
  }

  lemma VolleyKeepsInv(att: FighterState, def: FighterState, now: int)
    requires Inv(att) && Inv(def)
    ensures Inv(Volley(att, def, now).attacker) && Inv(Volley(att, def, now).defender)
  {
    DamageKeepsInv(def, att, PROJECTILE_DAMAGE, now);
  }

  // --------------------------------------------------------------- frame

  /** One player's half of a frame before the hits: health, combo and cycle lengths are untouched. */
  lemma {:induction false} PrepareKeepsHealth(s: FighterState, k: Intent, plats: seq<Rect>, now: int)
    requires s.stats.combo >= 0
    ensures Reflight(Update(Act(s, k, plats), now)).stats.health == s.stats.health
  {
    KeysKeepPlace(s, k);
    UpdateCombo(Act(s, k, plats), now);
  }

  lemma {:induction false} PrepareKeepsInv(s: FighterState, k: Intent, plats: seq<Rect>, now: int)
    requires Inv(s)
    ensures Inv(Reflight(Update(Act(s, k, plats), now)))
  {
    KeysKeepInv(s, k);
    GravityAndCollisionKeepInv(HandleKeys(s, k), plats);
    var g := ApplyGravity(HandleKeys(s, k));
    GravityAndCollisionKeepInv(g, plats);
    UpdateKeepsInv(Act(s, k, plats), now);
  }

  lemma {:induction false} FrameKeepsInv(b: Bout, plats: seq<Rect>, t: Tick)
    requires BoutInv(b)
    ensures BoutInv(Frame(b, plats, t))
  {
    PrepareKeepsInv(b.p1, t.k1, plats, t.now);
    PrepareKeepsInv(b.p2, t.k2, plats, t.now);
    var c1 := Reflight(Update(Act(b.p1, t.k1, plats), t.now));
    var c2 := Reflight(Update(Act(b.p2, t.k2, plats), t.now));
    VolleyKeepsInv(c1, c2, t.now);
    var v1 := Volley(c1, c2, t.now);
    VolleyKeepsInv(v1.defender, v1.attacker, t.now);
  }

  /** A frame costs each player at most one projectile's damage, and never heals. */
  lemma {:induction false} FrameHealth(b: Bout, plats: seq<Rect>, t: Tick)
    requires BoutInv(b)
    ensures var r := Frame(b, plats, t);
      && b.p1.stats.health - PROJECTILE_DAMAGE <= r.p1.stats.health <= b.p1.stats.health
      && b.p2.stats.health - PROJECTILE_DAMAGE <= r.p2.stats.health <= b.p2.stats.health
  {
    PrepareKeepsHealth(b.p1, t.k1, plats, t.now);
    PrepareKeepsHealth(b.p2, t.k2, plats, t.now);
    var c1 := Reflight(Update(Act(b.p1, t.k1, plats), t.now));
    var c2 := Reflight(Update(Act(b.p2, t.k2, plats), t.now));
    VolleyEffect(c1, c2, t.now);
    var v1 := Volley(c1, c2, t.now);
    VolleyEffect(v1.defender, v1.attacker, t.now);
  }

  /** The invariant holds after any number of frames. */
  lemma {:induction false} PlayKeepsInv(b: Bout, plats: seq<Rect>, ticks: seq<Tick>)
    requires BoutInv(b)
    ensures BoutInv(Play(b, plats, ticks))
    decreases |ticks|
  {
    if ticks != [] && !KnockedOut(b) {
      FrameKeepsInv(b, plats, ticks[0]);
      PlayKeepsInv(Frame(b, plats, ticks[0]), plats, ticks[1..]);
    }
  }

  /** Health never rises over a match. */
  lemma {:induction false} PlayNeverHeals(b: Bout, plats: seq<Rect>, ticks: seq<Tick>)
    requires BoutInv(b)
    ensures Play(b, plats, ticks).p1.stats.health <= b.p1.stats.health
    ensures Play(b, plats, ticks).p2.stats.health <= b.p2.stats.health
    decreases |ticks|
  {
    if ticks != [] && !KnockedOut(b) {
      FrameHealth(b, plats, ticks[0]);
      FrameKeepsInv(b, plats, ticks[0]);
      PlayNeverHeals(Frame(b, plats, ticks[0]), plats, ticks[1..]);
    }
  }

  /** Each hit removes 10 of the 100 health points, so a match lasts at least ten frames. */
  lemma {:induction false} KnockoutTakesTenFrames(b: Bout, plats: seq<Rect>, ticks: seq<Tick>)
    requires BoutInv(b) && b.p1.stats.health == MAX_HEALTH && b.p2.stats.health == MAX_HEALTH
    requires |ticks| < 10
    ensures !KnockedOut(Play(b, plats, ticks))
  {
    HealthAfterFrames(b, plats, ticks);
  }

  /** After n frames each player has lost at most 10 health per frame played. */
  lemma {:induction false} HealthAfterFrames(b: Bout, plats: seq<Rect>, ticks: seq<Tick>)
    requires BoutInv(b)
    ensures Play(b, plats, ticks).p1.stats.health >= b.p1.stats.health - PROJECTILE_DAMAGE * |ticks|
    ensures Play(b, plats, ticks).p2.stats.health >= b.p2.stats.health - PROJECTILE_DAMAGE * |ticks|
    decreases |ticks|
  {
    if ticks != [] && !KnockedOut(b) {
      FrameHealth(b, plats, ticks[0]);
      FrameKeepsInv(b, plats, ticks[0]);
      HealthAfterFrames(Frame(b, plats, ticks[0]), plats, ticks[1..]);
    }
  }

  /** A match stops at the first knockout: the result is knocked out, or every tick was used. */
  lemma {:induction false} PlayStopsAtKnockout(b: Bout, plats: seq<Rect>, ticks: seq<Tick>, more: seq<Tick>)
    requires KnockedOut(Play(b, plats, ticks))
    ensures Play(b, plats, ticks + more) == Play(b, plats, ticks)
    decreases |ticks|
  {
    if ticks != [] && !KnockedOut(b) {
      assert (ticks + more)[1..] == ticks[1..] + more;
      PlayStopsAtKnockout(Frame(b, plats, ticks[0]), plats, ticks[1..], more);
    }
  }

  // -------------------------------------------------------------- winner

  /**
   * The announced winner: Player 1 exactly when Player 2 is knocked out, so a
   * double knockout goes to Player 1; Player 2 wins only a knockout of Player 1
   * alone.
   */
  lemma WinnerRule(b: Bout)
    requires KnockedOut(b)
    ensures Winner(b) == Player1 <==> b.p2.stats.health <= 0
    ensures Winner(b) == Player2 <==> b.p1.stats.health <= 0 && b.p2.stats.health > 0
  {
  }

  /** Both players knocked out in the same frame: the game still names Player 1. */
  lemma DoubleKnockoutGoesToPlayer1(b: Bout)
    requires b.p1.stats.health <= 0 && b.p2.stats.health <= 0
    ensures Winner(b) == Player1
  {
  }
}
