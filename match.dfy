/**
 * The PLAYING state of the game loop on the two Samurai objects: each frame
 * calls their methods in the loop's order and then resolves the projectile
 * hits in place. Every method is proved to leave the players in the state
 * the functions of module Duel describe.
 */
module Matches {
  import opened Tuning
  import opened Geometry
  import opened Projectiles
  import opened FighterSpec
  import opened Fighters
  import opened Duel

  class Match {
    const player1: Fighter
    const player2: Fighter
    const platforms: seq<Rect>

    /** The two players' fields as one value. */
    function Players(): Bout
      reads player1, player2
    {
      Bout(player1.State(), player2.State())
    }

    /**
     * reset_game: Player 1 at (100, HEIGHT - 100) and Player 2 at
     * (700, HEIGHT - 100), both w x h, on the fixed platform layout.
     */
    constructor (w: int, h: int, frames1: Frames, frames2: Frames)
      ensures player1 != player2 && platforms == PLATFORMS
      ensures Players() == Bout(Initial(100, HEIGHT - 100, w, h, frames1), Initial(700, HEIGHT - 100, w, h, frames2))
      ensures fresh(player1) && fresh(player2)
    {
      player1 := new Fighter(100, HEIGHT - 100, w, h, frames1);
      player2 := new Fighter(700, HEIGHT - 100, w, h, frames2);
      platforms := PLATFORMS;
    }

    /**
     * The hit loop for one attacker: each of its projectiles that touches the
     * defender calls take_damage(10, attacker) on the defender and is killed.
     */
    method ResolveHits(attacker: Fighter, defender: Fighter, now: int)
      requires attacker != defender
      modifies attacker, defender
      ensures Clash(attacker.State(), defender.State()) == Volley(old(attacker.State()), old(defender.State()), now)
    {
      ghost var a0, d0 := attacker.State(), defender.State();
      var target := defender.body.rect;
      var flight := attacker.projectiles;
      var kept: seq<Projectile> := [];
      for i := 0 to |flight|
        invariant attacker.projectiles == flight
        invariant kept == Survivors(flight[..i], target)
        invariant defender.State() == (if AnyHit(flight[..i], target) then TakeDamage(d0, PROJECTILE_DAMAGE, now) else d0)
        invariant attacker.State() == (if AnyHit(flight[..i], target) && Vulnerable(d0) then CreditHit(a0, now) else a0)
      {
        assert flight[..i + 1][..i] == flight[..i];
        if Overlaps(flight[i].box, defender.body.rect) {
          defender.TakeDamage(PROJECTILE_DAMAGE, attacker, now);
        } else {
          kept := kept + [flight[i]];
        }
      }
      assert flight[..|flight|] == flight;
      attacker.projectiles := kept;
    }

    /**
     * One frame of the PLAYING state; knockout reports that the game moves
     * to the game-over screen.
     */
    method Step(k1: Intent, k2: Intent, now: int) returns (knockout: bool)
      requires player1 != player2
      modifies player1, player2
      ensures Players() == Frame(old(Players()), platforms, Tick(k1, k2, now))
      ensures knockout == KnockedOut(Players())
    {
      player1.HandleKeys(k1);
      player1.ApplyGravity();
      player1.HandleCollision(platforms);
      player2.HandleKeys(k2);
      player2.ApplyGravity();
      player2.HandleCollision(platforms);
      // all_sprites.update: the players first (each advancing its own
      // projectiles), then every projectile a second time
      player1.Update(now);
      player2.Update(now);
      player1.UpdateProjectiles();
      player2.UpdateProjectiles();
      ResolveHits(player1, player2, now);
      ResolveHits(player2, player1, now);
      knockout := player1.stats.health <= 0 || player2.stats.health <= 0;
    }
  }
}
