# Pixel Samurai Duel — a verified model of the combat simulation

Pixel Samurai Duel is a two-player pygame fighting game. Each player steers a
Samurai on a fixed set of platforms, jumps, fires projectiles with a normal
attack (cooldown 25 frames) and with a special attack (three projectiles,
needs a full special meter), and loses ten health points per hit taken. The
match ends when a player's health reaches 0.

This project models the per-frame simulation of `main.py` in Dafny:

- `tuning.dfy`, `geometry.dfy`, `options.dfy`: the game constants, pygame's
  rectangle arithmetic (centre, `colliderect`, `int()` truncation, clamping)
  and an `Option` type.
- `projectiles.dfy`: the `Projectile` sprite as a value: spawn, one update
  step, the group update that drops out-of-range projectiles, and the exact
  lifetime of a projectile.
- `fighter_spec.dfy`: the `Samurai` as a value (`FighterState`, grouped into
  `Body`, `Pose` and `Stats`) with one function per method: `handle_keys`,
  `apply_gravity`, `handle_collision`, `update` and `take_damage`.
- `fighter.dfy`: the `Samurai` class itself (`Fighters.Fighter`), whose
  methods change its fields in place and are proved to leave exactly the
  state the functions above give.
- `fighter_laws.dfy`: what those operations guarantee.
- `duel.dfy`: one frame of the PLAYING state of the game loop on values,
  the projectile-hit loop, the knockout test and the winner rule, with
  match-long invariants.
- `match.dfy`: the same frame on the two `Fighter` objects (`Matches.Match`),
  with the hit loop run in place.
- `character_select.dfy`: the character-select screen's cursor and ready logic.

Units: every fractional quantity of the source (position, velocity, special
meter, animation index and rate) is held in integer hundredths (`SCALE = 100`),
so gravity 0.8 is 80, the meter maximum 100 is 10000 and an animation rate of
0.15 is 15. Health, the cooldown, the combo count and all rectangles are whole
numbers, as in the source. Controls arrive as an `Intent` (five booleans per
player) and the clock reading `pygame.time.get_ticks()` as a parameter `now`.

Behaviour of the code worth knowing, all modelled as written:

- Projectiles advance twice per frame. `Samurai.update` updates the fighter's
  projectile group, and `all_sprites.update` updates every projectile again.
  A spawned projectile's left edge starts 10 pixels left of its recorded
  origin, so a rightward projectile lives 129 advances and a leftward one 127.
- The normal attack and the special can fire in the same frame (one plus three
  projectiles), because both are tested one after the other.
- Gravity is applied even while the fighter is hurting; only the position
  update is suspended then.
- A volley hits at most once: every projectile touching the defender is
  removed, but only the first one finds the defender vulnerable.
- Platform collision tests all platforms in order, but only the first one the
  falling fighter overlaps takes effect, because landing zeroes the vertical
  velocity (`FighterLaws.SweepResolvesFirstOnly`).

Behaviour of the code a reader might not expect, also modelled as written:

- A hit that fills the attacker's meter does not set `special_ready`. Only the
  passive charge in `update` sets it.
- The winner is Player 1 exactly when Player 2's health is 0, so a double
  knockout is announced as a Player 1 win.
- Every projectile deals 10 damage and flies at the same speed. The code has
  no special-projectile damage or speed multiplier, no shields, no power-ups,
  no AI and no terrain effects; the platform type only chooses colours.

## Model

| member | source | states |
|---|---|---|
| Geometry.Half | main.py:290 | halving rounds toward zero, as the integer division of pygame's Rect centre does: n - 2r is 0 or the sign of n |
| Geometry.Clamp | main.py:437-438 | max(0, min(v, hi)): within [0, hi] when hi >= 0, v itself when already in range, hi above it, 0 below it |
| Geometry.ToPixel | main.py:487 | int() truncation toward zero: p*100 <= v < p*100 + 100 for v >= 0, and p*100 - 100 < v <= p*100 below 0 |
| Geometry.OverlapsIffSharedCell | main.py:541 | colliderect holds exactly when both rectangles have positive area and some pixel lies in both |
| Projectiles.Spawn | main.py:284-294 | the 20 x 10 box is centred on the muzzle point, and the origin is the muzzle x |
| Projectiles.Advance | main.py:296-300 | the projectile is removed exactly when its left edge, moved 10 pixels in the facing direction, lies more than WIDTH from the firing x; a survivor's box moved by +10 facing right and -10 facing left, its size, y, direction and origin are unchanged, and it is within WIDTH of its origin |
| Projectiles.AdvanceAll | main.py:296-300 | the group update keeps at most the projectiles it had, none of them out of range |
| Projectiles.AdvanceAllMembers | main.py:296-300 | a projectile is in the updated group exactly when it is the advanced form of a surviving member |
| Projectiles.RightwardFlight | main.py:290-300 | a rightward projectile is 10*n pixels further after n advances for n <= 129 and gone after that |
| Projectiles.LeftwardFlight | main.py:290-300 | a leftward projectile is 10*n pixels back after n advances for n <= 127 and gone after that |
| FighterSpec.InitialInv | main.py:307-351 | a new Samurai has full health, an empty meter and cooldown, and lies within the invariant ranges |
| FighterSpec.FirstOverlap | main.py:540-541 | the index of the first platform the sprite overlaps, or none when it overlaps no platform |
| Fighters.Fighter.constructor | main.py:307-351 | the fields are those of a new Samurai at (x, y) |
| Fighters.Fighter.HandleKeys | main.py:353-423 | the fields change exactly as FighterSpec.HandleKeys says |
| Fighters.Fighter.SteerStep | main.py:359-371 | left before right: run at 6 pixels a frame in the held direction, otherwise idle |
| Fighters.Fighter.JumpStep | main.py:373-379 | a grounded fighter that is not jumping jumps with velocity -16 |
| Fighters.Fighter.ShootStep | main.py:381-394 | the normal attack arms the cooldown and adds one projectile 40 pixels ahead of the centre |
| Fighters.Fighter.SpecialStep | main.py:401-417 | the special empties the meter and fires three projectiles in its loop over i in -1, 0, 1 |
| Fighters.Fighter.ApplyGravity | main.py:425-428 | the fields change exactly as FighterSpec.ApplyGravity says |
| Fighters.Fighter.HandleCollision | main.py:538-549 | the loop over the platforms leaves the state of the first-overlap rule |
| Fighters.Fighter.UpdateProjectiles | main.py:296-300 | the loop over the group leaves exactly AdvanceAll of the projectiles |
| Fighters.Fighter.Update | main.py:430-497 | the fields change exactly as FighterSpec.Update says |
| Fighters.Fighter.MoveStep | main.py:432-438 | unless hurting, velocity is added and the position clamped to the arena |
| Fighters.Fighter.AnimateStep | main.py:440-464 | the index advances and the attack, jump or hurt cycle ends as FighterSpec.Animate says |
| Fighters.Fighter.TimerStep | main.py:474-480 | the cooldown counts down and the combo lapses as FighterSpec.Timers says |
| Fighters.Fighter.RechargeStep | main.py:492-496 | the meter charges by 0.1 below the maximum and special_ready is set on reaching it |
| Fighters.Fighter.TakeDamage | main.py:551-565 | the defender is damaged and the attacker credited only when the defender was vulnerable, also when attacker and defender are the same object |
| FighterLaws.KeysIgnoredWhenKnockedOut | main.py:354-355 | a knocked-out fighter's input changes nothing |
| FighterLaws.KeysWhileBusy | main.py:357-358 | during an attack or a hurt animation input only stops horizontal motion |
| FighterLaws.KeysSteering | main.py:359-371 | horizontal velocity and facing follow left, then right, then neither |
| FighterLaws.KeysKeepPlace | main.py:353-423 | input never moves the sprite or changes health, combo or cycle lengths |
| FighterLaws.KeysJump | main.py:373-379 | a jump starts exactly when the fighter is alive, free, grounded, not jumping and jump is held; then velY is -16 and the fighter is airborne |
| FighterLaws.KeysKeepMuzzle | main.py:390-414 | the attacks read the sprite rectangle and facing that steering left behind |
| FighterLaws.KeysAttacks | main.py:381-417 | one projectile per normal attack, three per special, earlier projectiles kept in order |
| FighterLaws.KeysAttackGauges | main.py:381-409 | the cooldown becomes 25 exactly on a normal attack; meter and special_ready clear exactly on a special; either restarts the attack animation |
| FighterLaws.KeysShotPlacement | main.py:390-394 | the normal shot is centred 40 pixels ahead of the sprite's centre, flying the way the fighter faces |
| FighterLaws.KeysSpreadPlacement | main.py:412-417 | the special's three shots sit at y offsets -20, 0 and +20 from the centre line |
| FighterLaws.KeysKeepInv | main.py:353-423 | input handling keeps the invariant ranges |
| FighterLaws.GravityStep | main.py:425-428 | gravity adds 0.8 capped at 10 and changes nothing else |
| FighterLaws.FallingVelocity | main.py:425-428 | n frames of gravity give velY = min(v + 0.8n, 10) and touch nothing else |
| FighterLaws.CollisionLands | main.py:540-547 | a descending fighter overlapping some platform stands on the first one: bottom on its top, velY 0, grounded, not jumping |
| FighterLaws.CollisionMisses | main.py:548-549 | without a descent onto a platform, the fighter is only ungrounded |
| FighterLaws.SweepAfterLanding | main.py:540-541 | once landed, the remaining platforms of the loop change nothing |
| FighterLaws.FirstOverlapTail | main.py:540-541 | skipping a missed platform shifts the first overlap by one |
| FighterLaws.SweepResolvesFirstOnly | main.py:538-549 | the loop as written equals the first-overlap rule |
| FighterLaws.GravityAndCollisionKeepInv | main.py:425-428 | gravity and collision keep the invariant ranges |
| FighterLaws.UpdatePosition | main.py:432-438 | a hurting fighter keeps its position, otherwise it ends inside the arena; the rectangle follows int(x), int(y); velocities are kept |
| FighterLaws.UpdateCooldown | main.py:475-476 | the cooldown drops by one a frame and never below 0 |
| FighterLaws.UpdateCombo | main.py:479-480 | the combo resets exactly when more than 2000 ms passed since the last hit; health is kept |
| FighterLaws.UpdateMeter | main.py:493-496 | the meter rises by 0.1 only below the maximum, never past it; special_ready is set once a charge step reaches the maximum |
| FighterLaws.UpdateEndsCycles | main.py:446-464 | attack, jump and hurt end exactly when the index reaches the cycle length, the jump only while falling, resetting the index |
| FighterLaws.UpdateIdleOrRun | main.py:466-472 | with nothing in progress the fighter runs exactly when velX is not 0 |
| FighterLaws.UpdateProjectiles | main.py:489-490 | after an update every projectile of the fighter is in range |
| FighterLaws.StatsKeepInv | main.py:474-496 | timers and passive charge keep health, combo, meter and cooldown in range |
| FighterLaws.PoseKeepsInv | main.py:440-472 | the animation index stays non-negative and the rate positive |
| FighterLaws.UpdateKeepsInv | main.py:430-497 | update keeps the invariant ranges |
| FighterLaws.CooldownCountsDown | main.py:475-476 | after n updates the cooldown c is max(0, c - n) |
| FighterLaws.TakeDamageEffect | main.py:551-558 | an invulnerable defender is unchanged; otherwise health is max(0, health - amount), the hurt animation restarts, and only health, hurt time and pose change |
| FighterLaws.TakeDamageIdempotent | main.py:552 | a second hit during the hurt animation has no effect |
| FighterLaws.CreditEffect | main.py:562-565 | the attacker gains one combo hit and 10 meter capped at the maximum; special_ready is unchanged |
| FighterLaws.DamageKeepsInv | main.py:551-565 | damage and credit keep the invariant ranges |
| FighterLaws.CreditsChargeMeter | main.py:563-565 | n credited hits give meter min(max, m + 10n) and combo + n, health and pose unchanged |
| FighterLaws.TenHitsArmSpecial | main.py:402 | ten hits from an empty meter allow the special attack |
| FighterLaws.FirstHitScenario | main.py:551-565 | a fresh fighter hit once has 90 health; its fresh opponent has combo 1 and meter 10 |
| Duel.Survivors | main.py:1204-1207 | the projectiles left after the hit loop: none of them touches the defender |
| Duel.AnyHitExists | main.py:1204-1205 | a hit happens exactly when some projectile touches the defender |
| Duel.SurvivorsMembers | main.py:1204-1207 | a projectile survives exactly when it was in the group and misses |
| Duel.SurvivorsAllIffNoHit | main.py:1204-1207 | nothing is removed exactly when nothing hits |
| Duel.VolleyEffect | main.py:1204-1222 | the defender loses 10 health (not below 0) exactly when hit while vulnerable, and then the attacker gains one combo hit and 10 meter; positions are untouched |
| Duel.VolleyKeepsInv | main.py:1204-1222 | the hit loop keeps the invariant ranges |
| Duel.PrepareKeepsHealth | main.py:1188-1200 | input, gravity, collision and the sprite updates never change health |
| Duel.PrepareKeepsInv | main.py:1188-1200 | input, gravity, collision and the sprite updates keep the invariant ranges |
| Duel.FrameKeepsInv | main.py:1186-1226 | a whole frame keeps both players within the invariant ranges |
| Duel.FrameHealth | main.py:1186-1226 | a frame never heals and costs each player at most 10 health |
| Duel.PlayKeepsInv | main.py:1186-1226 | the invariant holds after any number of frames |
| Duel.PlayNeverHeals | main.py:1186-1226 | health never rises during a match |
| Duel.HealthAfterFrames | main.py:1186-1226 | after n frames each player has lost at most 10n health |
| Duel.KnockoutTakesTenFrames | main.py:1225-1226 | from full health no knockout happens within nine frames |
| Duel.PlayStopsAtKnockout | main.py:1225-1226 | once a player is knocked out no further frame is run |
| Duel.WinnerRule | main.py:1007 | Player 1 wins exactly when Player 2 is knocked out; Player 2 wins exactly when only Player 1 is |
| Duel.DoubleKnockoutGoesToPlayer1 | main.py:1007 | a double knockout is announced as a Player 1 win |
| Matches.Match.constructor | main.py:1143-1162 | Player 1 at (100, 620) and Player 2 at (700, 620), two distinct objects, on the fixed platform layout |
| Matches.Match.ResolveHits | main.py:1204-1222 | the loop over the attacker's projectiles leaves both players as Duel.Volley says |
| Matches.Match.Step | main.py:1186-1226 | one frame leaves both players as Duel.Frame says and reports the knockout test |
| CharacterSelect.Run | main.py:938-980 | the event loop ends in the state and outcome the events give, stopping at the first that leaves the screen |
| CharacterSelect.StartValid | main.py:869-876 | the cursors start on characters 0 and 1 of the three-entry roster |
| CharacterSelect.OnEventKeepsValid | main.py:947-972 | an event never moves a cursor off the roster |
| CharacterSelect.HandleKeepsValid | main.py:947-980 | a whole event sequence never moves a cursor off the roster |
| CharacterSelect.CursorWraps | main.py:948-967 | A, D and the arrows wrap around the three characters |
| CharacterSelect.CursorRoundTrip | main.py:948-953 | A undoes D, and three presses of D come back to the same character |
| CharacterSelect.LockedCursorStays | main.py:947-958 | a locked cursor does not move; every key but S keeps it locked |
| CharacterSelect.SidesIndependent | main.py:947-972 | player 1's keys leave player 2's side alone and the reverse |
| CharacterSelect.StartRule | main.py:943-980 | the battle starts exactly on Space with both ready; the main menu exactly on Escape |
| CharacterSelect.BattleNeedsBothReady | main.py:975-980 | the battle starts only with both players locked in |
| CharacterSelect.ReadyCount | main.py:947-980 | each event locks in at most one player |
| CharacterSelect.QuickestStart | main.py:975-980 | from the entry state the battle needs at least three events |

## Left out

- Rendering, sprite images, audio, fonts, the background scroll and clouds: they do not feed back into the simulation. `update` is always called with scroll 0, and the model fixes it there.
- Effect, Particle and Cloud sprites, and the flashes and particles spawned on hits: visual only.
- The main menu, the pause menu and the game-over screen's drawing and buttons: screen transitions; only the winner rule of the game-over screen is modelled.
- Floating point: the model is exact in hundredths. The source's float sums (the meter's 0.1 steps, gravity's 0.8 steps, the animation index's steps of its rate) accumulate rounding, so the source can reach a limit one frame earlier or later than the model. After a jump, for instance, -16 plus twenty steps of 0.8 is slightly positive in double arithmetic, so the source's fighter counts as descending one frame before the model's, whose vertical velocity is exactly 0 then. The source's passive charge from 0 stays just below 100 after 1000 steps, so one more 0.1 step takes `special_meter` to 100.1, past `max_special`; the model's meter never exceeds 100. Likewise ten steps of 0.3 sum to just under 3 in double arithmetic, so a three-image attack ends one frame later in the source, and the special's rate 0.3 * 1.5 is just under 0.45 in the source but exactly 45 hundredths in the model.
- The sprite size: the model keeps the rectangle's width and height fixed as the fighter's, as they are when every animation image has the same size; the image selection `current_imgs[int(index) % len]` and its flip are left out.
- `attacking`, `score` and `player_name`: written but never read by the simulation. The name is only drawn (above each fighter, in the HUD and on the game-over screen) and copied across by `reset_game`.
- `speed`: it is read by `handle_keys` but never changes from 6, so the model folds it into the constant `RUN_SPEED`.
- The controls dictionaries and `pygame.key.get_pressed()`: each player's held keys arrive already mapped to an `Intent`.
- The clock: `pygame.time.get_ticks()` is the parameter `now`, one reading per frame for `update` and `take_damage`.
- Projectiles are values in a sequence rather than sprite objects; their `owner` is the fighter whose sequence holds them, and `kill()` is their removal from that sequence.
- pygame's normalisation of rectangles with negative width or height: every rectangle here has positive size.
- CharacterSelect: the roster's stats are only displayed and the chosen names only set `player_name`, so the model keeps the cursors and ready flags; `pygame.QUIT` is the outcome `Exit`.
