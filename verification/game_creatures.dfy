/** game/creatures.js: `Game.Actors.Cat`, the pet cat. It is an enemy (it
    searches for the nearest player) with its own stats and its own
    `updateState`, which only acts while the cat's `state.walking` flag is
    set.

    `state.walking` is `BbqState.Actor.walking`; nothing in the modelled code
    sets it. `state.movement.set()` belongs to code that is not part of this
    model and is left out. `moveTo(player)` is called without a speed, so
    the speed is `undefined` and the product with it NaN; the model follows
    the code and passes `NaN`. */
module GameCreatures {
  import opened Js
  import opened BbqState
  import Actors

  /** The clips of `Game.Actors.Cat`: `hit` runs six frames over two seconds
      and then returns to `idle`. */
  const PetCatAnimations: map<string, Clip> := map[
    "idle" := Clip(0.5, [3, 4, 5], None),
    "walk" := Clip(0.5, [0, 1, 0, 2], None),
    "hit" := Clip(2.0, [0, 1, 2, 3, 4, 5], Some("idle"))]

  const PetCatStrength: map<string, int> := map["punch" := 10, "kick" := 15]

  const PetCatSpeed: map<string, int> := map["walk" := 35, "jump" := 50, "hit" := -50, "punch" := 20, "kick" := 10]

  /** Beyond this distance the cat walks towards the player it found. */
  const FollowRange := 20.0

  /** `this.distanceTo(player) > 20`. */
  predicate Away(from: Vec, to: Vec, sqrt: real -> real)
    ensures Away(from, to, sqrt) ==> Actors.Distance(from, to, sqrt).Num?
    ensures Away(from, to, sqrt) ==> Actors.BeyondReach(from, to, sqrt)
  {
    Greater(Actors.Distance(from, to, sqrt), Num(FollowRange))
  }

  /** `new Game.Actors.Cat()`: an enemy that follows nobody, with its tick
      at 0, 1000 health and the fixed strength and speed tables. */
  method NewPetCat() returns (cat: Actor)
    ensures fresh(cat)
    ensures cat.methods == Actors.EnemyMethods && cat.animations == PetCatAnimations
    ensures cat.follow == null && cat.tick == 0 && cat.health == 1000
    ensures cat.strength == PetCatStrength && cat.speed == PetCatSpeed
    ensures !cat.walking
  {
    cat := new Actor(Actors.EnemyMethods);
    cat.animations := PetCatAnimations;
    cat.health := 100;

    cat.follow := null;
    cat.tick := 0;

    cat.health := 1000;
    cat.strength := PetCatStrength;
    cat.speed := PetCatSpeed;
  }

  /** The part of `updateState` that runs once a player has been found:
      walk towards a player more than 20 away, otherwise count the tick
      down and turn `idle` once it has run out; then face the player. */
  method FollowFound(self: Actor, player: Actor, sqrt: real -> real)
    modifies self`velocity, self`tick, self`animation, self`scaleX
    ensures self.scaleX == Actors.FacingToward(self.position, player.position)
    ensures Away(self.position, player.position, sqrt) ==>
              self.velocity == Vec(NaN, NaN)
              && self.tick == old(self.tick) && self.animation == old(self.animation)
    ensures !Away(self.position, player.position, sqrt) ==>
              self.velocity == old(self.velocity) && self.tick == old(self.tick) - 1
              && self.animation == (if old(self.tick) <= 0 then "idle" else old(self.animation))
  {
    if Away(self.position, player.position, sqrt) {
      Actors.MoveTo(self, player, NaN, sqrt);
    } else {
      var tick := self.tick;
      self.tick := self.tick - 1;
      if tick <= 0 {
        self.animation := "idle";
      }
    }

    self.scaleX := if Greater(self.position.x, player.position.x) then -1 else 1;
  }

  /** `Game.Actors.Cat.prototype.updateState`. Unless walking, nothing
      changes. Otherwise the nearest player in sight is looked up; with none
      found that search (which clears `follow`) is all that happens. A
      player more than 20 away is walked towards; a nearer one makes the
      tick count down by one, and the cat turns `idle` when the tick had run
      out. Either way the cat faces the player. */
  method UpdateState(self: Actor, players: seq<Actor>, sqrt: real -> real)
    modifies self`follow, self`velocity, self`tick, self`animation, self`scaleX
    ensures !old(self.walking) ==>
              self.follow == old(self.follow) && self.velocity == old(self.velocity)
              && self.tick == old(self.tick) && self.animation == old(self.animation)
              && self.scaleX == old(self.scaleX)
    ensures self.walking ==>
              Actors.PicksNearest(self.follow, old(Actors.DistancesFrom(self.position, players, sqrt)), players)
    ensures self.walking && self.follow == null ==>
              self.velocity == old(self.velocity) && self.tick == old(self.tick)
              && self.animation == old(self.animation) && self.scaleX == old(self.scaleX)
    ensures self.walking && self.follow != null ==>
              self.scaleX == Actors.FacingToward(self.position, self.follow.position)
    ensures self.walking && self.follow != null
            && Away(self.position, self.follow.position, sqrt) ==>
              self.velocity == Vec(NaN, NaN)
              && self.tick == old(self.tick) && self.animation == old(self.animation)
    ensures self.walking && self.follow != null
            && !Away(self.position, self.follow.position, sqrt) ==>
              self.velocity == old(self.velocity) && self.tick == old(self.tick) - 1
              && self.animation == (if old(self.tick) <= 0 then "idle" else old(self.animation))
  {
    if self.walking {
      var player := Actors.FindNearestPlayer(self, players, sqrt);

      if player != null {
        // `this.state.movement.set()` is not part of this model
        FollowFound(self, player, sqrt);
      }
    }
  }

  /** `Character.update` on the pet cat: `updateState`, then the physics step
      at pace 25 from where the cat stood. A depth that is a number ends
      within [0, 70]; but once the cat walks towards a player its velocity is
      NaN (`UpdateState`), and a NaN velocity makes the position NaN. */
  method Update(self: Actor, players: seq<Actor>, delta: real, sqrt: real -> real)
    modifies self`follow, self`velocity, self`tick, self`animation, self`scaleX, self`position
    ensures !old(self.walking) ==>
              self.follow == old(self.follow) && self.velocity == old(self.velocity)
              && self.tick == old(self.tick) && self.animation == old(self.animation)
              && self.scaleX == old(self.scaleX)
    ensures self.walking ==>
              Actors.PicksNearest(self.follow, old(Actors.DistancesFrom(self.position, players, sqrt)), players)
    ensures self.walking && self.follow == null ==>
              self.velocity == old(self.velocity) && self.tick == old(self.tick)
              && self.animation == old(self.animation) && self.scaleX == old(self.scaleX)
    ensures var player := self.follow;
            self.walking && player != null ==>
              self.scaleX == Actors.FacingToward(old(self.position), old(player.position))
              && (Away(old(self.position), old(player.position), sqrt) ==>
                    self.velocity == Vec(NaN, NaN)
                    && self.tick == old(self.tick) && self.animation == old(self.animation))
              && (!Away(old(self.position), old(player.position), sqrt) ==>
                    self.velocity == old(self.velocity) && self.tick == old(self.tick) - 1
                    && self.animation == (if old(self.tick) <= 0 then "idle" else old(self.animation)))
    ensures self.position == Actors.Integrated(old(self.position), self.velocity, delta, 25.0)
    ensures self.position.y.Num? ==> Actors.MinDepth <= self.position.y.r <= Actors.MaxDepth
    ensures !old(self.walking) && old(self.position.y).Num? && old(self.velocity.y).Num? ==> self.position.y.Num?
    ensures self.velocity.x.NaN? ==> self.position.x == NaN
    ensures self.velocity.y.NaN? ==> self.position.y == NaN
  {
    UpdateState(self, players, sqrt);
    ghost var player := self.follow;
    ghost var from := self.position;
    ghost var to := if player == null then Origin else player.position;
    Actors.Integrate(self, delta, 25.0);
    assert from == old(self.position);
    assert player != null ==> to == old(player.position);
  }
}
