/** enemies.js: `Game.Enemies.Enemy`, the street enemy. It chases the actor
    held in its `follow` field and, once close enough, hits it every tick.

    The constructor never sets `follow`; the code reads `this.follow.position`
    unconditionally, so every operation here requires a followed actor (in
    the source a missing one is a `TypeError`). The `delay` busy-wait and
    the `console.log` inside `damage` are not part of this model. */
module Enemies {
  import opened Js
  import opened BbqState
  import Actors

  const StreetEnemyMethods := Actors.AnimatedActorMethods + {"updateAnimFrame", "delay", "damage", "updateState"}

  /** The clips of `Game.Enemies.Enemy`. */
  const StreetEnemyAnimations: map<string, Clip> := map[
    "idle" := Clip(0.5, [3, 4, 5], None),
    "walk" := Clip(0.5, [0, 1, 0, 2], None),
    "attack" := Clip(0.5, [6, 7, 8], None)]

  /** `this.position.x - this.follow.position.x < 70`: the signed test that
      selects the chase rule. */
  const ChaseSpan := 70.0

  /** The reach of a hit, horizontally and vertically. */
  const ReachX := 15.0
  const ReachY := 25.0

  /** How far a hit pushes both fighters. */
  const Knockback := 10.0

  /** The physics pace of the street enemy (the characters use 25). */
  const Pace := 22.0

  /** `new Game.Enemies.Enemy(image)`: 50 of 50 health, hits for 5, at rest. */
  method NewStreetEnemy() returns (e: Actor)
    ensures fresh(e)
    ensures e.methods == StreetEnemyMethods && e.animations == StreetEnemyAnimations
    ensures e.health == 50 && e.healthMax == 50 && e.damageHP == 5
    ensures e.velocity == Origin && e.move == map[] && e.follow == null
    ensures e.position == Origin && e.signals == map[] && e.events == []
  {
    e := new Actor(StreetEnemyMethods);
    e.animations := StreetEnemyAnimations;
    e.health := 50;
    e.healthMax := 50;
    e.damageHP := 5;
  }

  /** `damage(pkt)`: when the followed actor still has health, it loses
      `pkt`, and the hit pushes it by (+10, +10) and the enemy by (-10, +10).
      Against an actor with no health left nothing happens. */
  method Damage(self: Actor, pkt: int)
    requires self.follow != null
    modifies self.follow`health, self.follow`position, self`position
    ensures old(self.follow.health) > 0 ==> self.follow.health == old(self.follow.health) - pkt
    ensures old(self.follow.health) > 0 && self.follow != self ==>
              self.follow.position == Vec(Plus(old(self.follow.position.x), Num(Knockback)),
                                          Plus(old(self.follow.position.y), Num(Knockback)))
              && self.position == Vec(Minus(old(self.position.x), Num(Knockback)),
                                      Plus(old(self.position.y), Num(Knockback)))
    ensures old(self.follow.health) > 0 && self.follow == self ==>
              self.position == Vec(old(self.position.x), Plus(Plus(old(self.position.y), Num(Knockback)), Num(Knockback)))
    ensures old(self.follow.health) <= 0 ==>
              self.follow.health == old(self.follow.health)
              && self.follow.position == old(self.follow.position) && self.position == old(self.position)
  {
    if self.follow.health > 0 {
      self.follow.health := self.follow.health - pkt;
      self.follow.position := self.follow.position.(x := Plus(self.follow.position.x, Num(Knockback)));
      self.follow.position := self.follow.position.(y := Plus(self.follow.position.y, Num(Knockback)));

      self.position := self.position.(x := Minus(self.position.x, Num(Knockback)));
      self.position := self.position.(y := Plus(self.position.y, Num(Knockback)));
    }
  }

  /** The attack test: within 15 horizontally and 25 vertically. */
  predicate InReach(p: Vec, f: Vec)
    ensures InReach(p, f) ==> p.x.Num? && p.y.Num? && f.x.Num? && f.y.Num?
  {
    AtMost(Abs(Minus(p.x, f.x)), Num(ReachX)) && AtMost(Abs(Minus(p.y, f.y)), Num(ReachY))
  }

  /** An enemy in reach is always on the chase side of the signed test. */
  lemma ReachIsWithinChase(p: Vec, f: Vec)
    requires InReach(p, f)
    ensures Less(Minus(p.x, f.x), Num(ChaseSpan))
  {
  }

  /** The knockback moves both fighters down by the same amount, so it does
      not change which of them stands lower. */
  lemma KnockbackKeepsVertical(p: Vec, f: Vec)
    ensures Greater(Plus(p.y, Num(Knockback)), Plus(f.y, Num(Knockback))) == Greater(p.y, f.y)
  {
  }

  /** `Game.Enemies.Enemy.prototype.updateState`. The clip is `walk` unless
      the enemy attacks. On the chase side (`x - follow.x < 70`, signed) the
      vertical velocity points at the followed actor; otherwise it is left as
      it was. Horizontally the enemy always heads for and faces the followed
      actor. Within reach it stops, plays `attack`, deals `damageHP` and
      then points its vertical velocity at the (pushed) target. */
  method UpdateState(self: Actor)
    requires self.follow != null
    modifies self`velocity, self`scaleX, self`animation, self.follow`health, self.follow`position, self`position
    ensures self.scaleX == Actors.FacingToward(old(self.position), old(self.follow.position))
    ensures !InReach(old(self.position), old(self.follow.position)) ==>
              self.animation == "walk"
              && self.velocity.x == Num(self.scaleX as real)
              && (self.velocity.x == Num(1.0) <==> !Greater(old(self.position.x), old(self.follow.position.x)))
              && self.position == old(self.position) && self.follow.position == old(self.follow.position)
              && self.follow.health == old(self.follow.health)
    ensures !InReach(old(self.position), old(self.follow.position))
            && Less(Minus(old(self.position.x), old(self.follow.position.x)), Num(ChaseSpan)) ==>
              self.velocity.y == Num(if Greater(old(self.position.y), old(self.follow.position.y)) then -1.0 else 1.0)
    ensures !Less(Minus(old(self.position.x), old(self.follow.position.x)), Num(ChaseSpan)) ==>
              self.velocity.y == old(self.velocity.y)
    ensures InReach(old(self.position), old(self.follow.position)) ==>
              self.animation == "attack"
              && self.velocity.x == Num(0.0)
              && (old(self.follow.health) > 0 ==> self.follow.health == old(self.follow.health) - self.damageHP)
              && (old(self.follow.health) <= 0 ==> self.follow.health == old(self.follow.health))
              && self.velocity.y == Num(if Greater(self.position.y, self.follow.position.y) then -1.0 else 1.0)
              && self.velocity.y == Num(if Greater(old(self.position.y), old(self.follow.position.y)) then -1.0 else 1.0)
    ensures InReach(old(self.position), old(self.follow.position)) && old(self.follow.health) > 0 && self.follow != self ==>
              self.position == Vec(Minus(old(self.position.x), Num(Knockback)), Plus(old(self.position.y), Num(Knockback)))
              && self.follow.position == Vec(Plus(old(self.follow.position.x), Num(Knockback)),
                                             Plus(old(self.follow.position.y), Num(Knockback)))
    ensures InReach(old(self.position), old(self.follow.position)) && old(self.follow.health) > 0 && self.follow == self ==>
              self.position == Vec(old(self.position.x), Plus(Plus(old(self.position.y), Num(Knockback)), Num(Knockback)))
    ensures InReach(old(self.position), old(self.follow.position)) && old(self.follow.health) <= 0 ==>
              self.position == old(self.position) && self.follow.position == old(self.follow.position)
    ensures old(self.position.y).Num? ==> self.position.y.Num?
    ensures old(self.velocity.y).Num? ==> self.velocity.y.Num?
  {
    var animation := "idle";

    animation := "walk";
    if Less(Minus(self.position.x, self.follow.position.x), Num(ChaseSpan)) {
      if Greater(self.position.y, self.follow.position.y) {
        self.velocity := self.velocity.(y := Num(-1.0));
        self.scaleX := -1;

        if Greater(self.position.x, self.follow.position.x) {
          self.velocity := self.velocity.(x := Num(-1.0));
        } else {
          self.velocity := self.velocity.(x := Num(1.0));
          self.scaleX := 1;
        }
      } else {
        self.velocity := self.velocity.(y := Num(1.0));
        self.scaleX := -1;

        if Greater(self.position.x, self.follow.position.x) {
          self.velocity := self.velocity.(x := Num(-1.0));
        } else {
          self.velocity := self.velocity.(x := Num(1.0));
          self.scaleX := 1;
        }
      }
    } else {
      if Greater(self.position.x, self.follow.position.x) {
        self.velocity := self.velocity.(x := Num(-1.0));
        self.scaleX := -1;
      } else {
        self.velocity := self.velocity.(x := Num(1.0));
        self.scaleX := 1;
      }
    }

    if InReach(self.position, self.follow.position) {
      self.velocity := self.velocity.(x := Num(0.0));
      animation := "attack";

      ghost var p, f := self.position, self.follow.position;
      Damage(self, self.damageHP);
      KnockbackKeepsVertical(p, f);

      if Greater(self.position.y, self.follow.position.y) {
        self.velocity := self.velocity.(y := Num(-1.0));
      } else {
        self.velocity := self.velocity.(y := Num(1.0));
      }
    }

    self.Play(animation);
  }

  /** Where a hit leaves an enemy at `p` whose live target is elsewhere:
      pushed by (-10, +10); or, when it follows itself, by (0, +20), since
      both pushes land on it. */
  function Recoiled(p: Vec, followsItself: bool): (r: Vec)
    ensures r.x.Num? <==> p.x.Num?
    ensures r.y.Num? <==> p.y.Num?
    ensures r.y.Num? ==> r.y.r == p.y.r + (if followsItself then 2.0 else 1.0) * Knockback
  {
    if followsItself then Vec(p.x, Plus(Plus(p.y, Num(Knockback)), Num(Knockback)))
    else Vec(Minus(p.x, Num(Knockback)), Plus(p.y, Num(Knockback)))
  }

  /** `Game.Enemies.Enemy.prototype.update`: `updateState`, then the physics
      step at pace 22 from where the hit (if any) left the enemy. A finite
      depth and vertical velocity stay finite, and the depth ends within
      [0, 70]. */
  method Update(self: Actor, delta: real)
    requires self.follow != null
    modifies self`velocity, self`scaleX, self`animation, self.follow`health, self.follow`position, self`position
    ensures self.scaleX == Actors.FacingToward(old(self.position), old(self.follow.position))
    ensures !InReach(old(self.position), old(self.follow.position)) ==>
              self.animation == "walk"
              && self.velocity.x == Num(self.scaleX as real)
              && self.follow.health == old(self.follow.health)
              && self.position == Actors.Integrated(old(self.position), self.velocity, delta, Pace)
    ensures !InReach(old(self.position), old(self.follow.position)) && self.follow != self ==>
              self.follow.position == old(self.follow.position)
    ensures !InReach(old(self.position), old(self.follow.position))
            && Less(Minus(old(self.position.x), old(self.follow.position.x)), Num(ChaseSpan)) ==>
              self.velocity.y == Num(if Greater(old(self.position.y), old(self.follow.position.y)) then -1.0 else 1.0)
    ensures !Less(Minus(old(self.position.x), old(self.follow.position.x)), Num(ChaseSpan)) ==>
              self.velocity.y == old(self.velocity.y)
    ensures InReach(old(self.position), old(self.follow.position)) ==>
              self.animation == "attack"
              && self.velocity.x == Num(0.0)
              && self.velocity.y == Num(if Greater(old(self.position.y), old(self.follow.position.y)) then -1.0 else 1.0)
              && (old(self.follow.health) > 0 ==> self.follow.health == old(self.follow.health) - self.damageHP)
              && (old(self.follow.health) <= 0 ==> self.follow.health == old(self.follow.health))
    ensures InReach(old(self.position), old(self.follow.position)) && old(self.follow.health) > 0 ==>
              self.position == Actors.Integrated(Recoiled(old(self.position), self.follow == self), self.velocity, delta, Pace)
    ensures InReach(old(self.position), old(self.follow.position)) && old(self.follow.health) > 0 && self.follow != self ==>
              self.follow.position == Vec(Plus(old(self.follow.position.x), Num(Knockback)),
                                          Plus(old(self.follow.position.y), Num(Knockback)))
    ensures InReach(old(self.position), old(self.follow.position)) && old(self.follow.health) <= 0 ==>
              self.position == Actors.Integrated(old(self.position), self.velocity, delta, Pace)
              && (self.follow != self ==> self.follow.position == old(self.follow.position))
    ensures self.position.y.Num? ==> Actors.MinDepth <= self.position.y.r <= Actors.MaxDepth
    ensures old(self.position.y).Num? && old(self.velocity.y).Num? ==> self.position.y.Num?
  {
    UpdateState(self);
    Actors.Integrate(self, delta, Pace);
  }
}
