/** creatures.js: `Game.Creatures.Cat`, a keyboard-driven cat. Like the
    player it keeps key flags, but it reads two more keys, `q` and `a`, which
    override the vertical choice, and it walks at full speed without
    normalising its velocity. The PIXI body and texture are not part of this
    model. */
module Creatures {
  import opened Js
  import opened BbqState
  import Actors

  const CatMethods := Actors.AnimatedActorMethods + {"updateAnimFrame", "updateState", "keydown", "keyup"}

  /** The clips of `Game.Creatures.Cat`. */
  const CatAnimations: map<string, Clip> := map[
    "idle" := Clip(0.5, [3, 4, 5], None),
    "walk" := Clip(0.5, [0, 1, 0, 2], None)]

  /** The keys whose flags a cat keeps. */
  const CatKeys := {"right", "left", "down", "up", "q", "a"}

  /** `new Game.Creatures.Cat(image)`: at rest, no key held, with its
      `keydown` and `keyup` methods bound as the signals of the same names. */
  method NewCat() returns (cat: Actor)
    ensures fresh(cat)
    ensures cat.methods == CatMethods && cat.animations == CatAnimations
    ensures cat.velocity == Origin && cat.move == map[]
    ensures cat.position == Origin && cat.events == [] && cat.follow == null
    ensures cat.signals == map["keydown" := Function("keydown"), "keyup" := Function("keyup")]
  {
    cat := new Actor(CatMethods);
    cat.animations := CatAnimations;
    cat := cat.BindSignal("keydown", Function("keydown"));
    cat := cat.BindSignal("keyup", Function("keyup"));
  }

  /** `keydown(key, e)`: sets the flag of one of the six tracked keys. */
  method KeyDown(self: Actor, key: string)
    modifies self`move
    ensures self.move == Actors.Pressed(old(self.move), CatKeys, key, true)
  {
    if key == "right" {
      self.move := self.move["right" := true];
    } else if key == "left" {
      self.move := self.move["left" := true];
    } else if key == "down" {
      self.move := self.move["down" := true];
    } else if key == "up" {
      self.move := self.move["up" := true];
    } else if key == "q" {
      self.move := self.move["q" := true];
    } else if key == "a" {
      self.move := self.move["a" := true];
    }
  }

  /** `keyup(key, e)`: clears the flag of one of the six tracked keys. */
  method KeyUp(self: Actor, key: string)
    modifies self`move
    ensures self.move == Actors.Pressed(old(self.move), CatKeys, key, false)
  {
    if key == "right" {
      self.move := self.move["right" := false];
    } else if key == "left" {
      self.move := self.move["left" := false];
    } else if key == "down" {
      self.move := self.move["down" := false];
    } else if key == "up" {
      self.move := self.move["up" := false];
    } else if key == "q" {
      self.move := self.move["q" := false];
    } else if key == "a" {
      self.move := self.move["a" := false];
    }
  }

  /** Some of the six flags a cat reads is set. */
  predicate AnyCatFlag(move: map<string, bool>) {
    Actors.AnyPlayerFlag(move) || Flag(move, "q") || Flag(move, "a")
  }

  /** The velocity a cat's flags ask for. Horizontally and, without `q` or
      `a`, vertically it is the player's choice; `q` beats `a`, and either
      beats the arrow keys. The cat stands still exactly when no flag is
      set. */
  function CatSteered(move: map<string, bool>): (v: Vec)
    ensures v.x == Actors.Steered(move).x
    ensures Flag(move, "q") ==> v.y == Num(-1.0)
    ensures !Flag(move, "q") && Flag(move, "a") ==> v.y == Num(1.0)
    ensures !Flag(move, "q") && !Flag(move, "a") ==> v.y == Actors.Steered(move).y
    ensures v == Origin <==> !AnyCatFlag(move)
  {
    var vertical := if Flag(move, "q") then -1 else if Flag(move, "a") then 1
                    else Actors.Axis(Flag(move, "down"), Flag(move, "up"));
    Vec(Num(Actors.Axis(Flag(move, "right"), Flag(move, "left")) as real), Num(vertical as real))
  }

  /** `Game.Creatures.Cat.prototype.updateState`: the velocity is reset and
      rebuilt from the flags, the facing follows the horizontal choice, and
      `walk` is played exactly when the cat moves. */
  method UpdateState(self: Actor)
    modifies self`velocity, self`scaleX, self`animation
    ensures self.velocity == CatSteered(self.move)
    ensures Flag(self.move, "right") ==> self.scaleX == 1
    ensures !Flag(self.move, "right") && Flag(self.move, "left") ==> self.scaleX == -1
    ensures !Flag(self.move, "right") && !Flag(self.move, "left") ==> self.scaleX == old(self.scaleX)
    ensures self.animation == "walk" <==> self.velocity != Origin
    ensures self.animation == (if AnyCatFlag(self.move) then "walk" else "idle")
  {
    var animation := "idle";

    self.velocity := Origin;

    if Flag(self.move, "right") {
      self.velocity := self.velocity.(x := Num(1.0));
      self.scaleX := 1;
      animation := "walk";
    } else if Flag(self.move, "left") {
      self.velocity := self.velocity.(x := Num(-1.0));
      self.scaleX := -1;
      animation := "walk";
    }

    if Flag(self.move, "down") {
      self.velocity := self.velocity.(y := Num(1.0));
      animation := "walk";
    } else if Flag(self.move, "up") {
      self.velocity := self.velocity.(y := Num(-1.0));
      animation := "walk";
    }

    if Flag(self.move, "q") {
      self.velocity := self.velocity.(y := Num(-1.0));
      animation := "walk";
    } else if Flag(self.move, "a") {
      self.velocity := self.velocity.(y := Num(1.0));
      animation := "walk";
    }

    self.Play(animation);
  }

  /** `Game.Creatures.Cat.prototype.update`: `updateState`, then the physics
      step at pace 25 from where the cat stood. The velocity is always a
      number, so a cat at a numeric depth stays at one within [0, 70]. */
  method Update(self: Actor, delta: real)
    modifies self`velocity, self`scaleX, self`animation, self`position
    ensures self.velocity == CatSteered(self.move)
    ensures Flag(self.move, "right") ==> self.scaleX == 1
    ensures !Flag(self.move, "right") && Flag(self.move, "left") ==> self.scaleX == -1
    ensures !Flag(self.move, "right") && !Flag(self.move, "left") ==> self.scaleX == old(self.scaleX)
    ensures self.animation == (if AnyCatFlag(self.move) then "walk" else "idle")
    ensures self.position == Actors.Integrated(old(self.position), self.velocity, delta, 25.0)
    ensures old(self.position.y).Num? ==>
              self.position.y.Num? && Actors.MinDepth <= self.position.y.r <= Actors.MaxDepth
  {
    UpdateState(self);
    Actors.Integrate(self, delta, 25.0);
  }
}
