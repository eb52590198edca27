/** actors.js: `Game.Actors.Character` (physics and the sprite-sheet frame
    crop), `Game.Actors.Player` (key flags turned into a normalised velocity)
    and `Game.Actors.Enemy` (nearest-player search and chase).

    `BBQ.AnimatedActor` is not part of this model: its `update` clock,
    `frameIndex` and `frameTick` are not kept, and `play` records the clip
    name (`BbqState.Actor.Play`). `Game.app.state.players`, which the enemy
    searches, and `Math.sqrt` are parameters. */
module Actors {
  import opened Js
  import opened BbqState

  /** The prototype methods a `BBQ.AnimatedActor` has as far as this model
      sees them: the actor methods plus `play` and `update`. */
  const AnimatedActorMethods := ActorMethods + {"play", "update"}

  const CharacterMethods := AnimatedActorMethods + {"updateAnimFrame"}

  const PlayerMethods := CharacterMethods + {"updateState", "keyEvent"}

  const EnemyMethods := CharacterMethods + {"updateState", "findNearestPlayer", "distanceTo", "moveTo"}

  /** The clips of `Game.Actors.Character`. */
  const CharacterAnimations: map<string, Clip> := map[
    "idle" := Clip(1.0, [0], None),
    "walk" := Clip(0.5, [0, 1, 0, 2], None),
    "jump" := Clip(0.5, [2], Some("idle"))]

  /** The clips of `Game.Actors.Player`: the walk cycle is faster. */
  const PlayerAnimations: map<string, Clip> := CharacterAnimations["walk" := Clip(0.42, [0, 1, 0, 2], None)]

  /** The keys whose flags a player keeps. */
  const PlayerKeys := {"right", "left", "down", "up"}

  /** The on-ground and in-air speeds of a player. */
  const GroundSpeed := 1.5
  const AirSpeed := 1.8

  /** How close a player must be for an enemy to notice it. */
  const SightRange := 60.0

  /** Below this distance an enemy stops chasing. */
  const ReachRange := 10.0

  /** The lowest and highest depth an actor can stand at. */
  const MinDepth := 0.0
  const MaxDepth := 70.0

  // ---------------------------------------------------------------------
  // Character: physics and frame crop

  /** `Math.min(70, Math.max(0, y))`: the depth clamp. NaN stays NaN. */
  function ClampDepth(y: Number): (r: Number)
    ensures r.Num? <==> y.Num?
    ensures r.Num? ==> MinDepth <= r.r <= MaxDepth
    ensures y.Num? && MinDepth <= y.r <= MaxDepth ==> r == y
    ensures y.Num? && y.r < MinDepth ==> r == Num(MinDepth)
    ensures y.Num? && y.r > MaxDepth ==> r == Num(MaxDepth)
  {
    Min(Num(MaxDepth), Max(Num(MinDepth), y))
  }

  /** Where one physics step leaves an actor at `p` moving at `v`: the
      position moves by `v * pace * delta` and the depth is clamped to
      [0, 70]. */
  function Integrated(p: Vec, v: Vec, delta: real, pace: real): (r: Vec)
    ensures r.x.Num? <==> p.x.Num? && v.x.Num?
    ensures r.y.Num? <==> p.y.Num? && v.y.Num?
    ensures r.y.Num? ==> MinDepth <= r.y.r <= MaxDepth
  {
    Vec(Plus(p.x, Times(Times(v.x, Num(pace)), Num(delta))),
        ClampDepth(Plus(p.y, Times(Times(v.y, Num(pace)), Num(delta)))))
  }

  /** At rest an actor stays where it is, as long as its depth is within
      [0, 70] (or NaN). */
  lemma IntegratedAtRest(p: Vec, delta: real, pace: real)
    requires p.y.NaN? || MinDepth <= p.y.r <= MaxDepth
    ensures Integrated(p, Origin, delta, pace) == p
  {
  }

  /** Over a positive time step an actor moves horizontally the way its
      velocity points, and vertically too unless the clamp stops it. */
  lemma {:induction false} IntegratedHeading(p: Vec, v: Vec, delta: real, pace: real)
    requires delta > 0.0 && pace > 0.0
    requires p.x.Num? && p.y.Num? && v.x.Num? && v.y.Num?
    requires MinDepth <= p.y.r <= MaxDepth
    ensures Sign(Minus(Integrated(p, v, delta, pace).x, p.x)) == Sign(v.x)
    ensures Sign(Minus(Integrated(p, v, delta, pace).y, p.y)) in {0, Sign(v.y)}
  {
    PositiveProduct(pace, delta);
    var k := pace * delta;
    assert v.x.r * pace * delta == v.x.r * k;
    assert v.y.r * pace * delta == v.y.r * k;
    ScaledSign(v.x.r * k, 1.0, 1.0);
  }

  lemma PositiveProduct(a: real, b: real)
    requires a > 0.0 && b > 0.0
    ensures a * b > 0.0
  {
  }

  /** The physics step that ends every `update`; the characters use a pace
      of 25, the street enemy one of 22. */
  method Integrate(self: Actor, delta: real, pace: real)
    modifies self`position
    ensures self.position == Integrated(old(self.position), self.velocity, delta, pace)
    ensures self.position.y.Num? ==> MinDepth <= self.position.y.r <= MaxDepth
    ensures self.position.y.Num? <==> old(self.position.y).Num? && self.velocity.y.Num?
  {
    var x := Plus(self.position.x, Times(Times(self.velocity.x, Num(pace)), Num(delta)));
    var y := Min(Num(MaxDepth), Max(Num(MinDepth), Plus(self.position.y, Times(Times(self.velocity.y, Num(pace)), Num(delta)))));
    self.position := Vec(x, y);
  }

  /** `Game.Actors.Character.prototype.update` for a plain character, whose
      prototype has no `updateState`: only the physics step runs. */
  method CharacterUpdate(self: Actor, delta: real)
    modifies self`position
    ensures self.position == Integrated(old(self.position), self.velocity, delta, 25.0)
    ensures old(self.position.y).Num? && self.velocity.y.Num? ==>
              self.position.y.Num? && MinDepth <= self.position.y.r <= MaxDepth
  {
    Integrate(self, delta, 25.0);
  }

  /** The size of one frame of a sprite sheet. */
  datatype Rect = Rect(width: nat, height: nat)

  /** The frame sizes: 16 by 28 for characters, 16 by 16 for cats and
      street enemies. */
  const CharacterFrame := Rect(16, 28)
  const SmallFrame := Rect(16, 16)

  /** Sprite sheets hold three frames a row. */
  const FramesPerRow := 3

  /** The column and row of frame `frameIndex`. */
  function FrameCell(frameIndex: nat): (cell: (nat, nat))
    ensures cell.0 < FramesPerRow
    ensures cell.1 * FramesPerRow + cell.0 == frameIndex
  {
    (frameIndex % FramesPerRow, frameIndex / FramesPerRow)
  }

  /** `updateAnimFrame`: the top-left corner of the crop rectangle for frame
      `frameIndex`. */
  function CropOrigin(frameIndex: nat, frame: Rect): (r: (nat, nat))
    ensures r.0 + frame.width <= FramesPerRow * frame.width
  {
    (FrameCell(frameIndex).0 * frame.width, FrameCell(frameIndex).1 * frame.height)
  }

  /** Different frames of a sheet are cropped at different places. */
  lemma {:induction false} CropOriginInjective(i: nat, j: nat, frame: Rect)
    requires frame.width > 0 && frame.height > 0
    requires CropOrigin(i, frame) == CropOrigin(j, frame)
    ensures i == j
  {
    var ci, cj := FrameCell(i), FrameCell(j);
    assert ci.0 * frame.width == cj.0 * frame.width;
    CancelFactor(ci.0, cj.0, frame.width);
    CancelFactor(ci.1, cj.1, frame.height);
  }

  lemma CancelFactor(a: nat, b: nat, k: nat)
    requires k > 0 && a * k == b * k
    ensures a == b
  {
  }

  // ---------------------------------------------------------------------
  // Flags and steering, shared by the player and the creatures

  /** `state.move` after setting the flag of `key` to `down`, when `key` is
      one of `keys`; any other key leaves the flags as they were. */
  function Pressed(move: map<string, bool>, keys: set<string>, key: string, down: bool): (r: map<string, bool>)
    ensures Flag(r, key) == (if key in keys then down else Flag(move, key))
    ensures forall k :: k != key ==> Flag(r, k) == Flag(move, k)
    ensures key !in keys ==> r == move
  {
    if key in keys then move[key := down] else move
  }

  /** Pressing then releasing a tracked key leaves it up, and every other
      flag as it was. */
  lemma PressThenRelease(move: map<string, bool>, keys: set<string>, key: string, other: string)
    requires key in keys
    ensures !Flag(Pressed(Pressed(move, keys, key, true), keys, key, false), key)
    ensures other != key ==> Flag(Pressed(Pressed(move, keys, key, true), keys, key, false), other) == Flag(move, other)
  {
  }

  /** One velocity component from a pair of opposed keys: the first wins. */
  function Axis(positive: bool, negative: bool): (r: int)
    ensures -1 <= r <= 1
    ensures r == 1 <==> positive
    ensures r == -1 <==> !positive && negative
    ensures r == 0 <==> !positive && !negative
  {
    if positive then 1 else if negative then -1 else 0
  }

  /** Some of the four flags a player reads is set. */
  predicate AnyPlayerFlag(move: map<string, bool>) {
    Flag(move, "right") || Flag(move, "left") || Flag(move, "down") || Flag(move, "up")
  }

  /** The velocity a player's flags ask for, before normalisation. */
  function Steered(move: map<string, bool>): (v: Vec)
    ensures v.x.Num? && v.y.Num?
    ensures v.x.r == 1.0 <==> Flag(move, "right")
    ensures v.x.r == -1.0 <==> !Flag(move, "right") && Flag(move, "left")
    ensures v.y.r == 1.0 <==> Flag(move, "down")
    ensures v.y.r == -1.0 <==> !Flag(move, "down") && Flag(move, "up")
    ensures v == Origin <==> !AnyPlayerFlag(move)
  {
    Vec(Num(Axis(Flag(move, "right"), Flag(move, "left")) as real),
        Num(Axis(Flag(move, "down"), Flag(move, "up")) as real))
  }

  /** One component of the normalisation step of `Player.updateState`:
      `(c / length) * speed || 0`. */
  function NormalizedComponent(c: Number, length: Number, speed: real): (r: Number)
    ensures r.Num?
  {
    OrZero(Times(Divide(c, length), Num(speed)))
  }

  /** `Math.sqrt(v.x * v.x + v.y * v.y)`. */
  function Length(v: Vec, sqrt: real -> real): (r: Number)
    ensures r.Num? <==> v.x.Num? && v.y.Num?
  {
    Sqrt(Plus(Times(v.x, v.x), Times(v.y, v.y)), sqrt)
  }

  /** The normalisation step of `Player.updateState`: the velocity divided by
      its length and scaled to `speed`; a NaN component (the `0/0` of a zero
      vector) becomes 0. */
  function Normalized(v: Vec, speed: real, sqrt: real -> real): (r: Vec)
    ensures r.x.Num? && r.y.Num?
  {
    Vec(NormalizedComponent(v.x, Length(v, sqrt), speed), NormalizedComponent(v.y, Length(v, sqrt), speed))
  }

  /** A zero component stays zero, whatever the length: `0 / l` is 0, or
      NaN when `l` is 0, and `|| 0` turns NaN into 0. */
  lemma NormalizedComponentZero(length: Number, speed: real)
    ensures NormalizedComponent(Num(0.0), length, speed) == Num(0.0)
  {
  }

  lemma SquareNonNegative(a: real)
    ensures a * a >= 0.0
  {
  }

  /** The square root of a positive number is positive. */
  lemma SqrtPositive(s: real, sqrt: real -> real)
    requires IsSqrt(sqrt) && s > 0.0
    ensures sqrt(s) > 0.0
  {
    assert 0.0 <= sqrt(s) && sqrt(s) * sqrt(s) == s;
  }

  /** Dividing by a positive length and scaling by a positive speed keeps
      the sign. */
  lemma ScaledSign(a: real, l: real, speed: real)
    requires l > 0.0 && speed > 0.0
    ensures Sign(Num(a / l * speed)) == Sign(Num(a))
  {
  }

  /** Normalising a finite vector of positive length keeps the sign of
      each component, and the zero vector stays zero. */
  lemma {:induction false} NormalizedKeepsSigns(v: Vec, speed: real, sqrt: real -> real)
    requires speed > 0.0
    requires v.x.Num? && v.y.Num?
    requires v == Origin || Greater(Length(v, sqrt), Num(0.0))
    ensures Sign(Normalized(v, speed, sqrt).x) == Sign(v.x)
    ensures Sign(Normalized(v, speed, sqrt).y) == Sign(v.y)
    ensures v == Origin ==> Normalized(v, speed, sqrt) == Origin
  {
    if v == Origin {
      NormalizedComponentZero(Length(v, sqrt), speed);
    } else {
      ScaledSign(v.x.r, Length(v, sqrt).r, speed);
      ScaledSign(v.y.r, Length(v, sqrt).r, speed);
    }
  }

  /** A vector with components in {-1, 0, 1}, not both zero, has a positive
      squared length. */
  lemma UnitSquaresPositive(a: int, b: int)
    requires -1 <= a <= 1 && -1 <= b <= 1 && (a != 0 || b != 0)
    ensures (a as real) * (a as real) + (b as real) * (b as real) > 0.0
  {
    if a != 0 {
      assert (a as real) * (a as real) == 1.0 by {
        assert a == 1 || a == -1;
      }
      SquareNonNegative(b as real);
    } else {
      assert (b as real) * (b as real) == 1.0 by {
        assert b == 1 || b == -1;
      }
    }
  }

  /** Such a vector has a positive length. */
  lemma UnitLengthPositive(a: int, b: int, sqrt: real -> real)
    requires IsSqrt(sqrt)
    requires -1 <= a <= 1 && -1 <= b <= 1 && (a != 0 || b != 0)
    ensures Greater(Length(Vec(Num(a as real), Num(b as real)), sqrt), Num(0.0))
  {
    UnitSquaresPositive(a, b);
    var s := (a as real) * (a as real) + (b as real) * (b as real);
    SqrtPositive(s, sqrt);
  }

  /** A player on the ground heads where its flags ask (right over left,
      down over up) and stands still with no flag set. */
  lemma {:induction false} PlayerGroundVelocity(move: map<string, bool>, sqrt: real -> real)
    requires IsSqrt(sqrt)
    ensures Sign(Normalized(Steered(move), GroundSpeed, sqrt).x) == Axis(Flag(move, "right"), Flag(move, "left"))
    ensures Sign(Normalized(Steered(move), GroundSpeed, sqrt).y) == Axis(Flag(move, "down"), Flag(move, "up"))
    ensures !AnyPlayerFlag(move) <==> Normalized(Steered(move), GroundSpeed, sqrt) == Origin
  {
    var h := Axis(Flag(move, "right"), Flag(move, "left"));
    var w := Axis(Flag(move, "down"), Flag(move, "up"));
    var v := Steered(move);
    assert v == Vec(Num(h as real), Num(w as real));
    if v != Origin {
      UnitLengthPositive(h, w, sqrt);
    }
    NormalizedKeepsSigns(v, GroundSpeed, sqrt);
  }

  // ---------------------------------------------------------------------
  // Player

  /** `new Game.Actors.Character(image)`: 100 health, at rest, no key held. */
  method NewCharacter() returns (c: Actor)
    ensures fresh(c)
    ensures c.methods == CharacterMethods && c.animations == CharacterAnimations
    ensures c.health == 100 && c.velocity == Origin && c.move == map[]
    ensures c.position == Origin && c.signals == map[] && c.events == []
  {
    c := new Actor(CharacterMethods);
    c.animations := CharacterAnimations;
    c.health := 100;
  }

  /** `new Game.Actors.Player(image)`: a character whose `keyEvent` is bound
      as the `'keyEvent'` signal. */
  method NewPlayer() returns (p: Actor)
    ensures fresh(p)
    ensures p.methods == PlayerMethods && p.animations == PlayerAnimations
    ensures p.health == 100 && p.velocity == Origin && p.move == map[]
    ensures p.position == Origin && p.events == []
    ensures p.signals == map["keyEvent" := Function("keyEvent")]
  {
    p := new Actor(PlayerMethods);
    p.animations := PlayerAnimations;
    p.health := 100;
    p := p.BindSignal("keyEvent", Function("keyEvent"));
  }

  /** `Player.updateState`. On the ground the velocity is reset and rebuilt
      from the flags (right over left, down over up), the facing follows the
      horizontal choice and `walk` or `idle` is played; in the air (`jump`)
      the flags are not read and the clip is left alone. Either way the
      velocity is then normalised to the ground or the air speed. */
  method PlayerUpdateState(self: Actor, sqrt: real -> real)
    modifies self`velocity, self`scaleX, self`animation
    ensures old(self.animation) == "jump" ==>
              self.animation == "jump" && self.scaleX == old(self.scaleX)
              && self.velocity == Normalized(old(self.velocity), AirSpeed, sqrt)
    ensures old(self.animation) != "jump" ==>
              self.velocity == Normalized(Steered(self.move), GroundSpeed, sqrt)
              && (Flag(self.move, "right") ==> self.scaleX == 1)
              && (!Flag(self.move, "right") && Flag(self.move, "left") ==> self.scaleX == -1)
              && (!Flag(self.move, "right") && !Flag(self.move, "left") ==> self.scaleX == old(self.scaleX))
              && self.animation == (if AnyPlayerFlag(self.move) then "walk" else "idle")
  {
    var animation := "idle";
    var isJumping := self.animation == "jump";
    var isOnGround := !isJumping;

    if isOnGround {
      self.velocity := Origin;

      if Flag(self.move, "right") {
        self.velocity := self.velocity.(x := Num(1.0));
        self.scaleX := 1;
        animation := "walk";
      } else if Flag(self.move, "left") {
        self.velocity := self.velocity.(x := Num(-1.0));
        self.scaleX := -1;
        animation := "walk";
      }

      if Flag(self.move, "down") {
        self.velocity := self.velocity.(y := Num(1.0));
        animation := "walk";
      } else if Flag(self.move, "up") {
        self.velocity := self.velocity.(y := Num(-1.0));
        animation := "walk";
      }

      self.Play(animation);
      assert self.velocity == Steered(self.move);
    }

    var length := Length(self.velocity, sqrt);
    var speed := if isOnGround then GroundSpeed else AirSpeed;
    self.velocity := Vec(NormalizedComponent(self.velocity.x, length, speed), NormalizedComponent(self.velocity.y, length, speed));
  }

  /** `Player.keyEvent(key, down)`: an arrow key sets its own flag to `down`;
      pressing `c` plays the jump. */
  method PlayerKeyEvent(self: Actor, key: string, down: bool)
    modifies self`move, self`animation
    ensures self.move == Pressed(old(self.move), PlayerKeys, key, down)
    ensures self.animation == if key == "c" && down then "jump" else old(self.animation)
  {
    if key == "right" {
      self.move := self.move["right" := down];
    } else if key == "left" {
      self.move := self.move["left" := down];
    } else if key == "down" {
      self.move := self.move["down" := down];
    } else if key == "up" {
      self.move := self.move["up" := down];
    }

    if key == "c" && down {
      self.Play("jump");
    }
  }

  /** `Character.update` on a player: `updateState`, then the physics step
      from where the player stood, at the velocity `updateState` chose. The
      normalised velocity is always a number, so a player at a numeric depth
      stays at a numeric depth within [0, 70]. */
  method PlayerUpdate(self: Actor, delta: real, sqrt: real -> real)
    modifies self`velocity, self`scaleX, self`animation, self`position
    ensures old(self.animation) == "jump" ==>
              self.animation == "jump" && self.scaleX == old(self.scaleX)
              && self.velocity == Normalized(old(self.velocity), AirSpeed, sqrt)
    ensures old(self.animation) != "jump" ==>
              self.velocity == Normalized(Steered(self.move), GroundSpeed, sqrt)
              && (Flag(self.move, "right") ==> self.scaleX == 1)
              && (!Flag(self.move, "right") && Flag(self.move, "left") ==> self.scaleX == -1)
              && (!Flag(self.move, "right") && !Flag(self.move, "left") ==> self.scaleX == old(self.scaleX))
              && self.animation == (if AnyPlayerFlag(self.move) then "walk" else "idle")
    ensures self.position == Integrated(old(self.position), self.velocity, delta, 25.0)
    ensures old(self.position.y).Num? ==> self.position.y.Num? && MinDepth <= self.position.y.r <= MaxDepth
  {
    PlayerUpdateState(self, sqrt);
    ghost var velocity := self.velocity;
    assert velocity.x.Num? && velocity.y.Num?;
    Integrate(self, delta, 25.0);
    assert self.velocity == velocity;
  }

  // ---------------------------------------------------------------------
  // Enemy

  /** The square of the distance between two points. */
  function SquaredDistance(from: Vec, to: Vec): (r: Number)
    ensures r.Num? <==> from.x.Num? && from.y.Num? && to.x.Num? && to.y.Num?
    ensures r.Num? ==> r.r >= 0.0
  {
    var x := Minus(to.x, from.x);
    var y := Minus(to.y, from.y);
    Plus(Times(x, x), Times(y, y))
  }

  /** `distanceTo`: the distance from `from` to `to`. */
  function Distance(from: Vec, to: Vec, sqrt: real -> real): (r: Number)
    ensures r.Num? <==> SquaredDistance(from, to).Num?
  {
    Sqrt(SquaredDistance(from, to), sqrt)
  }

  lemma MulMonotone(c: real, p: real, q: real)
    requires 0.0 <= c && p <= q
    ensures c * p <= c * q
  {
  }

  lemma MulStrict(c: real, p: real, q: real)
    requires 0.0 < c && p < q
    ensures c * p < c * q
  {
  }

  /** The square root is strictly monotone on the non-negative reals. */
  lemma SqrtMonotone(x: real, y: real, sqrt: real -> real)
    requires IsSqrt(sqrt) && 0.0 <= x && 0.0 <= y
    ensures sqrt(x) < sqrt(y) <==> x < y
  {
    var a, b := sqrt(x), sqrt(y);
    assert 0.0 <= a && a * a == x;
    assert 0.0 <= b && b * b == y;
    if a < b {
      MulMonotone(a, a, b);
      MulStrict(b, a, b);
      calc {
        x;
        == a * a;
        <= a * b;
        == b * a;
        < b * b;
        == y;
      }
    } else if a == b {
      assert x == y;
    } else {
      MulMonotone(b, b, a);
      MulStrict(a, b, a);
      calc {
        y;
        == b * b;
        <= b * a;
        == a * b;
        < a * a;
        == x;
      }
    }
  }

  /** Distances compare as their squares do, so which player is nearer
      does not depend on `Math.sqrt`. */
  lemma DistanceComparesAsSquares(from: Vec, p: Vec, q: Vec, sqrt: real -> real)
    requires IsSqrt(sqrt)
    ensures Less(Distance(from, p, sqrt), Distance(from, q, sqrt)) <==>
              Less(SquaredDistance(from, p), SquaredDistance(from, q))
  {
    var dp, dq := SquaredDistance(from, p), SquaredDistance(from, q);
    if dp.Num? && dq.Num? {
      SqrtMonotone(dp.r, dq.r, sqrt);
    }
  }

  /** A player is in sight exactly when its squared distance is below 3600. */
  lemma InSightIffSquare(from: Vec, to: Vec, sqrt: real -> real)
    requires IsSqrt(sqrt)
    ensures InSight(Distance(from, to, sqrt)) <==> Less(SquaredDistance(from, to), Num(3600.0))
  {
    var s := SquaredDistance(from, to);
    if s.Num? {
      var d := sqrt(s.r);
      assert 0.0 <= d && d * d == s.r;
      if d < SightRange {
        MulMonotone(d, d, SightRange);
      } else {
        MulMonotone(d, SightRange, d);
      }
    }
  }

  /** A player is beyond reach exactly when its squared distance exceeds
      100. */
  lemma BeyondReachIffSquare(from: Vec, to: Vec, sqrt: real -> real)
    requires IsSqrt(sqrt)
    ensures BeyondReach(from, to, sqrt) <==> Greater(SquaredDistance(from, to), Num(100.0))
  {
    var s := SquaredDistance(from, to);
    if s.Num? {
      var d := sqrt(s.r);
      assert 0.0 <= d && d * d == s.r;
      if d > ReachRange {
        MulStrict(d, ReachRange, d);
        MulMonotone(ReachRange, ReachRange, d);
      } else {
        MulMonotone(d, d, ReachRange);
        MulMonotone(ReachRange, d, ReachRange);
      }
    }
  }

  /** The distance from `from` to each player, in list order. */
  function DistancesFrom(from: Vec, players: seq<Actor>, sqrt: real -> real): (ds: seq<Number>)
    reads players`position
    decreases |players|
    ensures |ds| == |players|
    ensures forall j :: 0 <= j < |players| ==> ds[j] == Distance(from, players[j].position, sqrt)
  {
    if players == [] then []
    else DistancesFrom(from, players[..|players| - 1], sqrt) + [Distance(from, players[|players| - 1].position, sqrt)]
  }

  /** `distance < 60`. */
  predicate InSight(d: Number)
    ensures InSight(d) ==> d.Num? && d.r < SightRange
  {
    Less(d, Num(SightRange))
  }

  /** No distance is within sight. */
  predicate NoneInSight(ds: seq<Number>) {
    forall j :: 0 <= j < |ds| ==> !InSight(ds[j])
  }

  /** Index `i` is the pick among the first `n` distances: within sight,
      strictly closer than every earlier one within sight, and no later one
      within sight is strictly closer (ties go to the earliest). */
  predicate NearestAmong(ds: seq<Number>, i: int, n: int)
    requires n <= |ds|
  {
    0 <= i < n && InSight(ds[i])
    && (forall j :: 0 <= j < i && InSight(ds[j]) ==> Less(ds[i], ds[j]))
    && (forall j :: i < j < n && InSight(ds[j]) ==> !Less(ds[j], ds[i]))
  }

  /** Index `i` is the one `findNearestPlayer` picks. */
  predicate Nearest(ds: seq<Number>, i: int)
    ensures Nearest(ds, i) ==> 0 <= i < |ds| && InSight(ds[i])
  {
    NearestAmong(ds, i, |ds|)
  }

  /** None of the first `n` distances is within sight. */
  predicate NoneInSightAmong(ds: seq<Number>, n: int)
    requires n <= |ds|
  {
    forall j :: 0 <= j < n ==> !InSight(ds[j])
  }

  /** One more distance out of sight keeps the first `n + 1` out of sight. */
  lemma NoneInSightStep(ds: seq<Number>, n: int)
    requires 0 <= n < |ds| && NoneInSightAmong(ds, n) && !InSight(ds[n])
    ensures NoneInSightAmong(ds, n + 1)
  {
  }

  /** The first distance within sight is the pick so far. */
  lemma FirstInSightStep(ds: seq<Number>, n: int)
    requires 0 <= n < |ds| && NoneInSightAmong(ds, n) && InSight(ds[n])
    ensures NearestAmong(ds, n, n + 1)
  {
  }

  /** A distance that is not both within sight and strictly closer leaves
      the pick where it is. */
  lemma KeepNearestStep(ds: seq<Number>, i: int, n: int)
    requires 0 <= n < |ds| && NearestAmong(ds, i, n) && !(InSight(ds[n]) && Less(ds[n], ds[i]))
    ensures NearestAmong(ds, i, n + 1)
  {
  }

  /** A distance within sight and strictly closer than the pick becomes
      the pick. */
  lemma CloserNearestStep(ds: seq<Number>, i: int, n: int)
    requires 0 <= n < |ds| && NearestAmong(ds, i, n) && InSight(ds[n]) && Less(ds[n], ds[i])
    ensures NearestAmong(ds, n, n + 1)
  {
  }

  /** What `findNearestPlayer` returns: no player when none is in sight,
      otherwise the player at the nearest index. */
  ghost predicate PicksNearest(found: Actor?, ds: seq<Number>, players: seq<Actor>)
    requires |ds| == |players|
  {
    (found == null <==> NoneInSight(ds))
    && (found != null ==> exists i :: Nearest(ds, i) && players[i] == found)
  }

  /** The pick is at least as close as every player within sight. */
  lemma NearestIsClosest(ds: seq<Number>, i: int, j: int)
    requires Nearest(ds, i) && 0 <= j < |ds| && InSight(ds[j])
    ensures AtMost(ds[i], ds[j])
  {
  }

  /** At most one index is the pick. */
  lemma NearestUnique(ds: seq<Number>, i: int, k: int)
    requires Nearest(ds, i) && Nearest(ds, k)
    ensures i == k
  {
  }

  /** `findNearestPlayer`: resets `follow`, then walks the players in order
      and keeps the first one within sight that is strictly closer than the
      one kept so far. Returns (and leaves in `follow`) that player, or
      `false` (null) when none is within sight. */
  method FindNearestPlayer(self: Actor, players: seq<Actor>, sqrt: real -> real) returns (found: Actor?)
    modifies self`follow
    ensures found == self.follow
    ensures PicksNearest(found, old(DistancesFrom(self.position, players, sqrt)), players)
  {
    ghost var ds := DistancesFrom(self.position, players, sqrt);
    ghost var best := -1;
    var currentDistance := NaN;

    self.follow := null;

    var pind := 0;
    while pind < |players|
      invariant 0 <= pind <= |players|
      invariant self.follow == null ==> NoneInSightAmong(ds, pind)
      invariant self.follow != null ==>
                  NearestAmong(ds, best, pind) && players[best] == self.follow && currentDistance == ds[best]
    {
      var player := players[pind];
      var playerDistance := Distance(self.position, player.position, sqrt);
      assert self.position == old(self.position) && player.position == old(player.position);
      assert playerDistance == ds[pind];
      if InSight(playerDistance) {
        if self.follow == null || Less(playerDistance, currentDistance) {
          if self.follow == null {
            FirstInSightStep(ds, pind);
          } else {
            CloserNearestStep(ds, best, pind);
          }
          currentDistance := playerDistance;
          self.follow := player;
          best := pind;
        } else {
          KeepNearestStep(ds, best, pind);
        }
      } else if self.follow == null {
        NoneInSightStep(ds, pind);
      } else {
        KeepNearestStep(ds, best, pind);
      }
      pind := pind + 1;
    }
    found := self.follow;
    assert found == null ==> NoneInSight(ds);
    assert found != null ==> Nearest(ds, best);
  }

  /** One component of `moveTo`'s normal: a coordinate difference divided
      by the distance. */
  function Direction(difference: Number, distance: Number): (r: Number)
    ensures r.Num? <==> difference.Num? && distance.Num? && distance.r != 0.0
  {
    Divide(difference, distance)
  }

  /** Divided by a positive distance, a difference keeps its sign. */
  lemma DirectionSign(difference: Number, distance: Number)
    requires difference.Num? && Greater(distance, Num(0.0))
    ensures Direction(difference, distance).Num?
    ensures Sign(Direction(difference, distance)) == Sign(difference)
  {
    ScaledSign(difference.r, distance.r, 1.0);
  }

  /** The direction from `from` towards `to`, divided by the distance:
      NaN in both components when the two points coincide. */
  function Toward(from: Vec, to: Vec, sqrt: real -> real): (r: Vec)
    ensures r.x.Num? <==> Distance(from, to, sqrt).Num? && Distance(from, to, sqrt) != Num(0.0)
    ensures r.y.Num? <==> r.x.Num?
    ensures Distance(from, to, sqrt) == Num(0.0) ==> r == Vec(NaN, NaN)
  {
    var distance := Distance(from, to, sqrt);
    Vec(Direction(Minus(to.x, from.x), distance), Direction(Minus(to.y, from.y), distance))
  }

  /** At a positive distance each component of the direction is a number
      with the sign of the difference of coordinates: the actor heads for
      its target. */
  lemma TowardPointsAtTarget(from: Vec, to: Vec, sqrt: real -> real)
    requires Greater(Distance(from, to, sqrt), Num(0.0))
    ensures Toward(from, to, sqrt).x.Num? && Toward(from, to, sqrt).y.Num?
    ensures Sign(Toward(from, to, sqrt).x) == Sign(Minus(to.x, from.x))
    ensures Sign(Toward(from, to, sqrt).y) == Sign(Minus(to.y, from.y))
  {
    var distance := Distance(from, to, sqrt);
    DirectionSign(Minus(to.x, from.x), distance);
    DirectionSign(Minus(to.y, from.y), distance);
  }

  /** `velocity += norm * speed`, component by component. */
  function Pushed(velocity: Vec, norm: Vec, speed: Number): (r: Vec)
    ensures r.x.Num? <==> velocity.x.Num? && norm.x.Num? && speed.Num?
    ensures r.y.Num? <==> velocity.y.Num? && norm.y.Num? && speed.Num?
  {
    Vec(Plus(velocity.x, Times(norm.x, speed)), Plus(velocity.y, Times(norm.y, speed)))
  }

  /** `moveTo(actor, speed)`: adds the direction towards `actor`, scaled by
      `speed`, to the velocity. */
  method MoveTo(self: Actor, actor: Actor, speed: Number, sqrt: real -> real)
    modifies self`velocity
    ensures self.velocity == Pushed(old(self.velocity), Toward(self.position, actor.position, sqrt), speed)
  {
    var norm := Toward(self.position, actor.position, sqrt);
    self.velocity := Pushed(self.velocity, norm, speed);
    assert self.position == old(self.position) && actor.position == old(actor.position);
  }

  /** `this.position.x > player.position.x ? -1 : 1`. */
  function FacingToward(self: Vec, other: Vec): (r: int)
    ensures r == -1 <==> Greater(self.x, other.x)
    ensures r == 1 <==> !Greater(self.x, other.x)
  {
    if Greater(self.x, other.x) then -1 else 1
  }

  /** `this.distanceTo(player) > 10`: the player is beyond reach. */
  predicate BeyondReach(from: Vec, to: Vec, sqrt: real -> real)
    ensures BeyondReach(from, to, sqrt) ==> Distance(from, to, sqrt).Num?
  {
    Greater(Distance(from, to, sqrt), Num(ReachRange))
  }

  /** The velocity of a chasing enemy (`velocity` reset, then
      `moveTo(player, 1)`): an abbreviation of `Pushed` and `Toward` used by
      the enemy's contracts; `ChaseHeadsForTarget` states its properties. */
  function ChaseVelocity(from: Vec, to: Vec, sqrt: real -> real): Vec {
    Pushed(Origin, Toward(from, to, sqrt), Num(1.0))
  }

  /** A chasing enemy heads for its target: each component of its velocity
      is a number with the sign of the difference of coordinates. */
  lemma ChaseHeadsForTarget(from: Vec, to: Vec, sqrt: real -> real)
    requires BeyondReach(from, to, sqrt)
    ensures ChaseVelocity(from, to, sqrt).x.Num? && ChaseVelocity(from, to, sqrt).y.Num?
    ensures Sign(ChaseVelocity(from, to, sqrt).x) == Sign(Minus(to.x, from.x))
    ensures Sign(ChaseVelocity(from, to, sqrt).y) == Sign(Minus(to.y, from.y))
  {
    TowardPointsAtTarget(from, to, sqrt);
  }

  /** The part of `Enemy.updateState` that runs once a player has been
      found: chase it at speed 1 when it is beyond reach, then face it.
      Returns the clip to play. */
  method Approach(self: Actor, player: Actor, sqrt: real -> real) returns (animation: string)
    modifies self`velocity, self`scaleX
    ensures self.scaleX == FacingToward(self.position, player.position)
    ensures BeyondReach(self.position, player.position, sqrt) ==>
              self.velocity == Pushed(old(self.velocity), Toward(self.position, player.position, sqrt), Num(1.0))
              && animation == "walk"
    ensures !BeyondReach(self.position, player.position, sqrt) ==>
              self.velocity == old(self.velocity) && animation == "idle"
  {
    animation := "idle";
    if BeyondReach(self.position, player.position, sqrt) {
      MoveTo(self, player, Num(1.0), sqrt);
      animation := "walk";
    }

    self.scaleX := if Greater(self.position.x, player.position.x) then -1 else 1;
  }

  /** `Enemy.updateState`. Nothing happens while jumping. Otherwise the
      velocity is reset, the nearest player in sight is looked up, the enemy
      heads for it at speed 1 (playing `walk`) unless it is within 10, and
      faces it; with no player in sight it stands `idle`. */
  method EnemyUpdateState(self: Actor, players: seq<Actor>, sqrt: real -> real)
    modifies self`velocity, self`follow, self`scaleX, self`animation
    ensures old(self.animation) == "jump" ==>
              self.velocity == old(self.velocity) && self.follow == old(self.follow)
              && self.scaleX == old(self.scaleX) && self.animation == "jump"
    ensures old(self.animation) != "jump" ==>
              PicksNearest(self.follow, old(DistancesFrom(self.position, players, sqrt)), players)
    ensures old(self.animation) != "jump" && self.follow == null ==>
              self.velocity == Origin && self.animation == "idle" && self.scaleX == old(self.scaleX)
    ensures old(self.animation) != "jump" && self.follow != null ==>
              self.scaleX == FacingToward(self.position, self.follow.position)
              && (BeyondReach(self.position, self.follow.position, sqrt) ==>
                    self.velocity == ChaseVelocity(self.position, self.follow.position, sqrt)
                    && self.animation == "walk")
              && (!BeyondReach(self.position, self.follow.position, sqrt) ==>
                    self.velocity == Origin && self.animation == "idle")
  {
    if self.animation == "jump" {
      return;
    }

    var animation := "idle";
    ghost var ds := DistancesFrom(self.position, players, sqrt);

    self.velocity := Origin;

    assert DistancesFrom(self.position, players, sqrt) == ds;
    var player := FindNearestPlayer(self, players, sqrt);
    assert PicksNearest(player, ds, players);

    if player != null {
      animation := Approach(self, player, sqrt);
    }

    self.Play(animation);
    assert self.follow == player && self.position == old(self.position);
    assert player != null ==> player.position == old(player.position);
  }

  /** `Character.update` on an enemy: `updateState`, then the physics step
      from where the enemy stood, at the velocity `updateState` chose. The
      chase velocity is finite, so a finite depth stays finite and within
      [0, 70]. */
  method EnemyUpdate(self: Actor, players: seq<Actor>, delta: real, sqrt: real -> real)
    modifies self`velocity, self`follow, self`scaleX, self`animation, self`position
    ensures old(self.animation) == "jump" ==>
              self.velocity == old(self.velocity) && self.follow == old(self.follow)
              && self.scaleX == old(self.scaleX) && self.animation == "jump"
    ensures old(self.animation) != "jump" ==>
              PicksNearest(self.follow, old(DistancesFrom(self.position, players, sqrt)), players)
    ensures old(self.animation) != "jump" && self.follow == null ==>
              self.velocity == Origin && self.animation == "idle" && self.scaleX == old(self.scaleX)
    ensures var target := self.follow;
            old(self.animation) != "jump" && target != null ==>
              self.scaleX == FacingToward(old(self.position), old(target.position))
              && (BeyondReach(old(self.position), old(target.position), sqrt) ==>
                    self.velocity == ChaseVelocity(old(self.position), old(target.position), sqrt)
                    && self.animation == "walk")
              && (!BeyondReach(old(self.position), old(target.position), sqrt) ==>
                    self.velocity == Origin && self.animation == "idle")
    ensures self.position == Integrated(old(self.position), self.velocity, delta, 25.0)
    ensures old(self.position.y).Num? && (old(self.animation) != "jump" || old(self.velocity.y).Num?) ==>
              self.position.y.Num? && MinDepth <= self.position.y.r <= MaxDepth
  {
    EnemyUpdateState(self, players, sqrt);
    if old(self.animation) != "jump" && self.follow != null && BeyondReach(self.position, self.follow.position, sqrt) {
      ChaseHeadsForTarget(self.position, self.follow.position, sqrt);
    }
    ghost var target := self.follow;
    ghost var from := self.position;
    ghost var to := if target == null then Origin else target.position;
    Integrate(self, delta, 25.0);
    assert from == old(self.position);
    assert target != null ==> to == old(target.position);
  }
}
