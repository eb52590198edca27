/** stages.js: `Game.Stage`, a `BBQ.State` that also keeps the list of
    players and forwards key events to them. The stage is modelled by
    composition: `state` is the `BBQ.State` part (its `actors` layer) and
    `players` the stage's own list. Backgrounds and the camera are not part
    of this model. */
module Stages {
  import opened Js
  import opened BbqState
  import Actors
  import Creatures

  /** `s` repeated `n` times. */
  function Repeat(s: seq<Value>, n: nat): seq<Value> {
    if n == 0 then [] else Repeat(s, n - 1) + s
  }

  /** Extending a prefix by one element counts that element once more. */
  lemma PrefixCountsStep<T>(s: seq<T>, i: int)
    requires 0 <= i < |s|
    ensures multiset(s[..i + 1]) == multiset(s[..i]) + multiset{s[i]}
  {
    assert s[..i + 1] == s[..i] + [s[i]];
  }

  /** Counting one more occurrence of `x` repeats `s` once more for `x`
      and leaves every other count alone. */
  lemma RepeatOneMore<T>(s: seq<Value>, m: multiset<T>, x: T, y: T)
    ensures Repeat(s, (m + multiset{x})[y]) == Repeat(s, m[y]) + (if y == x then s else [])
  {
    if y != x {
      assert Repeat(s, m[y]) + [] == Repeat(s, m[y]);
    }
  }

  /** The three entries `enqueueEvent(name, e.key, e)` appends. */
  function KeyEntries(name: string, e: KeyboardEvent): (r: seq<Value>)
    ensures |r| == 3
    ensures r[0] == Text(name) && r[1] == Text(e.key) && r[2] == Event(e)
  {
    [Text(name), Text(e.key), Event(e)]
  }

  class Stage {
    const state: State
    var players: seq<Actor>

    /** `new Game.Stage()`: no actors and no players. */
    constructor ()
      ensures fresh(state)
      ensures state.actors == [] && players == []
    {
      state := new State();
      players := [];
    }

    /** `enter`: a character at x = 40 joins the actors and is the one
        player; a cat at (15, 15) that follows it and a plain actor at
        (60, 50) join the actors too. */
    method Enter() returns (chara: Actor, cat: Actor, spr: Actor)
      modifies this`players, state`actors
      ensures fresh(chara) && fresh(cat) && fresh(spr)
      ensures state.actors == old(state.actors) + [chara] + [cat] + [spr]
      ensures players == old(players) + [chara]
      ensures chara.position == Vec(Num(40.0), Num(0.0)) && chara.methods == Actors.CharacterMethods
      ensures cat.position == Vec(Num(15.0), Num(15.0)) && cat.follow == chara && cat.methods == Creatures.CatMethods
      ensures spr.position == Vec(Num(60.0), Num(50.0)) && spr.methods == ActorMethods
    {
      ghost var layer := state.actors;
      chara := Actors.NewCharacter();
      chara.position := chara.position.(x := Num(40.0));
      assert chara !in layer;
      state.AddActor(chara);
      assert state.actors == layer + [chara];
      players := players + [chara];

      cat := Creatures.NewCat();
      cat.position := cat.position.(x := Num(15.0));
      cat.position := cat.position.(y := Num(15.0));
      assert cat !in layer + [chara];
      state.AddActor(cat);
      assert state.actors == layer + [chara] + [cat];

      cat.follow := chara;

      spr := new Actor(ActorMethods);
      spr.position := spr.position.(x := Num(60.0));
      spr.position := spr.position.(y := Num(50.0));
      assert spr !in layer + [chara] + [cat];
      state.AddActor(spr);
    }

    /** Every player, in list order, gets the three entries queued; a player
        listed twice gets them twice. No other actor's queue changes. */
    method Broadcast(name: string, e: KeyboardEvent)
      modifies players`events
      ensures forall p :: p in players ==>
                p.events == old(p.events) + Repeat(KeyEntries(name, e), multiset(players)[p])
    {
      var entries := KeyEntries(name, e);
      var i := 0;
      while i < |players|
        invariant 0 <= i <= |players|
        invariant forall p {:trigger multiset(players[..i])[p]} :: p in players ==>
                    p.events == old(p.events) + Repeat(entries, multiset(players[..i])[p])
      {
        var player := players[i];
        label Before:
        var _ := player.EnqueueEvent(entries);
        PrefixCountsStep(players, i);
        forall p | p in players
          ensures p.events == old(p.events) + Repeat(entries, multiset(players[..i + 1])[p])
        {
          RepeatOneMore(entries, multiset(players[..i]), player, p);
          assert p.events == old@Before(p.events) + (if p == player then entries else []);
        }
        i := i + 1;
      }
      assert players[..i] == players;
    }

    /** `keydown(e)`: queues `'keydown', e.key, e` on every player. */
    method KeyDown(e: KeyboardEvent)
      modifies players`events
      ensures forall p :: p in players ==>
                p.events == old(p.events) + Repeat(KeyEntries("keydown", e), multiset(players)[p])
    {
      Broadcast("keydown", e);
    }

    /** `keyup(e)`: queues `'keyup', e.key, e` on every player. */
    method KeyUp(e: KeyboardEvent)
      modifies players`events
      ensures forall p :: p in players ==>
                p.events == old(p.events) + Repeat(KeyEntries("keyup", e), multiset(players)[p])
    {
      Broadcast("keyup", e);
    }
  }
}
