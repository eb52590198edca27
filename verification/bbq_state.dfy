/** bbq-state.js: actor messaging (a signal table and an event list) and the
    game state that depth-sorts its actors and updates them every frame. */
module BbqState {
  import opened Js

  /** An animation clip of a prototype's `animations` table. */
  datatype Clip = Clip(time: real, frames: seq<nat>, next: Option<string>)

  /** A `PIXI.Point`. */
  datatype Vec = Vec(x: Number, y: Number)

  const Origin := Vec(Num(0.0), Num(0.0))

  /** One call the engine makes: the function named `callee`, run with
      `receiver` as `this` and with `args` as its arguments. */
  datatype Invocation = Invocation(callee: string, receiver: Actor, args: seq<Value>)

  /** `state.move[key]` read as a condition: an absent key is `undefined`, which is falsy. */
  function Flag(move: map<string, bool>, key: string): bool {
    key in move && move[key]
  }

  /** The methods every `BBQ.Actor` inherits. */
  const ActorMethods := {"emitSignal", "bindSignal", "unbindSignal", "enqueueEvent", "dequeueEvent"}

  /** A JS actor object. JS objects are open records: `BBQ.Actor`, `PIXI.Sprite`,
      `BBQ.AnimatedActor` and the game's constructors all write fields of the
      same object, so every field any of them writes is a field here, and
      `methods` names the functions its prototype chain provides. The
      per-prototype behaviour lives in the module of each game source file. */
  class Actor {
    // BBQ.Actor
    var signals: map<string, Value>
    var events: seq<Value>
    // PIXI.Sprite
    var position: Vec
    var scaleX: int
    const methods: set<string>
    // BBQ.AnimatedActor: only the name of the clip last played is kept
    var animation: string
    var animations: map<string, Clip>
    // game fields
    var velocity: Vec
    var move: map<string, bool>
    var health: int
    var healthMax: int
    var damageHP: int
    var follow: Actor?
    var tick: int
    var walking: bool
    var strength: map<string, int>
    var speed: map<string, int>

    /** A fresh actor: empty signal table and event list, at the origin,
        facing right, no clip played, every game field at its default. */
    constructor (methods: set<string>)
      ensures this.methods == methods
      ensures signals == map[] && events == []
      ensures position == Origin && scaleX == 1
      ensures animation == "" && animations == map[]
      ensures velocity == Origin && move == map[]
      ensures health == 0 && healthMax == 0 && damageHP == 0
      ensures follow == null && tick == 0 && !walking
      ensures strength == map[] && speed == map[]
    {
      this.methods := methods;
      signals, events := map[], [];
      position, scaleX := Origin, 1;
      animation, animations := "", map[];
      velocity, move := Origin, map[];
      health, healthMax, damageHP := 0, 0, 0;
      follow, tick, walking := null, 0, false;
      strength, speed := map[], map[];
    }

    /** Emits `signal`: when the table holds a function under that name, it
        is called with this actor as `this` and exactly `args`; otherwise
        nothing happens. The call is returned rather than run, and the actor
        is returned for chaining. */
    method EmitSignal(signal: string, args: seq<Value>) returns (self: Actor, call: Option<Invocation>)
      ensures self == this
      ensures call == Dispatch(signals, signal, this, args)
    {
      var signalFunc := if signal in signals then signals[signal] else Undefined;
      if signalFunc.Function? {
        call := Some(Invocation(signalFunc.name, this, args));
      } else {
        call := None;
      }
      self := this;
    }

    /** Binds `callback` under `signal`, replacing whatever was bound there. */
    method BindSignal(signal: string, callback: Value) returns (self: Actor)
      modifies this`signals
      ensures self == this
      ensures signals == old(signals)[signal := callback]
    {
      signals := signals[signal := callback];
      self := this;
    }

    /** Removes the binding of `signal`, if any. */
    method UnbindSignal(signal: string) returns (self: Actor)
      modifies this`signals
      ensures self == this
      ensures signals == old(signals) - {signal}
    {
      signals := signals - {signal};
      self := this;
    }

    /** Appends every argument, in order, to the event list. */
    method EnqueueEvent(args: seq<Value>) returns (self: Actor)
      modifies this`events
      ensures self == this
      ensures events == old(events) + args
      ensures |events| == |old(events)| + |args|
    {
      events := events + args;
      self := this;
    }

    /** Removes and returns the LAST event (`Array.prototype.pop`): the list
        behaves as a stack. On an empty list it returns `undefined`. */
    method DequeueEvent() returns (event: Value)
      modifies this`events
      ensures old(events) == [] ==> event == Undefined && events == []
      ensures old(events) != [] ==> old(events) == events + [event]
    {
      if events == [] {
        event := Undefined;
      } else {
        event := events[|events| - 1];
        events := events[..|events| - 1];
      }
    }

    /** `play(name)` of `BBQ.AnimatedActor`, which is not part of this model:
        playing is recorded as the name of the clip. */
    method Play(name: string)
      modifies this`animation
      ensures animation == name
    {
      animation := name;
    }
  }

  /** What emitting `signal` with `args` calls, given the signal table. */
  function Dispatch(signals: map<string, Value>, signal: string, receiver: Actor, args: seq<Value>): (call: Option<Invocation>)
    ensures call.Some? <==> signal in signals && signals[signal].Function?
    ensures call.Some? ==> call.value == Invocation(signals[signal].name, receiver, args)
  {
    if signal in signals && signals[signal].Function? then
      Some(Invocation(signals[signal].name, receiver, args))
    else
      None
  }

  /** After binding, emitting that name calls the new callback (when it is a
      function) and every other name dispatches as before. */
  lemma BindThenDispatch(signals: map<string, Value>, signal: string, callback: Value, other: string, receiver: Actor, args: seq<Value>)
    ensures Dispatch(signals[signal := callback], signal, receiver, args)
         == (if callback.Function? then Some(Invocation(callback.name, receiver, args)) else None)
    ensures other != signal ==>
              Dispatch(signals[signal := callback], other, receiver, args) == Dispatch(signals, other, receiver, args)
  {
  }

  /** After unbinding, emitting that name does nothing and every other name
      dispatches as before. */
  lemma UnbindThenDispatch(signals: map<string, Value>, signal: string, other: string, receiver: Actor, args: seq<Value>)
    ensures Dispatch(signals - {signal}, signal, receiver, args) == None
    ensures other != signal ==>
              Dispatch(signals - {signal}, other, receiver, args) == Dispatch(signals, other, receiver, args)
  {
  }

  /** The depth comparator: -1, 0 or 1 as the first actor is above, level
      with or below the second. Any NaN makes the two compare equal. */
  function SortActorsFunc(actor1: Actor, actor2: Actor): (r: int)
    reads actor1`position, actor2`position
    ensures r == -1 <==> Less(actor1.position.y, actor2.position.y)
    ensures r == 1 <==> Greater(actor1.position.y, actor2.position.y)
    ensures r == 0 <==> !Less(actor1.position.y, actor2.position.y) && !Greater(actor1.position.y, actor2.position.y)
  {
    if Less(actor1.position.y, actor2.position.y) then -1
    else if Greater(actor1.position.y, actor2.position.y) then 1
    else 0
  }

  /** The comparator is antisymmetric, NaN included. */
  lemma SortActorsFuncAntisymmetric(actor1: Actor, actor2: Actor)
    ensures SortActorsFunc(actor1, actor2) == -SortActorsFunc(actor2, actor1)
  {
  }

  /** Every neighbouring pair is in comparator order. */
  ghost predicate NeighboursOrdered(s: seq<Actor>)
    reads s`position
  {
    forall k :: 0 <= k < |s| - 1 ==> SortActorsFunc(s[k], s[k + 1]) <= 0
  }

  /** Every actor has a numeric depth. */
  ghost predicate NumericDepths(s: seq<Actor>)
    reads s`position
  {
    forall k :: 0 <= k < |s| ==> s[k].position.y.Num?
  }

  /** Non-decreasing by `position.y`. */
  ghost predicate SortedByDepth(s: seq<Actor>)
    reads s`position
  {
    forall i, j :: 0 <= i < j < |s| ==> AtMost(s[i].position.y, s[j].position.y)
  }

  /** Where every depth is a number, neighbour order is the full order. */
  lemma {:induction false} NeighboursOrderedIsSorted(s: seq<Actor>)
    requires NeighboursOrdered(s) && NumericDepths(s)
    ensures SortedByDepth(s)
  {
    if |s| > 1 {
      var t := s[1..];
      assert NeighboursOrdered(t) by {
        forall k | 0 <= k < |t| - 1 ensures SortActorsFunc(t[k], t[k + 1]) <= 0 {
          assert t[k] == s[k + 1] && t[k + 1] == s[k + 2];
        }
      }
      assert NumericDepths(t) by {
        forall k | 0 <= k < |t| ensures t[k].position.y.Num? {
          assert t[k] == s[k + 1];
        }
      }
      NeighboursOrderedIsSorted(t);
      forall i, j | 0 <= i < j < |s| ensures AtMost(s[i].position.y, s[j].position.y) {
        if i == 0 {
          assert SortActorsFunc(s[0], s[1]) <= 0;
          if j > 1 {
            assert AtMost(t[0].position.y, t[j - 1].position.y);
          }
        } else {
          assert AtMost(t[i - 1].position.y, t[j - 1].position.y);
        }
      }
    }
  }

  /** Exchanges two neighbouring actors. */
  method SwapDown(a: array<Actor>, j: int)
    requires 0 < j < a.Length
    modifies a
    ensures a[j - 1] == old(a[j]) && a[j] == old(a[j - 1])
    ensures forall k :: 0 <= k < a.Length && k != j - 1 && k != j ==> a[k] == old(a[k])
    ensures multiset(a[..]) == multiset(old(a[..]))
  {
    a[j - 1], a[j] := a[j], a[j - 1];
  }

  /** Moves `a[i]` left past every neighbour that sorts after it, keeping
      the prefix `a[..i + 1]` in neighbour order. */
  method InsertAt(a: array<Actor>, i: int)
    requires 0 < i < a.Length
    requires forall k :: 0 <= k < i - 1 ==> !Greater(a[k].position.y, a[k + 1].position.y)
    modifies a
    ensures forall k :: 0 <= k < i ==> !Greater(a[k].position.y, a[k + 1].position.y)
    ensures forall k :: i < k < a.Length ==> a[k] == old(a[k])
    ensures multiset(a[..]) == multiset(old(a[..]))
  {
    var j := i;
    while j > 0 && SortActorsFunc(a[j - 1], a[j]) > 0
      invariant 0 <= j <= i
      invariant forall k :: 0 <= k < j - 1 ==> !Greater(a[k].position.y, a[k + 1].position.y)
      invariant forall k :: j < k < i ==> !Greater(a[k].position.y, a[k + 1].position.y)
      invariant j < i ==> Less(a[j].position.y, a[j + 1].position.y)
      invariant 0 < j < i ==> !Greater(a[j - 1].position.y, a[j + 1].position.y)
      invariant forall k :: i < k < a.Length ==> a[k] == old(a[k])
      invariant multiset(a[..]) == multiset(old(a[..]))
    {
      SwapDown(a, j);
      j := j - 1;
    }
  }

  /** Sorts the actors in place by depth, as `Array.prototype.sort` with
      `SortActorsFunc` does; insertion sort, which is stable. */
  method SortByDepth(a: array<Actor>)
    modifies a
    ensures multiset(a[..]) == multiset(old(a[..]))
    ensures NeighboursOrdered(a[..])
  {
    var i := 1;
    while i < a.Length
      invariant a.Length == 0 || 1 <= i <= a.Length
      invariant forall k :: 0 <= k < i - 1 && k + 1 < a.Length ==> !Greater(a[k].position.y, a[k + 1].position.y)
      invariant multiset(a[..]) == multiset(old(a[..]))
    {
      InsertAt(a, i);
      i := i + 1;
    }
    assert forall k :: 0 <= k < a.Length - 1 ==> SortActorsFunc(a[..][k], a[..][k + 1]) <= 0;
  }

  /** The calls `performLayer(layer, action, ...args)` makes: one per child
      whose prototype provides `action`, in list order. */
  function Invocations(layer: seq<Actor>, action: string, args: seq<Value>): (calls: seq<Invocation>)
    ensures |calls| <= |layer|
    ensures forall c :: c in calls ==>
              c.callee == action && c.args == args && c.receiver in layer && action in c.receiver.methods
    ensures forall a :: a in layer && action in a.methods ==> Invocation(action, a, args) in calls
  {
    if layer == [] then []
    else
      var last := layer[|layer| - 1];
      assert forall a :: a in layer ==> a in layer[..|layer| - 1] || a == last;
      Invocations(layer[..|layer| - 1], action, args)
        + (if action in last.methods then [Invocation(action, last, args)] else [])
  }

  /** A single child gives one call exactly when it has `action`. */
  lemma InvocationsSingle(a: Actor, action: string, args: seq<Value>)
    ensures Invocations([a], action, args) == if action in a.methods then [Invocation(action, a, args)] else []
  {
    assert [a][..0] == [];
  }

  /** The calls for two consecutive runs of children are the calls for the
      first run followed by those for the second: calls follow list order. */
  lemma {:induction false} InvocationsAppend(l1: seq<Actor>, l2: seq<Actor>, action: string, args: seq<Value>)
    ensures Invocations(l1 + l2, action, args) == Invocations(l1, action, args) + Invocations(l2, action, args)
    decreases |l2|
  {
    if l2 == [] {
      assert l1 + l2 == l1;
    } else {
      var init, last := l2[..|l2| - 1], l2[|l2| - 1];
      var tail := if action in last.methods then [Invocation(action, last, args)] else [];
      InvocationsAppend(l1, init, action, args);
      assert (l1 + l2)[..|l1 + l2| - 1] == l1 + init && (l1 + l2)[|l1 + l2| - 1] == last;
      calc {
        Invocations(l1 + l2, action, args);
        == Invocations(l1 + init, action, args) + tail;
        == Invocations(l1, action, args) + Invocations(init, action, args) + tail;
        == Invocations(l1, action, args) + Invocations(l2, action, args);
      }
    }
  }

  /** Each child is called once per listing when it has `action`, and never
      otherwise. */
  lemma {:induction false} InvocationsCount(layer: seq<Actor>, a: Actor, action: string, args: seq<Value>)
    ensures multiset(Invocations(layer, action, args))[Invocation(action, a, args)]
            == if action in a.methods then multiset(layer)[a] else 0
  {
    if layer != [] {
      var init := layer[..|layer| - 1];
      InvocationsCount(init, a, action, args);
      assert layer == init + [layer[|layer| - 1]];
    }
  }

  /** `layer` with every occurrence of `actor` taken out, the rest in
      order. */
  function Without(layer: seq<Actor>, actor: Actor): (r: seq<Actor>)
    ensures actor !in r
    ensures actor !in layer ==> r == layer
    ensures |r| < |layer| <==> actor in layer
  {
    if layer == [] then []
    else if layer[0] == actor then Without(layer[1..], actor)
    else [layer[0]] + Without(layer[1..], actor)
  }

  /** Taking `actor` out removes all its copies and no other actor. */
  lemma {:induction false} WithoutCounts(layer: seq<Actor>, actor: Actor)
    ensures multiset(Without(layer, actor)) == multiset(layer)[actor := 0]
  {
    if layer != [] {
      assert layer == [layer[0]] + layer[1..];
      WithoutCounts(layer[1..], actor);
    }
  }

  /** After `addChild` the layer lists the actor exactly once, and every
      other actor as often as before. */
  lemma AddedOnce(layer: seq<Actor>, actor: Actor)
    ensures multiset(Without(layer, actor) + [actor]) == multiset(layer)[actor := 1]
  {
    WithoutCounts(layer, actor);
  }

  /** The BBQ game state: a container whose single layer holds the actors. */
  class State {
    /** `this.actors.children`. */
    var actors: seq<Actor>

    constructor ()
      ensures actors == []
    {
      actors := [];
    }

    /** `this.actors.addChild(actor)`: PIXI first takes the actor out of the
        layer if it is already a child, then appends it, so it ends up last
        and listed once. */
    method AddActor(actor: Actor)
      modifies this`actors
      ensures actors == Without(old(actors), actor) + [actor]
      ensures actor !in old(actors) ==> actors == old(actors) + [actor]
    {
      actors := Without(actors, actor) + [actor];
    }

    /** Runs `action` on every child of `layer` whose prototype has it, in
        list order, and returns those calls. */
    method PerformLayer(layer: seq<Actor>, action: string, args: seq<Value>) returns (self: State, calls: seq<Invocation>)
      ensures self == this
      ensures calls == Invocations(layer, action, args)
    {
      calls := [];
      self := this;
      var i := 0;
      while i < |layer|
        invariant 0 <= i <= |layer|
        invariant calls == Invocations(layer[..i], action, args)
      {
        var actor := layer[i];
        assert layer[..i + 1][..i] == layer[..i];
        if action in actor.methods {
          calls := calls + [Invocation(action, actor, args)];
        }
        i := i + 1;
      }
      assert layer[..i] == layer;
    }

    /** One frame: sorts the actors by depth in place, then calls `update`
        with `delta` on every actor that has it, in the new order. */
    method Step(delta: real) returns (updates: seq<Invocation>)
      modifies this`actors
      ensures multiset(actors) == multiset(old(actors))
      ensures NeighboursOrdered(actors)
      ensures NumericDepths(actors) ==> SortedByDepth(actors)
      ensures updates == Invocations(actors, "update", [Numeric(Num(delta))])
    {
      var children := actors;
      var a := new Actor[|children|](k requires 0 <= k < |children| => children[k]);
      assert a[..] == children;
      SortByDepth(a);
      actors := a[..];
      var self, calls := PerformLayer(actors, "update", [Numeric(Num(delta))]);
      updates := calls;
      assert actors == a[..];
      if NumericDepths(actors) {
        NeighboursOrderedIsSorted(actors);
      }
    }
  }
}
