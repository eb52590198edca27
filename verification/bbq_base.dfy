/** bbq-base.js: `BBQ.Utils.assign`, the fallback for `Object.assign`, and
    `BBQ.Utils.extends`, which chains a constructor's prototype. */
module BbqBase {
  import opened Js

  /** A JS object: its own properties and the prototype it was created with. */
  class JsObject {
    var own: map<string, Value>
    const parent: JsObject?
    /** The objects on the prototype chain, this one first. */
    ghost const chain: set<JsObject>
    ghost const depth: nat

    ghost predicate Linked()
      decreases depth
    {
      this in chain
      && (parent == null ==> chain == {this} && depth == 0)
      && (parent != null ==>
            parent.depth < depth && chain == {this} + parent.chain && parent.Linked())
    }

    /** `Object.create(parent)` with the given own properties. */
    constructor (parent: JsObject?, own: map<string, Value>)
      requires parent != null ==> parent.Linked()
      ensures this.parent == parent && this.own == own && Linked()
    {
      this.parent := parent;
      this.own := own;
      if parent == null {
        chain, depth := {this}, 0;
      } else {
        chain, depth := {this} + parent.chain, parent.depth + 1;
      }
    }

    /** `this[key]`: the own value, else the value found up the prototype chain. */
    ghost function Get(key: string): Value
      requires Linked()
      reads chain
      decreases depth
    {
      if key in own then own[key]
      else if parent == null then Undefined
      else parent.Get(key)
    }
  }

  /** A function object; only its `prototype` property matters here. */
  class Constructor {
    var prototype: JsObject

    constructor (prototype: JsObject)
      ensures this.prototype == prototype
    {
      this.prototype := prototype;
    }
  }

  /** What `assign(target, ...sources)` leaves in `target`, given the
      enumerable properties of each source in order. */
  function Merged(target: map<string, Value>, sources: seq<map<string, Value>>): (r: map<string, Value>)
    ensures sources == [] ==> r == target
    ensures target.Keys <= r.Keys
    ensures forall j :: 0 <= j < |sources| ==> sources[j].Keys <= r.Keys
  {
    if sources == [] then target
    else Merged(target, sources[..|sources| - 1]) + sources[|sources| - 1]
  }

  /** A key that some source holds gets its value from the last source
      that holds it. */
  lemma {:induction false} MergedTakesLastSource(target: map<string, Value>, sources: seq<map<string, Value>>, key: string, i: nat)
    requires i < |sources| && key in sources[i]
    requires forall j :: i < j < |sources| ==> key !in sources[j]
    ensures key in Merged(target, sources) && Merged(target, sources)[key] == sources[i][key]
  {
    if i < |sources| - 1 {
      MergedTakesLastSource(target, sources[..|sources| - 1], key, i);
    }
  }

  /** A key that no source holds keeps its value in the target (or stays
      absent). */
  lemma {:induction false} MergedKeepsUntouched(target: map<string, Value>, sources: seq<map<string, Value>>, key: string)
    requires forall j :: 0 <= j < |sources| ==> key !in sources[j]
    ensures key in Merged(target, sources) <==> key in target
    ensures key in target ==> Merged(target, sources)[key] == target[key]
  {
    if sources != [] {
      MergedKeepsUntouched(target, sources[..|sources| - 1], key);
    }
  }

  /** The keys after merging are the target's and the sources'. */
  lemma {:induction false} MergedKeys(target: map<string, Value>, sources: seq<map<string, Value>>, key: string)
    ensures key in Merged(target, sources) <==>
              key in target || exists j :: 0 <= j < |sources| && key in sources[j]
  {
    if sources != [] {
      var init := sources[..|sources| - 1];
      MergedKeys(target, init, key);
      if exists j :: 0 <= j < |init| && key in init[j] {
        var j :| 0 <= j < |init| && key in init[j];
        assert key in sources[j];
      }
    }
  }

  /** Assigning the same source twice leaves what assigning it once left. */
  lemma MergedIdempotent(target: map<string, Value>, source: map<string, Value>)
    ensures Merged(Merged(target, [source]), [source]) == Merged(target, [source])
  {
    assert [source][..0] == [];
  }

  /** `BBQ.Utils.assign(target, ...sources)` as the fallback writes it: for
      each source in order, every enumerable property is written into the
      target. (The fallback returns `undefined`, not the target.) */
  method Assign(target: JsObject, sources: seq<map<string, Value>>)
    modifies target`own
    ensures target.own == Merged(old(target.own), sources)
  {
    var i := 0;
    while i < |sources|
      invariant 0 <= i <= |sources|
      invariant target.own == Merged(old(target.own), sources[..i])
    {
      var source := sources[i];
      var props := source.Keys;
      ghost var start := target.own;
      while props != {}
        invariant props <= source.Keys
        invariant target.own == start + map k | k in source.Keys - props :: source[k]
        decreases props
      {
        var prop :| prop in props;
        target.own := target.own[prop := source[prop]];
        props := props - {prop};
      }
      assert target.own == start + source;
      assert sources[..i + 1][..i] == sources[..i];
      i := i + 1;
    }
    assert sources[..i] == sources;
  }

  /** `BBQ.Utils.extends(classa, classb, proto)`: `classa` gets a fresh
      prototype that inherits from `classb.prototype` and whose own
      properties are exactly those of `proto`. */
  method Extends(classa: Constructor, classb: Constructor, proto: map<string, Value>)
    requires classb.prototype.Linked()
    modifies classa
    ensures fresh(classa.prototype) && classa.prototype.Linked()
    ensures classa.prototype.parent == old(classb.prototype)
    ensures classa.prototype.own == proto
  {
    var created := new JsObject(classb.prototype, map[]);
    classa.prototype := created;
    Assign(created, [proto]);
    assert Merged(map[], [proto]) == proto by {
      assert [proto][..0] == [];
    }
  }

  /** Through the new prototype, a key `proto` defines reads `proto`'s value
      and shadows the parent's; any other key reads what the parent class's
      prototype gives. */
  lemma ExtendedLookup(derived: JsObject, base: JsObject, proto: map<string, Value>, key: string)
    requires derived.Linked() && derived.parent == base && derived.own == proto
    ensures key in proto ==> derived.Get(key) == proto[key]
    ensures key !in proto ==> derived.Get(key) == base.Get(key)
  {
  }
}
