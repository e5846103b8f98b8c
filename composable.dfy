/**
 * `ComposableModel` (static/composable.js): a Backbone model that owns an
 * ordered list of sub-models and routes `get`, `has`, `set` and `toJSON`
 * between its own attributes and theirs. Every model's attributes are a map
 * from names to JavaScript values; the sub-models are plain Backbone models,
 * listed in the order of `composedOf`.
 */
module Composable {
  import opened Wrappers
  import opened Values

  type Attributes = map<string, Value>

  /** Backbone's `has`: the attribute is set to something other than
      `null` or `undefined`. */
  predicate ModelHas(attrs: Attributes, key: string) {
    Lookup(attrs, key) != Undefined && Lookup(attrs, key) != Null
  }

  /** The two questions the composite asks its sub-models in turn: does
      `get` return something other than `undefined`, and does `has` hold. */
  datatype Probe = GetProbe | HasProbe

  predicate Answers(attrs: Attributes, key: string, probe: Probe) {
    match probe
    case GetProbe => Lookup(attrs, key) != Undefined
    case HasProbe => ModelHas(attrs, key)
  }

  /** The position of the first sub-model that answers the probe for `key`. */
  function FirstAnswering(subs: seq<Attributes>, key: string, probe: Probe): (r: Option<nat>)
    ensures r.None? <==> forall i :: 0 <= i < |subs| ==> !Answers(subs[i], key, probe)
    ensures r.Some? ==> r.value < |subs| && Answers(subs[r.value], key, probe)
    ensures r.Some? ==> forall j :: 0 <= j < r.value ==> !Answers(subs[j], key, probe)
    decreases |subs|
  {
    if subs == [] then None
    else if Answers(subs[0], key, probe) then Some(0)
    else
      match FirstAnswering(subs[1..], key, probe)
      case None => None
      case Some(i) => Some(i + 1)
  }

  /** What the composite's `get` returns: its own value unless that is
      `undefined`, else the value of the first sub-model whose value is not
      `undefined`, else `undefined`. */
  function Resolve(attrs: Attributes, subs: seq<Attributes>, key: string): (v: Value)
    ensures Lookup(attrs, key) != Undefined ==> v == Lookup(attrs, key)
    ensures Lookup(attrs, key) == Undefined ==>
      (v == Undefined <==> forall i :: 0 <= i < |subs| ==> Lookup(subs[i], key) == Undefined)
    ensures Lookup(attrs, key) == Undefined && v != Undefined ==>
      exists i :: 0 <= i < |subs| && v == Lookup(subs[i], key) &&
                  forall j :: 0 <= j < i ==> Lookup(subs[j], key) == Undefined
  {
    if Lookup(attrs, key) != Undefined then Lookup(attrs, key)
    else
      match FirstAnswering(subs, key, GetProbe)
      case None => Undefined
      case Some(i) => Lookup(subs[i], key)
  }

  /** Where `set(obj)` writes the key `k`: to the first sub-model that has
      it, unless the composite holds `k` itself (`None`: the composite). */
  function Owner(attrs: Attributes, subs: seq<Attributes>, k: string): (o: Option<nat>)
    ensures o.Some? ==> k !in attrs && o.value < |subs| && ModelHas(subs[o.value], k)
    ensures o.Some? ==> forall j :: 0 <= j < o.value ==> !ModelHas(subs[j], k)
    ensures o.None? ==> k in attrs || forall i :: 0 <= i < |subs| ==> !ModelHas(subs[i], k)
  {
    if k in attrs then None else FirstAnswering(subs, k, HasProbe)
  }

  /** The part of `obj` that `set(obj)` writes to sub-model `i`. */
  function RoutedTo(obj: Attributes, attrs: Attributes, subs: seq<Attributes>, i: nat): Attributes {
    map k | k in obj && Owner(attrs, subs, k) == Some(i) :: obj[k]
  }

  /** The part of `obj` that `set(obj)` writes to the composite itself. */
  function Unrouted(obj: Attributes, attrs: Attributes, subs: seq<Attributes>): Attributes {
    map k | k in obj && Owner(attrs, subs, k).None? :: obj[k]
  }

  /** Each key of `set(obj)` is written in exactly one place. */
  lemma RoutedOnce(obj: Attributes, attrs: Attributes, subs: seq<Attributes>, k: string)
    requires k in obj
    ensures k in Unrouted(obj, attrs, subs) <==> forall i :: 0 <= i < |subs| ==> k !in RoutedTo(obj, attrs, subs, i)
    ensures forall i, j :: 0 <= i < j < |subs| && k in RoutedTo(obj, attrs, subs, i) ==> k !in RoutedTo(obj, attrs, subs, j)
  {
    var o := Owner(attrs, subs, k);
    if o.Some? {
      assert k in RoutedTo(obj, attrs, subs, o.value);
    }
  }

  /** The keys of `obj` that `set(obj)` has not yet written once the first
      `n` sub-models have taken theirs. */
  ghost function Remaining(obj: Attributes, attrs: Attributes, subs: seq<Attributes>, n: nat): Attributes {
    map k | k in obj && !(Owner(attrs, subs, k).Some? && Owner(attrs, subs, k).value < n) :: obj[k]
  }

  /** Of the keys not yet written, sub-model `n` takes those the
      composite does not hold and the sub-model has: exactly those it owns. */
  lemma TakesOwned(attrs: Attributes, subs: seq<Attributes>, n: nat, k: string)
    requires n < |subs|
    ensures (k !in attrs && ModelHas(subs[n], k) && !(Owner(attrs, subs, k).Some? && Owner(attrs, subs, k).value < n))
            <==> Owner(attrs, subs, k) == Some(n)
  {
    if k !in attrs && ModelHas(subs[n], k) {
      var o := FirstAnswering(subs, k, HasProbe);
      assert Answers(subs[n], k, HasProbe);
      assert o.Some? && o.value <= n;
    }
  }

  /** The keys of `rest` that a sub-model holding `sub` takes: those it has
      and the composite does not hold (`hasOwnProperty`). */
  function Taken(rest: Attributes, attrs: Attributes, sub: Attributes): set<string> {
    set k | k in rest && k !in attrs && ModelHas(sub, k)
  }

  /** `_.pick(m, keys)`. */
  function Pick(m: Attributes, keys: set<string>): (r: Attributes)
    ensures r.Keys == m.Keys * keys
    ensures forall k :: k in r ==> r[k] == m[k]
  {
    map k | k in m && k in keys :: m[k]
  }

  /** `_.omit(m, keys)`. */
  function Omit(m: Attributes, keys: set<string>): (r: Attributes)
    ensures r.Keys == m.Keys - keys
    ensures forall k :: k in r ==> r[k] == m[k]
  {
    map k | k in m && k !in keys :: m[k]
  }

  lemma TakenIsRouted(obj: Attributes, attrs: Attributes, subs: seq<Attributes>, n: nat)
    requires n < |subs|
    ensures Taken(Remaining(obj, attrs, subs, n), attrs, subs[n]) == RoutedTo(obj, attrs, subs, n).Keys
  {
    forall k | k in obj
      ensures k in Taken(Remaining(obj, attrs, subs, n), attrs, subs[n]) <==> Owner(attrs, subs, k) == Some(n)
    {
      TakesOwned(attrs, subs, n, k);
    }
  }

  /** Sub-model `n` receives exactly the keys routed to it. */
  lemma PickStep(obj: Attributes, attrs: Attributes, subs: seq<Attributes>, n: nat)
    requires n < |subs|
    ensures Pick(Remaining(obj, attrs, subs, n), Taken(Remaining(obj, attrs, subs, n), attrs, subs[n]))
         == RoutedTo(obj, attrs, subs, n)
  {
    var rest := Remaining(obj, attrs, subs, n);
    var taken := Taken(rest, attrs, subs[n]);
    var routed := RoutedTo(obj, attrs, subs, n);
    TakenIsRouted(obj, attrs, subs, n);
    assert taken <= rest.Keys;
    var picked := Pick(rest, taken);
    assert picked.Keys == routed.Keys;
    forall k | k in picked
      ensures picked[k] == routed[k]
    {
      assert picked[k] == rest[k] == obj[k];
    }
  }

  lemma OmitKey(obj: Attributes, attrs: Attributes, subs: seq<Attributes>, n: nat, k: string)
    requires n < |subs| && k in obj
    ensures var rest := Remaining(obj, attrs, subs, n);
            k in Omit(rest, Taken(rest, attrs, subs[n])) <==> k in Remaining(obj, attrs, subs, n + 1)
  {
    var rest := Remaining(obj, attrs, subs, n);
    var o := Owner(attrs, subs, k);
    TakesOwned(attrs, subs, n, k);
    assert k in Taken(rest, attrs, subs[n]) <==> o == Some(n);
  }

  /** What sub-model `n` leaves is what remains for sub-model `n + 1`. */
  lemma OmitStep(obj: Attributes, attrs: Attributes, subs: seq<Attributes>, n: nat)
    requires n < |subs|
    ensures Omit(Remaining(obj, attrs, subs, n), Taken(Remaining(obj, attrs, subs, n), attrs, subs[n]))
         == Remaining(obj, attrs, subs, n + 1)
  {
    var rest := Remaining(obj, attrs, subs, n);
    var taken := Taken(rest, attrs, subs[n]);
    var next := Remaining(obj, attrs, subs, n + 1);
    var left := Omit(rest, taken);
    forall k | k in obj
      ensures k in left <==> k in next
    {
      OmitKey(obj, attrs, subs, n, k);
    }
    assert left.Keys == next.Keys;
    forall k | k in left
      ensures left[k] == next[k]
    {
      assert left[k] == rest[k] == obj[k];
    }
  }

  lemma RemainingAtEnd(obj: Attributes, attrs: Attributes, subs: seq<Attributes>)
    ensures Remaining(obj, attrs, subs, |subs|) == Unrouted(obj, attrs, subs)
  {
  }

  /** The sub-models' attributes after the first `n` have taken the keys
      routed to them. */
  ghost function RoutedPrefix(obj: Attributes, attrs: Attributes, subs: seq<Attributes>, n: nat): (r: seq<Attributes>)
    requires n <= |subs|
    ensures |r| == |subs|
    ensures forall i :: 0 <= i < |subs| ==>
      r[i] == if i < n then subs[i] + RoutedTo(obj, attrs, subs, i) else subs[i]
  {
    seq(|subs|, i requires 0 <= i < |subs| => if i < n then subs[i] + RoutedTo(obj, attrs, subs, i) else subs[i])
  }

  lemma RoutedPrefixStep(obj: Attributes, attrs: Attributes, subs: seq<Attributes>, n: nat)
    requires n < |subs|
    ensures RoutedPrefix(obj, attrs, subs, n)[n := subs[n] + RoutedTo(obj, attrs, subs, n)]
         == RoutedPrefix(obj, attrs, subs, n + 1)
  {
  }

  /** `_.extend` of an empty object with each map in turn. */
  function MergeAll(ms: seq<Attributes>): Attributes
    decreases |ms|
  {
    if ms == [] then map[] else MergeAll(ms[..|ms| - 1]) + ms[|ms| - 1]
  }

  /** A merged map holds the keys of every map merged, each with the value
      of the last map that holds it. */
  lemma {:induction false} MergeAllLookup(ms: seq<Attributes>)
    ensures forall k :: k in MergeAll(ms) <==> exists i :: 0 <= i < |ms| && k in ms[i]
    ensures forall k, i :: 0 <= i < |ms| && k in ms[i] && (forall j :: i < j < |ms| ==> k !in ms[j])
                           ==> MergeAll(ms)[k] == ms[i][k]
    decreases |ms|
  {
    if ms != [] {
      var last := |ms| - 1;
      var front := ms[..last];
      MergeAllLookup(front);
      assert forall i :: 0 <= i < |front| ==> front[i] == ms[i];
      forall k, i | 0 <= i < |ms| && k in ms[i] && (forall j :: i < j < |ms| ==> k !in ms[j])
        ensures k in MergeAll(ms) && MergeAll(ms)[k] == ms[i][k]
      {
        if i < last {
          assert k !in ms[last];
          assert forall j :: i < j < |front| ==> k !in front[j];
        }
      }
    }
  }

  class ComposableModel {
    /** The model's own `attributes`. */
    var attributes: Attributes
    /** The attributes of the sub-models, in the order of `composedOf`. */
    var subAttributes: seq<Attributes>
    /** The property names of the sub-models: the keys of `composedOf`. */
    const composedOf: seq<string>
    /** The keys of `defaults`, the only own attributes `toJSON` includes. */
    const defaultKeys: set<string>
    /** Direct properties set by `_attributeToProperty`. */
    var properties: map<string, Value>

    ghost predicate Valid()
      reads this
    {
      |subAttributes| == |composedOf| &&
      forall i, j :: 0 <= i < j < |composedOf| ==> composedOf[i] != composedOf[j]
    }

    constructor(attributes: Attributes, subAttributes: seq<Attributes>, composedOf: seq<string>, defaultKeys: set<string>)
      requires |subAttributes| == |composedOf|
      requires forall i, j :: 0 <= i < j < |composedOf| ==> composedOf[i] != composedOf[j]
      ensures Valid()
      ensures this.attributes == attributes && this.subAttributes == subAttributes
      ensures this.composedOf == composedOf && this.defaultKeys == defaultKeys && properties == map[]
    {
      this.attributes := attributes;
      this.subAttributes := subAttributes;
      this.composedOf := composedOf;
      this.defaultKeys := defaultKeys;
      properties := map[];
    }

    /** `submodels`: each sub-model under its property name. */
    function Submodels(): (m: map<string, Attributes>)
      requires Valid()
      reads this
      ensures m.Keys == set i | 0 <= i < |composedOf| :: composedOf[i]
      ensures forall i :: 0 <= i < |composedOf| ==> m[composedOf[i]] == subAttributes[i]
    {
      map i | 0 <= i < |composedOf| :: composedOf[i] := subAttributes[i]
    }

    /** `has`: the composite has the key itself, or some sub-model has it. */
    method Has(name: string) returns (b: bool)
      ensures b <==> ModelHas(attributes, name) ||
                     exists i :: 0 <= i < |subAttributes| && ModelHas(subAttributes[i], name)
    {
      if ModelHas(attributes, name) {
        return true;
      }
      var i := 0;
      while i < |subAttributes|
        invariant 0 <= i <= |subAttributes|
        invariant forall j :: 0 <= j < i ==> !ModelHas(subAttributes[j], name)
      {
        if ModelHas(subAttributes[i], name) {
          return true;
        }
        i := i + 1;
      }
      return false;
    }

    /** `get`: the own value unless `undefined` (a `null` is returned),
        else the first sub-model value that is not `undefined`. */
    method Get(name: string) returns (v: Value)
      ensures v == Resolve(attributes, subAttributes, name)
    {
      var got := Lookup(attributes, name);
      if got != Undefined {
        return got;
      }
      var i := 0;
      while i < |subAttributes|
        invariant 0 <= i <= |subAttributes|
        invariant forall j :: 0 <= j < i ==> Lookup(subAttributes[j], name) == Undefined
      {
        got := Lookup(subAttributes[i], name);
        if got != Undefined {
          assert FirstAnswering(subAttributes, name, GetProbe) == Some(i);
          return got;
        }
        i := i + 1;
      }
      return Undefined;
    }

    /** `set(name, val, options)` with a string key: with `local` set, or
        when no sub-model has the key, the composite's own attribute is
        written; otherwise only the first sub-model that has the key is.
        A key the composite itself holds is not consulted. */
    method SetKey(name: string, val: Value, local: bool)
      modifies this
      ensures properties == old(properties)
      ensures local ==> attributes == old(attributes)[name := val] && subAttributes == old(subAttributes)
      ensures !local && FirstAnswering(old(subAttributes), name, HasProbe).None? ==>
        attributes == old(attributes)[name := val] && subAttributes == old(subAttributes)
      ensures !local && FirstAnswering(old(subAttributes), name, HasProbe).Some? ==>
        var i := FirstAnswering(old(subAttributes), name, HasProbe).value;
        attributes == old(attributes) && subAttributes == old(subAttributes)[i := old(subAttributes)[i][name := val]]
    {
      if local {
        attributes := attributes[name := val];
        return;
      }
      var i := 0;
      while i < |subAttributes|
        invariant 0 <= i <= |subAttributes|
        invariant attributes == old(attributes) && subAttributes == old(subAttributes)
        invariant forall j :: 0 <= j < i ==> !ModelHas(subAttributes[j], name)
      {
        if ModelHas(subAttributes[i], name) {
          assert FirstAnswering(subAttributes, name, HasProbe) == Some(i);
          subAttributes := subAttributes[i := subAttributes[i][name := val]];
          return;
        }
        i := i + 1;
      }
      attributes := attributes[name := val];
    }

    /** `set(obj, options)` as evidently intended: with `local`, every key
        is written to the composite's own attributes, as the string form
        does; without it, each key goes to the first sub-model that has it
        unless the composite already holds it, and the keys left over are
        written to the composite's own attributes. */
    method SetAll(obj: Attributes, local: bool)
      modifies this
      ensures properties == old(properties)
      ensures local ==> attributes == old(attributes) + obj && subAttributes == old(subAttributes)
      ensures !local ==> attributes == old(attributes) + Unrouted(obj, old(attributes), old(subAttributes))
      ensures !local ==> |subAttributes| == |old(subAttributes)|
      ensures !local ==> forall i :: 0 <= i < |subAttributes| ==>
        subAttributes[i] == old(subAttributes)[i] + RoutedTo(obj, old(attributes), old(subAttributes), i)
    {
      if local {
        attributes := attributes + obj;
      } else {
        SetAllAsWritten(obj);
      }
    }

    /** `set(obj, options)` as the source writes it: each sub-model in turn
        takes the keys it has that the composite does not hold, and the rest
        is written to the composite's own attributes. The object form takes
        its options as the second argument while the `local` check reads the
        third, which is then always empty, so a `local` flag never reaches
        this code: the keys are routed whatever it says. */
    method SetAllAsWritten(obj: Attributes)
      modifies this
      ensures properties == old(properties)
      ensures attributes == old(attributes) + Unrouted(obj, old(attributes), old(subAttributes))
      ensures |subAttributes| == |old(subAttributes)|
      ensures forall i :: 0 <= i < |subAttributes| ==>
        subAttributes[i] == old(subAttributes)[i] + RoutedTo(obj, old(attributes), old(subAttributes), i)
    {
      ghost var subs0 := subAttributes;
      var setObject := obj;
      var n := 0;
      while n < |subAttributes|
        invariant 0 <= n <= |subAttributes| == |subs0|
        invariant attributes == old(attributes) && properties == old(properties)
        invariant subAttributes == RoutedPrefix(obj, attributes, subs0, n)
        invariant setObject == Remaining(obj, attributes, subs0, n)
      {
        var submodelAttrKeys := Taken(setObject, attributes, subAttributes[n]);
        PickStep(obj, attributes, subs0, n);
        OmitStep(obj, attributes, subs0, n);
        RoutedPrefixStep(obj, attributes, subs0, n);
        subAttributes := subAttributes[n := subAttributes[n] + Pick(setObject, submodelAttrKeys)];
        setObject := Omit(setObject, submodelAttrKeys);
        n := n + 1;
      }
      RemainingAtEnd(obj, attributes, subs0);
      attributes := attributes + setObject;
    }


    /** `toJSON`: the sub-models' attributes merged in order, later ones
        overriding earlier ones, then the own attributes named in
        `defaults` over all of them. */
    method ToJson() returns (json: Attributes)
      ensures forall k :: k in json <==>
        (k in attributes && k in defaultKeys) || exists i :: 0 <= i < |subAttributes| && k in subAttributes[i]
      ensures forall k :: k in attributes && k in defaultKeys ==> json[k] == attributes[k]
      ensures forall k, i :: 0 <= i < |subAttributes| && k in subAttributes[i] && !(k in attributes && k in defaultKeys) &&
                            (forall j :: i < j < |subAttributes| ==> k !in subAttributes[j])
                            ==> json[k] == subAttributes[i][k]
    {
      json := map[];
      var n := 0;
      while n < |subAttributes|
        invariant 0 <= n <= |subAttributes|
        invariant json == MergeAll(subAttributes[..n])
      {
        assert subAttributes[..n + 1][..n] == subAttributes[..n];
        json := json + subAttributes[n];
        n := n + 1;
      }
      assert subAttributes[..n] == subAttributes;
      MergeAllLookup(subAttributes);
      var ownDefaults := map k | k in attributes && k in defaultKeys :: attributes[k];
      json := json + ownDefaults;
    }

    /** Backbone's `unset(name)`, which calls the composite's own `set` with
        `undefined` and `{unset: true}` and no `local` flag: the key is
        deleted from the first sub-model that has it, and from the
        composite's own attributes only when no sub-model has it. */
    method Unset(name: string)
      modifies this
      ensures properties == old(properties)
      ensures FirstAnswering(old(subAttributes), name, HasProbe).None? ==>
        attributes == old(attributes) - {name} && name !in attributes && subAttributes == old(subAttributes)
      ensures FirstAnswering(old(subAttributes), name, HasProbe).Some? ==>
        var i := FirstAnswering(old(subAttributes), name, HasProbe).value;
        attributes == old(attributes) && subAttributes == old(subAttributes)[i := old(subAttributes)[i] - {name}] &&
        name !in subAttributes[i]
    {
      var i := 0;
      while i < |subAttributes|
        invariant 0 <= i <= |subAttributes|
        invariant attributes == old(attributes) && subAttributes == old(subAttributes)
        invariant forall j :: 0 <= j < i ==> !ModelHas(subAttributes[j], name)
      {
        if ModelHas(subAttributes[i], name) {
          assert FirstAnswering(subAttributes, name, HasProbe) == Some(i);
          subAttributes := subAttributes[i := subAttributes[i] - {name}];
          return;
        }
        i := i + 1;
      }
      attributes := attributes - {name};
    }

    /** `_attributeToProperty(name, value)`: the property becomes `value`
        when it is truthy and the composite's `get(name)` otherwise, and
        `name` is then unset, which removes it from the first sub-model that
        has it, or from the own attributes when none has it. */
    method AttributeToProperty(name: string, value: Value) returns (property: Value)
      modifies this
      ensures Truthy(value) ==> property == value
      ensures !Truthy(value) ==> property == Resolve(old(attributes), old(subAttributes), name)
      ensures properties == old(properties)[name := property]
      ensures FirstAnswering(old(subAttributes), name, HasProbe).None? ==>
        attributes == old(attributes) - {name} && subAttributes == old(subAttributes)
      ensures FirstAnswering(old(subAttributes), name, HasProbe).Some? ==>
        var i := FirstAnswering(old(subAttributes), name, HasProbe).value;
        attributes == old(attributes) && subAttributes == old(subAttributes)[i := old(subAttributes)[i] - {name}]
    {
      if Truthy(value) {
        property := value;
      } else {
        property := Get(name);
      }
      Unset(name);
      properties := properties[name := property];
    }
  }

  /** With a sub-model that has `start1` and no own `start1`, the object
      form routes `start1` to the sub-model, so `set({start1: 5}, {local:
      true})` as written writes the sub-model instead of the composite. */
  lemma LocalObjectSetReachesSubmodel()
    ensures var subs := [map["start1" := Num(0.0)]];
            var obj := map["start1" := Num(5.0)];
            RoutedTo(obj, map[], subs, 0) == obj && Unrouted(obj, map[], subs) == map[]
  {
    var subs := [map["start1" := Num(0.0)]];
    var obj := map["start1" := Num(5.0)];
    assert Owner(map[], subs, "start1") == Some(0);
  }

  /** A key the composite holds itself and a sub-model also has: the string
      form writes the sub-model, which `get` never reaches past the own
      value, while the object form writes the own attribute. */
  lemma StringSetBehindOwnKey()
    ensures var attrs := map["k" := Num(1.0)];
            var subs := [map["k" := Num(2.0)]];
            FirstAnswering(subs, "k", HasProbe) == Some(0) &&
            Resolve(attrs, [subs[0]["k" := Num(3.0)]], "k") == Num(1.0) &&
            Owner(attrs, subs, "k").None?
  {
    var subs := [map["k" := Num(2.0)]];
    assert Answers(subs[0], "k", HasProbe);
  }
}
