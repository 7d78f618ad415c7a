/**
 * The container as the object it is: a class whose fields are the six
 * tables and the object counter, and whose methods update them in place.
 * Every method is proved to leave the container in the state, and to return
 * the result, that the corresponding function of Resolution or Registry
 * computes from the state it started in; what those functions promise is
 * proved about them (Properties).
 */
module Containers {
  import opened Php
  import opened Reflection
  import opened Tables
  import opened Resolution
  import Registry

  class Container {
    /** The runtime the container lives in; it never changes. */
    const world: World

    var bindings: map<string, Binding>
    var instances: map<string, Value>
    var aliases: map<string, string>
    var extenders: map<string, seq<nat>>
    var resolved: set<string>
    var reboundCallbacks: map<string, seq<nat>>
    var next: nat

    /** The fields as one value. */
    function Snapshot(): State
      reads this
    {
      State(bindings, instances, aliases, extenders, resolved, reboundCallbacks, next)
    }

    /** A new container is empty. */
    constructor (w: World)
      ensures world == w && Snapshot() == Empty
    {
      world := w;
      bindings := map[];
      instances := map[];
      aliases := map[];
      extenders := map[];
      resolved := {};
      reboundCallbacks := map[];
      next := 0;
    }

    // -------------------------------------------------------------------
    // Queries
    // -------------------------------------------------------------------

    /** offsetExists, and has, which calls it: `bound($key)`. */
    predicate OffsetExists(key: string)
      reads this
      ensures OffsetExists(key) <==> Bound(Snapshot(), key)
    {
      Bound(Snapshot(), key)
    }

    // -------------------------------------------------------------------
    // Resolution
    // -------------------------------------------------------------------

    /** make. */
    method Make(id: string, params: Entries, fuel: nat) returns (r: Result<Value>)
      modifies this
      ensures Out(r, Snapshot()) == Resolution.Make(world, old(Snapshot()), id, params, fuel)
      decreases fuel, 0, 1
    {
      if fuel == 0 {
        return Err(OutOfFuel);
      }
      var a := GetAlias(Snapshot(), Normalize(id));
      if a.None? {
        return Err(AliasCycle);
      }
      r := MakeAt(a.value, params, fuel);
    }

    /** The rest of make, once the aliases are followed; the extenders run in a loop. */
    method MakeAt(a: string, params: Entries, fuel: nat) returns (r: Result<Value>)
      requires fuel > 0
      modifies this
      ensures Out(r, Snapshot()) == Resolution.MakeAt(world, old(Snapshot()), a, params, fuel)
      decreases fuel, 0, 0
    {
      if Isset(instances, a) {
        return Ok(instances[a]);
      }
      var b := Build(GetConcrete(Snapshot(), a), params, fuel - 1);
      if b.Err? {
        return b;
      }
      var fs := Extenders(Snapshot(), a);
      var v := b.value;
      var i := 0;
      while i < |fs|
        invariant 0 <= i <= |fs|
        invariant v == Decorated(world, b.value, fs[..i])
      {
        assert fs[..i + 1][..i] == fs[..i];
        v := world.decorate(fs[i], v);
        i := i + 1;
      }
      assert fs[..|fs|] == fs;
      if IsShared(Snapshot(), a) {
        instances := instances[a := v];
      }
      resolved := resolved + {a};
      r := Ok(v);
    }

    /** build. */
    method Build(c: Concrete, params: Entries, fuel: nat) returns (r: Result<Value>)
      modifies this
      ensures Out(r, Snapshot()) == Resolution.Build(world, old(Snapshot()), c, params, fuel)
      decreases fuel, 3, if c.Fn? then 1 else 0
    {
      match c
      case Fn(Wrapper(a, x)) =>
        if a == x {
          r := Build(ClassName(x), params, fuel);
        } else {
          r := Make(x, params, fuel);
        }
      case Fn(Const(v)) =>
        r := Ok(v);
      case Fn(User(fid)) =>
        r := Ok(world.invoke(fid, next));
        next := next + 1;
      case ClassName(name) =>
        if name !in world.classes {
          return Err(ReflectionFailure);
        }
        if !world.classes[name].instantiable {
          return Err(NotInstantiable);
        }
        if world.classes[name].ctor.None? {
          r := Ok(Obj(next, name, []));
          next := next + 1;
          return;
        }
        var deps := world.classes[name].ctor.value;
        var keyed := KeyParametersByArgument(deps, params);
        var d := GetDependencies(deps, keyed, fuel);
        if d.Err? {
          return Err(d.error);
        }
        r := Ok(Obj(next, name, d.value));
        next := next + 1;
    }

    /** keyParametersByArgument: every positional explicit parameter is moved
        under the name of the constructor parameter at its position. */
    method KeyParametersByArgument(deps: seq<Param>, params: Entries) returns (r: Entries)
      ensures r == Rekeyed(deps, params, |params|)
      ensures forall i :: Lookup(r, IntKey(i)) == None
      ensures forall name :: Lookup(r, StrKey(name)) == KeyedValue(deps, params, |params|, name)
    {
      r := params;
      var i := 0;
      while i < |params|
        invariant 0 <= i <= |params|
        invariant r == Rekeyed(deps, params, i)
      {
        var (key, value) := params[i];
        if key.IntKey? {
          r := Remove(r, key);
          r := Put(r, StrKey(NameAt(deps, key.i)), value);
        }
        i := i + 1;
      }
      KeyedByArgument(deps, params);
    }

    /** getDependencies: resolves the constructor parameters in order and
        throws at the first that cannot be resolved. */
    method GetDependencies(deps: seq<Param>, params: Entries, fuel: nat) returns (r: Result<seq<Value>>)
      modifies this
      ensures Out(r, Snapshot()) == Dependencies(world, old(Snapshot()), deps, params, |deps|, fuel)
      decreases fuel, 2, |deps|
    {
      ghost var s0 := Snapshot();
      var args := [];
      var i := 0;
      while i < |deps|
        invariant 0 <= i <= |deps|
        invariant Dependencies(world, s0, deps, params, i, fuel) == Out(Ok(args), Snapshot())
      {
        var d := Dependency(deps[i], params, fuel);
        if d.Err? {
          DependenciesStop(world, s0, deps, params, i + 1, |deps|, fuel);
          return Err(d.error);
        }
        args := args + [d.value];
        i := i + 1;
      }
      r := Ok(args);
    }

    /** One parameter of getDependencies. */
    method Dependency(p: Param, params: Entries, fuel: nat) returns (r: Result<Value>)
      modifies this
      ensures Out(r, Snapshot()) == Resolution.Dependency(world, old(Snapshot()), p, params, fuel)
      decreases fuel, 1, 1
    {
      var cls := ParameterClass(world, p);
      if cls.Err? {
        return Err(cls.error);
      }
      var given := Lookup(params, StrKey(p.name));
      if given.Some? {
        return Ok(given.value);
      }
      if cls.value.None? {
        return ResolveNonClass(p);
      }
      r := ResolveClass(p, cls.value.value, fuel);
    }

    /** resolveClass. */
    method ResolveClass(p: Param, cls: string, fuel: nat) returns (r: Result<Value>)
      modifies this
      ensures Out(r, Snapshot()) == Resolution.ResolveClass(world, old(Snapshot()), p, cls, fuel)
      decreases fuel, 1, 0
    {
      r := Make(cls, [], fuel);
      if r.Err? && Catchable(r.error) && p.optional {
        if p.default.Some? {
          r := Ok(p.default.value);
        } else {
          r := Err(ReflectionFailure);
        }
      }
    }

    // -------------------------------------------------------------------
    // call
    // -------------------------------------------------------------------

    /** addDependencyForCallParameter; PHP's two by-reference arrays are the
        arguments gathered and the explicit parameters left, given and returned. */
    method AddDependencyForCallParameter(p: Param, acc: (seq<Value>, Entries), fuel: nat) returns (r: Result<(seq<Value>, Entries)>)
      modifies this
      ensures Out(r, Snapshot()) == CallParameter(world, old(Snapshot()), p, acc, fuel)
    {
      var (dependencies, parameters) := acc;
      var given := Lookup(parameters, StrKey(p.name));
      if given.Some? {
        return Ok((dependencies + [given.value], Remove(parameters, StrKey(p.name))));
      }
      var cls := ParameterClass(world, p);
      if cls.Err? {
        return Err(cls.error);
      }
      if cls.value.Some? {
        var m := Make(cls.value.value, [], fuel);
        if m.Err? {
          return Err(m.error);
        }
        return Ok((dependencies + [m.value], parameters));
      }
      if p.default.Some? {
        return Ok((dependencies + [p.default.value], parameters));
      }
      r := Ok(acc);
    }

    /** getMethodDependencies: the arguments gathered parameter by parameter,
        followed by the explicit parameters no parameter used. */
    method GetMethodDependencies(cb: Callback, params: Entries, fuel: nat) returns (r: Result<seq<Value>>)
      modifies this
      ensures Out(r, Snapshot()) == MethodDependencies(world, old(Snapshot()), cb, params, fuel)
    {
      var signature := world.signature(cb);
      if signature.None? {
        return Err(ReflectionFailure);
      }
      var ps := signature.value;
      var acc := ([], params);
      var i := 0;
      while i < |ps|
        invariant 0 <= i <= |ps|
        invariant CallArguments(world, old(Snapshot()), ps, 0, ([], params), fuel) == CallArguments(world, Snapshot(), ps, i, acc, fuel)
      {
        var e := AddDependencyForCallParameter(ps[i], acc, fuel);
        if e.Err? {
          return Err(e.error);
        }
        acc := e.value;
        i := i + 1;
      }
      r := Ok(acc.0 + Values(acc.1));
    }

    /** callClass. */
    method CallClass(cb: Callback, params: Entries, defaultMethod: Option<string>, fuel: nat) returns (r: Result<Invocation>)
      modifies this
      ensures Out(r, Snapshot()) == Resolution.CallClass(world, old(Snapshot()), cb, params, defaultMethod, fuel)
    {
      if !cb.FunctionName? {
        return Err(TypeError);
      }
      var segments := Explode('@', cb.name);
      var m := if |segments| == 2 then Some(segments[1]) else defaultMethod;
      if m.None? {
        return Err(MethodNotProvided);
      }
      var obj := Make(segments[0], [], fuel);
      if obj.Err? {
        return Err(obj.error);
      }
      var target := MethodRef(obj.value, m.value);
      var d := GetMethodDependencies(target, params, fuel);
      if d.Err? {
        return Err(d.error);
      }
      r := Ok(Invocation(target, d.value));
    }

    /** call. */
    method Call(cb: Callback, params: Entries, defaultMethod: Option<string>, fuel: nat) returns (r: Result<Invocation>)
      modifies this
      ensures Out(r, Snapshot()) == Resolution.Call(world, old(Snapshot()), cb, params, defaultMethod, fuel)
    {
      if IsCallableWithAtSign(cb) || Truthy(defaultMethod) {
        r := CallClass(cb, params, defaultMethod, fuel);
        return;
      }
      var d := GetMethodDependencies(cb, params, fuel);
      if d.Err? {
        return Err(d.error);
      }
      r := Ok(Invocation(cb, d.value));
    }

    /** offsetGet, and get, which reads `$this[$id]`: make. */
    method OffsetGet(key: string, fuel: nat) returns (r: Result<Value>)
      modifies this
      ensures Out(r, Snapshot()) == Resolution.Make(world, old(Snapshot()), key, [], fuel)
    {
      r := Make(key, [], fuel);
    }

    /** resolving and afterResolving of the legacy revision: their bodies are empty. */
    method Resolving(id: string, callback: Option<nat>)
      ensures Snapshot() == old(Snapshot())
    {
    }

    method AfterResolving(id: string, callback: Option<nat>)
      ensures Snapshot() == old(Snapshot())
    {
    }

    // -------------------------------------------------------------------
    // Registration
    // -------------------------------------------------------------------

    /** alias. */
    method Alias(id: string, alias: string) returns (r: Result<()>)
      modifies this
      ensures r.Ok? ==> Registry.Alias(old(Snapshot()), id, alias) == Ok(Snapshot())
      ensures r.Err? ==> Registry.Alias(old(Snapshot()), id, alias) == Err(r.error) && Snapshot() == old(Snapshot())
    {
      if alias == id {
        return Err(AliasedToItself);
      }
      aliases := aliases[alias := Normalize(id)];
      r := Ok(());
    }

    /** The alias step of bind and instance: the key to register under, after
        the alias of a `[id => alias]` pair is recorded. */
    method Register(ab: Abstract) returns (r: Result<string>)
      modifies this
      ensures r.Ok? ==> Registry.AliasStep(old(Snapshot()), ab) == Ok(Snapshot()) && r.value == Registry.KeyOf(ab)
      ensures r.Err? ==> Registry.AliasStep(old(Snapshot()), ab) == Err(r.error) && Snapshot() == old(Snapshot())
    {
      match ab
      case Name(n) =>
        r := Ok(Normalize(n));
      case Pair(t, al) =>
        var e := Alias(t, al);
        if e.Err? {
          return Err(e.error);
        }
        r := Ok(t);
    }

    /** rebound: makes the name again. Its loop over getReboundCallbacks has
        nothing to run, because no operation registers a rebound callback. */
    method Rebound(id: string, fuel: nat) returns (r: Result<()>)
      modifies this
      ensures Out(r, Snapshot()) == Registry.Rebound(world, old(Snapshot()), id, fuel)
    {
      var m := Make(id, [], fuel);
      if m.Err? {
        return Err(m.error);
      }
      r := Ok(());
    }

    /** bind. */
    method Bind(ab: Abstract, concrete: Option<Concrete>, shared: bool, fuel: nat) returns (r: Result<()>)
      modifies this
      ensures Out(r, Snapshot()) == Registry.Bind(world, old(Snapshot()), ab, concrete, shared, fuel)
    {
      var k := Register(ab);
      if k.Err? {
        return Err(k.error);
      }
      var a := k.value;
      ghost var s1 := Snapshot();
      // dropStaleInstances
      instances := instances - {a};
      aliases := aliases - {a};
      bindings := bindings[a := Binding(Registry.ClosureFor(a, concrete), shared)];
      assert Snapshot() == Registry.Rebind(s1, a, Registry.ClosureFor(a, concrete), shared);
      r := RemakeIfResolved(a, fuel);
    }

    /** The end of bind: the name is made again when it was resolved before. */
    method RemakeIfResolved(a: string, fuel: nat) returns (r: Result<()>)
      modifies this
      ensures Out(r, Snapshot()) == Registry.RemakeIfResolved(world, old(Snapshot()), a, fuel)
    {
      var wasResolved := Resolved(Snapshot(), a);
      if wasResolved.Err? {
        return Err(wasResolved.error);
      }
      if wasResolved.value {
        r := Rebound(a, fuel);
      } else {
        r := Ok(());
      }
    }

    /** bindIf. */
    method BindIf(id: string, concrete: Option<Concrete>, shared: bool, fuel: nat) returns (r: Result<()>)
      modifies this
      ensures Out(r, Snapshot()) == Registry.BindIf(world, old(Snapshot()), id, concrete, shared, fuel)
    {
      if Bound(Snapshot(), id) {
        return Ok(());
      }
      r := Bind(Name(id), concrete, shared, fuel);
    }

    /** singleton. */
    method Singleton(ab: Abstract, concrete: Option<Concrete>, fuel: nat) returns (r: Result<()>)
      modifies this
      ensures Out(r, Snapshot()) == Registry.Singleton(world, old(Snapshot()), ab, concrete, fuel)
    {
      r := Bind(ab, concrete, true, fuel);
    }

    /** extend. */
    method Extend(id: string, fid: nat, fuel: nat) returns (r: Result<()>)
      modifies this
      ensures Out(r, Snapshot()) == Registry.Extend(world, old(Snapshot()), id, fid, fuel)
    {
      var n := Normalize(id);
      if Isset(instances, n) {
        instances := instances[n := world.decorate(fid, instances[n])];
        r := Rebound(n, fuel);
      } else {
        extenders := extenders[n := Extenders(Snapshot(), n) + [fid]];
        r := Ok(());
      }
    }

    /** instance. */
    method Instance(ab: Abstract, v: Value, fuel: nat) returns (r: Result<()>)
      modifies this
      ensures Out(r, Snapshot()) == Registry.Instance(world, old(Snapshot()), ab, v, fuel)
    {
      if world.revision.Current? && ab.Pair? {
        return Err(TypeError);
      }
      var k := Register(ab);
      if k.Err? {
        return Err(k.error);
      }
      var a := k.value;
      aliases := aliases - {a};
      var wasBound := Bound(Snapshot(), a);
      instances := instances[a := v];
      if wasBound {
        r := Rebound(a, fuel);
      } else {
        r := Ok(());
      }
    }

    /** offsetSet. */
    method OffsetSet(key: string, g: Registry.Given, fuel: nat) returns (r: Result<()>)
      modifies this
      ensures Out(r, Snapshot()) == Registry.OffsetSet(world, old(Snapshot()), key, g, fuel)
    {
      var c := match g case Plain(v) => Const(v) case GivenClosure(fid) => User(fid);
      r := Bind(Name(key), Some(Fn(c)), false, fuel);
    }

    /** offsetUnset. */
    method OffsetUnset(key: string)
      modifies this
      ensures Snapshot() == Registry.OffsetUnset(old(Snapshot()), key)
    {
      var n := Normalize(key);
      bindings := bindings - {n};
      instances := instances - {n};
      resolved := resolved - {n};
    }
  }
}
