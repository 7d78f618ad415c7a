/**
 * Resolution: make, build, getDependencies, resolveNonClass, resolveClass and
 * the call family, as functions from a state to a result and the state left
 * behind. PHP's unbounded recursion (make -> build -> getDependencies ->
 * resolveClass -> make) is bounded by `fuel`, spent once per make.
 */
module Resolution {
  import opened Php
  import opened Reflection
  import opened Tables

  /** May the key `k` hold an instance that was not in `s`: it already had one
      (under itself or its normalized form), or its normalized form is bound shared. */
  predicate Cacheable(s: State, k: string)
  {
    var n := Normalize(k);
    k in s.instances || n in s.instances || (n in s.bindings && s.bindings[n].shared)
  }

  /** What resolution may change: it only adds instances for cacheable
      names, marks names resolved and allocates objects. The bindings,
      aliases, extenders and rebound callbacks are left alone. */
  predicate Grows(s: State, t: State)
  {
    && t.bindings == s.bindings
    && t.aliases == s.aliases
    && t.extenders == s.extenders
    && t.reboundCallbacks == s.reboundCallbacks
    && s.resolved <= t.resolved
    && s.next <= t.next
    && s.instances.Keys <= t.instances.Keys
    && (forall k :: k in t.instances ==> Cacheable(s, k))
  }

  lemma GrowsRefl(s: State)
    ensures Grows(s, s)
  {
  }

  lemma GrowsTrans(s: State, u: State, t: State)
    requires Grows(s, u) && Grows(u, t)
    ensures Grows(s, t)
  {
    forall k | k in t.instances
      ensures Cacheable(s, k)
    {
      var n := Normalize(k);
      if k !in u.instances && n in u.instances {
        NormalizeIdempotent(k);
        assert Cacheable(s, n);
      }
    }
  }

  /** The object after the first `n` extenders of `fs` have decorated `v`, in order. */
  function Decorated(w: World, v: Value, fs: seq<nat>): Value
  {
    if fs == [] then v else w.decorate(fs[|fs| - 1], Decorated(w, v, fs[..|fs| - 1]))
  }

  /** make: resolves the normalized name through its aliases, then makes what it names. */
  function Make(w: World, s: State, id: string, params: Entries, fuel: nat): (o: Out<Value>)
    ensures Grows(s, o.state)
    ensures fuel == 0 ==> o == Out(Err(OutOfFuel), s)
    ensures fuel > 0 && GetAlias(s, Normalize(id)).None? ==> o == Out(Err(AliasCycle), s)
    decreases fuel, 0, 1
  {
    if fuel == 0 then GrowsRefl(s); Out(Err(OutOfFuel), s)
    else
      match GetAlias(s, Normalize(id))
      case None => GrowsRefl(s); Out(Err(AliasCycle), s)
      case Some(a) => MakeAt(w, s, a, params, fuel)
  }

  /** The rest of make, for the name `a` the aliases lead to: a non-null
      instance is returned as is; otherwise the concrete is built, decorated
      by the extenders in order, cached when the name is shared, and the name
      is marked resolved. */
  function MakeAt(w: World, s: State, a: string, params: Entries, fuel: nat): (o: Out<Value>)
    requires fuel > 0
    ensures Grows(s, o.state)
    ensures Isset(s.instances, a) ==> o == Out(Ok(s.instances[a]), s)
    ensures !Isset(s.instances, a) && o.result.Ok? ==> a in o.state.resolved
    ensures var n := Normalize(a); !Isset(s.instances, a) && o.result.Ok? && n in s.bindings && s.bindings[n].shared ==>
      a in o.state.instances && o.state.instances[a] == o.result.value
    decreases fuel, 0, 0
  {
    if Isset(s.instances, a) then GrowsRefl(s); Out(Ok(s.instances[a]), s)
    else
      // getConcrete always returns something buildable (GetConcrete's
      // contract), so make's `else $this->make($concrete)` branch is dead.
      var b := Build(w, s, GetConcrete(s, a), params, fuel - 1);
      if b.result.Err? then Out(b.result, b.state)
      else
        var v := Decorated(w, b.result.value, Extenders(b.state, a));
        GrowsTrans(s, b.state, Settle(b.state, a, v));
        Out(Ok(v), Settle(b.state, a, v))
  }

  /** The end of make: the object is cached when the name is shared, and the name is marked resolved. */
  function Settle(s: State, a: string, v: Value): (r: State)
    ensures Grows(s, r)
    ensures a in r.resolved && r.next == s.next
    ensures IsShared(s, a) ==> r.instances == s.instances[a := v]
    ensures !IsShared(s, a) ==> r.instances == s.instances
  {
    var s1 := if IsShared(s, a) then s.(instances := s.instances[a := v]) else s;
    s1.(resolved := s1.resolved + {a})
  }

  /** build: calls a closure, or reflects on a class and constructs it with its resolved dependencies. */
  function Build(w: World, s: State, c: Concrete, params: Entries, fuel: nat): (o: Out<Value>)
    ensures Grows(s, o.state)
    ensures c.ClassName? && o.result.Ok? ==>
      && c.name in w.classes && w.classes[c.name].instantiable
      && o.result.value.Obj? && o.result.value.cls == c.name
      && s.next <= o.result.value.id && o.result.value.id + 1 == o.state.next
    ensures c.ClassName? && c.name !in w.classes ==> o == Out(Err(ReflectionFailure), s)
    ensures c.ClassName? && c.name in w.classes && !w.classes[c.name].instantiable ==> o == Out(Err(NotInstantiable), s)
    ensures c.Fn? && c.closure.Wrapper? && c.closure.abstractId != c.closure.concreteId ==>
      o == Make(w, s, c.closure.concreteId, params, fuel)
    ensures c.Fn? && c.closure.Const? ==> o == Out(Ok(c.closure.v), s)
    ensures c.Fn? && c.closure.User? ==> o == Out(Ok(w.invoke(c.closure.fid, s.next)), s.(next := s.next + 1))
    decreases fuel, 3, if c.Fn? then 1 else 0
  {
    match c
    case Fn(Wrapper(a, x)) => if a == x then Build(w, s, ClassName(x), params, fuel) else Make(w, s, x, params, fuel)
    case Fn(Const(v)) => GrowsRefl(s); Out(Ok(v), s)
    case Fn(User(fid)) => Out(Ok(w.invoke(fid, s.next)), s.(next := s.next + 1))
    case ClassName(name) =>
      if name !in w.classes then GrowsRefl(s); Out(Err(ReflectionFailure), s)
      else if !w.classes[name].instantiable then GrowsRefl(s); Out(Err(NotInstantiable), s)
      else
        match w.classes[name].ctor
        case None => Out(Ok(Obj(s.next, name, [])), s.(next := s.next + 1))
        case Some(deps) =>
          var d := Dependencies(w, s, deps, Rekeyed(deps, params, |params|), |deps|, fuel);
          if d.result.Err? then Out(Err(d.result.error), d.state)
          else
            var t := d.state.(next := d.state.next + 1);
            GrowsTrans(s, d.state, t);
            Out(Ok(Obj(d.state.next, name, d.result.value)), t)
  }

  /** resolveNonClass: the default value, or an unresolvable dependency. */
  function ResolveNonClass(p: Param): (r: Result<Value>)
    ensures r.Ok? <==> p.default.Some?
    ensures r.Ok? ==> r.value == p.default.value
    ensures r.Err? ==> r.error == Unresolvable
  {
    if p.default.Some? then Ok(p.default.value) else Err(Unresolvable)
  }

  /** resolveClass: makes the parameter's class; an optional parameter falls
      back to its default when make throws an Exception, and reading a
      default that does not exist throws a ReflectionException. */
  function ResolveClass(w: World, s: State, p: Param, cls: string, fuel: nat): (o: Out<Value>)
    ensures Grows(s, o.state)
    decreases fuel, 1, 0
  {
    var m := Make(w, s, cls, [], fuel);
    if m.result.Err? && Catchable(m.result.error) && p.optional then
      if p.default.Some? then Out(Ok(p.default.value), m.state) else Out(Err(ReflectionFailure), m.state)
    else m
  }

  /** One iteration of getDependencies' loop. The explicit value under the
      parameter's name wins; then an untyped parameter takes its default and
      a typed one is resolved from the container. The parameter's class is
      looked up first, which only the legacy revision can fail. */
  function Dependency(w: World, s: State, p: Param, params: Entries, fuel: nat): (o: Out<Value>)
    ensures Grows(s, o.state)
    ensures ParameterClass(w, p).Err? ==> o == Out(Err(ParameterClass(w, p).error), s)
    ensures ParameterClass(w, p).Ok? && Lookup(params, StrKey(p.name)).Some? ==>
      o == Out(Ok(Lookup(params, StrKey(p.name)).value), s)
    ensures ParameterClass(w, p) == Ok(None) && Lookup(params, StrKey(p.name)).None? ==> o == Out(ResolveNonClass(p), s)
    decreases fuel, 1, 1
  {
    match ParameterClass(w, p)
    case Err(e) => GrowsRefl(s); Out(Err(e), s)
    case Ok(cls) =>
      var given := Lookup(params, StrKey(p.name));
      if given.Some? then GrowsRefl(s); Out(Ok(given.value), s)
      else if cls.None? then GrowsRefl(s); Out(ResolveNonClass(p), s)
      else ResolveClass(w, s, p, cls.value, fuel)
  }

  /** getDependencies over the first `n` constructor parameters, in order, stopping at the first error. */
  function Dependencies(w: World, s: State, deps: seq<Param>, params: Entries, n: nat, fuel: nat): (o: Out<seq<Value>>)
    requires n <= |deps|
    ensures Grows(s, o.state)
    ensures o.result.Ok? ==> |o.result.value| == n
    decreases fuel, 2, n
  {
    if n == 0 then GrowsRefl(s); Out(Ok([]), s)
    else
      var d := Dependencies(w, s, deps, params, n - 1, fuel);
      if d.result.Err? then Out(Err(d.result.error), d.state)
      else
        var e := Dependency(w, d.state, deps[n - 1], params, fuel);
        GrowsTrans(s, d.state, e.state);
        if e.result.Err? then Out(Err(e.result.error), e.state)
        else Out(Ok(d.result.value + [e.result.value]), e.state)
  }

  /** getDependencies gives each parameter the explicit value under its name;
      an untyped parameter without one takes its default, which must exist. */
  lemma {:induction false} DependenciesValues(w: World, s: State, deps: seq<Param>, params: Entries, n: nat, fuel: nat)
    requires n <= |deps|
    ensures var o := Dependencies(w, s, deps, params, n, fuel);
      o.result.Ok? ==> forall i :: 0 <= i < n && Lookup(params, StrKey(deps[i].name)).Some? ==>
        o.result.value[i] == Lookup(params, StrKey(deps[i].name)).value
    ensures var o := Dependencies(w, s, deps, params, n, fuel);
      o.result.Ok? ==> forall i :: 0 <= i < n && Lookup(params, StrKey(deps[i].name)).None? && deps[i].typ.None? ==>
        deps[i].default.Some? && o.result.value[i] == deps[i].default.value
  {
    if n > 0 {
      DependenciesValues(w, s, deps, params, n - 1, fuel);
    }
  }

  /** Each argument getDependencies gathers is what its parameter resolves
      to on the state the parameters before it left behind. */
  lemma DependenciesElements(w: World, s: State, deps: seq<Param>, params: Entries, n: nat, fuel: nat)
    requires n <= |deps|
    ensures var o := Dependencies(w, s, deps, params, n, fuel);
      o.result.Ok? ==> forall i :: 0 <= i < n ==>
        Dependency(w, Dependencies(w, s, deps, params, i, fuel).state, deps[i], params, fuel).result == Ok(o.result.value[i])
  {
    forall i | 0 <= i < n && Dependencies(w, s, deps, params, n, fuel).result.Ok?
      ensures Dependency(w, Dependencies(w, s, deps, params, i, fuel).state, deps[i], params, fuel).result
        == Ok(Dependencies(w, s, deps, params, n, fuel).result.value[i])
    {
      DependenciesElement(w, s, deps, params, n, i, fuel);
    }
  }

  lemma {:induction false} DependenciesElement(w: World, s: State, deps: seq<Param>, params: Entries, n: nat, i: nat, fuel: nat)
    requires i < n <= |deps| && Dependencies(w, s, deps, params, n, fuel).result.Ok?
    ensures Dependency(w, Dependencies(w, s, deps, params, i, fuel).state, deps[i], params, fuel).result
      == Ok(Dependencies(w, s, deps, params, n, fuel).result.value[i])
  {
    var o := Dependencies(w, s, deps, params, n, fuel);
    var d := Dependencies(w, s, deps, params, n - 1, fuel);
    assert d.result.Ok?;
    if i < n - 1 {
      DependenciesElement(w, s, deps, params, n - 1, i, fuel);
      assert o.result.value[i] == d.result.value[i];
    }
  }

  /** getDependencies throws at the first parameter it cannot resolve: once
      the first `k` parameters fail, so do the first `n`, with the same state. */
  lemma {:induction false} DependenciesStop(w: World, s: State, deps: seq<Param>, params: Entries, k: nat, n: nat, fuel: nat)
    requires k <= n <= |deps|
    requires Dependencies(w, s, deps, params, k, fuel).result.Err?
    ensures Dependencies(w, s, deps, params, n, fuel) == Dependencies(w, s, deps, params, k, fuel)
  {
    if n > k {
      DependenciesStop(w, s, deps, params, k, n - 1, fuel);
    }
  }

  // ---------------------------------------------------------------------
  // call
  // ---------------------------------------------------------------------

  /** What `call` hands to `call_user_func_array`: the callable and its argument list. */
  datatype Invocation = Invocation(target: Callback, args: seq<Value>)

  /** isCallableWithAtSign. */
  predicate IsCallableWithAtSign(cb: Callback)
    ensures IsCallableWithAtSign(cb) ==> cb.FunctionName? && |Explode('@', cb.name)| >= 2
  {
    cb.FunctionName? && '@' in cb.name
  }

  /** addDependencyForCallParameter on the arguments gathered so far and the
      explicit parameters not yet used: an explicit value is moved over, a
      class-typed parameter is made, an available default is used, and
      otherwise the parameter is skipped. */
  function CallParameter(w: World, s: State, p: Param, acc: (seq<Value>, Entries), fuel: nat): (o: Out<(seq<Value>, Entries)>)
    ensures Grows(s, o.state)
    ensures o.result.Ok? && Lookup(acc.1, StrKey(p.name)).Some? ==>
      o.result.value == (acc.0 + [Lookup(acc.1, StrKey(p.name)).value], Remove(acc.1, StrKey(p.name)))
    ensures o.result.Ok? && Lookup(acc.1, StrKey(p.name)).None? ==>
      o.result.value.1 == acc.1 && acc.0 <= o.result.value.0 && |o.result.value.0| <= |acc.0| + 1
  {
    var given := Lookup(acc.1, StrKey(p.name));
    if given.Some? then GrowsRefl(s); Out(Ok((acc.0 + [given.value], Remove(acc.1, StrKey(p.name)))), s)
    else
      match ParameterClass(w, p)
      case Err(e) => GrowsRefl(s); Out(Err(e), s)
      case Ok(None) => GrowsRefl(s); Out(Ok(if p.default.Some? then (acc.0 + [p.default.value], acc.1) else acc), s)
      case Ok(Some(cls)) =>
        var m := Make(w, s, cls, [], fuel);
        if m.result.Err? then Out(Err(m.result.error), m.state)
        else Out(Ok((acc.0 + [m.result.value], acc.1)), m.state)
  }

  /** The keys of the parameter names from position `i` on. */
  function NamesFrom(ps: seq<Param>, i: nat): (r: set<Key>)
    requires i <= |ps|
    ensures forall j :: i <= j < |ps| ==> StrKey(ps[j].name) in r
    ensures forall k :: k in r ==> k.StrKey? && exists j :: i <= j < |ps| && ps[j].name == k.s
    decreases |ps| - i
  {
    if i == |ps| then {} else {StrKey(ps[i].name)} + NamesFrom(ps, i + 1)
  }

  /** The loop of getMethodDependencies from the `i`th parameter of the
      callable on, given the arguments gathered and the explicit parameters
      left so far: at most one argument per parameter is appended, and
      exactly the explicit parameters named by none of them are left over. */
  function CallArguments(w: World, s: State, ps: seq<Param>, i: nat, acc: (seq<Value>, Entries), fuel: nat): (o: Out<(seq<Value>, Entries)>)
    requires i <= |ps|
    ensures Grows(s, o.state)
    ensures o.result.Ok? ==> acc.0 <= o.result.value.0 && |o.result.value.0| <= |acc.0| + |ps| - i
    ensures o.result.Ok? ==> o.result.value.1 == Without(acc.1, NamesFrom(ps, i))
    decreases |ps| - i
  {
    if i == |ps| then
      WithoutNothing(acc.1);
      GrowsRefl(s); Out(Ok(acc), s)
    else
      var e := CallParameter(w, s, ps[i], acc, fuel);
      if e.result.Err? then e
      else
        var r := CallArguments(w, e.state, ps, i + 1, e.result.value, fuel);
        GrowsTrans(s, e.state, r.state);
        WithoutRemove(acc.1, StrKey(ps[i].name), NamesFrom(ps, i + 1));
        if Lookup(acc.1, StrKey(ps[i].name)).None? then
          WithoutAbsent(acc.1, StrKey(ps[i].name), NamesFrom(ps, i + 1));
          r
        else r
  }

  /** getMethodDependencies: the gathered arguments followed by the unused explicit parameters. */
  function MethodDependencies(w: World, s: State, cb: Callback, params: Entries, fuel: nat): (o: Out<seq<Value>>)
    ensures Grows(s, o.state)
    ensures o.result.Ok? ==> w.signature(cb).Some?
  {
    match w.signature(cb)
    case None => GrowsRefl(s); Out(Err(ReflectionFailure), s)
    case Some(ps) =>
      var d := CallArguments(w, s, ps, 0, ([], params), fuel);
      if d.result.Err? then Out(Err(d.result.error), d.state)
      else Out(Ok(d.result.value.0 + Values(d.result.value.1)), d.state)
  }

  /** callClass: `Class@method` (or the default method) on an instance made from the container. */
  function CallClass(w: World, s: State, cb: Callback, params: Entries, defaultMethod: Option<string>, fuel: nat): (o: Out<Invocation>)
    ensures Grows(s, o.state)
    ensures o.result.Ok? ==> cb.FunctionName? && o.result.value.target.MethodRef?
    ensures o.result.Ok? && |Explode('@', cb.name)| == 2 ==> o.result.value.target.methodName == Explode('@', cb.name)[1]
    ensures o.result.Ok? && |Explode('@', cb.name)| != 2 ==> defaultMethod == Some(o.result.value.target.methodName)
    ensures o.result.Ok? ==> Make(w, s, Explode('@', cb.name)[0], [], fuel).result == Ok(o.result.value.target.receiver)
  {
    if !cb.FunctionName? then GrowsRefl(s); Out(Err(TypeError), s)
    else
      var segs := Explode('@', cb.name);
      var m := if |segs| == 2 then Some(segs[1]) else defaultMethod;
      if m.None? then GrowsRefl(s); Out(Err(MethodNotProvided), s)
      else
        var obj := Make(w, s, segs[0], [], fuel);
        if obj.result.Err? then Out(Err(obj.result.error), obj.state)
        else
          // call([$object, $method], $parameters) takes neither the @ branch nor a default method.
          var target := MethodRef(obj.result.value, m.value);
          var d := MethodDependencies(w, obj.state, target, params, fuel);
          GrowsTrans(s, obj.state, d.state);
          if d.result.Err? then Out(Err(d.result.error), d.state)
          else Out(Ok(Invocation(target, d.result.value)), d.state)
  }

  /** call: derives the arguments of the callable; what the callable then does is not modelled. */
  function Call(w: World, s: State, cb: Callback, params: Entries, defaultMethod: Option<string>, fuel: nat): (o: Out<Invocation>)
    ensures Grows(s, o.state)
  {
    if IsCallableWithAtSign(cb) || Truthy(defaultMethod) then CallClass(w, s, cb, params, defaultMethod, fuel)
    else
      var d := MethodDependencies(w, s, cb, params, fuel);
      if d.result.Err? then Out(Err(d.result.error), d.state)
      else Out(Ok(Invocation(cb, d.result.value)), d.state)
  }
}
