/**
 * What the container promises its users, proved about the model: sharing,
 * fresh transient objects, alias resolution, what bind, bindIf, instance,
 * extend and offsetUnset leave behind, and how constructor and call
 * arguments are assembled.
 */
module Properties {
  import opened Php
  import opened Reflection
  import opened Tables
  import opened Resolution
  import opened Registry

  // ---------------------------------------------------------------------
  // make
  // ---------------------------------------------------------------------

  /** make only looks at what the name resolves to: names with the same alias target make the same. */
  lemma MakeFollowsAlias(w: World, s: State, x: string, y: string, params: Entries, fuel: nat)
    requires GetAlias(s, Normalize(x)) == GetAlias(s, Normalize(y))
    ensures Make(w, s, x, params, fuel) == Make(w, s, y, params, fuel)
  {
  }

  /** A non-null instance is returned as is, and nothing changes. */
  lemma MakeReturnsInstance(w: World, s: State, id: string, params: Entries, fuel: nat)
    requires fuel > 0
    requires GetAlias(s, Normalize(id)).Some? && Isset(s.instances, GetAlias(s, Normalize(id)).value)
    ensures Make(w, s, id, params, fuel) == Out(Ok(s.instances[GetAlias(s, Normalize(id)).value]), s)
  {
  }

  /** After a successful make, `resolved` holds for the name. */
  lemma MakeResolves(w: World, s: State, id: string, params: Entries, fuel: nat)
    requires Make(w, s, id, params, fuel).result.Ok?
    ensures Resolved(Make(w, s, id, params, fuel).state, id) == Ok(true)
  {
    var a := GetAlias(s, Normalize(id)).value;
    var o := MakeAt(w, s, a, params, fuel);
    assert Make(w, s, id, params, fuel) == o;
    assert o.state.aliases == s.aliases;
    ResolvedAt(o.state, id, a);
  }

  /** resolved holds for a name whose alias target was resolved or has an instance. */
  lemma ResolvedAt(t: State, id: string, a: string)
    requires GetAlias(t, Normalize(id)) == Some(a)
    requires a in t.resolved || Isset(t.instances, a)
    ensures Resolved(t, id) == Ok(true)
  {
    var n := Normalize(id);
    NormalizeIdempotent(id);
    if n !in t.aliases {
      assert a == n;
    }
  }

  /** A name bound shared makes the same object every time (as long as it is not null). */
  lemma SharedMakeTwice(w: World, s: State, id: string, p1: Entries, p2: Entries, f1: nat, f2: nat)
    requires GetAlias(s, Normalize(id)).Some?
    requires var n := Normalize(GetAlias(s, Normalize(id)).value); n in s.bindings && s.bindings[n].shared
    requires Make(w, s, id, p1, f1).result.Ok? && Make(w, s, id, p1, f1).result.value != Null
    requires f2 > 0
    ensures var o := Make(w, s, id, p1, f1); Make(w, o.state, id, p2, f2) == Out(o.result, o.state)
  {
    var a := GetAlias(s, Normalize(id)).value;
    var o := MakeAt(w, s, a, p1, f1);
    assert Make(w, s, id, p1, f1) == o;
    assert GetAlias(o.state, Normalize(id)) == Some(a);
    assert Isset(o.state.instances, a);
    assert Make(w, o.state, id, p2, f2) == MakeAt(w, o.state, a, p2, f2);
  }

  /** make of a name with no instance: build the concrete, decorate, settle. */
  lemma MakeAtUnfold(w: World, s: State, a: string, params: Entries, fuel: nat)
    requires fuel > 0 && !Isset(s.instances, a)
    ensures var b := Build(w, s, GetConcrete(s, a), params, fuel - 1);
      MakeAt(w, s, a, params, fuel) ==
        if b.result.Err? then Out(b.result, b.state)
        else Out(Ok(Decorated(w, b.result.value, Extenders(b.state, a))), Settle(b.state, a, Decorated(w, b.result.value, Extenders(b.state, a))))
  {
  }

  /** make of an unshared class name builds a fresh object of that class and does not cache it. */
  lemma TransientBuild(w: World, s: State, id: string, params: Entries, fuel: nat)
    requires var n := Normalize(id); n !in s.aliases && n !in s.instances && Extenders(s, n) == []
    requires var n := Normalize(id); n !in s.bindings || s.bindings[n] == Binding(Wrapper(n, n), false)
    requires Make(w, s, id, params, fuel).result.Ok?
    ensures var o := Make(w, s, id, params, fuel);
      && o.result.value.Obj? && o.result.value.cls == Normalize(id)
      && s.next <= o.result.value.id < o.state.next
      && Normalize(id) !in o.state.instances
  {
    var n := Normalize(id);
    assert GetAlias(s, n) == Some(n);
    assert Make(w, s, id, params, fuel) == MakeAt(w, s, n, params, fuel);
    TransientMakeAt(w, s, n, params, fuel);
  }

  lemma TransientMakeAt(w: World, s: State, n: string, params: Entries, fuel: nat)
    requires IsNormalized(n) && n !in s.instances && Extenders(s, n) == []
    requires n !in s.bindings || s.bindings[n] == Binding(Wrapper(n, n), false)
    requires fuel > 0 && MakeAt(w, s, n, params, fuel).result.Ok?
    ensures var o := MakeAt(w, s, n, params, fuel);
      && o.result.value.Obj? && o.result.value.cls == n
      && s.next <= o.result.value.id < o.state.next
      && n !in o.state.instances
  {
    var b := Build(w, s, ClassName(n), params, fuel - 1);
    var o := MakeAt(w, s, n, params, fuel);
    assert b.result.Ok? && o == Out(Ok(b.result.value), Settle(b.state, n, b.result.value)) by {
      SelfBindingBuildsClass(w, s, n, params, fuel - 1);
      MakeAtUnfold(w, s, n, params, fuel);
      assert Extenders(b.state, n) == [];
    }
    assert n !in b.state.instances && !IsShared(b.state, n) by {
      NormalizeFixesNormalized(n);
      assert !Cacheable(s, n);
    }
  }

  /** Two makes of a transient class name (unbound, or bound to itself
      unshared, without extenders) give two distinct objects of that class. */
  lemma TransientMakeTwice(w: World, s: State, id: string, p1: Entries, p2: Entries, f1: nat, f2: nat)
    requires var n := Normalize(id); n !in s.aliases && n !in s.instances && Extenders(s, n) == []
    requires var n := Normalize(id); n !in s.bindings || s.bindings[n] == Binding(Wrapper(n, n), false)
    requires Make(w, s, id, p1, f1).result.Ok?
    requires Make(w, Make(w, s, id, p1, f1).state, id, p2, f2).result.Ok?
    ensures var o1 := Make(w, s, id, p1, f1); var o2 := Make(w, o1.state, id, p2, f2);
      && o1.result.value.Obj? && o2.result.value.Obj?
      && o1.result.value.cls == Normalize(id) && o2.result.value.cls == Normalize(id)
      && o1.result.value.id < o2.result.value.id
  {
    var o1 := Make(w, s, id, p1, f1);
    TransientBuild(w, s, id, p1, f1);
    TransientBuild(w, o1.state, id, p2, f2);
  }

  /** A name bound unshared to another class (`bind(n, X::class)`, stored as
      getClosure's closure) is made through make(X): a fresh object of X,
      cached neither under the name nor under X. */
  lemma IndirectMakeAt(w: World, s: State, n: string, x: string, params: Entries, fuel: nat)
    requires IsNormalized(n) && n !in s.instances && Extenders(s, n) == []
    requires n in s.bindings && s.bindings[n] == Binding(Wrapper(n, x), false) && x != n
    requires IsNormalized(x) && x !in s.aliases && x !in s.instances && Extenders(s, x) == []
    requires x !in s.bindings || s.bindings[x] == Binding(Wrapper(x, x), false)
    requires fuel > 0 && MakeAt(w, s, n, params, fuel).result.Ok?
    ensures var o := MakeAt(w, s, n, params, fuel);
      && o.result.value.Obj? && o.result.value.cls == x
      && s.next <= o.result.value.id < o.state.next
      && n !in o.state.instances && x !in o.state.instances
  {
    var b := Build(w, s, GetConcrete(s, n), params, fuel - 1);
    var o := MakeAt(w, s, n, params, fuel);
    assert b.result.Ok? && o == Out(Ok(b.result.value), Settle(b.state, n, b.result.value)) by {
      MakeAtUnfold(w, s, n, params, fuel);
      assert Extenders(b.state, n) == [];
    }
    assert b == MakeAt(w, s, x, params, fuel - 1) by {
      NormalizeFixesNormalized(x);
      assert GetAlias(s, x) == Some(x);
    }
    TransientMakeAt(w, s, x, params, fuel - 1);
    assert n !in b.state.instances && !IsShared(b.state, n) by {
      NormalizeFixesNormalized(n);
      assert !Cacheable(s, n);
    }
  }

  /** make of a name bound unshared to another class, through the name as given. */
  lemma IndirectBuild(w: World, s: State, id: string, x: string, params: Entries, fuel: nat)
    requires var n := Normalize(id); n !in s.aliases && n !in s.instances && Extenders(s, n) == []
    requires var n := Normalize(id); n in s.bindings && s.bindings[n] == Binding(Wrapper(n, x), false) && x != n
    requires IsNormalized(x) && x !in s.aliases && x !in s.instances && Extenders(s, x) == []
    requires x !in s.bindings || s.bindings[x] == Binding(Wrapper(x, x), false)
    requires Make(w, s, id, params, fuel).result.Ok?
    ensures var o := Make(w, s, id, params, fuel);
      && o.result.value.Obj? && o.result.value.cls == x
      && s.next <= o.result.value.id < o.state.next
      && Normalize(id) !in o.state.instances && x !in o.state.instances
  {
    var n := Normalize(id);
    assert GetAlias(s, n) == Some(n);
    assert Make(w, s, id, params, fuel) == MakeAt(w, s, n, params, fuel);
    IndirectMakeAt(w, s, n, x, params, fuel);
  }

  /** Two makes of a name bound unshared to another class give two distinct
      objects of that class (`bind('book', ThreeBody::class)`: `$a !== $b`). */
  lemma IndirectMakeTwice(w: World, s: State, id: string, x: string, p1: Entries, p2: Entries, f1: nat, f2: nat)
    requires var n := Normalize(id); n !in s.aliases && n !in s.instances && Extenders(s, n) == []
    requires var n := Normalize(id); n in s.bindings && s.bindings[n] == Binding(Wrapper(n, x), false) && x != n
    requires IsNormalized(x) && x !in s.aliases && x !in s.instances && Extenders(s, x) == []
    requires x !in s.bindings || s.bindings[x] == Binding(Wrapper(x, x), false)
    requires Make(w, s, id, p1, f1).result.Ok?
    requires Make(w, Make(w, s, id, p1, f1).state, id, p2, f2).result.Ok?
    ensures var o1 := Make(w, s, id, p1, f1); var o2 := Make(w, o1.state, id, p2, f2);
      && o1.result.value.Obj? && o2.result.value.Obj?
      && o1.result.value.cls == x && o2.result.value.cls == x
      && o1.result.value.id < o2.result.value.id
  {
    var o1 := Make(w, s, id, p1, f1);
    IndirectBuild(w, s, id, x, p1, f1);
    IndirectBuild(w, o1.state, id, x, p2, f2);
  }

  // ---------------------------------------------------------------------
  // build
  // ---------------------------------------------------------------------

  /** build passes each constructor parameter the explicit value keyed by
      its name or its position, the positional one taking precedence. */
  lemma BuildUsesExplicit(w: World, s: State, cls: string, params: Entries, fuel: nat, i: nat)
    requires Build(w, s, ClassName(cls), params, fuel).result.Ok?
    requires cls in w.classes && w.classes[cls].ctor.Some? && i < |w.classes[cls].ctor.value|
    requires var deps := w.classes[cls].ctor.value; KeyedValue(deps, params, |params|, deps[i].name).Some?
    ensures var deps := w.classes[cls].ctor.value; var args := Build(w, s, ClassName(cls), params, fuel).result.value.args;
      |args| == |deps| && args[i] == KeyedValue(deps, params, |params|, deps[i].name).value
  {
    var deps := w.classes[cls].ctor.value;
    KeyedByArgument(deps, params);
    DependenciesValues(w, s, deps, Rekeyed(deps, params, |params|), |deps|, fuel);
  }

  /** A typed constructor parameter without an explicit value is made from
      the container; a failure is replaced by the default only for an optional
      parameter and an Exception, and otherwise propagates. */
  lemma TypedDependency(w: World, s: State, p: Param, params: Entries, cls: string, fuel: nat)
    requires ParameterClass(w, p) == Ok(Some(cls)) && Lookup(params, StrKey(p.name)).None?
    ensures var m := Make(w, s, cls, [], fuel); var o := Dependency(w, s, p, params, fuel);
      && o.state == m.state
      && (m.result.Ok? ==> o.result == m.result)
      && (m.result.Err? && !(Catchable(m.result.error) && p.optional) ==> o.result == m.result)
      && (m.result.Err? && Catchable(m.result.error) && p.optional ==>
            o.result == if p.default.Some? then Ok(p.default.value) else Err(ReflectionFailure))
  {
  }

  /** Self-binding: a name bound to itself builds exactly as the unbound name does. */
  lemma SelfBindingBuildsClass(w: World, s: State, a: string, params: Entries, fuel: nat)
    requires a !in s.bindings || s.bindings[a].concrete == Wrapper(a, a)
    ensures Build(w, s, GetConcrete(s, a), params, fuel) == Build(w, s, ClassName(a), params, fuel)
  {
  }

  /** getClosure's closure for a class name builds that class when it is the
      key itself, and makes it otherwise, passing the parameters on. */
  lemma ClosureBuilds(w: World, s: State, a: string, x: string, params: Entries, fuel: nat)
    ensures var c := Fn(ClosureFor(a, Some(ClassName(x))));
      && (Normalize(x) == a ==> Build(w, s, c, params, fuel) == Build(w, s, ClassName(a), params, fuel))
      && (Normalize(x) != a ==> Build(w, s, c, params, fuel) == Make(w, s, Normalize(x), params, fuel))
  {
  }

  // ---------------------------------------------------------------------
  // the two revisions
  // ---------------------------------------------------------------------

  /** The legacy revision asks for the parameter's class before looking at
      the explicit values, so an unknown class fails even when a value is
      given; the current revision uses the value. */
  lemma DependencyRevisions(w: World, s: State, p: Param, params: Entries, fuel: nat)
    requires p.typ.Some? && p.typ.value.ClassType? && p.typ.value.name !in w.classes
    requires Lookup(params, StrKey(p.name)).Some?
    ensures w.revision.Legacy? ==> Dependency(w, s, p, params, fuel) == Out(Err(ReflectionFailure), s)
    ensures w.revision.Current? ==> Dependency(w, s, p, params, fuel) == Out(Ok(Lookup(params, StrKey(p.name)).value), s)
  {
  }

  /** Without an explicit value, a builtin-typed parameter takes its default
      in the legacy revision, but is made from the container in the current one. */
  lemma BuiltinDependency(w: World, s: State, p: Param, params: Entries, fuel: nat)
    requires p.typ.Some? && p.typ.value.BuiltinType?
    requires Lookup(params, StrKey(p.name)).None?
    ensures w.revision.Legacy? ==> Dependency(w, s, p, params, fuel) == Out(ResolveNonClass(p), s)
    ensures w.revision.Current? ==> Dependency(w, s, p, params, fuel) == ResolveClass(w, s, p, p.typ.value.name, fuel)
  {
  }

  // ---------------------------------------------------------------------
  // alias and bind
  // ---------------------------------------------------------------------

  /** After alias(id, alias), the alias resolves exactly as the (normalized) id does. */
  lemma AliasResolves(s: State, id: string, alias: string)
    requires alias != id
    ensures var t := Alias(s, id, alias).value;
      GetAlias(t, alias) == GetAlias(t, Normalize(id)) && (IsNormalized(alias) ==> Bound(t, alias))
  {
    var t := Alias(s, id, alias).value;
    GetAliasFollows(t, alias);
    if IsNormalized(alias) {
      NormalizeFixesNormalized(alias);
    }
  }

  /** alias changes whether a name is bound only for the name it records:
      every name whose normalized form is not the alias is as bound as before. */
  lemma AliasKeepsBound(s: State, id: string, alias: string, y: string)
    requires alias != id && Normalize(y) != alias
    ensures Bound(Alias(s, id, alias).value, y) == Bound(s, y)
  {
    NormalizeIdempotent(y);
  }

  lemma {:induction false} ChaseSelfLoop(al: map<string, string>, x: string, fuel: nat)
    requires x in al && al[x] == x
    ensures Chase(al, x, fuel) == None
  {
    if fuel > 0 {
      ChaseSelfLoop(al, x, fuel - 1);
    }
  }

  /** The self-alias check compares the names before normalization, so
      `alias('\x', 'x')` records `x -> x`, and a make of `x` right after it loops. */
  lemma AliasSelfLoop(w: World, s: State, fuel: nat)
    requires fuel > 0
    ensures Alias(s, "\\x", "x").Ok?
    ensures Make(w, Alias(s, "\\x", "x").value, "x", [], fuel).result == Err(AliasCycle)
  {
    assert Normalize("\\x") == "x" by {
      assert "\\x"[1..] == "x";
    }
    var t := Alias(s, "\\x", "x").value;
    assert t.aliases == s.aliases["x" := "x"];
    NormalizeFixesNormalized("x");
    ChaseSelfLoop(t.aliases, "x", |t.aliases|);
    assert GetAlias(t, Normalize("x")) == None;
    MakeAliasCycle(w, t, "x", [], fuel);
  }

  lemma MakeAliasCycle(w: World, s: State, id: string, params: Entries, fuel: nat)
    requires fuel > 0 && GetAlias(s, Normalize(id)) == None
    ensures Make(w, s, id, params, fuel).result == Err(AliasCycle)
  {
  }

  /** An instance that appears under a normalized key without one must come from a shared binding. */
  lemma NewInstanceShared(r: State, t: State, a: string)
    requires Grows(r, t) && IsNormalized(a) && a !in r.instances && a in t.instances
    ensures a in r.bindings && r.bindings[a].shared
  {
    NormalizeFixesNormalized(a);
    assert Cacheable(r, a);
  }

  /** bind registers what it was given under the key, forgets the key's
      alias and stale instance, and afterwards holds an instance for the key
      only when the binding is shared (one made by the rebound). */
  lemma BindRegisters(w: World, s: State, ab: Abstract, concrete: Option<Concrete>, shared: bool, fuel: nat)
    requires !(ab.Pair? && ab.alias == ab.target)
    ensures var a := KeyOf(ab); var t := Bind(w, s, ab, concrete, shared, fuel).state;
      && t.bindings == s.bindings[a := Binding(ClosureFor(a, concrete), shared)]
      && a !in t.aliases
      && (ab.Name? && a in t.instances ==> shared)
      && (ab.Pair? ==> t.aliases[ab.alias] == Normalize(ab.target))
  {
    var a := KeyOf(ab);
    var s1 := AliasStep(s, ab).value;
    var r := Rebind(s1, a, ClosureFor(a, concrete), shared);
    var t := Bind(w, s, ab, concrete, shared, fuel).state;
    assert Grows(r, t);
    if ab.Name? && a in t.instances {
      assert a !in r.instances;
      NewInstanceShared(r, t, a);
    }
    if ab.Pair? {
      assert s1.aliases[ab.alias] == Normalize(ab.target);
      assert r.aliases == s1.aliases - {a};
    }
  }

  /** Once `al` is an alias of a shared, unaliased `t`, making `t` and then
      `al` yields the same object twice and changes nothing the second time. */
  lemma AliasOfSharedMakesSame(w: World, b: State, t: string, al: string, f1: nat, f2: nat)
    requires IsNormalized(t) && IsNormalized(al) && f2 > 0
    requires t !in b.aliases && al in b.aliases && b.aliases[al] == t
    requires t in b.bindings && b.bindings[t].shared
    requires Make(w, b, t, [], f1).result.Ok? && Make(w, b, t, [], f1).result.value != Null
    ensures var o := Make(w, b, t, [], f1); Make(w, o.state, al, [], f2) == Out(o.result, o.state)
  {
    var o := Make(w, b, t, [], f1);
    NormalizeFixesNormalized(t);
    NormalizeFixesNormalized(al);
    assert GetAlias(b, t) == Some(t);
    SharedMakeTwice(w, b, t, [], [], f1, f2);
    GetAliasFollows(o.state, al);
    MakeFollowsAlias(w, o.state, al, t, [], f2);
  }

  /** After `bind([t => al], c, true)`, the alias makes the very object the
      key made: a make of `al` returns it again and changes nothing. */
  lemma BindPairShares(w: World, s: State, t: string, al: string, concrete: Option<Concrete>, fuel: nat, f1: nat, f2: nat)
    requires t != al && IsNormalized(t) && IsNormalized(al) && f2 > 0
    requires var b := Bind(w, s, Pair(t, al), concrete, true, fuel).state;
      Make(w, b, t, [], f1).result.Ok? && Make(w, b, t, [], f1).result.value != Null
    ensures var b := Bind(w, s, Pair(t, al), concrete, true, fuel).state; var o := Make(w, b, t, [], f1);
      Make(w, o.state, al, [], f2) == Out(o.result, o.state)
  {
    var b := Bind(w, s, Pair(t, al), concrete, true, fuel).state;
    BindRegisters(w, s, Pair(t, al), concrete, true, fuel);
    NormalizeFixesNormalized(t);
    AliasOfSharedMakesSame(w, b, t, al, f1, f2);
  }

  /** A pair `[id => alias]` refuses an alias equal to its id and changes nothing. */
  lemma BindSelfAlias(w: World, s: State, id: string, concrete: Option<Concrete>, shared: bool, fuel: nat)
    ensures Bind(w, s, Pair(id, id), concrete, shared, fuel) == Out(Err(AliasedToItself), s)
  {
  }

  /** resolved is false for a normalized name with no alias, no instance and no resolved mark. */
  lemma NotResolved(t: State, n: string)
    requires IsNormalized(n) && n !in t.aliases && n !in t.instances && n !in t.resolved
    ensures Resolved(t, n) == Ok(false)
  {
    NormalizeFixesNormalized(n);
  }

  /** bind does not remake a name that was never resolved: it only registers. */
  lemma BindUnresolved(w: World, s: State, id: string, concrete: Option<Concrete>, shared: bool, fuel: nat)
    requires Normalize(id) !in s.resolved
    ensures var n := Normalize(id);
      Bind(w, s, Name(id), concrete, shared, fuel) == Out(Ok(()), Rebind(s, n, ClosureFor(n, concrete), shared))
  {
    var n := Normalize(id);
    NotResolved(Rebind(s, n, ClosureFor(n, concrete), shared), n);
  }

  /** A bound name is left alone by bindIf; an unbound one is bound as by bind. */
  lemma BindIfKeeps(w: World, s: State, id: string, concrete: Option<Concrete>, shared: bool, fuel: nat)
    ensures Bound(s, id) ==> BindIf(w, s, id, concrete, shared, fuel) == Out(Ok(()), s)
    ensures !Bound(s, id) ==>
      BindIf(w, s, id, concrete, shared, fuel).state.bindings[Normalize(id)] == Binding(ClosureFor(Normalize(id), concrete), shared)
  {
    if !Bound(s, id) {
      BindRegisters(w, s, Name(id), concrete, shared, fuel);
    }
  }

  /** bind of a name that was resolved before, with a shared binding, remakes
      it at once: afterwards the object made from the new binding is cached
      as its instance. */
  lemma BindRemakesShared(w: World, s: State, id: string, concrete: Option<Concrete>, fuel: nat)
    requires Normalize(id) in s.resolved
    requires Bind(w, s, Name(id), concrete, true, fuel).result.Ok?
    ensures var n := Normalize(id); var m := Make(w, Rebind(s, n, ClosureFor(n, concrete), true), n, [], fuel);
      var t := Bind(w, s, Name(id), concrete, true, fuel).state;
      && m.result.Ok? && t == m.state
      && n in t.instances && t.instances[n] == m.result.value
  {
    var n := Normalize(id);
    var r := Rebind(s, n, ClosureFor(n, concrete), true);
    NormalizeIdempotent(id);
    assert Resolved(r, n) == Ok(true);
    var m := Make(w, r, n, [], fuel);
    assert m.result.Ok? && Bind(w, s, Name(id), concrete, true, fuel).state == m.state;
    assert GetAlias(r, n) == Some(n);
    assert m == MakeAt(w, r, n, [], fuel);
  }

  /** singleton registers what it is given as a shared binding. */
  lemma SingletonRegisters(w: World, s: State, ab: Abstract, concrete: Option<Concrete>, fuel: nat)
    requires !(ab.Pair? && ab.alias == ab.target)
    ensures Singleton(w, s, ab, concrete, fuel).state.bindings[KeyOf(ab)] == Binding(ClosureFor(KeyOf(ab), concrete), true)
  {
    BindRegisters(w, s, ab, concrete, true, fuel);
  }

  /** `$app[key] = v` binds a closure returning the plain value (or the
      closure given), unshared; a later make of the key returns the value (or
      calls the closure). */
  lemma OffsetSetMakes(w: World, s: State, key: string, g: Given, fuel: nat, f: nat)
    requires Extenders(s, Normalize(key)) == [] && f > 0
    ensures var n := Normalize(key); var t := OffsetSet(w, s, key, g, fuel).state;
      && n in t.bindings && !t.bindings[n].shared
      && (g.Plain? ==> Make(w, t, key, [], f).result == Ok(g.v))
      && (g.GivenClosure? ==> Make(w, t, key, [], f).result == Ok(w.invoke(g.fid, t.next)))
  {
    var n := Normalize(key);
    var c := match g case Plain(v) => Const(v) case GivenClosure(fid) => User(fid);
    var t := OffsetSet(w, s, key, g, fuel).state;
    BindRegisters(w, s, Name(key), Some(Fn(c)), false, fuel);
    assert t.bindings[n] == Binding(c, false) && n !in t.aliases && n !in t.instances;
    NormalizeIdempotent(key);
    assert GetAlias(t, n) == Some(n);
    assert Make(w, t, key, [], f) == MakeAt(w, t, n, [], f);
    MakeAtUnfold(w, t, n, [], f);
    assert Extenders(t, n) == [];
  }

  // ---------------------------------------------------------------------
  // instance, extend, offsetUnset
  // ---------------------------------------------------------------------

  /** make of a normalized name with no alias returns its non-null instance. */
  lemma MakeInstance(w: World, t: State, n: string, params: Entries, fuel: nat)
    requires fuel > 0 && IsNormalized(n) && n !in t.aliases && Isset(t.instances, n)
    ensures Make(w, t, n, params, fuel) == Out(Ok(t.instances[n]), t)
  {
    NormalizeFixesNormalized(n);
    assert GetAlias(t, n) == Some(n);
  }

  /** instance registers a non-null value: any rebound returns it unchanged,
      the name is shared and resolved, and a later make returns the value. */
  lemma InstanceRegisters(w: World, s: State, id: string, v: Value, fuel: nat, f: nat, params: Entries)
    requires v != Null && fuel > 0 && f > 0
    ensures var o := Instance(w, s, Name(id), v, fuel);
      && o == Out(Ok(()), PutInstance(s, Normalize(id), v))
      && IsShared(o.state, id) && Resolved(o.state, id) == Ok(true)
      && Make(w, o.state, id, params, f) == Out(Ok(v), o.state)
  {
    InstanceByName(w, s, id, v, fuel);
    PutInstanceMakes(w, s, id, v, params, f);
  }

  /** instance of a name with a non-null value registers it; a rebound changes nothing more. */
  lemma InstanceByName(w: World, s: State, id: string, v: Value, fuel: nat)
    requires v != Null && fuel > 0
    ensures Instance(w, s, Name(id), v, fuel) == Out(Ok(()), PutInstance(s, Normalize(id), v))
  {
    var n := Normalize(id);
    var t := PutInstance(s, n, v);
    assert AliasStep(s, Name(id)) == Ok(s);
    ReboundInstance(w, t, n, fuel);
  }

  /** A registered non-null instance is shared and resolved, and make returns it. */
  lemma PutInstanceMakes(w: World, s: State, id: string, v: Value, params: Entries, f: nat)
    requires v != Null && f > 0
    ensures var t := PutInstance(s, Normalize(id), v);
      IsShared(t, id) && Resolved(t, id) == Ok(true) && Make(w, t, id, params, f) == Out(Ok(v), t)
  {
    var n := Normalize(id);
    var t := PutInstance(s, n, v);
    NormalizeIdempotent(id);
    assert GetAlias(t, n) == Some(n);
    MakeInstance(w, t, n, params, f);
    MakeFollowsAlias(w, t, id, n, params, f);
    ResolvedAt(t, id, n);
  }

  /** The current revision types instance's name as a string and refuses the pair form. */
  lemma InstancePairCurrent(w: World, s: State, id: string, alias: string, v: Value, fuel: nat)
    requires w.revision.Current?
    ensures Instance(w, s, Pair(id, alias), v, fuel) == Out(Err(TypeError), s)
  {
  }

  /** The legacy revision accepts the pair form: it registers the alias and
      the instance, and the alias then makes the instance. */
  lemma InstancePairLegacy(w: World, s: State, id: string, alias: string, v: Value, fuel: nat, f: nat)
    requires w.revision.Legacy? && alias != id && IsNormalized(id) && IsNormalized(alias)
    requires v != Null && fuel > 0 && f > 0
    ensures var t := PutInstance(Alias(s, id, alias).value, id, v);
      Instance(w, s, Pair(id, alias), v, fuel) == Out(Ok(()), t) && Make(w, t, alias, [], f) == Out(Ok(v), t)
  {
    var t := PutInstance(Alias(s, id, alias).value, id, v);
    InstancePairRegisters(w, s, id, alias, v, fuel);
    PairAliasState(s, id, alias, v);
    AliasMakesTarget(w, t, alias, id, f);
  }

  lemma InstancePairRegisters(w: World, s: State, id: string, alias: string, v: Value, fuel: nat)
    requires w.revision.Legacy? && alias != id && IsNormalized(id) && v != Null && fuel > 0
    ensures Instance(w, s, Pair(id, alias), v, fuel) == Out(Ok(()), PutInstance(Alias(s, id, alias).value, id, v))
  {
    var s1 := s.(aliases := s.aliases[alias := Normalize(id)]);
    assert AliasStep(s, Pair(id, alias)) == Ok(s1);
    var t := PutInstance(s1, id, v);
    ReboundInstance(w, t, id, fuel);
  }

  /** The rebound of a normalized, unaliased name with a non-null instance changes nothing. */
  lemma ReboundInstance(w: World, t: State, n: string, fuel: nat)
    requires fuel > 0 && IsNormalized(n) && n !in t.aliases && Isset(t.instances, n)
    ensures Rebound(w, t, n, fuel) == Out(Ok(()), t)
  {
    MakeInstance(w, t, n, [], fuel);
  }

  lemma PairAliasState(s: State, id: string, alias: string, v: Value)
    requires alias != id && IsNormalized(id) && v != Null
    ensures var t := PutInstance(Alias(s, id, alias).value, id, v);
      alias in t.aliases && t.aliases[alias] == id && id !in t.aliases && Isset(t.instances, id) && t.instances[id] == v
  {
    NormalizeFixesNormalized(id);
  }

  /** A normalized alias of a normalized name with a non-null instance makes that instance. */
  lemma AliasMakesTarget(w: World, t: State, alias: string, id: string, f: nat)
    requires IsNormalized(id) && IsNormalized(alias) && f > 0
    requires alias in t.aliases && t.aliases[alias] == id && id !in t.aliases && Isset(t.instances, id)
    ensures Make(w, t, alias, [], f) == Out(Ok(t.instances[id]), t)
  {
    NormalizeFixesNormalized(id);
    NormalizeFixesNormalized(alias);
    MakeInstance(w, t, id, [], f);
    GetAliasFollows(t, alias);
    MakeFollowsAlias(w, t, alias, id, [], f);
  }

  /** extend on a name without an instance queues the extender after the existing ones. */
  lemma ExtendQueues(w: World, s: State, id: string, fid: nat, fuel: nat)
    requires !Isset(s.instances, Normalize(id))
    ensures var t := Extend(w, s, id, fid, fuel).state;
      Extenders(t, Normalize(id)) == Extenders(s, Normalize(id)) + [fid]
      && t == s.(extenders := t.extenders)
  {
  }

  /** A queued extender decorates the object after all earlier ones. */
  lemma DecoratedAppend(w: World, v: Value, fs: seq<nat>, fid: nat)
    ensures Decorated(w, v, fs + [fid]) == w.decorate(fid, Decorated(w, v, fs))
  {
    assert (fs + [fid])[..|fs|] == fs;
  }

  /** extend on an existing instance replaces it with the decorated one,
      which the rebound then returns unchanged. */
  lemma ExtendInstance(w: World, s: State, id: string, fid: nat, fuel: nat)
    requires var n := Normalize(id); Isset(s.instances, n) && n !in s.aliases
    requires w.decorate(fid, s.instances[Normalize(id)]) != Null && fuel > 0
    ensures var n := Normalize(id);
      Extend(w, s, id, fid, fuel) == Out(Ok(()), s.(instances := s.instances[n := w.decorate(fid, s.instances[n])]))
  {
    var n := Normalize(id);
    NormalizeIdempotent(id);
    MakeInstance(w, s.(instances := s.instances[n := w.decorate(fid, s.instances[n])]), n, [], fuel);
  }

  /** offsetUnset forgets the name: it stays bound only through an alias. */
  lemma OffsetUnsetUnbinds(s: State, key: string)
    ensures Bound(OffsetUnset(s, key), key) <==> IsAlias(s, key)
  {
    NormalizeIdempotent(key);
  }

  /** offsetUnset clears the resolved mark of a name that is not an alias. */
  lemma OffsetUnsetUnresolves(s: State, key: string)
    requires !IsAlias(s, key)
    ensures Resolved(OffsetUnset(s, key), key) == Ok(false)
  {
    NormalizeIdempotent(key);
  }

  /** offsetUnset touches no other name. */
  lemma OffsetUnsetOthers(s: State, key: string, k: string)
    requires k != Normalize(key)
    ensures var t := OffsetUnset(s, key);
      && (k in t.bindings <==> k in s.bindings) && (k in t.bindings ==> t.bindings[k] == s.bindings[k])
      && (k in t.instances <==> k in s.instances) && (k in t.instances ==> t.instances[k] == s.instances[k])
      && (k in t.resolved <==> k in s.resolved)
  {
  }

  // ---------------------------------------------------------------------
  // call
  // ---------------------------------------------------------------------

  /** call on a callable without `@` and without a default method invokes it
      with the gathered arguments followed by the explicit values no parameter named. */
  lemma CallDirect(w: World, s: State, cb: Callback, params: Entries, fuel: nat)
    requires !IsCallableWithAtSign(cb)
    requires Call(w, s, cb, params, None, fuel).result.Ok?
    ensures var ps := w.signature(cb).value; var r := CallArguments(w, s, ps, 0, ([], params), fuel).result.value;
      Call(w, s, cb, params, None, fuel).result.value == Invocation(cb, r.0 + Values(Without(params, NamesFrom(ps, 0))))
  {
  }

  /** A typed call parameter without an explicit value is made from the
      container with no fallback: make's value is appended, or its error propagates. */
  lemma CallParameterTyped(w: World, s: State, p: Param, acc: (seq<Value>, Entries), cls: string, fuel: nat)
    requires Lookup(acc.1, StrKey(p.name)).None? && ParameterClass(w, p) == Ok(Some(cls))
    ensures var m := Make(w, s, cls, [], fuel); var o := CallParameter(w, s, p, acc, fuel);
      && o.state == m.state
      && (m.result.Ok? ==> o.result == Ok((acc.0 + [m.result.value], acc.1)))
      && (m.result.Err? ==> o.result == Err(m.result.error))
  {
  }

  /** An untyped call parameter without an explicit value takes its default, or is skipped. */
  lemma CallParameterUntyped(w: World, s: State, p: Param, acc: (seq<Value>, Entries), fuel: nat)
    requires Lookup(acc.1, StrKey(p.name)).None? && ParameterClass(w, p) == Ok(None)
    ensures CallParameter(w, s, p, acc, fuel) ==
      Out(Ok(if p.default.Some? then (acc.0 + [p.default.value], acc.1) else acc), s)
  {
  }

  /** A string callable with an `@` goes to callClass. With exactly one `@`
      the part after it is the method; with more than one and no default
      method, no method is provided. */
  lemma CallAtSign(w: World, s: State, name: string, params: Entries, defaultMethod: Option<string>, fuel: nat)
    requires '@' in name
    ensures Call(w, s, FunctionName(name), params, defaultMethod, fuel) == CallClass(w, s, FunctionName(name), params, defaultMethod, fuel)
    ensures Count('@', name) == 1 && Call(w, s, FunctionName(name), params, defaultMethod, fuel).result.Ok? ==>
      Call(w, s, FunctionName(name), params, defaultMethod, fuel).result.value.target.methodName == Explode('@', name)[1]
    ensures Count('@', name) >= 2 && defaultMethod.None? ==>
      Call(w, s, FunctionName(name), params, defaultMethod, fuel) == Out(Err(MethodNotProvided), s)
  {
    ExplodeLength('@', name);
  }

  /** A non-string callable with a default method is a TypeError. */
  lemma CallNonString(w: World, s: State, cb: Callback, params: Entries, m: string, fuel: nat)
    requires !cb.FunctionName? && m != "" && m != "0"
    ensures Call(w, s, cb, params, Some(m), fuel) == Out(Err(TypeError), s)
  {
  }
}
