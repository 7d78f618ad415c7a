/**
 * Registration: alias, bind, bindIf, singleton, extend, instance, rebound
 * and the ArrayAccess entry points, as functions from a state to the state
 * they leave behind.
 */
module Registry {
  import opened Php
  import opened Reflection
  import opened Tables
  import opened Resolution

  /** What offsetSet is given: a plain value, or a user closure. */
  datatype Given = Plain(v: Value) | GivenClosure(fid: nat)

  /** alias: records `alias -> ltrim(id)` under the alias as given; an alias equal to its id is refused. */
  function Alias(s: State, id: string, alias: string): (r: Result<State>)
    ensures r.Err? <==> alias == id
    ensures r.Err? ==> r.error == AliasedToItself
    ensures r.Ok? ==> r.value.aliases == s.aliases[alias := Normalize(id)]
    ensures r.Ok? ==> r.value == s.(aliases := r.value.aliases)
  {
    if alias == id then Err(AliasedToItself) else Ok(s.(aliases := s.aliases[alias := Normalize(id)]))
  }

  /** The key bind and instance register under: the normalized name, or the
      id of a `[id => alias]` pair, which is not normalized. */
  function KeyOf(ab: Abstract): string
  {
    match ab
    case Name(n) => Normalize(n)
    case Pair(t, _) => t
  }

  /** The alias step of bind and instance: only a pair registers one. */
  function AliasStep(s: State, ab: Abstract): (r: Result<State>)
    ensures r.Err? <==> ab.Pair? && ab.alias == ab.target
    ensures ab.Name? ==> r == Ok(s)
    ensures r.Ok? ==> r.value == s.(aliases := r.value.aliases)
  {
    match ab
    case Name(_) => Ok(s)
    case Pair(t, al) => Alias(s, t, al)
  }

  /** The closure bind stores: getClosure around the (normalized) class name,
      or around the key itself when none is given; a closure is stored as is. */
  function ClosureFor(a: string, concrete: Option<Concrete>): (r: Closure)
    ensures concrete.Some? && concrete.value.Fn? ==> r == concrete.value.closure
    ensures concrete.None? ==> r == Wrapper(a, a)
    ensures concrete.Some? && concrete.value.ClassName? ==> r == Wrapper(a, Normalize(concrete.value.name))
  {
    match concrete
    case None => Wrapper(a, a)
    case Some(ClassName(x)) => Wrapper(a, Normalize(x))
    case Some(Fn(f)) => f
  }

  /** rebound: makes the name again; the rebound callbacks it would then run
      are never registered: a new container has none, and every operation
      leaves them as they were. */
  function Rebound(w: World, s: State, id: string, fuel: nat): (o: Out<()>)
    ensures Grows(s, o.state)
    ensures o.result.Ok? <==> Make(w, s, id, [], fuel).result.Ok?
    ensures o.state == Make(w, s, id, [], fuel).state
  {
    var m := Make(w, s, id, [], fuel);
    Out(if m.result.Err? then Err(m.result.error) else Ok(()), m.state)
  }

  /** The registration step of bind: drop the stale instance and alias, store the binding. */
  function Rebind(s: State, a: string, c: Closure, shared: bool): (r: State)
    ensures r.bindings == s.bindings[a := Binding(c, shared)]
    ensures r.aliases == s.aliases - {a} && r.instances == s.instances - {a}
    ensures r == s.(bindings := r.bindings, aliases := r.aliases, instances := r.instances)
  {
    var s1 := DropStaleInstances(s, a);
    s1.(bindings := s1.bindings[a := Binding(c, shared)])
  }

  /** The end of bind: `if ($this->resolved($abstract)) $this->rebound($abstract);`. */
  function RemakeIfResolved(w: World, s: State, a: string, fuel: nat): (o: Out<()>)
    ensures Grows(s, o.state)
    ensures Resolved(s, a) == Ok(false) ==> o == Out(Ok(()), s)
    ensures Resolved(s, a) == Ok(true) ==> o == Rebound(w, s, a, fuel)
    ensures Resolved(s, a).Err? ==> o == Out(Err(Resolved(s, a).error), s)
  {
    match Resolved(s, a)
    case Err(e) => GrowsRefl(s); Out(Err(e), s)
    case Ok(wasResolved) => if wasResolved then Rebound(w, s, a, fuel) else GrowsRefl(s); Out(Ok(()), s)
  }

  /** bind: registers the closure under the key, after dropping its stale
      instance and alias, and remakes it when it was resolved before. */
  function Bind(w: World, s: State, ab: Abstract, concrete: Option<Concrete>, shared: bool, fuel: nat): (o: Out<()>)
    ensures AliasStep(s, ab).Err? ==> o == Out(Err(AliasStep(s, ab).error), s)
    ensures o.state.reboundCallbacks == s.reboundCallbacks
    ensures AliasStep(s, ab).Ok? ==> Grows(Rebind(AliasStep(s, ab).value, KeyOf(ab), ClosureFor(KeyOf(ab), concrete), shared), o.state)
  {
    match AliasStep(s, ab)
    case Err(e) => Out(Err(e), s)
    case Ok(s1) =>
      var a := KeyOf(ab);
      RemakeIfResolved(w, Rebind(s1, a, ClosureFor(a, concrete), shared), a, fuel)
  }

  /** bindIf: binds only a name that is not bound yet. */
  function BindIf(w: World, s: State, id: string, concrete: Option<Concrete>, shared: bool, fuel: nat): (o: Out<()>)
    ensures o.state.reboundCallbacks == s.reboundCallbacks
  {
    if Bound(s, id) then Out(Ok(()), s) else Bind(w, s, Name(id), concrete, shared, fuel)
  }

  /** singleton: a shared binding. */
  function Singleton(w: World, s: State, ab: Abstract, concrete: Option<Concrete>, fuel: nat): (o: Out<()>)
    ensures o.state.reboundCallbacks == s.reboundCallbacks
  {
    Bind(w, s, ab, concrete, true, fuel)
  }

  /** extend: decorates an existing instance in place and remakes it, or
      queues the extender for the name's future makes. */
  function Extend(w: World, s: State, id: string, fid: nat, fuel: nat): (o: Out<()>)
    ensures o.state.reboundCallbacks == s.reboundCallbacks
    ensures var n := Normalize(id); Isset(s.instances, n) ==>
      Grows(s.(instances := s.instances[n := w.decorate(fid, s.instances[n])]), o.state)
    ensures var n := Normalize(id); Isset(s.instances, n) ==>
      o == Rebound(w, s.(instances := s.instances[n := w.decorate(fid, s.instances[n])]), n, fuel)
    ensures var n := Normalize(id); !Isset(s.instances, n) ==>
      o == Out(Ok(()), s.(extenders := s.extenders[n := Extenders(s, n) + [fid]]))
  {
    var n := Normalize(id);
    if Isset(s.instances, n) then
      Rebound(w, s.(instances := s.instances[n := w.decorate(fid, s.instances[n])]), n, fuel)
    else Out(Ok(()), s.(extenders := s.extenders[n := Extenders(s, n) + [fid]]))
  }

  /** The registration step of instance: forget the key's alias, store the value. */
  function PutInstance(s: State, a: string, v: Value): (r: State)
    ensures r.aliases == s.aliases - {a} && r.instances == s.instances[a := v]
    ensures r == s.(aliases := r.aliases, instances := r.instances)
  {
    s.(aliases := s.aliases - {a}, instances := s.instances[a := v])
  }

  /** instance: registers an existing value as the name's instance, and
      remakes the name when it was bound before. The current revision types
      the name as a string, so a pair is a TypeError there. */
  function Instance(w: World, s: State, ab: Abstract, v: Value, fuel: nat): (o: Out<()>)
    ensures w.revision.Current? && ab.Pair? ==> o == Out(Err(TypeError), s)
    ensures o.state.reboundCallbacks == s.reboundCallbacks
    ensures !(w.revision.Current? && ab.Pair?) && AliasStep(s, ab).Err? ==> o == Out(Err(AliasStep(s, ab).error), s)
    ensures !(w.revision.Current? && ab.Pair?) && AliasStep(s, ab).Ok? ==>
      var s1 := AliasStep(s, ab).value; var a := KeyOf(ab);
      && Grows(PutInstance(s1, a, v), o.state)
      && (!Bound(s1.(aliases := s1.aliases - {a}), a) ==> o == Out(Ok(()), PutInstance(s1, a, v)))
      && (Bound(s1.(aliases := s1.aliases - {a}), a) ==> o == Rebound(w, PutInstance(s1, a, v), a, fuel))
  {
    if w.revision.Current? && ab.Pair? then Out(Err(TypeError), s)
    else
      match AliasStep(s, ab)
      case Err(e) => Out(Err(e), s)
      case Ok(s1) =>
        var a := KeyOf(ab);
        if Bound(s1.(aliases := s1.aliases - {a}), a) then Rebound(w, PutInstance(s1, a, v), a, fuel)
        else GrowsRefl(PutInstance(s1, a, v)); Out(Ok(()), PutInstance(s1, a, v))
  }

  /** offsetSet: binds a closure returning the plain value, or the closure given. */
  function OffsetSet(w: World, s: State, key: string, g: Given, fuel: nat): (o: Out<()>)
    ensures o.state.reboundCallbacks == s.reboundCallbacks
  {
    var c := match g case Plain(v) => Const(v) case GivenClosure(fid) => User(fid);
    Bind(w, s, Name(key), Some(Fn(c)), false, fuel)
  }

  /** offsetUnset: forgets the normalized key's binding, instance and resolved mark. */
  function OffsetUnset(s: State, key: string): (r: State)
    ensures r.aliases == s.aliases && r.extenders == s.extenders && r.reboundCallbacks == s.reboundCallbacks && r.next == s.next
  {
    var n := Normalize(key);
    s.(bindings := s.bindings - {n}, instances := s.instances - {n}, resolved := s.resolved - {n})
  }
}
