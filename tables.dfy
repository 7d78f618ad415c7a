/**
 * The container's six keyed tables, the errors it raises, the runtime it is
 * given (reflection data and the behaviour of user closures), and the pure
 * queries over the tables: bound, isAlias, getAlias, resolved, isShared,
 * getConcrete, isBuildable and getParameterClass.
 */
module Tables {
  import opened Php
  import opened Reflection

  /** The error kinds the container raises or lets through. */
  datatype Error =
    | AliasedToItself     // "[x] is aliased to itself."
    | NotInstantiable     // "Target [x] is not instantiable"
    | Unresolvable        // "Unresolvable dependency resolving ..."
    | MethodNotProvided   // "Method not provided."
    | ReflectionFailure   // a ReflectionException: unknown class, function or method, or no default value
    | TypeError           // a PHP TypeError: an argument of the wrong type
    | AliasCycle          // getAlias recurses without end on a cyclic alias chain
    | OutOfFuel           // the resolution recursion went deeper than the fuel allows

  /** The errors that `catch (Exception $e)` catches: TypeError is an Error,
      not an Exception, and unbounded recursion is not an exception at all. */
  predicate Catchable(e: Error)
  {
    !(e.TypeError? || e.AliasCycle? || e.OutOfFuel?)
  }

  datatype Result<+T> = Ok(value: T) | Err(error: Error)

  /** The two revisions of the container. */
  datatype Revision = Current | Legacy

  /** The runtime the container runs in: reflection data for classes and
      callables, and the results of user closures and extenders, which the
      container calls but does not define. `invoke(fid, n)` is what closure
      `fid` returns when called while the object counter is `n` (a closure
      that allocates returns an object with id `n`); `decorate(fid, v)` is
      what extender `fid` returns for the object `v`. */
  datatype World = World(
    revision: Revision,
    classes: map<string, ClassInfo>,
    signature: Callback -> Option<seq<Param>>,
    invoke: (nat, nat) -> Value,
    decorate: (nat, Value) -> Value)

  /** A closure the container stores as a binding's concrete: the one built by
      getClosure, the one built by offsetSet around a plain value, or a user closure. */
  datatype Closure = Wrapper(abstractId: string, concreteId: string) | Const(v: Value) | User(fid: nat)

  /** What getConcrete returns and build accepts: a closure or a class name. */
  datatype Concrete = Fn(closure: Closure) | ClassName(name: string)

  datatype Binding = Binding(concrete: Closure, shared: bool)

  /** bind's and instance's first argument: a name, or a one-entry array `[id => alias]`. */
  datatype Abstract = Name(name: string) | Pair(target: string, alias: string)

  /** The container's fields; `next` numbers the objects it allocates. */
  datatype State = State(
    bindings: map<string, Binding>,
    instances: map<string, Value>,
    aliases: map<string, string>,
    extenders: map<string, seq<nat>>,
    resolved: set<string>,
    reboundCallbacks: map<string, seq<nat>>,
    next: nat)

  /** A result together with the state the operation leaves behind, which is
      kept even when the result is an error (there is no rollback). */
  datatype Out<+T> = Out(result: Result<T>, state: State)

  const Empty: State := State(map[], map[], map[], map[], {}, map[], 0)

  /** getParameterClass. The current revision uses `getType()`, which reports
      builtin types too; the legacy revision uses `getClass()`, which reports
      only class types and fails on a class that does not exist. */
  function ParameterClass(w: World, p: Param): (r: Result<Option<string>>)
    ensures p.typ.None? ==> r == Ok(None)
    ensures w.revision.Current? && p.typ.Some? ==> r == Ok(Some(p.typ.value.name))
    ensures w.revision.Legacy? && p.typ.Some? && p.typ.value.BuiltinType? ==> r == Ok(None)
    ensures r.Err? <==> w.revision.Legacy? && p.typ.Some? && p.typ.value.ClassType? && p.typ.value.name !in w.classes
  {
    if p.typ.None? then Ok(None)
    else if w.revision.Current? || p.typ.value.name in w.classes then
      if p.typ.value.BuiltinType? && w.revision.Legacy? then Ok(None) else Ok(Some(p.typ.value.name))
    else if p.typ.value.BuiltinType? then Ok(None)
    else Err(ReflectionFailure)
  }

  /** isAlias: the normalized name has an alias entry. */
  predicate IsAlias(s: State, name: string)
    ensures IsAlias(s, name) ==> GetAlias(s, Normalize(name)) != Some(Normalize(name))
  {
    Normalize(name) in s.aliases
  }

  /** bound: a binding, a non-null instance or an alias for the normalized name. */
  predicate Bound(s: State, id: string)
    ensures !Bound(s, id) ==>
      GetConcrete(s, Normalize(id)) == ClassName(Normalize(id)) && !Isset(s.instances, Normalize(id))
  {
    var n := Normalize(id);
    n in s.bindings || Isset(s.instances, n) || IsAlias(s, n)
  }

  // ---------------------------------------------------------------------
  // Alias chains
  // ---------------------------------------------------------------------

  /** Follows at most `fuel` alias edges from `x`; None when they run out. */
  function Chase(al: map<string, string>, x: string, fuel: nat): (r: Option<string>)
    ensures r.Some? ==> r.value !in al
    ensures x !in al ==> r == Some(x)
    decreases fuel
  {
    if x !in al then Some(x) else if fuel == 0 then None else Chase(al, al[x], fuel - 1)
  }

  /** getAlias. As many steps as there are aliases always suffice when the PHP
      recursion ends (ChaseComplete), so None means it never ends. */
  function GetAlias(s: State, x: string): (r: Option<string>)
    ensures r.Some? ==> r.value !in s.aliases
    ensures x !in s.aliases ==> r == Some(x)
  {
    Chase(s.aliases, x, |s.aliases|)
  }

  /** The node reached after `n` alias edges from `x` (staying put once off the chain). */
  function Walk(al: map<string, string>, x: string, n: nat): string
  {
    if n == 0 then x
    else var y := Walk(al, x, n - 1); if y in al then al[y] else y
  }

  /** The names visited by the first `n` steps. */
  function WalkSet(al: map<string, string>, x: string, n: nat): set<string>
  {
    set m | 0 <= m < n :: Walk(al, x, m)
  }

  /** After exactly `k` steps the chain leaves the alias keys for the first time. */
  predicate Exits(al: map<string, string>, x: string, k: nat)
  {
    Walk(al, x, k) !in al && forall j :: 0 <= j < k ==> Walk(al, x, j) in al
  }

  lemma {:induction false} WalkHead(al: map<string, string>, x: string, j: nat)
    requires x in al
    ensures Walk(al, x, j + 1) == Walk(al, al[x], j)
  {
    if j > 0 {
      WalkHead(al, x, j - 1);
    }
  }

  /** A successful chase stops where the walk first leaves the alias keys. */
  lemma {:induction false} ChaseWalk(al: map<string, string>, x: string, fuel: nat) returns (k: nat)
    requires Chase(al, x, fuel).Some?
    ensures k <= fuel && Exits(al, x, k) && Chase(al, x, fuel) == Some(Walk(al, x, k))
    decreases fuel
  {
    if x !in al {
      k := 0;
    } else {
      var k' := ChaseWalk(al, al[x], fuel - 1);
      k := k' + 1;
      WalkHead(al, x, k');
      forall j | 0 <= j < k ensures Walk(al, x, j) in al {
        if j > 0 {
          WalkHead(al, x, j - 1);
        }
      }
    }
  }

  lemma {:induction false} WalkShift(al: map<string, string>, x: string, i: nat, j: nat, t: nat)
    requires Walk(al, x, i) == Walk(al, x, j)
    ensures Walk(al, x, i + t) == Walk(al, x, j + t)
  {
    if t > 0 {
      WalkShift(al, x, i, j, t - 1);
    }
  }

  /** Before the chain leaves the alias keys, it visits pairwise distinct names. */
  lemma WalkDistinct(al: map<string, string>, x: string, k: nat, i: nat, j: nat)
    requires Exits(al, x, k)
    requires i < j < k
    ensures Walk(al, x, i) != Walk(al, x, j)
  {
    if Walk(al, x, i) == Walk(al, x, j) {
      WalkShift(al, x, i, j, k - j);
    }
  }

  lemma {:induction false} WalkSetSize(al: map<string, string>, x: string, k: nat, n: nat)
    requires Exits(al, x, k)
    requires n <= k
    ensures |WalkSet(al, x, n)| == n && WalkSet(al, x, n) <= al.Keys
  {
    if n > 0 {
      WalkSetSize(al, x, k, n - 1);
      assert WalkSet(al, x, n) == WalkSet(al, x, n - 1) + {Walk(al, x, n - 1)};
      if Walk(al, x, n - 1) in WalkSet(al, x, n - 1) {
        var m :| 0 <= m < n - 1 && Walk(al, x, n - 1) == Walk(al, x, m);
        WalkDistinct(al, x, k, m, n - 1);
      }
    }
  }

  lemma {:induction false} ChaseMonotone(al: map<string, string>, x: string, f: nat, g: nat)
    requires Chase(al, x, f).Some? && f <= g
    ensures Chase(al, x, g) == Chase(al, x, f)
    decreases f
  {
    if x in al {
      ChaseMonotone(al, al[x], f - 1, g - 1);
    }
  }

  lemma {:induction false} ChaseFromWalk(al: map<string, string>, x: string, k: nat, fuel: nat)
    requires Exits(al, x, k)
    requires k <= fuel
    ensures Chase(al, x, fuel) == Some(Walk(al, x, k))
    decreases k
  {
    if k > 0 {
      assert Walk(al, x, 0) in al;
      forall m | 0 <= m <= k - 1 ensures Walk(al, al[x], m) == Walk(al, x, m + 1) {
        WalkHead(al, x, m);
      }
      ChaseFromWalk(al, al[x], k - 1, fuel - 1);
    }
  }

  /** Whenever some amount of fuel ends the alias chase, |aliases| steps end it with the same answer. */
  lemma ChaseComplete(al: map<string, string>, x: string, fuel: nat)
    requires Chase(al, x, fuel).Some?
    ensures Chase(al, x, |al|) == Chase(al, x, fuel)
  {
    var k := ChaseWalk(al, x, fuel);
    WalkSetSize(al, x, k, k);
    SubsetSize(WalkSet(al, x, k), al.Keys);
    ChaseFromWalk(al, x, k, |al|);
  }

  lemma SubsetSize<T>(a: set<T>, b: set<T>)
    requires a <= b
    ensures |a| <= |b|
  {
    assert b == a + (b - a);
  }

  /** getAlias follows the chain: an alias resolves exactly as its target does. */
  lemma GetAliasFollows(s: State, x: string)
    requires x in s.aliases
    ensures GetAlias(s, x) == GetAlias(s, s.aliases[x])
  {
    var al := s.aliases;
    var n := |al|;
    assert n >= 1 by { assert x in al.Keys; }
    if Chase(al, x, n).Some? {
      ChaseMonotone(al, al[x], n - 1, n);
    } else if Chase(al, al[x], n).Some? {
      assert Chase(al, x, n + 1) == Chase(al, al[x], n);
      ChaseComplete(al, x, n + 1);
    }
  }

  /** resolved: the (alias-resolved) name was built before or has a non-null instance. */
  function Resolved(s: State, id: string): (r: Result<bool>)
    ensures r.Err? ==> r.error == AliasCycle
  {
    var n := Normalize(id);
    if IsAlias(s, n) then
      match GetAlias(s, n)
      case None => Err(AliasCycle)
      case Some(a) => Ok(a in s.resolved || Isset(s.instances, a))
    else Ok(n in s.resolved || Isset(s.instances, n))
  }

  /** isShared: a non-null instance exists, or the binding was made shared. */
  predicate IsShared(s: State, id: string)
    ensures IsShared(s, id) ==> Bound(s, id)
  {
    var n := Normalize(id);
    Isset(s.instances, n) || (n in s.bindings && s.bindings[n].shared)
  }

  /** getConcrete: the bound closure, or the name itself when it is unbound. */
  function GetConcrete(s: State, id: string): (r: Concrete)
    ensures id !in s.bindings ==> r == ClassName(id)
    ensures id in s.bindings ==> r.Fn? && r.closure == s.bindings[id].concrete
    ensures IsBuildable(r, id)
  {
    if id !in s.bindings then ClassName(id) else Fn(s.bindings[id].concrete)
  }

  /** isBuildable: a closure, or a class name identical to the id. */
  predicate IsBuildable(c: Concrete, id: string)
    ensures c.ClassName? ==> (IsBuildable(c, id) <==> c.name == id)
  {
    c.Fn? || c == ClassName(id)
  }

  /** getExtenders. */
  function Extenders(s: State, id: string): (r: seq<nat>)
    ensures id !in s.extenders ==> r == []
    ensures id in s.extenders ==> r == s.extenders[id]
  {
    if id in s.extenders then s.extenders[id] else []
  }

  /** dropStaleInstances: forgets the instance and the alias keyed at the name. */
  function DropStaleInstances(s: State, id: string): (r: State)
    ensures id !in r.instances && id !in r.aliases
    ensures r.instances == s.instances - {id} && r.aliases == s.aliases - {id}
    ensures r.bindings == s.bindings && r.extenders == s.extenders && r.resolved == s.resolved
    ensures r.reboundCallbacks == s.reboundCallbacks && r.next == s.next
  {
    s.(instances := s.instances - {id}, aliases := s.aliases - {id})
  }
}
