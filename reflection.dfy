/**
 * What the container learns through PHP reflection, given here as data:
 * constructor and callable parameter lists, and the re-keying of positional
 * explicit parameters by the parameter at that position.
 */
module Reflection {
  import opened Php

  /** A declared parameter type: a class or interface name, or a builtin such as `int`. */
  datatype TypeRef = ClassType(name: string) | BuiltinType(name: string)

  /** A reflected parameter: name, declared type, default value, and whether
      reflection reports it optional (`isOptional()`), which PHP decides
      independently of `isDefaultValueAvailable()`. */
  datatype Param = Param(name: string, typ: Option<TypeRef>, default: Option<Value>, optional: bool)

  /** A reflected class: whether `isInstantiable()` holds and its constructor's parameters, if it has one. */
  datatype ClassInfo = ClassInfo(instantiable: bool, ctor: Option<seq<Param>>)

  /** A callable as `call` receives it: a function name or a `Class@method` /
      `Class::method` string, a `[receiver, method]` array, or a user closure. */
  datatype Callback =
    | FunctionName(name: string)
    | MethodRef(receiver: Value, methodName: string)
    | UserClosure(fid: nat)

  /** `$dependencies[$key]->name`; an out-of-range position reads `null->name`,
      which is null, and a null array key is the empty string. */
  function NameAt(deps: seq<Param>, i: int): string
  {
    if 0 <= i < |deps| then deps[i].name else ""
  }

  /** One iteration of the `foreach` in keyParametersByArgument. */
  function RekeyStep(deps: seq<Param>, acc: Entries, e: (Key, Value)): (r: Entries)
    ensures e.0.StrKey? ==> r == acc
    ensures e.0.IntKey? ==> Lookup(r, e.0) == None && Lookup(r, StrKey(NameAt(deps, e.0.i))) == Some(e.1)
  {
    if e.0.IntKey? then Put(Remove(acc, e.0), StrKey(NameAt(deps, e.0.i)), e.1) else acc
  }

  /** The explicit parameters after the first `n` entries have been visited. */
  function Rekeyed(deps: seq<Param>, params: Entries, n: nat): (r: Entries)
    requires n <= |params|
    ensures forall j :: 0 <= j < n && params[j].0.IntKey? ==> Lookup(r, params[j].0) == None
  {
    if n == 0 then params else RekeyStep(deps, Rekeyed(deps, params, n - 1), params[n - 1])
  }

  /** The value of the last positional entry among the first `n` whose position names `name`. */
  function Positional(deps: seq<Param>, params: Entries, n: nat, name: string): Option<Value>
    requires n <= |params|
  {
    if n == 0 then None
    else if params[n - 1].0.IntKey? && NameAt(deps, params[n - 1].0.i) == name then Some(params[n - 1].1)
    else Positional(deps, params, n - 1, name)
  }

  /** What keyParametersByArgument leaves under `name` after `n` entries:
      the last positional value for that name, else the named value. */
  function KeyedValue(deps: seq<Param>, params: Entries, n: nat, name: string): Option<Value>
    requires n <= |params|
  {
    var p := Positional(deps, params, n, name);
    if p.Some? then p else Lookup(params, StrKey(name))
  }

  lemma {:induction false} LookupAbsent(a: Entries, k: Key)
    requires forall j :: 0 <= j < |a| ==> a[j].0 != k
    ensures Lookup(a, k) == None
  {
    if a != [] {
      LookupAbsent(a[1..], k);
    }
  }

  lemma {:induction false} RekeyedLookup(deps: seq<Param>, params: Entries, n: nat)
    requires n <= |params|
    ensures forall name :: Lookup(Rekeyed(deps, params, n), StrKey(name)) == KeyedValue(deps, params, n, name)
    ensures forall i :: (forall j :: 0 <= j < n ==> params[j].0 != IntKey(i)) ==>
      Lookup(Rekeyed(deps, params, n), IntKey(i)) == Lookup(params, IntKey(i))
  {
    if n > 0 {
      RekeyedLookup(deps, params, n - 1);
    }
  }

  /** keyParametersByArgument's result: no numeric key survives, and each name
      holds the last positional value given for it, else its named value. */
  lemma KeyedByArgument(deps: seq<Param>, params: Entries)
    ensures forall i :: Lookup(Rekeyed(deps, params, |params|), IntKey(i)) == None
    ensures forall name :: Lookup(Rekeyed(deps, params, |params|), StrKey(name)) == KeyedValue(deps, params, |params|, name)
  {
    RekeyedLookup(deps, params, |params|);
    forall i ensures Lookup(Rekeyed(deps, params, |params|), IntKey(i)) == None {
      if forall j :: 0 <= j < |params| ==> params[j].0 != IntKey(i) {
        LookupAbsent(params, IntKey(i));
      }
    }
  }
}
