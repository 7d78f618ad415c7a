# A verified model of `Godruoyi\Container\Container`

The container is a Laravel-style dependency-injection container. It keeps six
keyed tables on the container object:

- `bindings`: a name mapped to a closure and a shared flag;
- `instances`: the objects already made or registered;
- `aliases`: one name standing for another;
- `extenders`: decorators waiting for a name's next make;
- `resoleved`: the names built before (the field's name is spelled this way in both revisions);
- `reboundCallbacks`: callbacks to run on a rebind.

The registration operations update these tables. They are `bind`, `bindIf`,
`singleton`, `alias`, `instance`, `extend`, `offsetSet` and `offsetUnset`.
Resolution reads them, recursively:

- `make` follows the aliases, returns a registered instance, or builds the name's concrete.
- `build` calls the closure, or reflects on the class and resolves the constructor's parameters.
- After the build, `make` applies the extenders in order, caches the object when the name is shared, and marks the name resolved.

`call` resolves the arguments of an arbitrary callable the same way, and
`callClass` runs `Class@method` strings.

Two revisions are modelled together:

- the current, typed `src/Container.php`;
- the legacy `src/Godruoyi/Container/Container.php`.

`World.revision` selects between them where they differ:

- `getParameterClass`: `getType()` versus `getClass()`. Only the current revision reports builtin types, and only the legacy one fails on a class that does not exist.
- `instance` accepts the `[id => alias]` form only in the legacy revision; the current one types its argument as a string.
- The legacy hooks `resolving` and `afterResolving` have empty bodies.

## Structure

- `php.dfy` (module `Php`). The PHP values and string functions the container uses:
  - `ltrim($s, '\\')`, `explode`, truthiness;
  - PHP arrays as ordered key/value entries, with `unset`, assignment, `array_values` and filtering.
- `reflection.dfy` (module `Reflection`). Reflected parameters and classes, given as data, and `keyParametersByArgument`'s re-keying.
- `tables.dfy` (module `Tables`):
  - the tables as the datatype `State`, the error kinds, and the runtime `World`;
  - the pure queries: `bound`, `isAlias`, `getAlias`, `resolved`, `isShared`, `getConcrete`, `isBuildable`, `getExtenders`, `dropStaleInstances` and `getParameterClass`.
- `resolution.dfy` (module `Resolution`). A function from a state to a result and the state left behind, for each of:
  - `make`, `build`, `getDependencies`, `resolveNonClass` and `resolveClass`;
  - `addDependencyForCallParameter`, `getMethodDependencies`, `callClass` and `call`.
- `registry.dfy` (module `Registry`). The same, for the registration operations.
- `container.dfy` (module `Containers`):
  - The class `Container`. Its fields are the tables and its methods update them in place.
  - The loops of `make`, `getDependencies`, `keyParametersByArgument` and `getMethodDependencies` are `while` loops.
  - Each method is proved to return the result, and leave the state, that its function above computes from the state it started in.
- `properties.dfy` (module `Properties`). What the container promises, proved about those functions.

The runtime the container lives in is the datatype `World`. It holds:

- the descriptor of every class: instantiable, and the constructor's parameters;
- each callable's signature;
- what user closures and extenders return.

Objects are `Obj(id, class, args)`. Their ids come from a counter, so
reference identity (`===`) is the equality of ids. PHP's unbounded mutual
recursion (make → build → getDependencies → resolveClass → make) is bounded
by a `fuel` argument, spent once per make. `getAlias` is followed for at most
as many steps as there are aliases, and `Tables.ChaseComplete` proves that this
always suffices when PHP's recursion ends. Its `None` stands for the endless
recursion of a cyclic alias chain.

## Model

| member | source | states |
|---|---|---|
| Php.Normalize | src/Container.php:491-494 | the result never starts with a backslash |
| Php.NormalizeStrips | src/Container.php:491-494 | the result is a suffix of the name, and everything removed in front of it is a backslash |
| Php.NormalizeIdempotent | src/Container.php:491-494 | normalizing a normalized name changes nothing |
| Php.NormalizeFixesNormalized | src/Godruoyi/Container/Container.php:472-475 | a name that does not start with a backslash is returned unchanged |
| Php.Explode | src/Container.php:471 | `explode('@', …)` returns at least one piece, no piece contains `@`, and joining the pieces with `@` gives the input back |
| Php.ExplodeLength | src/Container.php:476 | explode gives exactly one more segment than there are `@` signs, so `count($segments) == 2` means exactly one `@` |
| Php.Remove | src/Container.php:436 | after `unset($a[$k])` the key is absent and every other key still reads the same |
| Php.Put | src/Container.php:666 | after `$a[$k] = $v` the key holds `$v` and every other key still reads the same |
| Php.Values | src/Container.php:397 | the values of an array in order, one per entry |
| Php.Without | src/Container.php:389-398 | the filtered array has none of the removed keys and reads the same as the original everywhere else |
| Php.WithoutNothing | src/Container.php:389-398 | filtering by no key leaves the array as it is |
| Php.WithoutRemove | src/Container.php:433-436 | unsetting one key and then filtering by the rest equals filtering by all of them |
| Php.WithoutAbsent | src/Container.php:433-436 | filtering by a key the array does not hold changes nothing |
| Reflection.RekeyStep | src/Container.php:663-667 | one step of the loop: a numeric key is unset and its value stored under the name of the parameter at that position; a string key is left alone |
| Reflection.Rekeyed | src/Container.php:660-671 | after the first n entries are visited, none of the numeric keys among them is left |
| Reflection.RekeyedLookup | src/Container.php:660-671 | after any prefix of the loop, each name holds the last positional value given for its position, else its named value, and numeric keys not yet visited are untouched |
| Reflection.KeyedByArgument | src/Container.php:660-671 | keyParametersByArgument leaves no numeric key, and each name holds the last positional value for its position, else its named value |
| Containers.Container.KeyParametersByArgument | src/Container.php:660-671 | the loop computes the re-keyed array, with no numeric key left and each name holding its positional value, else its named value |
| Tables.ParameterClass | src/Container.php:450-457 | an untyped parameter has no class. The current revision reports the declared type's name, builtin or not. The legacy revision ignores builtins, and fails exactly on a class type that does not exist |
| Tables.IsAlias | src/Container.php:502-505 | an alias never resolves to itself |
| Tables.Bound | src/Container.php:85-90 | a name that is not bound has no instance, and its concrete is the name itself |
| Tables.Chase | src/Container.php:549-556 | a name without an alias entry is returned unchanged, and a returned name never has an alias entry |
| Tables.GetAlias | src/Container.php:549-556 | a name without an alias entry is its own alias, and a returned name never has an alias entry |
| Tables.ChaseComplete | src/Container.php:549-556 | whenever the alias chain ends, following it for as many steps as there are aliases reaches the same end |
| Tables.GetAliasFollows | src/Godruoyi/Container/Container.php:532-539 | getAlias of an alias is getAlias of its target (transitivity) |
| Tables.Resolved | src/Container.php:357-366 | resolved can fail only on a cyclic alias chain |
| Tables.IsShared | src/Container.php:596-609 | a shared name is bound |
| Tables.GetConcrete | src/Container.php:617-624 | an unbound name is its own concrete; a bound name's concrete is its closure; the result is always buildable |
| Tables.IsBuildable | src/Container.php:633-636 | a class name is buildable exactly when it is the id itself |
| Tables.Extenders | src/Container.php:581-588 | the extenders queued for the name, and none for a name without a queue |
| Tables.DropStaleInstances | src/Container.php:524-527 | exactly the instance and the alias keyed at the name are removed; every other table is unchanged |
| Resolution.Make | src/Container.php:279-306 | make changes only what resolution may change: instances for cacheable names, resolved marks and the object counter. Without fuel it fails with OutOfFuel, and when getAlias diverges on the name it fails with an alias cycle (it can fail so for a cycle met deeper in the recursion too) |
| Resolution.MakeAt | src/Container.php:283-305 | a non-null instance is returned and nothing changes. A successful build marks the name resolved, and a shared binding caches the object under the name |
| Resolution.Settle | src/Container.php:299-303 | the object is cached exactly when the name is shared, and the name is marked resolved |
| Resolution.Build | src/Container.php:318-349 | a class that does not exist is a reflection failure and one that is not instantiable a not-instantiable error, with the state unchanged; otherwise a fresh object of that class with the next id. getClosure's closure for another class makes that class with the same parameters, offsetSet's closure returns its value, and a user closure is called once |
| Resolution.ResolveNonClass | src/Container.php:709-718 | the default value exactly when one is available, else an unresolvable-dependency error |
| Resolution.ResolveClass | src/Container.php:728-739 | resolving a class parameter changes only what resolution may change |
| Resolution.Dependency | src/Container.php:686-695 | a failed class lookup is the error; an explicit value under the parameter's name is used as is; an untyped parameter without one is resolveNonClass; the state only grows |
| Resolution.Dependencies | src/Container.php:682-699 | one argument per constructor parameter, in order, and the state only grows |
| Resolution.DependenciesValues | src/Container.php:682-699 | an explicit value under the parameter's name is used as is, and an untyped parameter without one takes its default, which must exist |
| Resolution.DependenciesElements | src/Container.php:686-695 | each gathered argument is what its parameter resolves to on the state the parameters before it left behind |
| Resolution.DependenciesElement | src/Container.php:686-695 | the same for one position |
| Resolution.DependenciesStop | src/Container.php:682-699 | the first parameter that throws ends getDependencies with that error and state |
| Resolution.CallParameter | src/Container.php:431-442 | an explicit value is moved from the parameters to the arguments; otherwise the parameters are untouched and at most one argument is appended |
| Resolution.IsCallableWithAtSign | src/Container.php:374-377 | a string with an `@` splits into at least two segments |
| Resolution.CallArguments | src/Container.php:389-398 | from parameter i on, the loop appends at most one argument per parameter, and leaves exactly the explicit parameters that none of those parameters named |
| Resolution.MethodDependencies | src/Container.php:389-398 | arguments are derived only for a callable reflection knows |
| Resolution.CallClass | src/Container.php:469-483 | callClass succeeds only on a string, and calls a method on the object make returns for the part before the first `@`. The method is the part after `@` when there are exactly two segments, otherwise the default method |
| Resolution.Call | src/Container.php:229-238 | call changes only what resolution may change |
| Registry.Alias | src/Container.php:101-108 | alias fails exactly when the alias equals the unnormalized id. Otherwise it records the alias for the normalized id and changes nothing else |
| Registry.AliasStep | src/Container.php:140-145 | only the pair form registers an alias, and it fails exactly when the alias equals the id |
| Registry.ClosureFor | src/Container.php:140-156 | a closure is stored as given; a class name, normalized, or no concrete at all becomes getClosure's closure for the key |
| Registry.Rebind | src/Container.php:148-158 | the binding is stored under the key, and the key's instance and alias are dropped; nothing else changes |
| Registry.RemakeIfResolved | src/Container.php:160-162 | a name that was not resolved is not remade, a resolved one is rebound, and a cyclic alias chain is the error with nothing changed |
| Registry.Rebound | src/Container.php:566-573 | rebound succeeds exactly when make does, and leaves make's state |
| Registry.Bind | src/Container.php:136-163 | a self-alias pair changes nothing. Otherwise the result grows from the registered state, and the rebound callbacks are never touched |
| Registry.BindIf | src/Container.php:175-180 | the rebound callbacks are never touched |
| Registry.Singleton | src/Container.php:191-194 | the rebound callbacks are never touched |
| Registry.Extend | src/Container.php:206-217 | with a non-null instance, it is replaced by its decoration and the result is rebound on that state (a make that may rebuild when the decoration is null); otherwise the extender is queued after the earlier ones and nothing else changes |
| Registry.PutInstance | src/Container.php:259-263 | the alias keyed at the name is dropped and the value stored; nothing else changes |
| Registry.Instance | src/Container.php:249-268 | the current revision refuses the pair form with a TypeError. An unbound name is only registered, and a bound one is rebound on the registered state, whose make may build and cache anew (a null value on a shared binding) |
| Registry.OffsetSet | src/Container.php:774-786 | the rebound callbacks are never touched |
| Registry.OffsetUnset | src/Container.php:794-799 | aliases, extenders, rebound callbacks and the counter are unchanged |
| Properties.MakeFollowsAlias | src/Container.php:281 | names that resolve to the same alias target make the same |
| Properties.MakeReturnsInstance | src/Container.php:283-285 | a non-null instance is returned as is and nothing changes |
| Properties.MakeResolves | src/Container.php:303 | after a successful make, resolved holds for the name |
| Properties.ResolvedAt | src/Container.php:357-366 | resolved holds for a name whose alias target was built or has an instance |
| Properties.SharedMakeTwice | src/Container.php:299-301 | a shared name makes the identical object again, and the second make changes nothing |
| Properties.MakeAtUnfold | src/Container.php:287-305 | without an instance, make builds the concrete, applies the extenders and settles |
| Properties.TransientMakeAt | src/Container.php:279-306 | making an unshared, undecorated class name gives a fresh object of that class and caches nothing |
| Properties.TransientBuild | src/Container.php:318-349 | an unshared class name makes a fresh object of its class, which is not cached |
| Properties.TransientMakeTwice | src/Container.php:279-306 | two makes of a transient class name give two distinct objects of that class |
| Properties.IndirectMakeAt | src/Container.php:534-541 | a name bound unshared to another plain class is made through make of that class: a fresh object of it, cached under neither name |
| Properties.IndirectBuild | src/Container.php:279-306 | the same, for make of the name as given |
| Properties.IndirectMakeTwice | tests/ContainerTest.php:95-106 | two makes of a name bound to another class give two distinct objects of that class |
| Properties.BuildUsesExplicit | src/Container.php:338-346 | each constructor parameter receives the explicit value given for its position, else the one under its name |
| Properties.TypedDependency | src/Container.php:728-739 | a typed parameter without an explicit value is made. A failure becomes the default only for an optional parameter and a caught Exception, and otherwise propagates |
| Properties.SelfBindingBuildsClass | src/Container.php:534-541 | a name bound to itself builds exactly as the unbound name does |
| Properties.ClosureBuilds | src/Container.php:534-541 | getClosure's closure builds the class when it is the key itself, and makes it otherwise, with the same parameters |
| Properties.DependencyRevisions | src/Godruoyi/Container/Container.php:669-686 | an unknown parameter class fails in the legacy revision even when an explicit value is given; the current revision uses the value |
| Properties.BuiltinDependency | src/Godruoyi/Container/Container.php:669-686 | a builtin-typed parameter without a value takes its default in the legacy revision, but is made from the container in the current one |
| Properties.AliasResolves | src/Container.php:101-108 | after alias, the alias resolves exactly as the normalized id does, and a normalized alias is bound |
| Properties.AliasKeepsBound | src/Container.php:85-90 | alias changes bound only for a name that normalizes to the alias |
| Properties.ChaseSelfLoop | src/Container.php:549-556 | a name aliased to itself never resolves |
| Properties.AliasSelfLoop | src/Container.php:103 | `alias('\x', 'x')` passes the self-alias check, and a make of `x` right after it recurses without end |
| Properties.MakeAliasCycle | src/Container.php:281 | make of a name whose alias chain never ends fails with an alias cycle |
| Properties.NewInstanceShared | src/Container.php:299-301 | an instance that appears during resolution under a fresh normalized key comes from a shared binding |
| Properties.BindRegisters | src/Container.php:136-163 | bind stores the closure and the shared flag under the key, and forgets the key's alias. An instance survives only for a shared binding, and the pair form records its alias |
| Properties.BindPairShares | src/Container.php:136-163 | after bind of a pair `[t => al]` as shared, make of the alias returns the identical object make of the key returned, and changes nothing |
| Properties.BindSelfAlias | src/Container.php:101-105 | binding the pair `[x => x]` fails and changes nothing |
| Properties.NotResolved | src/Container.php:357-366 | a name with no alias, instance or resolved mark is not resolved |
| Properties.BindUnresolved | src/Container.php:160-162 | bind of a name never resolved only registers it, whether or not it held an instance |
| Properties.BindIfKeeps | src/Container.php:175-180 | bindIf changes nothing for a bound name, and binds an unbound one as bind does |
| Properties.BindRemakesShared | src/Container.php:160-162 | bind of a name resolved before, with a shared binding, remakes it at once and caches the new object as its instance |
| Properties.SingletonRegisters | src/Container.php:191-194 | singleton stores what it is given as a shared binding |
| Properties.OffsetSetMakes | src/Container.php:774-786 | `$app[key] = v` binds the key unshared, and a later make of it returns the value, or calls the closure given |
| Properties.MakeInstance | src/Container.php:283-285 | a normalized, unaliased name with an instance makes that instance |
| Properties.InstanceByName | src/Container.php:249-268 | instance with a plain name only stores the value under the normalized name; the rebound make changes nothing |
| Properties.PutInstanceMakes | src/Container.php:279-306 | once a value is stored as an instance, the name is shared and resolved and make returns that value without touching the state |
| Properties.ReboundInstance | src/Container.php:566-573 | rebound on a name with a stored instance succeeds and leaves the state as it was |
| Properties.InstanceRegisters | src/Container.php:249-268 | after instance, the name is shared and resolved, make returns the value, and nothing is remade |
| Properties.InstancePairCurrent | src/Container.php:249 | the current revision refuses the pair form |
| Properties.InstancePairLegacy | src/Godruoyi/Container/Container.php:318-338 | the legacy revision registers the alias and the value, and the alias then makes the value |
| Properties.InstancePairRegisters | src/Godruoyi/Container/Container.php:318-338 | the pair form leaves exactly the alias and the stored value |
| Properties.PairAliasState | src/Godruoyi/Container/Container.php:318-338 | the alias points to the id, the id has no alias, and it holds the value |
| Properties.AliasMakesTarget | src/Container.php:549-556 | an alias of a name with an instance makes that instance |
| Properties.ExtendQueues | src/Container.php:214-216 | extend without an instance appends the extender and changes nothing else |
| Properties.DecoratedAppend | src/Container.php:295-297 | extenders decorate the object in registration order, a later one after an earlier one |
| Properties.ExtendInstance | src/Container.php:210-213 | extend of an existing instance replaces it in place with the decorated object |
| Properties.OffsetUnsetUnbinds | src/Container.php:794-799 | after offsetUnset the key is bound only through an alias |
| Properties.OffsetUnsetUnresolves | src/Container.php:794-799 | offsetUnset clears the resolved mark of a key that is not an alias |
| Properties.OffsetUnsetOthers | src/Container.php:794-799 | offsetUnset leaves every other name's binding, instance (key and value) and resolved mark alone |
| Properties.CallParameterTyped | src/Container.php:437-438 | a typed call parameter is made with no fallback: make's value is appended, or its error propagates |
| Properties.CallParameterUntyped | src/Container.php:439-441 | an untyped call parameter takes its default, or is skipped |
| Properties.CallDirect | src/Container.php:229-238 | a callable without `@` or default method gets the gathered arguments, then the explicit values no parameter named |
| Properties.CallAtSign | src/Container.php:374-377 | a string with `@` goes to callClass. One `@` names the method, and several `@` without a default method raise "Method not provided" |
| Properties.CallNonString | src/Container.php:469 | callClass of a non-string callable is a TypeError |
| Containers.Container.constructor | src/Container.php:38-77 | a new container has empty tables |
| Containers.Container.Make | src/Container.php:279-306 | the method computes Resolution.Make in place |
| Containers.Container.MakeAt | src/Container.php:283-305 | the method computes Resolution.MakeAt in place; its loop threads the object through the extenders in order |
| Containers.Container.Build | src/Container.php:318-349 | the method computes Resolution.Build in place |
| Containers.Container.GetDependencies | src/Container.php:682-699 | the loop computes Resolution.Dependencies in place |
| Containers.Container.Dependency | src/Container.php:686-695 | the method computes Resolution.Dependency in place |
| Containers.Container.ResolveClass | src/Container.php:728-739 | the method computes Resolution.ResolveClass in place |
| Containers.Container.AddDependencyForCallParameter | src/Container.php:431-442 | the method computes Resolution.CallParameter in place |
| Containers.Container.GetMethodDependencies | src/Container.php:389-398 | the loop computes Resolution.MethodDependencies in place |
| Containers.Container.CallClass | src/Container.php:469-483 | the method computes Resolution.CallClass in place |
| Containers.Container.Call | src/Container.php:229-238 | the method computes Resolution.Call in place |
| Containers.Container.OffsetGet | src/Container.php:760-763 | offsetGet (and get) is make |
| Containers.Container.OffsetExists | src/Container.php:747-750 | offsetExists (and has) is bound on the current tables |
| Containers.Container.Resolving | src/Godruoyi/Container/Container.php:449-452 | resolving changes nothing |
| Containers.Container.AfterResolving | src/Godruoyi/Container/Container.php:461-464 | afterResolving changes nothing |
| Containers.Container.Alias | src/Container.php:101-108 | the method computes Registry.Alias in place, and a refused alias changes nothing |
| Containers.Container.Register | src/Container.php:251-257 | the alias step of bind and instance, in place |
| Containers.Container.Rebound | src/Container.php:566-573 | the method computes Registry.Rebound in place |
| Containers.Container.Bind | src/Container.php:136-163 | the method computes Registry.Bind in place |
| Containers.Container.RemakeIfResolved | src/Container.php:160-162 | the end of bind, in place |
| Containers.Container.BindIf | src/Container.php:175-180 | the method computes Registry.BindIf in place |
| Containers.Container.Singleton | src/Container.php:191-194 | the method computes Registry.Singleton in place |
| Containers.Container.Extend | src/Container.php:206-217 | the method computes Registry.Extend in place |
| Containers.Container.Instance | src/Container.php:249-268 | the method computes Registry.Instance in place |
| Containers.Container.OffsetSet | src/Container.php:774-786 | the method computes Registry.OffsetSet in place |
| Containers.Container.OffsetUnset | src/Container.php:794-799 | the method computes Registry.OffsetUnset in place |

## Left out

- PHP reflection is given as data in `World`: `ReflectionClass`, `ReflectionFunction`, `ReflectionMethod`, `newInstanceArgs` and `getCallReflector` (src/Container.php:408-419), including its `Class::method` split. A callable's parameters are `World.signature`, and a failed reflection is the error `ReflectionFailure`.
- The PHP-version switch inside `getParameterClass` is not modelled. Each revision is modelled with the branch it takes on a current PHP.
- User closures and extenders are runtime oracles (`World.invoke`, `World.decorate`), and their bodies are not modelled:
  - what they do to the container they are passed is not modelled;
  - the parameters a user closure receives from `build` are not modelled.
  - what extenders allocate is not modelled: `World.decorate` is not given the object counter, so an extender cannot return a fresh object of its own.
- `call_user_func_array` is not executed: `call` returns the callable with its argument list (`Invocation`).
- Named-argument semantics are not modelled: string keys surviving `array_merge` into `call_user_func_array` become plain positional values (`array_values`).
- Rebound callbacks are never registered by any operation, so `rebound`'s loop over them has no body to run and is not modelled. The table is kept and proved untouched.
- Non-string arguments are outside the model:
  - `normalize` of a non-string is the identity in PHP; names are always strings here;
  - the legacy revision's `bindIf`, `callClass` and `alias` with non-string arguments are typed as strings here.
- `is_numeric` on string keys is not modelled: a key is an integer or a string, as PHP stores it, and only integer keys are re-keyed. PHP converts only canonical decimal integer strings to integer keys. Other numeric strings such as `"1.5"`, `"1e3"`, `" 1"` or `"01"` stay string keys, yet `is_numeric` holds of them. keyParametersByArgument (src/Container.php:663-667) would re-key them under the name read at that key, which is undefined and gives the key `""`. The model keeps them as named keys.
- PHP's loose comparison `==` in getClosure's `$abstract == $concrete` is modelled as string equality. PHP treats numeric strings such as `"1"` and `"01"` as equal there, so `getClosure('1', '01')` builds in PHP, while the model compares them as different strings and makes.
- Class names are case-sensitive here, unlike PHP's class lookup.
- Union and intersection parameter types, and `getParameterClass` of those, are not modelled.
- Exception messages are not modelled, only the error kinds.
- `__get`/`__set`, the unused static `$instance`, the PSR `ContainerInterface` base and the service-provider interfaces are not modelled. They carry no logic of the container.
- make's `else $this->make($concrete)` branch is dead: getConcrete always returns something buildable. It is omitted, and `Tables.GetConcrete` proves it unreachable.
- Resolution.Make: the depth of the recursion is bounded by `fuel`. Running out is the error `OutOfFuel`. That is where PHP would recurse on until the stack overflows, but also where a finite recursion is deeper than the fuel given: a class that needs a class without a constructor fails with fuel 1 and succeeds with fuel 2. No lemma states that more fuel keeps a result that is not `OutOfFuel`.
- Resolution.ResolveClass, Resolution.Call, Resolution.MethodDependencies, Resolution.Dependencies, Registry.BindIf, Registry.Singleton and Registry.OffsetSet: their own contracts state only part of what they do (the frame, the length, or the callbacks left alone). The rest is stated by lemmas, and by the class methods that compute them:
  - ResolveClass by Properties.TypedDependency;
  - Call and MethodDependencies by Properties.CallDirect, Properties.CallAtSign and Properties.CallNonString;
  - Dependencies by Resolution.DependenciesElements and Resolution.DependenciesValues;
  - BindIf by Properties.BindIfKeeps;
  - Singleton by Properties.SingletonRegisters;
  - OffsetSet by Properties.OffsetSetMakes.
