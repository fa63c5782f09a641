# HookLoader in Dafny

A model of a small PHP library that lets a WordPress plugin register its
actions and filters through objects rather than through the host's global
`add_action` / `add_filter` functions. The model has four parts:

- **Hook** (`Hooks.Hook`): a mutable record with four fields, each unset at
  first. These are a name, a callback, a priority and a parameter count.
  Setters check their argument's PHP type. A wrong type raises
  `InvalidArgumentException`, or the string-conversion `Error` when the value
  is an object, and the field keeps its old value. Getters raise
  `RuntimeException` while their field holds no valid value.
- **Factory** (`Factories.Factory`): makes hooks by cloning a prototype. PHP's
  `clone` copies every field. The new `Hook` that `__clone` returns is thrown
  away, so a made hook starts with the prototype's *current* fields.
- **Loader** (`Loaders.Loader`): two lists, actions and filters, in insertion
  order. `addAction`/`addFilter` build a hook through the factory and append
  it only once all four setters have accepted their arguments. `post` and
  `ajax` turn a query into a WordPress hook name. `register` forwards every
  action and then every filter to the delegate.
- **Delegate** (`WordPress.WordPressDelegate`): stands for the two host calls.
  It records each call it receives in `trace`, oldest first.

PHP's dynamic typing is modelled by `PhpValues.Value`. The PHP behaviours the
library depends on are modelled explicitly:
- string interpolation in error messages and hook names (`ToPhpString`);
- truthiness of `ajax`'s `$public` flag (`Truthy`);
- `is_callable` (`IsCallable`).
`is_callable` depends on which functions and methods exist in the running
process, so that part is a `Host` parameter.

Thrown exceptions are modelled as `Err` results. Three kinds exist:
- `InvalidArgument` for `InvalidArgumentException`;
- `Runtime` for `RuntimeException`;
- `StringConversion` for PHP's engine `Error` when an object is used as a
  string.

The model follows PHP 7.4 and later, where using an object without
`__toString` as a string throws a catchable `Error`. Earlier PHP versions
stop with a "recoverable fatal error" instead, which the model does not
describe. The conversion matters as written: `setName`, `setPriority` and
`setNumberOfParameters` build their message by interpolating the rejected
value. For an object such as a closure that raises the conversion `Error`
instead of the documented `InvalidArgumentException`. The model keeps that
behaviour. `post` and `ajax` raise the same `Error` for an object query.

A few places where the code does not do what a description of it might
suggest (the model follows the code):
- a hook name may be any string, the empty string included; only the type is
  checked;
- a made hook is in the default state only while the prototype is never
  changed (see `Scenarios.PrototypeStateIsCopied`);
- `register` does not skip hooks whose getters fail. The first failing getter
  throws out of `register`. The hooks before it have already been forwarded
  (see `Scenarios.RegisterStopsAtUncallable`).

## Model

| member | source | states |
|---|---|---|
| `PhpValues.ToPhpString` | src/Hook.php:175-178 | Interpolating a value fails exactly for an object. An int becomes its decimal text, which reads back as the same int. A string is used as it is. |
| `PhpValues.CallableValues` | src/Hook.php:89 | States what `IsCallable` accepts. Null, booleans and ints are never callable. A Closure object always is. Strings, arrays and other objects are callable exactly when the host knows them as callable. |
| `PhpValues.Truthy` | src/Loader/Loader.php:146 | A value is truthy exactly when it is none of null, false, 0, "", "0" and the empty array; every object is truthy. |
| `PhpValues.DecimalRoundTrip` | src/Hook.php:177 | The decimal text of any int reads back as that int, so a message names exactly the int received. |
| `Hooks.InvalidTypeMessage` | src/Hook.php:175-178 | The message is "Received non-{type} type: {value}". Building it fails exactly when the value is an object. |
| `Hooks.PropertyNotSetMessage` | src/Hook.php:188-191 | The message is "Cannot return {property} as it has not been set.". The property name can be read back from it. |
| `Hooks.TypeMismatch` | src/Hook.php:55-57 | A setter's failure for a non-object value is InvalidArgument carrying the "Received non-{type} type: {value}" message. For an object it is the conversion Error "Object of class {class} could not be converted to string". |
| `Hooks.AsString` | src/Hook.php:49-57 | Accepts exactly the strings, the empty one included. Anything else gives the type-mismatch failure for "string". |
| `Hooks.AsInteger` | src/Hook.php:103-111 | Accepts exactly the ints; the numeric string "1" is rejected. Anything else gives the type-mismatch failure for "integer". |
| `Hooks.Hook.constructor` | src/Hook.php:20-42 | A new hook has every field unset: no name, callback null, no priority, no parameter count. |
| `Hooks.Hook.SetName` | src/Hook.php:47-58 | A string is stored, `this` is returned and `GetName` then returns exactly that string. Any other value gives the type-mismatch failure (InvalidArgument, or the conversion Error for an object) and leaves `name` unchanged. Only `name` is in the frame. |
| `Hooks.Hook.GetName` | src/Hook.php:63-72 | Returns the stored name exactly when one is set. Otherwise raises Runtime("Cannot return name as it has not been set."). |
| `Hooks.Hook.SetCallback` | src/Hook.php:77-82 | Stores any value without checking it and returns `this`. For every host that can call the value, `GetCallback` then returns it. Only `callback` is in the frame. |
| `Hooks.Hook.GetCallback` | src/Hook.php:87-96 | Returns the callback exactly when it is callable, even after a set. Otherwise raises Runtime with the "callback" message. |
| `Hooks.Hook.SetPriority` | src/Hook.php:101-112 | An int is stored and read back by `GetPriority`, and `this` is returned. Any other value gives the type-mismatch failure (InvalidArgument, or the conversion Error for an object) and leaves `priority` unchanged. Only `priority` is in the frame. |
| `Hooks.Hook.GetPriority` | src/Hook.php:117-126 | Returns the last int set. If none was ever set, raises Runtime with the "priority" message. |
| `Hooks.Hook.SetNumberOfParameters` | src/Hook.php:131-142 | An int is stored and read back by `GetNumberOfParameters`, and `this` is returned. Any other value gives the type-mismatch failure (InvalidArgument, or the conversion Error for an object) and leaves the field unchanged. Only this field is in the frame. |
| `Hooks.Hook.GetNumberOfParameters` | src/Hook.php:147-156 | Returns the last int set. If none was ever set, raises Runtime with the "numberOfParameters" message. |
| `Hooks.Hook.Clone` | src/Hook.php:161-164 | `clone` gives a fresh object with all four fields equal to this hook's. The hook that `__clone` returns is discarded. |
| `WordPress.WordPressDelegate.constructor` | src/WordPress/WordPressDelegate.php:10-11 | A new delegate has received no calls. |
| `WordPress.WordPressDelegate.AddAction` | src/WordPress/WordPressDelegate.php:20-23 | Records exactly one `add_action` call with the four arguments at the end of the trace. |
| `WordPress.WordPressDelegate.AddFilter` | src/WordPress/WordPressDelegate.php:33-36 | Records exactly one `add_filter` call with the four arguments at the end of the trace. |
| `Factories.Factory.constructor` | src/Factory/Factory.php:23-26 | Holds the given prototype. The field is a constant, so nothing later replaces it. |
| `Factories.Factory.Make` | src/Factory/Factory.php:34-40 | Returns a fresh hook, distinct from the prototype, whose four fields equal the prototype's current ones. It modifies nothing, so the prototype is untouched. |
| `Loaders.Forward` | src/Loader/Loader.php:74-79 | Forwarding a hook succeeds exactly when name, priority and count are set and the callback is callable. The registration then carries exactly the hook's four fields. Otherwise the error is the first failing getter's, in argument order: no name gives the "name" message; else an uncallable callback gives "callback"; else no priority gives "priority"; else no count gives "numberOfParameters". |
| `Loaders.ForwardAll` | src/Loader/Loader.php:72-92 | One loop of `register` over a list, stopping at the first hook that cannot be forwarded. Every event it makes has the loop's kind: the action loop only calls `add_action`, the filter loop only `add_filter`. |
| `Loaders.ForwardAllStep` | src/Loader/Loader.php:72-81 | With no failure so far, hook i either appends its own event or ends the loop with its getter's error. |
| `Loaders.ForwardAllPrefix` | src/Loader/Loader.php:72-81 | One loop of `register` forwards a prefix of the list, one event per hook, in order, with that hook's fields. It stops exactly at the first hook that cannot be forwarded, with that hook's error. |
| `Loaders.ForwardAllSucceeds` | src/Loader/Loader.php:72-81 | The loop succeeds exactly when every hook can be forwarded. It then makes one call per hook, in list order. |
| `Loaders.FailureIsFinal` | src/Loader/Loader.php:72-81 | Once a getter has thrown, the hooks after it add nothing: the outcome over the whole list equals the outcome over the prefix. |
| `Loaders.RegisterFlush` | src/Loader/Loader.php:70-95 | All of `register`: the action loop, then the filter loop. If an action fails, the outcome is the action loop's, so no filter is forwarded. `register` succeeds only when both loops succeed. |
| `Loaders.RegisterForwardsAll` | src/Loader/Loader.php:70-95 | With N actions and M filters that can all be forwarded, `register` makes exactly N+M calls: every action in insertion order, then every filter in insertion order, each with its hook's fields. |
| `Loaders.RegisterFailsOnlyOnCallback` | src/Loader/Loader.php:70-92 | When every stored hook has name, priority and count set, `register` succeeds exactly when every callback is callable. Otherwise it fails with the "callback" Runtime error. |
| `Loaders.Validate` | src/Loader/Loader.php:102-106 | The setters accept exactly a string name, an int priority and an int count. The first rejected argument, in setter order, decides the error; the callback is never checked. |
| `Loaders.PostHookName` | src/Loader/Loader.php:132-137 | The hook name is "admin_post_" followed by the query's text. It fails exactly for an object query. |
| `Loaders.AjaxHookName` | src/Loader/Loader.php:142-153 | The name is "wp_ajax_nopriv_" + query for a truthy flag and "wp_ajax_" + query otherwise. It fails exactly for an object query. |
| `Loaders.PostAndAjaxNamesDiffer` | src/Loader/Loader.php:132-153 | No `post` name equals any `ajax` name. The query's text can be read back after the prefix. |
| `Loaders.AjaxNamesOverlap` | src/Loader/Loader.php:144-148 | The private ajax name for "nopriv_" + q is the public ajax name for q. |
| `Loaders.Loader.constructor` | src/Loader/Loader.php:61-65 | Stores the factory and the delegate. Both lists start empty. |
| `Loaders.Loader.MakeHook` | src/Loader/Loader.php:102-106 | When all setters accept, the result is a fresh, complete hook holding exactly the validated fields. Otherwise it is the first setter's error. |
| `Loaders.Loader.AddAction` | src/Loader/Loader.php:100-111 | On valid arguments, returns `this` and appends exactly one fresh hook holding the four values to `actions`. On a rejected argument, returns that error and `actions` is unchanged. `filters` is outside the frame. Every stored hook stays complete. |
| `Loaders.Loader.AddFilter` | src/Loader/Loader.php:116-127 | The same as `AddAction`, but for `filters`; `actions` is outside the frame. |
| `Loaders.Loader.Post` | src/Loader/Loader.php:132-137 | Exactly `AddAction("admin_post_" + query, callback, 10, 1)`. |
| `Loaders.Loader.Ajax` | src/Loader/Loader.php:142-153 | Exactly `AddAction` of `AjaxHookName(query, public)` with priority 10 and one parameter. `public` defaults to false. |
| `Loaders.Loader.Register` | src/Loader/Loader.php:70-95 | The delegate's trace grows by exactly the events of `RegisterFlush`. Returns `this`, or the first getter's error. When every stored hook was complete beforehand, which `AddAction` and `AddFilter` keep true, that error can only be the "callback" Runtime error. Only the delegate is in the frame, so the lists and hooks are unchanged. |
| `Loaders.Loader.ForwardHooks` | src/Loader/Loader.php:72-81 | One loop appends to the trace exactly the events of `ForwardAll` and reports its failure. |
| `Scenarios.ActionThenFilterAreRegistered` | tests/LoaderTest.php:23-40 | One action and one filter, then `register`: exactly `add_action` then `add_filter`, with the given values, and `register` returns `Ok` of that same loader. |
| `Scenarios.ForwardsOneOfEach` | tests/LoaderTest.php:23-40 | One complete action and one complete filter with a Closure callback give exactly one `add_action` and then one `add_filter` event, and no failure. |
| `Scenarios.RegisterTwice` | src/Loader/Loader.php:70-95 | Registering twice forwards the same action twice. |
| `Scenarios.RejectedArgumentsAddNothing` | src/Loader/Loader.php:100-127 | `addAction(2, ...)` raises "Received non-string type: 2". `addFilter` with priority "1" raises "Received non-integer type: 1". Both lists stay empty. |
| `Scenarios.RouteNames` | tests/LoaderTest.php:78-116 | The query "post_update" gives "admin_post_post_update", "wp_ajax_post_update" (the default) and "wp_ajax_nopriv_post_update". |
| `Scenarios.RegisterStopsAtUncallable` | src/Loader/Loader.php:72-81 | An action whose callback is the int 5 stops `register` with the "callback" Runtime error. Only the action before it has been forwarded. |
| `Scenarios.StopsAtSecondAction` | src/Loader/Loader.php:72-92 | A forwardable action followed by one whose callback is the int 5 gives one `add_action` event and the "callback" error, whatever the filters are. |
| `Scenarios.MadeHooksStartUnset` | src/Factory/Factory.php:11-13 | A hook made from a fresh prototype has all four getters failing with their Runtime messages. |
| `Scenarios.PrototypeStateIsCopied` | src/Hook.php:161-164 | A name set on the prototype shows up in a later made hook. Renaming the made hook leaves the prototype's name alone. |

## Left out

- Callback invocation, and the host's later priority-driven ordering of callbacks: the host owns both. The delegate only records the calls it receives.
- The `instanceof HookType` test in `register` (src/Loader/Loader.php:73, 84): the lists hold `Hook` objects only, so it always holds.
- `Routable::get` (src/Loader/Routable.php:46): declared in the interface but not implemented by `Loader`.
- The interfaces `HookType`, `Hookable`, `LoaderType`, `Registerable` and `Cloneable`: they have no behaviour of their own.
- Factories.Factory.constructor: the PHP factory accepts any `Cloneable` prototype; the model accepts only a `Hook`.
- Loaders.Loader.constructor: `hookFactory` and `wpDelegate` are public PHP properties; the model has them as fields that no loader method changes, but does not model outside code swapping them between calls (register uses whichever delegate the field holds at the time).
- PHP floats, objects with `__toString`, and the "Array to string conversion" diagnostic: floats are not a `Value`, and objects never convert. An array converts to "Array", and the model does not record the diagnostic PHP emits. PHP 7 reports it as a notice and PHP 8 as a warning; neither stops the call.
- PHP before 7.4: there, using an object as a string is a recoverable fatal error, not a catchable `Error`. The model follows PHP 7.4 and later.
- PHP's 64-bit integer range: the library does no arithmetic, so ints are unbounded.
- PHP strings are byte strings; the model uses `seq<char>`.
