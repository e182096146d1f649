# confit's configuration factory, in Dafny

This project models the `Factory` class of confit, a layered configuration
loader for Node.js. A factory owns one promise chain. Each link takes the
store built so far and produces the next one. Construction seeds the chain
from `{}` with five links:

1. merge the command-line arguments;
2. merge the environment variables;
3. merge the convenience values;
4. merge the base file (`config.json` unless the caller names another);
5. merge the per-environment file `<store.env.env>.json`.

The two file links are wrapped in `Factory.conditional`, which turns a
`MODULE_NOT_FOUND` failure into "keep the store". `addDefault` and
`addOverride` each append one link that merges a caller-supplied layer under
or over the store. A string layer is loaded from disk when the call is made.
`create` appends import, custom-protocol and reference resolution, and calls
its callback once, with the first error or with the finished `Config`.

The model is functional:

- `js.dfy` (module `Js`): the JavaScript values the factory touches. It also
  holds thrown errors with their `code`, a `Result` type for "returns or
  throws/rejects", truthiness, a property read that throws on
  `undefined`/`null`, and the string conversion of `+`.
- `collaborators.dfy` (module `Collaborators`): a `Runtime` record with one
  function-valued field per collaborator the factory calls but does not
  define: `Common.merge`, `shush`, the three providers, the three handlers,
  `Path.join` and `Common.isAbsolute`. Every property holds for every
  `Runtime`.
- `chain.dfy` (module `Chain`): one `Step` per `.then` continuation. `Apply`
  runs one step and `Run` folds the steps left to right, stopping at the
  first failure. The lemmas cover appending, short-circuiting, and the
  first failing step.
- `confit.dfy` (module `Confit`): the factory itself: `New`, `ResolveFile`,
  `AddDefault`, `AddOverride`, `Create`, and a fluent sequence of
  registrations.
- `driver.dfy` (module `Driver`): an imperative driver that settles the chain
  one continuation at a time. It is proved equal to the fold, and it counts
  how many continuations started.

Two behaviours of the code are easy to miss:

- An `addDefault("missing.json")` for a missing file does not reach
  `create`'s callback. `_resolveFile` (lib/factory.js:89-95) calls `shush`
  synchronously inside `addDefault` (lib/factory.js:60), so the error is
  thrown by `addDefault` itself and no step is appended. `AddDefault` and
  `AddOverride` therefore return `Result<Factory>`.
- A missing per-environment file is skipped only when the path can be
  computed. If the store has no `env` object, reading `store.env.env`
  throws a TypeError. The same happens when the name is an object with its
  own `toString` key, or an array holding one, because `+` cannot turn it
  into a string. That error has no code, so `conditional` re-throws it and
  the build fails (`EnvFilePath`). If `store.env` is any other value with no
  own `env`, the file looked for is `undefined.json`.

## Model

| member | source | states |
|---|---|---|
| Js.Get | lib/factory.js:40 | A property read such as `store.env` throws exactly when the receiver is `undefined` or `null`, and that error has no code. An object yields its own property `env`, or `undefined` when it lacks one. |
| Chain.IsModuleNotFound | lib/factory.js:50 | The guard `err.code && err.code === 'MODULE_NOT_FOUND'` holds exactly when the code is the string `MODULE_NOT_FOUND`; the truthiness test adds nothing. |
| Chain.Conditional | lib/factory.js:45-57 | A wrapped attempt that succeeds is returned as is. A `MODULE_NOT_FOUND` failure becomes the unchanged input store. Any other failure, including one with no code, is re-raised unchanged. The result is never a not-found failure. |
| Chain.BaseFileStep | lib/factory.js:35-38 | The conditional base-file step loads `join(basedir, name)`. A `MODULE_NOT_FOUND` failure gives the unchanged store. Any other failure `e` gives `Failure(e)`. A loaded value `v` gives `merge(v, store)`, with the file winning. |
| Js.ToJsString | lib/factory.js:40 | The string conversion `name + '.json'` performs fails, with a TypeError that has no code, exactly when the name is an object with an own `toString` key or an array containing such a value. A string converts to itself and any other object to `[object Object]`. |
| Chain.EnvFilePath | lib/factory.js:40 | The env file path is `join(basedir, store.env.env + ".json")`, computed from the store the earlier steps produced. It fails exactly when `store` or `store.env` is `undefined`/`null` or the name cannot be converted, always with an error that has no code. `store.env` of any other shape with no own `env` names `undefined.json`. For each kind of name, the path is `<string>.json`, `undefined.json`, `null.json`, `true.json`/`false.json`, `<decimal>.json`, `[object Object].json`, or the comma-joined elements of an array followed by `.json`. |
| Chain.EnvFileStep | lib/factory.js:39-42 | When `store` or `store.env` is `undefined`/`null`, or the name cannot be converted to a string, the conditional per-environment step fails with an error that has no code, so `conditional` does not catch it and the build fails. Otherwise the same three cases as the base file apply at the computed path. |
| Chain.RunAppend | lib/factory.js:31-42 | Running a chain with steps appended is running the old chain, then continuing its result with the new steps: `.then` composes in registration order. |
| Chain.ShortCircuit | lib/factory.js:82-86 | Once a prefix of the chain fails, appending further steps leaves the outcome unchanged. |
| Chain.FailureIsFirstFailingStep | lib/factory.js:82-86 | The chain fails with `e` if and only if some step fails with `e` after every step before it succeeded. |
| Chain.FirstFailingStepUnique | lib/factory.js:82-86 | At most one step is the first failing one, so the error that reaches the end is determined. |
| Confit.New | lib/factory.js:28-42 | A fresh factory keeps `basedir` and the protocols (`{}` when omitted). Its chain has exactly five steps in order: argv, env, convenience, base file (`config.json` when omitted), env file. |
| Confit.FreshChain | lib/factory.js:31-42 | Running a fresh chain from `{}` gives `merge(convenience, merge(env, merge(argv, {})))`. The conditional base-file step at `join(basedir, defaults)` follows, then the conditional env-file step on the base-file step's result. |
| Confit.LayerPath | lib/factory.js:91 | An absolute layer path is used as given; a relative one is joined to `basedir`. |
| Confit.ResolveFile | lib/factory.js:89-95 | A non-string layer is returned unchanged. A string layer is loaded with `shush` from its resolved path, and the outcome, error included, is the result. |
| Confit.AddDefault | lib/factory.js:59-68 | When the layer resolves, the same factory gets exactly one step appended after all existing ones, `Default(resolved)`, and nothing else changes. When it does not resolve, the call fails with the loader's error. |
| Confit.AddOverride | lib/factory.js:70-79 | The same as `AddDefault`, with the appended step `Override(resolved)`. |
| Confit.AddDefaultRunsLast | lib/factory.js:62-65 | After `addDefault`, the chain runs the earlier steps unchanged, then `resolveImport(resolved, basedir)`, then `merge(store, imported)`, with the store winning. Any earlier failure skips the new step. |
| Confit.AddOverrideRunsLast | lib/factory.js:73-76 | After `addOverride`, the chain runs the earlier steps unchanged, then `resolveImport`, then `merge(imported, store)`, with the layer winning. |
| Confit.RegisterAll | lib/factory.js:59-79 | A fluent sequence of calls succeeds if and only if every layer resolves, and then yields the factory itself. A failure is the error of the first layer that failed to load. Either way the factory object keeps its fields and gains, after its earlier steps, one step per completed call in call order, because each call updates `this.promise` before the next one is made. |
| Confit.Deliver | lib/factory.js:86 | The callback receives the error exactly when the chain rejected. Otherwise it receives a `Config` wrapping the final store. |
| Confit.Create | lib/factory.js:81-87 | `create` reports a chain failure as is. Otherwise it runs `resolveImport(store, basedir)`, `resolveCustom(·, protocols)` and `resolveConfig` in that order. It reports the first failure, or the configuration built from the last pass. |
| Confit.CreateReportsFirstFailure | lib/factory.js:81-86 | The callback gets an error `e` if and only if some step, among the registered ones and the resolution passes, fails with `e` after all steps before it succeeded. |
| Driver.Drive | lib/factory.js:82-86 | Settling the steps one at a time gives the fold's result. All steps start on success. On failure, the started steps are exactly those up to and including the first failing one. |

## Left out

- The internals of `Common.merge`, `shush`, `Provider.argv/env/convenience`, `Handlers.resolveImport/resolveCustom/resolveConfig`, `Config`, `Path.join` and `Common.isAbsolute`. Their sources are not part of this model, so they are fields of `Runtime` and every property holds for any of them. For that reason no precedence or deep-merge property is stated.
- The collaborators are total or return a `Result` as the factory uses them. A synchronous throw from `merge` or a provider inside a step would reject the chain like any failure; it is not modelled separately.
- File-system access and JSON parsing are I/O. `shush` is a function from path to `Result`.
- The `debuglog` warning on a skipped file (lib/factory.js:51) is logging only.
- Promise and microtask scheduling. Only the order it enforces matters, and the fold captures that order.
- Calling `create` twice on one factory. The code does not guard against it.
- An exception thrown by `cb` itself, or by `new Config`, in the success handler (lib/factory.js:86). It becomes an unhandled rejection and is not modelled.
- A thrown `undefined` or `null`. Reading `err.code` on it at lib/factory.js:50 would throw a TypeError that replaces the original error. A thrown string, number or boolean has `undefined` as its code, so line 54 re-throws it unchanged, as the model treats any error with no code. `shush` and the handlers throw `Error` objects.
- A constructor call whose `basedir` is not a string, or whose `defaults` or `protocols` is `null` rather than omitted. A destructuring default applies only to `undefined` (lib/factory.js:28), so a `null` `protocols` would reach `resolveCustom` (lib/factory.js:84); `Options` cannot express it.
- JavaScript numbers are integers here, with no bound. Floating point, NaN and the 2^53 limit are not modelled. `ToJsString` prints an integer as JavaScript does only when its magnitude is below 10^21; larger ones print in exponent form in JavaScript.
- Js.Get: inherited properties are not modelled. Examples are an object's `constructor`, a primitive's prototype members and an array's `length`. The only key the factory reads, `env`, is none of these.
- Layers, `basedir` and `protocols` are captured as values: a layer when it is registered, the other two at construction. The code reads the layer object (lib/factory.js:63, 74), `this.basedir` (lib/factory.js:36, 40, 63, 74, 83) and `this.protocols` (lib/factory.js:84) when each step runs. A caller that mutates one of these after registering it would see the change there, and the model does not.
