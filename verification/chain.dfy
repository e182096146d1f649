/**
 The factory's deferred chain. Each `.then` continuation of the factory's
 promise is a `Step`; running the chain is a left fold over the steps that
 stops at the first failure, exactly as a rejected promise skips every
 later fulfilment handler.
 */
module Chain {
  import opened Js
  import opened Collaborators

  datatype Source = Argv | Env | Convenience

  /** One continuation on the factory's promise. */
  datatype Step =
      /** `store => Common.merge(Provider.<source>(), store)` */
    | Provide(source: Source)
      /** `conditional(store => Common.merge(shush(join(basedir, name)), store))` */
    | BaseFile(name: Path)
      /** `conditional(store => Common.merge(shush(join(basedir, store.env.env + '.json')), store))` */
    | EnvFile
      /** the step `addDefault` appends for an already resolved layer */
    | Default(layer: Value)
      /** the step `addOverride` appends for an already resolved layer */
    | Override(layer: Value)
      /** the three passes `create` appends */
    | ImportPass
    | CustomPass
    | ConfigPass

  /** The factory fields a step reads when it runs. */
  datatype Context = Context(basedir: Path, protocols: Protocols)

  function Provided(rt: Runtime, source: Source): Value {
    match source
    case Argv => rt.argv
    case Env => rt.env
    case Convenience => rt.convenience
  }

  /** The guard `err.code && err.code === 'MODULE_NOT_FOUND'`. */
  predicate IsModuleNotFound(e: Error)
    ensures IsModuleNotFound(e) <==> e.code == Str(ModuleNotFound)
  {
    Truthy(e.code) && e.code == Str(ModuleNotFound)
  }

  /** `Factory.conditional(fn)` applied to `store`, where `attempt` is what
      `fn(store)` produced: a missing file turns into the unchanged store,
      every other outcome of `fn` passes through. */
  function Conditional(attempt: Result<Value>, store: Value): (r: Result<Value>)
    ensures attempt.Success? ==> r == attempt
    ensures attempt.Failure? && IsModuleNotFound(attempt.error) ==> r == Success(store)
    ensures attempt.Failure? && !IsModuleNotFound(attempt.error) ==> r == attempt
    ensures r.Failure? ==> !IsModuleNotFound(r.error)
  {
    match attempt
    case Success(next) => Success(next)
    case Failure(e) => if IsModuleNotFound(e) then Success(store) else Failure(e)
  }

  /** `Common.merge(shush(file), store)`: the loaded file wins over the store. */
  function MergeFile(rt: Runtime, file: Path, store: Value): (r: Result<Value>)
    ensures r.Failure? <==> rt.shush(file).Failure?
    ensures r.Failure? ==> r.error == rt.shush(file).error
    ensures r.Success? ==> r.value == rt.merge(rt.shush(file).value, store)
  {
    var loaded :- rt.shush(file);
    Success(rt.merge(loaded, store))
  }

  /** The name `store.env.env` the per-environment file is named after. */
  function EnvName(store: Value): Result<Value> {
    var block :- Get(store, "env");
    Get(block, "env")
  }

  /** `Path.join(basedir, store.env.env + '.json')`. The name is read from the
      store the earlier steps produced. Reading it throws a TypeError (which
      carries no code) when `store` or `store.env` is `undefined` or `null`,
      and so does turning an unprintable name into a string. */
  function EnvFilePath(rt: Runtime, ctx: Context, store: Value): (r: Result<Path>)
    ensures r.Failure? <==>
      || store.Undefined? || store.Null?
      || (var block := Get(store, "env").value;
          || block.Undefined? || block.Null?
          || Unprintable(Get(block, "env").value))
    ensures r.Failure? ==> r.error.code == Undefined && !IsModuleNotFound(r.error)
    ensures store.Obj? && "env" in store.props
            && (var block := store.props["env"];
                && !block.Undefined? && !block.Null?
                && !(block.Obj? && "env" in block.props))
            ==> r == Success(rt.join(ctx.basedir, "undefined.json"))
    ensures r.Success? ==>
      var name := EnvName(store).value;
      && (name.Str? ==> r.value == rt.join(ctx.basedir, name.s + ".json"))
      && (name.Undefined? ==> r.value == rt.join(ctx.basedir, "undefined.json"))
      && (name.Null? ==> r.value == rt.join(ctx.basedir, "null.json"))
      && (name.Bool? ==> r.value == rt.join(ctx.basedir, if name.b then "true.json" else "false.json"))
      && (name.Num? ==> r.value == rt.join(ctx.basedir, Decimal(name.n) + ".json"))
      && (name.Obj? ==> r.value == rt.join(ctx.basedir, "[object Object].json"))
      && (name.Arr? ==> r.value == rt.join(ctx.basedir, Join(ElementStrings(name.items).value, ",") + ".json"))
  {
    var name :- EnvName(store);
    var text :- ToJsString(name);
    assert "undefined" + ".json" == "undefined.json";
    assert "null" + ".json" == "null.json";
    assert "true" + ".json" == "true.json";
    assert "false" + ".json" == "false.json";
    assert "[object Object]" + ".json" == "[object Object].json";
    Success(rt.join(ctx.basedir, text + ".json"))
  }

  /** The body of the environment-file step, before `conditional` wraps it. */
  function EnvFileAttempt(rt: Runtime, ctx: Context, store: Value): (r: Result<Value>)
    ensures EnvFilePath(rt, ctx, store).Failure? ==> r == EnvFilePath(rt, ctx, store).PropagateFailure()
    ensures EnvFilePath(rt, ctx, store).Success? ==> r == MergeFile(rt, EnvFilePath(rt, ctx, store).value, store)
  {
    var file :- EnvFilePath(rt, ctx, store);
    MergeFile(rt, file, store)
  }

  /** The base-file step `conditional(store => merge(shush(join(basedir, name)), store))`:
      a missing file leaves the store as it is, any other load error fails the
      step, and a loaded file is merged over the store. */
  function BaseFileStep(rt: Runtime, ctx: Context, name: Path, store: Value): (r: Result<Value>)
    ensures var loaded := rt.shush(rt.join(ctx.basedir, name));
      && (loaded.Failure? && IsModuleNotFound(loaded.error) ==> r == Success(store))
      && (loaded.Failure? && !IsModuleNotFound(loaded.error) ==> r == Failure(loaded.error))
      && (loaded.Success? ==> r == Success(rt.merge(loaded.value, store)))
  {
    Conditional(MergeFile(rt, rt.join(ctx.basedir, name), store), store)
  }

  /** The per-environment step: when the file name cannot be read from the
      store, or cannot be turned into a string, the step fails with an error
      that has no code, which `conditional` does not catch; otherwise it behaves like the base-file step on the
      computed path. */
  function EnvFileStep(rt: Runtime, ctx: Context, store: Value): (r: Result<Value>)
    ensures
      || store.Undefined? || store.Null?
      || (var block := Get(store, "env").value;
          || block.Undefined? || block.Null?
          || Unprintable(Get(block, "env").value))
      ==> r.Failure? && r.error.code == Undefined
    ensures EnvFilePath(rt, ctx, store).Success? ==>
      var loaded := rt.shush(EnvFilePath(rt, ctx, store).value);
      && (loaded.Failure? && IsModuleNotFound(loaded.error) ==> r == Success(store))
      && (loaded.Failure? && !IsModuleNotFound(loaded.error) ==> r == Failure(loaded.error))
      && (loaded.Success? ==> r == Success(rt.merge(loaded.value, store)))
  {
    Conditional(EnvFileAttempt(rt, ctx, store), store)
  }

  /** Runs one continuation on the store the previous one produced. */
  function Apply(rt: Runtime, ctx: Context, step: Step, store: Value): Result<Value> {
    match step
    case Provide(source) => Success(rt.merge(Provided(rt, source), store))
    case BaseFile(name) => BaseFileStep(rt, ctx, name, store)
    case EnvFile => EnvFileStep(rt, ctx, store)
    case Default(layer) =>
      var obj :- rt.resolveImport(layer, ctx.basedir);
      Success(rt.merge(store, obj))
    case Override(layer) =>
      var obj :- rt.resolveImport(layer, ctx.basedir);
      Success(rt.merge(obj, store))
    case ImportPass => rt.resolveImport(store, ctx.basedir)
    case CustomPass => rt.resolveCustom(store, ctx.protocols)
    case ConfigPass => rt.resolveConfig(store)
  }

  /** Drives `steps` in order from `store`; the first failure ends the run. */
  function Run(rt: Runtime, ctx: Context, steps: seq<Step>, store: Value): Result<Value>
    decreases |steps|
  {
    if |steps| == 0 then Success(store)
    else
      match Apply(rt, ctx, steps[0], store)
      case Failure(e) => Failure(e)
      case Success(next) => Run(rt, ctx, steps[1..], next)
  }

  /** `promise.then(...steps)`: continues a settled result with `steps`. */
  function Then(rt: Runtime, ctx: Context, r: Result<Value>, steps: seq<Step>): Result<Value> {
    match r
    case Failure(e) => Failure(e)
    case Success(store) => Run(rt, ctx, steps, store)
  }

  /** Step `k` is the one that fails, with `e`: every step before it succeeded. */
  ghost predicate FailsAt(rt: Runtime, ctx: Context, steps: seq<Step>, store: Value, k: int, e: Error) {
    && 0 <= k < |steps|
    && Run(rt, ctx, steps[..k], store).Success?
    && Apply(rt, ctx, steps[k], Run(rt, ctx, steps[..k], store).value) == Failure(e)
  }

  /** Appending steps to a chain runs the old chain first and the new steps on its result. */
  lemma {:induction false} RunAppend(rt: Runtime, ctx: Context, a: seq<Step>, b: seq<Step>, store: Value)
    ensures Run(rt, ctx, a + b, store) == Then(rt, ctx, Run(rt, ctx, a, store), b)
    decreases |a|
  {
    if |a| == 0 {
      assert a + b == b;
    } else {
      assert (a + b)[0] == a[0];
      assert (a + b)[1..] == a[1..] + b;
      match Apply(rt, ctx, a[0], store)
      case Failure(e) =>
      case Success(next) =>
        RunAppend(rt, ctx, a[1..], b, next);
    }
  }

  /** Once a prefix of the chain fails, no later step changes the outcome. */
  lemma ShortCircuit(rt: Runtime, ctx: Context, a: seq<Step>, b: seq<Step>, store: Value)
    requires Run(rt, ctx, a, store).Failure?
    ensures Run(rt, ctx, a + b, store) == Run(rt, ctx, a, store)
  {
    RunAppend(rt, ctx, a, b, store);
  }

  /** Running one more step is applying it to the result of the chain so far. */
  lemma RunSnoc(rt: Runtime, ctx: Context, steps: seq<Step>, k: int, store: Value)
    requires 0 <= k < |steps|
    ensures Run(rt, ctx, steps[..k + 1], store) ==
      match Run(rt, ctx, steps[..k], store)
      case Failure(e) => Failure(e)
      case Success(s) => Apply(rt, ctx, steps[k], s)
  {
    assert steps[..k + 1] == steps[..k] + [steps[k]];
    RunAppend(rt, ctx, steps[..k], [steps[k]], store);
    match Run(rt, ctx, steps[..k], store)
    case Failure(e) =>
    case Success(s) =>
      assert [steps[k]][1..] == [];
      match Apply(rt, ctx, steps[k], s)
      case Failure(_) =>
      case Success(next) =>
        assert Run(rt, ctx, [], next) == Success(next);
  }

  /** The chain fails with `e` exactly when some step fails with `e` after all
      the steps before it succeeded. */
  lemma {:induction false} FailureIsFirstFailingStep(rt: Runtime, ctx: Context, steps: seq<Step>, store: Value, e: Error)
    ensures Run(rt, ctx, steps, store) == Failure(e) <==> exists k :: FailsAt(rt, ctx, steps, store, k, e)
    decreases |steps|
  {
    if |steps| == 0 {
      return;
    }
    assert steps[..0] == [];
    var rest := steps[1..];
    match Apply(rt, ctx, steps[0], store)
    case Failure(e0) =>
      if e0 == e {
        assert FailsAt(rt, ctx, steps, store, 0, e);
      } else {
        forall k | FailsAt(rt, ctx, steps, store, k, e)
          ensures false
        {
          if k > 0 {
            RunSnoc(rt, ctx, steps, 0, store);
            PrefixFailurePersists(rt, ctx, steps, 1, k, store);
          }
        }
      }
    case Success(next) =>
      FailureIsFirstFailingStep(rt, ctx, rest, next, e);
      forall k | 0 < k <= |steps|
        ensures Run(rt, ctx, steps[..k], store) == Run(rt, ctx, rest[..k - 1], next)
      {
        assert steps[..k][0] == steps[0];
        assert steps[..k][1..] == rest[..k - 1];
      }
      if Run(rt, ctx, steps, store) == Failure(e) {
        var j :| FailsAt(rt, ctx, rest, next, j, e);
        assert FailsAt(rt, ctx, steps, store, j + 1, e);
      }
      forall k | FailsAt(rt, ctx, steps, store, k, e)
        ensures Run(rt, ctx, steps, store) == Failure(e)
      {
        if k == 0 {
          assert false;
        }
        assert FailsAt(rt, ctx, rest, next, k - 1, e);
      }
  }

  /** A prefix that fails keeps failing as the prefix grows. */
  lemma PrefixFailurePersists(rt: Runtime, ctx: Context, steps: seq<Step>, i: int, j: int, store: Value)
    requires 0 <= i <= j <= |steps|
    requires Run(rt, ctx, steps[..i], store).Failure?
    ensures Run(rt, ctx, steps[..j], store) == Run(rt, ctx, steps[..i], store)
  {
    assert steps[..j] == steps[..i] + steps[i..j];
    ShortCircuit(rt, ctx, steps[..i], steps[i..j], store);
  }

  /** There is at most one first failing step. */
  lemma FirstFailingStepUnique(rt: Runtime, ctx: Context, steps: seq<Step>, store: Value, k: int, j: int, e: Error, e': Error)
    requires FailsAt(rt, ctx, steps, store, k, e)
    requires FailsAt(rt, ctx, steps, store, j, e')
    ensures k == j && e == e'
  {
    if k < j {
      RunSnoc(rt, ctx, steps, k, store);
      PrefixFailurePersists(rt, ctx, steps, k + 1, j, store);
    } else if j < k {
      RunSnoc(rt, ctx, steps, j, store);
      PrefixFailurePersists(rt, ctx, steps, j + 1, k, store);
    }
  }
}
