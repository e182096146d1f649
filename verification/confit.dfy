/**
 The `Factory` class: construction seeds the chain with five steps,
 `addDefault` / `addOverride` append one step each, and `create` appends the
 three resolution passes and reports the outcome to its callback.
 */
module Confit {
  import opened Js
  import opened Collaborators
  import opened Chain

  /** The base file's name when the caller gives none. */
  const DefaultFile: Path := "config.json"

  /** The constructor's options; `None` is an option the caller left out. */
  datatype Options = Options(basedir: Path, protocols: Option<Protocols>, defaults: Option<Path>)

  /** A factory: the fields its steps read, and the steps registered so far. */
  datatype Factory = Factory(ctx: Context, chain: seq<Step>)

  /** What `create` hands its callback: `cb(err)` or `cb(null, new Config(store))`. */
  datatype Config = Config(store: Value)
  datatype Callback = Errored(error: Error) | Configured(config: Config)

  /** A fluent call on a factory before `create`. */
  datatype Registration = AddDefaultCall(layer: Value) | AddOverrideCall(layer: Value)

  /** The passes `create` runs after every registered step. */
  const ResolutionPasses: seq<Step> := [ImportPass, CustomPass, ConfigPass]

  /** The chain as construction leaves it: argv, env and convenience merged
      into `{}`, then the base file and the per-environment file, each under
      `conditional`. */
  function New(o: Options): (f: Factory)
    ensures f.ctx.basedir == o.basedir
    ensures o.protocols.None? ==> f.ctx.protocols == map[]
    ensures o.protocols.Some? ==> f.ctx.protocols == o.protocols.value
    ensures |f.chain| == 5
    ensures f.chain[..3] == [Provide(Argv), Provide(Env), Provide(Convenience)]
    ensures o.defaults.None? ==> f.chain[3] == BaseFile(DefaultFile)
    ensures o.defaults.Some? ==> f.chain[3] == BaseFile(o.defaults.value)
    ensures f.chain[4] == EnvFile
  {
    var protocols := match o.protocols case Some(p) => p case None => map[];
    var defaults := match o.defaults case Some(d) => d case None => DefaultFile;
    Factory(Context(o.basedir, protocols),
            [Provide(Argv), Provide(Env), Provide(Convenience), BaseFile(defaults), EnvFile])
  }

  /** The file a layer path names: itself when absolute, else relative to `basedir`. */
  function LayerPath(rt: Runtime, basedir: Path, path: Path): (file: Path)
    ensures rt.isAbsolute(path) ==> file == path
    ensures !rt.isAbsolute(path) ==> file == rt.join(basedir, path)
  {
    if rt.isAbsolute(path) then path else rt.join(basedir, path)
  }

  /** `_resolveFile(obj)`: a string is loaded from disk at once, anything else is kept. */
  function ResolveFile(rt: Runtime, basedir: Path, layer: Value): (r: Result<Value>)
    ensures !layer.Str? ==> r == Success(layer)
    ensures layer.Str? ==> r == rt.shush(LayerPath(rt, basedir, layer.s))
  {
    match layer
    case Str(path) => rt.shush(LayerPath(rt, basedir, path))
    case _ => Success(layer)
  }

  /** `addDefault(obj)`: resolves the layer now, then appends one step that merges
      the store over it. A failed load is thrown by the call itself. */
  function AddDefault(rt: Runtime, f: Factory, layer: Value): (r: Result<Factory>)
    ensures r.Success? <==> ResolveFile(rt, f.ctx.basedir, layer).Success?
    ensures r.Failure? ==> r.error == ResolveFile(rt, f.ctx.basedir, layer).error
    ensures r.Success? ==>
      r.value == Factory(f.ctx, f.chain + [Default(ResolveFile(rt, f.ctx.basedir, layer).value)])
  {
    var resolved :- ResolveFile(rt, f.ctx.basedir, layer);
    Success(f.(chain := f.chain + [Default(resolved)]))
  }

  /** `addOverride(obj)`: like `addDefault`, but the appended step merges the layer over the store. */
  function AddOverride(rt: Runtime, f: Factory, layer: Value): (r: Result<Factory>)
    ensures r.Success? <==> ResolveFile(rt, f.ctx.basedir, layer).Success?
    ensures r.Failure? ==> r.error == ResolveFile(rt, f.ctx.basedir, layer).error
    ensures r.Success? ==>
      r.value == Factory(f.ctx, f.chain + [Override(ResolveFile(rt, f.ctx.basedir, layer).value)])
  {
    var resolved :- ResolveFile(rt, f.ctx.basedir, layer);
    Success(f.(chain := f.chain + [Override(resolved)]))
  }

  function Register(rt: Runtime, f: Factory, call: Registration): Result<Factory> {
    match call
    case AddDefaultCall(layer) => AddDefault(rt, f, layer)
    case AddOverrideCall(layer) => AddOverride(rt, f, layer)
  }

  /** The step a successful registration appends. */
  function StepFor(call: Registration, resolved: Value): Step {
    match call
    case AddDefaultCall(_) => Default(resolved)
    case AddOverrideCall(_) => Override(resolved)
  }

  /** `cb` is called once: with the error when the chain rejects, with the
      wrapped store when it fulfils. */
  function Deliver(outcome: Result<Value>): (c: Callback)
    ensures outcome.Failure? <==> c.Errored?
    ensures c.Errored? ==> c.error == outcome.error
    ensures c.Configured? ==> c.config.store == outcome.value
  {
    match outcome
    case Failure(e) => Errored(e)
    case Success(store) => Configured(Config(store))
  }

  /** `create(cb)`: the registered chain from `{}`, then import, custom-protocol
      and reference resolution; the first failure is what `cb` receives. */
  function Create(rt: Runtime, f: Factory): (c: Callback)
    ensures var chained := Run(rt, f.ctx, f.chain, EmptyObject);
      chained.Failure? ==> c == Errored(chained.error)
    ensures var chained := Run(rt, f.ctx, f.chain, EmptyObject);
      chained.Success? ==>
        var imported := rt.resolveImport(chained.value, f.ctx.basedir);
        && (imported.Failure? ==> c == Errored(imported.error))
        && (imported.Success? ==>
              var custom := rt.resolveCustom(imported.value, f.ctx.protocols);
              && (custom.Failure? ==> c == Errored(custom.error))
              && (custom.Success? ==> c == Deliver(rt.resolveConfig(custom.value))))
  {
    RunAppend(rt, f.ctx, f.chain, ResolutionPasses, EmptyObject);
    Deliver(Run(rt, f.ctx, f.chain + ResolutionPasses, EmptyObject))
  }

  /** Registering `calls` one after another, as the fluent `factory.addDefault(a).addOverride(b)...`
      does. Each call appends its step after all earlier ones. The first layer
      that fails to load is thrown and no later call is made, but the factory
      object keeps the steps the earlier calls appended: `g` is that object
      and `made` counts the calls that completed. */
  method RegisterAll(rt: Runtime, f: Factory, calls: seq<Registration>) returns (r: Result<Factory>, g: Factory, made: nat)
    ensures made <= |calls|
    ensures g.ctx == f.ctx
    ensures |g.chain| == |f.chain| + made
    ensures g.chain[..|f.chain|] == f.chain
    ensures forall i :: 0 <= i < made ==>
      && ResolveFile(rt, f.ctx.basedir, calls[i].layer).Success?
      && g.chain[|f.chain| + i] == StepFor(calls[i], ResolveFile(rt, f.ctx.basedir, calls[i].layer).value)
    ensures r.Success? <==>
      forall i :: 0 <= i < |calls| ==> ResolveFile(rt, f.ctx.basedir, calls[i].layer).Success?
    ensures r.Success? ==> made == |calls| && r.value == g
    ensures r.Failure? ==> FirstBadLayer(rt, f.ctx.basedir, calls, made, r.error)
  {
    g := f;
    made := 0;
    while made < |calls|
      invariant made <= |calls|
      invariant g.ctx == f.ctx
      invariant |g.chain| == |f.chain| + made
      invariant g.chain[..|f.chain|] == f.chain
      invariant forall j :: 0 <= j < made ==> ResolveFile(rt, f.ctx.basedir, calls[j].layer).Success?
      invariant forall j :: 0 <= j < made ==>
        g.chain[|f.chain| + j] == StepFor(calls[j], ResolveFile(rt, f.ctx.basedir, calls[j].layer).value)
    {
      var next := Register(rt, g, calls[made]);
      if next.Failure? {
        return Failure(next.error), g, made;
      }
      g := next.value;
      made := made + 1;
    }
    return Success(g), g, made;
  }

  /** Layer `i` is the first of `calls` whose load fails, with `e`. */
  ghost predicate FirstBadLayer(rt: Runtime, basedir: Path, calls: seq<Registration>, i: int, e: Error) {
    && 0 <= i < |calls|
    && ResolveFile(rt, basedir, calls[i].layer) == Failure(e)
    && forall j :: 0 <= j < i ==> ResolveFile(rt, basedir, calls[j].layer).Success?
  }

  /** A fresh factory's chain, run from `{}`: argv, env and convenience merged
      in that order, each as `merge(source, store)`, then the base file and the
      per-environment file, the latter named from the store the base-file step
      produced; a missing file in either is skipped. */
  lemma FreshChain(rt: Runtime, o: Options)
    ensures
      var f := New(o);
      var defaults := if o.defaults.Some? then o.defaults.value else DefaultFile;
      var provided := rt.merge(rt.convenience, rt.merge(rt.env, rt.merge(rt.argv, EmptyObject)));
      Run(rt, f.ctx, f.chain, EmptyObject) ==
        var base := BaseFileStep(rt, f.ctx, defaults, provided);
        if base.Failure? then base else EnvFileStep(rt, f.ctx, base.value)
  {
    var f := New(o);
    var c := f.chain;
    var s1 := rt.merge(rt.argv, EmptyObject);
    var s2 := rt.merge(rt.env, s1);
    var s3 := rt.merge(rt.convenience, s2);
    assert c[1..][1..] == c[2..] && c[2..][1..] == c[3..];
    assert Run(rt, f.ctx, c, EmptyObject) == Run(rt, f.ctx, c[1..], s1);
    assert Run(rt, f.ctx, c[1..], s1) == Run(rt, f.ctx, c[2..], s2);
    assert Run(rt, f.ctx, c[2..], s2) == Run(rt, f.ctx, c[3..], s3);
    var defaults := if o.defaults.Some? then o.defaults.value else DefaultFile;
    var tail := c[3..];
    assert tail == [BaseFile(defaults), EnvFile];
    assert tail[1..] == [EnvFile];
    assert Apply(rt, f.ctx, tail[0], s3) == BaseFileStep(rt, f.ctx, defaults, s3);
    match Apply(rt, f.ctx, tail[0], s3)
    case Failure(_) =>
    case Success(base) =>
      assert [EnvFile][1..] == [];
      assert Run(rt, f.ctx, tail, s3) == Run(rt, f.ctx, [EnvFile], base);
      match Apply(rt, f.ctx, EnvFile, base)
      case Failure(_) =>
        assert Run(rt, f.ctx, [EnvFile], base) == Apply(rt, f.ctx, EnvFile, base);
      case Success(last) =>
        assert Run(rt, f.ctx, [], last) == Success(last);
        assert Run(rt, f.ctx, tail, s3) == Success(last);
  }

  /** `addDefault` leaves every earlier step in place and runs its step last:
      on the earlier chain's store, merging that store over the imported layer. */
  lemma AddDefaultRunsLast(rt: Runtime, f: Factory, layer: Value, store: Value)
    requires AddDefault(rt, f, layer).Success?
    ensures
      var g := AddDefault(rt, f, layer).value;
      var resolved := ResolveFile(rt, f.ctx.basedir, layer).value;
      Run(rt, g.ctx, g.chain, store) ==
        match Run(rt, f.ctx, f.chain, store)
        case Failure(e) => Failure(e)
        case Success(s) =>
          match rt.resolveImport(resolved, f.ctx.basedir)
          case Failure(e) => Failure(e)
          case Success(obj) => Success(rt.merge(s, obj))
  {
    var g := AddDefault(rt, f, layer).value;
    var step := Default(ResolveFile(rt, f.ctx.basedir, layer).value);
    assert g.chain[..|f.chain|] == f.chain && g.chain[..|f.chain| + 1] == g.chain;
    RunSnoc(rt, f.ctx, g.chain, |f.chain|, store);
  }

  /** `addOverride` leaves every earlier step in place and runs its step last:
      on the earlier chain's store, merging the imported layer over that store. */
  lemma AddOverrideRunsLast(rt: Runtime, f: Factory, layer: Value, store: Value)
    requires AddOverride(rt, f, layer).Success?
    ensures
      var g := AddOverride(rt, f, layer).value;
      var resolved := ResolveFile(rt, f.ctx.basedir, layer).value;
      Run(rt, g.ctx, g.chain, store) ==
        match Run(rt, f.ctx, f.chain, store)
        case Failure(e) => Failure(e)
        case Success(s) =>
          match rt.resolveImport(resolved, f.ctx.basedir)
          case Failure(e) => Failure(e)
          case Success(obj) => Success(rt.merge(obj, s))
  {
    var g := AddOverride(rt, f, layer).value;
    var step := Override(ResolveFile(rt, f.ctx.basedir, layer).value);
    assert g.chain[..|f.chain|] == f.chain && g.chain[..|f.chain| + 1] == g.chain;
    RunSnoc(rt, f.ctx, g.chain, |f.chain|, store);
  }

  /** `create` hands its callback an error exactly when some step of the
      registered chain or of the resolution passes fails with it after every
      step before it succeeded; no later step contributes. */
  lemma CreateReportsFirstFailure(rt: Runtime, f: Factory, e: Error)
    ensures Create(rt, f) == Errored(e) <==>
      exists k :: FailsAt(rt, f.ctx, f.chain + ResolutionPasses, EmptyObject, k, e)
  {
    FailureIsFirstFailingStep(rt, f.ctx, f.chain + ResolutionPasses, EmptyObject, e);
  }
}
