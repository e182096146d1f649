/**
 Driving the factory's promise chain to completion, one continuation at a
 time: each continuation starts only once its predecessor has settled, and a
 rejection skips every continuation after it.
 */
module Driver {
  import opened Js
  import opened Collaborators
  import opened Chain

  /** Settles `steps` from `store`. `started` counts the continuations that ran:
      all of them on success, and on failure exactly those up to and including
      the first one that failed. */
  method Drive(rt: Runtime, ctx: Context, steps: seq<Step>, store: Value) returns (r: Result<Value>, started: nat)
    ensures r == Run(rt, ctx, steps, store)
    ensures started <= |steps|
    ensures r.Success? ==> started == |steps|
    ensures r.Failure? ==> 0 < started && FailsAt(rt, ctx, steps, store, started - 1, r.error)
  {
    var current := store;
    started := 0;
    while started < |steps|
      invariant started <= |steps|
      invariant Run(rt, ctx, steps[..started], store) == Success(current)
    {
      RunSnoc(rt, ctx, steps, started, store);
      var next := Apply(rt, ctx, steps[started], current);
      started := started + 1;
      if next.Failure? {
        PrefixFailurePersists(rt, ctx, steps, started, |steps|, store);
        assert steps[..|steps|] == steps;
        return next, started;
      }
      current := next.value;
    }
    assert steps[..|steps|] == steps;
    return Success(current), started;
  }
}
