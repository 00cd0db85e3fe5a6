/** The controller over mutable objects takes the steps of the runs. */
module Simulation {
  import opened KongFiles
  import opened Protocol
  import opened Machine
  import opened Timelines
  import opened Controller

  /** An API server in any reachable state keeps every version under its own key. */
  lemma ReachableApiIsValid(client: ApiServer, cls: string, kong: map<string, string>, steps: seq<Step>)
    requires client.timelines == Exec(cls, Init(kong), steps).site.api
    ensures client.Valid()
  {
    LegalRun(cls, kong, steps);
    LegalIsWellKeyed(client.timelines);
  }

  lemma PassIsStep(cls: string, kong: map<string, string>, steps: seq<Step>, key: string, env: Env)
    requires Enabled(Exec(cls, Init(kong), steps), Pass(key, env))
    ensures var s, s' := Exec(cls, Init(kong), steps), Exec(cls, Init(kong), steps + [Pass(key, env)]);
            var out := Reconcile(cls, s.site, key, env);
            s'.site == out.site && s'.log == s.log + Tag(key, out.requests) &&
            (key in s'.queue <==> !out.result.Done?)
  {
    assert (steps + [Pass(key, env)])[..|steps|] == steps;
  }

  /** With the stores of any reachable state, a pass of the controller on a queued key leaves the stores that
      the run has after the pass step, sends the requests the run logs, and asks for the key to come back
      exactly when the run keeps it queued. */
  method TakePass(reconciler: KongFileReconciler, request: NamespacedName, env: Env,
                  ghost kong: map<string, string>, ghost steps: seq<Step>)
    returns (result: Result)
    requires reconciler.proxy.store.Valid()
    requires reconciler.Stores() == Exec(reconciler.controllerClassName, Init(kong), steps).site
    requires Enabled(Exec(reconciler.controllerClassName, Init(kong), steps),
                     Pass(KeyOf(request.namespace, request.name), env))
    modifies reconciler.client, reconciler.proxy.store, reconciler.proxy.service
    ensures reconciler.Valid()
    ensures var key := KeyOf(request.namespace, request.name);
            var s := Exec(reconciler.controllerClassName, Init(kong), steps);
            var s' := Exec(reconciler.controllerClassName, Init(kong), steps + [Pass(key, env)]);
            reconciler.Stores() == s'.site && (result.Done? <==> key !in s'.queue) &&
            old(reconciler.proxy.service.wire) <= reconciler.proxy.service.wire &&
            s'.log == s.log + Tag(key, reconciler.proxy.service.wire[|old(reconciler.proxy.service.wire)|..])
  {
    ReachableApiIsValid(reconciler.client, reconciler.controllerClassName, kong, steps);
    PassIsStep(reconciler.controllerClassName, kong, steps, KeyOf(request.namespace, request.name), env);
    result := reconciler.Reconcile(request, env);
  }
}
