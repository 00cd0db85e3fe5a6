/** The cache shares its objects with the passes that mutate them; nothing else can tell. */
module Aliasing {
  import opened Wrappers
  import opened KongFiles
  import opened Protocol
  import opened Machine
  import opened Timelines
  import opened Effects

  // ---------------------------------------------------------------- the cached status is never looked at

  predicate CachesAlike(a: map<string, KongFile>, b: map<string, KongFile>) {
    a.Keys == b.Keys && forall key :: key in a ==> SameButStatus(a[key], b[key])
  }

  /** The same state, except that cached objects may differ in status and resource version. */
  predicate Alike(a: State, b: State) {
    a == b.(site := b.site.(cache := a.site.cache)) && CachesAlike(a.site.cache, b.site.cache)
  }

  lemma CleanUpBlind(a: Site, b: Site, key: string, env: Env)
    requires a == b.(cache := a.cache) && CachesAlike(a.cache, b.cache)
    ensures var x, y := CleanUp(a, key, env), CleanUp(b, key, env);
            x.result == y.result && x.requests == y.requests &&
            x.site == y.site.(cache := x.site.cache) && CachesAlike(x.site.cache, y.site.cache)
  {
  }

  lemma UpdateBlind(a: Site, b: Site, key: string, obj: KongFile, answer: Answer)
    requires a == b.(cache := a.cache) && CachesAlike(a.cache, b.cache)
    ensures var x, y := UpdateObject(a, key, obj, answer), UpdateObject(b, key, obj, answer);
            x.result == y.result && x.requests == y.requests &&
            x.site == y.site.(cache := x.site.cache) && CachesAlike(x.site.cache, y.site.cache)
  {
  }

  lemma FinishBlind(a: Site, b: Site, key: string, obj: KongFile, answer: Answer)
    requires a == b.(cache := a.cache) && CachesAlike(a.cache, b.cache)
    ensures var x, y := FinishPush(a, key, obj, answer), FinishPush(b, key, obj, answer);
            x.1 == y.1 && x.0 == y.0.(cache := x.0.cache) && CachesAlike(x.0.cache, y.0.cache)
  {
  }

  lemma PushBlind(a: Site, b: Site, key: string, obj: KongFile, env: Env)
    requires a == b.(cache := a.cache) && CachesAlike(a.cache, b.cache)
    ensures var x, y := Push(a, key, obj, env), Push(b, key, obj, env);
            x.result == y.result && x.requests == y.requests &&
            x.site == y.site.(cache := x.site.cache) && CachesAlike(x.site.cache, y.site.cache)
  {
    UpdateBlind(a, b, key, obj, env.put);
    FinishBlind(
      UpdateObject(a, key, obj, env.put).site, UpdateObject(b, key, obj, env.put).site, key, obj, env.status);
  }

  /** No branch, request or result of a pass depends on the status of a cached object. */
  lemma ReconcileBlind(cls: string, a: Site, b: Site, key: string, env: Env)
    requires a == b.(cache := a.cache) && CachesAlike(a.cache, b.cache)
    ensures var x, y := Reconcile(cls, a, key, env), Reconcile(cls, b, key, env);
            x.result == y.result && x.requests == y.requests &&
            x.site == y.site.(cache := x.site.cache) && CachesAlike(x.site.cache, y.site.cache)
  {
    match BranchOf(cls, a.api, key, env)
    case Absent => CleanUpBlind(a, b, key, env);
    case Pushing(obj) => PushBlind(a, b, key, obj, env);
    case _ =>
  }

  lemma NextBlind(cls: string, a: State, b: State, step: Step)
    requires Alike(a, b)
    ensures Alike(Next(cls, a, step), Next(cls, b, step))
  {
    if step.Pass? {
      ReconcileBlind(cls, a.site, b.site, step.key, step.env);
    }
  }

  // ---------------------------------------------------------------- a controller that caches a copy

  /** The same controller, had it cached a copy of the object it read instead of the object itself. */
  function NextCopying(cls: string, s: State, step: Step): State {
    var s' := Next(cls, s, step);
    if step.Pass? && Enabled(s, step) && BranchOf(cls, s.site.api, step.key, step.env).Pushing? then
      s'.(site := s'.site.(cache := s'.site.cache[step.key := Seen(s.site.api, step.key).value]))
    else s'
  }

  function ExecCopying(cls: string, s: State, steps: seq<Step>): State {
    if steps == [] then s else NextCopying(cls, ExecCopying(cls, s, steps[..|steps| - 1]), steps[|steps| - 1])
  }

  lemma CopyOfPush(s: State, s': State, copied: State, key: string, obj: KongFile, answer: Answer)
    requires Pushed(s, s', key, obj, answer)
    requires copied == s'.(site := s'.site.(cache := s'.site.cache[key := obj]))
    ensures Alike(s', copied)
  {
    SameButStatusComposes(obj, s'.site.cache[key], s'.site.cache[key]);
  }

  lemma CopyingStep(cls: string, s: State, step: Step)
    requires Legal(s.site.api)
    ensures Alike(Next(cls, s, step), NextCopying(cls, s, step))
  {
    if step.Pass? && Enabled(s, step) && BranchOf(cls, s.site.api, step.key, step.env).Pushing? {
      PassHasFacts(cls, s, step.key, step.env);
      CopyOfPush(s, Next(cls, s, step), NextCopying(cls, s, step), step.key,
                 Seen(s.site.api, step.key).value, step.env.put);
    }
  }

  lemma AlikeComposes(a: State, b: State, c: State)
    requires Alike(a, b) && Alike(b, c)
    ensures Alike(a, c)
  {
    forall key | key in a.site.cache ensures SameButStatus(a.site.cache[key], c.site.cache[key]) {
      SameButStatusComposes(a.site.cache[key], b.site.cache[key], c.site.cache[key]);
    }
  }

  /** Over every run the sharing and the copying controller send the same requests and leave the API
      server, the portal and the queue the same: sharing only shows in the cached status. */
  lemma {:induction false} SharingIsHarmless(cls: string, kong: map<string, string>, steps: seq<Step>)
    ensures Alike(Exec(cls, Init(kong), steps), ExecCopying(cls, Init(kong), steps))
  {
    if steps == [] {
    } else {
      var before, step := steps[..|steps| - 1], steps[|steps| - 1];
      var s, copying := Exec(cls, Init(kong), before), ExecCopying(cls, Init(kong), before);
      SharingIsHarmless(cls, kong, before);
      LegalRun(cls, kong, before);
      NextBlind(cls, s, copying, step);
      CopyingStep(cls, copying, step);
      AlikeComposes(Next(cls, s, step), Next(cls, copying, step), NextCopying(cls, copying, step));
    }
  }

  // ---------------------------------------------------------------- what a clean-up deletes

  /** The file of the latest PUT sent for a key. */
  function LastPut(log: seq<LogEntry>, key: string): Option<File> {
    if log == [] then None
    else
      var last := log[|log| - 1];
      if last.key == key && last.request.PutFile? then Some(last.request.file)
      else LastPut(log[..|log| - 1], key)
  }

  lemma {:induction false} LastPutKept(log: seq<LogEntry>, log': seq<LogEntry>, key: string)
    requires log <= log'
    requires forall i :: |log| <= i < |log'| ==> log'[i].key != key || !log'[i].request.PutFile?
    ensures LastPut(log', key) == LastPut(log, key)
  {
    if |log'| == |log| {
      assert log == log';
    } else {
      LastPutKept(log, log'[..|log'| - 1], key);
    }
  }

  predicate CachedAsPut(s: State, key: string) {
    key in s.site.cache && KnownKind(s.site.cache[key].spec) ==>
      LastPut(s.log, key) == Some(Build(s.site.cache[key].spec))
  }

  ghost predicate AllCachedAsPut(s: State) {
    forall key :: CachedAsPut(s, key)
  }

  lemma CachedAsPutPass(cls: string, s: State, s': State, key: string, env: Env, other: string)
    requires PassFacts(cls, s, s', key, env) && CachedAsPut(s, other)
    requires LogEffect(s, s', key, BranchOf(cls, s.site.api, key, env), env)
    ensures CachedAsPut(s', other)
  {
    var branch := BranchOf(cls, s.site.api, key, env);
    if branch.Pushing? && other == key {
      BlankPathIffUnknownKind(branch.obj.spec);
    } else {
      LastPutKept(s.log, s'.log, other);
      if !branch.Pushing? {
        OtherBranchesShrink(s, s', key, branch, env);
      }
    }
  }

  lemma CachedAsPutStep(cls: string, s: State, step: Step)
    requires Legal(s.site.api) && AllCachedAsPut(s)
    ensures AllCachedAsPut(Next(cls, s, step))
  {
    var s' := Next(cls, s, step);
    if !step.Pass? {
      OtherEffect(cls, s, step);
      assert forall key :: CachedAsPut(s, key) ==> CachedAsPut(s', key);
    } else if Enabled(s, step) {
      PassHasFacts(cls, s, step.key, step.env);
      PassHasLogEffect(cls, s, step.key, step.env);
      forall key ensures CachedAsPut(s', key) {
        CachedAsPutPass(cls, s, s', step.key, step.env, key);
      }
    }
  }

  lemma {:induction false} CachedAsPutRun(cls: string, kong: map<string, string>, steps: seq<Step>)
    ensures AllCachedAsPut(Exec(cls, Init(kong), steps))
  {
    if steps == [] {
    } else {
      CachedAsPutRun(cls, kong, steps[..|steps| - 1]);
      LegalRun(cls, kong, steps[..|steps| - 1]);
      CachedAsPutStep(cls, Exec(cls, Init(kong), steps[..|steps| - 1]), steps[|steps| - 1]);
    }
  }

  /** The clean-up of the key, if one is due, sends one DELETE, for the path of the key's latest PUT. */
  predicate CleansUpLastPut(s: State, key: string, env: Env) {
    key in s.site.cache && KnownKind(s.site.cache[key].spec) ==>
      LastPut(s.log, key).Some? &&
      CleanUp(s.site, key, env).requests == [DeleteFile(LastPut(s.log, key).value.path, env.delete)]
  }

  lemma CachedAsPutCleansUp(s: State, key: string, env: Env)
    requires CachedAsPut(s, key)
    ensures CleansUpLastPut(s, key, env)
  {
    if key in s.site.cache && KnownKind(s.site.cache[key].spec) {
      BlankPathIffUnknownKind(s.site.cache[key].spec);
    }
  }

  /** In every reachable state a clean-up deletes exactly the path of the latest PUT, although the cached
      object was mutated after that PUT. */
  lemma CleanUpDeletesLastPut(cls: string, kong: map<string, string>, steps: seq<Step>)
    ensures forall key, env :: CleansUpLastPut(Exec(cls, Init(kong), steps), key, env)
  {
    CachedAsPutRun(cls, kong, steps);
    var s := Exec(cls, Init(kong), steps);
    forall key, env ensures CleansUpLastPut(s, key, env) {
      CachedAsPutCleansUp(s, key, env);
    }
  }
}
