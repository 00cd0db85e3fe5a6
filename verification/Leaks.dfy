/** Exactly when a file the controller wrote stops being tracked by the cache. */
module Leaks {
  import opened Strings
  import opened KongFiles
  import opened Protocol
  import opened Machine
  import opened Timelines
  import opened Effects

  predicate TracksPath(cache: map<string, KongFile>, key: string, path: string) {
    key in cache && Build(cache[key].spec).path == path
  }

  predicate Tracked(s: State, path: string) {
    exists key :: key in s.site.cache && TracksPath(s.site.cache, key, path)
  }

  /** Written by the controller, still there, and no cache entry would ever delete it. */
  predicate Leaked(s: State, path: string) {
    path in s.authors && !Tracked(s, path)
  }

  predicate OnlyTracker(s: State, key: string, path: string) {
    TracksPath(s.site.cache, key, path) &&
    forall k :: k in s.site.cache && TracksPath(s.site.cache, k, path) ==> k == key
  }

  datatype Cause = NoCause | FailedDelete | MisdirectedDelete | PushedElsewhere | LostInRestart

  /** Whether a pass on the only key that tracks a written path strands that path, and why. */
  function PassCause(cls: string, s: State, key: string, env: Env, path: string): Cause {
    match BranchOf(cls, s.site.api, key, env)
    case Absent => if Applied(path, env.delete) then NoCause else FailedDelete
    case Expiring(obj) =>
      var target := Build(obj.spec).path;
      if !env.get.Served? || target !in s.site.kong || IsBlank(target) then NoCause
      else if target != path then MisdirectedDelete
      else if Applied(path, env.delete) then NoCause else FailedDelete
    case Pushing(obj) => if Build(obj.spec).path == path then NoCause else PushedElsewhere
    case _ => NoCause
  }

  /** Whether a step strands a path, and why, from the state before the step and the answers it gets. */
  function CauseOf(cls: string, s: State, step: Step, path: string): Cause {
    if !Enabled(s, step) || path !in s.authors then NoCause
    else if step.Restart? && Tracked(s, path) then LostInRestart
    else if step.Pass? && OnlyTracker(s, step.key, path) then PassCause(cls, s, step.key, step.env, path)
    else NoCause
  }

  lemma DropUntracks(s: State, s': State, key: string, gone: string, answer: Answer, path: string)
    requires Dropped(s, s', key, gone, answer) && path in s.authors && Tracked(s, path)
    ensures Leaked(s', path) <==> OnlyTracker(s, key, path) && !(gone == path && Applied(path, answer))
  {
    if k :| k in s.site.cache && TracksPath(s.site.cache, k, path) && k != key {
      assert k in s'.site.cache && TracksPath(s'.site.cache, k, path);
    } else {
      assert OnlyTracker(s, key, path);
      assert forall k :: k in s'.site.cache ==> k in s.site.cache && s'.site.cache[k] == s.site.cache[k];
    }
  }

  lemma PushUntracks(s: State, s': State, key: string, obj: KongFile, answer: Answer, path: string)
    requires Pushed(s, s', key, obj, answer) && path in s.authors && Tracked(s, path)
    ensures Leaked(s', path) <==> OnlyTracker(s, key, path) && Build(obj.spec).path != path
  {
    assert TracksPath(s'.site.cache, key, Build(obj.spec).path);
    if k :| k in s.site.cache && TracksPath(s.site.cache, k, path) && k != key {
      assert k in s'.site.cache && TracksPath(s'.site.cache, k, path);
    } else {
      assert OnlyTracker(s, key, path);
      assert forall k :: k in s'.site.cache && k != key ==> k in s.site.cache && s'.site.cache[k] == s.site.cache[k];
    }
  }

  lemma PushCreatesNoLeak(s: State, s': State, key: string, obj: KongFile, answer: Answer, path: string)
    requires Pushed(s, s', key, obj, answer) && path !in s.authors
    ensures !Leaked(s', path)
  {
    assert TracksPath(s'.site.cache, key, Build(obj.spec).path);
  }

  lemma SameTracking(s: State, s': State, path: string)
    requires s'.site.cache == s.site.cache
    ensures Tracked(s', path) <==> Tracked(s, path)
  {
  }

  lemma LeakInPass(cls: string, s: State, s': State, key: string, env: Env, path: string)
    requires PassFacts(cls, s, s', key, env) && Enabled(s, Pass(key, env)) && !Leaked(s, path)
    ensures Leaked(s', path) <==> CauseOf(cls, s, Pass(key, env), path) != NoCause
  {
    var branch := BranchOf(cls, s.site.api, key, env);
    if path !in s.authors {
      if branch.Pushing? {
        PushCreatesNoLeak(s, s', key, branch.obj, env.put, path);
      } else {
        OtherBranchesShrink(s, s', key, branch, env);
      }
    } else if branch.Pushing? {
      PushUntracks(s, s', key, branch.obj, env.put, path);
    } else if Untouched(s, s') && (!branch.Absent? || key !in s.site.cache) && !branch.Expiring? {
      SameTracking(s, s', path);
    } else if branch.Absent? {
      DropUntracks(s, s', key, Build(s.site.cache[key].spec).path, env.delete, path);
    } else {
      LeakInExpiry(cls, s, s', key, env, path, branch.obj);
    }
  }

  lemma LeakInExpiry(cls: string, s: State, s': State, key: string, env: Env, path: string, obj: KongFile)
    requires BranchOf(cls, s.site.api, key, env) == Expiring(obj) && Enabled(s, Pass(key, env))
    requires Effect(s, s', key, Expiring(obj), env) && path in s.authors && Tracked(s, path)
    ensures Leaked(s', path) <==> CauseOf(cls, s, Pass(key, env), path) != NoCause
  {
    var target := Build(obj.spec).path;
    if env.get.Served? && target in s.site.kong && !IsBlank(target) {
      DropUntracks(s, s', key, target, env.delete, path);
    } else {
      SameTracking(s, s', path);
    }
  }

  /** A path becomes leaked in a step exactly when the step has a cause for it. */
  lemma LeakIffCause(cls: string, s: State, step: Step, path: string)
    requires Legal(s.site.api) && !Leaked(s, path)
    ensures Leaked(Next(cls, s, step), path) <==> CauseOf(cls, s, step, path) != NoCause
  {
    if step.Pass? && Enabled(s, step) {
      PassHasFacts(cls, s, step.key, step.env);
      LeakInPass(cls, s, Next(cls, s, step), step.key, step.env, path);
    } else if !step.Pass? {
      OtherEffect(cls, s, step);
      if !step.Restart? {
        SameTracking(s, Next(cls, s, step), path);
      }
    }
  }

  /** The step that stranded a leaked path, with the path leaked ever since. */
  predicate StrandedAt(cls: string, kong: map<string, string>, steps: seq<Step>, path: string, n: nat)
    requires n < |steps|
  {
    CauseOf(cls, Exec(cls, Init(kong), steps[..n]), steps[n], path) != NoCause &&
    forall m :: n < m <= |steps| ==> Leaked(Exec(cls, Init(kong), steps[..m]), path)
  }

  lemma StillStranded(cls: string, kong: map<string, string>, before: seq<Step>, step: Step, path: string, n: nat)
    requires n < |before| && StrandedAt(cls, kong, before, path, n)
    requires Leaked(Exec(cls, Init(kong), before + [step]), path)
    ensures StrandedAt(cls, kong, before + [step], path, n)
  {
    var steps := before + [step];
    assert steps[..n] == before[..n] && steps[n] == before[n];
    forall m | n < m <= |steps| ensures Leaked(Exec(cls, Init(kong), steps[..m]), path) {
      if m <= |before| {
        assert steps[..m] == before[..m];
      } else {
        assert steps[..m] == steps;
      }
    }
  }

  lemma JustStranded(cls: string, kong: map<string, string>, before: seq<Step>, step: Step, path: string)
    requires CauseOf(cls, Exec(cls, Init(kong), before), step, path) != NoCause
    requires Leaked(Exec(cls, Init(kong), before + [step]), path)
    ensures StrandedAt(cls, kong, before + [step], path, |before|)
  {
    var steps := before + [step];
    assert steps[..|before|] == before && steps[..|steps|] == steps;
  }

  /** Every leak of every run traces back to one of the four causes, without any assumption on the
      steps: failed deletes, misdirected deletes, pushes elsewhere and restarts are all there is. */
  lemma {:induction false} EveryLeakHasACause(cls: string, kong: map<string, string>, steps: seq<Step>, path: string)
    requires Leaked(Exec(cls, Init(kong), steps), path)
    ensures exists n :: 0 <= n < |steps| && StrandedAt(cls, kong, steps, path, n)
  {
    if steps == [] {
    } else {
      var before, step := steps[..|steps| - 1], steps[|steps| - 1];
      assert steps == before + [step];
      LegalRun(cls, kong, before);
      if Leaked(Exec(cls, Init(kong), before), path) {
        EveryLeakHasACause(cls, kong, before, path);
        var n :| 0 <= n < |before| && StrandedAt(cls, kong, before, path, n);
        StillStranded(cls, kong, before, step, path, n);
      } else {
        LeakIffCause(cls, Exec(cls, Init(kong), before), step, path);
        JustStranded(cls, kong, before, step, path);
      }
    }
  }
}
