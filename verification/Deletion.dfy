/** How passes on vanished, expiring and unrenderable objects end. */
module Deletion {
  import opened Wrappers
  import opened Strings
  import opened KongFiles
  import opened ClassMatching
  import opened Protocol
  import opened Machine
  import opened Timelines
  import opened Effects
  import opened Provenance
  import opened Histories

  // ---------------------------------------------------------------- vanished objects

  /** For a vanished object a readable pass comes back exactly when the key is still cached, and whatever
      the portal answers the next readable pass finds it gone, sends nothing and ends the chain. */
  lemma TwoPassesSuffice(cls: string, site: Site, key: string, first: Env, second: Env)
    requires Seen(site.api, key).None? && first.readable && second.readable
    ensures var out := Reconcile(cls, site, key, first);
            (out.result.Done? <==> key !in site.cache) && key !in out.site.cache &&
            Reconcile(cls, out.site, key, second) == Outcome(out.site, Done, [])
  {
    var out := Reconcile(cls, site, key, first);
    assert BranchOf(cls, site.api, key, first) == BranchOf(cls, out.site.api, key, second) == Absent;
    assert key !in out.site.cache;
  }

  /** The requeues are meant to make sure the file is gone. They do exactly when the first DELETE is carried
      out, or when there was no file: the second pass no longer knows the path. */
  lemma RemovedIffDeleteCarriedOut(cls: string, site: Site, key: string, first: Env, second: Env)
    requires Seen(site.api, key).None? && first.readable && second.readable
    requires key in site.cache && KnownKind(site.cache[key].spec)
    ensures var path := Build(site.cache[key].spec).path;
            var out := Reconcile(cls, Reconcile(cls, site, key, first).site, key, second);
            out.result.Done? && (path !in out.site.kong <==> path !in site.kong || !first.delete.Refused?)
  {
    TwoPassesSuffice(cls, site, key, first, second);
    BlankPathIffUnknownKind(site.cache[key].spec);
  }

  // ---------------------------------------------------------------- objects of another class

  /** A readable pass on an object without the controller's class is meant to remove the object. It does
      nothing at all, cached or not, exactly when the object has not expired; the key is gone from the cache
      exactly when it was not there or an expired object's file was found; and that file is gone exactly
      when it was not there or a DELETE was carried out. */
  lemma OtherClassIsLeftAlone(cls: string, site: Site, key: string, env: Env)
    requires env.readable && Seen(site.api, key).Some? && !MatchesClass(Seen(site.api, key).value, cls)
    ensures var obj, out := Seen(site.api, key).value, Reconcile(cls, site, key, env);
            var path := Build(obj.spec).path;
            var found := Expired(obj, env.now) && KnownKind(obj.spec) && env.get.Served? && path in site.kong;
            (out == Outcome(site, Done, []) <==> !Expired(obj, env.now)) &&
            (key !in out.site.cache <==> key !in site.cache || found) &&
            (path !in out.site.kong <==> path !in site.kong || (found && !env.delete.Refused?)) &&
            out.site.api == site.api && out.site.cache - {key} == site.cache - {key} &&
            out.site.kong - {path} == site.kong - {path}
  {
    BlankPathIffUnknownKind(Seen(site.api, key).value.spec);
    if Expired(Seen(site.api, key).value, env.now) {
      ExpiringNeverDone(cls, site, key, env);
    }
  }

  // ---------------------------------------------------------------- what is deleted

  /** The pass is to delete the file at this path: that of a cached object that has vanished, or that of an
      object shown past its deletion timestamp, once found. Neither the object's class nor who wrote the file
      plays a part. */
  predicate Deletes(site: Site, key: string, env: Env, path: string) {
    env.readable &&
    match Seen(site.api, key)
    case None => key in site.cache && KnownKind(site.cache[key].spec) && Build(site.cache[key].spec).path == path
    case Some(obj) =>
      Expired(obj, env.now) && KnownKind(obj.spec) && Build(obj.spec).path == path &&
      env.get.Served? && path in site.kong
  }

  /** Exactly when a pass sends a DELETE, and for which path. */
  lemma DeleteExactlyWhen(cls: string, site: Site, key: string, env: Env, path: string)
    ensures DeleteFile(path, env.delete) in Reconcile(cls, site, key, env).requests <==> Deletes(site, key, env, path)
    ensures forall request :: request in Reconcile(cls, site, key, env).requests && request.DeleteFile? ==>
              request.answer == env.delete
  {
    var requests := Reconcile(cls, site, key, env).requests;
    match BranchOf(cls, site.api, key, env)
    case Absent =>
      if key in site.cache {
        BlankPathIffUnknownKind(site.cache[key].spec);
      }
    case Expiring(obj) =>
      BlankPathIffUnknownKind(obj.spec);
      if Deletes(site, key, env, path) {
        assert requests[1] == DeleteFile(path, env.delete);
      }
    case _ =>
  }

  /** The pass is to publish the file at this path. */
  predicate Publishes(cls: string, site: Site, key: string, env: Env, path: string) {
    env.readable && Seen(site.api, key).Some? &&
    var obj := Seen(site.api, key).value;
    MatchesClass(obj, cls) && !obj.status.validated && KnownKind(obj.spec) && !Expired(obj, env.now) &&
    Build(obj.spec).path == path
  }

  /** What a step leaves at a path of the portal, in every case. */
  lemma FileAfterStep(cls: string, s: State, step: Step, path: string)
    requires Legal(s.site.api)
    ensures Lookup(Next(cls, s, step).site.kong, path) ==
            if step.OutsidePut? && step.file.path == path then Some(step.file.contents)
            else if step == OutsideDelete(path) then None
            else if !step.Pass? || !Enabled(s, step) then Lookup(s.site.kong, path)
            else if Publishes(cls, s.site, step.key, step.env, path) && !step.env.put.Refused?
            then Some(Build(Seen(s.site.api, step.key).value.spec).contents)
            else if Deletes(s.site, step.key, step.env, path) && !step.env.delete.Refused? then None
            else Lookup(s.site.kong, path)
  {
    if step.Pass? && Enabled(s, step) {
      PassHasFacts(cls, s, step.key, step.env);
      FileAfterPass(cls, s, Next(cls, s, step), step.key, step.env, path);
    } else if !step.Pass? {
      OtherEffect(cls, s, step);
    }
  }

  lemma FileAfterPass(cls: string, s: State, s': State, key: string, env: Env, path: string)
    requires PassFacts(cls, s, s', key, env)
    ensures Lookup(s'.site.kong, path) ==
            if Publishes(cls, s.site, key, env, path) && !env.put.Refused?
            then Some(Build(Seen(s.site.api, key).value.spec).contents)
            else if Deletes(s.site, key, env, path) && !env.delete.Refused? then None
            else Lookup(s.site.kong, path)
  {
    if Seen(s.site.api, key).Some? {
      BlankPathIffUnknownKind(Seen(s.site.api, key).value.spec);
    } else if key in s.site.cache {
      BlankPathIffUnknownKind(s.site.cache[key].spec);
    }
  }

  /** So a file disappears, whoever wrote it, exactly when an outsider takes it away or a pass that is to delete
      it has its DELETE carried out. */
  lemma FileGoneIff(cls: string, s: State, step: Step, path: string)
    requires Legal(s.site.api) && path in s.site.kong
    ensures path !in Next(cls, s, step).site.kong <==>
            step == OutsideDelete(path) ||
            (step.Pass? && Enabled(s, step) && Deletes(s.site, step.key, step.env, path) && !step.env.delete.Refused?)
  {
    FileAfterStep(cls, s, step, path);
  }

  // ---------------------------------------------------------------- expiring objects

  /** A pass on an object past its deletion timestamp never ends quietly. */
  lemma ExpiringNeverDone(cls: string, site: Site, key: string, env: Env)
    requires Seen(site.api, key).Some? && Expired(Seen(site.api, key).value, env.now)
    ensures !Reconcile(cls, site, key, env).result.Done?
  {
    assert !env.readable || BranchOf(cls, site.api, key, env) == Expiring(Seen(site.api, key).value);
  }

  predicate NoRestart(steps: seq<Step>) {
    forall step :: step in steps ==> !step.Restart?
  }

  lemma ExpiredStep(cls: string, s: State, step: Step, key: string)
    requires Legal(s.site.api) && key in s.queue && ExpiredNow(s, key)
    requires !step.Restart? || MatchesClass(Seen(s.site.api, key).value, cls)
    ensures var s' := Next(cls, s, step);
            TimelineOf(s'.site.api, key).seen == TimelineOf(s.site.api, key).seen ==>
              key in s'.queue && ExpiredNow(s', key)
  {
    var s' := Next(cls, s, step);
    GrowStep(cls, s, step);
    var t, t' := TimelineOf(s.site.api, key), TimelineOf(s'.site.api, key);
    assert t'.versions[t.seen] == t.versions[t.seen];
    if step.Pass? {
      if Enabled(s, step) && step.key == key {
        ExpiringNeverDone(cls, s.site, key, step.env);
      }
    }
  }

  /** Once queued, an expired object keeps its key queued until the informer shows another version; if it is
      of the controller's class, even across restarts. */
  lemma {:induction false} ExpiredStaysQueued(cls: string, s: State, steps: seq<Step>, key: string)
    requires Legal(s.site.api) && key in s.queue && ExpiredNow(s, key)
    requires NoRestart(steps) || MatchesClass(Seen(s.site.api, key).value, cls)
    ensures var s' := Exec(cls, s, steps);
            TimelineOf(s'.site.api, key).seen == TimelineOf(s.site.api, key).seen ==>
              key in s'.queue && ExpiredNow(s', key)
  {
    if steps == [] {
    } else {
      var before, step := steps[..|steps| - 1], steps[|steps| - 1];
      ExpiredStaysQueued(cls, s, before, key);
      GrowRun(cls, s, before);
      GrowStep(cls, Exec(cls, s, before), step);
      if TimelineOf(Exec(cls, s, before).site.api, key).seen == TimelineOf(s.site.api, key).seen {
        assert Seen(Exec(cls, s, before).site.api, key) == Seen(s.site.api, key);
        ExpiredStep(cls, Exec(cls, s, before), step, key);
      }
    }
  }

  // ---------------------------------------------------------------- unknown kinds

  /** No version of the key ever has a kind the portal knows. */
  ghost predicate NeverKnown(api: Api, key: string) {
    forall i | HasVersion(api, key, i) :: !KnownKind(Version(api, key, i).spec)
  }

  lemma NeverKnownStems(api: Api, key: string, obj: KongFile)
    requires NeverKnown(api, key) && Stems(api, key, obj)
    ensures !KnownKind(obj.spec)
  {
    var i :| HasVersion(api, key, i) && SameButStatus(Version(api, key, i), obj);
  }

  lemma BlankPathsSendNothing(cls: string, site: Site, key: string, env: Env)
    requires key in site.cache ==> IsBlank(Build(site.cache[key].spec).path)
    requires Seen(site.api, key).Some? ==> IsBlank(Build(Seen(site.api, key).value.spec).path)
    ensures var out := Reconcile(cls, site, key, env);
            out.requests == [] && out.site.api == site.api && out.site.kong == site.kong &&
            (BranchOf(cls, site.api, key, env).Pushing? ==> out.result.Failed?)
  {
  }

  /** A pass on such a key sends nothing, leaves API and portal alone, and is never done with a live
      object of the class. */
  lemma UnknownKindPass(cls: string, s: State, key: string, env: Env)
    requires Sourced(cls, s) && NeverKnown(s.site.api, key)
    ensures var out := Reconcile(cls, s.site, key, env);
            out.requests == [] && out.site.api == s.site.api && out.site.kong == s.site.kong &&
            (BranchOf(cls, s.site.api, key, env).Pushing? ==> out.result.Failed?)
  {
    if key in s.site.cache {
      CachedStems(cls, s, key);
      NeverKnownStems(s.site.api, key, s.site.cache[key]);
      BlankPathIffUnknownKind(s.site.cache[key].spec);
    }
    if Seen(s.site.api, key).Some? {
      SeenStems(s.site.api, key);
      NeverKnownStems(s.site.api, key, Seen(s.site.api, key).value);
      BlankPathIffUnknownKind(Seen(s.site.api, key).value.spec);
    }
    BlankPathsSendNothing(cls, s.site, key, env);
  }

  predicate SilentFor(log: seq<LogEntry>, key: string) {
    forall i :: 0 <= i < |log| ==> log[i].key != key
  }

  lemma SilentStep(cls: string, s: State, step: Step, key: string)
    requires Sourced(cls, s) && NeverKnown(s.site.api, key) && SilentFor(s.log, key)
    ensures SilentFor(Next(cls, s, step).log, key)
  {
    if !step.Pass? {
      OtherEffect(cls, s, step);
    } else if Enabled(s, step) {
      PassHasLogEffect(cls, s, step.key, step.env);
      if step.key == key {
        UnknownKindPass(cls, s, key, step.env);
        assert Next(cls, s, step).log == s.log + Tag(key, []);
      }
    }
  }

  lemma {:induction false} UnknownKindIsSilent(cls: string, kong: map<string, string>, steps: seq<Step>, key: string)
    requires NeverKnown(Exec(cls, Init(kong), steps).site.api, key)
    ensures SilentFor(Exec(cls, Init(kong), steps).log, key)
  {
    if steps == [] {
    } else {
      var before, step := steps[..|steps| - 1], steps[|steps| - 1];
      var s := Exec(cls, Init(kong), before);
      EverythingIsSourced(cls, kong, before);
      GrowStep(cls, s, step);
      NeverKnownBefore(s.site.api, Exec(cls, Init(kong), steps).site.api, key);
      UnknownKindIsSilent(cls, kong, before, key);
      SilentStep(cls, s, step, key);
    }
  }

  lemma NeverKnownBefore(api: Api, api': Api, key: string)
    requires Grown(api, api') && NeverKnown(api', key)
    ensures NeverKnown(api, key)
  {
    forall i | HasVersion(api, key, i) ensures !KnownKind(Version(api, key, i).spec) {
      VersionKept(api, api', key, i);
    }
  }

  lemma {:induction false} FirstValidation(key: string, t: Timeline, j: nat) returns (i: nat)
    requires LegalTimeline(key, t) && j < |t.versions|
    requires t.versions[j].Some? && t.versions[j].value.status.validated
    ensures 0 < i <= j && BecomesValidated(t.versions[i - 1], t.versions[i])
  {
    assert j > 0 && Change(key, t.versions[j - 1], t.versions[j], j);
    if t.versions[j - 1].value.status.validated {
      i := FirstValidation(key, t, j - 1);
    } else {
      i := j;
    }
  }

  /** Over every run, with outside writers, restarts and failures: an object that never has a known kind
      causes no request to the portal and is never marked validated. */
  lemma UnknownKindsAreInert(cls: string, kong: map<string, string>, steps: seq<Step>, key: string, j: nat)
    requires NeverKnown(Exec(cls, Init(kong), steps).site.api, key)
    ensures SilentFor(Exec(cls, Init(kong), steps).log, key)
    ensures HasVersion(Exec(cls, Init(kong), steps).site.api, key, j) ==>
              !Version(Exec(cls, Init(kong), steps).site.api, key, j).status.validated
  {
    var s := Exec(cls, Init(kong), steps);
    UnknownKindIsSilent(cls, kong, steps, key);
    if HasVersion(s.site.api, key, j) && Version(s.site.api, key, j).status.validated {
      LegalRun(cls, kong, steps);
      LegalOf(s.site.api, key);
      var i := FirstValidation(key, TimelineOf(s.site.api, key), j);
      assert HasVersion(s.site.api, key, i);
      var _ := ValidatedMeansPushed(cls, kong, steps, key, i);
    }
  }
}
