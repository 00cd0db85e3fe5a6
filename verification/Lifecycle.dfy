/** Whole lifecycles leave no orphans: once everything is quiet, the files the controller wrote are
    exactly the files of the live objects. */
module Lifecycle {
  import opened Wrappers
  import opened Strings
  import opened KongFiles
  import opened ClassMatching
  import opened Protocol
  import opened Machine
  import opened Timelines
  import opened Effects
  import opened Provenance
  import opened Leaks
  import opened Histories
  import opened Agreement

  /** DELETE reaches the portal, the answer may be lost; no restart and no outside writer. PUTs, reads, GETs
      and status updates may fail in every way. */
  predicate Friendly(step: Step) {
    !step.Restart? && !step.OutsidePut? && !step.OutsideDelete? && (step.Pass? ==> !step.env.delete.Refused?)
  }

  predicate AllFriendly(steps: seq<Step>) {
    forall step :: step in steps ==> Friendly(step)
  }

  /** Users give each key one spec and one side of the class test, and no two keys one path. */
  ghost predicate PlainHistory(cls: string, api: Api) {
    PathsApart(api) && ClassFixed(cls, api) && SpecFixed(api)
  }

  // ---------------------------------------------------------------- nothing leaks

  ghost predicate NoLeak(s: State) {
    forall path :: !Leaked(s, path)
  }

  lemma OneSpecOnePath(cls: string, s: State, key: string, path: string)
    requires Sourced(cls, s) && SpecFixed(s.site.api)
    requires path in s.authors && TracksPath(s.site.cache, key, path)
    ensures !IsBlank(path)
    ensures Seen(s.site.api, key).Some? ==> Build(Seen(s.site.api, key).value.spec).path == path
  {
    assert FileHasSource(cls, s, path);
    BlankPathIffUnknownKind(s.authors[path].spec);
    if Seen(s.site.api, key).Some? {
      CachedLikeSeen(cls, s, key);
    }
  }

  lemma SamePathCausesNothing(cls: string, s: State, key: string, env: Env, path: string)
    requires Applied(path, env.delete)
    requires Seen(s.site.api, key).Some? ==> Build(Seen(s.site.api, key).value.spec).path == path
    ensures PassCause(cls, s, key, env, path) == NoCause
  {
  }

  lemma FriendlyCausesNothing(cls: string, s: State, step: Step, path: string)
    requires Sourced(cls, s) && SpecFixed(s.site.api) && Friendly(step)
    ensures CauseOf(cls, s, step, path) == NoCause
  {
    if step.Pass? && path in s.authors && OnlyTracker(s, step.key, path) {
      OneSpecOnePath(cls, s, step.key, path);
      SamePathCausesNothing(cls, s, step.key, step.env, path);
    }
  }

  // ---------------------------------------------------------------- nothing is forgotten

  /** A key whose entry must go, whose object waits for a push, or whose file was deleted early because the
      object has expired, is queued; and otherwise a settled object's file is there. */
  predicate TendedAt(cls: string, s: State, key: string) {
    var t := TimelineOf(s.site.api, key);
    var seen := Seen(s.site.api, key);
    (seen.None? && key in s.site.cache ==> key in s.queue) &&
    (seen.Some? && MatchesClass(seen.value, cls) && !seen.value.status.validated && t.seen == |t.versions| - 1 ==>
       key in s.queue) &&
    (OursSettled(cls, s.site.api, key) ==>
       Build(seen.value.spec).path in s.authors || (ExpiredNow(s, key) && key in s.queue))
  }

  ghost predicate Tended(cls: string, s: State) {
    forall key :: TendedAt(cls, s, key)
  }

  lemma KnownByPath(a: KongFileSpec, b: KongFileSpec)
    requires KnownKind(a) && Build(a).path == Build(b).path
    ensures KnownKind(b)
  {
    BlankPathIffUnknownKind(a);
    BlankPathIffUnknownKind(b);
  }

  lemma TendedElsewhere(cls: string, s: State, s': State, key: string, env: Env, other: string)
    requires Sourced(cls, s) && PassFacts(cls, s, s', key, env) && PathsApart(s.site.api)
    requires other != key && TendedAt(cls, s, other)
    ensures TendedAt(cls, s', other)
  {
    PassElsewhere(cls, s, s', key, env, other);
    if OursSettled(cls, s.site.api, other) && Build(Seen(s.site.api, other).value.spec).path in s.authors {
      SeenStems(s.site.api, other);
      assert FileHasSource(cls, s, Build(Seen(s.site.api, other).value.spec).path);
      KnownByPath(s.authors[Build(Seen(s.site.api, other).value.spec).path].spec, Seen(s.site.api, other).value.spec);
      OtherKeyKept(cls, s, s', key, env, other, Seen(s.site.api, other).value);
    }
  }

  lemma TendedAfterPush(cls: string, s: State, s': State, key: string, env: Env, obj: KongFile)
    requires PassFacts(cls, s, s', key, env) && BranchOf(cls, s.site.api, key, env) == Pushing(obj)
    requires TendedAt(cls, s, key)
    ensures TendedAt(cls, s', key)
  {
    assert !ExpiredNow(s, key) && Seen(s'.site.api, key) == Some(obj);
  }

  lemma TendedAfterDrop(cls: string, s: State, s': State, key: string, path: string, answer: Answer)
    requires Dropped(s, s', key, path, answer) && key in s.queue && TendedAt(cls, s, key)
    requires OursSettled(cls, s'.site.api, key) ==> ExpiredNow(s', key)
    ensures TendedAt(cls, s', key)
  {
  }

  lemma TendedHere(cls: string, s: State, s': State, key: string, env: Env)
    requires PassFacts(cls, s, s', key, env) && TendedAt(cls, s, key)
    ensures TendedAt(cls, s', key)
  {
    var branch := BranchOf(cls, s.site.api, key, env);
    match branch
    case Pushing(obj) => TendedAfterPush(cls, s, s', key, env, obj);
    case Absent =>
      if key in s.site.cache {
        TendedAfterDrop(cls, s, s', key, Build(s.site.cache[key].spec).path, env.delete);
      }
    case Expiring(obj) =>
      assert s'.site.api == s.site.api && ExpiredNow(s', key);
      if !Untouched(s, s') {
        TendedAfterDrop(cls, s, s', key, Build(obj.spec).path, env.delete);
      }
    case Unread =>
    case Idle(obj) =>
  }

  /** An object found settled was settled as shown before, with the same spec, and as expired. */
  lemma SettledAsBefore(cls: string, s: State, s': State, key: string, position: nat)
    requires Legal(s.site.api) && ClassFixed(cls, s.site.api) && SpecFixed(s.site.api)
    requires TimelineOf(s.site.api, key).seen < position < |TimelineOf(s.site.api, key).versions|
    requires TimelineOf(s'.site.api, key) == TimelineOf(s.site.api, key).(seen := position)
    requires s'.clock == s.clock && OursSettled(cls, s'.site.api, key)
    ensures OursSettled(cls, s.site.api, key)
    ensures Seen(s.site.api, key).value.spec == Seen(s'.site.api, key).value.spec
    ensures ExpiredNow(s, key) ==> ExpiredNow(s', key)
  {
    var t := TimelineOf(s.site.api, key);
    LegalOf(s.site.api, key);
    SettledBefore(key, t, position);
    assert HasVersion(s.site.api, key, t.seen) && HasVersion(s.site.api, key, position);
    assert MatchesClass(Version(s.site.api, key, t.seen), cls);
    assert Version(s.site.api, key, t.seen).spec == Version(s.site.api, key, position).spec;
  }

  lemma TendedAsBefore(cls: string, s: State, s': State, key: string)
    requires TendedAt(cls, s, key)
    requires OursSettled(cls, s'.site.api, key) ==>
               OursSettled(cls, s.site.api, key) && (ExpiredNow(s, key) ==> ExpiredNow(s', key)) &&
               Seen(s.site.api, key).value.spec == Seen(s'.site.api, key).value.spec
    requires key in s.site.cache && Seen(s.site.api, key).Some? ==> MatchesClass(Seen(s.site.api, key).value, cls)
    requires s'.site.cache == s.site.cache && s'.authors == s.authors
    requires Enqueues(EventOf(Seen(s.site.api, key), Seen(s'.site.api, key)), cls) || key in s.queue ==>
               key in s'.queue
    ensures TendedAt(cls, s', key)
  {
  }

  lemma TendedAfterDeliver(cls: string, s: State, s': State, key: string, position: nat)
    requires Sourced(cls, s) && PlainHistory(cls, s.site.api) && TendedAt(cls, s, key)
    requires TimelineOf(s.site.api, key).seen < position < |TimelineOf(s.site.api, key).versions|
    requires TimelineOf(s'.site.api, key) == TimelineOf(s.site.api, key).(seen := position)
    requires s'.site.cache == s.site.cache && s'.authors == s.authors && s'.clock == s.clock
    requires Enqueues(EventOf(Seen(s.site.api, key), Seen(s'.site.api, key)), cls) || key in s.queue ==>
               key in s'.queue
    ensures TendedAt(cls, s', key)
  {
    if key in s.site.cache && Seen(s.site.api, key).Some? {
      CachedLikeSeen(cls, s, key);
    }
    if OursSettled(cls, s'.site.api, key) {
      SettledAsBefore(cls, s, s', key, position);
    }
    TendedAsBefore(cls, s, s', key);
  }

  lemma TendedAfterAppend(cls: string, s: State, s': State, key: string, changed: string, version: Option<KongFile>)
    requires Legal(s.site.api) && TendedAt(cls, s, key)
    requires s'.site.api == AppendTo(s.site.api, changed, version)
    requires !BecomesValidated(Current(s.site.api, changed), version)
    requires s'.site.cache == s.site.cache && s'.authors == s.authors
    requires s'.queue == s.queue && s'.clock == s.clock
    ensures TendedAt(cls, s', key)
  {
  }

  lemma TendedUnchanged(cls: string, s: State, s': State, key: string)
    requires TendedAt(cls, s, key) && TimelineOf(s'.site.api, key) == TimelineOf(s.site.api, key)
    requires s'.site.cache == s.site.cache && s'.authors == s.authors && s'.clock == s.clock
    requires key in s.queue ==> key in s'.queue
    ensures TendedAt(cls, s', key)
  {
  }

  lemma TendedWhenQueued(cls: string, s: State, s': State)
    requires Tended(cls, s) && s' == s.(queue := s'.queue) && s.queue <= s'.queue
    ensures Tended(cls, s')
  {
    forall key ensures TendedAt(cls, s', key) {
      TendedUnchanged(cls, s, s', key);
    }
  }

  lemma TendedAfterUserStep(cls: string, s: State, step: Step)
    requires Legal(s.site.api) && Tended(cls, s)
    requires step.Create? || step.Edit? || step.SetDeletion? || step.Remove?
    ensures Tended(cls, Next(cls, s, step))
  {
    var s' := Next(cls, s, step);
    OtherEffect(cls, s, step);
    var appended, changed, version := AppendStep(cls, s, step);
    if appended {
      assert s'.queue == s.queue;
      forall key ensures TendedAt(cls, s', key) {
        TendedAfterAppend(cls, s, s', key, changed, version);
      }
    }
  }

  lemma TendedAfterMoves(cls: string, s: State, step: Step)
    requires Sourced(cls, s) && PlainHistory(cls, s.site.api) && Tended(cls, s) && step.Deliver?
    ensures Tended(cls, Next(cls, s, step))
  {
    var s' := Next(cls, s, step);
    OtherEffect(cls, s, step);
    if Enabled(s, step) {
      forall key ensures TendedAt(cls, s', key) {
        if key == step.key {
          TendedAfterDeliver(cls, s, s', key, step.position);
        } else {
          TendedUnchanged(cls, s, s', key);
        }
      }
    }
  }

  lemma TendedOther(cls: string, s: State, step: Step)
    requires Sourced(cls, s) && PlainHistory(cls, s.site.api) && Tended(cls, s)
    requires Friendly(step) && !step.Pass?
    ensures Tended(cls, Next(cls, s, step))
  {
    if step.Deliver? {
      TendedAfterMoves(cls, s, step);
    } else if step.Resync? {
      ResyncEffect(cls, s, step);
      TendedWhenQueued(cls, s, Next(cls, s, step));
    } else {
      TendedAfterUserStep(cls, s, step);
    }
  }

  lemma TendedStep(cls: string, s: State, step: Step)
    requires Sourced(cls, s) && PlainHistory(cls, s.site.api) && Tended(cls, s) && Friendly(step)
    ensures Tended(cls, Next(cls, s, step))
  {
    if !step.Pass? {
      TendedOther(cls, s, step);
    } else if Enabled(s, step) {
      var s' := Next(cls, s, step);
      PassHasFacts(cls, s, step.key, step.env);
      forall key ensures TendedAt(cls, s', key) {
        if key == step.key {
          TendedHere(cls, s, s', key, step.env);
        } else {
          TendedElsewhere(cls, s, s', step.key, step.env, key);
        }
      }
    }
  }

  lemma {:induction false} LifecycleRun(cls: string, kong: map<string, string>, steps: seq<Step>)
    requires AllFriendly(steps) && PlainHistory(cls, Exec(cls, Init(kong), steps).site.api)
    ensures NoLeak(Exec(cls, Init(kong), steps)) && Tended(cls, Exec(cls, Init(kong), steps))
  {
    if steps == [] {
    } else {
      var before, step := steps[..|steps| - 1], steps[|steps| - 1];
      var s := Exec(cls, Init(kong), before);
      var s' := Next(cls, s, step);
      EverythingIsSourced(cls, kong, before);
      GrowStep(cls, s, step);
      EarlierHistory(cls, s.site.api, s'.site.api);
      LifecycleRun(cls, kong, before);
      TendedStep(cls, s, step);
      forall path ensures !Leaked(s', path) {
        FriendlyCausesNothing(cls, s, step, path);
        LeakIffCause(cls, s, step, path);
      }
    }
  }

  // ---------------------------------------------------------------- quiet states

  /** No key is queued and the informer has delivered everything. */
  predicate Quiet(s: State) {
    s.queue == {} && UpToDate(s.site.api)
  }

  /** A live object of the controller's class, marked validated, with this portal path. */
  predicate LiveFile(cls: string, api: Api, key: string, path: string) {
    var obj := Current(api, key);
    obj.Some? && MatchesClass(obj.value, cls) && obj.value.status.validated && Build(obj.value.spec).path == path
  }

  lemma QuietTracked(cls: string, s: State, key: string)
    requires Sourced(cls, s) && PlainHistory(cls, s.site.api) && TendedAt(cls, s, key) && Quiet(s)
    requires key in s.site.cache
    ensures LiveFile(cls, s.site.api, key, Build(s.site.cache[key].spec).path)
  {
    assert Current(s.site.api, key) == Seen(s.site.api, key);
    CachedLikeSeen(cls, s, key);
  }

  lemma QuietFile(cls: string, s: State, key: string, path: string)
    requires Sourced(cls, s) && PlainHistory(cls, s.site.api) && TendedAt(cls, s, key) && Quiet(s)
    requires LiveFile(cls, s.site.api, key, path)
    ensures path in s.authors && path in s.site.kong
    ensures s.site.kong[path] == Build(Current(s.site.api, key).value.spec).contents
  {
    assert key in s.site.api && Seen(s.site.api, key) == Current(s.site.api, key);
    assert OursSettled(cls, s.site.api, key);
    assert FileHasSource(cls, s, path);
    SeenStems(s.site.api, key);
    CreditedStems(cls, s, path);
    KnownByPath(s.authors[path].spec, Current(s.site.api, key).value.spec);
    if Key(s.authors[path]) != key {
      StemsApart(s.site.api, Key(s.authors[path]), s.authors[path], key, Current(s.site.api, key).value);
    } else {
      StemsAlike(cls, s.site.api, key, s.authors[path], Current(s.site.api, key).value);
    }
  }

  /** The files credited to the controller are exactly the rendered files of the live, matching, validated
      objects; every other file was there from the start; and no live matching object is unvalidated. */
  ghost predicate FilesAreLiveObjects(cls: string, kong0: map<string, string>, s: State) {
    (forall path :: path in s.authors <==> exists key | key in s.site.api :: LiveFile(cls, s.site.api, key, path)) &&
    (forall key, path | LiveFile(cls, s.site.api, key, path) ::
       path in s.site.kong && s.site.kong[path] == Build(Current(s.site.api, key).value.spec).contents) &&
    (forall path | path in s.site.kong && path !in s.authors :: path in kong0 && kong0[path] == s.site.kong[path]) &&
    (forall key | Current(s.site.api, key).Some? && MatchesClass(Current(s.site.api, key).value, cls) ::
       Current(s.site.api, key).value.status.validated)
  }

  lemma QuietFileIsLive(cls: string, s: State, path: string)
    requires Sourced(cls, s) && NoLeak(s) && Tended(cls, s)
    requires PlainHistory(cls, s.site.api) && Quiet(s) && path in s.authors
    ensures exists key | key in s.site.api :: LiveFile(cls, s.site.api, key, path)
  {
    assert !Leaked(s, path);
    var key :| key in s.site.cache && TracksPath(s.site.cache, key, path);
    assert TendedAt(cls, s, key);
    QuietTracked(cls, s, key);
    assert key in s.site.api;
  }

  lemma QuietLiveIsFile(cls: string, s: State, key: string, path: string)
    requires Sourced(cls, s) && Tended(cls, s)
    requires PlainHistory(cls, s.site.api) && Quiet(s) && LiveFile(cls, s.site.api, key, path)
    ensures path in s.authors && path in s.site.kong
    ensures s.site.kong[path] == Build(Current(s.site.api, key).value.spec).contents
  {
    assert TendedAt(cls, s, key);
    QuietFile(cls, s, key, path);
  }

  lemma QuietIsValidated(cls: string, s: State, key: string)
    requires Tended(cls, s) && Quiet(s)
    requires Current(s.site.api, key).Some? && MatchesClass(Current(s.site.api, key).value, cls)
    ensures Current(s.site.api, key).value.status.validated
  {
    assert TendedAt(cls, s, key);
  }

  lemma QuietHasNoOrphans(cls: string, kong0: map<string, string>, s: State)
    requires Sourced(cls, s) && NoLeak(s) && Tended(cls, s) && OnlyCreditedWrites(kong0, s)
    requires PlainHistory(cls, s.site.api) && Quiet(s)
    ensures FilesAreLiveObjects(cls, kong0, s)
  {
    forall path | path in s.authors
      ensures exists key | key in s.site.api :: LiveFile(cls, s.site.api, key, path)
    {
      QuietFileIsLive(cls, s, path);
    }
    forall key, path | LiveFile(cls, s.site.api, key, path)
      ensures path in s.authors && path in s.site.kong &&
              s.site.kong[path] == Build(Current(s.site.api, key).value.spec).contents
    {
      QuietLiveIsFile(cls, s, key, path);
    }
    forall key | Current(s.site.api, key).Some? && MatchesClass(Current(s.site.api, key).value, cls)
      ensures Current(s.site.api, key).value.status.validated
    {
      QuietIsValidated(cls, s, key);
    }
    forall path | path in s.site.kong && path !in s.authors
      ensures path in kong0 && kong0[path] == s.site.kong[path]
    {
      assert FoundThere(kong0, s, path);
    }
  }

  /** The main result. Whatever PUTs, reads, GETs and status updates did along the way, once everything is
      quiet there are no orphans and nothing is missing. */
  lemma NoOrphans(cls: string, kong: map<string, string>, steps: seq<Step>)
    requires AllFriendly(steps) && PlainHistory(cls, Exec(cls, Init(kong), steps).site.api)
    requires Quiet(Exec(cls, Init(kong), steps))
    ensures FilesAreLiveObjects(cls, kong, Exec(cls, Init(kong), steps))
  {
    EverythingIsSourced(cls, kong, steps);
    LifecycleRun(cls, kong, steps);
    OnlyCreditedWritesRun(cls, kong, steps);
    QuietHasNoOrphans(cls, kong, Exec(cls, Init(kong), steps));
  }

  /** A pass whose calls are all served, on an up-to-date, live, matching, unvalidated object of a known kind,
      publishes the file, has the object marked validated, and is done. */
  lemma ServedPassPublishes(cls: string, site: Site, key: string, env: Env)
    requires Legal(site.api) && Seen(site.api, key).Some? && Seen(site.api, key) == Current(site.api, key)
    requires var obj := Seen(site.api, key).value;
             MatchesClass(obj, cls) && !obj.status.validated && KnownKind(obj.spec) && !Expired(obj, env.now)
    requires env.readable && env.put.Served? && env.status.Served?
    ensures var out := Reconcile(cls, site, key, env);
            out.result.Done? && InPortal(out.site.kong, Seen(site.api, key).value.spec) &&
            BecomesValidated(Current(site.api, key), Current(out.site.api, key)) &&
            SameButStatus(Current(site.api, key).value, Current(out.site.api, key).value) &&
            key in out.site.cache && Some(out.site.cache[key]) == Current(out.site.api, key)
  {
    BlankPathIffUnknownKind(Seen(site.api, key).value.spec);
  }
}
