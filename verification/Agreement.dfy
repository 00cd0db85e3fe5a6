/** What the cache says is in the portal is there, or a pass is still due. */
module Agreement {
  import opened Wrappers
  import opened KongFiles
  import opened ClassMatching
  import opened Protocol
  import opened Machine
  import opened Timelines
  import opened Effects
  import opened Provenance
  import opened Histories

  predicate Synced(s: State, key: string) {
    key in s.site.cache ==> InPortal(s.site.kong, s.site.cache[key].spec)
  }

  predicate OursSettled(cls: string, api: Api, key: string) {
    Settled(TimelineOf(api, key)) && MatchesClass(Seen(api, key).value, cls)
  }

  /** The first clause is what is wanted. The second keeps it when a pass leaves a settled object alone:
      such an object's cache entry is in the portal, and so is the object itself while the informer
      still lags behind its validation. */
  predicate AgreesAt(cls: string, s: State, key: string) {
    (Synced(s, key) || key in s.queue) &&
    (OursSettled(cls, s.site.api, key) ==>
       Synced(s, key) &&
       (Seen(s.site.api, key).value.status.validated || ExpiredNow(s, key) ||
        InPortal(s.site.kong, Seen(s.site.api, key).value.spec)))
  }

  ghost predicate Agrees(cls: string, s: State) {
    forall key :: AgreesAt(cls, s, key)
  }

  predicate NoOutsideWriter(steps: seq<Step>) {
    forall step :: step in steps ==> !step.OutsidePut? && !step.OutsideDelete?
  }

  // ---------------------------------------------------------------- a pass and the other keys

  /** A pass never writes or deletes a path of another key. */
  lemma TargetApart(cls: string, s: State, key: string, env: Env, other: string, obj: KongFile)
    requires Sourced(cls, s) && PathsApart(s.site.api)
    requires other != key && Stems(s.site.api, other, obj) && KnownKind(obj.spec)
    ensures Target(s, key, BranchOf(cls, s.site.api, key, env)) != Some(Build(obj.spec).path)
  {
    BlankPathIffUnknownKind(obj.spec);
    if key in s.site.cache {
      CachedStems(cls, s, key);
      StemsApart(s.site.api, key, s.site.cache[key], other, obj);
      BlankPathIffUnknownKind(s.site.cache[key].spec);
    }
    if Seen(s.site.api, key).Some? {
      SeenStems(s.site.api, key);
      StemsApart(s.site.api, key, Seen(s.site.api, key).value, other, obj);
      BlankPathIffUnknownKind(Seen(s.site.api, key).value.spec);
    }
  }

  lemma OtherKeyKept(cls: string, s: State, s': State, key: string, env: Env, other: string, obj: KongFile)
    requires Sourced(cls, s) && PassFacts(cls, s, s', key, env) && PathsApart(s.site.api)
    requires other != key && Stems(s.site.api, other, obj)
    ensures InPortal(s'.site.kong, obj.spec) <==> InPortal(s.site.kong, obj.spec)
    ensures KnownKind(obj.spec) ==> (Build(obj.spec).path in s'.authors <==> Build(obj.spec).path in s.authors)
  {
    if KnownKind(obj.spec) {
      TargetApart(cls, s, key, env, other, obj);
      OnlyTargetChanges(s, s', key, BranchOf(cls, s.site.api, key, env), env, Build(obj.spec).path);
    }
  }

  /** A pass on one key shows in another key only through the clock. */
  lemma PassElsewhere(cls: string, s: State, s': State, key: string, env: Env, other: string)
    requires PassFacts(cls, s, s', key, env) && other != key
    ensures TimelineOf(s'.site.api, other) == TimelineOf(s.site.api, other)
    ensures other in s'.site.cache <==> other in s.site.cache
    ensures other in s.site.cache ==> s'.site.cache[other] == s.site.cache[other]
    ensures other in s'.queue <==> other in s.queue
    ensures ExpiredNow(s, other) ==> ExpiredNow(s', other)
  {
  }

  lemma AgreesElsewhere(cls: string, s: State, s': State, key: string, env: Env, other: string)
    requires Sourced(cls, s) && PassFacts(cls, s, s', key, env) && PathsApart(s.site.api)
    requires other != key && AgreesAt(cls, s, other)
    ensures AgreesAt(cls, s', other)
  {
    PassElsewhere(cls, s, s', key, env, other);
    if other in s.site.cache {
      CachedStems(cls, s, other);
      OtherKeyKept(cls, s, s', key, env, other, s.site.cache[other]);
    }
    if Seen(s.site.api, other).Some? {
      SeenStems(s.site.api, other);
      OtherKeyKept(cls, s, s', key, env, other, Seen(s.site.api, other).value);
    }
  }

  // ---------------------------------------------------------------- a pass and its own key

  lemma AgreesAfterPush(cls: string, s: State, s': State, key: string, env: Env, obj: KongFile)
    requires PassFacts(cls, s, s', key, env) && BranchOf(cls, s.site.api, key, env) == Pushing(obj)
    requires AgreesAt(cls, s, key)
    ensures AgreesAt(cls, s', key)
  {
    BlankPathIffUnknownKind(obj.spec);
    assert s'.site.cache[key].spec == obj.spec;
    assert !ExpiredNow(s, key);
    if Applied(Build(obj.spec).path, env.put) {
      assert InPortal(s'.site.kong, obj.spec);
    } else {
      assert s'.site.kong == s.site.kong && s'.site.api == s.site.api;
    }
  }

  lemma AgreesAfterDrop(cls: string, s: State, s': State, key: string, path: string, answer: Answer)
    requires Dropped(s, s', key, path, answer)
    requires OursSettled(cls, s'.site.api, key) ==> ExpiredNow(s', key)
    ensures AgreesAt(cls, s', key)
  {
  }

  /** An idle pass takes the key off the queue: then the cached object is of our class, so the object read
      is a validated one. */
  lemma AgreesAfterIdle(cls: string, s: State, s': State, key: string, env: Env, obj: KongFile)
    requires Sourced(cls, s) && PassFacts(cls, s, s', key, env) && ClassFixed(cls, s.site.api)
    requires BranchOf(cls, s.site.api, key, env) == Idle(obj)
    requires AgreesAt(cls, s, key)
    ensures AgreesAt(cls, s', key)
  {
    if key in s.site.cache {
      CachedLikeSeen(cls, s, key);
      assert OursSettled(cls, s.site.api, key);
    }
  }

  lemma AgreesHere(cls: string, s: State, s': State, key: string, env: Env)
    requires Sourced(cls, s) && PassFacts(cls, s, s', key, env) && ClassFixed(cls, s.site.api)
    requires AgreesAt(cls, s, key)
    ensures AgreesAt(cls, s', key)
  {
    var branch := BranchOf(cls, s.site.api, key, env);
    match branch
    case Pushing(obj) => AgreesAfterPush(cls, s, s', key, env, obj);
    case Unread =>
    case Absent =>
      if key in s.site.cache {
        AgreesAfterDrop(cls, s, s', key, Build(s.site.cache[key].spec).path, env.delete);
      }
    case Expiring(obj) =>
      assert s'.site.api == s.site.api && ExpiredNow(s', key);
      if !Untouched(s, s') {
        AgreesAfterDrop(cls, s, s', key, Build(obj.spec).path, env.delete);
      }
    case Idle(obj) => AgreesAfterIdle(cls, s, s', key, env, obj);
  }

  // ---------------------------------------------------------------- the other steps

  lemma AgreesAfterMove(cls: string, s: State, s': State, key: string, position: nat)
    requires Legal(s.site.api) && ClassFixed(cls, s.site.api) && AgreesAt(cls, s, key)
    requires TimelineOf(s.site.api, key).seen <= position < |TimelineOf(s.site.api, key).versions|
    requires TimelineOf(s'.site.api, key) == TimelineOf(s.site.api, key).(seen := position)
    requires s'.site.kong == s.site.kong && s'.clock == s.clock
    requires key in s'.site.cache ==>
               key in s.site.cache && s'.site.cache[key] == s.site.cache[key] && (key in s.queue ==> key in s'.queue)
    ensures AgreesAt(cls, s', key)
  {
    var t := TimelineOf(s.site.api, key);
    if OursSettled(cls, s'.site.api, key) {
      LegalOf(s.site.api, key);
      SettledBefore(key, t, position);
      assert HasVersion(s.site.api, key, t.seen) && HasVersion(s.site.api, key, position);
      assert MatchesClass(Version(s.site.api, key, t.seen), cls);
      assert OursSettled(cls, s.site.api, key);
      if !t.versions[position].value.status.validated {
        assert position + 1 <= t.seen + 1;
      }
    }
  }

  lemma AgreesAfterAppend(cls: string, s: State, s': State, key: string, changed: string, version: Option<KongFile>)
    requires Legal(s.site.api) && AgreesAt(cls, s, key)
    requires s'.site.api == AppendTo(s.site.api, changed, version)
    requires !BecomesValidated(Current(s.site.api, changed), version)
    requires s'.site.cache == s.site.cache && s'.site.kong == s.site.kong
    requires s'.queue == s.queue && s'.clock == s.clock
    ensures AgreesAt(cls, s', key)
  {
  }

  lemma AgreesWhenQueued(cls: string, s: State, s': State)
    requires Agrees(cls, s) && s' == s.(queue := s'.queue) && s.queue <= s'.queue
    ensures Agrees(cls, s')
  {
    assert forall key :: AgreesAt(cls, s, key) ==> AgreesAt(cls, s', key);
  }

  lemma AgreesAfterUserStep(cls: string, s: State, step: Step)
    requires Legal(s.site.api) && Agrees(cls, s)
    requires step.Create? || step.Edit? || step.SetDeletion? || step.Remove?
    ensures Agrees(cls, Next(cls, s, step))
  {
    var s' := Next(cls, s, step);
    OtherEffect(cls, s, step);
    var appended, changed, version := AppendStep(cls, s, step);
    if appended {
      assert s'.queue == s.queue;
      forall key ensures AgreesAt(cls, s', key) {
        AgreesAfterAppend(cls, s, s', key, changed, version);
      }
    }
  }

  lemma AgreesAfterMoves(cls: string, s: State, step: Step)
    requires Legal(s.site.api) && ClassFixed(cls, s.site.api) && Agrees(cls, s) && Moves(step)
    ensures Agrees(cls, Next(cls, s, step))
  {
    var s' := Next(cls, s, step);
    OtherEffect(cls, s, step);
    if Enabled(s, step) {
      forall key ensures AgreesAt(cls, s', key) {
        AgreesAfterMove(cls, s, s', key, TimelineOf(s'.site.api, key).seen);
      }
    }
  }

  lemma AgreesOther(cls: string, s: State, step: Step)
    requires Legal(s.site.api) && ClassFixed(cls, s.site.api) && Agrees(cls, s)
    requires !step.Pass? && !step.OutsidePut? && !step.OutsideDelete?
    ensures Agrees(cls, Next(cls, s, step))
  {
    if Moves(step) {
      AgreesAfterMoves(cls, s, step);
    } else if step.Resync? {
      ResyncEffect(cls, s, step);
      AgreesWhenQueued(cls, s, Next(cls, s, step));
    } else {
      AgreesAfterUserStep(cls, s, step);
    }
  }

  lemma AgreesStep(cls: string, s: State, step: Step)
    requires Sourced(cls, s) && PathsApart(s.site.api) && ClassFixed(cls, s.site.api) && Agrees(cls, s)
    requires !step.OutsidePut? && !step.OutsideDelete?
    ensures Agrees(cls, Next(cls, s, step))
  {
    if !step.Pass? {
      AgreesOther(cls, s, step);
    } else if Enabled(s, step) {
      var s' := Next(cls, s, step);
      PassHasFacts(cls, s, step.key, step.env);
      forall key ensures AgreesAt(cls, s', key) {
        if key == step.key {
          AgreesHere(cls, s, s', key, step.env);
        } else {
          AgreesElsewhere(cls, s, s', step.key, step.env, key);
        }
      }
    }
  }

  lemma {:induction false} AgreesRun(cls: string, kong: map<string, string>, steps: seq<Step>)
    requires NoOutsideWriter(steps)
    requires PathsApart(Exec(cls, Init(kong), steps).site.api) && ClassFixed(cls, Exec(cls, Init(kong), steps).site.api)
    ensures Agrees(cls, Exec(cls, Init(kong), steps))
  {
    if steps == [] {
    } else {
      var before, step := steps[..|steps| - 1], steps[|steps| - 1];
      var s := Exec(cls, Init(kong), before);
      EverythingIsSourced(cls, kong, before);
      GrowStep(cls, s, step);
      EarlierHistory(cls, s.site.api, Exec(cls, Init(kong), steps).site.api);
      AgreesRun(cls, kong, before);
      AgreesStep(cls, s, step);
    }
  }

  /** Each cached object is in the portal as rendered, or its key is queued. */
  ghost predicate CacheAgrees(s: State) {
    forall key | key in s.site.cache :: key in s.queue || InPortal(s.site.kong, s.site.cache[key].spec)
  }

  lemma AgreesMeansCacheAgrees(cls: string, s: State)
    requires Agrees(cls, s)
    ensures CacheAgrees(s)
  {
    assert forall key | key in s.site.cache :: AgreesAt(cls, s, key);
  }

  /** At every moment of every run without an outside writer, with different paths for different keys and
      no class edits, each cached object is in the portal as rendered, or its key is queued for a retry. */
  lemma CachedIsInPortalOrQueued(cls: string, kong: map<string, string>, steps: seq<Step>)
    requires NoOutsideWriter(steps)
    requires PathsApart(Exec(cls, Init(kong), steps).site.api) && ClassFixed(cls, Exec(cls, Init(kong), steps).site.api)
    ensures CacheAgrees(Exec(cls, Init(kong), steps))
  {
    AgreesRun(cls, kong, steps);
    AgreesMeansCacheAgrees(cls, Exec(cls, Init(kong), steps));
  }
}
