/** What the portal holds for objects whose specs are edited: the spec that was validated, whatever the
    failures, the restarts and the edits since. */
module Drift {
  import opened Wrappers
  import opened KongFiles
  import opened ClassMatching
  import opened Protocol
  import opened Machine
  import opened Timelines
  import opened Effects
  import opened Provenance
  import opened Leaks
  import opened Histories
  import opened Agreement
  import opened Lifecycle

  // ---------------------------------------------------------------- the version that was published

  /** Walks back from a version to the first validated one of the same object; from an unvalidated version
      there is nowhere to go. */
  function ValidatedFrom(t: Timeline, i: nat): (j: nat)
    requires i < |t.versions| && t.versions[i].Some?
    ensures j <= i && t.versions[j].Some?
  {
    if i > 0 && t.versions[i - 1].Some? && t.versions[i - 1].value.status.validated then ValidatedFrom(t, i - 1) else i
  }

  /** The spec with which the object shown was first validated; its own while it is not validated. */
  function PublishedSpec(api: Api, key: string): KongFileSpec
    requires Seen(api, key).Some?
  {
    var t := TimelineOf(api, key);
    t.versions[ValidatedFrom(t, t.seen)].value.spec
  }

  lemma PublishedStems(api: Api, key: string)
    requires Seen(api, key).Some?
    ensures exists obj :: Stems(api, key, obj) && obj.spec == PublishedSpec(api, key)
  {
    var t := TimelineOf(api, key);
    var i := ValidatedFrom(t, t.seen);
    assert HasVersion(api, key, i) && SameButStatus(Version(api, key, i), Version(api, key, i));
    assert Stems(api, key, Version(api, key, i));
  }

  lemma UnvalidatedIsItsOwn(key: string, t: Timeline, i: nat)
    requires LegalTimeline(key, t) && i < |t.versions| && t.versions[i].Some?
    requires !t.versions[i].value.status.validated
    ensures ValidatedFrom(t, i) == i
  {
    if i > 0 {
      assert Change(key, t.versions[i - 1], t.versions[i], i);
    }
  }

  lemma {:induction false} SamePrefixSameFrom(t: Timeline, t': Timeline, i: nat)
    requires t.versions <= t'.versions && i < |t.versions| && t.versions[i].Some?
    ensures ValidatedFrom(t', i) == ValidatedFrom(t, i)
    ensures t'.versions[ValidatedFrom(t, i)] == t.versions[ValidatedFrom(t, i)]
  {
    if i == 0 {
    } else {
      assert t'.versions[i - 1] == t.versions[i - 1];
      if t.versions[i - 1].Some? {
        SamePrefixSameFrom(t, t', i - 1);
      }
    }
  }

  /** Wherever the informer moves to, a settled object has the published spec it had. */
  lemma {:induction false} SamePublished(key: string, t: Timeline, position: nat)
    requires LegalTimeline(key, t) && t.seen <= position < |t.versions| && t.versions[t.seen].Some?
    requires Settled(t.(seen := position))
    ensures t.versions[ValidatedFrom(t, position)].value.spec == t.versions[ValidatedFrom(t, t.seen)].value.spec
  {
    if position == t.seen {
    } else {
      assert Change(key, t.versions[position - 1], t.versions[position], position);
      if t.versions[position].value.status.validated && t.versions[position - 1].value.status.validated {
        SamePublished(key, t, position - 1);
      } else if t.versions[position].value.status.validated {
        assert BecomesValidated(t.versions[position - 1], t.versions[position]);
        assert position == t.seen + 1;
        UnvalidatedIsItsOwn(key, t, t.seen);
      } else {
        assert false;
      }
    }
  }

  // ---------------------------------------------------------------- the portal keeps it

  /** The published spec of a settled object, whatever its class is now, is in the portal, unless the object
      expired; then its key is queued if it is of the controller's class. And what is cached for it has that
      spec. */
  predicate FiledAt(cls: string, s: State, key: string) {
    Settled(TimelineOf(s.site.api, key)) ==>
      (InPortal(s.site.kong, PublishedSpec(s.site.api, key)) ||
       (ExpiredNow(s, key) && (MatchesClass(Seen(s.site.api, key).value, cls) ==> key in s.queue))) &&
      (key in s.site.cache ==> s.site.cache[key].spec == PublishedSpec(s.site.api, key))
  }

  ghost predicate Filed(cls: string, s: State) {
    forall key :: FiledAt(cls, s, key)
  }

  lemma FiledElsewhere(cls: string, s: State, s': State, key: string, env: Env, other: string)
    requires Sourced(cls, s) && PassFacts(cls, s, s', key, env) && PathsApart(s.site.api)
    requires other != key && FiledAt(cls, s, other)
    ensures FiledAt(cls, s', other)
  {
    PassElsewhere(cls, s, s', key, env, other);
    if Settled(TimelineOf(s.site.api, other)) {
      PublishedStems(s.site.api, other);
      var obj :| Stems(s.site.api, other, obj) && obj.spec == PublishedSpec(s.site.api, other);
      OtherKeyKept(cls, s, s', key, env, other, obj);
    }
  }

  lemma FiledAfterPush(cls: string, s: State, s': State, key: string, env: Env, obj: KongFile)
    requires PassFacts(cls, s, s', key, env) && BranchOf(cls, s.site.api, key, env) == Pushing(obj)
    requires FiledAt(cls, s, key)
    ensures FiledAt(cls, s', key)
  {
    LegalOf(s.site.api, key);
    LegalOf(s'.site.api, key);
    UnvalidatedIsItsOwn(key, TimelineOf(s.site.api, key), TimelineOf(s.site.api, key).seen);
    UnvalidatedIsItsOwn(key, TimelineOf(s'.site.api, key), TimelineOf(s'.site.api, key).seen);
    BlankPathIffUnknownKind(obj.spec);
    assert PublishedSpec(s'.site.api, key) == obj.spec == s'.site.cache[key].spec;
    assert !ExpiredNow(s, key);
    assert Applied(Build(obj.spec).path, env.put) ==> InPortal(s'.site.kong, obj.spec);
  }

  lemma FiledHere(cls: string, s: State, s': State, key: string, env: Env)
    requires PassFacts(cls, s, s', key, env) && FiledAt(cls, s, key)
    ensures FiledAt(cls, s', key)
  {
    match BranchOf(cls, s.site.api, key, env)
    case Pushing(obj) => FiledAfterPush(cls, s, s', key, env, obj);
    case Expiring(obj) => assert s'.site.api == s.site.api && ExpiredNow(s', key) && key in s'.queue;
    case _ =>
  }

  lemma FiledAfterMove(cls: string, s: State, s': State, key: string, position: nat)
    requires Legal(s.site.api) && FiledAt(cls, s, key)
    requires TimelineOf(s.site.api, key).seen <= position < |TimelineOf(s.site.api, key).versions|
    requires TimelineOf(s'.site.api, key) == TimelineOf(s.site.api, key).(seen := position)
    requires s'.site.kong == s.site.kong && s'.clock == s.clock
    requires key in s'.site.cache ==> key in s.site.cache && s'.site.cache[key] == s.site.cache[key]
    requires OursSettled(cls, s'.site.api, key) && Seen(s.site.api, key).Some? ==>
               key in s.queue || !MatchesClass(Seen(s.site.api, key).value, cls) ==> key in s'.queue
    ensures FiledAt(cls, s', key)
  {
    var t := TimelineOf(s.site.api, key);
    if Settled(TimelineOf(s'.site.api, key)) {
      LegalOf(s.site.api, key);
      SettledBefore(key, t, position);
      SamePublished(key, t, position);
      SamePrefixSameFrom(t, t.(seen := position), position);
    }
  }

  lemma FiledAfterAppend(cls: string, s: State, s': State, key: string, changed: string, version: Option<KongFile>)
    requires Legal(s.site.api) && FiledAt(cls, s, key)
    requires s'.site.api == AppendTo(s.site.api, changed, version)
    requires !BecomesValidated(Current(s.site.api, changed), version)
    requires s'.site.cache == s.site.cache && s'.site.kong == s.site.kong
    requires s'.queue == s.queue && s'.clock == s.clock
    ensures FiledAt(cls, s', key)
  {
    var t, t' := TimelineOf(s.site.api, key), TimelineOf(s'.site.api, key);
    if Settled(t') {
      assert Settled(t);
      SamePrefixSameFrom(t, t', t.seen);
    }
  }

  lemma FiledWhenQueued(cls: string, s: State, s': State)
    requires Filed(cls, s) && s' == s.(queue := s'.queue) && s.queue <= s'.queue
    ensures Filed(cls, s')
  {
    assert forall key :: FiledAt(cls, s, key) ==> FiledAt(cls, s', key);
  }

  lemma FiledAfterUserStep(cls: string, s: State, step: Step)
    requires Legal(s.site.api) && Filed(cls, s)
    requires step.Create? || step.Edit? || step.SetDeletion? || step.Remove?
    ensures Filed(cls, Next(cls, s, step))
  {
    var s' := Next(cls, s, step);
    OtherEffect(cls, s, step);
    var appended, changed, version := AppendStep(cls, s, step);
    if appended {
      assert s'.queue == s.queue;
      forall key ensures FiledAt(cls, s', key) {
        FiledAfterAppend(cls, s, s', key, changed, version);
      }
    }
  }

  /** Both moves queue what is shown of the controller's class after an object was shown. */
  lemma MoveQueues(cls: string, s: State, step: Step, key: string)
    requires Moves(step) && Enabled(s, step)
    ensures var s' := Next(cls, s, step);
            var t, t' := TimelineOf(s.site.api, key), TimelineOf(s'.site.api, key);
            t.seen <= t'.seen < |t.versions| && t' == t.(seen := t'.seen) &&
            (OursSettled(cls, s'.site.api, key) && Seen(s.site.api, key).Some? ==>
               key in s.queue || !MatchesClass(Seen(s.site.api, key).value, cls) ==> key in s'.queue)
  {
  }

  lemma FiledAfterMoves(cls: string, s: State, step: Step)
    requires Legal(s.site.api) && Filed(cls, s) && Moves(step)
    ensures Filed(cls, Next(cls, s, step))
  {
    var s' := Next(cls, s, step);
    OtherEffect(cls, s, step);
    if Enabled(s, step) {
      forall key ensures FiledAt(cls, s', key) {
        MoveQueues(cls, s, step, key);
        FiledAfterMove(cls, s, s', key, TimelineOf(s'.site.api, key).seen);
      }
    }
  }

  lemma FiledOther(cls: string, s: State, step: Step)
    requires Legal(s.site.api) && Filed(cls, s)
    requires !step.Pass? && !step.OutsidePut? && !step.OutsideDelete?
    ensures Filed(cls, Next(cls, s, step))
  {
    if Moves(step) {
      FiledAfterMoves(cls, s, step);
    } else if step.Resync? {
      ResyncEffect(cls, s, step);
      FiledWhenQueued(cls, s, Next(cls, s, step));
    } else {
      FiledAfterUserStep(cls, s, step);
    }
  }

  lemma FiledStep(cls: string, s: State, step: Step)
    requires Sourced(cls, s) && PathsApart(s.site.api) && Filed(cls, s)
    requires !step.OutsidePut? && !step.OutsideDelete?
    ensures Filed(cls, Next(cls, s, step))
  {
    if !step.Pass? {
      FiledOther(cls, s, step);
    } else if Enabled(s, step) {
      var s' := Next(cls, s, step);
      PassHasFacts(cls, s, step.key, step.env);
      forall key ensures FiledAt(cls, s', key) {
        if key == step.key {
          FiledHere(cls, s, s', key, step.env);
        } else {
          FiledElsewhere(cls, s, s', step.key, step.env, key);
        }
      }
    }
  }

  /** At every moment of every run without an outside writer and with different paths for different keys,
      whatever is edited, spec or class, and whatever fails, is restarted or read late: a settled object's
      published spec is in the portal, or the object expired. */
  lemma {:induction false} PublishedIsFiled(cls: string, kong: map<string, string>, steps: seq<Step>)
    requires NoOutsideWriter(steps)
    requires PathsApart(Exec(cls, Init(kong), steps).site.api)
    ensures Filed(cls, Exec(cls, Init(kong), steps))
  {
    if steps == [] {
    } else {
      var before, step := steps[..|steps| - 1], steps[|steps| - 1];
      var s := Exec(cls, Init(kong), before);
      EverythingIsSourced(cls, kong, before);
      GrowStep(cls, s, step);
      EarlierHistory(cls, s.site.api, Exec(cls, Init(kong), steps).site.api);
      PublishedIsFiled(cls, kong, before);
      FiledStep(cls, s, step);
    }
  }

  // ---------------------------------------------------------------- quiet states

  /** A file at the path that no cache entry speaks for: left behind, or there from the start. */
  predicate Stray(kong0: map<string, string>, s: State, path: string) {
    Leaked(s, path) || (path in kong0 && path !in s.authors)
  }

  /** The portal holds the published spec of the live, validated object of the key, unless the object has
      expired outside the controller's class. Then it holds the current spec exactly when both are rendered
      alike, unless the path was edited and a stray file is there. */
  predicate HoldsPublished(cls: string, kong0: map<string, string>, s: State, key: string) {
    var now := Current(s.site.api, key);
    now.Some? && Seen(s.site.api, key) == now && now.value.status.validated ==>
      var published := PublishedSpec(s.site.api, key);
      (InPortal(s.site.kong, published) || (ExpiredNow(s, key) && !MatchesClass(now.value, cls))) &&
      (InPortal(s.site.kong, published) &&
       (Build(now.value.spec).path == Build(published).path || !Stray(kong0, s, Build(now.value.spec).path)) ==>
         (InPortal(s.site.kong, now.value.spec) <==> Build(now.value.spec) == Build(published)))
  }

  lemma OtherPathIsStray(cls: string, kong0: map<string, string>, s: State, key: string, path: string)
    requires Sourced(cls, s) && PathsApart(s.site.api) && FiledAt(cls, s, key) && FoundThere(kong0, s, path)
    requires Settled(TimelineOf(s.site.api, key)) && KnownKind(Seen(s.site.api, key).value.spec)
    requires path == Build(Seen(s.site.api, key).value.spec).path != Build(PublishedSpec(s.site.api, key)).path
    requires path in s.site.kong
    ensures Stray(kong0, s, path)
  {
    BlankPathIffUnknownKind(Seen(s.site.api, key).value.spec);
    SeenStems(s.site.api, key);
    forall k | k in s.site.cache ensures !TracksPath(s.site.cache, k, path) {
      CachedStems(cls, s, k);
      BlankPathIffUnknownKind(s.site.cache[k].spec);
      if k != key {
        StemsApart(s.site.api, k, s.site.cache[k], key, Seen(s.site.api, key).value);
      }
    }
  }

  lemma FiledIsHeld(cls: string, kong0: map<string, string>, s: State, key: string)
    requires Sourced(cls, s) && PathsApart(s.site.api) && FiledAt(cls, s, key) && s.queue == {}
    requires OnlyCreditedWrites(kong0, s)
    ensures HoldsPublished(cls, kong0, s, key)
  {
    var now := Current(s.site.api, key);
    if now.Some? && Seen(s.site.api, key) == now && now.value.status.validated {
      assert Settled(TimelineOf(s.site.api, key));
      var path := Build(now.value.spec).path;
      if InPortal(s.site.kong, now.value.spec) && path != Build(PublishedSpec(s.site.api, key)).path {
        assert FoundThere(kong0, s, path);
        OtherPathIsStray(cls, kong0, s, key, path);
      }
      BlankPathIffUnknownKind(now.value.spec);
      BlankPathIffUnknownKind(PublishedSpec(s.site.api, key));
    }
  }

  /** Drift, exactly. Once a run of that kind has come to rest, the portal holds each object as it was when it
      was validated, and so as it is now exactly when the edits since then left its rendering alone. */
  lemma PortalHoldsPublished(cls: string, kong: map<string, string>, steps: seq<Step>)
    requires NoOutsideWriter(steps)
    requires PathsApart(Exec(cls, Init(kong), steps).site.api)
    requires Quiet(Exec(cls, Init(kong), steps))
    ensures forall key :: HoldsPublished(cls, kong, Exec(cls, Init(kong), steps), key)
  {
    var s := Exec(cls, Init(kong), steps);
    EverythingIsSourced(cls, kong, steps);
    PublishedIsFiled(cls, kong, steps);
    OnlyCreditedWritesRun(cls, kong, steps);
    forall key ensures HoldsPublished(cls, kong, s, key) {
      assert FiledAt(cls, s, key);
      FiledIsHeld(cls, kong, s, key);
    }
  }
}
