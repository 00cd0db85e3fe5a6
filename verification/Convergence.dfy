/** A fixed set of objects ends up in the portal from any order of passes and any failures. */
module Convergence {
  import opened Wrappers
  import opened Strings
  import opened KongFiles
  import opened ClassMatching
  import opened Protocol
  import opened Machine
  import opened Timelines
  import opened Effects

  /** The object of the key is one the controller is to publish: of its class, unvalidated, of a known kind. */
  predicate Ours(cls: string, api: Api, key: string) {
    Seen(api, key).Some? &&
    var obj := Seen(api, key).value;
    MatchesClass(obj, cls) && !obj.status.validated && KnownKind(obj.spec)
  }

  function Image(api: Api, key: string): File
    requires Seen(api, key).Some?
  {
    Build(Seen(api, key).value.spec)
  }

  /** The informer is up to date, no clean-up is due, and no object that has a file is being deleted. Objects
      of other classes, already validated ones (as after a restart) and ones of unknown kinds may be there. */
  ghost predicate FixedSet(cls: string, s: State) {
    Legal(s.site.api) && UpToDate(s.site.api) &&
    forall key ::
      (Seen(s.site.api, key).None? ==> key !in s.site.cache) &&
      (Seen(s.site.api, key).Some? && KnownKind(Seen(s.site.api, key).value.spec) ==>
         Seen(s.site.api, key).value.meta.deletionTimestamp.None?)
  }

  ghost predicate ImagesApart(cls: string, api: Api) {
    forall k1, k2 | Ours(cls, api, k1) && Ours(cls, api, k2) && k1 != k2 ::
      Image(api, k1).path != Image(api, k2).path
  }

  /** Users and outsiders hold still; passes, deliveries and resyncs come in any order with any outcome. */
  predicate Calm(steps: seq<Step>) {
    forall step :: step in steps ==> step.Pass? || step.Deliver? || step.Resync?
  }

  /** The key has had a PUT carried out since the log had length `from`. */
  predicate WasPut(log: seq<LogEntry>, from: nat, key: string) {
    exists i :: from <= i < |log| && log[i].key == key && log[i].request.PutFile? && !log[i].request.answer.Refused?
  }

  /** All versions of a key from its first shown one on are that one, up to status, and still validated if
      it was. */
  predicate StillThere(t0: Timeline, t: Timeline)
    requires Sound(t0) && Sound(t)
  {
    t0.versions <= t.versions && t0.seen <= t.seen &&
    forall i :: t0.seen <= i < |t.versions| ==>
      if t0.versions[t0.seen].None? then t.versions[i].None?
      else t.versions[i].Some? && StaysAs(t0.versions[t0.seen].value, t.versions[i].value)
  }

  predicate StaysAs(before: KongFile, after: KongFile) {
    SameButStatus(before, after) && (before.status.validated ==> after.status.validated)
  }

  /** The portal is the initial one overridden by the images of exactly the keys put so far. */
  predicate PathConverges(cls: string, s0: State, s: State, key: string, path: string)
    requires Ours(cls, s0.site.api, key) && Image(s0.site.api, key).path == path
  {
    if WasPut(s.log, |s0.log|, key)
    then path in s.site.kong && s.site.kong[path] == Image(s0.site.api, key).contents
    else SameAt(s0.site.kong, s.site.kong, path)
  }

  predicate SameAt(kong0: map<string, string>, kong: map<string, string>, path: string) {
    Lookup(kong0, path) == Lookup(kong, path)
  }

  predicate StillAt(s0: State, s: State, key: string) {
    StillThere(TimelineOf(s0.site.api, key), TimelineOf(s.site.api, key)) &&
    (Seen(s0.site.api, key).None? ==> key !in s.site.cache)
  }

  ghost predicate Still(s0: State, s: State) {
    Legal(s.site.api) && forall key :: StillAt(s0, s, key)
  }

  ghost predicate FreePath(cls: string, api: Api, path: string) {
    forall key | Ours(cls, api, key) :: Image(api, key).path != path
  }

  ghost predicate PortalConverges(cls: string, s0: State, s: State) {
    s0.log <= s.log &&
    (forall key | Ours(cls, s0.site.api, key) ::
       PathConverges(cls, s0, s, key, Image(s0.site.api, key).path)) &&
    (forall path | FreePath(cls, s0.site.api, path) :: SameAt(s0.site.kong, s.site.kong, path))
  }

  // ---------------------------------------------------------------- timelines of a fixed set

  lemma StillThereNow(t0: Timeline, t: Timeline)
    requires Sound(t0) && Sound(t) && StillThere(t0, t)
    ensures t0.versions[t0.seen].None? ==> t.versions[t.seen].None?
    ensures t0.versions[t0.seen].Some? ==>
              t.versions[t.seen].Some? && StaysAs(t0.versions[t0.seen].value, t.versions[t.seen].value)
  {
  }

  /** The object shown is the initial one up to its status, so it is ours, or not, as before. */
  lemma SeenAsBefore(cls: string, s0: State, s: State, key: string)
    requires FixedSet(cls, s0) && StillAt(s0, s, key)
    ensures Seen(s0.site.api, key).None? <==> Seen(s.site.api, key).None?
    ensures Seen(s0.site.api, key).Some? ==>
              StaysAs(Seen(s0.site.api, key).value, Seen(s.site.api, key).value)
  {
    StillThereNow(TimelineOf(s0.site.api, key), TimelineOf(s.site.api, key));
  }

  lemma StillThereAfterAppend(t0: Timeline, t: Timeline, version: Option<KongFile>)
    requires Sound(t0) && Sound(t) && StillThere(t0, t)
    requires t.versions[|t.versions| - 1].Some? && version.Some?
    requires StaysAs(t.versions[|t.versions| - 1].value, version.value)
    ensures StillThere(t0, Append(t, version))
  {
  }

  // ---------------------------------------------------------------- one pass

  lemma WasPutExtends(log: seq<LogEntry>, log': seq<LogEntry>, from: nat, key: string)
    requires log <= log' && from <= |log|
    requires forall i :: |log| <= i < |log'| && log'[i].key == key ==>
               !log'[i].request.PutFile? || log'[i].request.answer.Refused?
    ensures WasPut(log', from, key) <==> WasPut(log, from, key)
  {
    if i :| from <= i < |log| && log[i].key == key && log[i].request.PutFile? && !log[i].request.answer.Refused? {
      assert log'[i] == log[i];
    }
    if i :| from <= i < |log'| && log'[i].key == key && log'[i].request.PutFile? && !log'[i].request.answer.Refused? {
      assert log'[i] == log[i];
    }
  }

  /** The object pushed is ours, with its initial image, unless it is of an unknown kind. */
  lemma PushedIsOurs(cls: string, s0: State, s: State, key: string, env: Env, obj: KongFile)
    requires FixedSet(cls, s0) && StillAt(s0, s, key) && BranchOf(cls, s.site.api, key, env) == Pushing(obj)
    ensures Seen(s0.site.api, key).Some? && Image(s0.site.api, key) == Build(obj.spec)
    ensures Ours(cls, s0.site.api, key) <==> KnownKind(obj.spec)
    ensures IsBlank(Build(obj.spec).path) <==> !KnownKind(obj.spec)
  {
    SeenAsBefore(cls, s0, s, key);
    BlankPathIffUnknownKind(obj.spec);
  }

  /** A PUT carried out brings the image of its key. */
  lemma PutConverges(cls: string, s0: State, s: State, s': State, key: string, env: Env, obj: KongFile)
    requires Pushed(s, s', key, obj, env.put) && LogEffect(s, s', key, Pushing(obj), env) && s0.log <= s.log
    requires Ours(cls, s0.site.api, key) && Image(s0.site.api, key) == Build(obj.spec)
    requires !IsBlank(Build(obj.spec).path) && !env.put.Refused?
    ensures PathConverges(cls, s0, s', key, Image(s0.site.api, key).path)
  {
    assert s'.log[|s.log|].key == key;
    assert WasPut(s'.log, |s0.log|, key);
  }

  /** A pass that pushes: its own path gets the image if the PUT is carried out, no other path changes. */
  lemma PushConverges(cls: string, s0: State, s: State, s': State, key: string, env: Env, obj: KongFile, other: string)
    requires FixedSet(cls, s0) && ImagesApart(cls, s0.site.api) && StillAt(s0, s, key)
    requires PassFacts(cls, s, s', key, env) && BranchOf(cls, s.site.api, key, env) == Pushing(obj)
    requires LogEffect(s, s', key, Pushing(obj), env) && s0.log <= s.log
    requires Ours(cls, s0.site.api, other) && PathConverges(cls, s0, s, other, Image(s0.site.api, other).path)
    ensures PathConverges(cls, s0, s', other, Image(s0.site.api, other).path)
  {
    PushedIsOurs(cls, s0, s, key, env, obj);
    if other == key && !env.put.Refused? {
      PutConverges(cls, s0, s, s', key, env, obj);
    } else {
      WasPutExtends(s.log, s'.log, |s0.log|, other);
      if other != key {
        OnlyTargetChanges(s, s', key, Pushing(obj), env, Image(s0.site.api, other).path);
      }
    }
  }

  lemma PushConvergesElsewhere(
      cls: string, s0: State, s: State, s': State, key: string, env: Env, obj: KongFile, path: string)
    requires FixedSet(cls, s0) && StillAt(s0, s, key)
    requires PassFacts(cls, s, s', key, env) && BranchOf(cls, s.site.api, key, env) == Pushing(obj)
    requires FreePath(cls, s0.site.api, path) && SameAt(s0.site.kong, s.site.kong, path)
    ensures SameAt(s0.site.kong, s'.site.kong, path)
  {
    PushedIsOurs(cls, s0, s, key, env, obj);
    OnlyTargetChanges(s, s', key, Pushing(obj), env, path);
  }

  lemma PushKeepsStill(s0: State, s: State, s': State, key: string, obj: KongFile, answer: Answer, k: string)
    requires Pushed(s, s', key, obj, answer) && Seen(s.site.api, key) == Some(obj)
    requires StillAt(s0, s, k) && Sound(TimelineOf(s0.site.api, key))
    requires k == key ==> Seen(s0.site.api, key).Some?
    ensures StillAt(s0, s', k)
  {
    if k == key && s'.site.api != s.site.api {
      StillThereAfterAppend(TimelineOf(s0.site.api, key), TimelineOf(s.site.api, key),
                            Stamp(s.site.api, key, Validate(obj)));
    }
  }

  /** A pass that does not push changes neither the portal nor the cache: there is nothing to delete. */
  lemma OtherPassIsQuiet(cls: string, s0: State, s: State, s': State, key: string, env: Env)
    requires FixedSet(cls, s0) && StillAt(s0, s, key)
    requires PassFacts(cls, s, s', key, env) && !BranchOf(cls, s.site.api, key, env).Pushing?
    ensures s'.site == s.site
  {
    SeenAsBefore(cls, s0, s, key);
    if Seen(s.site.api, key).Some? {
      BlankPathIffUnknownKind(Seen(s.site.api, key).value.spec);
    }
  }

  lemma PassKeepsStill(cls: string, s0: State, s: State, s': State, key: string, env: Env)
    requires FixedSet(cls, s0) && Still(s0, s) && PassFacts(cls, s, s', key, env)
    ensures Still(s0, s')
  {
    var branch := BranchOf(cls, s.site.api, key, env);
    assert StillAt(s0, s, key);
    if branch.Pushing? {
      SeenAsBefore(cls, s0, s, key);
      forall k ensures StillAt(s0, s', k) {
        PushKeepsStill(s0, s, s', key, branch.obj, env.put, k);
      }
    } else {
      OtherPassIsQuiet(cls, s0, s, s', key, env);
      assert forall k :: StillAt(s0, s, k) ==> StillAt(s0, s', k);
    }
  }

  lemma PassConverges(cls: string, s0: State, s: State, s': State, key: string, env: Env)
    requires FixedSet(cls, s0) && ImagesApart(cls, s0.site.api) && Still(s0, s) && PortalConverges(cls, s0, s)
    requires PassFacts(cls, s, s', key, env)
    requires LogEffect(s, s', key, BranchOf(cls, s.site.api, key, env), env)
    ensures PortalConverges(cls, s0, s')
  {
    var branch := BranchOf(cls, s.site.api, key, env);
    assert StillAt(s0, s, key);
    if !branch.Pushing? {
      OtherPassIsQuiet(cls, s0, s, s', key, env);
    }
    forall k | Ours(cls, s0.site.api, k) ensures PathConverges(cls, s0, s', k, Image(s0.site.api, k).path) {
      if branch.Pushing? {
        PushConverges(cls, s0, s, s', key, env, branch.obj, k);
      } else {
        WasPutExtends(s.log, s'.log, |s0.log|, k);
      }
    }
    forall path | FreePath(cls, s0.site.api, path) ensures SameAt(s0.site.kong, s'.site.kong, path) {
      if branch.Pushing? {
        PushConvergesElsewhere(cls, s0, s, s', key, env, branch.obj, path);
      }
    }
  }

  // ---------------------------------------------------------------- runs

  lemma DeliverConverges(cls: string, s0: State, s: State, s': State)
    requires Still(s0, s) && PortalConverges(cls, s0, s)
    requires forall k :: TimelineOf(s'.site.api, k).versions == TimelineOf(s.site.api, k).versions &&
                         TimelineOf(s'.site.api, k).seen >= TimelineOf(s.site.api, k).seen
    requires Legal(s'.site.api) && s'.site.cache == s.site.cache && s'.site.kong == s.site.kong && s'.log == s.log
    ensures Still(s0, s') && PortalConverges(cls, s0, s')
  {
    forall k ensures StillAt(s0, s', k) {
      assert StillAt(s0, s, k);
    }
    forall k | Ours(cls, s0.site.api, k) ensures PathConverges(cls, s0, s', k, Image(s0.site.api, k).path) {
    }
  }

  lemma ConvergingPass(cls: string, s0: State, s: State, step: Step)
    requires FixedSet(cls, s0) && ImagesApart(cls, s0.site.api) && Still(s0, s) && PortalConverges(cls, s0, s)
    requires step.Pass? && Enabled(s, step)
    ensures Still(s0, Next(cls, s, step)) && PortalConverges(cls, s0, Next(cls, s, step))
  {
    PassHasFacts(cls, s, step.key, step.env);
    PassHasLogEffect(cls, s, step.key, step.env);
    PassKeepsStill(cls, s0, s, Next(cls, s, step), step.key, step.env);
    PassConverges(cls, s0, s, Next(cls, s, step), step.key, step.env);
  }

  lemma ConvergingMove(cls: string, s0: State, s: State, step: Step)
    requires Still(s0, s) && PortalConverges(cls, s0, s)
    requires (step.Deliver? || step.Resync?) && Enabled(s, step)
    ensures Still(s0, Next(cls, s, step)) && PortalConverges(cls, s0, Next(cls, s, step))
  {
    OtherEffect(cls, s, step);
    LegalStep(cls, s, step);
    DeliverConverges(cls, s0, s, Next(cls, s, step));
  }

  lemma ConvergingStep(cls: string, s0: State, s: State, step: Step)
    requires FixedSet(cls, s0) && ImagesApart(cls, s0.site.api) && Still(s0, s) && PortalConverges(cls, s0, s)
    requires step.Pass? || step.Deliver? || step.Resync?
    ensures Still(s0, Next(cls, s, step)) && PortalConverges(cls, s0, Next(cls, s, step))
  {
    if Enabled(s, step) {
      if step.Pass? {
        ConvergingPass(cls, s0, s, step);
      } else {
        ConvergingMove(cls, s0, s, step);
      }
    }
  }

  lemma {:induction false} ConvergingRun(cls: string, s0: State, steps: seq<Step>)
    requires FixedSet(cls, s0) && ImagesApart(cls, s0.site.api) && Calm(steps)
    ensures Still(s0, Exec(cls, s0, steps)) && PortalConverges(cls, s0, Exec(cls, s0, steps))
  {
    if steps == [] {
      assert forall key :: StillAt(s0, s0, key);
    } else {
      ConvergingRun(cls, s0, steps[..|steps| - 1]);
      ConvergingStep(cls, s0, Exec(cls, s0, steps[..|steps| - 1]), steps[|steps| - 1]);
    }
  }

  /** The portal is the initial one overridden by the images of exactly the objects that had a PUT carried
      out since. */
  ghost predicate OverriddenByPuts(cls: string, s0: State, s: State) {
    (forall key | Ours(cls, s0.site.api, key) && WasPut(s.log, |s0.log|, key) ::
       InPortal(s.site.kong, Seen(s0.site.api, key).value.spec)) &&
    (forall path | NotPut(cls, s0, s, path) :: SameAt(s0.site.kong, s.site.kong, path))
  }

  ghost predicate NotPut(cls: string, s0: State, s: State, path: string) {
    forall key | Ours(cls, s0.site.api, key) && WasPut(s.log, |s0.log|, key) :: Image(s0.site.api, key).path != path
  }

  lemma ConvergedIsOverridden(cls: string, s0: State, s: State)
    requires FixedSet(cls, s0) && PortalConverges(cls, s0, s)
    ensures OverriddenByPuts(cls, s0, s)
  {
    forall key | Ours(cls, s0.site.api, key) && WasPut(s.log, |s0.log|, key)
      ensures InPortal(s.site.kong, Seen(s0.site.api, key).value.spec)
    {
      assert PathConverges(cls, s0, s, key, Image(s0.site.api, key).path);
    }
    forall path | NotPut(cls, s0, s, path) ensures SameAt(s0.site.kong, s.site.kong, path) {
      if key :| Ours(cls, s0.site.api, key) && Image(s0.site.api, key).path == path {
        assert PathConverges(cls, s0, s, key, path);
      } else {
        assert FreePath(cls, s0.site.api, path);
      }
    }
  }

  /** However many passes were repeated, reordered, failed or carried out with a lost answer, the portal is
      decided by which objects had a PUT carried out. */
  lemma PortalAfterAnyPasses(cls: string, s0: State, steps: seq<Step>)
    requires FixedSet(cls, s0) && ImagesApart(cls, s0.site.api) && Calm(steps)
    ensures OverriddenByPuts(cls, s0, Exec(cls, s0, steps))
  {
    ConvergingRun(cls, s0, steps);
    ConvergedIsOverridden(cls, s0, Exec(cls, s0, steps));
  }

  /** Once every object of ours has had a PUT carried out, the portal is the initial one overridden by
      exactly the images of our objects. */
  lemma ConvergesToImages(cls: string, s0: State, steps: seq<Step>)
    requires FixedSet(cls, s0) && ImagesApart(cls, s0.site.api) && Calm(steps)
    requires forall key | Ours(cls, s0.site.api, key) :: WasPut(Exec(cls, s0, steps).log, |s0.log|, key)
    ensures var kong := Exec(cls, s0, steps).site.kong;
            (forall key | Ours(cls, s0.site.api, key) :: InPortal(kong, Seen(s0.site.api, key).value.spec)) &&
            (forall path | FreePath(cls, s0.site.api, path) :: SameAt(s0.site.kong, kong, path))
  {
    ConvergingRun(cls, s0, steps);
    var s := Exec(cls, s0, steps);
    forall key | Ours(cls, s0.site.api, key) ensures InPortal(s.site.kong, Seen(s0.site.api, key).value.spec) {
      assert PathConverges(cls, s0, s, key, Image(s0.site.api, key).path);
    }
  }
}
