/** What every run keeps about the versions of a key, and when an object becomes validated. */
module Timelines {
  import opened Wrappers
  import opened Strings
  import opened KongFiles
  import opened Protocol
  import opened Machine

  // ---------------------------------------------------------------- legal timelines

  /** `after` is `before` with, at most, another status and another resource version. */
  predicate SameButStatus(before: KongFile, after: KongFile) {
    after == before.(status := after.status, meta := before.meta.(resourceVersion := after.meta.resourceVersion))
  }

  lemma SameButStatusComposes(a: KongFile, b: KongFile, c: KongFile)
    requires SameButStatus(a, b) && SameButStatus(b, c)
    ensures SameButStatus(a, c) && SameButStatus(b, a)
  {
  }

  predicate BecomesValidated(before: Option<KongFile>, after: Option<KongFile>) {
    before.Some? && after.Some? && !before.value.status.validated && after.value.status.validated
  }

  /** How version `index` of a key may differ from the one before it. */
  predicate Change(key: string, before: Option<KongFile>, after: Option<KongFile>, index: nat) {
    match (before, after)
    case (_, None) => before.Some?
    case (None, Some(obj)) =>
      Key(obj) == key && obj.meta.resourceVersion == obj.meta.uid == index &&
      obj.meta.deletionTimestamp.None? && !obj.status.validated
    case (Some(old_), Some(obj)) =>
      Key(obj) == key && obj.meta.resourceVersion == index && obj.meta.uid == old_.meta.uid &&
      (old_.status.validated ==> obj.status.validated) &&
      (old_.meta.deletionTimestamp.Some? ==> obj.meta.deletionTimestamp == old_.meta.deletionTimestamp) &&
      (BecomesValidated(before, after) ==> SameButStatus(old_, obj))
  }

  /** The informer has already shown every version that was ever marked validated. */
  predicate LegalTimeline(key: string, t: Timeline) {
    Sound(t) && t.versions[0].None? &&
    (forall i :: 0 < i < |t.versions| ==> Change(key, t.versions[i - 1], t.versions[i], i)) &&
    (forall i :: 0 < i < |t.versions| && BecomesValidated(t.versions[i - 1], t.versions[i]) ==> i <= t.seen + 1)
  }

  predicate Legal(api: Api) {
    forall key :: key in api ==> LegalTimeline(key, api[key])
  }

  lemma LegalOf(api: Api, key: string)
    requires Legal(api)
    ensures LegalTimeline(key, TimelineOf(api, key))
  {
  }

  lemma VersionFacts(key: string, t: Timeline, i: nat)
    requires LegalTimeline(key, t) && i < |t.versions| && t.versions[i].Some?
    ensures i > 0 && Key(t.versions[i].value) == key && t.versions[i].value.meta.resourceVersion == i
  {
    assert i > 0;
    assert Change(key, t.versions[i - 1], t.versions[i], i);
  }

  lemma LegalIsWellKeyed(api: Api)
    requires Legal(api)
    ensures WellKeyed(api)
  {
    forall key, i | key in api && 0 <= i < |api[key].versions| && api[key].versions[i].Some?
      ensures Key(api[key].versions[i].value) == key
    {
      VersionFacts(key, api[key], i);
    }
  }

  lemma AppendLegal(key: string, t: Timeline, version: Option<KongFile>)
    requires LegalTimeline(key, t)
    requires Change(key, t.versions[|t.versions| - 1], version, |t.versions|)
    requires BecomesValidated(t.versions[|t.versions| - 1], version) ==> t.seen == |t.versions| - 1
    ensures LegalTimeline(key, Append(t, version))
  {
  }

  /** Optimistic concurrency: only a pass that read the current version gets its status stored. */
  lemma AcceptedMeansCurrent(api: Api, key: string, obj: KongFile, answer: Answer)
    requires Legal(api) && Seen(api, key).Some?
    requires obj.meta.resourceVersion == Seen(api, key).value.meta.resourceVersion
    requires StatusAccepted(api, key, obj, answer)
    ensures var t := TimelineOf(api, key); t.seen == |t.versions| - 1 && Current(api, key) == Seen(api, key)
  {
    var t := TimelineOf(api, key);
    LegalOf(api, key);
    VersionFacts(key, t, t.seen);
    VersionFacts(key, t, |t.versions| - 1);
  }

  /** The API part of a pass: nothing, or one new version that marks the version read validated. */
  lemma PassOnApi(cls: string, site: Site, key: string, env: Env)
    requires Legal(site.api)
    ensures var api' := Reconcile(cls, site, key, env).site.api;
            api' == site.api ||
            (BranchOf(cls, site.api, key, env).Pushing? &&
             !env.put.Refused? && env.put.Served? &&
             !IsBlank(Build(Seen(site.api, key).value.spec).path) &&
             TimelineOf(site.api, key).seen == |TimelineOf(site.api, key).versions| - 1 &&
             api' == AppendTo(site.api, key, Stamp(site.api, key, Validate(Seen(site.api, key).value))))
  {
    var branch := BranchOf(cls, site.api, key, env);
    if branch.Pushing? && Reconcile(cls, site, key, env).site.api != site.api {
      AcceptedMeansCurrent(site.api, key, Validate(branch.obj), env.status);
    }
  }

  predicate Moves(step: Step) {
    step.Deliver? || step.Restart?
  }

  /** Apart from the informer's moves, a step leaves the API alone or appends one version to one key. */
  lemma AppendStep(cls: string, s: State, step: Step) returns (appended: bool, key: string, version: Option<KongFile>)
    requires Legal(s.site.api) && !Moves(step)
    ensures !appended ==> Next(cls, s, step).site.api == s.site.api
    ensures appended ==>
              Enabled(s, step) && Next(cls, s, step).site.api == AppendTo(s.site.api, key, version) &&
              Change(key, Current(s.site.api, key), version, |TimelineOf(s.site.api, key).versions|)
    ensures appended && BecomesValidated(Current(s.site.api, key), version) ==>
              step.Pass? && step.key == key && BranchOf(cls, s.site.api, key, step.env).Pushing? &&
              step.env.put.Served? && !IsBlank(Build(version.value.spec).path) &&
              TimelineOf(s.site.api, key).seen == |TimelineOf(s.site.api, key).versions| - 1
  {
    var api := s.site.api;
    appended, key, version := false, "", None;
    if Enabled(s, step) && (step.Create? || step.Edit? || step.SetDeletion? || step.Remove?) {
      appended := true;
      key := if step.Create? then KeyOf(step.namespace, step.name) else step.key;
      var t := TimelineOf(api, key);
      version := ApiStep(api, step)[key].versions[|t.versions|];
      LegalOf(api, key);
      if Current(api, key).Some? {
        VersionFacts(key, t, |t.versions| - 1);
      }
    } else if Enabled(s, step) && step.Pass? {
      key := step.key;
      PassOnApi(cls, s.site, key, step.env);
      if Reconcile(cls, s.site, key, step.env).site.api != api {
        appended, version := true, Stamp(api, key, Validate(Seen(api, key).value));
        LegalOf(api, key);
        VersionFacts(key, TimelineOf(api, key), TimelineOf(api, key).seen);
      }
    }
  }

  lemma LegalAfterAppend(api: Api, key: string, version: Option<KongFile>)
    requires Legal(api) && Change(key, Current(api, key), version, |TimelineOf(api, key).versions|)
    requires BecomesValidated(Current(api, key), version) ==>
               TimelineOf(api, key).seen == |TimelineOf(api, key).versions| - 1
    ensures Legal(AppendTo(api, key, version))
  {
    LegalOf(api, key);
    AppendLegal(key, TimelineOf(api, key), version);
  }

  lemma LegalAfterMove(api: Api, step: Step)
    requires Legal(api) && Moves(step) && ApiEnabled(api, step)
    ensures Legal(ApiStep(api, step))
  {
  }

  lemma LegalStep(cls: string, s: State, step: Step)
    requires Legal(s.site.api)
    ensures Legal(Next(cls, s, step).site.api)
  {
    if !Moves(step) {
      var appended, key, version := AppendStep(cls, s, step);
      if appended {
        LegalAfterAppend(s.site.api, key, version);
      }
    } else if Enabled(s, step) {
      LegalAfterMove(s.site.api, step);
    }
  }

  lemma {:induction false} LegalRun(cls: string, kong: map<string, string>, steps: seq<Step>)
    ensures Legal(Exec(cls, Init(kong), steps).site.api)
  {
    if steps == [] {
    } else {
      LegalRun(cls, kong, steps[..|steps| - 1]);
      LegalStep(cls, Exec(cls, Init(kong), steps[..|steps| - 1]), steps[|steps| - 1]);
    }
  }

  // ---------------------------------------------------------------- timelines only grow

  ghost predicate Grown(api: Api, api': Api) {
    forall key ::
      TimelineOf(api, key).versions <= TimelineOf(api', key).versions &&
      TimelineOf(api, key).seen <= TimelineOf(api', key).seen
  }

  lemma AppendGrows(api: Api, key: string, version: Option<KongFile>)
    ensures Grown(api, AppendTo(api, key, version))
  {
  }

  lemma MoveGrows(api: Api, step: Step)
    requires Moves(step) && ApiEnabled(api, step)
    ensures Grown(api, ApiStep(api, step))
  {
  }

  lemma GrowStep(cls: string, s: State, step: Step)
    requires Legal(s.site.api)
    ensures Grown(s.site.api, Next(cls, s, step).site.api)
  {
    if !Moves(step) {
      var appended, key, version := AppendStep(cls, s, step);
      AppendGrows(s.site.api, key, version);
    } else if Enabled(s, step) {
      MoveGrows(s.site.api, step);
    }
  }

  lemma {:induction false} GrowRun(cls: string, s: State, steps: seq<Step>)
    requires Legal(s.site.api)
    ensures Legal(Exec(cls, s, steps).site.api)
    ensures Grown(s.site.api, Exec(cls, s, steps).site.api)
  {
    if steps == [] {
    } else {
      var before := Exec(cls, s, steps[..|steps| - 1]);
      GrowRun(cls, s, steps[..|steps| - 1]);
      LegalStep(cls, before, steps[|steps| - 1]);
      GrowStep(cls, before, steps[|steps| - 1]);
    }
  }

  // ---------------------------------------------------------------- validated once, pushed no more

  /** Within one object (one uid) later versions stay validated. */
  lemma {:induction false} StaysValidated(key: string, t: Timeline, i: nat, j: nat)
    requires LegalTimeline(key, t) && i <= j < |t.versions|
    requires t.versions[i].Some? && t.versions[i].value.status.validated
    requires t.versions[j].Some? && t.versions[j].value.meta.uid == t.versions[i].value.meta.uid
    ensures t.versions[j].value.status.validated
    decreases j - i
  {
    if i == j {
    } else {
      assert Change(key, t.versions[j - 1], t.versions[j], j);
      UidBound(key, t, i);
      if t.versions[j - 1].Some? {
        StaysValidated(key, t, i, j - 1);
      }
    }
  }

  lemma {:induction false} UidBound(key: string, t: Timeline, i: nat)
    requires LegalTimeline(key, t) && i < |t.versions| && t.versions[i].Some?
    ensures t.versions[i].value.meta.uid <= i
  {
    assert i > 0 && Change(key, t.versions[i - 1], t.versions[i], i);
    if t.versions[i - 1].None? {
    } else {
      UidBound(key, t, i - 1);
    }
  }

  lemma ReadsStayValidated(api: Api, api': Api, key: string)
    requires Legal(api') && Grown(api, api')
    requires Seen(api, key).Some? && Seen(api, key).value.status.validated
    requires Seen(api', key).Some? && Seen(api', key).value.meta.uid == Seen(api, key).value.meta.uid
    ensures Seen(api', key).value.status.validated
  {
    LegalOf(api', key);
    var t, t' := TimelineOf(api, key), TimelineOf(api', key);
    assert t'.versions[t.seen] == t.versions[t.seen];
    StaysValidated(key, t', t.seen, t'.seen);
  }

  /** If the key now shows the object with this uid, no pass sends a PUT for it. */
  ghost predicate NeverPuts(cls: string, site: Site, key: string, uid: nat) {
    Seen(site.api, key).Some? && Seen(site.api, key).value.meta.uid == uid ==>
      forall env: Env :: NoPut(Reconcile(cls, site, key, env).requests)
  }

  predicate NoPut(requests: seq<Request>) {
    forall i :: 0 <= i < |requests| ==> !requests[i].PutFile?
  }

  lemma ValidatedIsNotPut(cls: string, site: Site, key: string, env: Env)
    requires Seen(site.api, key).Some? && Seen(site.api, key).value.status.validated
    ensures NoPut(Reconcile(cls, site, key, env).requests)
  {
    assert !BranchOf(cls, site.api, key, env).Pushing?;
  }

  lemma ValidatedNeverPuts(cls: string, api: Api, site: Site, key: string)
    requires Legal(site.api) && Grown(api, site.api)
    requires Seen(api, key).Some? && Seen(api, key).value.status.validated
    ensures NeverPuts(cls, site, key, Seen(api, key).value.meta.uid)
  {
    var now := Seen(site.api, key);
    if now.Some? && now.value.meta.uid == Seen(api, key).value.meta.uid {
      ReadsStayValidated(api, site.api, key);
      forall env: Env ensures NoPut(Reconcile(cls, site, key, env).requests) {
        ValidatedIsNotPut(cls, site, key, env);
      }
    }
  }

  /** Once a pass can read an object as validated, no pass of any later state that reads the same object
      pushes it again, whatever happens in between. */
  lemma PushedOnce(cls: string, s: State, later: seq<Step>, key: string)
    requires Legal(s.site.api)
    requires Seen(s.site.api, key).Some? && Seen(s.site.api, key).value.status.validated
    ensures NeverPuts(cls, Exec(cls, s, later).site, key, Seen(s.site.api, key).value.meta.uid)
  {
    GrowRun(cls, s, later);
    ValidatedNeverPuts(cls, s.site.api, Exec(cls, s, later).site, key);
  }
}
