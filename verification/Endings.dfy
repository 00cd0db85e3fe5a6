/** Safety and progress together: served continuations of friendly runs end without orphans. */
module Endings {
  import opened Wrappers
  import opened KongFiles
  import opened ClassMatching
  import opened Protocol
  import opened Machine
  import opened Timelines
  import opened Effects
  import opened Histories
  import opened Lifecycle
  import opened Progress
  import opened Draining

  // ---------------------------------------------------------------- passes bring no new specs

  /** Every version of every key is, up to status, one it had before. */
  ghost predicate NothingNew(api: Api, api': Api) {
    forall key, i | HasVersion(api', key, i) :: Stems(api, key, Version(api', key, i))
  }

  lemma OldVersionStems(api: Api, key: string, i: nat)
    requires HasVersion(api, key, i)
    ensures Stems(api, key, Version(api, key, i))
  {
    assert SameButStatus(Version(api, key, i), Version(api, key, i));
  }

  lemma NothingNewAfterPush(api: Api, api': Api, key: string, obj: KongFile)
    requires Seen(api, key) == Some(obj)
    requires api' == api || api' == AppendTo(api, key, Stamp(api, key, Validate(obj)))
    ensures NothingNew(api, api')
  {
    forall k, i | HasVersion(api', k, i) ensures Stems(api, k, Version(api', k, i)) {
      if HasVersion(api, k, i) && Version(api, k, i) == Version(api', k, i) {
        OldVersionStems(api, k, i);
      } else {
        var shown := TimelineOf(api, key).seen;
        assert HasVersion(api, key, shown) && SameButStatus(Version(api, key, shown), Version(api', k, i));
      }
    }
  }

  lemma NothingNewStep(cls: string, s: State, step: Step)
    requires Legal(s.site.api) && (step.Deliver? || step.Pass?)
    ensures NothingNew(s.site.api, Next(cls, s, step).site.api)
  {
    var s' := Next(cls, s, step);
    if step.Pass? && Enabled(s, step) && BranchOf(cls, s.site.api, step.key, step.env).Pushing? {
      PassHasFacts(cls, s, step.key, step.env);
      NothingNewAfterPush(s.site.api, s'.site.api, step.key, Seen(s.site.api, step.key).value);
    } else {
      SameVersions(cls, s, step);
      forall k, i | HasVersion(s'.site.api, k, i) ensures Stems(s.site.api, k, Version(s'.site.api, k, i)) {
        OldVersionStems(s.site.api, k, i);
      }
    }
  }

  lemma SameVersions(cls: string, s: State, step: Step)
    requires step.Deliver? || !Enabled(s, step) ||
             (step.Pass? && !BranchOf(cls, s.site.api, step.key, step.env).Pushing?)
    ensures forall key :: TimelineOf(Next(cls, s, step).site.api, key).versions == TimelineOf(s.site.api, key).versions
  {
  }

  lemma StemsUpToStatus(api: Api, key: string, before: KongFile, obj: KongFile)
    requires Stems(api, key, before) && SameButStatus(before, obj)
    ensures Stems(api, key, obj)
  {
    var i :| HasVersion(api, key, i) && SameButStatus(Version(api, key, i), before);
    SameButStatusComposes(Version(api, key, i), before, obj);
    assert SameButStatus(Version(api, key, i), obj);
  }

  lemma StemsFromBefore(api: Api, api': Api, key: string, obj: KongFile)
    requires NothingNew(api, api') && Stems(api', key, obj)
    ensures Stems(api, key, obj)
  {
    var i :| HasVersion(api', key, i) && SameButStatus(Version(api', key, i), obj);
    StemsUpToStatus(api, key, Version(api', key, i), obj);
  }

  lemma NothingNewComposes(a: Api, b: Api, c: Api)
    requires NothingNew(a, b) && NothingNew(b, c)
    ensures NothingNew(a, c)
  {
    forall key, i | HasVersion(c, key, i) ensures Stems(a, key, Version(c, key, i)) {
      StemsFromBefore(a, b, key, Version(c, key, i));
    }
  }

  lemma {:induction false} NothingNewRun(cls: string, s: State, steps: seq<Step>, now: nat)
    requires Legal(s.site.api) && AllHelpful(steps, now)
    ensures NothingNew(s.site.api, Exec(cls, s, steps).site.api)
  {
    if steps == [] {
      forall k, i | HasVersion(s.site.api, k, i) ensures Stems(s.site.api, k, Version(s.site.api, k, i)) {
        OldVersionStems(s.site.api, k, i);
      }
    } else {
      var before, step := steps[..|steps| - 1], steps[|steps| - 1];
      assert step in steps;
      NothingNewRun(cls, s, before, now);
      GrowRun(cls, s, before);
      NothingNewStep(cls, Exec(cls, s, before), step);
      NothingNewComposes(s.site.api, Exec(cls, s, before).site.api, Exec(cls, s, steps).site.api);
    }
  }

  predicate SameUse(cls: string, a: KongFile, b: KongFile) {
    a.spec == b.spec && (MatchesClass(a, cls) <==> MatchesClass(b, cls))
  }

  lemma VersionsAlike(cls: string, api: Api, api': Api, key: string, i: nat, j: nat)
    requires ClassFixed(cls, api) && SpecFixed(api) && NothingNew(api, api')
    requires HasVersion(api', key, i) && HasVersion(api', key, j)
    ensures SameUse(cls, Version(api', key, i), Version(api', key, j))
  {
    StemsAlike(cls, api, key, Version(api', key, i), Version(api', key, j));
  }

  lemma PlainHistoryStays(cls: string, api: Api, api': Api)
    requires PlainHistory(cls, api) && NothingNew(api, api')
    ensures PlainHistory(cls, api')
  {
    forall k1, k2, i, j | HasVersion(api', k1, i) && HasVersion(api', k2, j) && k1 != k2
      ensures SpecsApart(Version(api', k1, i).spec, Version(api', k2, j).spec)
    {
      StemsApart(api, k1, Version(api', k1, i), k2, Version(api', k2, j));
    }
    forall key, i, j | HasVersion(api', key, i) && HasVersion(api', key, j)
      ensures SameUse(cls, Version(api', key, i), Version(api', key, j))
    {
      VersionsAlike(cls, api, api', key, i, j);
    }
  }

  // ---------------------------------------------------------------- safety and progress together

  lemma HelpfulIsFriendly(cls: string, kong: map<string, string>, steps: seq<Step>, more: seq<Step>, horizon: nat)
    requires AllFriendly(steps) && PlainHistory(cls, Exec(cls, Init(kong), steps).site.api)
    requires AllHelpful(more, horizon)
    ensures AllFriendly(steps + more) && PlainHistory(cls, Exec(cls, Init(kong), steps + more).site.api)
    ensures Exec(cls, Init(kong), steps + more) == Exec(cls, Exec(cls, Init(kong), steps), more)
  {
    var s := Exec(cls, Init(kong), steps);
    ExecAppends(cls, Init(kong), steps, more);
    LegalRun(cls, kong, steps);
    NothingNewRun(cls, s, more, horizon);
    PlainHistoryStays(cls, s.site.api, Exec(cls, s, more).site.api);
    assert forall step :: step in steps + more ==> step in steps || step in more;
  }

  /** From wherever a friendly run with a plain history has got to, if no key is stuck, some served continuation
      ends quiet, with the files the controller wrote being exactly those of the live objects, all of them
      validated. */
  lemma EndsWithoutOrphans(cls: string, kong: map<string, string>, steps: seq<Step>) returns (more: seq<Step>)
    requires AllFriendly(steps) && PlainHistory(cls, Exec(cls, Init(kong), steps).site.api)
    requires forall key :: !Stuck(cls, Exec(cls, Init(kong), steps), key)
    ensures QuietAfter(cls, Exec(cls, Init(kong), steps), more)
    ensures FilesAreLiveObjects(cls, kong, Exec(cls, Init(kong), steps + more))
  {
    var s := Exec(cls, Init(kong), steps);
    LegalRun(cls, kong, steps);
    more := Drain(cls, s);
    HelpfulIsFriendly(cls, kong, steps, more, s.clock);
    NoOrphans(cls, kong, steps + more);
  }

  /** And if no current version is blocked up to some time, every served continuation up to then ends like that
      once it has done the work that was left for each key, which is bounded. */
  lemma EveryServedRunEndsWithoutOrphans(cls: string, kong: map<string, string>, steps: seq<Step>,
                                         more: seq<Step>, horizon: nat)
    requires AllFriendly(steps) && PlainHistory(cls, Exec(cls, Init(kong), steps).site.api)
    requires AllHelpful(more, horizon) && Exec(cls, Init(kong), steps).clock <= horizon
    requires forall key :: !CurrentBlocked(cls, Exec(cls, Init(kong), steps), key, horizon)
    requires forall key :: ProductiveSteps(cls, Exec(cls, Init(kong), steps), more, key) >=
                           Work(cls, Exec(cls, Init(kong), steps), key)
    ensures Quiet(Exec(cls, Init(kong), steps + more))
    ensures FilesAreLiveObjects(cls, kong, Exec(cls, Init(kong), steps + more))
  {
    LegalRun(cls, kong, steps);
    ServedRunsEndQuiet(cls, Exec(cls, Init(kong), steps), more, horizon);
    HelpfulIsFriendly(cls, kong, steps, more, horizon);
    NoOrphans(cls, kong, steps + more);
  }
}
