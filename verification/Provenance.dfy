/** Where every file, every cache entry and every PUT comes from. */
module Provenance {
  import opened Wrappers
  import opened KongFiles
  import opened ClassMatching
  import opened Protocol
  import opened Machine
  import opened Timelines
  import opened Effects

  /** Some version of the key that the informer has shown. */
  predicate WasShown(api: Api, key: string, obj: KongFile) {
    exists i :: 0 <= i <= TimelineOf(api, key).seen && TimelineOf(api, key).versions[i] == Some(obj)
  }

  predicate WasShownUpToStatus(api: Api, key: string, obj: KongFile) {
    exists i :: 0 <= i <= TimelineOf(api, key).seen && TimelineOf(api, key).versions[i].Some? &&
      SameButStatus(TimelineOf(api, key).versions[i].value, obj)
  }

  lemma ShownStays(api: Api, api': Api, key: string, obj: KongFile)
    requires Grown(api, api')
    ensures WasShown(api, key, obj) ==> WasShown(api', key, obj)
    ensures WasShownUpToStatus(api, key, obj) ==> WasShownUpToStatus(api', key, obj)
  {
    var t, t' := TimelineOf(api, key), TimelineOf(api', key);
    forall i | 0 <= i <= t.seen ensures t.versions[i] == t'.versions[i] {
    }
    if i :| 0 <= i <= t.seen && t.versions[i] == Some(obj) {
      assert t'.versions[i] == Some(obj);
    }
    if i :| 0 <= i <= t.seen && t.versions[i].Some? && SameButStatus(t.versions[i].value, obj) {
      assert t'.versions[i].Some? && SameButStatus(t'.versions[i].value, obj);
    }
  }

  /** A portal entry credited to a version holds that version's file, and the version was shown to the
      controller with exactly its class and a known kind. */
  predicate FileHasSource(cls: string, s: State, path: string)
    requires path in s.authors
  {
    var obj := s.authors[path];
    path in s.site.kong && Build(obj.spec) == File(path, s.site.kong[path]) &&
    KnownKind(obj.spec) && MatchesClass(obj, cls) && WasShown(s.site.api, Key(obj), obj)
  }

  /** A cache entry is, up to its status, a version that was shown with exactly the controller's class. */
  predicate EntryHasSource(cls: string, s: State, key: string)
    requires key in s.site.cache
  {
    var obj := s.site.cache[key];
    Key(obj) == key && MatchesClass(obj, cls) && WasShownUpToStatus(s.site.api, key, obj)
  }

  predicate FilesHaveSources(cls: string, s: State) {
    forall path :: path in s.authors ==> FileHasSource(cls, s, path)
  }

  predicate EntriesHaveSources(cls: string, s: State) {
    forall key :: key in s.site.cache ==> EntryHasSource(cls, s, key)
  }

  predicate Sourced(cls: string, s: State) {
    Legal(s.site.api) && FilesHaveSources(cls, s) && EntriesHaveSources(cls, s)
  }

  lemma ShownNow(api: Api, key: string, obj: KongFile)
    requires Legal(api) && Seen(api, key) == Some(obj)
    ensures Key(obj) == key && WasShown(api, key, obj) && WasShownUpToStatus(api, key, obj)
  {
    LegalOf(api, key);
    VersionFacts(key, TimelineOf(api, key), TimelineOf(api, key).seen);
    assert SameButStatus(obj, obj);
  }

  lemma ShownUpToStatus(api: Api, key: string, obj: KongFile, held: KongFile)
    requires WasShown(api, key, obj) && SameButStatus(obj, held)
    ensures WasShownUpToStatus(api, key, held)
  {
  }

  lemma SourcedPush(cls: string, s: State, s': State, key: string, obj: KongFile, answer: Answer)
    requires Sourced(cls, s) && Grown(s.site.api, s'.site.api) && Legal(s'.site.api)
    requires Pushed(s, s', key, obj, answer) && Seen(s.site.api, key) == Some(obj) && MatchesClass(obj, cls)
    ensures Sourced(cls, s')
  {
    ShownNow(s.site.api, key, obj);
    ShownUpToStatus(s.site.api, key, obj, s'.site.cache[key]);
    ShownStays(s.site.api, s'.site.api, key, obj);
    ShownStays(s.site.api, s'.site.api, key, s'.site.cache[key]);
    BlankPathIffUnknownKind(obj.spec);
    forall path | path in s'.authors ensures FileHasSource(cls, s', path) {
      if !(Applied(path, answer) && path == Build(obj.spec).path) {
        assert FileHasSource(cls, s, path);
        ShownStays(s.site.api, s'.site.api, Key(s.authors[path]), s.authors[path]);
      }
    }
    forall k | k in s'.site.cache ensures EntryHasSource(cls, s', k) {
      if k != key {
        assert EntryHasSource(cls, s, k);
        ShownStays(s.site.api, s'.site.api, k, s.site.cache[k]);
      }
    }
  }

  lemma SourcedOther(cls: string, s: State, s': State)
    requires Sourced(cls, s) && Grown(s.site.api, s'.site.api) && Legal(s'.site.api)
    requires Shrinks(s, s')
    ensures Sourced(cls, s')
  {
    forall path | path in s'.authors ensures FileHasSource(cls, s', path) {
      assert FileHasSource(cls, s, path);
      ShownStays(s.site.api, s'.site.api, Key(s'.authors[path]), s'.authors[path]);
    }
    forall k | k in s'.site.cache ensures EntryHasSource(cls, s', k) {
      ShownStays(s.site.api, s'.site.api, k, s'.site.cache[k]);
    }
  }

  lemma SourcedPass(cls: string, s: State, s': State, key: string, env: Env)
    requires Sourced(cls, s) && PassFacts(cls, s, s', key, env)
    ensures Sourced(cls, s')
  {
    var branch := BranchOf(cls, s.site.api, key, env);
    if branch.Pushing? {
      SourcedPush(cls, s, s', key, branch.obj, env.put);
    } else {
      OtherBranchesShrink(s, s', key, branch, env);
      SourcedOther(cls, s, s');
    }
  }

  lemma SourcedStep(cls: string, s: State, step: Step)
    requires Sourced(cls, s)
    ensures Sourced(cls, Next(cls, s, step))
  {
    if step.Pass? && Enabled(s, step) {
      PassHasFacts(cls, s, step.key, step.env);
      SourcedPass(cls, s, Next(cls, s, step), step.key, step.env);
    } else if !step.Pass? {
      LegalStep(cls, s, step);
      GrowStep(cls, s, step);
      OtherEffect(cls, s, step);
      SourcedOther(cls, s, Next(cls, s, step));
    }
  }

  /** Provenance over every run, with outside writers, restarts and failures of every kind. */
  lemma {:induction false} EverythingIsSourced(cls: string, kong: map<string, string>, steps: seq<Step>)
    ensures Sourced(cls, Exec(cls, Init(kong), steps))
  {
    if steps == [] {
    } else {
      EverythingIsSourced(cls, kong, steps[..|steps| - 1]);
      SourcedStep(cls, Exec(cls, Init(kong), steps[..|steps| - 1]), steps[|steps| - 1]);
    }
  }

  // ---------------------------------------------------------------- the log

  /** Every PUT ever sent for a key is the file of a version of that key that was shown unvalidated, with
      exactly the controller's class and a known kind. */
  predicate PutHasSource(cls: string, api: Api, entry: LogEntry)
    requires entry.request.PutFile?
  {
    exists i :: 0 <= i <= TimelineOf(api, entry.key).seen && TimelineOf(api, entry.key).versions[i].Some? &&
      ToBePushed(cls, TimelineOf(api, entry.key).versions[i].value, entry.request.file)
  }

  predicate ToBePushed(cls: string, obj: KongFile, file: File) {
    MatchesClass(obj, cls) && !obj.status.validated && KnownKind(obj.spec) && Build(obj.spec) == file
  }

  predicate PutsHaveSources(cls: string, s: State) {
    forall i :: 0 <= i < |s.log| && s.log[i].request.PutFile? ==> PutHasSource(cls, s.site.api, s.log[i])
  }

  lemma PutSourceStays(cls: string, api: Api, api': Api, entry: LogEntry)
    requires Grown(api, api') && entry.request.PutFile? && PutHasSource(cls, api, entry)
    ensures PutHasSource(cls, api', entry)
  {
    var t, t' := TimelineOf(api, entry.key), TimelineOf(api', entry.key);
    var i :| 0 <= i <= t.seen && t.versions[i].Some? && ToBePushed(cls, t.versions[i].value, entry.request.file);
    assert t'.versions[i] == t.versions[i];
  }

  lemma RequestsOfPass(cls: string, site: Site, key: string, env: Env, i: nat)
    requires i < |Reconcile(cls, site, key, env).requests|
    requires Reconcile(cls, site, key, env).requests[i].PutFile?
    ensures Seen(site.api, key).Some?
    ensures ToBePushed(cls, Seen(site.api, key).value, Reconcile(cls, site, key, env).requests[i].file)
  {
    BlankPathIffUnknownKind(Seen(site.api, key).value.spec);
  }

  lemma PutsStep(cls: string, s: State, step: Step)
    requires Legal(s.site.api) && PutsHaveSources(cls, s)
    ensures PutsHaveSources(cls, Next(cls, s, step))
  {
    var s' := Next(cls, s, step);
    GrowStep(cls, s, step);
    forall i | 0 <= i < |s'.log| && s'.log[i].request.PutFile? ensures PutHasSource(cls, s'.site.api, s'.log[i]) {
      if i < |s.log| {
        assert s'.log[i] == s.log[i];
      } else {
        var requests := Reconcile(cls, s.site, step.key, step.env).requests;
        assert s'.log[i] == LogEntry(step.key, requests[i - |s.log|]);
        RequestsOfPass(cls, s.site, step.key, step.env, i - |s.log|);
        assert PutHasSource(cls, s.site.api, s'.log[i]);
      }
      PutSourceStays(cls, s.site.api, s'.site.api, s'.log[i]);
    }
  }

  lemma {:induction false} EveryPutIsSourced(cls: string, kong: map<string, string>, steps: seq<Step>)
    ensures PutsHaveSources(cls, Exec(cls, Init(kong), steps))
  {
    if steps == [] {
    } else {
      EveryPutIsSourced(cls, kong, steps[..|steps| - 1]);
      LegalRun(cls, kong, steps[..|steps| - 1]);
      PutsStep(cls, Exec(cls, Init(kong), steps[..|steps| - 1]), steps[|steps| - 1]);
    }
  }

  /** Exactly when a pass sends a PUT. In particular a spec edited after validation is not pushed again. */
  lemma PutExactlyWhen(cls: string, site: Site, key: string, env: Env)
    ensures (exists request :: request in Reconcile(cls, site, key, env).requests && request.PutFile?) <==>
            env.readable && Seen(site.api, key).Some? &&
            var obj := Seen(site.api, key).value;
            MatchesClass(obj, cls) && !obj.status.validated && KnownKind(obj.spec) && !Expired(obj, env.now)
    ensures forall request :: request in Reconcile(cls, site, key, env).requests && request.PutFile? ==>
              Seen(site.api, key).Some? && request == PutFile(Build(Seen(site.api, key).value.spec), env.put)
  {
    var branch := BranchOf(cls, site.api, key, env);
    var requests := Reconcile(cls, site, key, env).requests;
    if branch.Pushing? {
      BlankPathIffUnknownKind(branch.obj.spec);
      if KnownKind(branch.obj.spec) {
        assert requests[0] == PutFile(Build(branch.obj.spec), env.put);
      }
    }
  }

  // ---------------------------------------------------------------- validated means pushed

  /** The step from `s` to `s'` is a pass of the key that reads version `i - 1`, the current one, sends nothing
      but one served PUT of the object's file, which then is in the portal, and has version `i` stored. */
  predicate ValidatesByPush(s: State, step: Step, s': State, key: string, i: nat, obj: KongFile) {
    var t := TimelineOf(s.site.api, key);
    step.Pass? && step.key == key && Enabled(s, step) &&
    t.seen == |t.versions| - 1 == i - 1 &&
    TimelineOf(s'.site.api, key) == Append(t, Some(obj)) &&
    s'.log == s.log + [LogEntry(key, PutFile(Build(obj.spec), Served))] &&
    InPortal(s'.site.kong, obj.spec)
  }

  predicate FirstValidated(t: Timeline, i: nat)
    requires Sound(t)
  {
    0 < i < |t.versions| && BecomesValidated(t.versions[i - 1], t.versions[i])
  }

  lemma ValidationIsPass(cls: string, s: State, step: Step, key: string, i: nat)
    requires Legal(s.site.api) && i >= |TimelineOf(s.site.api, key).versions|
    requires FirstValidated(TimelineOf(Next(cls, s, step).site.api, key), i)
    ensures step.Pass? && step.key == key && Enabled(s, step) && i == |TimelineOf(s.site.api, key).versions|
    ensures BranchOf(cls, s.site.api, key, step.env).Pushing? && Next(cls, s, step).site.api != s.site.api
  {
    if Moves(step) {
      OnlyAppendsValidate(cls, s, step, key);
    } else {
      var appended, changed, version := AppendStep(cls, s, step);
      assert appended && changed == key;
    }
  }

  lemma ValidatingPass(cls: string, s: State, s': State, key: string, env: Env)
    requires PassFacts(cls, s, s', key, env) && Enabled(s, Pass(key, env))
    requires LogEffect(s, s', key, BranchOf(cls, s.site.api, key, env), env)
    requires BranchOf(cls, s.site.api, key, env).Pushing? && s'.site.api != s.site.api
    ensures var i, t' := |TimelineOf(s.site.api, key).versions|, TimelineOf(s'.site.api, key);
            i < |t'.versions| && t'.versions[i].Some? &&
            ValidatesByPush(s, Pass(key, env), s', key, i, t'.versions[i].value)
  {
    PushIsPublished(s, s', key, env, Seen(s.site.api, key).value);
  }

  /** A step that adds a first validated version of a key is such a pass. */
  lemma ValidationIsPush(cls: string, s: State, step: Step, key: string, i: nat)
    requires Legal(s.site.api) && i >= |TimelineOf(s.site.api, key).versions|
    requires FirstValidated(TimelineOf(Next(cls, s, step).site.api, key), i)
    ensures ValidatesByPush(s, step, Next(cls, s, step), key, i,
                            TimelineOf(Next(cls, s, step).site.api, key).versions[i].value)
  {
    ValidationIsPass(cls, s, step, key, i);
    PassHasFacts(cls, s, key, step.env);
    PassHasLogEffect(cls, s, key, step.env);
    ValidatingPass(cls, s, Next(cls, s, step), key, step.env);
  }

  lemma OnlyAppendsValidate(cls: string, s: State, step: Step, key: string)
    requires Moves(step)
    ensures TimelineOf(Next(cls, s, step).site.api, key).versions == TimelineOf(s.site.api, key).versions
  {
  }

  lemma PushIsPublished(s: State, s': State, key: string, env: Env, obj: KongFile)
    requires Pushed(s, s', key, obj, env.put) && Finished(s, s', key, obj, env)
    requires LogEffect(s, s', key, Pushing(obj), env)
    requires s'.site.api != s.site.api
    ensures s'.log == s.log + [LogEntry(key, PutFile(Build(obj.spec), Served))] && InPortal(s'.site.kong, obj.spec)
  {
    BlankPathIffUnknownKind(obj.spec);
    assert s'.log[|s.log|] == LogEntry(key, PutFile(Build(obj.spec), Served));
    assert s'.log == s.log + s'.log[|s.log|..];
  }

  predicate ValidatedAt(cls: string, kong: map<string, string>, steps: seq<Step>,
                        key: string, i: nat, obj: KongFile, n: nat)
    requires n < |steps|
  {
    ValidatesByPush(Exec(cls, Init(kong), steps[..n]), steps[n], Exec(cls, Init(kong), steps[..n + 1]), key, i, obj)
  }

  lemma ValidatedLongAgo(cls: string, kong: map<string, string>, before: seq<Step>, step: Step,
                         key: string, i: nat, obj: KongFile, n: nat)
    requires n < |before| && ValidatedAt(cls, kong, before, key, i, obj, n)
    ensures ValidatedAt(cls, kong, before + [step], key, i, obj, n)
  {
    var steps := before + [step];
    assert steps[..n] == before[..n] && steps[n] == before[n] && steps[..n + 1] == before[..n + 1];
  }

  lemma ValidatedJustNow(cls: string, kong: map<string, string>, before: seq<Step>, step: Step,
                         key: string, i: nat, obj: KongFile)
    requires ValidatesByPush(Exec(cls, Init(kong), before), step, Exec(cls, Init(kong), before + [step]), key, i, obj)
    ensures ValidatedAt(cls, kong, before + [step], key, i, obj, |before|)
  {
    var steps := before + [step];
    assert steps[..|before|] == before && steps[|before|] == step && steps[..|before| + 1] == steps;
  }

  lemma SameVersionEarlier(t: Timeline, t': Timeline, i: nat)
    requires Sound(t) && Sound(t') && t.versions <= t'.versions && i < |t.versions| && FirstValidated(t', i)
    ensures FirstValidated(t, i) && t.versions[i] == t'.versions[i]
  {
    assert t'.versions[i - 1] == t.versions[i - 1];
  }

  /** Whenever a version of an object is the first of it to be validated, one step of the run, a pass that
      read the version before, published the file of that very version and had it stored. */
  lemma {:induction false} ValidatedMeansPushed(cls: string, kong: map<string, string>, steps: seq<Step>,
                                                key: string, i: nat) returns (n: nat)
    requires FirstValidated(TimelineOf(Exec(cls, Init(kong), steps).site.api, key), i)
    ensures n < |steps|
    ensures ValidatedAt(cls, kong, steps, key, i,
                        TimelineOf(Exec(cls, Init(kong), steps).site.api, key).versions[i].value, n)
  {
    if steps == [] {
      assert false;
    } else {
      var before, step := steps[..|steps| - 1], steps[|steps| - 1];
      assert steps == before + [step];
      var s, s' := Exec(cls, Init(kong), before), Exec(cls, Init(kong), steps);
      var t, t' := TimelineOf(s.site.api, key), TimelineOf(s'.site.api, key);
      LegalRun(cls, kong, before);
      GrowStep(cls, s, step);
      if i < |t.versions| {
        SameVersionEarlier(t, t', i);
        n := ValidatedMeansPushed(cls, kong, before, key, i);
        ValidatedLongAgo(cls, kong, before, step, key, i, t'.versions[i].value, n);
      } else {
        ValidationIsPush(cls, s, step, key, i);
        ValidatedJustNow(cls, kong, before, step, key, i, t'.versions[i].value);
        n := |before|;
      }
    }
  }

  // ---------------------------------------------------------------- the rest of the portal

  /** A file the controller is not credited with is one it found there. */
  predicate FoundThere(kong0: map<string, string>, s: State, path: string) {
    path in s.site.kong && path !in s.authors ==> path in kong0 && kong0[path] == s.site.kong[path]
  }

  ghost predicate OnlyCreditedWrites(kong0: map<string, string>, s: State) {
    forall path :: FoundThere(kong0, s, path)
  }

  lemma CreditedWritesInPass(
      cls: string, kong0: map<string, string>, s: State, s': State, key: string, env: Env, path: string)
    requires PassFacts(cls, s, s', key, env) && FoundThere(kong0, s, path)
    ensures FoundThere(kong0, s', path)
  {
    var branch := BranchOf(cls, s.site.api, key, env);
    if Target(s, key, branch) != Some(path) {
      OnlyTargetChanges(s, s', key, branch, env, path);
    }
  }

  /** If outsiders at most delete, the portal holds nothing but credited files and files from the start. */
  lemma {:induction false} OnlyCreditedWritesRun(cls: string, kong0: map<string, string>, steps: seq<Step>)
    requires forall step :: step in steps ==> !step.OutsidePut?
    ensures OnlyCreditedWrites(kong0, Exec(cls, Init(kong0), steps))
  {
    if steps == [] {
    } else {
      var before, step := steps[..|steps| - 1], steps[|steps| - 1];
      var s := Exec(cls, Init(kong0), before);
      OnlyCreditedWritesRun(cls, kong0, before);
      LegalRun(cls, kong0, before);
      CreditedWritesStep(cls, kong0, s, step);
    }
  }

  lemma CreditedWritesStep(cls: string, kong0: map<string, string>, s: State, step: Step)
    requires Legal(s.site.api) && OnlyCreditedWrites(kong0, s) && !step.OutsidePut?
    ensures OnlyCreditedWrites(kong0, Next(cls, s, step))
  {
    var s' := Next(cls, s, step);
    if !step.Pass? {
      OtherEffect(cls, s, step);
      assert forall path :: FoundThere(kong0, s, path) ==> FoundThere(kong0, s', path);
    } else if Enabled(s, step) {
      PassHasFacts(cls, s, step.key, step.env);
      forall path ensures FoundThere(kong0, s', path) {
        CreditedWritesInPass(cls, kong0, s, s', step.key, step.env, path);
      }
    }
  }
}
