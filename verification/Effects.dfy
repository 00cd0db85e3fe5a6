/** What one pass does to the whole state, branch by branch, without the functions that compute it. */
module Effects {
  import opened Wrappers
  import opened Strings
  import opened KongFiles
  import opened Protocol
  import opened Machine
  import opened Timelines

  predicate Applied(path: string, answer: Answer) {
    !IsBlank(path) && !answer.Refused?
  }

  /** The key is dropped from the cache and a DELETE of the path is tried; the key stays queued. */
  predicate Dropped(s: State, s': State, key: string, path: string, answer: Answer) {
    s'.site.api == s.site.api && s'.queue == s.queue &&
    s'.site.cache == s.site.cache - {key} &&
    s'.site.kong == (if Applied(path, answer) then s.site.kong - {path} else s.site.kong) &&
    s'.authors == (if Applied(path, answer) then s.authors - {path} else s.authors)
  }

  predicate Untouched(s: State, s': State) {
    s'.site == s.site && s'.authors == s.authors
  }

  /** The object, up to its status, is cached and a PUT of its file is tried. */
  predicate Pushed(s: State, s': State, key: string, obj: KongFile, answer: Answer) {
    var file := Build(obj.spec);
    key in s'.site.cache && SameButStatus(obj, s'.site.cache[key]) &&
    s'.site.cache == s.site.cache[key := s'.site.cache[key]] &&
    s'.site.kong == (if Applied(file.path, answer) then s.site.kong[file.path := file.contents] else s.site.kong) &&
    s'.authors == (if Applied(file.path, answer) then s.authors[file.path := obj] else s.authors) &&
    (s'.site.api == s.site.api ||
     (Applied(file.path, answer) && Current(s.site.api, key) == Some(obj) &&
      TimelineOf(s.site.api, key).seen == |TimelineOf(s.site.api, key).versions| - 1 &&
      s'.site.api == AppendTo(s.site.api, key, Stamp(s.site.api, key, Validate(obj)))))
  }

  /** The status is stored: after an answered PUT of a file with a path, and only for the version read. */
  predicate Stores(api: Api, key: string, obj: KongFile, env: Env) {
    !IsBlank(Build(obj.spec).path) && env.put.Served? && StatusAccepted(api, key, obj, env.status)
  }

  /** When a push has its status stored, when its key leaves the queue, and what exactly it leaves cached:
      the object as stored, as marked, or as read. */
  predicate Finished(s: State, s': State, key: string, obj: KongFile, env: Env) {
    var stored := Stores(s.site.api, key, obj, env);
    (s'.site.api != s.site.api <==> stored) &&
    s'.queue == (if stored && env.status.Served? then s.queue - {key} else s.queue) &&
    key in s'.site.cache &&
    s'.site.cache[key] ==
      if stored && env.status.Served? then Stamp(s.site.api, key, Validate(obj)).value
      else if !IsBlank(Build(obj.spec).path) && env.put.Served? then Validate(obj)
      else obj
  }

  predicate Effect(s: State, s': State, key: string, branch: Branch, env: Env) {
    match branch
    case Unread => Untouched(s, s') && s'.queue == s.queue
    case Absent =>
      if key in s.site.cache then Dropped(s, s', key, Build(s.site.cache[key].spec).path, env.delete)
      else Untouched(s, s') && s'.queue == s.queue - {key}
    case Expiring(obj) =>
      var path := Build(obj.spec).path;
      if env.get.Served? && path in s.site.kong && !IsBlank(path) then Dropped(s, s', key, path, env.delete)
      else Untouched(s, s') && s'.queue == s.queue
    case Idle(_) => Untouched(s, s') && s'.queue == s.queue - {key}
    case Pushing(obj) => Pushed(s, s', key, obj, env.put) && Finished(s, s', key, obj, env)
  }

  lemma CreditOne(authors: map<string, KongFile>, obj: Option<KongFile>, request: Request)
    ensures request.GetFile? || request.answer.Refused? ==> Credit(authors, obj, [request]) == authors
    ensures request.PutFile? && !request.answer.Refused? && obj.Some? ==>
              Credit(authors, obj, [request]) == authors[request.file.path := obj.value]
    ensures request.DeleteFile? && !request.answer.Refused? ==>
              Credit(authors, obj, [request]) == authors - {request.path}
  {
  }

  lemma CreditGet(authors: map<string, KongFile>, obj: Option<KongFile>, path: string, rest: seq<Request>)
    ensures Credit(authors, obj, [GetFile(path)] + rest) == Credit(authors, obj, rest)
  {
    assert ([GetFile(path)] + rest)[1..] == rest;
  }

  /** Every pass does exactly what its branch says. */
  lemma PassEffect(cls: string, s: State, key: string, env: Env)
    requires Legal(s.site.api) && key in s.queue
    ensures PassStep(cls, s, key, env).clock == env.now
    ensures Effect(s, PassStep(cls, s, key, env), key, BranchOf(cls, s.site.api, key, env), env)
  {
    var branch := BranchOf(cls, s.site.api, key, env);
    var seen := Seen(s.site.api, key);
    match branch
    case Unread =>
    case Idle(_) =>
    case Absent =>
      if key in s.site.cache {
        CreditOne(s.authors, seen, DeleteFile(Build(s.site.cache[key].spec).path, env.delete));
      }
    case Expiring(obj) =>
      var path := Build(obj.spec).path;
      CreditGet(s.authors, seen, path, [DeleteFile(path, env.delete)]);
      CreditOne(s.authors, seen, DeleteFile(path, env.delete));
      CreditOne(s.authors, seen, GetFile(path));
    case Pushing(obj) =>
      PushEffect(cls, s, key, env, obj);
  }

  lemma FinishEffect(site: Site, key: string, obj: KongFile, answer: Answer)
    requires Legal(site.api) && Seen(site.api, key) == Some(obj)
    ensures var (site', result) := FinishPush(site, key, obj, answer);
            site'.kong == site.kong && key in site'.cache && SameButStatus(obj, site'.cache[key]) &&
            site'.cache == site.cache[key := site'.cache[key]] &&
            (site'.api != site.api <==> StatusAccepted(site.api, key, obj, answer)) &&
            (result.Done? <==> StatusAccepted(site.api, key, obj, answer) && answer.Served?) &&
            site'.cache[key] == (if result.Done? then Stamp(site.api, key, Validate(obj)).value else Validate(obj)) &&
            (site'.api != site.api ==>
               Current(site.api, key) == Some(obj) &&
               TimelineOf(site.api, key).seen == |TimelineOf(site.api, key).versions| - 1 &&
               site'.api == AppendTo(site.api, key, Stamp(site.api, key, Validate(obj))))
  {
    if StatusAccepted(site.api, key, Validate(obj), answer) {
      AcceptedMeansCurrent(site.api, key, Validate(obj), answer);
      var api' := FinishPush(site, key, obj, answer).0.api;
      assert |TimelineOf(api', key).versions| == |TimelineOf(site.api, key).versions| + 1;
    }
  }

  /** A push that does not get past its PUT. */
  lemma UnansweredEffect(cls: string, s: State, key: string, env: Env, obj: KongFile)
    requires key in s.queue && BranchOf(cls, s.site.api, key, env) == Pushing(obj)
    requires UpdateObject(s.site, key, obj, env.put).result.Failed?
    ensures Pushed(s, PassStep(cls, s, key, env), key, obj, env.put)
    ensures Finished(s, PassStep(cls, s, key, env), key, obj, env)
  {
    CreditOne(s.authors, Some(obj), PutFile(Build(obj.spec), env.put));
    assert PassStep(cls, s, key, env).site == UpdateObject(s.site, key, obj, env.put).site;
  }

  lemma PushEffect(cls: string, s: State, key: string, env: Env, obj: KongFile)
    requires Legal(s.site.api) && key in s.queue
    requires BranchOf(cls, s.site.api, key, env) == Pushing(obj)
    ensures Pushed(s, PassStep(cls, s, key, env), key, obj, env.put)
    ensures Finished(s, PassStep(cls, s, key, env), key, obj, env)
  {
    var updated := UpdateObject(s.site, key, obj, env.put);
    if updated.result.Failed? {
      UnansweredEffect(cls, s, key, env, obj);
    } else {
      CreditOne(s.authors, Some(obj), PutFile(Build(obj.spec), env.put));
      FinishEffect(updated.site, key, obj, env.status);
      assert PassStep(cls, s, key, env).site == FinishPush(updated.site, key, obj, env.status).0;
    }
  }

  /** Nothing new is cached, written or credited, and what is still credited is still there. */
  predicate Shrinks(s: State, s': State) {
    (forall key :: key in s'.site.cache ==> key in s.site.cache && s'.site.cache[key] == s.site.cache[key]) &&
    (forall path :: path in s'.authors ==>
       path in s.authors && s'.authors[path] == s.authors[path] &&
       (path in s.site.kong ==> path in s'.site.kong && s'.site.kong[path] == s.site.kong[path]))
  }

  lemma DroppedShrinks(s: State, s': State, key: string, path: string, answer: Answer)
    requires Dropped(s, s', key, path, answer)
    ensures Shrinks(s, s')
  {
  }

  lemma OtherBranchesShrink(s: State, s': State, key: string, branch: Branch, env: Env)
    requires Effect(s, s', key, branch, env) && !branch.Pushing?
    ensures Shrinks(s, s')
  {
    if branch.Absent? && key in s.site.cache {
      DroppedShrinks(s, s', key, Build(s.site.cache[key].spec).path, env.delete);
    } else if branch.Expiring? && !Untouched(s, s') {
      DroppedShrinks(s, s', key, Build(branch.obj.spec).path, env.delete);
    }
  }

  /** The path a pass deletes or writes, if it does either. */
  function Target(s: State, key: string, branch: Branch): Option<string> {
    match branch
    case Absent => if key in s.site.cache then PathOf(s.site.cache[key].spec) else None
    case Expiring(obj) => PathOf(obj.spec)
    case Pushing(obj) => PathOf(obj.spec)
    case _ => None
  }

  lemma OnlyTargetChanges(s: State, s': State, key: string, branch: Branch, env: Env, path: string)
    requires Effect(s, s', key, branch, env) && Target(s, key, branch) != Some(path)
    ensures path in s'.site.kong <==> path in s.site.kong
    ensures path in s.site.kong ==> s'.site.kong[path] == s.site.kong[path]
    ensures path in s'.authors <==> path in s.authors
    ensures path in s.authors ==> s'.authors[path] == s.authors[path]
  {
  }

  /** All that later proofs need to know about a pass. */
  ghost predicate PassFacts(cls: string, s: State, s': State, key: string, env: Env) {
    Legal(s.site.api) && Legal(s'.site.api) && Grown(s.site.api, s'.site.api) &&
    key in s.queue && s.clock <= env.now == s'.clock &&
    Effect(s, s', key, BranchOf(cls, s.site.api, key, env), env)
  }

  lemma PassHasFacts(cls: string, s: State, key: string, env: Env)
    requires Legal(s.site.api) && Enabled(s, Pass(key, env))
    ensures PassFacts(cls, s, Next(cls, s, Pass(key, env)), key, env)
  {
    LegalStep(cls, s, Pass(key, env));
    GrowStep(cls, s, Pass(key, env));
    PassEffect(cls, s, key, env);
    assert Next(cls, s, Pass(key, env)) == PassStep(cls, s, key, env);
  }

  /** What a pass adds to the log: requests of its own key, and a PUT exactly when it pushes a file. */
  predicate LogEffect(s: State, s': State, key: string, branch: Branch, env: Env) {
    s.log <= s'.log &&
    (forall i :: |s.log| <= i < |s'.log| ==> s'.log[i].key == key) &&
    (forall i :: |s.log| <= i < |s'.log| && s'.log[i].request.PutFile? ==>
       branch.Pushing? && s'.log[i].request == PutFile(Build(branch.obj.spec), env.put)) &&
    (branch.Pushing? && !IsBlank(Build(branch.obj.spec).path) ==>
       |s'.log| == |s.log| + 1 && s'.log[|s.log|].request.PutFile?)
  }

  lemma PassStepLogs(cls: string, s: State, key: string, env: Env)
    ensures LogEffect(s, PassStep(cls, s, key, env), key, BranchOf(cls, s.site.api, key, env), env)
  {
  }

  lemma PassHasLogEffect(cls: string, s: State, key: string, env: Env)
    requires Enabled(s, Pass(key, env))
    ensures LogEffect(s, Next(cls, s, Pass(key, env)), key, BranchOf(cls, s.site.api, key, env), env)
  {
    PassStepLogs(cls, s, key, env);
    assert Next(cls, s, Pass(key, env)) == PassStep(cls, s, key, env);
  }

  /** What the other steps leave alone. */
  lemma OtherEffect(cls: string, s: State, step: Step)
    requires !step.Pass?
    ensures var s' := Next(cls, s, step);
            Shrinks(s, s') && s'.clock == s.clock && s'.log == s.log &&
            (!step.Restart? ==> s'.site.cache == s.site.cache) &&
            (step.Restart? ==> s' == s || s'.site.cache == map[]) &&
            (!step.OutsidePut? && !step.OutsideDelete? ==>
               s'.site.kong == s.site.kong && s'.authors == s.authors) &&
            (step.OutsidePut? ==> s'.authors == s.authors - {step.file.path}) &&
            (step.OutsideDelete? ==> s'.authors == s.authors - {step.path})
  {
  }

  lemma ResyncEffect(cls: string, s: State, step: Step)
    requires step.Resync?
    ensures var s' := Next(cls, s, step);
            s' == s.(queue := s'.queue) && s.queue <= s'.queue
  {
  }
}
