/** Runs from the start in which the controller falls short of what its comments promise: for every class,
    every namespace and name, every spec of a known kind and every initial portal. */
module Shortfalls {
  import opened Wrappers
  import opened Strings
  import opened KongFiles
  import opened ClassMatching
  import opened Protocol
  import opened Machine
  import opened Leaks
  import opened Lifecycle

  lemma Then(cls: string, s: State, steps: seq<Step>, step: Step)
    ensures Exec(cls, s, steps + [step]) == Next(cls, Exec(cls, s, steps), step)
  {
    assert (steps + [step])[..|steps|] == steps;
  }

  /** A pass at a given time of which every call is served. */
  function ServedPass(key: string, now: nat): Step {
    Pass(key, ServedAt(now))
  }

  function InClass(cls: string): map<string, string> {
    map["developer.konghq.com/controller.class" := cls]
  }

  // ---------------------------------------------------------------- a published object

  /** An object is created, shown and pushed; then its validation is shown, and the key is done with. */
  function Publish(cls: string, namespace: string, name: string, spec: KongFileSpec): seq<Step> {
    var key := KeyOf(namespace, name);
    [Create(namespace, name, InClass(cls), spec)] + [Deliver(key, 1)] + [ServedPass(key, 0)] +
    [Deliver(key, 2)] + [ServedPass(key, 0)]
  }

  function Fresh(cls: string, namespace: string, name: string, spec: KongFileSpec): KongFile {
    NewObject(namespace, name, InClass(cls), spec, 1)
  }

  function Published(cls: string, namespace: string, name: string, spec: KongFileSpec): KongFile {
    var obj := Fresh(cls, namespace, name, spec);
    obj.(status := KongFileStatus(true), meta := obj.meta.(resourceVersion := 2))
  }

  function PublishedTimeline(cls: string, namespace: string, name: string, spec: KongFileSpec): Timeline {
    Timeline([None, Some(Fresh(cls, namespace, name, spec)), Some(Published(cls, namespace, name, spec))], 2)
  }

  /** Where that leaves the system: one validated object, cached, and its file. */
  predicate HasPublished(kong: map<string, string>, s: State, cls: string, namespace: string, name: string,
                         spec: KongFileSpec)
  {
    var key := KeyOf(namespace, name);
    s.site == Site(map[key := PublishedTimeline(cls, namespace, name, spec)],
                   map[key := Published(cls, namespace, name, spec)],
                   kong[Build(spec).path := Build(spec).contents]) &&
    s.queue == {} && s.clock == 0 && s.authors == map[Build(spec).path := Fresh(cls, namespace, name, spec)]
  }

  /** The informer shows a version that gives the controller nothing to do, after one it showed before. */
  lemma ShownAndLeft(cls: string, s: State, key: string, position: nat, now: nat)
    requires key in s.site.api && s.site.api[key].seen < position < |s.site.api[key].versions| && s.clock <= now
    requires Seen(s.site.api, key).Some? && s.site.api[key].versions[position].Some?
    requires var obj := s.site.api[key].versions[position].value;
             !Expired(obj, now) && (MatchesClass(obj, cls) ==> obj.status.validated)
    ensures Next(cls, Next(cls, s, Deliver(key, position)), ServedPass(key, now)) ==
            s.(site := s.site.(api := s.site.api[key := s.site.api[key].(seen := position)]),
               queue := s.queue - {key}, clock := now)
  {
    var s' := Next(cls, s, Deliver(key, position));
    assert s'.queue == s.queue + {key};
    assert s'.queue - {key} == s.queue - {key};
    assert Reconcile(cls, s'.site, key, ServedPass(key, now).env) == Outcome(s'.site, Done, []);
    assert s'.log + Tag(key, []) == s'.log;
  }

  lemma FirstPush(kong: map<string, string>, cls: string, s: State, namespace: string, name: string, spec: KongFileSpec)
    requires KnownKind(spec)
    requires var key := KeyOf(namespace, name);
             s == State(Site(map[key := Timeline([None, Some(Fresh(cls, namespace, name, spec))], 1)], map[], kong),
                        {key}, 0, map[], [])
    ensures var key, s' := KeyOf(namespace, name), Next(cls, s, ServedPass(KeyOf(namespace, name), 0));
            s'.site == Site(map[key := PublishedTimeline(cls, namespace, name, spec).(seen := 1)],
                            map[key := Published(cls, namespace, name, spec)],
                            kong[Build(spec).path := Build(spec).contents]) &&
            s'.queue == {} && s'.clock == 0 && s'.authors == map[Build(spec).path := Fresh(cls, namespace, name, spec)]
  {
    BlankPathIffUnknownKind(spec);
    var key, obj, env := KeyOf(namespace, name), Fresh(cls, namespace, name, spec), ServedPass("", 0).env;
    assert BranchOf(cls, s.site.api, key, env) == Pushing(obj);
    assert Credit(map[], Some(obj), [PutFile(Build(spec), Served)]) == map[Build(spec).path := obj];
    assert [None, Some(obj)] + [Some(Published(cls, namespace, name, spec))] ==
           PublishedTimeline(cls, namespace, name, spec).versions;
    assert FinishPush(UpdateObject(s.site, key, obj, Served).site, key, obj, Served).0.api ==
           map[key := PublishedTimeline(cls, namespace, name, spec).(seen := 1)];
  }

  /** An object is created and shown: its class decides whether its key is queued. */
  lemma CreateAndShow(kong: map<string, string>, cls: string, namespace: string, name: string,
                      annotations: map<string, string>, spec: KongFileSpec)
    requires SlashFree(namespace)
    ensures var key, obj := KeyOf(namespace, name), NewObject(namespace, name, annotations, spec, 1);
            Next(cls, Next(cls, Init(kong), Create(namespace, name, annotations, spec)), Deliver(key, 1)) ==
            State(Site(map[key := Timeline([None, Some(obj)], 1)], map[], kong),
                  if MatchesClass(obj, cls) then {key} else {}, 0, map[], [])
  {
    var key, obj := KeyOf(namespace, name), NewObject(namespace, name, annotations, spec, 1);
    var s := Next(cls, Init(kong), Create(namespace, name, annotations, spec));
    assert [None] + [Some(obj)] == [None, Some(obj)];
    assert s == State(Site(map[key := Timeline([None, Some(obj)], 0)], map[], kong), {}, 0, map[], []);
    assert s.site.api[key := s.site.api[key].(seen := 1)] == map[key := Timeline([None, Some(obj)], 1)];
  }

  lemma PublishPublishes(kong: map<string, string>, cls: string, namespace: string, name: string, spec: KongFileSpec)
    requires SlashFree(namespace) && KnownKind(spec)
    ensures HasPublished(kong, Exec(cls, Init(kong), Publish(cls, namespace, name, spec)), cls, namespace, name, spec)
  {
    var key := KeyOf(namespace, name);
    var create, pass := Create(namespace, name, InClass(cls), spec), ServedPass(key, 0);
    Then(cls, Init(kong), [], create);
    Then(cls, Init(kong), [create], Deliver(key, 1));
    Then(cls, Init(kong), [create] + [Deliver(key, 1)], pass);
    Then(cls, Init(kong), [create] + [Deliver(key, 1)] + [pass], Deliver(key, 2));
    Then(cls, Init(kong), [create] + [Deliver(key, 1)] + [pass] + [Deliver(key, 2)], pass);
    CreateAndShow(kong, cls, namespace, name, InClass(cls), spec);
    PushAndSettle(kong, cls, Exec(cls, Init(kong), [create] + [Deliver(key, 1)]), namespace, name, spec);
  }

  lemma PushAndSettle(kong: map<string, string>, cls: string, s: State, namespace: string, name: string,
                      spec: KongFileSpec)
    requires KnownKind(spec)
    requires var key := KeyOf(namespace, name);
             s == State(Site(map[key := Timeline([None, Some(Fresh(cls, namespace, name, spec))], 1)], map[], kong),
                        {key}, 0, map[], [])
    ensures var key := KeyOf(namespace, name);
            var pass := ServedPass(key, 0);
            var s' := Next(cls, Next(cls, Next(cls, s, pass), Deliver(key, 2)), pass);
            HasPublished(kong, s', cls, namespace, name, spec)
  {
    FirstPush(kong, cls, s, namespace, name, spec);
    ShownAndLeft(cls, Next(cls, s, ServedPass(KeyOf(namespace, name), 0)), KeyOf(namespace, name), 2, 0);
  }

  // ---------------------------------------------------------------- edits after validation

  /** What the edited object looks like at the API server. */
  function Edited(cls: string, namespace: string, name: string, spec: KongFileSpec,
                  annotations: map<string, string>, edited: KongFileSpec): KongFile
  {
    var obj := Published(cls, namespace, name, spec);
    obj.(meta := obj.meta.(annotations := annotations, resourceVersion := 3), spec := edited)
  }

  /** The published object is edited, in whatever way, and the edit is shown and passed over. */
  function PublishAndEdit(cls: string, namespace: string, name: string, spec: KongFileSpec,
                          annotations: map<string, string>, edited: KongFileSpec): seq<Step>
  {
    var key := KeyOf(namespace, name);
    Publish(cls, namespace, name, spec) + [Edit(key, annotations, edited)] + [Deliver(key, 3)] + [ServedPass(key, 0)]
  }

  lemma EditIsStored(cls: string, s: State, kong: map<string, string>, namespace: string, name: string,
                     spec: KongFileSpec, annotations: map<string, string>, edited: KongFileSpec)
    requires HasPublished(kong, s, cls, namespace, name, spec)
    ensures var key, t := KeyOf(namespace, name), PublishedTimeline(cls, namespace, name, spec);
            var stored := Some(Edited(cls, namespace, name, spec, annotations, edited));
            Next(cls, s, Edit(key, annotations, edited)) ==
            s.(site := s.site.(api := map[key := t.(versions := t.versions + [stored])]))
  {
  }

  lemma EditIsPassedOver(cls: string, s: State, kong: map<string, string>, namespace: string, name: string,
                         spec: KongFileSpec, annotations: map<string, string>, edited: KongFileSpec)
    requires HasPublished(kong, s, cls, namespace, name, spec)
    ensures var key := KeyOf(namespace, name);
            var edit := Edit(key, annotations, edited);
            var s' := Next(cls, Next(cls, Next(cls, s, edit), Deliver(key, 3)), ServedPass(key, 0));
            Quiet(s') && Current(s'.site.api, key) == Some(Edited(cls, namespace, name, spec, annotations, edited)) &&
            s'.site.cache == s.site.cache && s'.site.kong == s.site.kong && s'.authors == s.authors
  {
    EditIsStored(cls, s, kong, namespace, name, spec, annotations, edited);
    ShownAndLeft(cls, Next(cls, s, Edit(KeyOf(namespace, name), annotations, edited)), KeyOf(namespace, name), 3, 0);
  }

  /** After any edit of a published object, of its spec or of its class, everything comes to rest with the old
      file in the portal and the object still cached: an edited spec is not pushed, and an object that leaves
      the class is not removed. */
  lemma EditsAreNotPublished(kong: map<string, string>, cls: string, namespace: string, name: string,
                             spec: KongFileSpec, annotations: map<string, string>, edited: KongFileSpec)
    requires SlashFree(namespace) && KnownKind(spec)
    ensures var key := KeyOf(namespace, name);
            var s := Exec(cls, Init(kong), PublishAndEdit(cls, namespace, name, spec, annotations, edited));
            Quiet(s) && Current(s.site.api, key) == Some(Edited(cls, namespace, name, spec, annotations, edited)) &&
            key in s.site.cache && Build(spec).path in s.authors &&
            s.site.kong == kong[Build(spec).path := Build(spec).contents]
    ensures var s := Exec(cls, Init(kong), PublishAndEdit(cls, namespace, name, spec, annotations, edited));
            Build(edited).path == Build(spec).path && Build(edited) != Build(spec) ==> !InPortal(s.site.kong, edited)
  {
    var key, run := KeyOf(namespace, name), Publish(cls, namespace, name, spec);
    var edit := Edit(key, annotations, edited);
    PublishPublishes(kong, cls, namespace, name, spec);
    Then(cls, Init(kong), run, edit);
    Then(cls, Init(kong), run + [edit], Deliver(key, 3));
    Then(cls, Init(kong), run + [edit] + [Deliver(key, 3)], ServedPass(key, 0));
    EditIsPassedOver(cls, Exec(cls, Init(kong), run), kong, namespace, name, spec, annotations, edited);
  }

  // ---------------------------------------------------------------- a removal whose DELETE fails

  /** The published object is removed, the DELETE of the clean-up fails, and the clean-up is tried again. */
  function PublishAndRemove(cls: string, namespace: string, name: string, spec: KongFileSpec): seq<Step> {
    var key := KeyOf(namespace, name);
    Publish(cls, namespace, name, spec) + [Remove(key)] + [Deliver(key, 3)] +
    [Pass(key, Env(true, 0, Served, Served, Refused, Served))] + [ServedPass(key, 0)]
  }

  lemma RemovalIsShown(cls: string, s: State, kong: map<string, string>, namespace: string, name: string,
                       spec: KongFileSpec)
    requires HasPublished(kong, s, cls, namespace, name, spec)
    ensures var key := KeyOf(namespace, name);
            var s' := Next(cls, Next(cls, s, Remove(key)), Deliver(key, 3));
            s'.site.api == map[key := Timeline(PublishedTimeline(cls, namespace, name, spec).versions + [None], 3)] &&
            s' == s.(site := s.site.(api := s'.site.api), queue := {key})
  {
    var key, t := KeyOf(namespace, name), PublishedTimeline(cls, namespace, name, spec);
    var s1 := Next(cls, s, Remove(key));
    assert s1 == s.(site := s.site.(api := map[key := t.(versions := t.versions + [None])]));
    assert EventOf(s1.site.api[key].versions[2], s1.site.api[key].versions[3]) ==
           DeleteEvent(Published(cls, namespace, name, spec));
  }

  lemma FailedCleanUp(cls: string, s: State, key: string)
    requires Seen(s.site.api, key).None? && key in s.site.cache && s.queue == {key} && s.clock == 0
    ensures var s' := Next(cls, Next(cls, s, Pass(key, Env(true, 0, Served, Served, Refused, Served))),
                           ServedPass(key, 0));
            s'.site == s.site.(cache := s.site.cache - {key}) && s'.authors == s.authors && s'.queue == {}
  {
    var env := Env(true, 0, Served, Served, Refused, Served);
    var s1 := Next(cls, s, Pass(key, env));
    CreditRefused(s.authors, Build(s.site.cache[key].spec).path);
    assert s1.site == s.site.(cache := s.site.cache - {key}) && s1.queue == {key} && s1.authors == s.authors;
    assert Reconcile(cls, s1.site, key, ServedPass(key, 0).env) == Outcome(s1.site, Done, []);
  }

  lemma CreditRefused(authors: map<string, KongFile>, path: string)
    ensures Credit(authors, None, [DeleteFile(path, Refused)]) == authors
  {
  }

  lemma RemovedUncleanly(cls: string, s: State, kong: map<string, string>, namespace: string, name: string,
                         spec: KongFileSpec)
    requires HasPublished(kong, s, cls, namespace, name, spec) && KnownKind(spec)
    ensures var key := KeyOf(namespace, name);
            var failed := Pass(key, Env(true, 0, Served, Served, Refused, Served));
            var s' := Next(cls, Next(cls, Next(cls, Next(cls, s, Remove(key)), Deliver(key, 3)), failed),
                           ServedPass(key, 0));
            Quiet(s') && Current(s'.site.api, key).None? && s'.site.cache == map[] &&
            InPortal(s'.site.kong, spec) && Leaked(s', Build(spec).path)
  {
    var key := KeyOf(namespace, name);
    RemovalIsShown(cls, s, kong, namespace, name, spec);
    FailedCleanUp(cls, Next(cls, Next(cls, s, Remove(key)), Deliver(key, 3)), key);
  }

  /** After a failed DELETE everything comes to rest with the object gone, its file still in the portal, and
      nothing left that would delete it. */
  lemma FailedDeleteIsNotRetried(kong: map<string, string>, cls: string, namespace: string, name: string,
                                 spec: KongFileSpec)
    requires SlashFree(namespace) && KnownKind(spec)
    ensures var s := Exec(cls, Init(kong), PublishAndRemove(cls, namespace, name, spec));
            Quiet(s) && Current(s.site.api, KeyOf(namespace, name)).None? && s.site.cache == map[] &&
            InPortal(s.site.kong, spec) && Leaked(s, Build(spec).path)
  {
    var key, run := KeyOf(namespace, name), Publish(cls, namespace, name, spec);
    var failed := Pass(key, Env(true, 0, Served, Served, Refused, Served));
    PublishPublishes(kong, cls, namespace, name, spec);
    Then(cls, Init(kong), run, Remove(key));
    Then(cls, Init(kong), run + [Remove(key)], Deliver(key, 3));
    Then(cls, Init(kong), run + [Remove(key)] + [Deliver(key, 3)], failed);
    Then(cls, Init(kong), run + [Remove(key)] + [Deliver(key, 3)] + [failed], ServedPass(key, 0));
    RemovedUncleanly(cls, Exec(cls, Init(kong), run), kong, namespace, name, spec);
  }

  // ---------------------------------------------------------------- an object of another class

  /** An object of another class is created, shown and set to be deleted, and that is shown. */
  function CreateAndExpire(namespace: string, name: string, annotations: map<string, string>, spec: KongFileSpec,
                           at: nat): seq<Step>
  {
    var key := KeyOf(namespace, name);
    [Create(namespace, name, annotations, spec)] + [Deliver(key, 1)] + [SetDeletion(key, at)] + [Deliver(key, 2)] +
    [ServedPass(key, at + 1)]
  }

  function Expiring(namespace: string, name: string, annotations: map<string, string>, spec: KongFileSpec,
                    at: nat): KongFile
  {
    var obj := NewObject(namespace, name, annotations, spec, 1);
    obj.(meta := obj.meta.(deletionTimestamp := Some(at), resourceVersion := 2))
  }

  lemma ExpiryIsShown(cls: string, s: State, kong: map<string, string>, namespace: string, name: string,
                      annotations: map<string, string>, spec: KongFileSpec, at: nat)
    requires var key, obj := KeyOf(namespace, name), NewObject(namespace, name, annotations, spec, 1);
             s == State(Site(map[key := Timeline([None, Some(obj)], 1)], map[], kong), {}, 0, map[], [])
    ensures var key := KeyOf(namespace, name);
            var s' := Next(cls, Next(cls, s, SetDeletion(key, at)), Deliver(key, 2));
            Seen(s'.site.api, key) == Some(Expiring(namespace, name, annotations, spec, at)) &&
            s' == s.(site := s.site.(api := s'.site.api), queue := {key})
  {
    var key, obj := KeyOf(namespace, name), NewObject(namespace, name, annotations, spec, 1);
    var versions := [None, Some(obj), Some(Expiring(namespace, name, annotations, spec, at))];
    assert [None, Some(obj)] + [Some(Expiring(namespace, name, annotations, spec, at))] == versions;
    var s1 := Next(cls, s, SetDeletion(key, at));
    assert s1 == s.(site := s.site.(api := map[key := Timeline(versions, 1)]));
  }

  lemma ExpiryDeletes(cls: string, s: State, key: string, obj: KongFile, at: nat)
    requires Seen(s.site.api, key) == Some(obj) && obj.meta.deletionTimestamp == Some(at) && KnownKind(obj.spec)
    requires key in s.queue && s.clock == 0 && s.authors == map[] && Build(obj.spec).path in s.site.kong
    ensures var s' := Next(cls, s, ServedPass(key, at + 1));
            s'.site.kong == s.site.kong - {Build(obj.spec).path} && s'.authors == map[]
  {
    BlankPathIffUnknownKind(obj.spec);
    var path, env := Build(obj.spec).path, ServedPass(key, at + 1).env;
    assert BranchOf(cls, s.site.api, key, env) == Branch.Expiring(obj);
    assert Reconcile(cls, s.site, key, env).requests == [GetFile(path), DeleteFile(path, Served)];
    assert Credit(map[], Some(obj), [DeleteFile(path, Served)]) == map[];
    assert [GetFile(path), DeleteFile(path, Served)][1..] == [DeleteFile(path, Served)];
  }

  /** The update event passes the filter although neither version is of the class, and the file, which the
      controller never wrote, is deleted: the timestamp is looked at before the class. */
  lemma OtherClassLosesForeignFile(kong: map<string, string>, cls: string, namespace: string, name: string,
                                   annotations: map<string, string>, spec: KongFileSpec, at: nat)
    requires SlashFree(namespace) && KnownKind(spec) && Build(spec).path in kong
    requires !MatchesClass(NewObject(namespace, name, annotations, spec, 1), cls)
    ensures var s := Exec(cls, Init(kong), CreateAndExpire(namespace, name, annotations, spec, at));
            s.site.kong == kong - {Build(spec).path} && s.authors == map[]
  {
    var key := KeyOf(namespace, name);
    var create, expire := Create(namespace, name, annotations, spec), SetDeletion(key, at);
    Then(cls, Init(kong), [], create);
    Then(cls, Init(kong), [create], Deliver(key, 1));
    Then(cls, Init(kong), [create] + [Deliver(key, 1)], expire);
    Then(cls, Init(kong), [create] + [Deliver(key, 1)] + [expire], Deliver(key, 2));
    Then(cls, Init(kong), [create] + [Deliver(key, 1)] + [expire] + [Deliver(key, 2)], ServedPass(key, at + 1));
    CreateAndShow(kong, cls, namespace, name, annotations, spec);
    var s := Exec(cls, Init(kong), [create] + [Deliver(key, 1)]);
    ExpiryIsShown(cls, s, kong, namespace, name, annotations, spec, at);
    ExpiryDeletes(cls, Next(cls, Next(cls, s, expire), Deliver(key, 2)), key,
                  Expiring(namespace, name, annotations, spec, at), at);
  }
}
