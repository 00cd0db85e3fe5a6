/** One reconciliation pass as a function of the three stores and of the outside world's answers. */
module Protocol {
  import opened Wrappers
  import opened Strings
  import opened KongFiles
  import opened ClassMatching

  // ---------------------------------------------------------------- the stores

  /** All versions a key has had at the API server, in order, and the one the informer shows now.
      Version 0 is "never created". */
  datatype Timeline = Timeline(versions: seq<Option<KongFile>>, seen: nat)

  predicate Sound(t: Timeline) {
    t.seen < |t.versions|
  }

  const UNBORN := Timeline([None], 0)

  type Api = api: map<string, Timeline> | forall k :: k in api ==> Sound(api[k]) witness map[]

  function TimelineOf(api: Api, key: string): (t: Timeline)
    ensures Sound(t)
  {
    if key in api then api[key] else UNBORN
  }

  function Seen(api: Api, key: string): Option<KongFile> {
    TimelineOf(api, key).versions[TimelineOf(api, key).seen]
  }

  function Current(api: Api, key: string): Option<KongFile> {
    var versions := TimelineOf(api, key).versions;
    versions[|versions| - 1]
  }

  /** The informer shows the current version of every key. */
  predicate UpToDate(api: Api) {
    forall key :: key in api ==> api[key].seen == |api[key].versions| - 1
  }

  /** Every version sits under the key of its own namespace and name. */
  predicate KeyedBy(versions: seq<Option<KongFile>>, key: string) {
    forall i :: 0 <= i < |versions| && versions[i].Some? ==> Key(versions[i].value) == key
  }

  predicate WellKeyed(api: Api) {
    forall key :: key in api ==> KeyedBy(api[key].versions, key)
  }

  datatype Site = Site(api: Api, cache: map<string, KongFile>, kong: map<string, string>)

  // ---------------------------------------------------------------- the outside world

  /** How one remote call fares: answered, carried out with the answer lost, or not carried out. */
  datatype Answer = Served | Lost | Refused

  /** Everything a pass learns from outside: whether the API read works, the clock, and how each
      remote call of the pass fares. */
  datatype Env = Env(readable: bool, now: nat, get: Answer, put: Answer, delete: Answer, status: Answer)

  /** Everything works at this time. */
  function ServedAt(now: nat): Env {
    Env(true, now, Served, Served, Served, Served)
  }

  datatype Request = GetFile(path: string) | PutFile(file: File, answer: Answer)
                   | DeleteFile(path: string, answer: Answer)

  datatype Result = Done | Requeue | Failed

  datatype Outcome = Outcome(site: Site, result: Result, requests: seq<Request>)

  // ---------------------------------------------------------------- cache, then portal

  function PutInto(kong: map<string, string>, file: File, answer: Answer): map<string, string> {
    if IsBlank(file.path) || answer.Refused? then kong else kong[file.path := file.contents]
  }

  function DeleteFrom(kong: map<string, string>, path: string, answer: Answer): map<string, string> {
    if IsBlank(path) || answer.Refused? then kong else kong - {path}
  }

  function UpdateObject(site: Site, key: string, obj: KongFile, answer: Answer): Outcome {
    var file := Build(obj.spec);
    Outcome(
      site.(cache := site.cache[key := obj], kong := PutInto(site.kong, file, answer)),
      if !IsBlank(file.path) && answer.Served? then Done else Failed,
      if IsBlank(file.path) then [] else [PutFile(file, answer)])
  }

  function DeleteObject(site: Site, key: string, obj: KongFile, answer: Answer): Outcome {
    var path := Build(obj.spec).path;
    Outcome(
      site.(cache := site.cache - {key}, kong := DeleteFrom(site.kong, path, answer)),
      if !IsBlank(path) && answer.Served? then Requeue else Failed,
      if IsBlank(path) then [] else [DeleteFile(path, answer)])
  }

  // ---------------------------------------------------------------- status

  function Validate(obj: KongFile): KongFile {
    obj.(status := KongFileStatus(true))
  }

  /** The API server accepts a status update only for the version it now holds. */
  predicate StatusAccepted(api: Api, key: string, obj: KongFile, answer: Answer) {
    var current := Current(api, key);
    !answer.Refused? && current.Some? && current.value.meta.resourceVersion == obj.meta.resourceVersion
  }

  /** An accepted status update takes the status from the request and all else from the server. */
  function NextVersion(api: Api, key: string, status: KongFileStatus): KongFile
    requires Current(api, key).Some?
  {
    var held := Current(api, key).value;
    held.(status := status, meta := held.meta.(resourceVersion := |TimelineOf(api, key).versions|))
  }

  function Append(t: Timeline, version: Option<KongFile>): (t': Timeline)
    requires Sound(t)
    ensures Sound(t')
  {
    t.(versions := t.versions + [version])
  }

  function UpdateStatus(api: Api, key: string, obj: KongFile, answer: Answer): Api {
    if StatusAccepted(api, key, obj, answer)
    then api[key := Append(TimelineOf(api, key), Some(NextVersion(api, key, obj.status)))]
    else api
  }

  /** After a successful push: the status is set in place, so the cached object changes with it, and
      a served status update also decodes the server's new version into that same object. */
  function FinishPush(site: Site, key: string, obj: KongFile, answer: Answer): (Site, Result) {
    var marked := Validate(obj);
    var api := UpdateStatus(site.api, key, marked, answer);
    var ok := StatusAccepted(site.api, key, marked, answer) && answer.Served?;
    var held := if ok then NextVersion(site.api, key, marked.status) else marked;
    (site.(api := api, cache := site.cache[key := held]), if ok then Done else Failed)
  }

  // ---------------------------------------------------------------- the pass

  predicate Expired(obj: KongFile, now: nat) {
    obj.meta.deletionTimestamp.Some? && now > obj.meta.deletionTimestamp.value
  }

  /** The five ways through a pass. */
  datatype Branch = Unread | Absent | Expiring(obj: KongFile) | Idle(obj: KongFile) | Pushing(obj: KongFile)

  function BranchOf(cls: string, api: Api, key: string, env: Env): Branch {
    if !env.readable then Unread
    else
      match Seen(api, key)
      case None => Absent
      case Some(obj) =>
        if Expired(obj, env.now) then Expiring(obj)
        else if MatchesClass(obj, cls) && !obj.status.validated then Pushing(obj)
        else Idle(obj)
  }

  function CleanUp(site: Site, key: string, env: Env): Outcome {
    if key in site.cache then DeleteObject(site, key, site.cache[key], env.delete)
    else Outcome(site, Done, [])
  }

  function Expire(site: Site, key: string, obj: KongFile, env: Env): Outcome {
    var path := Build(obj.spec).path;
    if IsBlank(path) then Outcome(site, Failed, [])
    else if !env.get.Served? || path !in site.kong then Outcome(site, Failed, [GetFile(path)])
    else
      var deleted := DeleteObject(site, key, obj, env.delete);
      deleted.(requests := [GetFile(path)] + deleted.requests)
  }

  function Push(site: Site, key: string, obj: KongFile, env: Env): Outcome {
    var pushed := UpdateObject(site, key, obj, env.put);
    if pushed.result.Failed? then pushed
    else
      var (site', result) := FinishPush(pushed.site, key, obj, env.status);
      Outcome(site', result, pushed.requests)
  }

  function Reconcile(cls: string, site: Site, key: string, env: Env): Outcome {
    match BranchOf(cls, site.api, key, env)
    case Unread => Outcome(site, Failed, [])
    case Absent => CleanUp(site, key, env)
    case Expiring(obj) => Expire(site, key, obj, env)
    case Idle(_) => Outcome(site, Done, [])
    case Pushing(obj) => Push(site, key, obj, env)
  }
}
