/** Whole runs: users, the informer, the work queue, restarts and outside writers around the passes. */
module Machine {
  import opened Wrappers
  import opened Strings
  import opened KongFiles
  import opened ClassMatching
  import opened Protocol

  /** A request on the wire with the key of the pass that sent it. */
  datatype LogEntry = LogEntry(key: string, request: Request)

  /** `authors` maps each portal path last written by the controller to the version it was built from. */
  datatype State = State(
    site: Site, queue: set<string>, clock: nat, authors: map<string, KongFile>, log: seq<LogEntry>)

  /** The object shown is past its deletion timestamp. */
  predicate ExpiredNow(s: State, key: string) {
    Seen(s.site.api, key).Some? && Expired(Seen(s.site.api, key).value, s.clock)
  }

  datatype Step =
    | Create(namespace: string, name: string, annotations: map<string, string>, spec: KongFileSpec)
    | Edit(key: string, annotations: map<string, string>, spec: KongFileSpec)
    | SetDeletion(key: string, at: nat)
    | Remove(key: string)
    | Deliver(key: string, position: nat)
    | Resync(key: string)
    | Pass(key: string, env: Env)
    | Restart(positions: map<string, nat>)
    | OutsidePut(file: File)
    | OutsideDelete(path: string)

  function Init(kong: map<string, string>): State {
    State(Site(map[], map[], kong), {}, 0, map[], [])
  }

  // ---------------------------------------------------------------- the API server and its users

  function NewObject(namespace: string, name: string, annotations: map<string, string>, spec: KongFileSpec,
                     version: nat): KongFile
  {
    KongFile(ObjectMeta(namespace, name, annotations, None, version, version), spec, KongFileStatus(false))
  }

  /** Appends a version that differs from the current one as said. */
  function AppendTo(api: Api, key: string, version: Option<KongFile>): Api {
    api[key := Append(TimelineOf(api, key), version)]
  }

  function Stamp(api: Api, key: string, obj: KongFile): Option<KongFile> {
    Some(obj.(meta := obj.meta.(resourceVersion := |TimelineOf(api, key).versions|)))
  }

  function ApiStep(api: Api, step: Step): Api
    requires ApiEnabled(api, step)
  {
    match step
    case Create(namespace, name, annotations, spec) =>
      var key := KeyOf(namespace, name);
      AppendTo(api, key, Some(NewObject(namespace, name, annotations, spec, |TimelineOf(api, key).versions|)))
    case Edit(key, annotations, spec) =>
      var obj := Current(api, key).value;
      AppendTo(api, key, Stamp(api, key, obj.(meta := obj.meta.(annotations := annotations), spec := spec)))
    case SetDeletion(key, at) =>
      var obj := Current(api, key).value;
      AppendTo(api, key, Stamp(api, key, obj.(meta := obj.meta.(deletionTimestamp := Some(at)))))
    case Remove(key) =>
      AppendTo(api, key, None)
    case Deliver(key, position) =>
      api[key := api[key].(seen := position)]
    case Restart(positions) =>
      map key | key in api :: api[key].(seen := positions[key])
    case _ => api
  }

  /** Namespaces are DNS labels, so they hold no slash. The status of a new object is dropped, an edit
      keeps status and deletion timestamp, a deletion timestamp is set once. The informer only moves
      forward, possibly over several versions, also across a restart. */
  predicate ApiEnabled(api: Api, step: Step) {
    match step
    case Create(namespace, name, _, _) => SlashFree(namespace) && Current(api, KeyOf(namespace, name)).None?
    case Edit(key, _, _) => Current(api, key).Some?
    case SetDeletion(key, _) => Current(api, key).Some? && Current(api, key).value.meta.deletionTimestamp.None?
    case Remove(key) => Current(api, key).Some?
    case Deliver(key, position) => key in api && api[key].seen < position < |api[key].versions|
    case Resync(key) => Seen(api, key).Some?
    case Restart(positions) =>
      forall key :: key in api ==> key in positions && api[key].seen <= positions[key] < |api[key].versions|
    case _ => true
  }

  // ---------------------------------------------------------------- steps

  /** The queue hands out a key, and clocks do not run backwards. */
  predicate Enabled(s: State, step: Step) {
    ApiEnabled(s.site.api, step) &&
    match step
    case Pass(key, env) => key in s.queue && s.clock <= env.now
    case _ => true
  }

  function Credit(authors: map<string, KongFile>, obj: Option<KongFile>, requests: seq<Request>): map<string, KongFile>
    decreases |requests|
  {
    if requests == [] then authors
    else
      var rest := requests[1..];
      match requests[0]
      case GetFile(_) => Credit(authors, obj, rest)
      case PutFile(file, answer) =>
        Credit(if answer.Refused? || obj.None? then authors else authors[file.path := obj.value], obj, rest)
      case DeleteFile(path, answer) => Credit(if answer.Refused? then authors else authors - {path}, obj, rest)
  }

  function Tag(key: string, requests: seq<Request>): seq<LogEntry> {
    seq(|requests|, i requires 0 <= i < |requests| => LogEntry(key, requests[i]))
  }

  /** The key leaves the queue and comes back unless the pass is done with it. */
  function PassStep(cls: string, s: State, key: string, env: Env): State {
    var out := Reconcile(cls, s.site, key, env);
    State(
      out.site,
      if out.result.Done? then s.queue - {key} else s.queue,
      env.now,
      Credit(s.authors, Seen(s.site.api, key), out.requests),
      s.log + Tag(key, out.requests))
  }

  function DeliverStep(cls: string, s: State, key: string, position: nat): State
    requires ApiEnabled(s.site.api, Deliver(key, position))
  {
    var t := s.site.api[key];
    var event := EventOf(t.versions[t.seen], t.versions[position]);
    s.(site := s.site.(api := ApiStep(s.site.api, Deliver(key, position))),
       queue := if Enqueues(event, cls) then s.queue + {key} else s.queue)
  }

  /** The informer reports, as an update of an object to itself, what it already shows. */
  function ResyncStep(cls: string, s: State, key: string): State
    requires Seen(s.site.api, key).Some?
  {
    var obj := Seen(s.site.api, key);
    s.(queue := if Enqueues(EventOf(obj, obj), cls) then s.queue + {key} else s.queue)
  }

  /** A restart loses the cache and the queue; the informer then reports every live object as created. */
  function RestartStep(cls: string, s: State, positions: map<string, nat>): State
    requires ApiEnabled(s.site.api, Restart(positions))
  {
    var api := ApiStep(s.site.api, Restart(positions));
    s.(site := s.site.(api := api, cache := map[]),
       queue := set key | key in api && Enqueues(EventOf(None, Seen(api, key)), cls) :: key)
  }

  /** A step that is not possible changes nothing. */
  function Next(cls: string, s: State, step: Step): State {
    if !Enabled(s, step) then s
    else
      match step
      case Pass(key, env) => PassStep(cls, s, key, env)
      case Deliver(key, position) => DeliverStep(cls, s, key, position)
      case Resync(key) => ResyncStep(cls, s, key)
      case Restart(positions) => RestartStep(cls, s, positions)
      case OutsidePut(file) =>
        s.(site := s.site.(kong := s.site.kong[file.path := file.contents]), authors := s.authors - {file.path})
      case OutsideDelete(path) =>
        s.(site := s.site.(kong := s.site.kong - {path}), authors := s.authors - {path})
      case _ => s.(site := s.site.(api := ApiStep(s.site.api, step)))
  }

  /** The state after a sequence of steps. */
  function Exec(cls: string, s: State, steps: seq<Step>): State {
    if steps == [] then s else Next(cls, Exec(cls, s, steps[..|steps| - 1]), steps[|steps| - 1])
  }
}
