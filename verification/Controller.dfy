/** The controller as it runs: objects held by reference, stores updated in place. Every method is
    proved against the functions of module Protocol. */
module Controller {
  import opened Wrappers
  import opened Strings
  import opened KongFiles
  import opened ClassMatching
  import opened Protocol

  datatype NamespacedName = NamespacedName(namespace: string, name: string)

  /** A resource as the controller holds it: one mutable object behind a pointer. */
  class KongFileObject {
    var meta: ObjectMeta
    var spec: KongFileSpec
    var status: KongFileStatus

    constructor ()
      ensures meta.annotations == map[] && meta.deletionTimestamp == None && !status.validated
    {
      meta := ObjectMeta("", "", map[], None, 0, 0);
      spec := KongFileSpec("", "", "", "", "", "");
      status := KongFileStatus(false);
    }

    function Value(): KongFile
      reads this
    {
      KongFile(meta, spec, status)
    }

    /** The key function of the store, which reads the object's own namespace and name. */
    function StoreKey(): string
      reads this
    {
      meta.namespace + "/" + meta.name
    }
  }

  // ---------------------------------------------------------------- the API server

  datatype ReadError = NoError | NotFound | Unavailable

  class ApiServer {
    var timelines: Api

    predicate Valid()
      reads this
    {
      WellKeyed(timelines)
    }

    /** Fills the given object with the informer's version of the request. */
    method Get(request: NamespacedName, obj: KongFileObject, readable: bool) returns (err: ReadError)
      requires Valid()
      modifies obj
      ensures var seen := Seen(timelines, KeyOf(request.namespace, request.name));
              err == if !readable then Unavailable else if seen.None? then NotFound else NoError
      ensures err.NoError? ==> obj.Value() == Seen(timelines, KeyOf(request.namespace, request.name)).value
      ensures err.NoError? ==> obj.StoreKey() == KeyOf(request.namespace, request.name)
      ensures !err.NoError? ==> obj.Value() == old(obj.Value())
    {
      if !readable {
        return Unavailable;
      }
      match Seen(timelines, KeyOf(request.namespace, request.name)) {
        case None =>
          err := NotFound;
        case Some(found) =>
          obj.meta, obj.spec, obj.status := found.meta, found.spec, found.status;
          err := NoError;
      }
    }

    /** Stores the status of the given object if that object is still current; a served update
        decodes the stored version back into the object. */
    method UpdateStatus(obj: KongFileObject, answer: Answer) returns (err: bool)
      requires Valid()
      modifies this, obj
      ensures Valid()
      ensures timelines == Protocol.UpdateStatus(old(timelines), old(Key(obj.Value())), old(obj.Value()), answer)
      ensures err <==> !(answer.Served? &&
                         StatusAccepted(old(timelines), old(Key(obj.Value())), old(obj.Value()), answer))
      ensures !err ==>
              obj.Value() == NextVersion(old(timelines), old(Key(obj.Value())), old(obj.Value()).status)
      ensures err ==> obj.Value() == old(obj.Value())
    {
      var key := KeyOf(obj.meta.namespace, obj.meta.name);
      var current := Current(timelines, key);
      if answer.Refused? || current.None? || current.value.meta.resourceVersion != obj.meta.resourceVersion {
        return true;
      }
      var t := TimelineOf(timelines, key);
      var stored := KongFile(
        current.value.meta.(resourceVersion := |t.versions|), current.value.spec, obj.status);
      timelines := timelines[key := t.(versions := t.versions + [Some(stored)])];
      err := !answer.Served?;
      if !err {
        obj.meta, obj.spec, obj.status := stored.meta, stored.spec, stored.status;
      }
    }
  }

  // ---------------------------------------------------------------- the portal

  class FileService {
    var files: map<string, string>
    var wire: seq<Request>  // the requests sent so far

    method Get(file: File, answer: Answer) returns (found: Option<File>, err: bool)
      modifies `wire
      ensures err <==> IsBlank(file.path) || !answer.Served? || file.path !in files
      ensures found == if err then None else Some(File(file.path, files[file.path]))
      ensures wire == old(wire) + if IsBlank(file.path) then [] else [GetFile(file.path)]
    {
      if IsEmptyString(file.path) {
        return None, true;
      }
      wire := wire + [GetFile(file.path)];
      if answer.Served? && file.path in files {
        return Some(File(file.path, files[file.path])), false;
      }
      return None, true;
    }

    method Update(file: File, answer: Answer) returns (err: bool)
      modifies this
      ensures err <==> IsBlank(file.path) || !answer.Served?
      ensures files == PutInto(old(files), file, answer)
      ensures wire == old(wire) + if IsBlank(file.path) then [] else [PutFile(file, answer)]
    {
      if IsEmptyString(file.path) {
        return true;
      }
      wire := wire + [PutFile(file, answer)];
      if !answer.Refused? {
        files := files[file.path := file.contents];
      }
      return !answer.Served?;
    }

    method Delete(file: File, answer: Answer) returns (err: bool)
      modifies this
      ensures err <==> IsBlank(file.path) || !answer.Served?
      ensures files == DeleteFrom(old(files), file.path, answer)
      ensures wire == old(wire) + if IsBlank(file.path) then [] else [DeleteFile(file.path, answer)]
    {
      if IsEmptyString(file.path) {
        return true;
      }
      wire := wire + [DeleteFile(file.path, answer)];
      if !answer.Refused? {
        files := files - {file.path};
      }
      return !answer.Served?;
    }
  }

  // ---------------------------------------------------------------- the cache

  class CacheStores {
    var kongFiles: map<string, KongFileObject>

    predicate Valid()
      reads this, kongFiles.Values
    {
      forall key :: key in kongFiles ==> kongFiles[key].StoreKey() == key
    }

    function Contents(): map<string, KongFile>
      reads this, kongFiles.Values
    {
      map key | key in kongFiles :: kongFiles[key].Value()
    }

    constructor ()
      ensures Valid() && Contents() == map[]
    {
      kongFiles := map[];
    }

    method Get(obj: KongFileObject) returns (item: KongFileObject?, exists_: bool)
      ensures exists_ <==> obj.StoreKey() in kongFiles
      ensures item == if exists_ then kongFiles[obj.StoreKey()] else null
    {
      var key := obj.StoreKey();
      exists_ := key in kongFiles;
      item := if exists_ then kongFiles[key] else null;
    }

    method Add(obj: KongFileObject)
      requires Valid()
      modifies this
      ensures Valid()
      ensures kongFiles == old(kongFiles)[obj.StoreKey() := obj]
      ensures Contents() == old(Contents())[obj.StoreKey() := obj.Value()]
    {
      kongFiles := kongFiles[obj.StoreKey() := obj];
    }

    method Update(obj: KongFileObject)
      requires Valid()
      modifies this
      ensures Valid()
      ensures kongFiles == old(kongFiles)[obj.StoreKey() := obj]
      ensures Contents() == old(Contents())[obj.StoreKey() := obj.Value()]
    {
      kongFiles := kongFiles[obj.StoreKey() := obj];
    }

    method Delete(obj: KongFileObject)
      requires Valid()
      modifies this
      ensures Valid()
      ensures kongFiles == old(kongFiles) - {obj.StoreKey()}
      ensures Contents() == old(Contents()) - {obj.StoreKey()}
    {
      kongFiles := kongFiles - {obj.StoreKey()};
    }
  }

  // ---------------------------------------------------------------- the resolver

  class CachedProxyResolver {
    const store: CacheStores
    const service: FileService

    constructor (store: CacheStores, service: FileService)
      ensures this.store == store && this.service == service
    {
      this.store, this.service := store, service;
    }

    /** The cache first, by reference, then the portal. */
    method UpdateObject(obj: KongFileObject, answer: Answer) returns (err: bool)
      requires store.Valid()
      modifies store, service
      ensures store.Valid()
      ensures store.kongFiles == old(store.kongFiles)[obj.StoreKey() := obj]
      ensures store.Contents() == old(store.Contents())[obj.StoreKey() := obj.Value()]
      ensures service.files == PutInto(old(service.files), Build(obj.spec), answer)
      ensures err <==> IsBlank(Build(obj.spec).path) || !answer.Served?
      ensures service.wire == old(service.wire) +
              if IsBlank(Build(obj.spec).path) then [] else [PutFile(Build(obj.spec), answer)]
    {
      store.Update(obj);
      err := service.Update(Build(obj.spec), answer);
    }

    /** The cache first, then the portal. */
    method DeleteObject(obj: KongFileObject, answer: Answer) returns (err: bool)
      requires store.Valid()
      modifies store, service
      ensures store.Valid()
      ensures store.kongFiles == old(store.kongFiles) - {obj.StoreKey()}
      ensures store.Contents() == old(store.Contents()) - {obj.StoreKey()}
      ensures service.files == DeleteFrom(old(service.files), Build(obj.spec).path, answer)
      ensures err <==> IsBlank(Build(obj.spec).path) || !answer.Served?
      ensures service.wire == old(service.wire) +
              if IsBlank(Build(obj.spec).path) then [] else [DeleteFile(Build(obj.spec).path, answer)]
    {
      store.Delete(obj);
      err := service.Delete(Build(obj.spec), answer);
    }

    /** Asks the portal. There is no answer "absent": a missing file comes back as an error. */
    method ObjectExists(obj: KongFileObject, answer: Answer) returns (found: bool, err: bool)
      modifies service`wire
      ensures found <==> !err
      ensures err <==> IsBlank(Build(obj.spec).path) || !answer.Served? || Build(obj.spec).path !in service.files
      ensures service.wire == old(service.wire) +
              if IsBlank(Build(obj.spec).path) then [] else [GetFile(Build(obj.spec).path)]
    {
      var file;
      file, err := service.Get(Build(obj.spec), answer);
      found := if err then false else file.Some?;
    }

    method ObjectExistsInCache(obj: KongFileObject) returns (cached: KongFileObject?, exists_: bool)
      ensures exists_ <==> obj.StoreKey() in store.kongFiles
      ensures cached == if exists_ then store.kongFiles[obj.StoreKey()] else null
    {
      cached, exists_ := store.Get(obj);
    }
  }

  // ---------------------------------------------------------------- the reconciler

  class KongFileReconciler {
    const client: ApiServer
    const proxy: CachedProxyResolver
    const controllerClassName: string

    constructor (client: ApiServer, proxy: CachedProxyResolver, controllerClassName: string)
      ensures this.client == client && this.proxy == proxy && this.controllerClassName == controllerClassName
    {
      this.client, this.proxy, this.controllerClassName := client, proxy, controllerClassName;
    }

    predicate Valid()
      reads client, proxy.store, proxy.store.kongFiles.Values
    {
      client.Valid() && proxy.store.Valid()
    }

    function Stores(): Site
      reads client, proxy.store, proxy.store.kongFiles.Values, proxy.service
    {
      Site(client.timelines, proxy.store.Contents(), proxy.service.files)
    }

    method EnsureProxyDeleteObject(obj: KongFileObject, env: Env) returns (result: Result)
      requires Valid()
      modifies proxy.store, proxy.service
      ensures Valid()
      ensures var out := CleanUp(old(Stores()), obj.StoreKey(), env);
              Stores() == out.site && result == out.result &&
              proxy.service.wire == old(proxy.service.wire) + out.requests
    {
      var cached, exists_ := proxy.ObjectExistsInCache(obj);
      if exists_ {
        var err := proxy.DeleteObject(cached, env.delete);
        if err {
          return Failed;
        }
        return Requeue;
      } else {
        return Done;
      }
    }

    /** The branch for an object past its deletion timestamp. */
    method ExpireObject(obj: KongFileObject, env: Env) returns (result: Result)
      requires Valid()
      modifies proxy.store, proxy.service
      ensures Valid()
      ensures var out := Protocol.Expire(old(Stores()), obj.StoreKey(), obj.Value(), env);
              Stores() == out.site && result == out.result &&
              proxy.service.wire == old(proxy.service.wire) + out.requests
    {
      var found, err := proxy.ObjectExists(obj, env.get);
      if err {
        return Failed;
      }
      if found {
        err := proxy.DeleteObject(obj, env.delete);
        if err {
          return Failed;
        }
        return Requeue;
      }
      return Done;
    }

    /** Marks a pushed object validated, in place, and reports the status to the API server. The cache
        holds the very same object, so its entry changes with it. */
    method ValidateObject(obj: KongFileObject, answer: Answer) returns (result: Result)
      requires Valid()
      requires obj.StoreKey() in proxy.store.kongFiles && proxy.store.kongFiles[obj.StoreKey()] == obj
      requires obj !in (proxy.store.kongFiles - {obj.StoreKey()}).Values
      modifies client, obj
      ensures Valid()
      ensures (Stores(), result) == FinishPush(old(Stores()), old(obj.StoreKey()), old(obj.Value()), answer)
    {
      ghost var before, key, value := Stores(), obj.StoreKey(), obj.Value();
      obj.status := KongFileStatus(true);
      assert obj.Value() == Validate(value);
      var err := client.UpdateStatus(obj, answer);
      assert proxy.store.Contents() == before.cache[key := obj.Value()];
      result := if err then Failed else Done;
    }

    /** The branch for an object not yet validated. */
    method PushObject(obj: KongFileObject, env: Env) returns (result: Result)
      requires Valid() && obj !in proxy.store.kongFiles.Values
      modifies client, proxy.store, proxy.service, obj
      ensures Valid()
      ensures var out := Protocol.Push(old(Stores()), old(obj.StoreKey()), old(obj.Value()), env);
              Stores() == out.site && result == out.result &&
              proxy.service.wire == old(proxy.service.wire) + out.requests
    {
      ghost var pushed := Protocol.UpdateObject(Stores(), obj.StoreKey(), obj.Value(), env.put);
      var err := proxy.UpdateObject(obj, env.put);
      assert Stores() == pushed.site;
      if err {
        return Failed;
      }
      result := ValidateObject(obj, env.status);
    }

    /** What a pass does with the object it has read: expired objects first, then the class test, then
        the status test. */
    method ReconcileObject(obj: KongFileObject, env: Env) returns (result: Result)
      requires Valid() && obj !in proxy.store.kongFiles.Values
      requires env.readable && Seen(client.timelines, obj.StoreKey()) == Some(obj.Value())
      modifies client, proxy.store, proxy.service, obj
      ensures Valid()
      ensures var out := Protocol.Reconcile(controllerClassName, old(Stores()), old(obj.StoreKey()), env);
              Stores() == out.site && result == out.result &&
              proxy.service.wire == old(proxy.service.wire) + out.requests
    {
      ghost var branch := BranchOf(controllerClassName, client.timelines, obj.StoreKey(), env);
      if obj.meta.deletionTimestamp.Some? && env.now > obj.meta.deletionTimestamp.value {
        assert branch == Expiring(obj.Value());
        result := ExpireObject(obj, env);
        return;
      }

      if !MatchesClass(obj.Value(), controllerClassName) {
        return Done;
      }

      if !obj.status.validated {
        assert branch == Pushing(obj.Value());
        result := PushObject(obj, env);
        return;
      }
      return Done;
    }

    /** One pass. */
    method Reconcile(request: NamespacedName, env: Env) returns (result: Result)
      requires Valid()
      modifies client, proxy.store, proxy.service
      ensures Valid()
      ensures var out := Protocol.Reconcile(
                controllerClassName, old(Stores()), KeyOf(request.namespace, request.name), env);
              Stores() == out.site && result == out.result &&
              proxy.service.wire == old(proxy.service.wire) + out.requests
    {
      var obj := new KongFileObject();
      var readErr := client.Get(request, obj, env.readable);
      assert Stores() == old(Stores());
      if readErr.NotFound? {
        obj.meta := obj.meta.(namespace := request.namespace, name := request.name);
        assert Stores() == old(Stores());
        result := EnsureProxyDeleteObject(obj, env);
      } else if readErr.Unavailable? {
        result := Failed;
      } else {
        result := ReconcileObject(obj, env);
      }
    }
  }
}
