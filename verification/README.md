# Kong portal controller: a verified model

The controller keeps three stores in step: the KongFile objects at the Kubernetes API server, an
in-memory cache of objects, and the files of a Kong developer portal. This project models one
reconciliation pass exactly, the whole runs around the passes, the naming and rendering of files, the
read side of the cache and the headers of portal requests, and proves what they keep.

## How the model is laid out

- `Strings`, `KongFiles`, `ClassMatching`: slash-joined names, blank strings, rendering, the class and
  event tests.
- `Protocol`: a pass as a function of the three stores and of the outside world's answers. A remote call is
  served, carried out with the answer lost, or not carried out. A PUT replaces the file at its path
  (sections 9.3.4 and 9.2.2 of RFC 9110). The informer's view of a key may lag behind but never goes back.
- `Controller`: the same pass over mutable objects, with the cached object shared with the pass that
  changes it. Each method is proved against `Protocol`.
- `Machine`: runs. Users create, edit, expire and remove objects; the informer delivers, possibly over
  several versions at once, and resyncs; a pass takes a queued key, which comes back unless the pass is
  done; restarts lose cache and queue; outsiders write to the portal. A step that is not possible changes
  nothing, so every statement is over all sequences of steps. The state records, besides the stores, a log of
  requests and for each path the version it was last written from.
- `Outcomes`: a single pass as seen from outside.
- `Timelines`, `Effects`, `Provenance`, `Histories`: what every step and every run keeps.
- `Leaks`, `Agreement`, `Lifecycle`, `Progress`, `Draining`, `Endings`, `Drift`, `Convergence`, `Independence`,
  `Aliasing`, `Deletion`, `Views`: the main results.
- `Simulation`: the controller of `Controller` takes the pass steps of `Machine`.
- `Shortfalls`: runs from the start that end short of what the comments promise.
- `Headers`: the header overlay and the admin token.

Objects are identified by the string `namespace/name`. The API server admits only DNS labels as
namespaces (section 2.1 of RFC 1123), so `Views.KeyInjective` makes this the same as identifying them by
the pair.

## Where code and comments disagree

The model follows the code. Each item names the exact condition under which the code does what the comment
says, and a run from the start that shows it failing.

- A comment says an object without the class is removed from the configuration
  (`internal/controllers/developer/kongfile_controller.go:80-82`). A pass on it does nothing, unless the object
  has expired; its entry and its file go exactly as `Deletion.OtherClassIsLeftAlone` says, and until it expires
  its published file stays: `Drift.PortalHoldsPublished`. Runs:
  `Shortfalls.EditsAreNotPublished`, with annotations that leave the class.
- A comment says the requeue makes sure the removal was successful
  (`internal/controllers/developer/kongfile_controller.go:139-140`). The cache entry goes before the DELETE,
  so the next pass knows no path: `Deletion.RemovedIffDeleteCarriedOut`. Runs:
  `Shortfalls.FailedDeleteIsNotRetried`.
- A log line speaks of an object missing from the configuration
  (`internal/controllers/developer/kongfile_controller.go:88`). What is looked at is the validated flag, so a
  spec edited after validation is not pushed: `Provenance.PutExactlyWhen`, `Timelines.PushedOnce`; what the portal
  holds instead is said by `Drift.PortalHoldsPublished`. Runs: `Shortfalls.EditsAreNotPublished`.
- The update filter reads as a class test (`internal/controllers/utils/utils.go:36-44`) but always passes:
  `ClassMatching.FilterExactly`. Together with the order of the tests this lets an object of another class
  delete a file: `Deletion.DeleteExactlyWhen`. Runs: `Shortfalls.OtherClassLosesForeignFile`.

## Model

| member | source | states |
|---|---|---|
| `Lifecycle.NoOrphans` | internal/controllers/developer/kongfile_controller.go:40-114 | For every run with one spec and class side per key, different paths for different keys, DELETEs that reach the portal, no restart and no outside writer: in a quiet state a path was last written by the controller iff it is the path of a live, matching, validated object; that file has the rendered contents; every other file was there from the start; no live matching object is left unvalidated. PUTs, reads, GETs and status updates may fail in any way |
| `Lifecycle.LifecycleRun` | internal/controllers/developer/kongfile_controller.go:40-114 | Under the same conditions, at every moment of the run nothing is leaked, and every key that still needs work is queued |
| `Lifecycle.ServedPassPublishes` | internal/controllers/developer/kongfile_controller.go:86-113 | A pass whose calls are all served, on a current unvalidated object, writes its file, has the same object stored as validated, caches exactly that stored version and is done |
| `Progress.WorkIsBounded` | internal/controllers/developer/kongfile_controller.go:40-114 | In any run of deliveries and served passes, in any order and of any length, up to some time: a key whose current version has not expired by then, and is of a known kind if it is to be pushed, takes no more productive steps (deliveries, and passes while its current version is shown) than it had work left, which is its lag and at most three more |
| `Progress.ServedRunsEndQuiet` | internal/controllers/developer/kongfile_controller.go:40-114 | If that holds of every key, such a run is quiet once each key has had as many productive steps as it had work left, and at any moment it is not quiet iff some productive step is possible |
| `Draining.QuietIsReachedIff` | internal/controllers/developer/kongfile_controller.go:40-114 | From any state with legal timelines (each reachable one has them) deliveries and served passes can bring everything to rest without waiting iff no key is stuck: its current version is expired, or to be pushed and of an unknown kind, and it is queued, or not yet shown and either of the class or with no moment without an object before it |
| `Endings.EndsWithoutOrphans` | internal/controllers/developer/kongfile_controller.go:40-114 | Under the conditions of `Lifecycle.NoOrphans` on the run so far, if no key is stuck, some served continuation ends quiet with the written files being exactly those of the live objects, all validated |
| `Endings.EveryServedRunEndsWithoutOrphans` | internal/controllers/developer/kongfile_controller.go:40-114 | Under those conditions, if no current version is blocked up to some time, every served continuation up to then that has done the bounded work of each key ends like that |
| `Drift.PublishedIsFiled` | internal/controllers/developer/kongfile_controller.go:47-113 | At every moment of every run without an outside writer and with different paths for different keys: the spec with which a settled object was first validated is in the portal, or the object expired and, if it is of the class, its key is queued; what is cached for it has that spec. Edits of spec and class, restarts, stale reads and failed calls of every kind allowed |
| `Drift.PortalHoldsPublished` | internal/controllers/developer/kongfile_controller.go:86-113 | When such a run is quiet, the portal holds each live, validated object as it was when validated, unless the object has left the class and expired; and then it holds the object as it is now exactly when both are rendered alike (when an edit changed the path, unless a leaked or an initial file is at the new path) |
| `Leaks.LeakIffCause` | internal/dataplane/proxy/cached_proxy_resolver.go:105-132 | In any step from any state with legal timelines, a path becomes leaked iff the step is one of: a DELETE not carried out, a timestamp-branch DELETE aimed at another path, a push of the same key to another path, a restart; judged from the state before and the answers alone |
| `Leaks.EveryLeakHasACause` | internal/dataplane/proxy/cached_proxy_resolver.go:105-132 | With no assumption on the steps, each leaked path of each run has a step with one of the four causes since which it has been leaked |
| `Agreement.CachedIsInPortalOrQueued` | internal/controllers/developer/kongfile_controller.go:47-113 | At every moment of every run without an outside writer, with different paths for different keys and no class edits, a cached object is in the portal as rendered or its key is queued; spec edits, restarts, stale reads and all failures allowed |
| `Agreement.AgreesStep` | internal/controllers/developer/kongfile_controller.go:47-113 | Every step keeps that agreement together with the clause on settled objects that makes it inductive |
| `Convergence.PortalAfterAnyPasses` | internal/controllers/developer/kongfile_controller.go:81-113 | For a fixed object set, in which objects of other classes, validated objects and objects of unknown kinds may be, after any sequence of passes, deliveries and resyncs the portal is the initial one overridden by the images of exactly the unvalidated objects of the class and of known kinds that had a PUT carried out, answered or not |
| `Convergence.ConvergesToImages` | internal/controllers/developer/kongfile_controller.go:81-113 | Once each of those objects has had a PUT carried out, the portal is the initial one overridden by exactly all their images |
| `Provenance.ValidationIsPush` | internal/controllers/developer/kongfile_controller.go:86-111 | A step that makes a version the first validated one of its object is a pass of that key on the version before, the current one; it sends nothing but one served PUT of the file built from that very spec, and the file is then in the portal |
| `Provenance.ValidatedMeansPushed` | internal/controllers/developer/kongfile_controller.go:86-111 | In every run, each first validated version of an object has its own step of that kind |
| `Timelines.PushedOnce` | internal/controllers/developer/kongfile_controller.go:86-111 | From any state with legal timelines (each reachable one is) in which a pass would read an object as validated: after any further steps, no pass that reads the same object sends a PUT |
| `Timelines.AcceptedMeansCurrent` | internal/controllers/developer/kongfile_controller.go:105-110 | A stored status update implies that the pass had read the current version |
| `Timelines.LegalRun` | internal/controllers/developer/kongfile_controller.go:40-114 | In every run each version follows lawfully from the one before, and every version ever marked validated had its predecessor shown to the controller |
| `Provenance.EverythingIsSourced` | internal/controllers/developer/kongfile_controller.go:81-93 | In every run each file credited to the controller is the rendering of a version shown with exactly its class and a known kind, and each cache entry is, up to status, a shown version of its own key and exactly that class |
| `Provenance.EveryPutIsSourced` | internal/controllers/developer/kongfile_controller.go:81-93 | Every PUT in the log of a key is the rendering of a version of that key that was shown unvalidated, with exactly the class and a known kind |
| `Provenance.PutExactlyWhen` | internal/controllers/developer/kongfile_controller.go:81-93 | A pass sends a PUT iff the object can be read, is of the class, unvalidated, of a known kind and not past its deletion timestamp; and every PUT is of the file rendered from the spec shown |
| `Outcomes.ResultExactly` | internal/controllers/developer/kongfile_controller.go:40-147 | Exactly which result a pass has: it asks for a requeue iff it sent a DELETE that was answered; it is done iff the object could be read and was gone and uncached, or not yet due for deletion and of another class or validated, or pushed with the PUT answered and its status stored and answered; in every other case it fails |
| `Outcomes.StoredExactly` | internal/controllers/developer/kongfile_controller.go:97-110 | A pass stores a status iff its PUT was answered, the update was carried out and the version read has the number of the current one; what it stores is the current version, validated and with the next number |
| `Outcomes.TimestampDecides` | internal/controllers/developer/kongfile_controller.go:64-78 | Up to and including the moment of its deletion timestamp an object is handled as if it had none: same result, requests and effects. After that moment a pass sends no PUT and is never done |
| `Outcomes.GetExactlyWhen` | internal/controllers/developer/kongfile_controller.go:64-67 | A pass asks for a file iff the object is shown with a deletion timestamp in the past and is of a known kind |
| `Outcomes.RequestsInOrder` | internal/controllers/developer/kongfile_controller.go:40-147 | A pass sends nothing, one request, or a GET and then a DELETE of the same path |
| `Deletion.DeleteExactlyWhen` | internal/controllers/developer/kongfile_controller.go:47-78 | A pass sends a DELETE for a path iff the object can be read and is gone while cached with that path, or has expired and its file was found there; the kind must be known, the class and the author of the file play no part |
| `Deletion.FileGoneIff` | internal/dataplane/proxy/cached_proxy_resolver.go:120-132 | In any step from any state with legal timelines a file leaves the portal iff an outsider takes it or a pass is to delete it and its DELETE is carried out |
| `Deletion.FileAfterStep` | internal/dataplane/proxy/cached_proxy_resolver.go:105-132 | What any step from any state with legal timelines leaves at any path of the portal: what an outsider wrote, nothing after an outsider or a carried-out DELETE took it, the rendering of the spec shown after a carried-out PUT, and otherwise what was there |
| `Provenance.OnlyCreditedWritesRun` | internal/dataplane/proxy/cached_proxy_resolver.go:105-132 | If outsiders write nothing, though they may delete, the portal holds nothing but credited files and files from the start |
| `Aliasing.SharingIsHarmless` | internal/controllers/developer/kongfile_controller.go:93-106 | Over every run the controller that caches the object it mutates and one that caches a copy send the same requests and leave API, portal and queue the same; caches differ in status and resource version only |
| `Aliasing.ReconcileBlind` | internal/dataplane/proxy/cached_proxy_resolver.go:154-161 | No branch, request or result of a pass depends on the status or resource version of a cached object |
| `Aliasing.CleanUpDeletesLastPut` | internal/dataplane/proxy/cached_proxy_resolver.go:112-127 | In every reachable state the clean-up of a cached object of a known kind sends one DELETE, for the path of the latest PUT of its key |
| `Independence.PassesCommute` | internal/dataplane/proxy/cached_proxy_resolver.go:105-132 | Two passes on different keys with disjoint current and cached paths, where an object of an unknown kind has none, commute: same stores, results and requests in either order |
| `Independence.AnyOrderAgrees` | internal/dataplane/proxy/cached_proxy_resolver.go:105-132 | Any permutation of pairwise independent passes gives the same stores |
| `Independence.PassReadsItsOwn` | internal/controllers/developer/kongfile_controller.go:40-114 | On stores that agree on the timeline and the cache entry of its key and on the files at its paths, a pass has the same result and requests and leaves stores that agree there again |
| `Independence.PassWritesItsOwn` | internal/controllers/developer/kongfile_controller.go:40-114 | A pass changes no timeline and no entry of another key and no file at another path |
| `Deletion.TwoPassesSuffice` | internal/controllers/developer/kongfile_controller.go:126-147 | For a vanished object a readable pass ends the chain iff the key is not cached, and the next one always does, sending nothing, whatever the portal answered |
| `Deletion.RemovedIffDeleteCarriedOut` | internal/controllers/developer/kongfile_controller.go:133-145 | After that chain the file is gone iff it was not there or the first DELETE was carried out: the requeue does not retry it |
| `Deletion.ExpiringNeverDone` | internal/controllers/developer/kongfile_controller.go:64-78 | A pass on an object past its deletion timestamp never ends quietly |
| `Deletion.ExpiredStaysQueued` | internal/controllers/developer/kongfile_controller.go:64-78 | Over every run such a key, once queued, stays queued until the informer shows another version, without restarts or, if the object is of the class, with them |
| `Deletion.OtherClassIsLeftAlone` | internal/controllers/developer/kongfile_controller.go:80-84 | A readable pass on an object of another class does nothing at all iff the object has not expired; afterwards its entry is not cached iff it was not or an expired object's file was found, and its file is gone iff it was not there or it was found and the DELETE carried out; nothing else changes |
| `Deletion.UnknownKindsAreInert` | internal/kong/file_service.go:28-30 | In every run a key whose objects never have a known kind causes no request to the portal and is never marked validated |
| `Deletion.UnknownKindPass` | internal/kong/file_service.go:84-86 | A pass on such a key sends nothing, and fails when it would push |
| `Effects.PassEffect` | internal/dataplane/proxy/cached_proxy_resolver.go:105-132 | Every pass does to cache, portal, queue, API and credits exactly what its branch says, including when a status is stored, when the key leaves the queue and what a push leaves cached; in particular the cache changes even when the portal call fails |
| `Shortfalls.EditsAreNotPublished` | internal/controllers/developer/kongfile_controller.go:80-113 | For every class, name, spec of a known kind and initial portal, and every edit of spec or annotations after validation: a run from the start comes to rest with the old file in the portal and the object still cached |
| `Shortfalls.FailedDeleteIsNotRetried` | internal/controllers/developer/kongfile_controller.go:126-147 | For each of them, a run from the start comes to rest with the object gone, its file in the portal and leaked |
| `Shortfalls.OtherClassLosesForeignFile` | internal/controllers/developer/kongfile_controller.go:64-84 | For every object of another class, a run from the start in which its expiry deletes a file the controller never wrote |
| `Strings.IsEmptyString` | internal/kong/file_service.go:28-30 | Trimming leaves nothing iff the string holds nothing but white space |
| `Strings.EmptyMeansWhiteSpace` | internal/kong/file_service.go:28-30 | A string counts as empty iff all its characters are among the 25 Unicode white space characters, listed by name |
| `KongFiles.BlankPathIffUnknownKind` | internal/dataplane/proxy/cached_proxy_resolver.go:247-268 | The blank-path guard fires on a rendered path iff the kind is none of the three |
| `KongFiles.PathCollision` | internal/dataplane/proxy/cached_proxy_resolver.go:247-263 | Exactly which two specs of known kinds share a path: same kind, and equal path and name or one slash of the longer name moved into the path |
| `KongFiles.PathInjective` | internal/dataplane/proxy/cached_proxy_resolver.go:247-263 | With slash-free names the path identifies kind, path and name |
| `KongFiles.FrontMatterRoundTrip` | internal/dataplane/proxy/cached_proxy_resolver.go:250-256 | Reading a rendered page back gives its title, layout and content iff title and layout are single lines |
| `KongFiles.FrontMatterCanCollide` | internal/dataplane/proxy/cached_proxy_resolver.go:250-256 | Two different pages with a newline in a field that are rendered alike |
| `KongFiles.PathReadsBack` | internal/dataplane/proxy/cached_proxy_resolver.go:247-263 | Kind, path and name of every spec of a known kind can be read off the directory and the last slash of its portal path iff the name is free of slashes |
| `KongFiles.FileReadsBack` | internal/dataplane/proxy/cached_proxy_resolver.go:247-268 | A rendered file of a known kind can be read back, with kind, path, name and content and for a page its title and layout, iff the name is free of slashes and, for a page, title and layout are single lines |
| `KongFiles.ContentsInFull` | internal/dataplane/proxy/cached_proxy_resolver.go:250-262 | Whatever is in its fields, a page is its header lines and then its content, every other file of a known kind is its content, and exactly the other kinds give neither path nor contents |
| `KongFiles.BuildInjective` | internal/dataplane/proxy/cached_proxy_resolver.go:247-268 | With slash-free names and single-line page headers, files of known kinds are alike iff they show the same fields |
| `KongFiles.KeyReadsBack` | internal/store/store.go:29-34 | A key splits at its first slash into namespace and name iff the namespace has none |
| `KongFiles.BuildInjectiveOnPages` | internal/dataplane/proxy/cached_proxy_resolver.go:250-256 | Pages with slash-free names and single-line title and layout are rendered alike iff all six fields agree |
| `Views.KeyInjective` | internal/store/store.go:29-34 | For slash-free namespaces the cache key identifies namespace and name |
| `Views.KeyCollision` | internal/store/store.go:29-34 | Exactly which pairs share a key when slashes are allowed |
| `Views.StoreRefinesPairs` | internal/store/store.go:76-153 | For slash-free namespaces every sequence of operations on a string-keyed map gives the same answers as on a map keyed by the pair |
| `Views.Carry` | internal/store/store.go:76-153 | Each operation of the store in memory gives the answer and leaves the contents that the map operation under the string key says |
| `Views.CarryAll` | internal/store/store.go:76-153 | A new store in memory answers every sequence of operations in slash-free namespaces like a map keyed by the pair |
| `Views.CollisionIsVisible` | internal/store/store.go:142-153 | An Add and a lookup tell the two stores apart iff they name different pairs with one key |
| `Views.SlashedNamespacesCollide` | internal/store/store.go:29-34 | Such a pair of names |
| `Views.FilterHidesNothing` | internal/store/store.go:156-171 | In every reachable cache each entry passes the class filter of the listing |
| `Views.ListBoth` | internal/store/store.go:156-189 | On a store that holds a reachable cache and has the controller's class, the two listings return the same objects, namely all cached ones |
| `Views.Store.GetKongFile` | internal/store/store.go:143-153 | The object cached under namespace/name, or not found |
| `Views.Store.ListKongFiles` | internal/store/store.go:156-171 | Each cached object whose class annotation is missing, empty or the store's class, once, and nothing else |
| `Views.Store.ListAllKongFiles` | internal/store/store.go:174-189 | Each cached object once |
| `Controller.CacheStores.Get` | internal/store/store.go:76-89 | The object under the key of the given one |
| `Controller.CacheStores.Add` | internal/store/store.go:93-106 | The entry of the object's key becomes that very object; the rest stays |
| `Controller.CacheStores.Update` | internal/store/store.go:110-123 | The entry of the object's key becomes that very object; the rest stays |
| `Controller.CacheStores.Delete` | internal/store/store.go:127-140 | The entry of the object's key goes; the rest stays |
| `Controller.KongFileReconciler.Reconcile` | internal/controllers/developer/kongfile_controller.go:40-114 | One pass over mutable stores and a shared object has the stores, result and requests of the pass function |
| `Simulation.TakePass` | internal/controllers/developer/kongfile_controller.go:40-114 | With the stores of any reachable state the controller over mutable objects takes the pass step of the run: same stores afterwards, the requests the run logs, and done iff the run takes the key off the queue |
| `Simulation.ReachableApiIsValid` | internal/controllers/developer/kongfile_controller.go:105-110 | In every reachable state each version is kept under its own key, as the API server methods require |
| `Controller.KongFileReconciler.ReconcileObject` | internal/controllers/developer/kongfile_controller.go:64-113 | The same for the part of a pass after the read: expired objects first, then the class, then the validated flag |
| `Controller.KongFileReconciler.ValidateObject` | internal/controllers/developer/kongfile_controller.go:97-110 | Setting the status in place changes the cached object with it; a served update decodes the stored version into it |
| `Controller.KongFileReconciler.PushObject` | internal/controllers/developer/kongfile_controller.go:86-111 | The push branch over mutable stores |
| `Controller.KongFileReconciler.ExpireObject` | internal/controllers/developer/kongfile_controller.go:64-78 | The deletion-timestamp branch over mutable stores |
| `Controller.KongFileReconciler.EnsureProxyDeleteObject` | internal/controllers/developer/kongfile_controller.go:126-147 | The clean-up over mutable stores: deletes the cached object, not the one asked for |
| `Controller.CachedProxyResolver.UpdateObject` | internal/dataplane/proxy/cached_proxy_resolver.go:105-118 | Caches the object by reference, then tries the PUT; the cache keeps it whatever the PUT does |
| `Controller.CachedProxyResolver.DeleteObject` | internal/dataplane/proxy/cached_proxy_resolver.go:120-132 | Drops the entry, then tries the DELETE; the entry is gone whatever the DELETE does |
| `Controller.CachedProxyResolver.ObjectExists` | internal/dataplane/proxy/cached_proxy_resolver.go:134-152 | Answers found or error, never absent |
| `Controller.CachedProxyResolver.ObjectExistsInCache` | internal/dataplane/proxy/cached_proxy_resolver.go:154-161 | The cached object under the key of the given one |
| `Controller.FileService.Get` | internal/kong/file_service.go:61-79 | No request for a blank path; a missing file is an error |
| `Controller.FileService.Update` | internal/kong/file_service.go:82-100 | No request for a blank path; otherwise one PUT, which replaces the file unless refused |
| `Controller.FileService.Delete` | internal/kong/file_service.go:103-117 | No request for a blank path; otherwise one DELETE, which removes the file unless refused |
| `Controller.ApiServer.Get` | internal/controllers/developer/kongfile_controller.go:46-62 | Fills the object with the informer's version, or reports not found or unavailable and leaves it alone |
| `Controller.ApiServer.UpdateStatus` | internal/controllers/developer/kongfile_controller.go:105-110 | Stores the status iff the object's resource version is the current one |
| `ClassMatching.FilterExactly` | internal/controllers/utils/utils.go:26-46 | The event filter as installed holds back only creations and deletions of objects of another class; updates always pass |
| `ClassMatching.FilterByAnnotation` | internal/controllers/utils/utils.go:26-46 | For every way of installing it the filter lets all updates through, and a creation or deletion iff the spec check is on, or the annotation check is on and the annotation `developer.konghq.com/controller.class` has the class as value |
| `Outcomes.QueuedWhenShown` | internal/controllers/utils/utils.go:26-46 | A move of the informer queues its key for every change of a shown object whatever the class, and for an appearance or a disappearance iff the object has the class annotation; it queues no other key and takes none off |
| `Outcomes.QueuedByResync` | internal/controllers/utils/utils.go:39-46 | A resync queues its key whatever the class |
| `Outcomes.QueuedByRestart` | internal/controllers/utils/utils.go:26-38 | After a restart nothing is cached and exactly the keys of the objects shown with the class annotation are queued |
| `ClassMatching.AnnotationDecides` | internal/controllers/utils/utils.go:15-23 | The class test asks for exactly the class as value of the annotation `developer.konghq.com/controller.class`, and for nothing else |
| `Shortfalls.PublishPublishes` | internal/controllers/developer/kongfile_controller.go:86-113 | For every class, name, spec of a known kind and initial portal: a run from the start in which an object with exactly that annotation is queued when shown, published by a served pass, stored as validated and then left alone |
| `ClassMatching.ValidatorAgainstExactMatch` | internal/annotations/annotations.go:39-65 | What the lenient, the exact and the indifferent class tests of the store accept, by the value of the annotation `developer.konghq.com/controller.class` and the controller's own test |
| `Headers.LastEntryWins` | internal/adminapi/header_round_tripper.go:23-28 | In the headers sent, the last configured entry with that name before its first colon decides; a header no such entry names stays as it was |
| `Headers.EntrySets` | internal/adminapi/header_round_tripper.go:23-28 | An entry whose name has no colon sets the header of that name to the rest of the entry, whatever came before; an entry without a colon sets nothing |
| `Headers.HeaderRoundTripper.RoundTrip` | internal/adminapi/header_round_tripper.go:16-30 | The request handed on has new header map and slices, with the given values overlaid by the entries; the given request is not modified |
| `Headers.HeaderRoundTripper.CopyHeader` | internal/adminapi/header_round_tripper.go:19-22 | A copy of the header map that shares no slice |
| `Headers.HeaderRoundTripper.OverlayHeaders` | internal/adminapi/header_round_tripper.go:23-28 | The entries overlaid in list order, in new slices |
| `Headers.Config.GetKongClient` | internal/manager/config.go:158-168 | Each call appends the entry `kong-admin-token:` and the token once more if a token is configured |
| `Headers.TokenDominates` | internal/manager/config.go:158-161 | However often the entry was appended, the headers sent are those of one time: exactly the token under `kong-admin-token` and all else as without it |
| `Headers.AskAndSend` | internal/manager/config.go:158-168 | Asking for a client any number of times and sending a request with the last one sends exactly the token under `kong-admin-token`, if one is configured, and all else as without it |

## Left out

- HTTP, JSON and TLS: the portal is a map with fallible PUT, GET and DELETE; a 404 on GET is an error.
- controller-runtime and client-go: only key-sequential passes, retry on error or requeue, monotone reads,
  resyncs and conflict-checked status updates are modelled; back-off times are not.
- Interleaving inside one pass: a pass is one step, with the version it reads, the clock and the fate of each
  call chosen freely, so a conflicting edit shows as a stale read; an outsider acting between the GET and the
  DELETE of one pass is not modelled.
- Locking of the store: passes are sequential, so the lock is not modelled.
- `Controller.FileService.Get`, `Controller.FileService.Update`, `Controller.FileService.Delete`: paths are put into
  the request URL unescaped (`internal/kong/file_service.go:67`, `:88`, `:109`), so paths that differ only after a
  `?` or a `#` reach one file of the server. The portal of the model keeps such paths apart.
- Nil pointers inside a file: rendering always sets path and contents.
- Objects of other types than KongFile: the type switches never see one.
- `FileService.Create`: not reached by the controller.
- Workspace set-up, admission, diagnostics, metrics, logging, flags and start-up checks: plumbing around the
  protocol.
- Order of a listing: the order in which a cache is walked is arbitrary, so each listing is described by
  which entries it holds, each once.
