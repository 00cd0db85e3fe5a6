/** One pass as seen from outside: its result, its requests, and the moment a deletion timestamp begins to
    matter. */
module Outcomes {
  import opened Wrappers
  import opened KongFiles
  import opened ClassMatching
  import opened Protocol
  import opened Machine

  // ---------------------------------------------------------------- requests

  /** A pass sends nothing, or one request, or a GET and then a DELETE of the same path. */
  predicate InOrder(requests: seq<Request>) {
    |requests| <= 1 ||
    (|requests| == 2 && requests[0].GetFile? && requests[1].DeleteFile? && requests[0].path == requests[1].path)
  }

  lemma RequestsInOrder(cls: string, site: Site, key: string, env: Env)
    ensures InOrder(Reconcile(cls, site, key, env).requests)
  {
  }

  /** A pass asks for a file exactly when the object is shown with a deletion timestamp in the past and is of a
      known kind. */
  lemma GetExactlyWhen(cls: string, site: Site, key: string, env: Env, path: string)
    ensures GetFile(path) in Reconcile(cls, site, key, env).requests <==>
            env.readable && Seen(site.api, key).Some? &&
            var obj := Seen(site.api, key).value;
            obj.meta.deletionTimestamp.Some? && env.now > obj.meta.deletionTimestamp.value &&
            obj.spec.kind in {"CONTENT", "ASSET", "SPECIFICATION"} && path == Build(obj.spec).path
  {
    if Seen(site.api, key).Some? {
      BlankPathIffUnknownKind(Seen(site.api, key).value.spec);
      var requests := Reconcile(cls, site, key, env).requests;
      assert |requests| > 0 ==> requests[0] in requests;
    }
  }

  // ---------------------------------------------------------------- results

  /** A push that went through: its PUT was answered, its status was stored, and that was answered too. */
  predicate WentThrough(obj: KongFile, before: Site, out: Outcome, env: Env) {
    PutFile(Build(obj.spec), Served) in out.requests && out.site.api != before.api && env.status.Served?
  }

  /** Nothing is to be done for the object: its deletion is not due, and it is of another class or validated. */
  predicate NothingToDo(obj: KongFile, cls: string, now: nat) {
    (obj.meta.deletionTimestamp.None? || now <= obj.meta.deletionTimestamp.value) &&
    (ClassOf(obj) != Some(cls) || obj.status.validated)
  }

  /** A DELETE was sent and answered. */
  predicate Answered(requests: seq<Request>) {
    exists request :: request in requests && request.DeleteFile? && request.answer.Served?
  }

  lemma DeleteResult(site: Site, key: string, obj: KongFile, answer: Answer)
    ensures var out := DeleteObject(site, key, obj, answer);
            !out.result.Done? && (out.result.Requeue? <==> Answered(out.requests))
  {
    var out := DeleteObject(site, key, obj, answer);
    if out.result.Requeue? {
      assert out.requests[0] == DeleteFile(Build(obj.spec).path, Served);
    }
  }

  lemma ExpireResult(site: Site, key: string, obj: KongFile, env: Env)
    ensures var out := Expire(site, key, obj, env);
            !out.result.Done? && (out.result.Requeue? <==> Answered(out.requests))
  {
    var out, deleted := Expire(site, key, obj, env), DeleteObject(site, key, obj, env.delete);
    DeleteResult(site, key, obj, env.delete);
    if out.result.Requeue? {
      assert out.requests[1] == DeleteFile(Build(obj.spec).path, Served);
    }
  }

  lemma PushResult(site: Site, key: string, obj: KongFile, env: Env)
    ensures var out := Push(site, key, obj, env);
            !out.result.Requeue? && !Answered(out.requests) &&
            (out.result.Done? <==> WentThrough(obj, site, out, env))
  {
    var out := Push(site, key, obj, env);
    var pushed := UpdateObject(site, key, obj, env.put);
    if !pushed.result.Failed? {
      assert out.requests[0] == PutFile(Build(obj.spec), Served);
      StoredIsSeen(pushed.site, key, obj, env.status);
    }
  }

  /** A status update that is accepted can be seen at the API server. */
  lemma StoredIsSeen(site: Site, key: string, obj: KongFile, answer: Answer)
    ensures FinishPush(site, key, obj, answer).0.api != site.api <==> StatusAccepted(site.api, key, obj, answer)
  {
    var api' := FinishPush(site, key, obj, answer).0.api;
    if StatusAccepted(site.api, key, obj, answer) {
      assert |TimelineOf(api', key).versions| == |TimelineOf(site.api, key).versions| + 1;
    }
  }

  /** Exactly which result a pass has: it asks to be run again when its DELETE was answered, it is done when
      there was nothing to do or its push went through, and it fails in every other case. */
  lemma ResultExactly(cls: string, site: Site, key: string, env: Env)
    ensures var out, seen := Reconcile(cls, site, key, env), Seen(site.api, key);
            (out.result.Requeue? <==> Answered(out.requests)) &&
            (out.result.Done? <==>
               env.readable &&
               if seen.None? then key !in site.cache
               else NothingToDo(seen.value, cls, env.now) || WentThrough(seen.value, site, out, env))
  {
    match BranchOf(cls, site.api, key, env)
    case Absent =>
      if key in site.cache {
        DeleteResult(site, key, site.cache[key], env.delete);
      }
    case Expiring(obj) => ExpireResult(site, key, obj, env);
    case Pushing(obj) => PushResult(site, key, obj, env);
    case _ =>
  }

  /** Exactly when a pass stores a status, and what it stores: its PUT was answered, the update was carried out,
      answered or not, and the version read has the number of the current one; then the current version is
      stored once more, validated and with the next number. */
  lemma StoredExactly(cls: string, site: Site, key: string, env: Env)
    ensures var out, t := Reconcile(cls, site, key, env), TimelineOf(site.api, key);
            var seen, current := Seen(site.api, key), Current(site.api, key);
            TimelineOf(out.site.api, key) ==
            if seen.Some? && PutFile(Build(seen.value.spec), Served) in out.requests && !env.status.Refused? &&
               current.Some? && current.value.meta.resourceVersion == seen.value.meta.resourceVersion
            then
              t.(versions := t.versions + [Some(current.value.(
                   status := KongFileStatus(true), meta := current.value.meta.(resourceVersion := |t.versions|)))])
            else t
  {
    match BranchOf(cls, site.api, key, env)
    case Pushing(obj) =>
      if !UpdateObject(site, key, obj, env.put).result.Failed? {
        assert Reconcile(cls, site, key, env).requests[0] == PutFile(Build(obj.spec), Served);
      }
    case _ =>
  }

  // ---------------------------------------------------------------- the queue

  /** Which keys a move of the informer queues: every change of a shown object and every resync, whatever the
      class; an appearance or a disappearance by the class annotation of the object. */
  lemma QueuedWhenShown(cls: string, s: State, step: Step, key: string)
    requires step.Deliver? && Enabled(s, step)
    ensures var shown, next := Seen(s.site.api, step.key), Seen(Next(cls, s, step).site.api, step.key);
            key in Next(cls, s, step).queue <==>
            key in s.queue ||
            (key == step.key && match (shown, next)
                                case (None, None) => false
                                case (Some(_), Some(_)) => true
                                case (None, Some(obj)) => ClassOf(obj) == Some(cls)
                                case (Some(obj), None) => ClassOf(obj) == Some(cls))
  {
  }

  lemma QueuedByResync(cls: string, s: State, step: Step)
    requires step.Resync? && Enabled(s, step)
    ensures Next(cls, s, step) == s.(queue := s.queue + {step.key})
  {
  }

  /** After a restart, with nothing cached, exactly the keys of the objects shown with the class are queued. */
  lemma QueuedByRestart(cls: string, s: State, step: Step, key: string)
    requires step.Restart? && Enabled(s, step)
    ensures var s' := Next(cls, s, step);
            s'.site.cache == map[] &&
            (key in s'.queue <==> Seen(s'.site.api, key).Some? && ClassOf(Seen(s'.site.api, key).value) == Some(cls))
  {
  }

  // ---------------------------------------------------------------- deletion timestamps

  function Undated(version: Option<KongFile>): Option<KongFile> {
    if version.None? then None
    else Some(version.value.(meta := version.value.meta.(deletionTimestamp := None)))
  }

  predicate TimelinesAlike(t: Timeline, u: Timeline) {
    t.seen == u.seen && |t.versions| == |u.versions| &&
    forall i :: 0 <= i < |t.versions| ==> Undated(t.versions[i]) == Undated(u.versions[i])
  }

  /** The same stores but for deletion timestamps of the key's own object. */
  ghost predicate SameButDates(a: Site, b: Site, key: string) {
    a.kong == b.kong &&
    TimelinesAlike(TimelineOf(a.api, key), TimelineOf(b.api, key)) &&
    Undated(Lookup(a.cache, key)) == Undated(Lookup(b.cache, key)) &&
    forall k :: k != key ==> Lookup(a.api, k) == Lookup(b.api, k) && Lookup(a.cache, k) == Lookup(b.cache, k)
  }

  /** The site as it would be had the object shown no deletion timestamp. */
  function ShownUndated(site: Site, key: string): Site {
    var t := TimelineOf(site.api, key);
    if key !in site.api then site
    else site.(api := site.api[key := t.(versions := t.versions[t.seen := Undated(t.versions[t.seen])])])
  }

  lemma UpdateButDates(a: Site, b: Site, key: string, x: KongFile, y: KongFile, answer: Answer)
    requires SameButDates(a, b, key) && Undated(Some(x)) == Undated(Some(y))
    ensures var out, out' := UpdateObject(a, key, x, answer), UpdateObject(b, key, y, answer);
            out.result == out'.result && out.requests == out'.requests && SameButDates(out.site, out'.site, key)
  {
  }

  lemma AcceptedButDates(a: Api, b: Api, key: string, x: KongFile, y: KongFile, answer: Answer)
    requires TimelinesAlike(TimelineOf(a, key), TimelineOf(b, key)) && Undated(Some(x)) == Undated(Some(y))
    ensures StatusAccepted(a, key, x, answer) <==> StatusAccepted(b, key, y, answer)
    ensures StatusAccepted(a, key, x, answer) ==>
              Undated(Some(NextVersion(a, key, x.status))) == Undated(Some(NextVersion(b, key, y.status)))
  {
    var t, u := TimelineOf(a, key), TimelineOf(b, key);
    assert Undated(t.versions[|t.versions| - 1]) == Undated(u.versions[|u.versions| - 1]);
  }

  lemma AppendButDates(t: Timeline, u: Timeline, v: Option<KongFile>, w: Option<KongFile>)
    requires Sound(t) && Sound(u) && TimelinesAlike(t, u) && Undated(v) == Undated(w)
    ensures TimelinesAlike(Append(t, v), Append(u, w))
  {
  }

  lemma FinishButDates(a: Site, b: Site, key: string, x: KongFile, y: KongFile, answer: Answer)
    requires SameButDates(a, b, key) && Undated(Some(x)) == Undated(Some(y))
    ensures var out, out' := FinishPush(a, key, x, answer), FinishPush(b, key, y, answer);
            out.1 == out'.1 && SameButDates(out.0, out'.0, key)
  {
    var v, w := Validate(x), Validate(y);
    var out, out' := FinishPush(a, key, x, answer).0, FinishPush(b, key, y, answer).0;
    AcceptedButDates(a.api, b.api, key, v, w, answer);
    if StatusAccepted(a.api, key, v, answer) {
      AppendButDates(TimelineOf(a.api, key), TimelineOf(b.api, key),
                     Some(NextVersion(a.api, key, v.status)), Some(NextVersion(b.api, key, w.status)));
    }
    assert TimelinesAlike(TimelineOf(out.api, key), TimelineOf(out'.api, key));
    assert Undated(Lookup(out.cache, key)) == Undated(Lookup(out'.cache, key));
    forall k | k != key
      ensures Lookup(out.api, k) == Lookup(out'.api, k) && Lookup(out.cache, k) == Lookup(out'.cache, k)
    {
      assert Lookup(a.api, k) == Lookup(b.api, k) && Lookup(a.cache, k) == Lookup(b.cache, k);
      OnlyKeyFinished(a, key, x, answer, k);
      OnlyKeyFinished(b, key, y, answer, k);
    }
  }

  lemma OnlyKeyFinished(site: Site, key: string, obj: KongFile, answer: Answer, k: string)
    requires k != key
    ensures var out := FinishPush(site, key, obj, answer).0;
            Lookup(out.api, k) == Lookup(site.api, k) && Lookup(out.cache, k) == Lookup(site.cache, k)
  {
  }

  lemma PushButDates(a: Site, b: Site, key: string, x: KongFile, y: KongFile, env: Env)
    requires SameButDates(a, b, key) && Undated(Some(x)) == Undated(Some(y))
    ensures var out, out' := Push(a, key, x, env), Push(b, key, y, env);
            out.result == out'.result && out.requests == out'.requests && SameButDates(out.site, out'.site, key)
  {
    UpdateButDates(a, b, key, x, y, env.put);
    FinishButDates(UpdateObject(a, key, x, env.put).site, UpdateObject(b, key, y, env.put).site,
                   key, x, y, env.status);
  }

  lemma ShownUndatedIsSame(site: Site, key: string)
    requires Seen(site.api, key).Some?
    ensures Seen(ShownUndated(site, key).api, key) == Undated(Seen(site.api, key))
    ensures SameButDates(site, ShownUndated(site, key), key)
  {
  }

  lemma BranchButDates(cls: string, site: Site, key: string, env: Env, at: nat)
    requires Seen(site.api, key).Some? && Seen(site.api, key).value.meta.deletionTimestamp == Some(at)
    requires env.now <= at
    ensures var branch := BranchOf(cls, site.api, key, env);
            var branch' := BranchOf(cls, ShownUndated(site, key).api, key, env);
            var obj := Seen(site.api, key).value;
            var obj' := Undated(Some(obj)).value;
            (branch == branch' == Unread) || (branch == Idle(obj) && branch' == Idle(obj')) ||
            (branch == Pushing(obj) && branch' == Pushing(obj'))
  {
    ShownUndatedIsSame(site, key);
  }

  /** A deletion timestamp changes nothing up to and including its own moment: the pass has the result, sends
      the requests and has the effects it would have without one. After that moment it sends no PUT and is never
      done. */
  lemma TimestampDecides(cls: string, site: Site, key: string, env: Env, at: nat)
    requires Seen(site.api, key).Some? && Seen(site.api, key).value.meta.deletionTimestamp == Some(at)
    ensures var out, out' := Reconcile(cls, site, key, env), Reconcile(cls, ShownUndated(site, key), key, env);
            env.now <= at ==>
              out.result == out'.result && out.requests == out'.requests && SameButDates(out.site, out'.site, key)
    ensures var out := Reconcile(cls, site, key, env);
            env.now > at ==>
              !out.result.Done? && forall request :: request in out.requests ==> !request.PutFile?
  {
    if env.now <= at {
      var obj := Seen(site.api, key).value;
      ShownUndatedIsSame(site, key);
      BranchButDates(cls, site, key, env, at);
      PushButDates(site, ShownUndated(site, key), key, obj, Undated(Some(obj)).value, env);
    }
  }
}
