/** Passes on different keys with different paths commute, so their order does not matter. */
module Independence {
  import opened Wrappers
  import opened KongFiles
  import opened Protocol

  // ---------------------------------------------------------------- what a pass reads and writes

  function PathOfObject(obj: Option<KongFile>): set<string> {
    if obj.Some? && PathOf(obj.value.spec).Some? then {PathOf(obj.value.spec).value} else {}
  }

  /** The portal paths of a key: of the object shown and of the object cached. An object of an unknown kind
      has none. */
  function PathsOf(site: Site, key: string): set<string> {
    PathOfObject(Seen(site.api, key)) + PathOfObject(Lookup(site.cache, key))
  }

  /** The two sites agree on what belongs to the key. */
  predicate AgreeOn(a: Site, b: Site, key: string, paths: set<string>) {
    Lookup(a.api, key) == Lookup(b.api, key) && Lookup(a.cache, key) == Lookup(b.cache, key) &&
    forall path :: path in paths ==> Lookup(a.kong, path) == Lookup(b.kong, path)
  }

  /** The two sites agree on everything else. */
  ghost predicate AgreeOff(a: Site, b: Site, key: string, paths: set<string>) {
    (forall k :: k != key ==> Lookup(a.api, k) == Lookup(b.api, k) && Lookup(a.cache, k) == Lookup(b.cache, k)) &&
    forall path :: path !in paths ==> Lookup(a.kong, path) == Lookup(b.kong, path)
  }

  lemma PushWritesItsOwn(site: Site, key: string, obj: KongFile, env: Env, paths: set<string>)
    requires PathOfObject(Some(obj)) <= paths
    ensures AgreeOff(site, Push(site, key, obj, env).site, key, paths)
  {
    BlankPathIffUnknownKind(obj.spec);
    var written := UpdateObject(site, key, obj, env.put).site;
    assert AgreeOff(site, written, key, paths);
    assert AgreeOff(written, FinishPush(written, key, obj, env.status).0, key, paths);
  }

  lemma DeleteWritesItsOwn(site: Site, key: string, obj: KongFile, answer: Answer, paths: set<string>)
    requires PathOfObject(Some(obj)) <= paths
    ensures AgreeOff(site, DeleteObject(site, key, obj, answer).site, key, paths)
  {
    BlankPathIffUnknownKind(obj.spec);
  }

  /** A pass changes nothing but what belongs to its key. */
  lemma PassWritesItsOwn(cls: string, site: Site, key: string, env: Env)
    ensures AgreeOff(site, Reconcile(cls, site, key, env).site, key, PathsOf(site, key))
  {
    match BranchOf(cls, site.api, key, env)
    case Absent =>
      if key in site.cache {
        DeleteWritesItsOwn(site, key, site.cache[key], env.delete, PathsOf(site, key));
      }
    case Expiring(obj) => DeleteWritesItsOwn(site, key, obj, env.delete, PathsOf(site, key));
    case Pushing(obj) => PushWritesItsOwn(site, key, obj, env, PathsOf(site, key));
    case _ =>
  }

  lemma UpdateReadsItsOwn(a: Site, b: Site, key: string, obj: KongFile, answer: Answer, paths: set<string>)
    requires AgreeOn(a, b, key, paths)
    ensures var x, y := UpdateObject(a, key, obj, answer), UpdateObject(b, key, obj, answer);
            x.result == y.result && x.requests == y.requests && AgreeOn(x.site, y.site, key, paths)
  {
  }

  lemma FinishReadsItsOwn(a: Site, b: Site, key: string, obj: KongFile, answer: Answer, paths: set<string>)
    requires AgreeOn(a, b, key, paths)
    ensures var x, y := FinishPush(a, key, obj, answer), FinishPush(b, key, obj, answer);
            x.1 == y.1 && AgreeOn(x.0, y.0, key, paths)
  {
    assert TimelineOf(a.api, key) == TimelineOf(b.api, key);
  }

  lemma PushReadsItsOwn(a: Site, b: Site, key: string, obj: KongFile, env: Env, paths: set<string>)
    requires AgreeOn(a, b, key, paths)
    ensures var x, y := Push(a, key, obj, env), Push(b, key, obj, env);
            x.result == y.result && x.requests == y.requests && AgreeOn(x.site, y.site, key, paths)
  {
    UpdateReadsItsOwn(a, b, key, obj, env.put, paths);
    FinishReadsItsOwn(
      UpdateObject(a, key, obj, env.put).site, UpdateObject(b, key, obj, env.put).site, key, obj, env.status, paths);
  }

  lemma ExpireReadsItsOwn(a: Site, b: Site, key: string, obj: KongFile, env: Env, paths: set<string>)
    requires AgreeOn(a, b, key, paths) && PathOfObject(Some(obj)) <= paths
    ensures var x, y := Expire(a, key, obj, env), Expire(b, key, obj, env);
            x.result == y.result && x.requests == y.requests && AgreeOn(x.site, y.site, key, paths)
  {
    BlankPathIffUnknownKind(obj.spec);
    assert KnownKind(obj.spec) ==> Lookup(a.kong, Build(obj.spec).path) == Lookup(b.kong, Build(obj.spec).path);
  }

  lemma CleanUpReadsItsOwn(a: Site, b: Site, key: string, env: Env, paths: set<string>)
    requires AgreeOn(a, b, key, paths)
    ensures var x, y := CleanUp(a, key, env), CleanUp(b, key, env);
            x.result == y.result && x.requests == y.requests && AgreeOn(x.site, y.site, key, paths)
  {
  }

  lemma BranchReadsItsOwn(cls: string, a: Site, b: Site, key: string, env: Env, branch: Branch, paths: set<string>)
    requires AgreeOn(a, b, key, paths) && PathOfObject(Seen(a.api, key)) <= paths
    requires branch == BranchOf(cls, a.api, key, env) == BranchOf(cls, b.api, key, env)
    ensures var x, y := Reconcile(cls, a, key, env), Reconcile(cls, b, key, env);
            x.result == y.result && x.requests == y.requests && AgreeOn(x.site, y.site, key, paths)
  {
    match branch
    case Absent => CleanUpReadsItsOwn(a, b, key, env, paths);
    case Expiring(obj) => ExpireReadsItsOwn(a, b, key, obj, env, paths);
    case Pushing(obj) => PushReadsItsOwn(a, b, key, obj, env, paths);
    case _ =>
  }

  /** On sites that agree on what belongs to the key, whatever else they hold, a pass has the same result,
      sends the same requests, and leaves sites that agree on it again. */
  lemma PassReadsItsOwn(cls: string, a: Site, b: Site, key: string, env: Env)
    requires AgreeOn(a, b, key, PathsOf(a, key))
    ensures var x, y := Reconcile(cls, a, key, env), Reconcile(cls, b, key, env);
            x.result == y.result && x.requests == y.requests && AgreeOn(x.site, y.site, key, PathsOf(a, key))
  {
    assert TimelineOf(a.api, key) == TimelineOf(b.api, key);
    BranchReadsItsOwn(cls, a, b, key, env, BranchOf(cls, a.api, key, env), PathsOf(a, key));
  }

  // ---------------------------------------------------------------- independence

  predicate Independent(site: Site, k1: string, k2: string) {
    k1 != k2 && PathsOf(site, k1) !! PathsOf(site, k2)
  }

  /** A pass on an independent key leaves alone what belongs to a key. */
  lemma OthersKept(cls: string, site: Site, k1: string, env: Env, k2: string)
    requires Independent(site, k1, k2)
    ensures var site' := Reconcile(cls, site, k1, env).site;
            AgreeOn(site, site', k2, PathsOf(site, k2)) && PathsOf(site', k2) == PathsOf(site, k2)
  {
    PassWritesItsOwn(cls, site, k1, env);
  }

  /** Site `a` is `site` with both keys' parts changed, and so is `b`; they agree on both parts. */
  lemma SameParts(site: Site, a: Site, a': Site, b: Site, b': Site, k1: string, k2: string)
    requires AgreeOff(site, a, k1, PathsOf(site, k1)) && AgreeOff(a, a', k2, PathsOf(site, k2))
    requires AgreeOff(site, b, k2, PathsOf(site, k2)) && AgreeOff(b, b', k1, PathsOf(site, k1))
    requires Independent(site, k1, k2)
    requires AgreeOn(a, b', k1, PathsOf(site, k1)) && AgreeOn(b, a', k2, PathsOf(site, k2))
    ensures a' == b'
  {
    SameEverywhere(a'.api, b'.api);
    SameEverywhere(a'.cache, b'.cache);
    SameEverywhere(a'.kong, b'.kong);
  }

  /** Two independent passes, in either order and with the same outcomes of their calls, give the same
      stores, the same results and the same requests. */
  lemma PassesCommute(cls: string, site: Site, k1: string, e1: Env, k2: string, e2: Env)
    requires Independent(site, k1, k2)
    ensures var first1, first2 := Reconcile(cls, site, k1, e1), Reconcile(cls, site, k2, e2);
            var second1, second2 := Reconcile(cls, first2.site, k1, e1), Reconcile(cls, first1.site, k2, e2);
            second2.site == second1.site &&
            first1.result == second1.result && first1.requests == second1.requests &&
            first2.result == second2.result && first2.requests == second2.requests
  {
    var a, b := Reconcile(cls, site, k1, e1).site, Reconcile(cls, site, k2, e2).site;
    OthersKept(cls, site, k1, e1, k2);
    OthersKept(cls, site, k2, e2, k1);
    PassReadsItsOwn(cls, site, b, k1, e1);
    PassReadsItsOwn(cls, site, a, k2, e2);
    PassWritesItsOwn(cls, site, k1, e1);
    PassWritesItsOwn(cls, site, k2, e2);
    PassWritesItsOwn(cls, a, k2, e2);
    PassWritesItsOwn(cls, b, k1, e1);
    SameParts(site, a, Reconcile(cls, a, k2, e2).site, b, Reconcile(cls, b, k1, e1).site, k1, k2);
  }

  // ---------------------------------------------------------------- permutations

  datatype Call = Call(key: string, env: Env)

  function RunCalls(cls: string, site: Site, calls: seq<Call>): Site
    decreases |calls|
  {
    if calls == [] then site
    else RunCalls(cls, Reconcile(cls, site, calls[0].key, calls[0].env).site, calls[1..])
  }

  predicate PairwiseIndependent(site: Site, calls: seq<Call>) {
    forall i, j :: 0 <= i < j < |calls| ==> Independent(site, calls[i].key, calls[j].key)
  }

  lemma IndependenceKept(cls: string, site: Site, call: Call, rest: seq<Call>)
    requires PairwiseIndependent(site, [call] + rest)
    ensures PairwiseIndependent(Reconcile(cls, site, call.key, call.env).site, rest)
  {
    var calls := [call] + rest;
    var site' := Reconcile(cls, site, call.key, call.env).site;
    forall i | 0 <= i < |rest| ensures PathsOf(site', rest[i].key) == PathsOf(site, rest[i].key) {
      assert Independent(site, calls[0].key, calls[i + 1].key);
      OthersKept(cls, site, call.key, call.env, rest[i].key);
    }
    forall i, j | 0 <= i < j < |rest| ensures Independent(site', rest[i].key, rest[j].key) {
      assert Independent(site, calls[i + 1].key, calls[j + 1].key);
    }
  }

  lemma UnfoldOne(cls: string, site: Site, call: Call, rest: seq<Call>)
    ensures RunCalls(cls, site, [call] + rest) ==
            RunCalls(cls, Reconcile(cls, site, call.key, call.env).site, rest)
  {
    assert ([call] + rest)[1..] == rest;
  }

  lemma SwapFront(cls: string, site: Site, first: Call, second: Call, rest: seq<Call>)
    requires Independent(site, first.key, second.key)
    ensures RunCalls(cls, site, [first] + ([second] + rest)) == RunCalls(cls, site, [second] + ([first] + rest))
  {
    PassesCommute(cls, site, first.key, first.env, second.key, second.env);
    UnfoldOne(cls, site, first, [second] + rest);
    UnfoldOne(cls, Reconcile(cls, site, first.key, first.env).site, second, rest);
    UnfoldOne(cls, site, second, [first] + rest);
    UnfoldOne(cls, Reconcile(cls, site, second.key, second.env).site, first, rest);
  }

  lemma Regroup(head: Call, tail: seq<Call>, call: Call, after: seq<Call>)
    ensures ([head] + tail) + [call] + after == [head] + (tail + [call] + after)
    ensures [call] + ([head] + tail) + after == [call] + ([head] + (tail + after))
    ensures [call] + tail + after == [call] + (tail + after)
  {
  }

  /** A call may be moved to the front. */
  lemma {:induction false} MoveToFront(cls: string, site: Site, before: seq<Call>, call: Call, after: seq<Call>)
    requires PairwiseIndependent(site, before + [call] + after)
    ensures RunCalls(cls, site, before + [call] + after) == RunCalls(cls, site, [call] + before + after)
    decreases |before|
  {
    if before == [] {
      assert before + [call] + after == [call] + before + after;
    } else {
      var head, tail := before[0], before[1..];
      assert before == [head] + tail;
      Regroup(head, tail, call, after);
      IndependenceKept(cls, site, head, tail + [call] + after);
      MoveToFront(cls, Reconcile(cls, site, head.key, head.env).site, tail, call, after);
      UnfoldOne(cls, site, head, tail + [call] + after);
      UnfoldOne(cls, site, head, [call] + (tail + after));
      assert (before + [call] + after)[|before|] == call;
      assert Independent(site, (before + [call] + after)[0].key, (before + [call] + after)[|before|].key);
      SwapFront(cls, site, head, call, tail + after);
    }
  }

  lemma IndependenceOfPermutation(site: Site, calls: seq<Call>, before: seq<Call>, call: Call, after: seq<Call>)
    requires PairwiseIndependent(site, calls) && calls == before + [call] + after
    ensures PairwiseIndependent(site, [call] + (before + after))
  {
    var moved := [call] + (before + after);
    forall i, j | 0 <= i < j < |moved| ensures Independent(site, moved[i].key, moved[j].key) {
      var i' := if i == 0 then |before| else if i <= |before| then i - 1 else i;
      var j' := if j <= |before| then j - 1 else j;
      assert moved[i] == calls[i'] && moved[j] == calls[j'];
      if i' < j' {
        assert Independent(site, calls[i'].key, calls[j'].key);
      } else {
        assert Independent(site, calls[j'].key, calls[i'].key);
      }
    }
  }

  lemma Around(calls: seq<Call>, call: Call) returns (before: seq<Call>, after: seq<Call>)
    requires call in multiset(calls)
    ensures calls == before + [call] + after
  {
    var i :| 0 <= i < |calls| && calls[i] == call;
    before, after := calls[..i], calls[i + 1..];
  }

  lemma SameRest(call: Call, rest: seq<Call>, before: seq<Call>, after: seq<Call>)
    requires multiset([call] + rest) == multiset(before + [call] + after)
    ensures multiset(rest) == multiset(before + after)
  {
    assert multiset([call] + rest) == multiset{call} + multiset(rest);
    assert multiset(before + [call] + after) == multiset{call} + multiset(before + after);
    assert multiset(rest) == multiset{call} + multiset(rest) - multiset{call};
  }

  /** Any order of pairwise independent passes gives the same stores. */
  lemma {:induction false} AnyOrderAgrees(cls: string, site: Site, calls: seq<Call>, others: seq<Call>)
    requires PairwiseIndependent(site, others) && multiset(calls) == multiset(others)
    ensures RunCalls(cls, site, calls) == RunCalls(cls, site, others)
    decreases |calls|
  {
    if calls == [] {
      assert |multiset(others)| == 0;
    } else {
      var call, rest := calls[0], calls[1..];
      assert calls == [call] + rest;
      assert call in multiset(calls);
      var before, after := Around(others, call);
      MoveToFront(cls, site, before, call, after);
      IndependenceOfPermutation(site, others, before, call, after);
      IndependenceKept(cls, site, call, before + after);
      SameRest(call, rest, before, after);
      AnyOrderAgrees(cls, Reconcile(cls, site, call.key, call.env).site, rest, before + after);
      assert [call] + before + after == [call] + (before + after);
      UnfoldOne(cls, site, call, before + after);
      UnfoldOne(cls, site, call, rest);
    }
  }
}
