/** Conditions on what users did to the API, read off the final timelines of a run. */
module Histories {
  import opened Wrappers
  import opened KongFiles
  import opened ClassMatching
  import opened Protocol
  import opened Machine
  import opened Timelines
  import opened Provenance

  predicate HasVersion(api: Api, key: string, i: nat) {
    i < |TimelineOf(api, key).versions| && TimelineOf(api, key).versions[i].Some?
  }

  function Version(api: Api, key: string, i: nat): KongFile
    requires HasVersion(api, key, i)
  {
    TimelineOf(api, key).versions[i].value
  }

  /** Different keys never have the same portal path, over all their versions. */
  ghost predicate PathsApart(api: Api) {
    forall k1, k2, i, j | HasVersion(api, k1, i) && HasVersion(api, k2, j) && k1 != k2
      :: SpecsApart(Version(api, k1, i).spec, Version(api, k2, j).spec)
  }

  predicate SpecsApart(a: KongFileSpec, b: KongFileSpec) {
    KnownKind(a) && KnownKind(b) ==> Build(a).path != Build(b).path
  }

  /** No version of a key enters or leaves the controller's class. */
  ghost predicate ClassFixed(cls: string, api: Api) {
    forall key, i, j | HasVersion(api, key, i) && HasVersion(api, key, j)
      :: MatchesClass(Version(api, key, i), cls) <==> MatchesClass(Version(api, key, j), cls)
  }

  ghost predicate SpecFixed(api: Api) {
    forall key, i, j | HasVersion(api, key, i) && HasVersion(api, key, j)
      :: Version(api, key, i).spec == Version(api, key, j).spec
  }

  lemma VersionKept(api: Api, api': Api, key: string, i: nat)
    requires Grown(api, api') && HasVersion(api, key, i)
    ensures HasVersion(api', key, i) && Version(api', key, i) == Version(api, key, i)
  {
  }

  lemma EarlierHistory(cls: string, api: Api, api': Api)
    requires Grown(api, api')
    ensures PathsApart(api') ==> PathsApart(api)
    ensures ClassFixed(cls, api') ==> ClassFixed(cls, api)
    ensures SpecFixed(api') ==> SpecFixed(api)
  {
    forall key, i | HasVersion(api, key, i)
      ensures HasVersion(api', key, i) && Version(api', key, i) == Version(api, key, i)
    {
      VersionKept(api, api', key, i);
    }
  }

  // ---------------------------------------------------------------- versions behind objects

  /** The object is, up to its status, some version of the key. */
  predicate Stems(api: Api, key: string, obj: KongFile) {
    exists i | 0 <= i < |TimelineOf(api, key).versions| ::
      HasVersion(api, key, i) && SameButStatus(Version(api, key, i), obj)
  }

  lemma SeenStems(api: Api, key: string)
    requires Seen(api, key).Some?
    ensures Stems(api, key, Seen(api, key).value)
  {
    var i := TimelineOf(api, key).seen;
    assert HasVersion(api, key, i) && SameButStatus(Version(api, key, i), Seen(api, key).value);
  }

  lemma CachedStems(cls: string, s: State, key: string)
    requires Sourced(cls, s) && key in s.site.cache
    ensures Stems(s.site.api, key, s.site.cache[key]) && MatchesClass(s.site.cache[key], cls)
  {
    assert EntryHasSource(cls, s, key);
    var t := TimelineOf(s.site.api, key);
    var i :| 0 <= i <= t.seen && t.versions[i].Some? && SameButStatus(t.versions[i].value, s.site.cache[key]);
    assert HasVersion(s.site.api, key, i) && SameButStatus(Version(s.site.api, key, i), s.site.cache[key]);
  }

  lemma CreditedStems(cls: string, s: State, path: string)
    requires Sourced(cls, s) && path in s.authors
    ensures Stems(s.site.api, Key(s.authors[path]), s.authors[path])
  {
    assert FileHasSource(cls, s, path);
    var obj := s.authors[path];
    var t := TimelineOf(s.site.api, Key(obj));
    var i :| 0 <= i <= t.seen && t.versions[i] == Some(obj);
    assert HasVersion(s.site.api, Key(obj), i) && SameButStatus(Version(s.site.api, Key(obj), i), obj);
  }

  lemma StemsApart(api: Api, k1: string, obj1: KongFile, k2: string, obj2: KongFile)
    requires PathsApart(api) && k1 != k2 && Stems(api, k1, obj1) && Stems(api, k2, obj2)
    ensures SpecsApart(obj1.spec, obj2.spec)
  {
    var i :| HasVersion(api, k1, i) && SameButStatus(Version(api, k1, i), obj1);
    var j :| HasVersion(api, k2, j) && SameButStatus(Version(api, k2, j), obj2);
    assert SpecsApart(Version(api, k1, i).spec, Version(api, k2, j).spec);
  }

  lemma StemsAlike(cls: string, api: Api, key: string, obj1: KongFile, obj2: KongFile)
    requires Stems(api, key, obj1) && Stems(api, key, obj2)
    ensures SpecFixed(api) ==> obj1.spec == obj2.spec
    ensures ClassFixed(cls, api) ==> (MatchesClass(obj1, cls) <==> MatchesClass(obj2, cls))
  {
    var i :| HasVersion(api, key, i) && SameButStatus(Version(api, key, i), obj1);
    var j :| HasVersion(api, key, j) && SameButStatus(Version(api, key, j), obj2);
  }

  /** What is cached for a key and what is shown for it agree where all its versions do. */
  lemma CachedLikeSeen(cls: string, s: State, key: string)
    requires Sourced(cls, s) && key in s.site.cache && Seen(s.site.api, key).Some?
    ensures SpecFixed(s.site.api) ==> s.site.cache[key].spec == Seen(s.site.api, key).value.spec
    ensures ClassFixed(cls, s.site.api) ==> MatchesClass(Seen(s.site.api, key).value, cls)
  {
    CachedStems(cls, s, key);
    SeenStems(s.site.api, key);
    StemsAlike(cls, s.site.api, key, Seen(s.site.api, key).value, s.site.cache[key]);
  }

  // ---------------------------------------------------------------- settled objects

  /** The version shown is validated, or the very next one is its validation. */
  predicate Settled(t: Timeline)
    requires Sound(t)
  {
    var shown := t.versions[t.seen];
    shown.Some? &&
    (shown.value.status.validated ||
     (t.seen + 1 < |t.versions| && BecomesValidated(shown, t.versions[t.seen + 1])))
  }

  /** A validated version later on means the version shown now is settled, and is the same object. */
  lemma {:induction false} ValidatedAhead(key: string, t: Timeline, j: nat)
    requires LegalTimeline(key, t) && t.seen <= j < |t.versions|
    requires t.versions[j].Some? && t.versions[j].value.status.validated
    ensures Settled(t)
    ensures t.versions[j].value.meta.uid == t.versions[t.seen].value.meta.uid
    ensures t.versions[t.seen].value.meta.deletionTimestamp.Some? ==>
              t.versions[j].value.meta.deletionTimestamp == t.versions[t.seen].value.meta.deletionTimestamp
  {
    if j == t.seen {
    } else {
      assert Change(key, t.versions[j - 1], t.versions[j], j);
      if t.versions[j - 1].value.status.validated {
        ValidatedAhead(key, t, j - 1);
      }
    }
  }

  /** Wherever the informer moves to, it finds a settled object only if it showed that object settled. */
  lemma SettledBefore(key: string, t: Timeline, position: nat)
    requires LegalTimeline(key, t) && t.seen <= position < |t.versions|
    requires Settled(t.(seen := position))
    ensures Settled(t)
    ensures t.versions[position].value.meta.uid == t.versions[t.seen].value.meta.uid
    ensures t.versions[t.seen].value.meta.deletionTimestamp.Some? ==>
              t.versions[position].value.meta.deletionTimestamp ==
              t.versions[t.seen].value.meta.deletionTimestamp
  {
    if t.versions[position].value.status.validated {
      ValidatedAhead(key, t, position);
    } else {
      assert position + 1 <= t.seen + 1;
    }
  }
}
