/** The read side of the cache: lookups and listings, and the string key behind them. */
module Views {
  import opened Wrappers
  import opened Strings
  import opened KongFiles
  import opened ClassMatching
  import opened Machine
  import opened Provenance
  import opened Controller

  // ---------------------------------------------------------------- the store

  predicate Distinct<T(==)>(items: seq<T>) {
    forall i, j :: 0 <= i < j < |items| ==> items[i] != items[j]
  }

  class Store {
    const stores: CacheStores
    const controllerClass: string

    constructor (stores: CacheStores, controllerClass: string)
      ensures this.stores == stores && this.controllerClass == controllerClass
    {
      this.stores, this.controllerClass := stores, controllerClass;
    }

    /** The object cached for a namespace and a name; None stands for the not-found error. */
    method GetKongFile(namespace: string, name: string) returns (found: Option<KongFileObject>)
      ensures var key := KeyOf(namespace, name);
              found == if key in stores.kongFiles then Some(stores.kongFiles[key]) else None
    {
      var key := namespace + "/" + name;
      found := if key in stores.kongFiles then Some(stores.kongFiles[key]) else None;
    }

    predicate Listed(obj: KongFileObject)
      reads obj
    {
      ClassValidator(obj.Value(), controllerClass, ExactOrEmptyClassMatch)
    }

    /** Every cached object of the class, or with no class at all, once. */
    method ListKongFiles() returns (objs: seq<KongFileObject>)
      requires stores.Valid()
      ensures Distinct(objs)
      ensures forall obj :: obj in objs <==> obj in stores.kongFiles.Values && Listed(obj)
      ensures forall obj :: Listed(obj) <==>
                var value := Lookup(obj.meta.annotations, "developer.konghq.com/controller.class");
                value == None || value == Some("") || value == Some(controllerClass)
    {
      objs := [];
      var rest := stores.kongFiles.Keys;
      while rest != {}
        invariant rest <= stores.kongFiles.Keys
        invariant Distinct(objs)
        invariant forall obj :: obj in objs ==> obj in stores.kongFiles.Values && obj.StoreKey() !in rest && Listed(obj)
        invariant forall key :: key in stores.kongFiles.Keys - rest && Listed(stores.kongFiles[key]) ==>
                    stores.kongFiles[key] in objs
        decreases |rest|
      {
        var key :| key in rest;
        rest := rest - {key};
        if Listed(stores.kongFiles[key]) {
          objs := objs + [stores.kongFiles[key]];
        }
      }
    }

    /** Every cached object, once. */
    method ListAllKongFiles() returns (objs: seq<KongFileObject>)
      requires stores.Valid()
      ensures Distinct(objs)
      ensures forall obj :: obj in objs <==> obj in stores.kongFiles.Values
    {
      objs := [];
      var rest := stores.kongFiles.Keys;
      while rest != {}
        invariant rest <= stores.kongFiles.Keys
        invariant Distinct(objs)
        invariant forall obj :: obj in objs ==> obj in stores.kongFiles.Values && obj.StoreKey() !in rest
        invariant forall key :: key in stores.kongFiles.Keys - rest ==> stores.kongFiles[key] in objs
        decreases |rest|
      {
        var key :| key in rest;
        rest := rest - {key};
        objs := objs + [stores.kongFiles[key]];
      }
    }
  }

  /** Every entry passes the class filter of the listing. */
  predicate AllListed(cls: string, cache: map<string, KongFile>) {
    forall key :: key in cache ==> ClassValidator(cache[key], cls, ExactOrEmptyClassMatch)
  }

  lemma SourcedIsListed(cls: string, s: State)
    requires EntriesHaveSources(cls, s)
    ensures AllListed(cls, s.site.cache)
  {
    assert forall key :: key in s.site.cache ==> EntryHasSource(cls, s, key);
  }

  /** In every cache a run can reach, the class filter of the listing hides nothing: each entry has exactly
      the controller's class, which the lenient test accepts too. */
  lemma FilterHidesNothing(cls: string, kong: map<string, string>, steps: seq<Step>)
    ensures AllListed(cls, Exec(cls, Init(kong), steps).site.cache)
  {
    EverythingIsSourced(cls, kong, steps);
    SourcedIsListed(cls, Exec(cls, Init(kong), steps));
  }

  lemma SameItems<T>(a: seq<T>, b: seq<T>)
    requires Distinct(a) && Distinct(b) && forall x :: x in a <==> x in b
    ensures multiset(a) == multiset(b)
  {
    forall x ensures multiset(a)[x] == multiset(b)[x] {
      CountOfDistinct(a, x);
      CountOfDistinct(b, x);
    }
  }

  lemma {:induction false} CountOfDistinct<T>(items: seq<T>, x: T)
    requires Distinct(items)
    ensures multiset(items)[x] == if x in items then 1 else 0
  {
    if items == [] {
    } else {
      var before, last := items[..|items| - 1], items[|items| - 1];
      assert items == before + [last];
      CountOfDistinct(before, x);
    }
  }

  /** On the cache of any reachable state, for a store of the controller's class, the two listings return the
      same objects. */
  method ListBoth(store: Store, ghost kong: map<string, string>, ghost steps: seq<Step>)
    returns (filtered: seq<KongFileObject>, all: seq<KongFileObject>)
    requires store.stores.Valid()
    requires store.stores.Contents() == Exec(store.controllerClass, Init(kong), steps).site.cache
    ensures multiset(filtered) == multiset(all)
    ensures forall obj :: obj in filtered <==> obj in store.stores.kongFiles.Values
  {
    filtered := store.ListKongFiles();
    all := store.ListAllKongFiles();
    FilterHidesNothing(store.controllerClass, kong, steps);
    forall key | key in store.stores.kongFiles ensures store.Listed(store.stores.kongFiles[key]) {
      assert store.stores.Contents()[key] == store.stores.kongFiles[key].Value();
    }
    SameItems(filtered, all);
  }

  // ---------------------------------------------------------------- the key

  /** The key identifies namespace and name when the namespaces are slash-free, as DNS labels are. */
  lemma KeyInjective(a: NamespacedName, b: NamespacedName)
    requires SlashFree(a.namespace) && SlashFree(b.namespace)
    ensures KeyOf(a.namespace, a.name) == KeyOf(b.namespace, b.name) <==> a == b
  {
    if KeyOf(a.namespace, a.name) == KeyOf(b.namespace, b.name) {
      JoinInjective(a.namespace, a.name, b.namespace, b.name);
    }
  }

  /** Exactly which pairs share a key when slashes are allowed. */
  lemma KeyCollision(a: NamespacedName, b: NamespacedName)
    requires |a.name| <= |b.name|
    ensures KeyOf(a.namespace, a.name) == KeyOf(b.namespace, b.name) <==>
            a == b || exists m :: b.name == Join(m, a.name) && a.namespace == Join(b.namespace, m)
  {
    JoinCollision(a.namespace, a.name, b.namespace, b.name);
  }

  // ---------------------------------------------------------------- refinement of a pair-keyed map

  datatype Op = Add(obj: KongFile) | Update(obj: KongFile) | Delete(obj: KongFile) | Get(obj: KongFile)
              | GetByName(namespace: string, name: string)

  function PairOf(obj: KongFile): NamespacedName {
    NamespacedName(obj.meta.namespace, obj.meta.name)
  }

  function OpPair(op: Op): NamespacedName {
    match op
    case GetByName(namespace, name) => NamespacedName(namespace, name)
    case _ => PairOf(op.obj)
  }

  /** One operation on a store with keys of any sort: the new store and the answer. */
  function Perform<K>(entries: map<K, KongFile>, keyOf: NamespacedName -> K, op: Op)
    : (map<K, KongFile>, Option<KongFile>)
  {
    var key := keyOf(OpPair(op));
    match op
    case Add(obj) => (entries[key := obj], None)
    case Update(obj) => (entries[key := obj], None)
    case Delete(_) => (entries - {key}, None)
    case Get(_) => (entries, Lookup(entries, key))
    case GetByName(_, _) => (entries, Lookup(entries, key))
  }

  function StringKey(pair: NamespacedName): string {
    KeyOf(pair.namespace, pair.name)
  }

  function PairKey(pair: NamespacedName): NamespacedName {
    pair
  }

  function Answers<K>(entries: map<K, KongFile>, keyOf: NamespacedName -> K, ops: seq<Op>): seq<Option<KongFile>>
    decreases |ops|
  {
    if ops == [] then []
    else
      var (next, answer) := Perform(entries, keyOf, ops[0]);
      [answer] + Answers(next, keyOf, ops[1..])
  }

  /** The operations name pairs that the string key can tell apart. */
  predicate Separable(pairs: set<NamespacedName>) {
    forall a, b :: a in pairs && b in pairs && StringKey(a) == StringKey(b) ==> a == b
  }

  /** The string-keyed store holds the pair-keyed one's entries, pair by pair. */
  predicate Refines(concrete: map<string, KongFile>, abs: map<NamespacedName, KongFile>, pairs: set<NamespacedName>) {
    forall pair :: pair in pairs ==> Lookup(concrete, StringKey(pair)) == Lookup(abs, pair)
  }

  lemma PerformRefines(concrete: map<string, KongFile>, abs: map<NamespacedName, KongFile>,
                       pairs: set<NamespacedName>, op: Op)
    requires Separable(pairs) && Refines(concrete, abs, pairs) && OpPair(op) in pairs
    ensures var c, a := Perform(concrete, StringKey, op), Perform(abs, PairKey, op);
            c.1 == a.1 && Refines(c.0, a.0, pairs)
  {
  }

  lemma {:induction false} AnswersRefine(concrete: map<string, KongFile>, abs: map<NamespacedName, KongFile>,
                                         pairs: set<NamespacedName>, ops: seq<Op>)
    requires Separable(pairs) && Refines(concrete, abs, pairs)
    requires forall op :: op in ops ==> OpPair(op) in pairs
    ensures Answers(concrete, StringKey, ops) == Answers(abs, PairKey, ops)
    decreases |ops|
  {
    if ops == [] {
    } else {
      PerformRefines(concrete, abs, pairs, ops[0]);
      AnswersRefine(Perform(concrete, StringKey, ops[0]).0, Perform(abs, PairKey, ops[0]).0, pairs, ops[1..]);
    }
  }

  /** An object in memory with this value. */
  method Allocate(value: KongFile) returns (obj: KongFileObject)
    ensures fresh(obj) && obj.Value() == value
  {
    obj := new KongFileObject();
    obj.meta, obj.spec, obj.status := value.meta, value.spec, value.status;
  }

  /** Each operation of the store in memory does to its contents what `Perform` says. */
  method Carry(store: Store, op: Op) returns (answer: Option<KongFile>)
    requires store.stores.Valid()
    modifies store.stores
    ensures store.stores.Valid()
    ensures (store.stores.Contents(), answer) == Perform(old(store.stores.Contents()), StringKey, op)
  {
    answer := None;
    if op.GetByName? {
      var found := store.GetKongFile(op.namespace, op.name);
      return if found.Some? then Some(found.value.Value()) else None;
    }
    var obj := Allocate(op.obj);
    match op {
      case Add(_) =>
        store.stores.Add(obj);
      case Update(_) =>
        store.stores.Update(obj);
      case Delete(_) =>
        store.stores.Delete(obj);
      case Get(_) =>
        var item, exists_ := store.stores.Get(obj);
        if exists_ {
          answer := Some(item.Value());
        }
    }
  }

  /** From empty, every sequence of operations on objects in slash-free namespaces gives the same answers
      as on a store keyed by the pair of namespace and name. */
  lemma StoreRefinesPairs(ops: seq<Op>)
    requires forall op :: op in ops ==> SlashFree(OpPair(op).namespace)
    ensures Answers(map[], StringKey, ops) == Answers(map[], PairKey, ops)
  {
    var pairs := set op | op in ops :: OpPair(op);
    forall a, b | a in pairs && b in pairs && StringKey(a) == StringKey(b) ensures a == b {
      KeyInjective(a, b);
    }
    AnswersRefine(map[], map[], pairs, ops);
  }

  /** So a new store in memory answers every such sequence like one keyed by the pair. */
  method CarryAll(ops: seq<Op>, controllerClass: string) returns (answers: seq<Option<KongFile>>)
    requires forall op :: op in ops ==> SlashFree(OpPair(op).namespace)
    ensures answers == Answers(map[], PairKey, ops)
  {
    var stores := new CacheStores();
    var store := new Store(stores, controllerClass);
    answers := [];
    ghost var contents := map[];
    assert ops[0..] == ops;
    for i := 0 to |ops|
      invariant fresh(stores) && store.stores == stores
      invariant stores.Valid() && stores.Contents() == contents
      invariant answers + Answers(contents, StringKey, ops[i..]) == Answers(map[], StringKey, ops)
    {
      assert ops[i..][0] == ops[i] && ops[i..][1..] == ops[i + 1..];
      var answer := Carry(store, ops[i]);
      contents := stores.Contents();
      answers := answers + [answer];
    }
    StoreRefinesPairs(ops);
  }

  /** The two stores can be told apart exactly by two different pairs with one key. */
  lemma CollisionIsVisible(obj: KongFile, other: NamespacedName)
    ensures var ops := [Add(obj), GetByName(other.namespace, other.name)];
            Answers(map[], StringKey, ops) != Answers(map[], PairKey, ops) <==>
            StringKey(PairOf(obj)) == StringKey(other) && PairOf(obj) != other
  {
    var ops := [Add(obj), GetByName(other.namespace, other.name)];
    assert ops[1..] == [GetByName(other.namespace, other.name)];
    var concrete, abs := map[StringKey(PairOf(obj)) := obj], map[PairOf(obj) := obj];
    assert Answers(concrete, StringKey, ops[1..]) == [Lookup(concrete, StringKey(other))];
    assert Answers(abs, PairKey, ops[1..]) == [Lookup(abs, other)];
    assert Answers(map[], StringKey, ops) == [None, Lookup(concrete, StringKey(other))];
    assert Answers(map[], PairKey, ops) == [None, Lookup(abs, other)];
  }

  /** Such pairs exist once namespaces may hold slashes. */
  lemma SlashedNamespacesCollide()
    ensures StringKey(NamespacedName("a/b", "c")) == StringKey(NamespacedName("a", "b/c"))
  {
  }
}
