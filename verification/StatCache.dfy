/** The stat cache of src/statcache.c, and S3FileStat of src/s3if.c, which looks up in it and fills it. */
module StatCache {
  import opened Recency
  import opened Wrappers

  /** struct StatCacheEntry. */
  datatype Entry<D> = Entry(name: string, data: D)

  function Names<D>(l: seq<Entry<D>>): (n: seq<string>)
    ensures |n| == |l| && forall i | 0 <= i < |l| :: n[i] == l[i].name
  {
    if l == [] then [] else [l[0].name] + Names(l[1..])
  }

  /** HASH_FIND_STR. */
  function Find<D>(l: seq<Entry<D>>, f: string): Option<D> {
    if l == [] then None else if l[0].name == f then Some(l[0].data) else Find(l[1..], f)
  }

  /** HASH_DELETE of the entry that was found. */
  function Without<D>(l: seq<Entry<D>>, f: string): seq<Entry<D>> {
    if l == [] then [] else if l[0].name == f then l[1..] else [l[0]] + Without(l[1..], f)
  }

  /** A hit makes the entry the last item; a miss changes nothing. */
  function Searched<D>(l: seq<Entry<D>>, f: string): seq<Entry<D>> {
    match Find(l, f)
    case Some(d) => Without(l, f) + [Entry(f, d)]
    case None => l
  }

  function Inserted<D>(l: seq<Entry<D>>, f: string, d: D, capacity: nat): seq<Entry<D>> {
    Last(if Find(l, f).Some? then l else l + [Entry(f, d)], capacity)
  }

  // ----- The cache as lists of names -----

  lemma {:induction false} FindIs<D>(l: seq<Entry<D>>, f: string)
    ensures Find(l, f).Some? <==> f in Names(l)
    ensures Find(l, f).Some? ==> Entry(f, Find(l, f).value) in l
  {
    if l != [] { FindIs(l[1..], f); }
  }

  lemma {:induction false} NamesWithout<D>(l: seq<Entry<D>>, f: string)
    ensures Names(Without(l, f)) == Remove(Names(l), f)
  {
    if l != [] {
      NamesWithout(l[1..], f);
      if l[0].name != f { NamesConcat([l[0]], Without(l[1..], f)); }
    }
  }

  lemma {:induction false} NamesConcat<D>(a: seq<Entry<D>>, b: seq<Entry<D>>)
    ensures Names(a + b) == Names(a) + Names(b)
  {
  }

  lemma NamesLast<D>(l: seq<Entry<D>>, c: nat)
    ensures Names(Last(l, c)) == Last(Names(l), c)
  {
  }

  /** An access of S3FileStat: a search, and an insertion if it misses. */
  function Accessed<D>(l: seq<Entry<D>>, f: string, d: D, capacity: nat): seq<Entry<D>> {
    if Find(l, f).Some? then Searched(l, f) else Inserted(l, f, d, capacity)
  }

  /** An access and a deletion do to the names what a use and an invalidation do. */
  lemma NamesAccessed<D>(l: seq<Entry<D>>, f: string, d: D, capacity: nat)
    ensures Names(Accessed(l, f, d, capacity)) == Step(Names(l), Use(f), capacity)
  {
    hide Find, Without, Remove, Last, Names;
    FindIs(l, f);
    if Find(l, f).Some? {
      NamesWithout(l, f);
      NamesSnoc(Without(l, f), Entry(f, Find(l, f).value));
    } else {
      NamesSnoc(l, Entry(f, d));
      NamesLast(l + [Entry(f, d)], capacity);
    }
  }

  lemma NamesSnoc<D>(l: seq<Entry<D>>, e: Entry<D>)
    ensures Names(l + [e]) == Names(l) + [e.name]
  {
    NamesConcat(l, [e]);
    assert Names([e]) == [e.name];
  }

  // ----- Traces -----

  /** An access, with what the server would answer at that time, or a deletion. */
  datatype Event<D> = Access(name: string, answer: D) | Delete(name: string)

  function OpOf<D>(e: Event<D>): Op {
    match e
    case Access(f, _) => Use(f)
    case Delete(f) => Drop(f)
  }

  function Ops<D>(trace: seq<Event<D>>): (ops: seq<Op>)
    ensures |ops| == |trace|
  {
    if trace == [] then [] else Ops(trace[..|trace| - 1]) + [OpOf(trace[|trace| - 1])]
  }

  /** The cache after a trace. */
  function After<D>(trace: seq<Event<D>>, capacity: nat): seq<Entry<D>> {
    if trace == [] then []
    else
      var before := After(trace[..|trace| - 1], capacity);
      match trace[|trace| - 1]
      case Access(f, d) => Accessed(before, f, d, capacity)
      case Delete(f) => Without(before, f)
  }

  lemma {:induction false} NamesAfter<D>(trace: seq<Event<D>>, capacity: nat)
    ensures Names(After(trace, capacity)) == Cached(Ops(trace), capacity)
  {
    if trace != [] {
      var before, e := trace[..|trace| - 1], trace[|trace| - 1];
      NamesAfter(before, capacity);
      assert Ops(trace)[..|trace| - 1] == Ops(before);
      match e
      case Access(f, d) => NamesAccessed(After(before, capacity), f, d, capacity);
      case Delete(f) => NamesWithout(After(before, capacity), f);
    }
    hide Accessed, Without, Step, Remove;
  }

  /** After any trace, the cache has no name twice and keeps to its capacity, and what was just returned is resident. */
  lemma CacheIsSound<D>(trace: seq<Event<D>>, capacity: nat)
    ensures Distinct(Names(After(trace, capacity))) && |After(trace, capacity)| <= capacity
    ensures trace != [] && 0 < capacity && trace[|trace| - 1].Access? ==>
              Find(After(trace, capacity), trace[|trace| - 1].name).Some?
  {
    NamesAfter(trace, capacity);
    CachedIsBounded(Ops(trace), capacity);
    if trace != [] && 0 < capacity && trace[|trace| - 1].Access? {
      UsedIsCached(Ops(trace), capacity);
      FindIs(After(trace, capacity), trace[|trace| - 1].name);
    }
    hide After, Find, Cached, Distinct;
  }

  /**
   Inclusion: after any trace, a cache holds the end of what any larger cache
   holds, and both hold the end of the list of all names by their last use.
   */
  lemma CacheInclusion<D>(trace: seq<Event<D>>, c: nat, d: nat)
    requires c <= d
    ensures IsSuffix(Names(After(trace, c)), Names(After(trace, d)))
    ensures IsSuffix(Names(After(trace, c)), Noted(Ops(trace)))
  {
    NamesAfter(trace, c);
    NamesAfter(trace, d);
    Inclusion(Ops(trace), c, d);
    CachedIsRecent(Ops(trace), c);
    hide *;
  }

  /** Without deletions, the cache is exactly the last names used. */
  lemma CacheIsLeastRecentlyUsed<D>(trace: seq<Event<D>>, c: nat)
    requires forall i | 0 <= i < |trace| :: trace[i].Access?
    ensures Names(After(trace, c)) == Last(Noted(Ops(trace)), c)
  {
    NamesAfter(trace, c);
    AllUses(trace);
    CachedIsLast(Ops(trace), c);
    hide *;
  }

  lemma {:induction false} AllUses<D>(trace: seq<Event<D>>)
    requires forall i | 0 <= i < |trace| :: trace[i].Access?
    ensures forall i | 0 <= i < |trace| :: Ops(trace)[i].Use?
  {
    if trace != [] { AllUses(trace[..|trace| - 1]); }
  }

  // ----- Coherence -----

  /** Since the last deletion of f, the server has had one answer for it. */
  predicate Steady<D(==)>(trace: seq<Event<D>>, f: string, d: D) {
    trace == [] ||
    match trace[|trace| - 1]
    case Access(g, a) => (g == f ==> a == d) && Steady(trace[..|trace| - 1], f, d)
    case Delete(g) => g == f || Steady(trace[..|trace| - 1], f, d)
  }

  lemma {:induction false} FindSnoc<D>(l: seq<Entry<D>>, e: Entry<D>, f: string)
    ensures Find(l + [e], f) == if Find(l, f).Some? then Find(l, f) else if e.name == f then Some(e.data) else None
  {
    if l != [] {
      assert (l + [e])[1..] == l[1..] + [e];
      FindSnoc(l[1..], e, f);
    }
  }

  lemma {:induction false} FindWithout<D>(l: seq<Entry<D>>, f: string, g: string)
    requires Distinct(Names(l))
    ensures Find(Without(l, f), g) == if f == g then None else Find(l, g)
  {
    if l != [] {
      NamesTail(l);
      if l[0].name != f {
        FindWithout(l[1..], f, g);
      } else if f == g {
        FindIs(l[1..], f);
      }
    }
    hide Distinct;
  }

  lemma NamesTail<D>(l: seq<Entry<D>>)
    requires Distinct(Names(l)) && l != []
    ensures Distinct(Names(l[1..])) && l[0].name !in Names(l[1..])
  {
    assert Names(l)[1..] == Names(l[1..]);
    DistinctTail(Names(l));
  }

  /** Eviction leaves the other entries as they were. */
  lemma {:induction false} FindLast<D>(l: seq<Entry<D>>, c: nat, f: string)
    requires Distinct(Names(l))
    ensures Find(Last(l, c), f).Some? ==> Find(Last(l, c), f) == Find(l, f)
  {
    if |l| > c {
      NamesTail(l);
      FindLast(l[1..], c, f);
      assert Last(l, c) == Last(l[1..], c);
      if l[0].name == f {
        FindIs(l[1..], f);
      }
    }
    hide Distinct;
  }

  lemma FindAccessed<D>(l: seq<Entry<D>>, g: string, a: D, c: nat, f: string)
    requires Distinct(Names(l))
    ensures var r := Find(Accessed(l, g, a, c), f);
            r.Some? ==> r == Find(l, f) || (f == g && r == Some(a) && Find(l, f).None?)
  {
    if Find(l, g).Some? {
      FindWithout(l, g, f);
      FindSnoc(Without(l, g), Entry(g, Find(l, g).value), f);
    } else {
      FindSnoc(l, Entry(g, a), f);
      FindIs(l, g);
      NamesConcat(l, [Entry(g, a)]);
      DistinctSnoc(Names(l), g);
      FindLast(l + [Entry(g, a)], c, f);
    }
    hide Find, Distinct, Without;
  }

  /** Coherence: while the server's answer for a name changes only before a deletion of it, the cache has that answer. */
  lemma {:induction false} Coherence<D>(trace: seq<Event<D>>, c: nat, f: string, d: D)
    requires Steady(trace, f, d)
    ensures Find(After(trace, c), f).Some? ==> Find(After(trace, c), f) == Some(d)
  {
    if trace != [] {
      var before, e := trace[..|trace| - 1], trace[|trace| - 1];
      CacheIsSound(before, c);
      match e {
        case Access(g, a) =>
          Coherence(before, c, f, d);
          FindAccessed(After(before, c), g, a, c, f);
        case Delete(g) =>
          FindWithout(After(before, c), g, f);
          if f != g { Coherence(before, c, f, d); }
      }
    }
    hide Find, Distinct, Without, Accessed;
  }

  // ----- How long an entry stays -----

  lemma {:induction false} OpsConcat<D>(a: seq<Event<D>>, b: seq<Event<D>>)
    ensures Ops(a + b) == Ops(a) + Ops(b)
  {
    if b == [] {
      assert a + b == a;
    } else {
      assert (a + b)[..|a + b| - 1] == a + b[..|b| - 1];
      OpsConcat(a, b[..|b| - 1]);
    }
  }

  lemma OpsPrefix<D>(trace: seq<Event<D>>, n: nat)
    requires n <= |trace|
    ensures Ops(trace[..n]) == Ops(trace)[..n]
  {
    hide Ops;
    var a, b := trace[..n], trace[n..];
    OpsConcat(a, b);
    assert a + b == trace;
    FirstOf(Ops(a), Ops(b), n);
  }

  lemma FirstOf<T>(a: seq<T>, b: seq<T>, n: nat)
    requires |a| == n
    ensures (a + b)[..n] == a
  {
  }

  lemma {:induction false} OpsNames<D>(trace: seq<Event<D>>)
    ensures forall i | 0 <= i < |trace| :: Ops(trace)[i].name == trace[i].name
  {
    if trace != [] { OpsNames(trace[..|trace| - 1]); }
  }

  /**
   The data that an access returned stay in the cache, and are not freed, until
   as many other files have been accessed since as the cache has room for, if
   the file is neither accessed nor deleted again; a deleted file does not count.
   */
  lemma EntryStays<D>(before: seq<Event<D>>, f: string, a: D, since: seq<Event<D>>, c: nat)
    requires forall i | 0 <= i < |since| :: since[i].name != f
    ensures Find(After(before + [Access(f, a)] + since, c), f).Some? <==>
            forall j | 0 <= j <= |since| :: |Noted(Ops(since[..j]))| < c
  {
    var trace := before + [Access(f, a)] + since;
    NamesAfter(trace, c);
    FindIs(After(trace, c), f);
    OpsConcat(before + [Access(f, a)], since);
    OpsConcat(before, [Access(f, a)]);
    assert Ops([Access(f, a)]) == [Use(f)];
    OpsNames(since);
    forall j | 0 <= j <= |since| ensures Ops(since[..j]) == Ops(since)[..j] { OpsPrefix(since, j); }
    hide After, Find, Names, Ops, Noted, Cached;
    StaysCached(Ops(before), f, Ops(since), c);
  }

  /** While they stay, they are the same. */
  lemma {:induction false} DataStay<D>(before: seq<Event<D>>, since: seq<Event<D>>, f: string, c: nat)
    requires forall i | 0 <= i < |since| :: since[i].name != f
    ensures Find(After(before + since, c), f).Some? ==> Find(After(before + since, c), f) == Find(After(before, c), f)
  {
    var trace := before + since;
    if since == [] {
      assert trace == before;
    } else {
      var n := |since| - 1;
      assert trace[..|trace| - 1] == before + since[..n] && trace[|trace| - 1] == since[n];
      DataStay(before, since[..n], f, c);
      CacheIsSound(before + since[..n], c);
      var l := After(before + since[..n], c);
      match since[n] {
        case Access(g, a) => FindAccessed(l, g, a, c, f);
        case Delete(g) => FindWithout(l, g, f);
      }
    }
    hide Find, Distinct, Without, Accessed;
  }

  // ----- The cache -----

  const MAX: int := -1

  class Cache<D(==)> {
    /** The hash, in the order in which its entries were added. */
    var entries: seq<Entry<D>>
    const capacity: nat
    ghost var made: multiset<Entry<D>>    // the entries that were allocated
    ghost var released: seq<Entry<D>>     // those that were freed, with their data
    ghost var leaked: multiset<Entry<D>>  // those that are neither freed nor in the cache

    /** Every entry that was made is in the cache, or has been freed once, or is leaked. */
    ghost predicate IsBalanced()
      reads this
    {
      made == multiset(entries) + multiset(released) + leaked
    }

    ghost predicate Valid()
      reads this
    {
      Distinct(Names(entries)) && |entries| <= capacity && IsBalanced()
    }

    constructor (max: nat)
      ensures Valid() && entries == [] && capacity == max
      ensures made == multiset{} && released == [] && leaked == multiset{}
    {
      entries, capacity := [], max;
      made, released, leaked := multiset{}, [], multiset{};
    }

    method SearchStatEntry(filename: string) returns (data: Option<D>)
      requires Valid()
      modifies `entries
      ensures Valid() && entries == Searched(old(entries), filename) && data == Find(old(entries), filename)
    {
      SearchedIsValid(entries, filename, capacity);
      WithoutIsOneLess(entries, filename);
      data := Find(entries, filename);
      if data.Some? {
        entries := Without(entries, filename);
        entries := entries + [Entry(filename, data.value)];
      }
    }

    method DeleteStatEntry(filename: string)
      requires Valid()
      modifies `entries, `released
      ensures Valid() && entries == Without(old(entries), filename)
      ensures released == match Find(old(entries), filename)
                          case Some(d) => old(released) + [Entry(filename, d)]
                          case None => old(released)
    {
      WithoutIsValid(entries, filename, capacity);
      WithoutIsOneLess(entries, filename);
      var data := Find(entries, filename);
      if data.Some? {
        entries := Without(entries, filename);
        released := released + [Entry(filename, data.value)];
      } else {
        WithoutAbsent(entries, filename);
      }
    }

    /** Entries beyond a limit expire, the oldest first; MAX stands for the capacity. */
    method TruncateCache(truncateTo: int)
      requires truncateTo >= MAX && Distinct(Names(entries))
      requires IsBalanced()
      modifies `entries, `released
      ensures var limit := if truncateTo == MAX then capacity else truncateTo;
              && entries == Last(old(entries), limit)
              && released == old(released) + old(entries)[..|old(entries)| - |entries|]
      ensures Distinct(Names(entries)) && IsBalanced()
    {
      var limit := if truncateTo == MAX then capacity else truncateTo;
      NamesLast(entries, limit);
      DistinctLast(Names(entries), limit);
      hide Distinct, Names;
      var toDelete := |entries| - limit;
      if 0 < toDelete {
        Expire(toDelete);
      }
    }

    /** The oldest entries come first, so they are the ones that go. */
    method Expire(toDelete: nat)
      requires toDelete <= |entries|
      modifies `entries, `released
      ensures multiset(entries) + multiset(released) == old(multiset(entries) + multiset(released))
      ensures entries == old(entries)[toDelete..] && released == old(released) + old(entries)[..toDelete]
    {
      ghost var before := entries;
      var numberDeleted := 0;
      while numberDeleted < toDelete
        invariant numberDeleted <= toDelete && entries == before[numberDeleted..]
        invariant released == old(released) + before[..numberDeleted]
      {
        assert entries[0] == before[numberDeleted] && entries[1..] == before[numberDeleted + 1..];
        assert before[..numberDeleted + 1] == before[..numberDeleted] + [before[numberDeleted]];
        released := released + [entries[0]];
        entries := entries[1..];
        numberDeleted := numberDeleted + 1;
      }
      assert before == before[..toDelete] + before[toDelete..];
    }

    /** If the name is in the cache already, the new entry is left out, and is not freed. */
    method InsertCacheElement(filename: string, data: D)
      requires Valid()
      modifies this
      ensures Valid() && entries == Inserted(old(entries), filename, data, capacity)
      ensures var isNew := Find(old(entries), filename).None?;
              var before := if isNew then old(entries) + [Entry(filename, data)] else old(entries);
              && made == old(made) + multiset{Entry(filename, data)}
              && leaked == old(leaked) + (if isNew then multiset{} else multiset{Entry(filename, data)})
              && |entries| <= |before|
              && released == old(released) + before[..|before| - |entries|]
    {
      hide Distinct, Names, Find, Last, IsBalanced;
      if Find(entries, filename).None? {
        Append(Entry(filename, data));
      } else {
        LeaveOut(Entry(filename, data));
      }
      TruncateCache(MAX);
      LastIsBounded(old(entries), capacity);
      LastIsBounded(old(entries) + [Entry(filename, data)], capacity);
    }

    /** Nothing is done with the new entry. */
    ghost method LeaveOut(entry: Entry<D>)
      requires IsBalanced()
      modifies `made, `leaked
      ensures IsBalanced() && made == old(made) + multiset{entry} && leaked == old(leaked) + multiset{entry}
    {
      made := made + multiset{entry};
      leaked := leaked + multiset{entry};
    }

    method Append(entry: Entry<D>)
      requires Valid() && Find(entries, entry.name).None?
      modifies `entries, `made
      ensures Distinct(Names(entries)) && IsBalanced()
      ensures entries == old(entries) + [entry] && made == old(made) + multiset{entry}
    {
      FindIs(entries, entry.name);
      DistinctSnoc(Names(entries), entry.name);
      NamesSnoc(entries, entry);
      hide Distinct, Names, Find;
      entries := entries + [entry];
      made := made + multiset{entry};
    }

    /** A search, and an insertion if it misses: one access of a trace. */
    method Use(filename: string, data: D)
      requires Valid()
      modifies this
      ensures Valid() && entries == Accessed(old(entries), filename, data, capacity) && leaked == old(leaked)
    {
      hide Distinct, Names, Without, Last;
      var found := SearchStatEntry(filename);
      if found.None? { InsertCacheElement(filename, data); }
    }

    /** Write other data into the entry at the end of the list. */
    method OverwriteLast(data: D)
      requires Valid() && entries != []
      modifies `entries, `made
      ensures Valid()
      ensures entries == old(entries[..|entries| - 1]) + [Entry(old(entries[|entries| - 1].name), data)]
      ensures made == old(made - multiset{entries[|entries| - 1]}) + multiset{entries[|entries| - 1]}
    {
      hide Distinct, Names;
      var last := |entries| - 1;
      ghost var before := entries;
      assert before == before[..last] + [before[last]];
      NamesSnoc(before[..last], before[last]);
      var changed := Entry(entries[last].name, data);
      NamesSnoc(before[..last], changed);
      made := made - multiset{before[last]} + multiset{changed};
      entries := entries[..last] + [changed];
    }
  }

  lemma LastIsBounded<D>(l: seq<Entry<D>>, c: nat)
    ensures |Last(l, c)| <= c && |Last(l, c)| <= |l|
  {
  }

  lemma {:induction false} WithoutIsOneLess<D>(l: seq<Entry<D>>, f: string)
    ensures Find(l, f).Some? ==> multiset(l) == multiset(Without(l, f)) + multiset{Entry(f, Find(l, f).value)}
  {
    if l != [] {
      assert l == [l[0]] + l[1..];
      if l[0].name != f { WithoutIsOneLess(l[1..], f); }
    }
  }

  /** A cache that is driven through a trace holds what After says, and leaks nothing. */
  method Replay<D(==)>(trace: seq<Event<D>>, capacity: nat) returns (entries: seq<Entry<D>>)
    ensures entries == After(trace, capacity)
  {
    hide Distinct, Without, Cache.IsBalanced, Accessed, Names;
    var cache := new Cache<D>(capacity);
    var i := 0;
    while i < |trace|
      invariant i <= |trace| && fresh(cache) && cache.Valid() && cache.capacity == capacity
      invariant cache.entries == After(trace[..i], capacity) && cache.leaked == multiset{}
    {
      assert trace[..i + 1][..i] == trace[..i];
      match trace[i] {
        case Access(f, d) => cache.Use(f, d);
        case Delete(f) => cache.DeleteStatEntry(f);
      }
      i := i + 1;
    }
    assert trace[..i] == trace;
    entries := cache.entries;
  }

  lemma WithoutIsValid<D>(l: seq<Entry<D>>, f: string, c: nat)
    requires Distinct(Names(l)) && |l| <= c
    ensures Distinct(Names(Without(l, f))) && |Without(l, f)| <= c && f !in Names(Without(l, f))
    ensures Find(l, f).Some? ==> |Without(l, f)| < c
  {
    NamesWithout(l, f);
    RemoveElements(Names(l), f);
    FindIs(l, f);
    hide Distinct, Remove, Without, Find;
  }

  lemma {:induction false} WithoutAbsent<D>(l: seq<Entry<D>>, f: string)
    requires Find(l, f).None?
    ensures Without(l, f) == l
  {
    if l != [] { WithoutAbsent(l[1..], f); }
  }

  lemma SearchedIsValid<D>(l: seq<Entry<D>>, f: string, c: nat)
    requires Distinct(Names(l)) && |l| <= c
    ensures Distinct(Names(Searched(l, f))) && |Searched(l, f)| <= c
  {
    WithoutIsValid(l, f, c);
    if Find(l, f).Some? {
      NamesSnoc(Without(l, f), Entry(f, Find(l, f).value));
      DistinctSnoc(Names(Without(l, f)), f);
    }
    hide Distinct, Without, Find;
  }
}
