/** The directory cache of src/dircache.c: five slots, the most recently used one first. */
module DirCache {
  import opened Recency
  import opened Wrappers

  const DIR_CACHE_SIZE: nat := 5

  /** struct DirCache: nothing, or a directory name and its contents. */
  datatype Slot<C> = Empty | Dir(name: string, contents: C)

  // ----- Specification -----

  /** The position of a directory; |s| if it is not there. */
  function IndexOf<C>(s: seq<Slot<C>>, f: string): (i: nat)
    ensures i <= |s|
    ensures i < |s| ==> s[i].Dir? && s[i].name == f
    ensures forall j | 0 <= j < i :: !(s[j].Dir? && s[j].name == f)
  {
    if s == [] || (s[0].Dir? && s[0].name == f) then 0 else 1 + IndexOf(s[1..], f)
  }

  predicate Has<C>(s: seq<Slot<C>>, f: string) {
    IndexOf(s, f) < |s|
  }

  function Find<C>(s: seq<Slot<C>>, f: string): Option<C> {
    if Has(s, f) then Some(s[IndexOf(s, f)].contents) else None
  }

  /** The slots up to i move back by one, and slot i to the front. */
  function MovedToFront<C>(s: seq<Slot<C>>, i: nat): (t: seq<Slot<C>>)
    requires i < |s|
    ensures |t| == |s|
  {
    [s[i]] + s[..i] + s[i + 1..]
  }

  function LookedUp<C>(s: seq<Slot<C>>, f: string): (t: seq<Slot<C>>)
    ensures |t| == |s|
  {
    if Has(s, f) then MovedToFront(s, IndexOf(s, f)) else s
  }

  function Inserted<C>(s: seq<Slot<C>>, f: string, c: C): (t: seq<Slot<C>>)
    requires s != []
    ensures |t| == |s|
  {
    if Has(s, f) then LookedUp(s, f) else [Dir(f, c)] + s[..|s| - 1]
  }

  function Invalidated<C>(s: seq<Slot<C>>, f: string): (t: seq<Slot<C>>)
    requires s != []
    ensures |t| == |s|
  {
    if Has(s, f) then LookedUp(s, f)[0 := Empty] else s
  }

  /** The directories in the slots. */
  ghost function Residents<C>(s: seq<Slot<C>>): multiset<Slot<C>> {
    multiset(s)[Empty := 0]
  }

  // ----- The cache -----

  class Cache<C(==)> {
    const slots: array<Slot<C>>
    ghost var accepted: multiset<Slot<C>>  // entries whose memory the cache has taken over
    ghost var freed: multiset<Slot<C>>     // entries whose memory it has freed

    /** Every accepted entry has been freed once, or is in one slot. */
    ghost predicate Valid()
      reads this, slots
    {
      slots.Length == DIR_CACHE_SIZE && accepted == freed + Residents(slots[..])
    }

    /** InitializeDirectoryCache. */
    constructor ()
      ensures Valid() && fresh(slots) && accepted == multiset{}
      ensures slots.Length == 5 && slots[..] == seq(DIR_CACHE_SIZE, _ => Empty)
    {
      slots := new Slot<C>[DIR_CACHE_SIZE](_ => Empty);
      accepted, freed := multiset{}, multiset{};
      new;
      assert slots[..] == seq(DIR_CACHE_SIZE, _ => Empty);
    }

    /** Free the strings of an entry, leaving an empty slot. */
    method DeleteDirectoryEntry(i: nat)
      requires Valid() && i < DIR_CACHE_SIZE
      modifies `freed, slots
      ensures Valid() && slots[..] == old(slots[..])[i := Empty]
    {
      if slots[i].Dir? {
        ResidentsWithout(slots[..], i);
        freed := freed + multiset{slots[i]};
        slots[i] := Empty;
      }
      assert slots[..] == old(slots[..])[i := Empty];
    }

    /** The oldest entry goes, and the first slot becomes free. */
    method DeleteLastInDirectoryCache()
      requires Valid()
      modifies `freed, slots
      ensures Valid() && slots[..] == [Empty] + old(slots[..DIR_CACHE_SIZE - 1])
    {
      DeleteDirectoryEntry(DIR_CACHE_SIZE - 1);
      ghost var before := slots[..];
      PushBack();
      slots[0] := Empty;
      assert slots[..] == [Empty] + before[..DIR_CACHE_SIZE - 1];
      ResidentsShifted(before);
    }

    /** Each entry moves to the next slot; what was in the last one is overwritten. */
    method PushBack()
      requires slots.Length == DIR_CACHE_SIZE
      modifies slots
      ensures slots[1..] == old(slots[..DIR_CACHE_SIZE - 1])
    {
      ghost var before := slots[..];
      var i := DIR_CACHE_SIZE - 1;
      while i > 0
        invariant 0 <= i < DIR_CACHE_SIZE
        invariant forall j | 0 <= j <= i :: slots[j] == before[j]
        invariant forall j | i < j < DIR_CACHE_SIZE :: slots[j] == before[j - 1]
      {
        slots[i] := slots[i - 1];
        i := i - 1;
      }
    }

    method LookupInDirectoryCache(dirname: string) returns (contents: Option<C>)
      requires Valid()
      modifies slots
      ensures Valid() && slots[..] == LookedUp(old(slots[..]), dirname) && contents == Find(old(slots[..]), dirname)
    {
      ghost var before := slots[..];
      var i := 0;
      while i < DIR_CACHE_SIZE
        invariant i <= DIR_CACHE_SIZE && slots[..] == before
        invariant forall j | 0 <= j < i :: !(before[j].Dir? && before[j].name == dirname)
      {
        if slots[i].Dir? && slots[i].name == dirname {
          break;
        }
        i := i + 1;
      }
      assert i == IndexOf(before, dirname);
      contents := None;
      if i < DIR_CACHE_SIZE {
        contents := Some(slots[i].contents);
        MoveToFront(i);
      }
    }

    method MoveToFront(at: nat)
      requires Valid() && at < DIR_CACHE_SIZE
      modifies slots
      ensures Valid() && slots[..] == MovedToFront(old(slots[..]), at)
    {
      hide MovedToFront, Residents;
      ghost var before := slots[..];
      var found := slots[at];
      var i := at;
      while i >= 1
        invariant 0 <= i <= at
        invariant forall j | 0 <= j <= i || at < j < DIR_CACHE_SIZE :: slots[j] == before[j]
        invariant forall j | i < j <= at :: slots[j] == before[j - 1]
        modifies slots
      {
        slots[i] := slots[i - 1];
        i := i - 1;
      }
      slots[0] := found;
      MovedIs(before, at, slots[..]);
      ResidentsMoved(before, at);
    }

    /** The cache takes over the entry only if the directory is not in it yet. */
    method InsertInDirectoryCache(dirname: string, contents: C)
      requires Valid()
      modifies this, slots
      ensures Valid() && slots[..] == Inserted(old(slots[..]), dirname, contents)
      ensures accepted == old(accepted) +
                if Has(old(slots[..]), dirname) then multiset{} else multiset{Dir(dirname, contents)}
    {
      InsertedIs(slots[..], dirname, contents);
      hide Has, LookedUp, Inserted, Residents;
      var found := LookupInDirectoryCache(dirname);
      if found.None? {
        DeleteLastInDirectoryCache();
        PutFirst(Dir(dirname, contents));
      }
    }

    method PutFirst(d: Slot<C>)
      requires Valid() && slots[0] == Empty && d.Dir?
      modifies `accepted, slots
      ensures Valid() && slots[..] == old(slots[..])[0 := d] && accepted == old(accepted) + multiset{d}
    {
      ResidentsWith(slots[..], d);
      ghost var before := slots[..];
      slots[0] := d;
      accepted := accepted + multiset{d};
      assert slots[..] == before[0 := d];
    }

    /** Delete every entry: then each one that was accepted has been freed exactly once. */
    method ShutdownDirectoryCache()
      requires Valid()
      modifies `freed, slots
      ensures Valid() && freed == accepted
    {
      var i := 0;
      while i < DIR_CACHE_SIZE
        invariant i <= DIR_CACHE_SIZE && Valid()
        invariant forall j | 0 <= j < i :: slots[j] == Empty
      {
        ghost var before := slots[..];
        DeleteDirectoryEntry(i);
        assert forall j | 0 <= j < i :: slots[..][j] == before[j];
        assert slots[..][i] == Empty;
        i := i + 1;
      }
      NoResidents(slots[..]);
    }

    method InvalidateDirectoryCacheElement(dirname: string)
      requires Valid()
      modifies `freed, slots
      ensures Valid() && slots[..] == Invalidated(old(slots[..]), dirname)
    {
      var found := LookupInDirectoryCache(dirname);
      if found.Some? {
        DeleteDirectoryEntry(0);
      }
    }
  }

  lemma ResidentsWithout<C>(s: seq<Slot<C>>, i: nat)
    requires i < |s| && s[i].Dir?
    ensures Residents(s) == Residents(s[i := Empty]) + multiset{s[i]}
  {
    assert s == s[..i] + [s[i]] + s[i + 1..];
    assert s[i := Empty] == s[..i] + [Empty] + s[i + 1..];
  }

  lemma InsertedIs<C>(s: seq<Slot<C>>, f: string, c: C)
    requires s != []
    ensures Has(s, f) ==> Inserted(s, f, c) == LookedUp(s, f)
    ensures !Has(s, f) ==> LookedUp(s, f) == s && Inserted(s, f, c) == ([Empty] + s[..|s| - 1])[0 := Dir(f, c)]
    ensures Find(s, f) == None <==> !Has(s, f)
  {
  }

  lemma MovedIs<C>(s: seq<Slot<C>>, i: nat, t: seq<Slot<C>>)
    requires i < |s| == |t| && t[0] == s[i]
    requires forall j | 0 < j <= i :: t[j] == s[j - 1]
    requires forall j | i < j < |s| :: t[j] == s[j]
    ensures t == MovedToFront(s, i)
  {
  }

  lemma NoResidents<C>(s: seq<Slot<C>>)
    requires forall i | 0 <= i < |s| :: s[i] == Empty
    ensures Residents(s) == multiset{}
  {
    forall d ensures Residents(s)[d] == 0 {
      if d in multiset(s) { assert d in s; }
    }
  }

  lemma ResidentsShifted<C>(s: seq<Slot<C>>)
    requires s != [] && s[|s| - 1] == Empty
    ensures Residents([Empty] + s[..|s| - 1]) == Residents(s)
  {
    assert s == s[..|s| - 1] + [Empty];
  }

  lemma ResidentsMoved<C>(s: seq<Slot<C>>, i: nat)
    requires i < |s|
    ensures Residents(MovedToFront(s, i)) == Residents(s)
  {
    assert s == s[..i] + [s[i]] + s[i + 1..];
  }

  lemma ResidentsWith<C>(s: seq<Slot<C>>, d: Slot<C>)
    requires s != [] && s[0] == Empty && d.Dir?
    ensures Residents(s[0 := d]) == Residents(s) + multiset{d}
  {
    assert s == [Empty] + s[1..];
    assert s[0 := d] == [d] + s[1..];
  }

  // ----- Traces -----

  /** S3ReadDir of a directory, with what the server lists at that time, or a change of it. */
  datatype Event<C> = Read(name: string, listing: C) | Change(name: string)

  function OpOf<C>(e: Event<C>): Op {
    match e
    case Read(f, _) => Use(f)
    case Change(f) => Drop(f)
  }

  function Ops<C>(trace: seq<Event<C>>): (ops: seq<Op>)
    ensures |ops| == |trace|
    ensures forall i | 0 <= i < |trace| :: ops[i] == OpOf(trace[i])
  {
    if trace == [] then [] else Ops(trace[..|trace| - 1]) + [OpOf(trace[|trace| - 1])]
  }

  /** The slots after a trace: a read inserts what it finds missing. */
  function After<C>(trace: seq<Event<C>>): (s: seq<Slot<C>>)
    ensures |s| == DIR_CACHE_SIZE
  {
    if trace == [] then seq(DIR_CACHE_SIZE, _ => Empty)
    else
      var before := After(trace[..|trace| - 1]);
      match trace[|trace| - 1]
      case Read(f, c) => Inserted(before, f, c)
      case Change(f) => Invalidated(before, f)
  }

  /** The names in the slots, the most recently used one last. */
  function Recent<C>(s: seq<Slot<C>>): seq<string> {
    if s == [] then [] else Recent(s[1..]) + (if s[0].Dir? then [s[0].name] else [])
  }

  lemma {:induction false} RecentConcat<C>(a: seq<Slot<C>>, b: seq<Slot<C>>)
    ensures Recent(a + b) == Recent(b) + Recent(a)
  {
    if a == [] {
      assert a + b == b;
    } else {
      assert (a + b)[1..] == a[1..] + b;
      RecentConcat(a[1..], b);
      Shift(Recent(b), Recent(a[1..]), if a[0].Dir? then [a[0].name] else []);
    }
  }

  lemma RecentOne<C>(d: Slot<C>)
    ensures Recent([d]) == if d.Dir? then [d.name] else []
  {
    assert [d][1..] == [];
  }

  lemma {:induction false} RecentHas<C>(s: seq<Slot<C>>, f: string)
    ensures f in Recent(s) <==> Has(s, f)
  {
    if s != [] { RecentHas(s[1..], f); }
  }

  lemma RecentParts<C>(a: seq<Slot<C>>, d: Slot<C>, b: seq<Slot<C>>)
    ensures Recent(a + ([d] + b)) == Recent(b) + Recent([d]) + Recent(a)
    ensures Recent([d] + (a + b)) == Recent(b) + Recent(a) + Recent([d])
    ensures Recent([Empty] + (a + b)) == Recent(b) + Recent(a)
  {
    RecentConcat(a, [d] + b);
    RecentConcat([d], b);
    RecentConcat(a, b);
    RecentConcat([d], a + b);
    RecentConcat([Empty], a + b);
    RecentOne<C>(Empty);
    hide Recent;
  }

  /** Finding a directory makes its name the last one; deleting it then removes the name. */
  lemma RecentFound<C>(s: seq<Slot<C>>, f: string)
    requires Has(s, f) && Distinct(Recent(s))
    ensures Recent(LookedUp(s, f)) == Remove(Recent(s), f) + [f]
    ensures Recent(LookedUp(s, f)[0 := Empty]) == Remove(Recent(s), f)
  {
    var a, d, b := LookedUpParts(s, f);
    RecentOne(d);
    hide Recent, LookedUp, Distinct, Remove, Has;
    RecentParts(a, d, b);
    RemoveMiddle(Recent(b), f, Recent(a));
  }

  lemma LookedUpParts<C>(s: seq<Slot<C>>, f: string) returns (a: seq<Slot<C>>, d: Slot<C>, b: seq<Slot<C>>)
    requires Has(s, f)
    ensures d.Dir? && d.name == f && s == a + ([d] + b) && !Has(a, f)
    ensures LookedUp(s, f) == [d] + (a + b) && LookedUp(s, f)[0 := Empty] == [Empty] + (a + b)
  {
    var i := IndexOf(s, f);
    a, d, b := s[..i], s[i], s[i + 1..];
    assert !Has(a, f) by { assert forall j | 0 <= j < i :: a[j] == s[j]; }
    assert LookedUp(s, f) == [d] + a + b;
    hide IndexOf, Has, LookedUp;
    ThreeParts(s, i);
    Rotated(a, d, b);
  }

  lemma ThreeParts<C>(s: seq<Slot<C>>, i: nat)
    requires i < |s|
    ensures s == s[..i] + ([s[i]] + s[i + 1..])
  {
  }

  lemma Rotated<C>(a: seq<Slot<C>>, d: Slot<C>, b: seq<Slot<C>>)
    ensures [d] + a + b == [d] + (a + b) && ([d] + (a + b))[0 := Empty] == [Empty] + (a + b)
  {
  }

  lemma RemoveMiddle(a: seq<string>, f: string, b: seq<string>)
    requires Distinct(a + [f] + b)
    ensures Remove(a + [f] + b, f) == a + b
  {
    assert a + [f] + b == a + ([f] + b);
    if f in a { TwiceIn(a, [f] + b, f); }
    RemoveConcat(a, [f] + b, f);
    assert ([f] + b)[1..] == b;
  }

  /** A new directory is the last name; the one in the last slot, if any, is forgotten. */
  lemma RecentInserted<C>(s: seq<Slot<C>>, f: string, c: C)
    requires s != [] && !Has(s, f)
    ensures var kept := s[..|s| - 1];
            && Recent(Inserted(s, f, c)) == Recent(kept) + [f]
            && Recent(s) == (if s[|s| - 1].Dir? then [s[|s| - 1].name] else []) + Recent(kept)
  {
    var kept, last := s[..|s| - 1], s[|s| - 1];
    assert s == kept + [last] && Inserted(s, f, c) == [Dir(f, c)] + kept;
    hide Recent, Inserted, Has;
    RecentConcat(kept, [last]);
    RecentOne(last);
    RecentConcat([Dir(f, c)], kept);
    RecentOne(Dir(f, c));
  }

  /** One event keeps the names in the slots at the end of the list of all names. */
  lemma EventKeepsSuffix<C>(x: seq<string>, s: seq<Slot<C>>, e: Event<C>)
    requires Distinct(x + Recent(s)) && s != []
    ensures var t := match e case Read(f, c) => Inserted(s, f, c) case Change(f) => Invalidated(s, f);
            IsSuffix(Recent(t), Note(x + Recent(s), OpOf(e)))
  {
    var f := e.name;
    var a := Recent(s);
    DistinctParts(x, a);
    RecentHas(s, f);
    hide Recent, Distinct, Remove, IsSuffix, Has;
    if Has(s, f) {
      if f in x { TwiceIn(x, a, f); }
      RemoveConcat(x, a, f);
      RecentFound(s, f);
      SuffixOf(x, Remove(a, f));
      SuffixOf(x, Remove(a, f) + [f]);
      Shift(x, Remove(a, f), [f]);
    } else {
      RemoveBefore(x, a, f);
      SuffixOf(Remove(x, f), a);
      if e.Read? {
        RecentInserted(s, f, e.listing);
        SuffixKept(Remove(x, f), if s[|s| - 1].Dir? then [s[|s| - 1].name] else [], Recent(s[..|s| - 1]), f);
      }
    }
  }

  lemma SuffixKept(x: seq<string>, g: seq<string>, k: seq<string>, f: string)
    ensures IsSuffix(k + [f], x + (g + k) + [f])
  {
    assert x + (g + k) + [f] == (x + g) + (k + [f]);
  }

  lemma RemoveBefore(x: seq<string>, a: seq<string>, f: string)
    requires f !in a
    ensures Remove(x + a, f) == Remove(x, f) + a
  {
    RemoveConcat(x, a, f);
    if f !in x {
      RemoveAbsent(a, f);
      RemoveAbsent(x, f);
    }
  }

  lemma SuffixIsDistinct(a: seq<string>, b: seq<string>)
    requires IsSuffix(a, b) && Distinct(b)
    ensures Distinct(a) && b == b[..|b| - |a|] + a
  {
    DistinctParts(b[..|b| - |a|], a);
  }

  lemma OpsSnoc<C>(trace: seq<Event<C>>)
    requires trace != []
    ensures Ops(trace)[..|trace| - 1] == Ops(trace[..|trace| - 1])
  {
  }

  /**
   After any trace, no name is in two slots, and the names in the slots are the
   last of all names that were read and not changed since, in the order of their
   last reading.
   */
  lemma {:induction false} SlotsAreRecent<C>(trace: seq<Event<C>>)
    ensures IsSuffix(Recent(After(trace)), Noted(Ops(trace))) && Distinct(Recent(After(trace)))
  {
    if trace == [] {
      EmptySlots<C>(DIR_CACHE_SIZE);
    } else {
      var before := trace[..|trace| - 1];
      SlotsAreRecent(before);
      NotedIsDistinct(Ops(before));
      OpsSnoc(trace);
      var l, a := Noted(Ops(before)), Recent(After(before));
      SuffixIsDistinct(a, l);
      EventKeepsSuffix(l[..|l| - |a|], After(before), trace[|trace| - 1]);
      NotedIsDistinct(Ops(trace));
      SuffixIsDistinct(Recent(After(trace)), Noted(Ops(trace)));
    }
    hide Recent, Distinct, IsSuffix, Note, Inserted, Invalidated;
  }

  lemma {:induction false} EmptySlots<C>(n: nat)
    ensures Recent(seq(n, _ => Slot<C>.Empty)) == []
  {
    if n > 0 {
      assert seq(n, _ => Slot<C>.Empty)[1..] == seq(n - 1, _ => Slot<C>.Empty);
      EmptySlots<C>(n - 1);
    }
  }

  // ----- Invalidation -----

  /** The last event about f, if any, is a change of it. */
  predicate IsInvalid<C>(trace: seq<Event<C>>, f: string) {
    trace == [] || (if trace[|trace| - 1].name == f then trace[|trace| - 1].Change? else IsInvalid(trace[..|trace| - 1], f))
  }

  lemma {:induction false} InvalidIsNotNoted<C>(trace: seq<Event<C>>, f: string)
    ensures f in Noted(Ops(trace)) <==> !IsInvalid(trace, f)
  {
    if trace != [] {
      var before := trace[..|trace| - 1];
      InvalidIsNotNoted(before, f);
      OpsSnoc(trace);
      NotedIsDistinct(Ops(before));
      RemoveElements(Noted(Ops(before)), trace[|trace| - 1].name);
    }
    hide Remove, Distinct;
  }

  /** A changed directory misses until it is read again. */
  lemma InvalidatedMisses<C>(trace: seq<Event<C>>, f: string)
    requires IsInvalid(trace, f)
    ensures Find(After(trace), f) == None
  {
    SlotsAreRecent(trace);
    InvalidIsNotNoted(trace, f);
    RecentHas(After(trace), f);
    hide Recent, After, Noted, IsInvalid;
  }

  lemma {:induction false} FindConcat<C>(a: seq<Slot<C>>, b: seq<Slot<C>>, f: string)
    ensures Find(a + b, f) == if Has(a, f) then Find(a, f) else Find(b, f)
  {
    if a == [] {
      assert a + b == b;
    } else {
      assert (a + b)[1..] == a[1..] + b;
      FindConcat(a[1..], b, f);
    }
  }

  lemma FindOther<C>(a: seq<Slot<C>>, d: Slot<C>, b: seq<Slot<C>>, f: string)
    requires d.Dir? ==> d.name != f
    ensures Find(a + ([d] + b), f) == Find(a + b, f) == Find([Empty] + (a + b), f)
  {
    assert !Has([d], f) && !Has([Slot<C>.Empty], f);
    hide Find, Has;
    FindConcat(a, [d] + b, f);
    FindConcat([d], b, f);
    FindConcat(a, b, f);
    FindConcat([Empty], a + b, f);
  }

  /** An invalidation takes away one listing and no other. */
  lemma FindInvalidated<C>(s: seq<Slot<C>>, g: string, f: string)
    requires Distinct(Recent(s)) && s != []
    ensures Find(Invalidated(s, g), f) == if f == g then None else Find(s, f)
  {
    if f == g {
      InvalidatedIsGone(s, g);
    } else if Has(s, g) {
      var a, d, b := LookedUpParts(s, g);
      assert Invalidated(s, g) == [Empty] + (a + b);
      FindOther(a, d, b, f);
    }
    hide Find, Has, Recent, Distinct;
  }

  lemma InvalidatedIsGone<C>(s: seq<Slot<C>>, f: string)
    requires Distinct(Recent(s)) && s != []
    ensures Find(Invalidated(s, f), f) == None
  {
    RecentHas(s, f);
    RemoveElements(Recent(s), f);
    if Has(s, f) { RecentFound(s, f); }
    RecentHas(Invalidated(s, f), f);
    hide Recent, Has, Distinct, Remove;
  }

  // ----- Exactness without invalidations -----

  predicate NoHoles<C>(s: seq<Slot<C>>) {
    forall i, j | 0 <= i < j < |s| && s[i].Empty? :: s[j].Empty?
  }

  lemma {:induction false} FullSlots<C>(s: seq<Slot<C>>)
    requires forall i | 0 <= i < |s| :: s[i].Dir?
    ensures |Recent(s)| == |s|
  {
    if s != [] { FullSlots(s[1..]); }
  }

  lemma {:induction false} RecentIsShort<C>(s: seq<Slot<C>>)
    ensures |Recent(s)| <= |s|
  {
    if s != [] { RecentIsShort(s[1..]); }
  }

  /** With no hole, a read does to the names what a use does to a cache with room for five. */
  lemma ReadIsUse<C>(s: seq<Slot<C>>, f: string, c: C)
    requires NoHoles(s) && s != [] && Distinct(Recent(s))
    ensures NoHoles(Inserted(s, f, c))
    ensures Recent(Inserted(s, f, c)) == Step(Recent(s), Use(f), |s|)
  {
    RecentHas(s, f);
    InsertedHasNoHoles(s, f, c);
    hide NoHoles, Recent, Distinct, Remove, Has;
    if Has(s, f) {
      RecentFound(s, f);
    } else {
      NewUse(s, f, c);
    }
  }

  lemma FullUse(k: seq<string>, g: string, f: string, n: nat)
    requires |k| + 1 == n
    ensures Last([g] + k + [f], n) == k + [f]
  {
  }

  lemma RoomForUse(k: seq<string>, f: string, n: nat)
    requires |k| < n
    ensures Last([] + k + [f], n) == k + [f]
  {
  }

  lemma {:induction false} HoleIsMissing<C>(s: seq<Slot<C>>, i: nat)
    requires i < |s| && s[i].Empty?
    ensures |Recent(s)| < |s|
  {
    if i > 0 { HoleIsMissing(s[1..], i - 1); } else { RecentIsShort(s[1..]); }
  }

  /**
   A new directory makes the cache forget the least recently used name beyond
   its size, and no other, exactly if the last slot is free or all are taken.
   */
  lemma InsertedIsLast<C>(s: seq<Slot<C>>, f: string, c: C)
    requires s != [] && !Has(s, f)
    ensures Recent(Inserted(s, f, c)) == Last(Recent(s) + [f], |s|) <==>
            s[|s| - 1].Empty? || forall i | 0 <= i < |s| :: s[i].Dir?
  {
    var kept, last := s[..|s| - 1], s[|s| - 1];
    RecentInserted(s, f, c);
    RecentIsShort(kept);
    if last.Empty? {
      RoomForUse(Recent(kept), f, |s|);
    } else if forall i | 0 <= i < |s| :: s[i].Dir? {
      FullSlots(kept);
      FullUse(Recent(kept), last.name, f, |s|);
    } else {
      var i :| 0 <= i < |s| && s[i].Empty?;
      HoleIsMissing(s, i);
    }
    hide Recent, Has, Inserted;
  }

  lemma NewUse<C>(s: seq<Slot<C>>, f: string, c: C)
    requires NoHoles(s) && s != [] && !Has(s, f)
    ensures Recent(Inserted(s, f, c)) == Last(Recent(s) + [f], |s|)
  {
    InsertedIsLast(s, f, c);
    hide Recent, Has, Inserted, Last;
  }

  lemma InsertedHasNoHoles<C>(s: seq<Slot<C>>, f: string, c: C)
    requires NoHoles(s) && s != []
    ensures NoHoles(Inserted(s, f, c))
  {
    if Has(s, f) {
      var i := IndexOf(s, f);
      assert forall j | 0 <= j < i :: s[j].Dir?;
    }
  }

  /** Without invalidations, the slots are exactly the five most recently read directories, in order. */
  lemma {:induction false} SlotsAreTheLastFive<C>(trace: seq<Event<C>>)
    requires forall i | 0 <= i < |trace| :: trace[i].Read?
    ensures NoHoles(After(trace)) && Recent(After(trace)) == Last(Noted(Ops(trace)), 5)
  {
    SlotsAreCached(trace);
    CachedIsLast(Ops(trace), DIR_CACHE_SIZE);
  }

  lemma {:induction false} SlotsAreCached<C>(trace: seq<Event<C>>)
    requires forall i | 0 <= i < |trace| :: trace[i].Read?
    ensures NoHoles(After(trace)) && Recent(After(trace)) == Cached(Ops(trace), DIR_CACHE_SIZE)
  {
    if trace == [] {
      EmptySlots<C>(DIR_CACHE_SIZE);
    } else {
      var before, e := trace[..|trace| - 1], trace[|trace| - 1];
      SlotsAreCached(before);
      SlotsAreRecent(before);
      OpsSnoc(trace);
      ReadIsUse(After(before), e.name, e.listing);
    }
    hide Recent, Distinct, IsSuffix, Step, Inserted;
  }

  // ----- Coherence -----

  /** Since the last change of f, the server has listed it in one way. */
  predicate Steady<C(==)>(trace: seq<Event<C>>, f: string, c: C) {
    trace == [] ||
    match trace[|trace| - 1]
    case Read(g, d) => (g == f ==> d == c) && Steady(trace[..|trace| - 1], f, c)
    case Change(g) => g == f || Steady(trace[..|trace| - 1], f, c)
  }

  predicate AllSlots<C(==)>(s: seq<Slot<C>>, f: string, c: C) {
    forall i | 0 <= i < |s| :: s[i].Dir? && s[i].name == f ==> s[i].contents == c
  }

  /** Coherence: while a listing changes only before an invalidation, the cache has the listing of the server. */
  lemma {:induction false} Coherence<C>(trace: seq<Event<C>>, f: string, c: C)
    requires Steady(trace, f, c)
    ensures AllSlots(After(trace), f, c)
    ensures Find(After(trace), f).Some? ==> Find(After(trace), f) == Some(c)
  {
    if trace != [] {
      var before, e := trace[..|trace| - 1], trace[|trace| - 1];
      if e.Change? && e.name == f {
        InvalidatedMisses(trace, f);
        NotFound(After(trace), f, c);
      } else {
        Coherence(before, f, c);
        EventKeepsAll(After(before), e, f, c);
      }
    }
    hide Steady, IsInvalid;
  }

  lemma NotFound<C>(s: seq<Slot<C>>, f: string, c: C)
    requires Find(s, f) == None
    ensures AllSlots(s, f, c)
  {
  }

  lemma EventKeepsAll<C>(s: seq<Slot<C>>, e: Event<C>, f: string, c: C)
    requires AllSlots(s, f, c) && s != [] && (e.Read? && e.name == f ==> e.listing == c)
    requires e.Read? || e.name != f
    ensures AllSlots(match e case Read(g, d) => Inserted(s, g, d) case Change(g) => Invalidated(s, g), f, c)
  {
  }

  // ----- A cache that is driven through a trace -----

  /** It ends in the slots that After says, and at its shutdown has freed what it accepted, each entry once. */
  method Replay<C(==)>(trace: seq<Event<C>>) returns (slots: seq<Slot<C>>)
    ensures slots == After(trace)
  {
    hide Inserted, Invalidated, Residents;
    var cache := new Cache<C>();
    var i := 0;
    while i < |trace|
      invariant i <= |trace| && fresh(cache) && fresh(cache.slots) && cache.Valid()
      invariant cache.slots[..] == After(trace[..i])
    {
      assert trace[..i + 1][..i] == trace[..i];
      match trace[i] {
        case Read(f, c) => cache.InsertInDirectoryCache(f, c);
        case Change(f) => cache.InvalidateDirectoryCacheElement(f);
      }
      i := i + 1;
    }
    assert trace[..i] == trace;
    slots := cache.slots[..];
    cache.ShutdownDirectoryCache();
    assert cache.freed == cache.accepted;
  }
}
