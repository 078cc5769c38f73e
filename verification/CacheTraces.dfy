/**
 Coherence of the two caches over any sequence of calls, however their paths
 are spelled.  A cache knows a path by the key that the call makes of it, and
 the answers are right for the keys that are the path of their components.
 */
module CacheTraces {
  import opened Recency
  import opened Wrappers
  import opened FileStat
  import opened CacheInvalidation
  import opened Paths
  import StatCache
  import DirCache

  /**
   A call, with what the server would answer at that time.  Rmdir is what S3Rmdir
   does in the end; before that, it makes some of the other calls.
   */
  datatype Call =
    | ReadDir(name: string, listing: Listing)
    | Unlink(path: string)
    | Mkdir(path: string, info: FileInfo)
    | Rmdir(path: string)
    | Link(linkname: string, target: string, info: FileInfo)
    | Stat(file: string, server: Server)

  /** What the functions demand of their callers. */
  predicate IsProper(c: Call) {
    match c
    case ReadDir(name, _) => SkipSlashes(name) != ""
    case Unlink(path) => path != ""
    case Mkdir(path, _) => path != ""
    case Rmdir(path) => path != ""
    case Link(_, target, _) => target != ""
    case Stat(_, _) => true
  }

  predicate AreProper(calls: seq<Call>) {
    forall i | 0 <= i < |calls| :: IsProper(calls[i])
  }

  // ----- The directory cache -----

  /** The directory key that S3Unlink and S3Mkdir invalidate for a path. */
  function InvalidatedBy(path: string): string
    requires path != ""
  {
    CleanedIsNotEmpty(path);
    Parent(Cleaned(path))
  }

  /** The event of a call for the directory cache. */
  function DirEvent(c: Call): seq<DirCache.Event<Listing>>
    requires IsProper(c)
  {
    match c
    case ReadDir(name, listing) => [DirCache.Read(DirKey(name), listing)]
    case Unlink(path) => [DirCache.Change(InvalidatedBy(path))]
    case Mkdir(path, _) => [DirCache.Change(InvalidatedBy(path))]
    case Rmdir(path) => [DirCache.Change(Parent(path))]
    case Link(_, target, _) => [DirCache.Change(Parent(target))]
    case Stat(_, _) => []
  }

  function DirEvents(calls: seq<Call>): seq<DirCache.Event<Listing>>
    requires AreProper(calls)
  {
    if calls == [] then [] else DirEvents(calls[..|calls| - 1]) + DirEvent(calls[|calls| - 1])
  }

  predicate IsAbsolute(p: string) {
    p != "" && p[0] == '/' && Split(p) != []
  }

  /** The path names something in the directory with these components. */
  predicate IsIn(path: string, directory: seq<string>) {
    IsAbsolute(path) && Front(Split(path)) == directory
  }

  /** The call adds something to the directory with these components, or removes it, and invalidates its listing. */
  predicate Changes(c: Call, directory: seq<string>) {
    match c
    case ReadDir(_, _) => false
    case Unlink(path) => IsIn(path, directory) && BackslashInLast(path)
    case Mkdir(path, _) => IsIn(path, directory) && BackslashInLast(path)
    case Rmdir(path) => IsIn(path, directory) && !EndsWithSlash(path) && !HasDouble(path)
    case Link(linkname, target, _) => IsIn(linkname, directory) && target != "" && Parent(target) == Join(directory)
    case Stat(_, _) => false
  }

  /** Since the last change of the directory, the server has listed it in one way under its canonical path. */
  predicate SteadyDir(calls: seq<Call>, directory: seq<string>, listing: Listing) {
    if calls == [] then true
    else
      var c := calls[|calls| - 1];
      if c.ReadDir? && DirKey(c.name) == Join(directory)
      then c.listing == listing && SteadyDir(calls[..|calls| - 1], directory, listing)
      else Changes(c, directory) || SteadyDir(calls[..|calls| - 1], directory, listing)
  }

  lemma ChangedKey(c: Call, directory: seq<string>)
    requires IsProper(c) && Changes(c, directory) && directory != []
    ensures DirEvent(c) == [DirCache.Change(Join(directory))]
  {
    if c.Unlink? || c.Mkdir? { InvalidatedKey(c.path); }
    if c.Rmdir? { RawParentKey(c.path); }
    hide Split, Join, Parent, Cleaned, DirKey, BackslashInLast, EndsWithSlash, HasDouble;
  }

  lemma SteadyConcat(a: seq<DirCache.Event<Listing>>, e: DirCache.Event<Listing>, f: string, l: Listing)
    ensures DirCache.Steady(a + [e], f, l) <==>
            if e.Change? && e.name == f then true
            else DirCache.Steady(a, f, l) && (e.Read? && e.name == f ==> e.listing == l)
  {
    assert (a + [e])[..|a + [e]| - 1] == a;
  }

  lemma DirSteadyCall(before: seq<DirCache.Event<Listing>>, c: Call, directory: seq<string>, listing: Listing)
    requires IsProper(c) && directory != [] && AreWords(directory)
    requires c.ReadDir? && DirKey(c.name) == Join(directory) ==> c.listing == listing
    requires !Changes(c, directory) ==> DirCache.Steady(before, Join(directory), listing)
    ensures DirCache.Steady(before + DirEvent(c), Join(directory), listing)
  {
    var key := Join(directory);
    hide Join, Parent, DirKey, InvalidatedBy, Changes, DirCache.Steady;
    if Changes(c, directory) {
      ChangedKey(c, directory);
      SteadyConcat(before, DirCache.Change(key), key, listing);
    } else if c.Stat? {
      assert before + DirEvent(c) == before;
    } else {
      SteadyConcat(before, DirEvent(c)[0], key, listing);
    }
  }

  lemma {:induction false} DirIsSteady(calls: seq<Call>, directory: seq<string>, listing: Listing)
    requires AreProper(calls) && directory != [] && AreWords(directory) && SteadyDir(calls, directory, listing)
    ensures DirCache.Steady(DirEvents(calls), Join(directory), listing)
  {
    if calls != [] {
      var before, c := calls[..|calls| - 1], calls[|calls| - 1];
      if !Changes(c, directory) { DirIsSteady(before, directory, listing); }
      DirSteadyCall(DirEvents(before), c, directory, listing);
    }
    hide Split, Join, Changes, DirEvent, AreWords;
  }

  /** The slots after the calls. */
  function Slots(calls: seq<Call>): seq<DirCache.Slot<Listing>>
    requires AreProper(calls)
  {
    DirCache.After(DirEvents(calls))
  }

  /**
   While the listing of a directory changes only by calls that change it, the
   cache has the listing of the server under the canonical path of the directory.
   */
  lemma DirCoherence(calls: seq<Call>, directory: seq<string>, listing: Listing)
    requires AreProper(calls) && directory != [] && AreWords(directory) && SteadyDir(calls, directory, listing)
    ensures var found := DirCache.Find(Slots(calls), Join(directory));
            found.Some? ==> found.value == listing
  {
    DirIsSteady(calls, directory, listing);
    DirCache.Coherence(DirEvents(calls), Join(directory), listing);
    hide *;
  }

  // ----- The stat cache -----

  function EntriesAfter(l: seq<StatCache.Entry<FileInfo>>, c: Call, capacity: nat): seq<StatCache.Entry<FileInfo>> {
    match c
    case ReadDir(_, _) => l
    case Unlink(path) => StatCache.Without(l, Cleaned(path))
    case Mkdir(path, info) => Overwritten(l, Cleaned(path), info)
    case Rmdir(path) => StatCache.Without(l, Cleaned(path))
    case Link(linkname, _, info) => Linked(l, linkname, info, capacity)
    case Stat(file, server) =>
      var key := StatKey(file);
      if IsSecret(key) then l else StatCache.Accessed(l, key, Resolved(server, key), capacity)
  }

  /** The entries of the stat cache after the calls. */
  function Entries(calls: seq<Call>, capacity: nat): seq<StatCache.Entry<FileInfo>> {
    if calls == [] then []
    else EntriesAfter(Entries(calls[..|calls| - 1], capacity), calls[|calls| - 1], capacity)
  }

  /** The call removes or replaces what the cache has of the file or directory with these components. */
  predicate Replaces(c: Call, file: seq<string>) {
    match c
    case ReadDir(_, _) => false
    case Unlink(path) => IsNamed(path, file)
    case Mkdir(path, _) => IsNamed(path, file)
    case Rmdir(path) => IsNamed(path, file)
    case Link(linkname, _, _) => linkname == Join(file)
    case Stat(_, _) => false
  }

  predicate IsNamed(path: string, file: seq<string>) {
    path != "" && path[0] == '/' && OnlySlashesFollow(path) && Split(path) == file
  }

  /** What the call stores under the canonical path of the file, if it stores anything. */
  function Stored(c: Call, file: seq<string>): Option<FileInfo> {
    match c
    case Mkdir(path, info) => if Cleaned(path) == Join(file) then Some(info) else None
    case Link(linkname, _, info) => if linkname == Join(file) then Some(info) else None
    case Stat(f, server) => if StatKey(f) == Join(file) then Some(Resolved(server, Join(file))) else None
    case _ => None
  }

  /** Since the file was last removed, or made as a directory or link, the server has had one answer for its path. */
  predicate SteadyFile(calls: seq<Call>, file: seq<string>, info: FileInfo) {
    if calls == [] then true
    else
      var c := calls[|calls| - 1];
      && (Stored(c, file).Some? ==> Stored(c, file).value == info)
      && (Replaces(c, file) || SteadyFile(calls[..|calls| - 1], file, info))
  }

  ghost predicate IsSound(l: seq<StatCache.Entry<FileInfo>>, capacity: nat) {
    Distinct(StatCache.Names(l)) && |l| <= capacity
  }

  lemma AccessIsSound(l: seq<StatCache.Entry<FileInfo>>, f: string, info: FileInfo, capacity: nat)
    requires IsSound(l, capacity)
    ensures IsSound(StatCache.Accessed(l, f, info, capacity), capacity)
  {
    StatCache.NamesAccessed(l, f, info, capacity);
    StepKeepsDistinct(StatCache.Names(l), Use(f), capacity);
    hide StatCache.Accessed, Step, Distinct;
  }

  lemma OverwriteIsSound(l: seq<StatCache.Entry<FileInfo>>, f: string, info: FileInfo, capacity: nat)
    requires IsSound(l, capacity)
    ensures IsSound(Overwritten(l, f, info), capacity)
  {
    SearchedEndsWith(l, f, info);
    StatCache.WithoutIsValid(l, f, capacity);
    hide StatCache.Without, StatCache.Find, StatCache.Names, Distinct, StatCache.Searched;
  }

  lemma {:induction false} EntriesAreSound(calls: seq<Call>, capacity: nat)
    ensures IsSound(Entries(calls, capacity), capacity)
  {
    if calls != [] {
      var before, c := calls[..|calls| - 1], calls[|calls| - 1];
      EntriesAreSound(before, capacity);
      CallIsSound(Entries(before, capacity), c, capacity);
    }
    hide IsSound, EntriesAfter;
  }

  lemma CallIsSound(l: seq<StatCache.Entry<FileInfo>>, c: Call, capacity: nat)
    requires IsSound(l, capacity)
    ensures IsSound(EntriesAfter(l, c, capacity), capacity)
  {
    match c {
      case ReadDir(_, _) =>
      case Unlink(path) => StatCache.WithoutIsValid(l, Cleaned(path), capacity);
      case Mkdir(path, info) => OverwriteIsSound(l, Cleaned(path), info, capacity);
      case Rmdir(path) => StatCache.WithoutIsValid(l, Cleaned(path), capacity);
      case Link(linkname, _, info) => LinkIsSound(l, linkname, info, capacity);
      case Stat(file, server) => AccessIsSound(l, StatKey(file), Resolved(server, StatKey(file)), capacity);
    }
    hide StatCache.Without, StatCache.Accessed, Overwritten, Linked, Cleaned, StatKey, Resolved, IsSecret, Distinct;
  }

  lemma LinkIsSound(l: seq<StatCache.Entry<FileInfo>>, f: string, info: FileInfo, capacity: nat)
    requires IsSound(l, capacity)
    ensures IsSound(Linked(l, f, info, capacity), capacity)
  {
    LinkedIsAccessed(l, f, info, capacity);
    StatCache.WithoutIsValid(l, f, capacity);
    AccessIsSound(StatCache.Without(l, f), f, info, capacity);
    hide StatCache.Without, StatCache.Accessed, Linked, Distinct;
  }

  /** A link is an access that misses. */
  lemma LinkedIsAccessed(l: seq<StatCache.Entry<FileInfo>>, f: string, info: FileInfo, capacity: nat)
    requires Distinct(StatCache.Names(l))
    ensures Linked(l, f, info, capacity) == StatCache.Accessed(StatCache.Without(l, f), f, info, capacity)
  {
    StatCache.FindWithout(l, f, f);
    hide StatCache.Find, StatCache.Without, Distinct;
  }

  lemma FindLinked(l: seq<StatCache.Entry<FileInfo>>, g: string, info: FileInfo, capacity: nat, f: string)
    requires IsSound(l, capacity)
    ensures var found := StatCache.Find(Linked(l, g, info, capacity), f);
            found.Some? ==> found == if f == g then Some(info) else StatCache.Find(l, f)
  {
    LinkedIsAccessed(l, g, info, capacity);
    StatCache.WithoutIsValid(l, g, capacity);
    StatCache.FindWithout(l, g, f);
    StatCache.FindAccessed(StatCache.Without(l, g), g, info, capacity, f);
    hide StatCache.Find, StatCache.Without, StatCache.Accessed, Linked, Distinct;
  }

  lemma FindOverwritten(l: seq<StatCache.Entry<FileInfo>>, g: string, info: FileInfo, f: string)
    requires Distinct(StatCache.Names(l))
    ensures var found := StatCache.Find(Overwritten(l, g, info), f);
            found == if f == g then (if StatCache.Find(l, f).Some? then Some(info) else None) else StatCache.Find(l, f)
  {
    if StatCache.Find(l, g).Some? {
      StatCache.FindWithout(l, g, f);
      StatCache.FindSnoc(StatCache.Without(l, g), StatCache.Entry(g, info), f);
    }
    hide StatCache.Find, StatCache.Without, Distinct;
  }

  lemma ReplacedKey(path: string, file: seq<string>)
    requires IsNamed(path, file) && file != []
    ensures Cleaned(path) == Join(file)
  {
    CleanedIsJoin(path);
    hide Split, Join, Cleaned, OnlySlashesFollow;
  }

  /** One call keeps the answer, or brings in the new one. */
  lemma FileSteadyCall(l: seq<StatCache.Entry<FileInfo>>, c: Call, capacity: nat, file: seq<string>, info: FileInfo)
    requires IsSound(l, capacity) && file != []
    requires Stored(c, file).Some? ==> Stored(c, file).value == info
    requires !Replaces(c, file) && StatCache.Find(l, Join(file)).Some? ==> StatCache.Find(l, Join(file)) == Some(info)
    ensures var found := StatCache.Find(EntriesAfter(l, c, capacity), Join(file));
            found.Some? ==> found.value == info
  {
    var key := Join(file);
    hide Join, Cleaned, StatKey, Resolved, IsSecret, StatCache.Find, StatCache.Accessed, StatCache.Without, Distinct;
    hide Linked, Overwritten, IsNamed;
    match c
    case ReadDir(_, _) =>
    case Unlink(path) => DeletedOrKept(l, path, file);
    case Mkdir(path, made) =>
      FindOverwritten(l, Cleaned(path), made, key);
      if IsNamed(path, file) { ReplacedKey(path, file); }
    case Rmdir(path) => DeletedOrKept(l, path, file);
    case Link(linkname, _, made) => FindLinked(l, linkname, made, capacity, key);
    case Stat(f, server) => StatCache.FindAccessed(l, StatKey(f), Resolved(server, StatKey(f)), capacity, key);
  }

  lemma DeletedOrKept(l: seq<StatCache.Entry<FileInfo>>, path: string, file: seq<string>)
    requires Distinct(StatCache.Names(l)) && file != []
    ensures var found := StatCache.Find(StatCache.Without(l, Cleaned(path)), Join(file));
            found.Some? ==> found == StatCache.Find(l, Join(file)) && !IsNamed(path, file)
  {
    StatCache.FindWithout(l, Cleaned(path), Join(file));
    if IsNamed(path, file) { ReplacedKey(path, file); }
    hide Join, Cleaned, StatCache.Find, StatCache.Without, Distinct, IsNamed;
  }

  /**
   While the server's answer for a file changes only when the file is removed or
   made as a directory or link, the cache has the answer of the server under the
   canonical path of the file.
   */
  lemma {:induction false} FileCoherence(calls: seq<Call>, capacity: nat, file: seq<string>, info: FileInfo)
    requires file != [] && SteadyFile(calls, file, info)
    ensures var found := StatCache.Find(Entries(calls, capacity), Join(file));
            found.Some? ==> found.value == info
  {
    if calls != [] {
      var before, c := calls[..|calls| - 1], calls[|calls| - 1];
      EntriesAreSound(before, capacity);
      if !Replaces(c, file) { FileCoherence(before, capacity, file, info); }
      FileSteadyCall(Entries(before, capacity), c, capacity, file, info);
    }
    hide Stored, Replaces, EntriesAfter, IsSound;
  }

  // ----- Which keys the calls invalidate -----

  lemma {:induction false} CollapseEnds(s: string, slashFound: bool)
    ensures EndsAtBackslash(Collapse(s, slashFound))
  {
    if s != "" && s[0] != '\\' { CollapseEnds(s[1..], s[0] == '/'); }
  }

  lemma {:induction false} StrippedIsPrefix(s: string)
    ensures Stripped(s) <= s
  {
    if |s| > 1 && s[|s| - 1] == '/' { StrippedIsPrefix(s[..|s| - 1]); }
  }

  lemma CleanedEnds(p: string)
    ensures EndsAtBackslash(Cleaned(p))
  {
    CollapseEnds(p, false);
    StrippedIsPrefix(Collapse(p, false));
    hide Collapse, Stripped;
  }

  lemma ParentHasNoBackslash(s: string)
    requires s != "" && EndsAtBackslash(s)
    ensures '\\' !in Parent(s)
  {
  }

  lemma KeptIsAll(s: string)
    requires EndsAtBackslash(s)
    ensures Kept(s) == s
  {
    var i := |Kept(s)| - 1;
    assert 0 <= i < |s| - 1 ==> s[i] != '\\';
    hide Kept;
  }

  lemma DirKeyIs(name: string)
    requires SkipSlashes(name) != ""
    ensures var k := DirKey(name);
            |k| >= 2 && k[0] == '/' && !EndsWithSlash(k)
  {
    var s := SkipSlashes(name);
    SkippedStarts(name);
    SplitStripped(s);
    StrippedEnd(s);
    assert |Stripped(s)| == 1 ==> Stripped(s)[0] != '/';
    hide SkipSlashes, Stripped, Split;
  }

  lemma {:induction false} SkippedStarts(s: string)
    requires SkipSlashes(s) != ""
    ensures SkipSlashes(s)[0] != '/'
  {
    if s[0] == '/' { SkippedStarts(s[1..]); }
  }

  lemma ParentOfCleaned(p: string) returns (before: seq<string>)
    requires IsAbsolute(p)
    ensures Cleaned(p) != "" && AreWords(before)
    ensures Parent(Cleaned(p)) == if before == [] then "/" else Join(before)
  {
    var ks := Split(Kept(p));
    hide Split, Join, Parent, Cleaned, Kept, OnlySlashesFollow, BackslashInLast;
    SplitOfKept(p);
    CleanedIsKept(p);
    CleanedIsNotEmpty(p);
    before := Front(ks);
    assert ks == before + [End(ks)];
    ParentOfJoin(before, End(ks));
  }

  /** The key that a change of p invalidates has neither two slashes in a row nor a backslash. */
  lemma InvalidatedIsPlain(p: string)
    requires IsAbsolute(p)
    ensures !HasDouble(InvalidatedBy(p)) && '\\' !in InvalidatedBy(p)
  {
    var before := ParentOfCleaned(p);
    JoinHasNoDouble(before);
    CleanedEnds(p);
    ParentHasNoBackslash(Cleaned(p));
    hide Join, Parent, Cleaned, IsAbsolute, AreWords;
  }

  lemma PlainIsInvalidated(k: string) returns (p: string)
    requires |k| >= 2 && k[0] == '/' && !EndsWithSlash(k) && !HasDouble(k) && '\\' !in k
    ensures IsAbsolute(p) && InvalidatedBy(p) == k
  {
    p := k + "/" + "x";
    JoinOfSplit(k);
    SplitSnoc(k, "x");
    assert EndsAtBackslash(p);
    KeptIsAll(p);
    assert Front(Split(k) + ["x"]) == Split(k);
    hide Split, Join, Parent, Cleaned, Kept;
    KeptIsLast(p);
    SplitIsSome(k);
    InvalidatedKey(p);
    DirKeyOfJoin(Split(k));
  }

  lemma KeptIsLast(p: string)
    requires Kept(p) == p
    ensures BackslashInLast(p)
  {
    assert p[|Kept(p)|..] == "";
  }

  lemma SplitIsSome(k: string)
    requires k != "" && !EndsWithSlash(k)
    ensures Split(k) != []
  {
    if Split(k) == [] { NoComponents(k); }
  }

  /**
   The key under which S3ReadDir caches a directory is one that S3Unlink and
   S3Mkdir invalidate for some path if and only if it has neither two slashes in
   a row nor a backslash.
   */
  lemma DirKeyIsInvalidated(name: string)
    requires SkipSlashes(name) != ""
    ensures (exists p :: IsAbsolute(p) && InvalidatedBy(p) == DirKey(name)) <==>
            !HasDouble(DirKey(name)) && '\\' !in DirKey(name)
  {
    hide Split, InvalidatedBy, HasDouble, DirKey, SkipSlashes;
    DirKeyIs(name);
    if !HasDouble(DirKey(name)) && '\\' !in DirKey(name) {
      var p := PlainIsInvalidated(DirKey(name));
    } else {
      forall p | IsAbsolute(p) ensures InvalidatedBy(p) != DirKey(name) { InvalidatedIsPlain(p); }
    }
  }

  /** S3Rmdir and S3CreateLink, which take raw paths, invalidate every key of S3ReadDir for some path. */
  lemma EveryDirKeyIsRawParent(name: string)
    requires SkipSlashes(name) != ""
    ensures exists p :: IsAbsolute(p) && Parent(p) == DirKey(name)
  {
    var k := DirKey(name);
    var p := k + "/" + "x";
    hide DirKey, SkipSlashes, Parent, Split;
    DirKeyIs(name);
    ParentOf(k, "x");
    SplitSnoc(k, "x");
    assert IsAbsolute(p) && Parent(p) == k;
  }

  /**
   The key under which S3FileStat caches a file is one that S3Unlink and S3Rmdir
   delete for some path if and only if it has no two slashes in a row and nothing
   follows its first backslash.
   */
  lemma StatKeyIsDeleted(file: string)
    requires Split(file) != []
    ensures (exists p :: IsAbsolute(p) && Cleaned(p) == StatKey(file)) <==>
            !HasDouble(StatKey(file)) && EndsAtBackslash(StatKey(file))
  {
    var k := StatKey(file);
    StatKeyIs(file);
    hide Split, Join, Cleaned, HasDouble, StatKey, Kept, EndsAtBackslash;
    if !HasDouble(k) && EndsAtBackslash(k) {
      JoinOfSplit(k);
      KeptIsAll(k);
      CleanedIsKept(k);
      assert IsAbsolute(k);
    } else {
      forall p | IsAbsolute(p) ensures Cleaned(p) != k {
        CleanedEnds(p);
        CleanedIsKept(p);
        JoinHasNoDouble(Split(Kept(p)));
      }
    }
  }

  /** A directory that was read under another key is listed as before, even if a file in it has gone. */
  lemma StaleListing(name: string, listing: Listing, p: string)
    requires SkipSlashes(name) != "" && IsAbsolute(p) && (HasDouble(DirKey(name)) || '\\' in DirKey(name))
    ensures AreProper([ReadDir(name, listing), Unlink(p)])
    ensures DirCache.Find(Slots([ReadDir(name, listing), Unlink(p)]), DirKey(name)) == Some(listing)
  {
    var calls := [ReadDir(name, listing), Unlink(p)];
    assert calls[..1] == [ReadDir(name, listing)] && calls[..1][..0] == [];
    InvalidatedIsPlain(p);
    var k, other := DirKey(name), InvalidatedBy(p);
    assert DirEvents(calls[..1]) == [] + [DirCache.Read(k, listing)];
    var trace := [DirCache.Read(k, listing), DirCache.Change(other)];
    assert DirEvents(calls) == trace;
    hide InvalidatedBy, HasDouble, DirKey, SkipSlashes, Split;
    ReadAndChange(k, listing, other);
  }

  lemma ReadAndChange(k: string, listing: Listing, other: string)
    requires k != other
    ensures DirCache.Find(DirCache.After([DirCache.Read(k, listing), DirCache.Change(other)]), k) == Some(listing)
  {
    var trace := [DirCache.Read(k, listing), DirCache.Change(other)];
    assert trace[..1] == [DirCache.Read(k, listing)] && trace[..1][..0] == [];
    var empty := seq(DirCache.DIR_CACHE_SIZE, _ => DirCache.Slot<Listing>.Empty);
    var one := DirCache.After(trace[..1]);
    assert DirCache.After<Listing>([]) == empty;
    assert !DirCache.Has(empty, k);
    assert one == [DirCache.Dir(k, listing)] + empty[..DirCache.DIR_CACHE_SIZE - 1];
    assert !DirCache.Has(one, other);
  }

  // ----- The two caches, driven through any calls -----

  /** They end in the slots and the entries that the calls say. */
  method Replay(calls: seq<Call>, capacity: nat)
    returns (slots: seq<DirCache.Slot<Listing>>, entries: seq<StatCache.Entry<FileInfo>>)
    requires AreProper(calls)
    ensures slots == Slots(calls) && entries == Entries(calls, capacity)
  {
    var s3 := new S3(capacity);
    var i := 0;
    while i < |calls|
      invariant i <= |calls| && s3.Valid() && s3.stats.capacity == capacity
      invariant fresh(s3.stats) && fresh(s3.dirs) && fresh(s3.dirs.slots)
      invariant s3.dirs.slots[..] == Slots(calls[..i]) && s3.stats.entries == Entries(calls[..i], capacity)
    {
      CallSnoc(calls, i, capacity);
      hide Slots, Entries;
      Perform(s3, calls[i]);
      i := i + 1;
    }
    assert calls[..i] == calls;
    slots, entries := s3.dirs.slots[..], s3.stats.entries;
  }

  function SlotsAfter(s: seq<DirCache.Slot<Listing>>, c: Call): seq<DirCache.Slot<Listing>>
    requires IsProper(c) && s != []
  {
    match c
    case ReadDir(name, listing) => DirCache.Inserted(s, DirKey(name), listing)
    case Unlink(path) => DirCache.Invalidated(s, InvalidatedBy(path))
    case Mkdir(path, _) => DirCache.Invalidated(s, InvalidatedBy(path))
    case Rmdir(path) => DirCache.Invalidated(s, Parent(path))
    case Link(_, target, _) => DirCache.Invalidated(s, Parent(target))
    case Stat(_, _) => s
  }

  lemma CallSnoc(calls: seq<Call>, i: nat, capacity: nat)
    requires i < |calls| && AreProper(calls)
    ensures |Slots(calls[..i])| == DirCache.DIR_CACHE_SIZE
    ensures Slots(calls[..i + 1]) == SlotsAfter(Slots(calls[..i]), calls[i])
    ensures Entries(calls[..i + 1], capacity) == EntriesAfter(Entries(calls[..i], capacity), calls[i], capacity)
  {
    assert calls[..i + 1][..i] == calls[..i];
    var events, e := DirEvents(calls[..i]), DirEvent(calls[i]);
    assert DirEvents(calls[..i + 1]) == events + e;
    if e == [] {
      assert events + e == events;
    } else {
      assert (events + e)[..|events|] == events;
    }
    hide EntriesAfter, DirCache.Inserted, DirCache.Invalidated, DirKey, InvalidatedBy, Parent;
  }

  method Perform(s3: S3, c: Call)
    requires s3.Valid() && IsProper(c)
    modifies s3.stats, s3.dirs, s3.dirs.slots
    ensures s3.Valid()
    ensures s3.dirs.slots[..] == SlotsAfter(old(s3.dirs.slots[..]), c)
    ensures s3.stats.entries == EntriesAfter(old(s3.stats.entries), c, s3.stats.capacity)
  {
    hide DirCache.Inserted, DirCache.Invalidated, DirCache.Find, DirCache.Recent, DirCache.Residents, Distinct;
    hide StatCache.Without, StatCache.Accessed, StatCache.Find, Overwritten, Linked, StatCache.Cache.IsBalanced;
    hide Cleaned, Parent, DirKey, StatKey, SkipSlashes, IsSecret, Resolved;
    match c {
      case ReadDir(name, listing) => var names, status := s3.S3ReadDir(name, listing, 0);
      case Unlink(path) => s3.S3Unlink(path);
      case Mkdir(path, info) => s3.S3Mkdir(path, info);
      case Rmdir(path) =>
        var cleanName := CleanPath(path);
        s3.InvalidateRemoved(path, cleanName);
      case Link(linkname, target, info) => s3.S3CreateLink(linkname, target, info);
      case Stat(file, server) => var status, fi := S3FileStat(s3.stats, file, server);
    }
  }
}
