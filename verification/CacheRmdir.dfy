/**
 S3Rmdir of src/s3if.c, which looks at both caches and changes both, as a
 sequence of the calls of CacheTraces; and what S3Rmdir and S3CreateLink leave
 in the directory cache.
 */
module CacheRmdir {
  import opened Recency
  import opened Wrappers
  import opened FileStat
  import opened CacheInvalidation
  import opened Paths
  import opened CacheTraces
  import StatCache
  import DirCache

  const EACCES: int := 13
  const ENOTDIR: int := 20
  const ENOTEMPTY: int := 39

  type Entries = seq<StatCache.Entry<FileInfo>>

  // ----- Calls from any state of the caches -----

  function SlotsThrough(s: Slots, calls: seq<Call>): (t: Slots)
    requires AreProper(calls) && s != []
    ensures |t| == |s|
  {
    if calls == [] then s else SlotsAfter(SlotsThrough(s, calls[..|calls| - 1]), calls[|calls| - 1])
  }

  function EntriesThrough(l: Entries, calls: seq<Call>, capacity: nat): Entries {
    if calls == [] then l
    else EntriesAfter(EntriesThrough(l, calls[..|calls| - 1], capacity), calls[|calls| - 1], capacity)
  }

  /** The calls lead from slots s and entries l to slots s' and entries l'. */
  predicate Follows(s: Slots, l: Entries, calls: seq<Call>, capacity: nat, s': Slots, l': Entries) {
    && s != []
    && AreProper(calls)
    && s' == SlotsThrough(s, calls)
    && l' == EntriesThrough(l, calls, capacity)
  }

  lemma OneThrough(s: Slots, l: Entries, calls: seq<Call>, c: Call, capacity: nat)
    requires AreProper(calls) && IsProper(c) && s != []
    ensures AreProper(calls + [c])
    ensures SlotsThrough(s, calls + [c]) == SlotsAfter(SlotsThrough(s, calls), c)
    ensures EntriesThrough(l, calls + [c], capacity) == EntriesAfter(EntriesThrough(l, calls, capacity), c, capacity)
  {
    assert (calls + [c])[..|calls|] == calls;
    hide SlotsAfter, EntriesAfter;
  }

  lemma CallAfter(calls: seq<Call>, c: Call, capacity: nat)
    requires AreProper(calls) && IsProper(c)
    ensures AreProper(calls + [c]) && |CacheTraces.Slots(calls)| == DirCache.DIR_CACHE_SIZE
    ensures CacheTraces.Slots(calls + [c]) == SlotsAfter(CacheTraces.Slots(calls), c)
    ensures CacheTraces.Entries(calls + [c], capacity) == EntriesAfter(CacheTraces.Entries(calls, capacity), c, capacity)
  {
    var all := calls + [c];
    assert all[..|calls|] == calls && all[..|calls| + 1] == all;
    hide CacheTraces.Slots, CacheTraces.Entries, SlotsAfter, EntriesAfter, IsProper;
    CallSnoc(all, |calls|, capacity);
  }

  lemma FrontIsProper(calls: seq<Call>)
    requires AreProper(calls) && calls != []
    ensures AreProper(calls[..|calls| - 1]) && IsProper(calls[|calls| - 1])
  {
  }

  lemma BothAreProper(a: seq<Call>, b: seq<Call>)
    requires AreProper(a) && AreProper(b)
    ensures AreProper(a + b)
  {
  }

  lemma NothingBefore(calls: seq<Call>)
    requires AreProper(calls)
    ensures |CacheTraces.Slots(calls)| == DirCache.DIR_CACHE_SIZE && CacheTraces.Slots(calls) != []
  {
  }

  /** What calls do after others is what they do together. */
  lemma {:induction false} ThroughConcat(before: seq<Call>, calls: seq<Call>, capacity: nat)
    requires AreProper(before) && AreProper(calls)
    ensures AreProper(before + calls) && |CacheTraces.Slots(before)| == DirCache.DIR_CACHE_SIZE
    ensures CacheTraces.Slots(before + calls) == SlotsThrough(CacheTraces.Slots(before), calls)
    ensures CacheTraces.Entries(before + calls, capacity) ==
            EntriesThrough(CacheTraces.Entries(before, capacity), calls, capacity)
  {
    hide *;
    NothingBefore(before);
    BothAreProper(before, calls);
    var s, l := CacheTraces.Slots(before), CacheTraces.Entries(before, capacity);
    if calls == [] {
      assert before + calls == before;
      Nothing(s, l, capacity);
    } else {
      FrontIsProper(calls);
      var earlier, c := calls[..|calls| - 1], calls[|calls| - 1];
      assert calls == earlier + [c] && before + calls == before + earlier + [c];
      ThroughConcat(before, earlier, capacity);
      CallAfter(before + earlier, c, capacity);
      OneThrough(s, l, earlier, c, capacity);
    }
  }

  // ----- S3Rmdir -----

  /** What S3FileStat answers. */
  function Answer(l: Entries, file: string, server: Server): FileInfo {
    var key := StatKey(file);
    if IsSecret(key) then FileNotFound
    else match StatCache.Find(l, key)
      case Some(info) => info
      case None => Resolved(server, key)
  }

  predicate IsDirectory(info: FileInfo) {
    info.FileInfo? && info.fileType == 'd'
  }

  /** What a limited reading of a directory brings in: a few of its names, and the error of the requests. */
  datatype Reading = Reading(some: Listing, error: int)

  /** IsDirectoryEmpty: S3ReadDir succeeds, and returns no name other than "." and "..". */
  predicate LooksEmpty(s: Slots, dirname: string, reading: Reading) {
    match DirCache.Find(s, DirKey(dirname))
    case Some(names) => names == []
    case None => reading.error == 0 && reading.some == []
  }

  function SecretFile(dirname: string): string {
    dirname + "/" + IS_S3_DIRECTORY_FILE
  }

  /**
   The calls that S3Rmdir comes to: it asks for the type of the directory, for a
   few of its files, deletes the secret file, and then the directory.
   */
  function RmdirCalls(s: Slots, l: Entries, dirname: string, server: Server, reading: Reading, unlinked: bool)
    : seq<Call>
  {
    var cleanName := Cleaned(dirname);
    var asked := [Stat(cleanName, server)];
    var read := asked + [ReadDir(cleanName, reading.some)];
    var emptied := read + [Unlink(SecretFile(cleanName))];
    if !IsDirectory(Answer(l, cleanName, server)) then asked
    else if !LooksEmpty(s, cleanName, reading) then read
    else if !unlinked then emptied
    else emptied + [Rmdir(dirname)]
  }

  /** The status of S3FileStat tells whether there is such a file. */
  method StatDirectory(s3: S3, cleanName: string, server: Server) returns (status: int, isDirectory: bool)
    requires s3.Valid()
    modifies s3.stats
    ensures s3.Valid()
    ensures s3.stats.entries == EntriesAfter(old(s3.stats.entries), Stat(cleanName, server), s3.stats.capacity)
    ensures status == 0 <==> Answer(old(s3.stats.entries), cleanName, server) != FileNotFound
    ensures isDirectory <==> IsDirectory(Answer(old(s3.stats.entries), cleanName, server))
  {
    hide StatCache.Accessed, StatCache.Find, StatCache.Cache.IsBalanced, StatKey, IsSecret, Resolved, Distinct;
    hide DirCache.Residents, DirCache.Recent;
    var fi;
    status, fi := S3FileStat(s3.stats, cleanName, server);
    isDirectory := status == 0 && fi.Some? && fi.value.FileInfo? && fi.value.fileType == 'd';
  }

  method IsDirectoryEmpty(s3: S3, dirname: string, reading: Reading) returns (success: bool)
    requires s3.Valid() && SkipSlashes(dirname) != ""
    modifies s3.dirs, s3.dirs.slots
    ensures s3.Valid()
    ensures s3.dirs.slots[..] == DirCache.Inserted(old(s3.dirs.slots[..]), DirKey(dirname), reading.some)
    ensures success <==> LooksEmpty(old(s3.dirs.slots[..]), dirname, reading)
  {
    hide DirCache.Inserted, DirCache.Find, DirCache.Recent, DirCache.Residents, Distinct, DirKey, SkipSlashes;
    success := false;
    var names, status := s3.S3ReadDir(dirname, reading.some, reading.error);
    if status == 0 {
      var nFiles := |names| + 2;
      if nFiles <= 2 {
        success := true;
      }
    }
  }

  /** The end of S3Rmdir, for an empty directory. */
  method RemoveEmpty(s3: S3, dirname: string, cleanName: string, unlinked: bool, deleted: int) returns (status: int)
    requires s3.Valid() && dirname != "" && cleanName == Cleaned(dirname)
    modifies s3.stats, s3.dirs, s3.dirs.slots
    ensures s3.Valid() && SecretFile(cleanName) != "" && status == (if unlinked then deleted else -EACCES)
    ensures var s := SlotsAfter(old(s3.dirs.slots[..]), Unlink(SecretFile(cleanName)));
            s3.dirs.slots[..] == if unlinked then SlotsAfter(s, Rmdir(dirname)) else s
    ensures var n := s3.stats.capacity;
            var l := EntriesAfter(old(s3.stats.entries), Unlink(SecretFile(cleanName)), n);
            s3.stats.entries == if unlinked then EntriesAfter(l, Rmdir(dirname), n) else l
  {
    hide DirCache.Invalidated, DirCache.Recent, DirCache.Residents, Distinct, Cleaned, Parent;
    hide StatCache.Without, StatCache.Cache.IsBalanced;
    SecretIsSomething(cleanName);
    var secretFile := SecretFile(cleanName);
    hide SecretFile;
    s3.S3Unlink(secretFile);
    status := -EACCES;
    if unlinked {
      s3.InvalidateRemoved(dirname, cleanName);
      status := deleted;
    }
  }

  lemma SecretIsSomething(dirname: string)
    ensures SecretFile(dirname) != ""
  {
  }

  /**
   The caches change as by RmdirCalls.  The directory is removed only if it is
   one, no file of it was listed, and its secret file could be removed.
   */
  method S3Rmdir(s3: S3, dirname: string, server: Server, reading: Reading, unlinked: bool, deleted: int)
    returns (status: int)
    requires s3.Valid() && dirname != "" && SkipSlashes(Cleaned(dirname)) != ""
    modifies s3.stats, s3.dirs, s3.dirs.slots
    ensures s3.Valid()
    ensures var s, l := old(s3.dirs.slots[..]), old(s3.stats.entries);
            var calls := RmdirCalls(s, l, dirname, server, reading, unlinked);
            Follows(s, l, calls, s3.stats.capacity, s3.dirs.slots[..], s3.stats.entries)
    ensures var s, info := old(s3.dirs.slots[..]), Answer(old(s3.stats.entries), Cleaned(dirname), server);
            if info == FileNotFound then status != 0
            else if info.fileType != 'd' then status == -20
            else if !LooksEmpty(s, Cleaned(dirname), reading) then status == -39
            else if !unlinked then status == -13
            else status == deleted
  {
    ghost var s, l, n := s3.dirs.slots[..], s3.stats.entries, s3.stats.capacity;
    hide Cleaned, SkipSlashes, SecretFile, Answer, LooksEmpty, Distinct, DirCache.Recent, DirCache.Residents;
    RmdirThrough(s, l, dirname, server, reading, unlinked, n);
    hide RmdirCalls, SlotsThrough, EntriesThrough, EntriesAfter, DirCache.Inserted, DirCache.Invalidated;
    var cleanName := CleanPath(dirname);
    var isDirectory;
    status, isDirectory := StatDirectory(s3, cleanName, server);
    if status == 0 {
      if isDirectory {
        var empty := IsDirectoryEmpty(s3, cleanName, reading);
        if empty {
          status := RemoveEmpty(s3, dirname, cleanName, unlinked, deleted);
        } else {
          status := -ENOTEMPTY;
        }
      } else {
        status := -ENOTDIR;
      }
    }
  }

  /** The calls, one after the other. */
  lemma RmdirThrough(s: Slots, l: Entries, dirname: string, server: Server, reading: Reading, unlinked: bool, n: nat)
    requires dirname != "" && SkipSlashes(Cleaned(dirname)) != "" && s != []
    ensures var cleanName := Cleaned(dirname);
            var secret := SecretFile(cleanName);
            var calls := RmdirCalls(s, l, dirname, server, reading, unlinked);
            var read := SlotsAfter(s, ReadDir(cleanName, reading.some));
            && secret != ""
            && AreProper(calls)
            && SlotsThrough(s, calls) == (
                 if !IsDirectory(Answer(l, cleanName, server)) then s
                 else if !LooksEmpty(s, cleanName, reading) then read
                 else if !unlinked then SlotsAfter(read, Unlink(secret))
                 else SlotsAfter(SlotsAfter(read, Unlink(secret)), Rmdir(dirname)))
            && var asked := EntriesAfter(l, Stat(cleanName, server), n);
               EntriesThrough(l, calls, n) == (
                 if !IsDirectory(Answer(l, cleanName, server)) || !LooksEmpty(s, cleanName, reading) then asked
                 else if !unlinked then EntriesAfter(asked, Unlink(secret), n)
                 else EntriesAfter(EntriesAfter(asked, Unlink(secret), n), Rmdir(dirname), n))
  {
    hide Cleaned, SkipSlashes, SecretFile, Answer, LooksEmpty, SlotsThrough, EntriesThrough;
    hide StatCache.Accessed, StatCache.Without, DirCache.Inserted, DirCache.Invalidated, StatKey, Resolved, IsSecret;
    hide InvalidatedBy, Parent, DirKey;
    var cleanName := Cleaned(dirname);
    SecretIsSomething(cleanName);
    var stat, dir, unlink := Stat(cleanName, server), ReadDir(cleanName, reading.some), Unlink(SecretFile(cleanName));
    Nothing(s, l, n);
    OneThrough(s, l, [], stat, n);
    assert [] + [stat] == [stat];
    OneThrough(s, l, [stat], dir, n);
    OneThrough(s, l, [stat] + [dir], unlink, n);
    OneThrough(s, l, [stat] + [dir] + [unlink], Rmdir(dirname), n);
  }

  lemma Nothing(s: Slots, l: Entries, capacity: nat)
    requires s != []
    ensures SlotsThrough(s, []) == s && EntriesThrough(l, [], capacity) == l
  {
  }

  // ----- What they leave in the directory cache -----

  lemma FindRead(s: Slots, key: string, listing: Listing)
    requires s != []
    ensures DirCache.Find(DirCache.Inserted(s, key, listing), key) ==
            Some(match DirCache.Find(s, key) case Some(names) => names case None => listing)
  {
    if DirCache.Has(s, key) {
      var a, d, b := DirCache.LookedUpParts(s, key);
      DirCache.FindConcat(a, [d] + b, key);
    }
  }

  /** What is cached of a directory that S3Rmdir does not remove, because it does not look empty. */
  lemma ReadingIsCached(s: Slots, l: Entries, dirname: string, server: Server, reading: Reading, unlinked: bool)
    requires dirname != "" && SkipSlashes(Cleaned(dirname)) != "" && s != []
    requires IsDirectory(Answer(l, Cleaned(dirname), server)) && !LooksEmpty(s, Cleaned(dirname), reading)
    ensures var calls := RmdirCalls(s, l, dirname, server, reading, unlinked);
            var key := DirKey(Cleaned(dirname));
            && AreProper(calls)
            && DirCache.Find(SlotsThrough(s, calls), key) ==
               Some(match DirCache.Find(s, key) case Some(names) => names case None => reading.some)
  {
    RmdirThrough(s, l, dirname, server, reading, unlinked, 0);
    FindRead(s, DirKey(Cleaned(dirname)), reading.some);
    hide Cleaned, SkipSlashes, Answer, DirKey, RmdirCalls, SlotsThrough, EntriesThrough, DirCache.Inserted, SecretFile;
    hide DirCache.Find, LooksEmpty;
  }

  /**
   The few files that the server listed for a directory that is not empty are
   cached as if they were all: S3ReadDir returns them from then on.
   */
  lemma FewFilesAreCached(s: Slots, l: Entries, dirname: string, server: Server, reading: Reading, unlinked: bool)
    requires dirname != "" && SkipSlashes(Cleaned(dirname)) != "" && s != []
    requires IsDirectory(Answer(l, Cleaned(dirname), server)) && reading.some != []
    requires DirCache.Find(s, DirKey(Cleaned(dirname))) == None
    ensures var calls := RmdirCalls(s, l, dirname, server, reading, unlinked);
            && AreProper(calls)
            && DirCache.Find(SlotsThrough(s, calls), DirKey(Cleaned(dirname))) == Some(reading.some)
  {
    ReadingIsCached(s, l, dirname, server, reading, unlinked);
    hide Cleaned, SkipSlashes, Answer, DirKey, RmdirCalls, SlotsThrough, DirCache.Find;
  }

  /**
   If the request for the files of a directory fails, nothing is removed; but the
   directory is then cached as empty, and looks so to the next S3Rmdir whatever
   is in it.
   */
  lemma FailureLooksEmpty(s: Slots, l: Entries, dirname: string, server: Server, error: int, unlinked: bool,
                          later: Reading)
    requires dirname != "" && SkipSlashes(Cleaned(dirname)) != "" && s != []
    requires IsDirectory(Answer(l, Cleaned(dirname), server)) && error != 0
    requires DirCache.Find(s, DirKey(Cleaned(dirname))) == None
    ensures var calls := RmdirCalls(s, l, dirname, server, Reading([], error), unlinked);
            && AreProper(calls)
            && !LooksEmpty(s, Cleaned(dirname), Reading([], error))
            && LooksEmpty(SlotsThrough(s, calls), Cleaned(dirname), later)
  {
    ReadingIsCached(s, l, dirname, server, Reading([], error), unlinked);
    hide Cleaned, SkipSlashes, Answer, DirKey, RmdirCalls, SlotsThrough, DirCache.Find;
  }

  /** A link changes what is cached of the directory of its target, and nothing else. */
  lemma LinkInvalidates(s: Slots, linkname: string, target: string, info: FileInfo, key: string)
    requires Distinct(DirCache.Recent(s)) && s != [] && target != ""
    ensures DirCache.Find(SlotsAfter(s, Link(linkname, target, info)), key) ==
            if Parent(target) == key then None else DirCache.Find(s, key)
  {
    DirCache.FindInvalidated(s, Parent(target), key);
    hide DirCache.Find, DirCache.Invalidated, Parent, Distinct, DirCache.Recent;
  }

  /**
   The listing of the directory that a link is put in stays in the cache, and
   without the link, unless the target happens to be in the same directory.
   */
  lemma LinkIsUnseen(calls: seq<Call>, linkname: string, target: string, info: FileInfo, directory: seq<string>)
    requires AreProper(calls) && IsIn(linkname, directory) && target != "" && directory != []
    ensures AreProper(calls + [Link(linkname, target, info)])
    ensures var after := CacheTraces.Slots(calls + [Link(linkname, target, info)]);
            var found := DirCache.Find(CacheTraces.Slots(calls), Join(directory));
            DirCache.Find(after, Join(directory)) == found <==> found == None || Parent(target) != Join(directory)
  {
    var link := Link(linkname, target, info);
    assert (calls + [link])[..|calls|] == calls && (calls + [link])[..|calls| + 1] == calls + [link];
    CallSnoc(calls + [link], |calls|, 0);
    DirCache.SlotsAreRecent(DirEvents(calls));
    hide DirCache.Find, Parent, Join, Distinct, DirCache.Recent, IsIn, SlotsAfter, DirCache.After, DirEvents;
    LinkInvalidates(CacheTraces.Slots(calls), linkname, target, info, Join(directory));
  }

  // ----- What is removed is asked for again -----

  const SECRET_NAME: string := ".----s3--dir--do-not-delete"

  lemma SecretNames()
    ensures IS_S3_DIRECTORY_FILE == "/" + SECRET_NAME && SECRET_NAME != "" && '/' !in SECRET_NAME && '\\' !in SECRET_NAME
  {
  }

  lemma SecretComponents(d: string)
    requires d != "" && d[0] == '/'
    ensures SecretFile(d) == (d + "/") + "/" + SECRET_NAME && SecretFile(d)[0] == '/'
    ensures Split(SecretFile(d)) == Split(d) + [SECRET_NAME]
  {
    SecretNames();
    hide Split, SECRET_NAME, IS_S3_DIRECTORY_FILE;
    SplitTrailing(d);
    SplitSnoc(d + "/", SECRET_NAME);
    Appended(d, SECRET_NAME);
  }

  lemma Appended(d: string, name: string)
    ensures d + "/" + ("/" + name) == (d + "/") + "/" + name
  {
  }

  /** The first backslash of a path is in its last component, which has none, exactly if there is none. */
  lemma NoneInLast(a: string, w: string)
    requires w != "" && '/' !in w && '\\' !in w
    ensures BackslashInLast(a + "/" + w) <==> '\\' !in a
  {
    var p := a + "/" + w;
    if '\\' in a {
      KeptBefore(a, "/" + w);
      assert a + "/" + w == a + ("/" + w);
      var tail := p[|Kept(p)|..];
      SlashAfterWord(tail, |a| - |Kept(p)|);
      var rest := AfterComponent(p);
      assert rest[|rest| - 1] == w[|w| - 1];
      assert w[|w| - 1] in w;
    } else {
      KeptWhole(p);
    }
    hide Kept, Word;
  }

  lemma {:induction false} KeptBefore(a: string, b: string)
    requires '\\' in a
    ensures |Kept(a + b)| <= |a|
  {
    assert (a + b)[1..] == a[1..] + b;
    if a[0] != '\\' { KeptBefore(a[1..], b); }
  }

  lemma {:induction false} KeptWhole(p: string)
    requires '\\' !in p
    ensures Kept(p) == p
  {
    if p != "" { KeptWhole(p[1..]); }
  }

  lemma {:induction false} SlashAfterWord(s: string, i: nat)
    requires i < |s| && s[i] == '/'
    ensures |Word(s)| <= i
  {
    if s[0] != '/' { SlashAfterWord(s[1..], i - 1); }
  }

  /** CleanPath gives an absolute path of components, which is the key of both caches for it. */
  lemma CleanedKeys(p: string)
    requires IsAbsolute(p)
    ensures var d := Cleaned(p);
            && d != "" && d[0] == '/' && SkipSlashes(d) != "" && DirKey(d) == d && StatKey(d) == d
            && Split(d) != [] && d == Join(Split(d))
  {
    var ks := Split(Kept(p));
    CleanedIsKept(p);
    hide Split, Join, Cleaned, Kept, DirKey, StatKey, SkipSlashes;
    DirKeyOfJoin(ks);
    StatKeyOfJoin(ks);
    SplitJoin(ks);
    JoinEnds(ks);
  }

  /** Deleting the secret file invalidates the listing of its directory unless CleanPath cuts its path. */
  lemma SecretInvalidates(d: string)
    requires d != "" && d[0] == '/' && DirKey(d) == d && Split(d) != [] && d == Join(Split(d))
    ensures SecretFile(d) != "" && (InvalidatedBy(SecretFile(d)) == d <==> '\\' !in d)
  {
    SecretComponents(d);
    SecretNames();
    var secret, name := SecretFile(d), SECRET_NAME;
    hide *;
    assert Split(secret)[..|Split(secret)| - 1] == Split(d);
    InvalidatedKey(secret);
    FrontIs(Split(secret));
    NoneInLast(d + "/", name);
    InvalidatedIs(secret);
  }

  lemma FrontIs(cs: seq<string>)
    requires cs != []
    ensures Front(cs) == cs[..|cs| - 1]
  {
  }

  lemma InvalidatedIs(p: string)
    requires p != "" && Cleaned(p) != ""
    ensures InvalidatedBy(p) == Parent(Cleaned(p))
  {
    hide Cleaned, Parent;
  }

  /**
   Once a directory is removed, its attributes are asked for again.  So is its
   listing, if and only if its clean path has no backslash, or the directory
   that is invalidated as its parent happens to be itself.
   */
  lemma RemovedIsForgotten(s: Slots, l: Entries, dirname: string, server: Server, a: nat, reading: Reading, n: nat)
    requires IsAbsolute(dirname) && Distinct(DirCache.Recent(s)) && s != [] && IsSound(l, n)
    requires Answer(l, Cleaned(dirname), server) == FileInfo('d', a) && LooksEmpty(s, Cleaned(dirname), reading)
    ensures var d := Cleaned(dirname);
            var calls := RmdirCalls(s, l, dirname, server, reading, true);
            && DirKey(d) == StatKey(d) == d
            && AreProper(calls)
            && StatCache.Find(EntriesThrough(l, calls, n), d) == None
            && (DirCache.Find(SlotsThrough(s, calls), d) == None <==> '\\' !in d || Parent(dirname) == d)
  {
    var d := Cleaned(dirname);
    CleanedKeys(dirname);
    RmdirThrough(s, l, dirname, server, reading, true, n);
    SecretInvalidates(d);
    hide Split, Join, Cleaned, DirKey, StatKey, SkipSlashes, Answer, LooksEmpty, RmdirCalls, SlotsThrough, EntriesThrough;
    hide SecretFile, InvalidatedBy, DirCache.Find, StatCache.Find, DirCache.Inserted, DirCache.Invalidated, Distinct;
    hide DirCache.Recent, Parent, IsSound, StatCache.Without;
    ListingGoes(s, d, reading.some, SecretFile(d), dirname);
    AttributesGo(l, Stat(d, server), SecretFile(d), dirname, n);
  }

  lemma ListingGoes(s: Slots, d: string, listing: Listing, secret: string, dirname: string)
    requires Distinct(DirCache.Recent(s)) && s != [] && DirKey(d) == d && secret != "" && dirname != ""
    requires SkipSlashes(d) != ""
    ensures var after := SlotsAfter(SlotsAfter(SlotsAfter(s, ReadDir(d, listing)), Unlink(secret)), Rmdir(dirname));
            DirCache.Find(after, d) == None <==> InvalidatedBy(secret) == d || Parent(dirname) == d
  {
    hide DirKey, DirCache.Recent, Distinct, DirCache.Inserted, DirCache.Invalidated, DirCache.Find, InvalidatedBy, Parent;
    var read := DirCache.Inserted(s, d, listing);
    FindRead(s, d, listing);
    ReadKeepsDistinct(s, d, listing);
    DirCache.FindInvalidated(read, InvalidatedBy(secret), d);
    ChangeKeepsDistinct(read, InvalidatedBy(secret));
    DirCache.FindInvalidated(DirCache.Invalidated(read, InvalidatedBy(secret)), Parent(dirname), d);
  }

  lemma AttributesGo(l: Entries, stat: Call, secret: string, dirname: string, n: nat)
    requires IsSound(l, n)
    ensures var after := EntriesAfter(EntriesAfter(EntriesAfter(l, stat, n), Unlink(secret), n), Rmdir(dirname), n);
            StatCache.Find(after, Cleaned(dirname)) == None
  {
    var asked := EntriesAfter(l, stat, n);
    CallIsSound(l, stat, n);
    CallIsSound(asked, Unlink(secret), n);
    hide Cleaned, StatCache.Find, StatCache.Without;
    StatCache.FindWithout(EntriesAfter(asked, Unlink(secret), n), Cleaned(dirname), Cleaned(dirname));
  }
}
