/** How the functions of src/s3if.c that read and change directories drive the two caches. */
module CacheInvalidation {
  import opened Recency
  import opened Wrappers
  import opened FileStat
  import Paths
  import StatCache
  import DirCache

  /** The names that the server lists for a directory. */
  type Listing = seq<string>

  type Slots = seq<DirCache.Slot<Listing>>

  class S3 {
    const stats: StatCache.Cache<FileInfo>
    const dirs: DirCache.Cache<Listing>

    constructor (capacity: nat)
      ensures Valid() && fresh(stats) && fresh(dirs) && fresh(dirs.slots)
      ensures stats.entries == [] && stats.capacity == capacity
      ensures dirs.slots[..] == seq(DirCache.DIR_CACHE_SIZE, _ => DirCache.Empty)
    {
      stats := new StatCache.Cache<FileInfo>(capacity);
      dirs := new DirCache.Cache<Listing>();
      new;
      DirCache.EmptySlots<Listing>(DirCache.DIR_CACHE_SIZE);
    }

    ghost predicate Valid()
      reads this, stats, dirs, dirs.slots
    {
      stats.Valid() && dirs.Valid() && Distinct(DirCache.Recent(dirs.slots[..]))
    }

    /**
     S3ReadDir, with what the server would list now, and the error of the
     requests.  What was received is cached even if the requests failed.
     */
    method S3ReadDir(dirname: string, listing: Listing, error: int) returns (names: Listing, status: int)
      requires Valid() && Paths.SkipSlashes(dirname) != ""
      modifies dirs, dirs.slots
      ensures Valid()
      ensures var key := Paths.DirKey(dirname);
              && dirs.slots[..] == DirCache.Inserted(old(dirs.slots[..]), key, listing)
              && var found := DirCache.Find(old(dirs.slots[..]), key);
                 && names == (if found.Some? then found.value else listing)
                 && status == (if found.Some? then 0 else error)
    {
      hide DirCache.Residents, DirCache.Recent, Distinct;
      var parentDir := Paths.ReadDirKey(dirname);
      ReadKeepsDistinct(dirs.slots[..], parentDir, listing);
      hide DirCache.LookedUp;
      var found := dirs.LookupInDirectoryCache(parentDir);
      if found.None? {
        dirs.InsertInDirectoryCache(parentDir, listing);
        names, status := listing, error;
      } else {
        names, status := found.value, 0;
      }
    }

    /** S3Unlink, after the request to the server. */
    method S3Unlink(filename: string)
      requires Valid() && filename != ""
      modifies stats, dirs, dirs.slots
      ensures Valid()
      ensures var clean := Paths.Cleaned(filename);
              && clean != ""
              && dirs.slots[..] == DirCache.Invalidated(old(dirs.slots[..]), Paths.Parent(clean))
              && stats.entries == StatCache.Without(old(stats.entries), clean)
    {
      hide DirCache.Residents, DirCache.Recent, Distinct, StatCache.Cache.IsBalanced;
      var cleanName := Paths.CleanPath(filename);
      Paths.CleanedIsNotEmpty(filename);
      var parentDir := Paths.GetParentDir(cleanName);
      ChangeKeepsDistinct(dirs.slots[..], parentDir);
      dirs.InvalidateDirectoryCacheElement(parentDir);
      stats.DeleteStatEntry(cleanName);
    }

    /** S3Mkdir, after the request to the server: the cached attributes of the directory, if any, are overwritten. */
    method S3Mkdir(dirname: string, newFi: FileInfo)
      requires Valid() && dirname != ""
      modifies stats, dirs, dirs.slots
      ensures Valid()
      ensures var clean := Paths.Cleaned(dirname);
              && clean != ""
              && dirs.slots[..] == DirCache.Invalidated(old(dirs.slots[..]), Paths.Parent(clean))
              && stats.entries == Overwritten(old(stats.entries), clean, newFi)
    {
      hide DirCache.Residents, DirCache.Recent, Distinct, StatCache.Cache.IsBalanced;
      var cleanName := Paths.CleanPath(dirname);
      Paths.CleanedIsNotEmpty(dirname);
      var parentDir := Paths.GetParentDir(cleanName);
      ChangeKeepsDistinct(dirs.slots[..], parentDir);
      dirs.InvalidateDirectoryCacheElement(parentDir);
      Overwrite(cleanName, newFi);
    }

    /** S3CreateLink, after the request to the server: the directory that is invalidated is that of the target. */
    method S3CreateLink(linkname: string, path: string, fi: FileInfo)
      requires Valid() && path != ""
      modifies stats, dirs, dirs.slots
      ensures Valid() && stats.leaked == old(stats.leaked)
      ensures dirs.slots[..] == DirCache.Invalidated(old(dirs.slots[..]), Paths.Parent(path))
      ensures stats.entries == Linked(old(stats.entries), linkname, fi, stats.capacity)
    {
      hide DirCache.Residents, DirCache.Recent, Distinct, StatCache.Cache.IsBalanced, StatCache.Inserted;
      var parentDir := Paths.GetParentDir(path);
      StatCache.FindWithout(stats.entries, linkname, linkname);
      hide StatCache.Find;
      stats.DeleteStatEntry(linkname);
      stats.InsertCacheElement(linkname, fi);
      ChangeKeepsDistinct(dirs.slots[..], parentDir);
      dirs.InvalidateDirectoryCacheElement(parentDir);
    }

    /** S3Rmdir, after the request to the server: the parent is that of the path as it is given. */
    method InvalidateRemoved(dirname: string, cleanName: string)
      requires Valid() && dirname != ""
      modifies stats, dirs, dirs.slots
      ensures Valid()
      ensures dirs.slots[..] == DirCache.Invalidated(old(dirs.slots[..]), Paths.Parent(dirname))
      ensures stats.entries == StatCache.Without(old(stats.entries), cleanName)
    {
      hide DirCache.Residents, DirCache.Recent, Distinct, StatCache.Cache.IsBalanced;
      var parentDir := Paths.GetParentDir(dirname);
      ChangeKeepsDistinct(dirs.slots[..], parentDir);
      dirs.InvalidateDirectoryCacheElement(parentDir);
      stats.DeleteStatEntry(cleanName);
    }

    /** If the stat cache has attributes for the name, write the new ones over them. */
    method Overwrite(cleanName: string, newFi: FileInfo)
      requires stats.Valid()
      modifies stats
      ensures stats.Valid() && stats.entries == Overwritten(old(stats.entries), cleanName, newFi)
    {
      hide Distinct, StatCache.Cache.IsBalanced;
      SearchedEndsWith(stats.entries, cleanName, newFi);
      var oldFi := stats.SearchStatEntry(cleanName);
      if oldFi.Some? {
        stats.OverwriteLast(newFi);
      }
    }
  }

  /** Unlink a file, and read the directory it was in. */
  method UnlinkThenRead(s3: S3, p: string, parent: string, listing: Listing) returns (names: Listing)
    requires s3.Valid() && p != "" && Paths.Cleaned(p) != "" && Paths.Parent(Paths.Cleaned(p)) == parent
    requires Paths.DirKey(parent) == parent && Paths.SkipSlashes(parent) != ""
    modifies s3.stats, s3.dirs, s3.dirs.slots
    ensures s3.Valid() && names == listing
    ensures s3.stats.entries == StatCache.Without(old(s3.stats.entries), Paths.Cleaned(p))
  {
    ghost var slots := s3.dirs.slots[..];
    DirCache.InvalidatedIsGone(slots, parent);
    hide DirCache.Recent, DirCache.Residents, DirCache.Invalidated, DirCache.Find, DirCache.Inserted;
    hide Distinct, StatCache.Names, StatCache.Without;
    hide Paths.Cleaned, Paths.Parent, Paths.DirKey, Paths.SkipSlashes;
    s3.S3Unlink(p);
    var status;
    names, status := s3.S3ReadDir(parent, listing, 0);
  }

  /** The entry that was found becomes the last one, with new data. */
  function Overwritten(l: seq<StatCache.Entry<FileInfo>>, f: string, info: FileInfo): seq<StatCache.Entry<FileInfo>> {
    if StatCache.Find(l, f).Some? then StatCache.Without(l, f) + [StatCache.Entry(f, info)] else l
  }

  /** The entry of the link is replaced. */
  function Linked(l: seq<StatCache.Entry<FileInfo>>, f: string, info: FileInfo, capacity: nat)
    : seq<StatCache.Entry<FileInfo>>
  {
    StatCache.Inserted(StatCache.Without(l, f), f, info, capacity)
  }

  lemma SearchedEndsWith(l: seq<StatCache.Entry<FileInfo>>, f: string, info: FileInfo)
    requires Distinct(StatCache.Names(l))
    ensures var t := StatCache.Searched(l, f);
            StatCache.Find(l, f).Some? ==>
              t != [] && t[..|t| - 1] + [StatCache.Entry(f, info)] == Overwritten(l, f, info)
    ensures StatCache.Find(l, f).None? ==> StatCache.Searched(l, f) == Overwritten(l, f, info) == l
    ensures Distinct(StatCache.Names(Overwritten(l, f, info)))
  {
    StatCache.WithoutIsValid(l, f, |l|);
    StatCache.NamesSnoc(StatCache.Without(l, f), StatCache.Entry(f, info));
    DistinctSnoc(StatCache.Names(StatCache.Without(l, f)), f);
    hide StatCache.Without, StatCache.Names, StatCache.Find, Distinct;
  }

  lemma ReadKeepsDistinct(s: Slots, f: string, listing: Listing)
    requires Distinct(DirCache.Recent(s)) && s != []
    ensures Distinct(DirCache.Recent(DirCache.Inserted(s, f, listing)))
    ensures !DirCache.Has(s, f) ==> DirCache.LookedUp(s, f) == s
    ensures DirCache.Has(s, f) ==> DirCache.Inserted(s, f, listing) == DirCache.LookedUp(s, f)
  {
    EventKeepsDistinct(s, DirCache.Read(f, listing));
  }

  lemma ChangeKeepsDistinct(s: Slots, f: string)
    requires Distinct(DirCache.Recent(s)) && s != []
    ensures Distinct(DirCache.Recent(DirCache.Invalidated(s, f)))
  {
    EventKeepsDistinct(s, DirCache.Change(f));
  }

  lemma EventKeepsDistinct(s: Slots, e: DirCache.Event<Listing>)
    requires Distinct(DirCache.Recent(s)) && s != []
    ensures var t := match e
                     case Read(f, c) => DirCache.Inserted(s, f, c)
                     case Change(f) => DirCache.Invalidated(s, f);
            Distinct(DirCache.Recent(t))
  {
    var t := match e
             case Read(f, c) => DirCache.Inserted(s, f, c)
             case Change(f) => DirCache.Invalidated(s, f);
    hide DirCache.Recent, DirCache.Inserted, DirCache.Invalidated, Distinct, Note, IsSuffix;
    var a := DirCache.Recent(s);
    assert [] + a == a;
    DirCache.EventKeepsSuffix([], s, e);
    NoteKeepsDistinct(a, DirCache.OpOf(e));
    DirCache.SuffixIsDistinct(DirCache.Recent(t), Note(a, DirCache.OpOf(e)));
  }

  /**
   Coherence across the two caches: whatever redundant slashes the path of an
   unlinked file has, the next S3ReadDir of the canonical path of its directory,
   and the next S3FileStat of its own canonical path, ask the server.
   */
  method UnlinkThenLook(s3: S3, p: string, listing: Listing, server: Server) returns (names: Listing, status: int)
    requires s3.Valid() && p != "" && p[0] == '/' && |Paths.Split(p)| >= 2 && Paths.OnlySlashesFollow(p)
    requires !IsSecret(Paths.Join(Paths.Split(p)))
    modifies s3.stats, s3.dirs, s3.dirs.slots
    ensures names == listing
    ensures status == 0 <==> Resolved(server, Paths.Join(Paths.Split(p))) != FileNotFound
  {
    KeysAgree(p);
    hide Paths.Join, Paths.Split, Paths.Cleaned, Paths.Parent, Paths.DirKey, Paths.StatKey, Paths.SkipSlashes;
    hide IsSecret, Resolved, Distinct, DirCache.Recent, DirCache.Residents;
    var clean := Paths.Join(Paths.Split(p));
    ghost var entries := s3.stats.entries;
    StatCache.FindWithout(entries, clean, clean);
    hide StatCache.Find, StatCache.Without, StatCache.Accessed, StatCache.Names;
    names := UnlinkThenRead(s3, p, Paths.Join(Paths.Split(p)[..|Paths.Split(p)| - 1]), listing);
    status := LookFor(s3.stats, clean, server);
  }

  /** An access of a file that is not in the cache asks the server. */
  method LookFor(stats: StatCache.Cache<FileInfo>, key: string, server: Server) returns (status: int)
    requires stats.Valid() && StatCache.Find(stats.entries, key) == None
    requires Paths.StatKey(key) == key && !IsSecret(key)
    modifies stats
    ensures status == 0 <==> Resolved(server, key) != FileNotFound
  {
    hide IsSecret, Resolved, StatCache.Find, StatCache.Accessed, Paths.StatKey;
    var fi;
    status, fi := S3FileStat(stats, key, server);
  }

  lemma KeysAgree(p: string)
    requires p != "" && p[0] == '/' && |Paths.Split(p)| >= 2 && Paths.OnlySlashesFollow(p)
    ensures var clean := Paths.Join(Paths.Split(p));
            var parent := Paths.Join(Paths.Split(p)[..|Paths.Split(p)| - 1]);
            && Paths.Cleaned(p) == clean && clean != "" && Paths.StatKey(clean) == clean
            && Paths.Parent(clean) == parent && Paths.DirKey(parent) == parent && Paths.SkipSlashes(parent) != ""
  {
    var cs := Paths.Split(p);
    hide Paths.Split, Paths.Join, Paths.Cleaned, Paths.Parent, Paths.DirKey, Paths.StatKey, Paths.SkipSlashes;
    Paths.CleanedIsJoin(p);
    Paths.SplitOfKept(p);
    Paths.InvalidatedKey(p);
    WordsBefore(cs);
    Paths.DirKeyOfJoin(cs[..|cs| - 1]);
    Paths.StatKeyOfJoin(cs);
  }

  lemma WordsBefore(cs: seq<string>)
    requires Paths.AreWords(cs) && cs != []
    ensures Paths.AreWords(cs[..|cs| - 1])
  {
  }
}
