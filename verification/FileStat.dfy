/** S3FileStat of src/s3if.c: a search in the stat cache, and up to three requests to the server if it misses. */
module FileStat {
  import opened Recency
  import opened StatCache
  import opened Wrappers
  import Paths

  const ENOENT: int := 2

  const IS_S3_DIRECTORY_FILE: string := "/.----s3--dir--do-not-delete"

  /** struct S3FileInfo: what the server says of a file, or that there is no such file. */
  datatype FileInfo = FileInfo(fileType: char, attributes: nat) | FileNotFound

  /** What the server answers to a request for the attributes of a key; a failure has a negative status. */
  datatype Reply = Attributes(fileType: char, attributes: nat) | Failure(status: int)

  type Server = s: string -> Reply | forall k :: s(k).Failure? ==> s(k).status < 0
    witness k => Failure(-1)

  /** AddTrailingSlash. */
  function WithSlash(filename: string): string {
    if filename != "" && filename[|filename| - 1] != '/' then filename + "/" else filename
  }

  predicate IsSecret(filename: string) {
    |IS_S3_DIRECTORY_FILE| <= |filename| && filename[|filename| - |IS_S3_DIRECTORY_FILE|..] == IS_S3_DIRECTORY_FILE
  }

  /** The name of the secret file of a directory, and of no other file, is refused. */
  lemma SecretNames(filename: string)
    ensures IsSecret(filename) <==> exists p: string :: filename == p + "/.----s3--dir--do-not-delete"
  {
    if IsSecret(filename) {
      assert filename == filename[..|filename| - |IS_S3_DIRECTORY_FILE|] + "/.----s3--dir--do-not-delete";
    }
  }

  /** What an access stores when it misses: the first successful answer for the three names of a file or directory. */
  function Resolved(server: Server, filename: string): FileInfo {
    var asFile, asDir, asSecret :=
      server(filename), server(WithSlash(filename)), server(filename + IS_S3_DIRECTORY_FILE);
    if asFile.Attributes? then FileInfo(asFile.fileType, asFile.attributes)
    else if asDir.Attributes? then FileInfo(asDir.fileType, asDir.attributes)
    else if asSecret.Attributes? then FileInfo(asSecret.fileType, asSecret.attributes)
    else FileNotFound
  }

  /**
   The answer of three requests, in this order: for the file, for the directory,
   which has a slash at its end, and for the secret file in the directory.
   */
  predicate IsFirstAnswer(server: Server, k: string, status: int, info: Option<FileInfo>) {
    match server(k)
    case Attributes(t, a) => status == 0 && info == Some(FileInfo(t, a))
    case Failure(_) =>
      match server(k + "/")
      case Attributes(t, a) => status == 0 && info == Some(FileInfo(t, a))
      case Failure(_) =>
        match server(k + "/.----s3--dir--do-not-delete")
        case Attributes(t, a) => status == 0 && info == Some(FileInfo(t, a))
        case Failure(e) => status == e && info == None
  }

  lemma ThreeRequests(server: Server, k: string)
    requires k != "" && k[|k| - 1] != '/'
    ensures var info := Resolved(server, k);
            if info == FileNotFound then IsFirstAnswer(server, k, server(k + IS_S3_DIRECTORY_FILE).status, None)
            else IsFirstAnswer(server, k, 0, Some(info))
  {
  }

  /** ResolveS3FileStatCacheMiss. */
  method ResolveCacheMiss(cache: Cache<FileInfo>, filename: string, server: Server, hashAs: string)
    returns (status: int, info: Option<FileInfo>)
    requires cache.Valid()
    modifies cache
    ensures cache.Valid() && (Find(old(cache.entries), hashAs).None? ==> cache.leaked == old(cache.leaked))
    ensures match server(filename)
            case Attributes(t, a) =>
              && status == 0 && info == Some(FileInfo(t, a))
              && cache.entries == Inserted(old(cache.entries), hashAs, FileInfo(t, a), cache.capacity)
            case Failure(s) => status == s && info == None && cache.entries == old(cache.entries)
  {
    match server(filename)
    case Attributes(t, a) =>
      cache.InsertCacheElement(hashAs, FileInfo(t, a));
      status, info := 0, Some(FileInfo(t, a));
    case Failure(s) =>
      status, info := s, None;
  }

  /** The part of S3FileStat that follows a miss: the three requests, until one of them succeeds. */
  method ResolveFileOrDirectory(cache: Cache<FileInfo>, filename: string, server: Server)
    returns (status: int, fileInfo: Option<FileInfo>)
    requires cache.Valid() && Find(cache.entries, filename).None?
    modifies cache
    ensures cache.Valid() && cache.leaked == old(cache.leaked)
    ensures var info := Resolved(server, filename);
            && fileInfo == Some(info)
            && cache.entries == Inserted(old(cache.entries), filename, info, cache.capacity)
            && status == if info != FileNotFound then 0 else server(filename + IS_S3_DIRECTORY_FILE).status
  {
    hide Find, Inserted, Cache.IsBalanced;
    status, fileInfo := ResolveCacheMiss(cache, filename, server, filename);
    if status != 0 {
      status, fileInfo := ResolveCacheMiss(cache, WithSlash(filename), server, filename);
      if status != 0 {
        status, fileInfo := ResolveCacheMiss(cache, filename + IS_S3_DIRECTORY_FILE, server, filename);
        if status != 0 {
          fileInfo := Some(FileNotFound);
          cache.InsertCacheElement(filename, FileNotFound);
        }
      }
    }
  }

  /**
   The cache changes as one access of a trace.  The answer is what the cache
   had, or what the server says now: a file that is not there is remembered as
   missing, and reported as ENOENT from then on.  No entry is leaked.
   */
  method S3FileStat(cache: Cache<FileInfo>, file: string, server: Server) returns (status: int, fi: Option<FileInfo>)
    requires cache.Valid()
    modifies cache
    ensures cache.Valid() && cache.leaked == old(cache.leaked)
    ensures var key := Paths.StatKey(file);
            if IsSecret(key) then status == -2 && fi == None && cache.entries == old(cache.entries)
            else
              && cache.entries == Accessed(old(cache.entries), key, Resolved(server, key), cache.capacity)
              && var info := Find(old(cache.entries), key);
                 var answer := if info.Some? then info.value else Resolved(server, key);
                 (status == 0 <==> answer != FileNotFound)
                 && fi == (if answer != FileNotFound then Some(answer) else None)
                 && (answer == FileNotFound ==>
                       status == if info.Some? then -2 else server(key + IS_S3_DIRECTORY_FILE).status)
    ensures var key := Paths.StatKey(file);
            !IsSecret(key) && key != "/" && Find(old(cache.entries), key) == None ==>
              && IsFirstAnswer(server, key, status, fi)
              && (0 < cache.capacity ==>
                    Find(cache.entries, key) == Some(if fi.Some? then fi.value else FileNotFound))
  {
    ghost var before, key := cache.entries, Paths.StatKey(file);
    KeyEnds(file);
    if key != "/" { ThreeRequests(server, key); }
    if cache.capacity > 0 && Find(before, key).None? {
      AccessedIsFound(before, key, Resolved(server, key), cache.capacity);
    }
    hide Paths.StatKey, Find, Searched, Inserted, Cache.IsBalanced, IsFirstAnswer, Resolved;
    fi := None;
    var filename := Paths.FileStatKey(file);
    if IsSecret(filename) {
      return -ENOENT, None;
    }
    status := 0;
    SearchedMisses(cache.entries, filename);
    var fileInfo := cache.SearchStatEntry(filename);
    if fileInfo.None? {
      status, fileInfo := ResolveFileOrDirectory(cache, filename, server);
    } else if fileInfo.value == FileNotFound {
      status := -ENOENT;
    }
    if status == 0 {
      fi := fileInfo;
    }
    if fileInfo.None? {
      status := -ENOENT;
    }
  }

  lemma KeyEnds(file: string)
    ensures var k := Paths.StatKey(file); k != "" && (k == "/" || k[|k| - 1] != '/')
  {
    var s := "/" + Paths.SkipSlashes(file);
    Paths.StrippedEnd(s);
    Paths.SplitStripped(s);
    hide Paths.Stripped, Paths.SkipSlashes;
  }

  lemma AccessedIsFound(l: seq<Entry<FileInfo>>, f: string, d: FileInfo, capacity: nat)
    requires Distinct(Names(l)) && capacity > 0 && Find(l, f).None?
    ensures Find(Accessed(l, f, d, capacity), f) == Some(d)
  {
    var after := Accessed(l, f, d, capacity);
    assert after[|after| - 1] == Entry(f, d) && Names(after)[|after| - 1] == f;
    FindIs(after, f);
    FindAccessed(l, f, d, capacity, f);
    hide Find, Names, Distinct;
  }

  lemma SearchedMisses(l: seq<Entry<FileInfo>>, f: string)
    ensures Find(l, f).None? ==> Searched(l, f) == l
  {
  }
}
