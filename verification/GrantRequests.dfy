/**
 Exactly the requests that the permission grant module acts upon, as a grammar.
 It is wider than what the file cache prints: characters before a number or a
 name are skipped, and the one behind a name is passed over, whatever it is.
 */
module GrantRequests {
  import opened Wrappers
  import opened GrantMessages

  // ----- The grammar -----

  predicate AreNonAlnum(s: string) {
    forall i | 0 <= i < |s| :: !IsAlnum(s[i])
  }

  predicate AreSeparators(s: string) {
    forall i | 0 <= i < |s| :: IsSpace(s[i]) || IsPunct(s[i])
  }

  predicate AreDigits(s: string) {
    s != "" && forall i | 0 <= i < |s| :: IsDigit(s[i])
  }

  predicate IntText(s: string, skipped: string, digits: string, rest: string) {
    s == skipped + digits + rest && AreNonAlnum(skipped) && AreDigits(digits) && rest != "" && rest[0] == ':'
  }

  /** A number that is not negative as an int, and a colon. */
  ghost predicate ReadsInt(s: string, v: int, rest: string) {
    0 <= v && exists skipped, digits :: IntText(s, skipped, digits, rest) && v == Wrapped(Value(digits))
  }

  predicate NameText(s: string, skipped: string, f: string, rest: string) {
    s == skipped + f + rest && AreSeparators(skipped) && IsName(f)
  }

  ghost predicate ReadsName(s: string, f: string, rest: string) {
    exists skipped :: NameText(s, skipped, f, rest)
  }

  /** A name that no slash follows, or two names. */
  ghost predicate ReadsPath(s: string, path: string, rest: string) {
    || (ReadsName(s, path, rest) && !(rest != "" && rest[0] == '/'))
    || (exists f, g, later :: ReadsName(s, f, "/" + later) && ReadsName(later, g, rest) && path == f + "/" + g)
  }

  ghost predicate IsChown(s: string, uid: int, gid: int, path: string) {
    exists a, b, c :: ReadsInt(s, uid, a) && ReadsInt(a, gid, b) && ReadsPath(b, path, c)
  }

  ghost predicate IsPublish(s: string, directory: string, filename: string) {
    exists a, b :: ReadsName(s, directory, a) && a != "" && ReadsName(a[1..], filename, b)
  }

  ghost predicate IsChunk(s: string, part: int, source: string, dest: string) {
    && part <= 10000
    && exists a, b, c :: ReadsInt(s, part, a) && ReadsPath(a, source, b) && b != "" && ReadsName(b[1..], dest, c)
  }

  // ----- Runs of characters -----

  lemma {:induction false} NonAlnumRunIs(s: string, n: nat)
    requires n <= |s|
    ensures NonAlnumRun(s) == n <==> AreNonAlnum(s[..n]) && (n < |s| ==> IsAlnum(s[n]))
  {
    if s != "" && !IsAlnum(s[0]) {
      if 0 < n {
        NonAlnumRunIs(s[1..], n - 1);
        assert s[..n] == [s[0]] + s[1..][..n - 1];
        assert n < |s| ==> s[n] == s[1..][n - 1];
      }
    } else if 0 < n {
      assert s[..n][0] == s[0];
    }
    hide IsAlnum;
  }

  lemma {:induction false} SeparatorRunIs(s: string, n: nat)
    requires n <= |s|
    ensures SeparatorRun(s) == n <==> AreSeparators(s[..n]) && (n < |s| ==> !IsSpace(s[n]) && !IsPunct(s[n]))
  {
    if s != "" && (IsSpace(s[0]) || IsPunct(s[0])) {
      if 0 < n {
        SeparatorRunIs(s[1..], n - 1);
        assert s[..n] == [s[0]] + s[1..][..n - 1];
        assert n < |s| ==> s[n] == s[1..][n - 1];
      }
    } else if 0 < n {
      assert s[..n][0] == s[0];
    }
    hide IsSpace, IsPunct;
  }

  // ----- Numbers -----

  /** What IntParameter has read, cut into its parts. */
  lemma IntCut(s: string) returns (skipped: string, digits: string, rest: string)
    requires '\0' !in s && 0 <= IntParameter(s).0 && IntParameter(s).1 < |s|
    ensures IntText(s, skipped, digits, rest)
    ensures IntParameter(s) == (Wrapped(Value(digits)), |s| - |rest|)
  {
    var i := NonAlnumRun(s);
    var n := DigitRun(s[i..]);
    NonAlnumRunIs(s, i);
    skipped, digits, rest := s[..i], s[i..][..n], s[i + n..];
    ThreeParts(s, i, n);
    assert s[i + n] == At(s, i + n) == ':';
    hide NonAlnumRun, DigitRun, Value, Wrapped;
  }

  lemma ThreeParts(s: string, i: nat, n: nat)
    requires i + n < |s|
    ensures s == s[..i] + s[i..][..n] + s[i + n..] && s[i + n..][0] == s[i + n]
  {
  }

  lemma IntOfText(s: string, skipped: string, digits: string, rest: string)
    requires IntText(s, skipped, digits, rest)
    ensures IntParameter(s) == (Wrapped(Value(digits)), |s| - |rest|)
  {
    var i := |skipped|;
    assert s[..i] == skipped && s[i..] == digits + rest && s[i] == digits[0];
    NonAlnumRunIs(s, i);
    IntFrom(s, i, digits, rest);
    hide NonAlnumRun, IntParameter, Value, Wrapped;
  }

  lemma IntReads(s: string, v: int, n: nat)
    requires '\0' !in s && n <= |s|
    ensures IntParameter(s) == (v, n) && 0 <= v && n < |s| <==> ReadsInt(s, v, s[n..])
  {
    hide IntParameter, Value, Wrapped, AreNonAlnum;
    if IntParameter(s) == (v, n) && 0 <= v && n < |s| {
      var skipped, digits, rest := IntCut(s);
      RestIs(s, skipped, digits, rest);
      assert IntText(s, skipped, digits, s[n..]);
    }
    if ReadsInt(s, v, s[n..]) {
      var skipped, digits :| IntText(s, skipped, digits, s[n..]) && v == Wrapped(Value(digits));
      IntOfText(s, skipped, digits, s[n..]);
      RestIs(s, skipped, digits, s[n..]);
    }
  }

  lemma RestIs(s: string, skipped: string, digits: string, rest: string)
    requires IntText(s, skipped, digits, rest)
    ensures |rest| <= |s| && rest == s[|s| - |rest|..] && rest != ""
  {
  }

  lemma IntRest(s: string, v: int, rest: string)
    requires ReadsInt(s, v, rest)
    ensures 0 < |rest| < |s| && rest == s[|s| - |rest|..]
  {
  }

  // ----- Names -----

  lemma NameCut(s: string) returns (skipped: string, rest: string)
    requires IsName(FileParameter(s).0)
    ensures NameText(s, skipped, FileParameter(s).0, rest)
    ensures FileParameter(s).1 == |s| - |rest| + 1
  {
    var i := SeparatorRun(s);
    var n := AlnumRun(s[i..], 6);
    SeparatorRunIs(s, i);
    skipped, rest := s[..i], s[i + n..];
    assert s == skipped + s[i..][..n] + rest;
    hide SeparatorRun, AlnumRun, IsName;
  }

  lemma NameOfText(s: string, skipped: string, f: string, rest: string)
    requires NameText(s, skipped, f, rest)
    ensures FileParameter(s) == (f, |s| - |rest| + 1)
  {
    var i := |skipped|;
    assert s[..i] == skipped && s[i..] == f + rest && s[i] == f[0];
    AlnumIsNoSeparator(f[0]);
    SeparatorRunIs(s, i);
    AlnumRunIs(f, rest, 6);
    assert (f + rest)[..6] == f;
    hide SeparatorRun, AlnumRun;
  }

  lemma AlnumIsNoSeparator(c: char)
    requires IsAlnum(c)
    ensures !IsSpace(c) && !IsPunct(c)
  {
  }

  lemma NameRest(s: string, skipped: string, f: string, rest: string)
    requires NameText(s, skipped, f, rest)
    ensures |rest| <= |s| && rest == s[|s| - |rest|..] && IsName(f)
  {
  }

  lemma NameSplits(s: string, f: string, rest: string)
    requires ReadsName(s, f, rest)
    ensures |rest| < |s| && rest == s[|s| - |rest|..] && IsName(f)
    ensures FileParameter(s) == (f, |s| - |rest| + 1)
  {
    var skipped :| NameText(s, skipped, f, rest);
    NameRest(s, skipped, f, rest);
    NameOfText(s, skipped, f, rest);
    hide FileParameter;
  }

  lemma NameFound(s: string)
    requires IsName(FileParameter(s).0)
    ensures 0 < FileParameter(s).1 <= |s| + 1
    ensures ReadsName(s, FileParameter(s).0, s[FileParameter(s).1 - 1..])
  {
    var skipped, rest := NameCut(s);
    NameRest(s, skipped, FileParameter(s).0, rest);
    hide FileParameter, IsName, NameText;
  }

  // ----- Paths -----

  lemma PathShifts(s: string, pos: nat)
    requires pos <= |s|
    ensures PathParameter(s, pos) == (PathParameter(s[pos..], 0).0, pos + PathParameter(s[pos..], 0).1)
  {
    hide FileParameter, IsName, From, At;
    var t := s[pos..];
    var n := FileParameter(t).1;
    NameMovesOn(t);
    FromHere(s, pos, 0);
    FromHere(s, pos, n);
    FromHere(t, 0, 0);
    AtHere(s, pos, n - 1);
    assert t[0..] == t;
  }

  lemma NameMovesOn(s: string)
    ensures 0 < FileParameter(s).1
  {
  }

  lemma FromHere(s: string, pos: nat, n: nat)
    requires pos <= |s|
    ensures From(s, pos + n) == From(s[pos..], n) && From(s, pos) == s[pos..]
  {
    if pos + n <= |s| { assert s[pos + n..] == s[pos..][n..]; }
  }

  lemma AtHere(s: string, pos: nat, n: nat)
    requires pos <= |s|
    ensures At(s, pos + n) == At(s[pos..], n)
  {
  }

  lemma NoPath(s: string, pos: nat)
    requires |s| <= pos
    ensures PathParameter(s, pos).0 == None
  {
    assert From(s, pos) == "";
  }

  lemma PathFound(s: string) returns (rest: string)
    requires PathParameter(s, 0).0.Some?
    ensures ReadsPath(s, PathParameter(s, 0).0.value, rest)
    ensures |rest| < |s| && PathParameter(s, 0).1 == |s| - |rest| + 1
  {
    var (f, n) := FileParameter(s);
    assert From(s, 0) == s && IsName(f);
    NameFound(s);
    NameSplits(s, f, s[n - 1..]);
    if At(s, n - 1) == '/' {
      assert From(s, n) == s[n..];
      var later := s[n..];
      var (g, m) := FileParameter(later);
      NameFound(later);
      assert s[n - 1..] == "/" + later;
      rest := later[m - 1..];
      NameSplits(later, g, rest);
      assert ReadsName(s, f, "/" + later) && ReadsName(later, g, rest);
    } else {
      rest := s[n - 1..];
    }
    hide FileParameter, IsName, ReadsName;
  }

  /** a is the end of s, and b the end of a. */
  lemma Ends(s: string, a: string, b: string)
    requires |b| <= |a| <= |s| && a == s[|s| - |a|..] && b == a[|a| - |b|..]
    ensures b == s[|s| - |b|..] && From(s, |s| - |a|) == a && From(s, |s| - |b|) == b
    ensures At(s, |s| - |a|) == At(a, 0)
  {
  }

  lemma OneName(s: string, path: string, rest: string)
    requires ReadsName(s, path, rest) && !(rest != "" && rest[0] == '/')
    ensures |rest| < |s| && rest == s[|s| - |rest|..]
    ensures PathParameter(s, 0) == (Some(path), |s| - |rest| + 1)
  {
    hide FileParameter, IsName, ReadsName;
    assert From(s, 0) == s;
    NameSplits(s, path, rest);
    Ends(s, rest, "");
  }

  lemma TwoNamesRead(s: string, f: string, g: string, later: string, rest: string)
    requires ReadsName(s, f, "/" + later) && ReadsName(later, g, rest)
    ensures |rest| < |s| && rest == s[|s| - |rest|..]
    ensures PathParameter(s, 0) == (Some(f + "/" + g), |s| - |rest| + 1)
  {
    hide FileParameter, IsName, ReadsName;
    assert From(s, 0) == s;
    NameSplits(s, f, "/" + later);
    NameSplits(later, g, rest);
    Ends(s, "/" + later, later);
    Ends(s, later, rest);
  }

  lemma PathOfText(s: string, path: string, rest: string)
    requires ReadsPath(s, path, rest)
    ensures |rest| < |s| && rest == s[|s| - |rest|..]
    ensures PathParameter(s, 0) == (Some(path), |s| - |rest| + 1)
  {
    hide PathParameter, ReadsName;
    if ReadsName(s, path, rest) && !(rest != "" && rest[0] == '/') {
      OneName(s, path, rest);
    } else {
      var f, g, later :| ReadsName(s, f, "/" + later) && ReadsName(later, g, rest) && path == f + "/" + g;
      TwoNamesRead(s, f, g, later, rest);
    }
  }

  lemma IntOf(s: string, v: int, rest: string)
    requires '\0' !in s && ReadsInt(s, v, rest)
    ensures IntParameter(s) == (v, |s| - |rest|) && 0 <= v
    ensures 0 < |rest| < |s| && rest == s[|s| - |rest|..] && '\0' !in rest && From(s, |s| - |rest|) == rest
  {
    IntRest(s, v, rest);
    IntReads(s, v, |s| - |rest|);
    hide IntParameter, IntText;
  }

  lemma PathAt(s: string, a: string, path: string, rest: string)
    requires |a| <= |s| && a == s[|s| - |a|..] && ReadsPath(a, path, rest)
    ensures |rest| < |a| && rest == s[|s| - |rest|..]
    ensures PathParameter(s, |s| - |a|) == (Some(path), |s| - |rest| + 1)
  {
    PathShifts(s, |s| - |a|);
    PathOfText(a, path, rest);
    Ends(s, a, rest);
    hide PathParameter, ReadsPath, From;
  }

  // ----- Requests -----

  /** A CHOWN request is acted upon if and only if it has this form. */
  lemma ChownIsExact(s: string, uid: int, gid: int, path: string)
    requires '\0' !in s
    ensures ParsedChown(s) == Chown(uid, gid, path) <==> IsChown(s, uid, gid, path)
  {
    hide IntParameter, PathParameter, ReadsInt, ReadsPath;
    if ParsedChown(s) == Chown(uid, gid, path) { ChownFound(s, uid, gid, path); }
    if IsChown(s, uid, gid, path) {
      var a, b, c :| ReadsInt(s, uid, a) && ReadsInt(a, gid, b) && ReadsPath(b, path, c);
      ChownOfText(s, uid, gid, path, a, b, c);
    }
  }

  lemma ChownFound(s: string, uid: int, gid: int, path: string)
    requires '\0' !in s && ParsedChown(s) == Chown(uid, gid, path)
    ensures IsChown(s, uid, gid, path)
  {
    hide IntParameter, PathParameter, ReadsInt, ReadsPath;
    var (_, n) := IntParameter(s);
    var (_, m) := IntParameter(From(s, n));
    if |s| <= n + m {
      NoPath(s, n + m);
    } else {
      var a := s[n..];
      assert From(s, n) == a;
      IntReads(s, uid, n);
      IntReads(a, gid, m);
      var b := a[m..];
      assert b == s[n + m..];
      PathShifts(s, n + m);
      var c := PathFound(b);
    }
  }

  lemma ChownOfText(s: string, uid: int, gid: int, path: string, a: string, b: string, c: string)
    requires '\0' !in s && ReadsInt(s, uid, a) && ReadsInt(a, gid, b) && ReadsPath(b, path, c)
    ensures ParsedChown(s) == Chown(uid, gid, path)
  {
    hide IntParameter, PathParameter, ReadsInt, ReadsPath, From;
    IntOf(s, uid, a);
    IntOf(a, gid, b);
    Ends(s, a, b);
    PathAt(s, b, path, c);
  }

  /** A PUBLISH request is acted upon if and only if it has this form. */
  lemma PublishIsExact(s: string, directory: string, filename: string)
    ensures ParsedPublish(s) == Publish(directory, filename) <==> IsPublish(s, directory, filename)
  {
    hide FileParameter, IsName, ReadsName;
    if ParsedPublish(s) == Publish(directory, filename) {
      var (_, n) := FileParameter(s);
      NameFound(s);
      var a := s[n - 1..];
      if a == "" {
        assert From(s, n) == "";
        NothingHasNoName();
      } else {
        assert From(s, n) == s[n..] == a[1..];
        NameFound(a[1..]);
      }
    }
    if IsPublish(s, directory, filename) {
      var a, b :| ReadsName(s, directory, a) && a != "" && ReadsName(a[1..], filename, b);
      NameSplits(s, directory, a);
      NameSplits(a[1..], filename, b);
      assert From(s, |s| - |a| + 1) == a[1..];
    }
  }

  lemma NothingHasNoName()
    ensures !IsName(FileParameter("").0)
  {
  }

  /** A CHUNK request is acted upon if and only if it has this form. */
  lemma ChunkIsExact(s: string, part: int, source: string, dest: string)
    requires '\0' !in s
    ensures ParsedChunk(s) == Chunk(part, source, dest) <==> IsChunk(s, part, source, dest)
  {
    hide IntParameter, PathParameter, FileParameter, IsName, ReadsInt, ReadsPath, ReadsName;
    if ParsedChunk(s) == Chunk(part, source, dest) { ChunkFound(s, part, source, dest); }
    if IsChunk(s, part, source, dest) {
      var a, b, c :| ReadsInt(s, part, a) && ReadsPath(a, source, b) && b != "" && ReadsName(b[1..], dest, c);
      ChunkOfText(s, part, source, dest, a, b, c);
    }
  }

  lemma ChunkFound(s: string, part: int, source: string, dest: string)
    requires '\0' !in s && ParsedChunk(s) == Chunk(part, source, dest)
    ensures IsChunk(s, part, source, dest)
  {
    hide IntParameter, PathParameter, FileParameter, IsName, ReadsInt, ReadsPath, ReadsName;
    var (_, n) := IntParameter(s);
    if |s| <= n {
      NoPath(s, n);
    } else {
      IntReads(s, part, n);
      var a := s[n..];
      PathShifts(s, n);
      var b := PathFound(a);
      PathOfText(a, source, b);
      var m := PathParameter(s, n).1;
      if b == "" {
        assert From(s, m) == "";
        NothingHasNoName();
      } else {
        assert From(s, m) == s[m..] == b[1..];
        NameFound(b[1..]);
      }
    }
  }

  lemma ChunkOfText(s: string, part: int, source: string, dest: string, a: string, b: string, c: string)
    requires '\0' !in s && part <= 10000
    requires ReadsInt(s, part, a) && ReadsPath(a, source, b) && b != "" && ReadsName(b[1..], dest, c)
    ensures ParsedChunk(s) == Chunk(part, source, dest)
  {
    hide IntParameter, PathParameter, FileParameter, IsName, ReadsInt, ReadsPath, ReadsName, From;
    IntOf(s, part, a);
    PathAt(s, a, source, b);
    NameSplits(b[1..], dest, c);
    Ends(s, b, b[1..]);
  }

  /** The request asks for this action: its first word, in upper or lower case, and the form of the rest. */
  ghost predicate AsksFor(request: string, action: Action) {
    match action
    case Chown(uid, gid, path) => StartsWith(request, "CHOWN ") && IsChown(request[6..], uid, gid, path)
    case Publish(directory, filename) => StartsWith(request, "PUBLISH ") && IsPublish(request[8..], directory, filename)
    case Chunk(part, source, dest) => StartsWith(request, "CHUNK ") && IsChunk(request[6..], part, source, dest)
    case Nothing => false
  }

  lemma FirstWordsDiffer(request: string)
    ensures StartsWith(request, "CHOWN ") ==> !StartsWith(request, "PUBLISH ") && !StartsWith(request, "CHUNK ")
    ensures StartsWith(request, "PUBLISH ") ==> !StartsWith(request, "CHUNK ") && |request| >= 8
    ensures StartsWith(request, "CHOWN ") || StartsWith(request, "CHUNK ") ==> |request| >= 6
  {
    if StartsWith(request, "CHOWN ") { assert ToUpper(request[0]) == 'C' && ToUpper(request[2]) == 'O'; }
    if StartsWith(request, "PUBLISH ") { assert ToUpper(request[0]) == 'P'; }
    assert "PUBLISH "[0] == 'P' && "CHUNK "[0] == 'C' && "CHUNK "[2] == 'U';
  }

  lemma KindsOfActions(s: string)
    ensures ParsedChown(s).Chown? || ParsedChown(s).Nothing?
    ensures ParsedPublish(s).Publish? || ParsedPublish(s).Nothing?
    ensures ParsedChunk(s).Chunk? || ParsedChunk(s).Nothing?
  {
    hide IntParameter, PathParameter, FileParameter, IsName;
  }

  /** For every request string, the module does what the request asks for, and nothing else. */
  lemma RequestIsExact(request: string, action: Action)
    requires '\0' !in request && action != Nothing
    ensures Parsed(request) == action <==> AsksFor(request, action)
  {
    FirstWordsDiffer(request);
    hide ParsedChown, ParsedPublish, ParsedChunk, IsChown, IsPublish, IsChunk, StartsWith;
    if |request| >= 6 {
      var s := request[6..];
      KindsOfActions(s);
      match action
      case Chown(uid, gid, path) => ChownIsExact(s, uid, gid, path);
      case Chunk(part, source, dest) => ChunkIsExact(s, part, source, dest);
      case _ =>
    }
    if |request| >= 8 {
      KindsOfActions(request[8..]);
      if action.Publish? { PublishIsExact(request[8..], action.directory, action.filename); }
    }
  }

  /** The character behind a name is passed over, whatever it is, and what follows is not looked at. */
  lemma LongerNameIsAccepted(name: string, more: string)
    requires IsName(name) && '\0' !in more && !(more != "" && more[0] == '/')
    ensures ParsedChown("1:2:" + name + more) == Chown(1, 2, name)
  {
    var a, b := ":2:" + name + more, ":" + name + more;
    var s := "1:2:" + name + more;
    assert s == "" + "1" + a && a == ":" + "2" + b;
    DigitValues();
    assert IntText(s, "", "1", a) && IntText(a, ":", "2", b);
    assert NameText(b, ":", name, more);
    assert ReadsInt(s, 1, a) && ReadsInt(a, 2, b) && ReadsName(b, name, more);
    hide ReadsInt, ReadsName;
    assert ReadsPath(b, name, more);
    assert IsChown(s, 1, 2, name);
    assert '\0' !in s;
    hide *;
    ChownIsExact(s, 1, 2, name);
  }

  lemma DigitValues()
    ensures AreDigits("1") && AreDigits("2") && Wrapped(Value("1")) == 1 && Wrapped(Value("2")) == 2
  {
    assert "1"[..0] == "" && "2"[..0] == "";
  }
}
