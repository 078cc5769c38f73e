/**
 The requests that the file cache prints (MoveToSharedCache and CreateFilePart
 of src/downloadqueue.c) and the permission grant module parses (src/grant.c).
 */
module GrantMessages {
  import opened Wrappers

  // ----- Characters -----

  predicate IsDigit(c: char) {
    '0' <= c <= '9'
  }

  predicate IsAlnum(c: char) {
    IsDigit(c) || 'A' <= c <= 'Z' || 'a' <= c <= 'z'
  }

  predicate IsSpace(c: char) {
    c == ' ' || '\t' <= c <= '\r'
  }

  predicate IsPunct(c: char) {
    '!' <= c <= '~' && !IsAlnum(c)
  }

  /** A name of six letters and digits, as mkstemp makes them. */
  predicate IsName(f: string) {
    |f| == 6 && forall i | 0 <= i < 6 :: IsAlnum(f[i])
  }

  function ToUpper(c: char): char {
    if 'a' <= c <= 'z' then c - 'a' + 'A' else c
  }

  /** COMPARESTRINGS: the request begins with the word, in upper or lower case. */
  predicate StartsWith(request: string, word: string) {
    |word| <= |request| && forall i | 0 <= i < |word| :: ToUpper(request[i]) == ToUpper(word[i])
  }

  // ----- Integers -----

  const INT_LIMIT := 0x8000_0000

  /** uid_t and gid_t. */
  type Id = n: nat | n < 2 * INT_LIMIT

  /** A number that wraps around like a 32-bit int. */
  function Wrapped(n: int): (w: int)
    ensures -INT_LIMIT <= w < INT_LIMIT
    ensures -INT_LIMIT <= n < INT_LIMIT ==> w == n
  {
    (n + INT_LIMIT) % (2 * INT_LIMIT) - INT_LIMIT
  }

  lemma WrappedTwice(v: int, d: int)
    ensures Wrapped(Wrapped(v) * 10 + d) == Wrapped(v * 10 + d)
  {
    var k := (v + INT_LIMIT) / (2 * INT_LIMIT);
    assert v == Wrapped(v) + k * (2 * INT_LIMIT);
    WrappedShift(Wrapped(v) * 10 + d, k * 10);
    hide Wrapped;
    assert v * 10 + d == Wrapped(v) * 10 + d + k * 10 * (2 * INT_LIMIT);
  }

  lemma WrappedShift(n: int, k: int)
    ensures Wrapped(n + k * (2 * INT_LIMIT)) == Wrapped(n)
  {
  }

  /** The character at a position of a null-terminated string. */
  function At(s: string, i: int): char {
    if 0 <= i < |s| then s[i] else '\0'
  }

  function From(s: string, i: nat): string {
    if i <= |s| then s[i..] else ""
  }

  // ----- Parameters -----

  /** The lengths of the runs that the parsers skip or take. */
  function NonAlnumRun(s: string): (n: nat)
    ensures n <= |s|
  {
    if s != "" && !IsAlnum(s[0]) then 1 + NonAlnumRun(s[1..]) else 0
  }

  function SeparatorRun(s: string): (n: nat)
    ensures n <= |s|
  {
    if s != "" && (IsSpace(s[0]) || IsPunct(s[0])) then 1 + SeparatorRun(s[1..]) else 0
  }

  function DigitRun(s: string): (n: nat)
    ensures n <= |s| && forall i | 0 <= i < n :: IsDigit(s[i])
  {
    if s != "" && IsDigit(s[0]) then 1 + DigitRun(s[1..]) else 0
  }

  function AlnumRun(s: string, limit: nat): (n: nat)
    ensures n <= |s| && n <= limit
  {
    if s != "" && IsAlnum(s[0]) && 0 < limit then 1 + AlnumRun(s[1..], limit - 1) else 0
  }

  function DigitValue(c: char): nat
    requires IsDigit(c)
  {
    c as int - '0' as int
  }

  function Value(digits: string): nat
    requires forall i | 0 <= i < |digits| :: IsDigit(digits[i])
  {
    if digits == "" then 0 else 10 * Value(digits[..|digits| - 1]) + DigitValue(digits[|digits| - 1])
  }

  /** The next integer, or -1 if something other than ':' or the end follows it, and where it ends. */
  function IntParameter(s: string): (int, nat) {
    var i := NonAlnumRun(s);
    var n := DigitRun(s[i..]);
    var follows := At(s, i + n);
    (if follows == ':' || i + n == |s| || follows == '\0' then Wrapped(Value(s[i..][..n])) else -1, i + n)
  }

  /** The next name of at most six characters, and the position behind the character that ends it. */
  function FileParameter(s: string): (string, nat) {
    var i := SeparatorRun(s);
    var n := AlnumRun(s[i..], 6);
    (s[i..][..n], i + n + 1)
  }

  /** Skip non-alphanumeric characters. */
  method SkipNonAlnum(s: string) returns (pos: nat)
    requires '\0' !in s
    ensures pos == NonAlnumRun(s)
  {
    hide IsAlnum;
    pos := 0;
    assert s[0..] == s;
    while At(s, pos) != '\0' && !IsAlnum(At(s, pos))
      invariant pos <= |s| && NonAlnumRun(s) == pos + NonAlnumRun(s[pos..])
      decreases |s| - pos
    {
      assert s[pos..][1..] == s[pos + 1..];
      pos := pos + 1;
    }
    if pos < |s| { assert s[pos..][0] == s[pos]; }
  }

  /** Extract digits; the limit of five that the code has in mind is never counted. */
  method ReadDigits(s: string) returns (n: nat, result: int)
    requires '\0' !in s
    ensures n == DigitRun(s) && result == Wrapped(Value(s[..n]))
  {
    hide Wrapped;
    n, result := 0, 0;
    assert s[0..] == s && s[..0] == "";
    while IsDigit(At(s, n))
      invariant n <= |s| && DigitRun(s) == n + DigitRun(s[n..])
      invariant result == Wrapped(Value(s[..n]))
      decreases |s| - n
    {
      assert s[n..][1..] == s[n + 1..];
      assert s[..n + 1][..n] == s[..n];
      WrappedTwice(Value(s[..n]), DigitValue(At(s, n)));
      result := Wrapped(result * 10 + DigitValue(At(s, n)));
      n := n + 1;
    }
  }

  method GetIntParameter(parameterlist: string) returns (pos: nat, result: int)
    requires '\0' !in parameterlist
    ensures (result, pos) == IntParameter(parameterlist)
  {
    hide NonAlnumRun, DigitRun, Value;
    var start := SkipNonAlnum(parameterlist);
    var n;
    n, result := ReadDigits(parameterlist[start..]);
    pos := start + n;
    var ch := At(parameterlist, pos);
    if ch != ':' && ch != '\0' {
      result := -1;
    }
  }

  /** Skip whitespace and punctuation. */
  method SkipSeparators(s: string) returns (pos: nat)
    requires '\0' !in s
    ensures pos == SeparatorRun(s)
  {
    hide IsSpace, IsPunct;
    pos := 0;
    assert s[0..] == s;
    while At(s, pos) != '\0' && (IsSpace(At(s, pos)) || IsPunct(At(s, pos)))
      invariant pos <= |s| && SeparatorRun(s) == pos + SeparatorRun(s[pos..])
      decreases |s| - pos
    {
      assert s[pos..][1..] == s[pos + 1..];
      pos := pos + 1;
    }
    if pos < |s| { assert s[pos..][0] == s[pos]; }
  }

  /** Get at most six letters and digits; the character that ends them is passed over. */
  method ReadName(s: string) returns (pos: nat, filename: string)
    requires '\0' !in s
    ensures filename == s[..AlnumRun(s, 6)] && pos == |filename| + 1
  {
    hide IsAlnum;
    filename := "";
    assert s[0..] == s;
    var ch := At(s, 0);
    pos := 1;
    while ch != '\0' && IsAlnum(ch) && |filename| < 6
      invariant |filename| + 1 == pos <= |s| + 1 && ch == At(s, pos - 1) && |filename| <= 6
      invariant AlnumRun(s, 6) == |filename| + AlnumRun(s[|filename|..], 6 - |filename|)
      invariant filename == s[..|filename|]
      decreases |s| + 1 - pos
    {
      assert s[|filename|..][1..] == s[|filename| + 1..];
      filename := filename + [ch];
      ch := At(s, pos);
      pos := pos + 1;
    }
    if |filename| < |s| { assert s[|filename|..][0] == s[|filename|]; }
  }

  method GetFileParameter(parameterlist: string) returns (pos: nat, filename: string)
    requires '\0' !in parameterlist
    ensures (filename, pos) == FileParameter(parameterlist) && '\0' !in filename
  {
    hide SeparatorRun, AlnumRun;
    var start := SkipSeparators(parameterlist);
    pos, filename := ReadName(parameterlist[start..]);
    pos := start + pos;
  }

  method VerifyFilename(filename: string) returns (valid: bool)
    requires '\0' !in filename
    ensures valid <==> IsName(filename)
  {
    valid := true;
    var pos := 0;
    while pos < 6
      invariant 0 <= pos <= 6
      invariant valid <==> forall i | 0 <= i < pos :: IsAlnum(At(filename, i))
    {
      if !IsAlnum(At(filename, pos)) {
        valid := false;
      }
      pos := pos + 1;
    }
    assert valid ==> |filename| >= 6 by { assert valid ==> IsAlnum(At(filename, 5)); }
    if At(filename, 6) != '\0' {
      valid := false;
    }
    assert forall i | 0 <= i < 6 && i < |filename| :: At(filename, i) == filename[i];
  }

  // ----- Requests -----

  /** What the permission grant module does for a request. */
  datatype Action =
    | Chown(uid: int, gid: int, path: string)
    | Publish(directory: string, filename: string)
    | Chunk(part: int, source: string, dest: string)
    | Nothing

  /** A path in a request: a name, or a directory and a name. */
  predicate IsPath(path: string) {
    IsName(path) || (|path| == 13 && IsName(path[..6]) && path[6] == '/' && IsName(path[7..]))
  }

  /** What the permission grant module may do: it touches only files with names of six letters and digits. */
  predicate IsAllowed(action: Action) {
    match action
    case Chown(uid, gid, path) => 0 <= uid < INT_LIMIT && 0 <= gid < INT_LIMIT && IsPath(path)
    case Publish(directory, filename) => IsName(directory) && IsName(filename)
    case Chunk(part, source, dest) => 0 <= part <= 10000 && IsPath(source) && IsName(dest)
    case Nothing => true
  }

  /** A file name, or a directory name and a file name, from a position on, and where it ends. */
  function PathParameter(s: string, pos: nat): (Option<string>, nat) {
    var (f, n) := FileParameter(From(s, pos));
    if At(s, pos + n - 1) == '/' then
      var (g, m) := FileParameter(From(s, pos + n));
      (if IsName(f) && IsName(g) then Some(f + "/" + g) else None, pos + n + m)
    else
      (if IsName(f) then Some(f) else None, pos + n)
  }

  lemma TwoNames(f: string, g: string)
    requires IsName(f) && IsName(g)
    ensures IsPath(f + "/" + g)
  {
    var path := f + "/" + g;
    assert path[..6] == f && path[7..] == g;
    hide IsName;
  }

  lemma PathIsPath(s: string, pos: nat)
    ensures PathParameter(s, pos).0.Some? ==> IsPath(PathParameter(s, pos).0.value)
  {
    var f := FileParameter(From(s, pos)).0;
    var g := FileParameter(From(s, pos + FileParameter(From(s, pos)).1)).0;
    if IsName(f) && IsName(g) { TwoNames(f, g); }
    assert IsName(f) ==> IsPath(f);
    hide FileParameter, IsName, IsPath;
  }

  lemma IntIsInt(s: string)
    ensures -INT_LIMIT <= IntParameter(s).0 < INT_LIMIT
  {
    hide NonAlnumRun, DigitRun, Value;
  }

  function ParsedChown(s: string): Action {
    var (uid, n) := IntParameter(s);
    if uid < 0 then Nothing
    else
      var (gid, m) := IntParameter(From(s, n));
      if gid < 0 then Nothing
      else match PathParameter(s, n + m).0
        case Some(path) => Chown(uid, gid, path)
        case None => Nothing
  }

  function ParsedPublish(s: string): Action {
    var (directory, n) := FileParameter(s);
    var (filename, _) := FileParameter(From(s, n));
    if IsName(directory) && IsName(filename) then Publish(directory, filename) else Nothing
  }

  function ParsedChunk(s: string): Action {
    var (part, n) := IntParameter(s);
    if part < 0 || 10000 < part then Nothing
    else
      var (source, m) := PathParameter(s, n);
      var (dest, _) := FileParameter(From(s, m));
      if source.Some? && IsName(dest) then Chunk(part, source.value, dest) else Nothing
  }

  function Parsed(request: string): Action {
    if StartsWith(request, "CHOWN ") then ParsedChown(request[6..])
    else if StartsWith(request, "PUBLISH ") then ParsedPublish(request[8..])
    else if StartsWith(request, "CHUNK ") then ParsedChunk(request[6..])
    else Nothing
  }

  method GetPath(parameters: string, at: nat) returns (pos: nat, path: Option<string>)
    requires '\0' !in parameters
    ensures (path, pos) == PathParameter(parameters, at)
  {
    hide FileParameter, IsName;
    var hasDirectory := false;
    var directory, filename, n := "", "", 0;
    n, filename := GetFileParameter(From(parameters, at));
    pos := at + n;
    if At(parameters, pos - 1) == '/' {
      hasDirectory := true;
      directory := filename;
      n, filename := GetFileParameter(From(parameters, pos));
      pos := pos + n;
    }
    path := None;
    var valid := VerifyFilename(filename);
    if valid {
      if hasDirectory {
        valid := VerifyFilename(directory);
        if valid { path := Some(directory + "/" + filename); }
      } else {
        path := Some(filename);
      }
    }
  }

  method GrantChown(parameters: string) returns (action: Action)
    requires '\0' !in parameters
    ensures action == ParsedChown(parameters) && IsAllowed(action)
  {
    hide IntParameter, PathParameter;
    var pos, uid := GetIntParameter(parameters);
    if uid < 0 {
      return Nothing;
    }
    var n, gid := GetIntParameter(From(parameters, pos));
    if gid < 0 {
      return Nothing;
    }
    var end, path := GetPath(parameters, pos + n);
    PathIsPath(parameters, pos + n);
    IntIsInt(parameters);
    IntIsInt(From(parameters, pos));
    hide IsPath;
    action := if path.Some? then Chown(uid, gid, path.value) else Nothing;
  }

  method GrantPublish(parameters: string) returns (action: Action)
    requires '\0' !in parameters
    ensures action == ParsedPublish(parameters) && IsAllowed(action)
  {
    hide FileParameter, IsName;
    var pos, directory := GetFileParameter(parameters);
    var end, filename := GetFileParameter(From(parameters, pos));
    var valid := VerifyFilename(directory);
    if valid {
      valid := VerifyFilename(filename);
    }
    action := if valid then Publish(directory, filename) else Nothing;
  }

  method CreateFileChunk(parameters: string) returns (action: Action)
    requires '\0' !in parameters
    ensures action == ParsedChunk(parameters) && IsAllowed(action)
  {
    hide IntParameter, PathParameter, FileParameter, IsName, IsPath;
    var pos, part := GetIntParameter(parameters);
    if part < 0 || 10000 < part {
      return Nothing;
    }
    var path;
    PathIsPath(parameters, pos);
    pos, path := GetPath(parameters, pos);
    action := Nothing;
    if path.Some? {
      var end, filename := GetFileParameter(From(parameters, pos));
      var valid := VerifyFilename(filename);
      if valid { action := Chunk(part, path.value, filename); }
    }
  }

  /** The dispatch of InitializePermissionsGrant. */
  method Handle(request: string) returns (action: Action)
    requires '\0' !in request
    ensures action == Parsed(request) && IsAllowed(action)
  {
    hide ParsedChown, ParsedPublish, ParsedChunk, IsPath, IsName;
    action := Nothing;
    if StartsWith(request, "CHOWN ") {
      action := GrantChown(request[6..]);
    } else if StartsWith(request, "PUBLISH ") {
      action := GrantPublish(request[8..]);
    } else if StartsWith(request, "CHUNK ") {
      action := CreateFileChunk(request[6..]);
    }
  }

  // ----- Printing -----

  /** %d of a natural number. */
  function Decimal(n: nat): (s: string)
    ensures s != "" && forall i | 0 <= i < |s| :: IsDigit(s[i])
    ensures Value(s) == n
  {
    if n < 10 then ['0' + n as char] else Decimal(n / 10) + ['0' + (n % 10) as char]
  }

  /** %d of an unsigned number that is cast to int. */
  function Printed(id: Id): string {
    if id < INT_LIMIT then Decimal(id) else "-" + Decimal(2 * INT_LIMIT - id)
  }

  function ChownRequest(uid: Id, gid: Id, path: string): string {
    "CHOWN " + Printed(uid) + ":" + Printed(gid) + ":" + path
  }

  function PublishRequest(parentname: string, filename: string): string {
    "PUBLISH " + parentname + ":" + filename
  }

  function ChunkRequest(part: nat, filepath: string, chunkPath: string): string {
    "CHUNK " + Decimal(part) + ":" + filepath + ":" + chunkPath
  }

  /** The requests of MoveToSharedCache, in order. */
  method MoveToSharedCache(parentname: string, parentUid: Id, parentGid: Id, filename: string, uid: Id, gid: Id)
    returns (requests: seq<string>)
    ensures requests == [
              ChownRequest(parentUid, parentGid, parentname),
              ChownRequest(uid, gid, parentname + "/" + filename),
              PublishRequest(parentname, filename)
            ]
  {
    hide Printed;
    var first := "CHOWN " + Printed(parentUid) + ":" + Printed(parentGid) + ":";
    first := first + parentname;
    var second := "CHOWN " + Printed(uid) + ":" + Printed(gid) + ":";
    second := second + parentname;
    second := second + "/";
    second := second + filename;
    requests := [first, second, "PUBLISH " + parentname + ":" + filename];
    assert second == ChownRequest(uid, gid, parentname + "/" + filename);
  }

  // ----- Agreement -----

  /** The string does not go on with a letter or digit. */
  predicate Ends(rest: string) {
    rest == "" || rest[0] == ':'
  }

  lemma {:induction false} DigitRunIs(d: string, rest: string)
    requires (forall i | 0 <= i < |d| :: IsDigit(d[i])) && Ends(rest)
    ensures DigitRun(d + rest) == |d|
  {
    if d == "" {
      assert d + rest == rest;
    } else {
      assert (d + rest)[1..] == d[1..] + rest;
      DigitRunIs(d[1..], rest);
    }
  }

  lemma {:induction false} AlnumRunIs(f: string, rest: string, limit: nat)
    requires (forall i | 0 <= i < |f| :: IsAlnum(f[i])) && |f| == limit
    ensures AlnumRun(f + rest, limit) == |f|
  {
    if f == "" {
      assert f + rest == rest;
    } else {
      assert (f + rest)[1..] == f[1..] + rest;
      AlnumRunIs(f[1..], rest, limit - 1);
    }
  }

  lemma IntFrom(s: string, i: nat, d: string, rest: string)
    requires NonAlnumRun(s) == i <= |s| && s[i..] == d + rest
    requires (forall k | 0 <= k < |d| :: IsDigit(d[k])) && Ends(rest)
    ensures IntParameter(s) == (Wrapped(Value(d)), i + |d|)
  {
    hide DigitRun, NonAlnumRun, Value, Wrapped, IsDigit;
    DigitRunIs(d, rest);
    assert (d + rest)[..|d|] == d;
    AtRest(s, i, d, rest);
    hide At;
  }

  lemma AtRest(s: string, i: nat, d: string, rest: string)
    requires i <= |s| && s[i..] == d + rest
    ensures i + |d| + |rest| == |s| && At(s, i + |d|) == At(rest, 0)
  {
    assert rest != "" ==> (d + rest)[|d|] == rest[0];
  }

  lemma IntIs(d: string, rest: string)
    requires d != "" && (forall i | 0 <= i < |d| :: IsDigit(d[i])) && Ends(rest)
    ensures IntParameter(d + rest) == (Wrapped(Value(d)), |d|)
    ensures IntParameter(":" + d + rest) == (Wrapped(Value(d)), 1 + |d|)
  {
    hide NonAlnumRun, IntParameter, Value;
    IntFirst(d, rest);
    IntLater(d, rest);
  }

  lemma IntFirst(d: string, rest: string)
    requires d != "" && (forall i | 0 <= i < |d| :: IsDigit(d[i])) && Ends(rest)
    ensures IntParameter(d + rest) == (Wrapped(Value(d)), |d|)
  {
    hide NonAlnumRun, IntParameter, Value, Ends;
    var s := d + rest;
    assert s[0] == d[0];
    NoRun(s);
    assert s[0..] == s;
    IntFrom(s, 0, d, rest);
  }

  lemma IntLater(d: string, rest: string)
    requires d != "" && (forall i | 0 <= i < |d| :: IsDigit(d[i])) && Ends(rest)
    ensures IntParameter(":" + d + rest) == (Wrapped(Value(d)), 1 + |d|)
  {
    hide NonAlnumRun, IntParameter, Value, Ends;
    var t := ":" + d + rest;
    assert t[0] == ':' && t[1] == d[0];
    RunOfOne(t);
    assert t[1..] == d + rest;
    IntFrom(t, 1, d, rest);
  }

  lemma NoRun(s: string)
    requires s != "" && IsAlnum(s[0])
    ensures NonAlnumRun(s) == 0
  {
  }

  lemma RunOfOne(s: string)
    requires |s| > 1 && !IsAlnum(s[0]) && IsAlnum(s[1])
    ensures NonAlnumRun(s) == 1
  {
    NoRun(s[1..]);
  }

  lemma FileIs(f: string, rest: string)
    requires IsName(f)
    ensures FileParameter(f + rest) == (f, 7)
    ensures FileParameter(":" + f + rest) == (f, 8)
  {
    AlnumRunIs(f, rest, 6);
    var s, t := f + rest, ":" + f + rest;
    assert t[1..] == s && s[0..] == s && s[..6] == f;
    assert IsAlnum(s[0]) by { assert s[0] == f[0]; }
    NotSeparator(s);
    assert SeparatorRun(s) == 0 && SeparatorRun(t) == 1;
    hide AlnumRun, SeparatorRun;
  }

  lemma NotSeparator(s: string)
    requires s != "" && IsAlnum(s[0])
    ensures SeparatorRun(s) == 0
  {
  }

  lemma PathIs(s: string, at: nat, path: string, rest: string)
    requires at <= |s| && s[at..] == ":" + path + rest && IsPath(path) && Ends(rest)
    ensures PathParameter(s, at) == (Some(path), at + 1 + |path| + 1)
  {
    if IsName(path) {
      FileIs(path, rest);
      assert At(s, at + 7) == At(s[at..], 7) == At(rest, 0);
    } else {
      var f, g := path[..6], path[7..];
      assert path == f + "/" + g;
      assert s[at..] == ":" + f + ("/" + g + rest);
      FileIs(f, "/" + g + rest);
      assert At(s, at + 7) == At(s[at..], 7) == '/';
      assert From(s, at + 8) == s[at..][8..] == g + rest;
      FileIs(g, rest);
    }
    hide FileParameter, IsName;
  }

  lemma EndsAtColon(a: string, b: string)
    ensures Ends("") && Ends(":" + a) && Ends(":" + b + (":" + a))
  {
  }

  lemma ParsedChownIs(u: string, g: string, path: string)
    requires u != "" && g != "" && IsPath(path)
    requires forall i | 0 <= i < |u| :: IsDigit(u[i])
    requires forall i | 0 <= i < |g| :: IsDigit(g[i])
    requires Value(u) < INT_LIMIT && Value(g) < INT_LIMIT
    ensures ParsedChown(u + (":" + g + (":" + path))) == Chown(Value(u), Value(g), path)
  {
    hide IntParameter, PathParameter, Value, IsPath, Ends;
    assert Ends("") && Ends(":" + path) && Ends(":" + g + (":" + path)) by { EndsAtColon(path, g); }
    var s := u + (":" + g + (":" + path));
    IntIs(u, ":" + g + (":" + path));
    IntIs(g, ":" + path);
    assert From(s, |u|) == ":" + g + (":" + path);
    assert s[|u| + 1 + |g|..] == ":" + path + "";
    PathIs(s, |u| + 1 + |g|, path, "");
  }

  lemma FirstWord(word: string, s: string)
    ensures StartsWith(word + s, word)
  {
  }

  /** A request goes to the function for its first word. */
  lemma Dispatch(s: string)
    ensures Parsed("CHOWN " + s) == ParsedChown(s)
    ensures Parsed("PUBLISH " + s) == ParsedPublish(s)
    ensures Parsed("CHUNK " + s) == ParsedChunk(s)
  {
    hide ParsedChown, ParsedPublish, ParsedChunk;
    FirstWord("CHOWN ", s);
    FirstWord("PUBLISH ", s);
    FirstWord("CHUNK ", s);
    assert ("CHOWN " + s)[6..] == s && ("PUBLISH " + s)[8..] == s && ("CHUNK " + s)[6..] == s;
    assert ("PUBLISH " + s)[0] == 'P' && ("CHUNK " + s)[0] == 'C' && ("CHUNK " + s)[2] == 'U';
  }

  /** Every action that a request leads to is an allowed one. */
  lemma ParsedIsAllowed(request: string)
    ensures IsAllowed(Parsed(request))
  {
    forall s ensures IsAllowed(ParsedChown(s)) && IsAllowed(ParsedPublish(s)) && IsAllowed(ParsedChunk(s)) {
      ParsersAllow(s);
    }
    hide ParsedChown, ParsedPublish, ParsedChunk, IsAllowed, StartsWith;
  }

  lemma ParsersAllow(s: string)
    ensures IsAllowed(ParsedChown(s)) && IsAllowed(ParsedPublish(s)) && IsAllowed(ParsedChunk(s))
  {
    hide IntParameter, PathParameter, FileParameter, IsPath, IsName;
    var (_, n) := IntParameter(s);
    var (_, m) := IntParameter(From(s, n));
    IntIsInt(s);
    IntIsInt(From(s, n));
    PathIsPath(s, n + m);
    PathIsPath(s, n);
  }

  /**
   A CHOWN request that is printed is parsed back to its user, its group and its
   path if and only if the numbers are not negative as an int and the path is a
   name of the cache.
   */
  lemma ChownAgrees(uid: Id, gid: Id, path: string)
    ensures Parsed(ChownRequest(uid, gid, path)) == Chown(uid, gid, path) <==>
            uid < INT_LIMIT && gid < INT_LIMIT && IsPath(path)
  {
    hide Decimal, Value, IsPath, Parsed, Wrapped;
    ParsedIsAllowed(ChownRequest(uid, gid, path));
    if uid < INT_LIMIT && gid < INT_LIMIT && IsPath(path) { SmallChownAgrees(uid, gid, path); }
  }

  lemma SmallChownAgrees(uid: Id, gid: Id, path: string)
    requires uid < INT_LIMIT && gid < INT_LIMIT && IsPath(path)
    ensures Parsed(ChownRequest(uid, gid, path)) == Chown(uid, gid, path)
  {
    hide Decimal, Value, IsPath, ParsedChown;
    var u, g := Decimal(uid), Decimal(gid);
    var s := u + (":" + g + (":" + path));
    ParsedChownIs(u, g, path);
    assert ChownRequest(uid, gid, path) == "CHOWN " + s;
    Dispatch(s);
    hide Parsed;
  }

  /** A PUBLISH request is parsed back to its directory and its file if and only if both are names. */
  lemma PublishAgrees(parentname: string, filename: string)
    ensures Parsed(PublishRequest(parentname, filename)) == Publish(parentname, filename) <==>
            IsName(parentname) && IsName(filename)
  {
    hide IsName, Parsed, ParsedPublish;
    ParsedIsAllowed(PublishRequest(parentname, filename));
    if IsName(parentname) && IsName(filename) {
      var s := parentname + (":" + filename);
      ParsedPublishIs(parentname, filename);
      assert PublishRequest(parentname, filename) == "PUBLISH " + s;
      Dispatch(s);
    }
  }

  lemma ParsedPublishIs(parentname: string, filename: string)
    requires IsName(parentname) && IsName(filename)
    ensures ParsedPublish(parentname + (":" + filename)) == Publish(parentname, filename)
  {
    var s := parentname + (":" + filename);
    assert |parentname| == 7 - 1;
    hide FileParameter, IsName;
    FileIs(parentname, ":" + filename);
    assert s[7..] == filename == filename + "";
    FileIs(filename, "");
  }

  lemma ParsedChunkIs(d: string, filepath: string, chunkPath: string)
    requires d != "" && IsPath(filepath) && IsName(chunkPath) && forall i | 0 <= i < |d| :: IsDigit(d[i])
    requires Value(d) <= 10000
    ensures ParsedChunk(d + (":" + filepath + (":" + chunkPath))) == Chunk(Value(d), filepath, chunkPath)
  {
    hide IntParameter, PathParameter, FileParameter, Value, IsPath, IsName;
    var s := d + (":" + filepath + (":" + chunkPath));
    IntIs(d, ":" + filepath + (":" + chunkPath));
    assert s[|d|..] == ":" + filepath + (":" + chunkPath);
    PathIs(s, |d|, filepath, ":" + chunkPath);
    assert From(s, |d| + |filepath| + 2) == chunkPath + "";
    FileIs(chunkPath, "");
  }

  /**
   A CHUNK request is parsed back to its part, its file and the file that
   receives the part if and only if the part is in range and both are names of
   the cache.
   */
  lemma ChunkAgrees(part: nat, filepath: string, chunkPath: string)
    ensures Parsed(ChunkRequest(part, filepath, chunkPath)) == Chunk(part, filepath, chunkPath) <==>
            part <= 10000 && IsPath(filepath) && IsName(chunkPath)
  {
    hide Decimal, IsPath, IsName, Parsed;
    ParsedIsAllowed(ChunkRequest(part, filepath, chunkPath));
    if part <= 10000 && IsPath(filepath) && IsName(chunkPath) { LocalChunkAgrees(part, filepath, chunkPath); }
  }

  lemma LocalChunkAgrees(part: nat, filepath: string, chunkPath: string)
    requires part <= 10000 && IsPath(filepath) && IsName(chunkPath)
    ensures Parsed(ChunkRequest(part, filepath, chunkPath)) == Chunk(part, filepath, chunkPath)
  {
    hide Decimal, Value, IsPath, IsName, ParsedChunk;
    var d := Decimal(part);
    var s := d + (":" + filepath + (":" + chunkPath));
    ParsedChunkIs(d, filepath, chunkPath);
    assert ChunkRequest(part, filepath, chunkPath) == "CHUNK " + s;
    Dispatch(s);
    hide Parsed;
  }

  /** A remote path begins with a slash, so a request with one is never parsed back. */
  lemma RemotePathIsLost(part: nat, filepath: string, chunkPath: string)
    requires filepath != "" && filepath[0] == '/'
    ensures Parsed(ChunkRequest(part, filepath, chunkPath)) != Chunk(part, filepath, chunkPath)
  {
    ChunkAgrees(part, filepath, chunkPath);
    hide Parsed;
  }

  // ----- Buffers -----

  function Power10(k: nat): nat {
    if k == 0 then 1 else 10 * Power10(k - 1)
  }

  /** A number has at most k digits if and only if it is below the k-th power of ten. */
  lemma {:induction false} DecimalLength(n: nat, k: nat)
    requires 0 < k
    ensures |Decimal(n)| <= k <==> n < Power10(k)
  {
    if n < 10 {
      TenIsLeast(k);
    } else if k == 1 {
      assert Power10(1) == 10 && |Decimal(n / 10)| > 0;
    } else {
      DecimalLength(n / 10, k - 1);
      assert Power10(k) == 10 * Power10(k - 1);
    }
  }

  lemma {:induction false} TenIsLeast(k: nat)
    requires 0 < k
    ensures 10 <= Power10(k)
  {
    if k > 1 { TenIsLeast(k - 1); }
  }

  lemma FiveDigits(n: nat)
    ensures |Decimal(n)| <= 5 <==> n < 100000
  {
    assert Power10(1) == 10 && Power10(2) == 100 && Power10(3) == 1000 && Power10(4) == 10000 && Power10(5) == 100000;
    DecimalLength(n, 5);
  }

  /**
   A request fits, with its terminator, into the memory that is allocated for it
   if and only if a CHOWN request has at most ten characters of numbers, and a
   CHUNK request a part below 100,000.  A PUBLISH request always fits.
   */
  lemma RequestsFit(uid: Id, gid: Id, part: nat, path: string, name: string)
    ensures |ChownRequest(uid, gid, path)| + 1 <= |path| + |"chown xxxxx xxxxx "| + 1 <==>
            |Printed(uid)| + |Printed(gid)| <= 10
    ensures |PublishRequest(path, name)| + 1 == |path| + |name| + |"publish :"| + 1
    ensures |ChunkRequest(part, path, name)| + 1 <= |path| + |name| + 1 + |"CHUNK 10000::"| <==> part < 100000
  {
    FiveDigits(part);
    hide Decimal, Printed;
  }

  /** Two numbers of six digits or more overrun the memory by two characters or more. */
  lemma LargeIdsOverrun(uid: Id, gid: Id, path: string)
    requires 100000 <= uid < INT_LIMIT && 100000 <= gid < INT_LIMIT
    ensures |ChownRequest(uid, gid, path)| + 1 >= |path| + |"chown xxxxx xxxxx "| + 1 + 2
  {
    FiveDigits(uid);
    FiveDigits(gid);
    hide Decimal;
  }
}
