/**
 The path functions of src/s3if.c, and the keys under which the two caches know
 a path: S3ReadDir caches a directory under one key, and the functions that
 change a directory invalidate another, which has to be the same.
 */
module Paths {
  // ----- Specifications -----

  function SkipSlashes(s: string): (t: string)
    ensures |t| <= |s|
  {
    if s != "" && s[0] == '/' then SkipSlashes(s[1..]) else s
  }

  /** Without trailing slashes, but never without the first character. */
  function Stripped(s: string): string {
    if |s| <= 1 || s[|s| - 1] != '/' then s else Stripped(s[..|s| - 1])
  }

  /** One slash for each run of slashes; nothing that follows a backslash. */
  function Collapse(s: string, slashFound: bool): string {
    if s == "" then ""
    else if s[0] == '/' then (if slashFound then "" else "/") + Collapse(s[1..], true)
    else if s[0] == '\\' then "\\"
    else [s[0]] + Collapse(s[1..], false)
  }

  function Cleaned(s: string): string {
    Stripped(Collapse(s, false))
  }

  /** The position of the last slash, or 0. */
  function LastSlash(s: string, n: nat): (i: nat)
    requires n < |s|
    ensures i <= n
  {
    if n == 0 || s[n] == '/' then n else LastSlash(s, n - 1)
  }

  function Parent(s: string): string
    requires s != ""
  {
    var i := LastSlash(s, |s| - 1);
    if i == 0 then "/" else s[..i]
  }

  /** The key of S3ReadDir. */
  function DirKey(s: string): string {
    "/" + Stripped(SkipSlashes(s))
  }

  /** The key of S3FileStat. */
  function StatKey(s: string): string {
    Stripped("/" + SkipSlashes(s))
  }

  // ----- src/s3if.c -----

  method StripTrailingSlash(filename: string) returns (dirname: string)
    requires filename != ""
    ensures dirname == Stripped(filename)
  {
    dirname := filename;
    var length := |dirname| - 1;
    while length != 0
      invariant 0 <= length < |dirname| && length == |dirname| - 1
      invariant Stripped(dirname) == Stripped(filename)
      decreases length
    {
      if dirname[length] != '/' {
        break;
      }
      dirname := dirname[..length];
      length := length - 1;
    }
  }

  method GetParentDir(path: string) returns (parent: string)
    requires path != ""
    ensures parent == Parent(path)
  {
    var endIdx := |path| - 1;
    while endIdx != 0 && path[endIdx] != '/'
      invariant 0 <= endIdx < |path|
      invariant LastSlash(path, endIdx) == LastSlash(path, |path| - 1)
    {
      endIdx := endIdx - 1;
    }
    if endIdx == 0 {
      parent := "/";
    } else {
      parent := path[..endIdx];
    }
  }

  /** What is still to be copied. */
  function Rest(s: string, escaped: bool, slashFound: bool): string {
    if escaped then "" else Collapse(s, slashFound)
  }

  lemma RestIs(s: string)
    ensures Rest(s, false, false) == Collapse(s, false)
    ensures forall t, f :: Rest(t, true, f) == ""
  {
  }

  /** What one character adds to the copy. */
  lemma RestAfter(s: string, slashFound: bool)
    requires s != ""
    ensures Rest(s, false, slashFound) ==
            (if s[0] == '/' && slashFound then "" else [s[0]]) + Rest(s[1..], s[0] == '\\', s[0] == '/')
  {
  }

  method CleanPath(inpath: string) returns (filename: string)
    requires inpath != ""
    ensures filename == Cleaned(inpath)
  {
    hide Collapse, Stripped, Rest;
    filename := "";
    RestIs(inpath);
    assert inpath[0..] == inpath;
    var escaped, slashFound := false, false;
    var srcIdx := 0;
    while srcIdx < |inpath|
      invariant srcIdx <= |inpath|
      invariant filename + Rest(inpath[srcIdx..], escaped, slashFound) == Collapse(inpath, false)
      invariant 0 < srcIdx || slashFound || escaped ==> filename != ""
    {
      var ch := inpath[srcIdx];
      ghost var before, was := filename, slashFound;
      assert inpath[srcIdx..][1..] == inpath[srcIdx + 1..] && inpath[srcIdx..][0] == ch;
      if !escaped {
        RestAfter(inpath[srcIdx..], slashFound);
        escaped := false;
        if ch == '/' && !slashFound {
          filename := filename + "/";
          slashFound := true;
        } else if ch != '/' {
          filename := filename + [ch];
          slashFound := false;
        }
        if ch == '\\' {
          escaped := true;
        }
        assert filename == before + (if ch == '/' && was then "" else [ch]);
      }
      srcIdx := srcIdx + 1;
    }
    assert inpath[srcIdx..] == "";
    RestEmpty(escaped, slashFound);
    assert filename == Collapse(inpath, false);
    filename := StripTrailingSlash(filename);
  }

  lemma RestEmpty(escaped: bool, slashFound: bool)
    ensures Rest("", escaped, slashFound) == Collapse("", slashFound) == ""
  {
  }

  /** The key that S3FileStat makes of a filename. */
  method FileStatKey(file: string) returns (filename: string)
    ensures filename == StatKey(file)
  {
    var stripIdx := 0;
    while stripIdx < |file| && file[stripIdx] == '/'
      invariant stripIdx <= |file| && SkipSlashes(file[stripIdx..]) == SkipSlashes(file)
    {
      assert file[stripIdx..][1..] == file[stripIdx + 1..];
      stripIdx := stripIdx + 1;
    }
    filename := "/" + file[stripIdx..];
    filename := StripTrailingSlash(filename);
  }

  /** The key that S3ReadDir makes of a directory name. */
  method ReadDirKey(dirname: string) returns (parentDir: string)
    requires SkipSlashes(dirname) != ""
    ensures parentDir == DirKey(dirname)
  {
    var toSkip := 0;
    while toSkip < |dirname| && dirname[toSkip] == '/'
      invariant toSkip <= |dirname| && SkipSlashes(dirname[toSkip..]) == SkipSlashes(dirname)
    {
      assert dirname[toSkip..][1..] == dirname[toSkip + 1..];
      toSkip := toSkip + 1;
    }
    var prefix := StripTrailingSlash(dirname[toSkip..]);
    parentDir := "/" + prefix;
  }

  // ----- Components -----

  /** The part before the first slash. */
  function Word(s: string): (w: string)
    ensures w <= s && '/' !in w
    ensures |w| < |s| ==> s[|w|] == '/'
  {
    if s == "" || s[0] == '/' then "" else [s[0]] + Word(s[1..])
  }

  /** The components of a path, whatever slashes there are between them. */
  function Split(s: string): (cs: seq<string>)
    ensures forall i | 0 <= i < |cs| :: cs[i] != "" && '/' !in cs[i]
    decreases |s|
  {
    if s == "" then []
    else if s[0] == '/' then Split(s[1..])
    else [Word(s)] + Split(s[|Word(s)|..])
  }

  /** The path with exactly one slash before each component. */
  function Join(cs: seq<string>): string {
    if cs == [] then "" else "/" + cs[0] + Join(cs[1..])
  }

  predicate AreWords(cs: seq<string>) {
    forall i | 0 <= i < |cs| :: cs[i] != "" && '/' !in cs[i]
  }

  predicate EndsWithSlash(s: string) {
    s != "" && s[|s| - 1] == '/'
  }

  /** A backslash can only be the last character. */
  predicate EndsAtBackslash(s: string) {
    forall i | 0 <= i < |s| - 1 :: s[i] != '\\'
  }

  lemma {:induction false} CollapseWord(w: string, rest: string, slashFound: bool)
    requires w != "" && '/' !in w && EndsAtBackslash(w + rest)
    ensures Collapse(w + rest, slashFound) == w + Collapse(rest, false)
  {
    assert (w + rest)[1..] == w[1..] + rest;
    if |w| > 1 {
      assert (w + rest)[0] != '\\';
      CollapseWord(w[1..], rest, false);
    } else {
      assert w[1..] + rest == rest;
      assert rest != "" ==> (w + rest)[0] != '\\';
    }
  }

  lemma {:induction false} NoComponents(s: string)
    requires Split(s) == []
    ensures s == "" || EndsWithSlash(s)
  {
    if s != "" && |s| > 1 {
      NoComponents(s[1..]);
    }
  }

  /** What collapsing gives after a slash: the components with one slash between them, and one at the end if there was any. */
  function Canonical(s: string): string {
    if Split(s) == [] then "/" else Join(Split(s)) + (if EndsWithSlash(s) then "/" else "")
  }

  lemma CanonicalSlash(s: string)
    ensures Canonical("/" + s) == Canonical(s)
  {
    assert ("/" + s)[1..] == s;
    if Split(s) != [] { assert s != ""; }
  }

  lemma SplitWord(w: string, rest: string)
    requires w != "" && '/' !in w && (rest == "" || rest[0] == '/')
    ensures Split(w + rest) == [w] + Split(rest)
  {
    WordIs(w, rest);
    assert (w + rest)[|w|..] == rest && (w + rest)[0] == w[0];
  }

  lemma CanonicalWord(w: string, rest: string)
    requires w != "" && '/' !in w && (rest == "" || rest[0] == '/')
    ensures Canonical(w + rest) == "/" + w + (if rest == "" then "" else Canonical(rest[1..]))
  {
    var cs := Split(rest);
    SplitWord(w, rest);
    JoinCons(w, cs);
    hide Split, Join;
    if rest == "" {
      EmptyPath();
      assert w + rest == w;
    } else {
      SplitSlash(rest);
      NoComponentsOrSome(rest);
      LastOfRest(w, rest);
      if cs != [] {
        Reassociated("/" + w, Join(cs), if EndsWithSlash(rest) then "/" else "");
      }
    }
    hide *;
  }

  lemma EmptyPath()
    ensures Split("") == [] && Join([]) == ""
  {
  }

  lemma LastOfRest(w: string, rest: string)
    requires rest != ""
    ensures EndsWithSlash(w + rest) == EndsWithSlash(rest)
  {
  }

  lemma SplitSlash(s: string)
    requires s != "" && s[0] == '/'
    ensures Split(s) == Split(s[1..])
  {
  }

  lemma NoComponentsOrSome(rest: string)
    requires rest != "" && rest[0] == '/'
    ensures Split(rest[1..]) == [] ==> EndsWithSlash(rest) && Join(Split(rest)) == ""
    ensures Split(rest[1..]) != [] ==> EndsWithSlash(rest) == EndsWithSlash(rest[1..])
  {
    SplitSlash(rest);
    if Split(rest) == [] { NoComponents(rest); }
    if rest[1..] == "" { assert Split(rest[1..]) == []; }
  }

  lemma {:induction false} WordIs(w: string, rest: string)
    requires '/' !in w && (rest == "" || rest[0] == '/')
    ensures Word(w + rest) == w
  {
    if w == "" {
      assert w + rest == rest;
    } else {
      assert (w + rest)[1..] == w[1..] + rest;
      WordIs(w[1..], rest);
    }
  }

  lemma {:induction false} CollapseIsJoin(s: string)
    requires EndsAtBackslash(s)
    ensures "/" + Collapse(s, true) == Canonical(s)
    decreases |s|
  {
    hide Canonical, Word, Collapse, Split;
    if s == "" {
      EmptyIsCanonical();
    } else if s[0] == '/' {
      CollapseIsJoin(s[1..]);
      CollapseSlash(s);
      CanonicalSlash(s[1..]);
      assert s == "/" + s[1..];
    } else {
      var w := WordOf(s);
      var rest := s[|w|..];
      assert s == w + rest;
      CanonicalWord(w, rest);
      CollapseWord(w, rest, true);
      if rest == "" {
        RestEmpty(false, false);
      } else {
        CollapseIsJoin(rest[1..]);
        CollapseSlash(rest);
      }
      Reassociated("/", w, Collapse(rest, false));
      hide *;
    }
  }

  lemma Reassociated(a: string, b: string, c: string)
    ensures a + (b + c) == a + b + c
  {
  }

  lemma CollapseSlash(s: string)
    requires s != "" && s[0] == '/'
    ensures Collapse(s, false) == "/" + Collapse(s[1..], true)
    ensures Collapse(s, true) == Collapse(s[1..], true)
  {
  }

  lemma EmptyIsCanonical()
    ensures Canonical("") == "/" && Collapse("", true) == ""
  {
  }

  lemma WordOf(s: string) returns (w: string)
    requires s != "" && s[0] != '/'
    ensures w != "" && w <= s && '/' !in w && (|w| < |s| ==> s[|w|] == '/')
  {
    w := Word(s);
  }

  lemma JoinCons(w: string, cs: seq<string>)
    ensures Join([w] + cs) == "/" + w + Join(cs)
  {
    assert ([w] + cs)[1..] == cs;
  }

  lemma {:induction false} JoinSnoc(cs: seq<string>, w: string)
    ensures Join(cs + [w]) == Join(cs) + "/" + w
  {
    if cs == [] {
      assert cs + [w] == [w];
    } else {
      assert (cs + [w])[1..] == cs[1..] + [w];
      JoinSnoc(cs[1..], w);
    }
  }

  /** A path of components ends with the last one. */
  lemma JoinEnds(cs: seq<string>)
    requires AreWords(cs) && cs != []
    ensures |Join(cs)| >= 2 && Join(cs)[0] == '/' && !EndsWithSlash(Join(cs))
    ensures Stripped(Join(cs)) == Join(cs) && Stripped(Join(cs) + "/") == Join(cs)
  {
    var n := |cs| - 1;
    JoinSnoc(cs[..n], cs[n]);
    assert cs[..n] + [cs[n]] == cs;
    assert (Join(cs) + "/")[..|Join(cs)|] == Join(cs);
  }

  // ----- Backslashes -----

  /** What CleanPath looks at: everything up to the first backslash, and that backslash. */
  function Kept(s: string): (k: string)
    ensures k <= s && EndsAtBackslash(k)
    ensures k == s || (k != "" && k[|k| - 1] == '\\')
  {
    if s == "" then "" else if s[0] == '\\' then "\\" else [s[0]] + Kept(s[1..])
  }

  lemma {:induction false} CollapseKept(s: string, slashFound: bool)
    ensures Collapse(Kept(s), slashFound) == Collapse(s, slashFound)
  {
    if s != "" && s[0] != '\\' {
      assert ([s[0]] + Kept(s[1..]))[1..] == Kept(s[1..]);
      CollapseKept(s[1..], s[0] == '/');
    }
  }

  /** Nothing but slashes follows the first backslash. */
  predicate OnlySlashesFollow(p: string) {
    forall i | |Kept(p)| <= i < |p| :: p[i] == '/'
  }

  /** What follows the first backslash, and the component that it is in. */
  function AfterComponent(p: string): string {
    var tail := p[|Kept(p)|..];
    tail[|Word(tail)|..]
  }

  /** The first backslash, if any, is in the last component. */
  predicate BackslashInLast(p: string) {
    forall i | 0 <= i < |AfterComponent(p)| :: AfterComponent(p)[i] == '/'
  }

  lemma {:induction false} OnlySlashes(s: string)
    ensures Split(s) == [] <==> forall i | 0 <= i < |s| :: s[i] == '/'
  {
    if s != "" && s[0] == '/' {
      OnlySlashes(s[1..]);
      assert forall i | 0 < i < |s| :: s[i] == s[1..][i - 1];
    }
  }

  lemma {:induction false} WordExtends(a: string, b: string)
    requires '/' !in a
    ensures Word(a + b) == a + Word(b)
  {
    if a == "" {
      assert a + b == b;
    } else {
      assert (a + b)[1..] == a[1..] + b;
      WordExtends(a[1..], b);
    }
  }

  function Front(cs: seq<string>): seq<string>
    requires cs != []
  {
    cs[..|cs| - 1]
  }

  function End(cs: seq<string>): string
    requires cs != []
  {
    cs[|cs| - 1]
  }

  /** What is appended to a path goes on with its last component. */
  lemma {:induction false} SplitExtends(a: string, b: string)
    requires a != "" && a[|a| - 1] != '/'
    ensures Split(a) != []
    ensures Split(a + b) == Front(Split(a)) + [End(Split(a)) + Word(b)] + Split(b[|Word(b)|..])
    decreases |a|
  {
    hide Split, Word;
    if a[0] == '/' {
      assert (a + b)[1..] == a[1..] + b;
      SplitSlash(a);
      SplitSlash(a + b);
      SplitExtends(a[1..], b);
    } else {
      var w := WordOf(a);
      var rest := a[|w|..];
      assert a == w + rest;
      if rest == "" {
        WholeExtends(a, b);
      } else {
        SplitExtends(rest, b);
        SplitWord(w, rest);
        SplitWord(w, rest + b);
        Reassociated(w, rest, b);
        ExtendsCons(w, Split(rest), Word(b), Split(b[|Word(b)|..]));
      }
      hide *;
    }
  }

  lemma WholeExtends(a: string, b: string)
    requires a != "" && '/' !in a
    ensures Split(a) == [a] && Split(a + b) == [a + Word(b)] + Split(b[|Word(b)|..])
  {
    WordExtends(a, b);
    SplitWord(a, "");
    assert a + "" == a && (a + b)[|a + Word(b)|..] == b[|Word(b)|..];
    EmptyPath();
  }

  lemma ExtendsCons(w: string, cs: seq<string>, v: string, ds: seq<string>)
    requires cs != []
    ensures [w] + (Front(cs) + [End(cs) + v] + ds) == Front([w] + cs) + [End([w] + cs) + v] + ds
  {
    assert Front([w] + cs) == [w] + Front(cs);
  }

  /** The components of a path, and those of the part that CleanPath looks at. */
  lemma SplitOfKept(p: string)
    requires Split(p) != []
    ensures var ks := Split(Kept(p));
            && ks != []
            && Front(ks) <= Split(p) && |ks| <= |Split(p)|
            && (ks == Split(p) <==> OnlySlashesFollow(p))
            && (|ks| == |Split(p)| <==> BackslashInLast(p))
  {
    var k := Kept(p);
    var tail := p[|k|..];
    assert p == k + tail;
    if k == p {
      assert tail == "";
    } else {
      SplitExtends(k, tail);
      OnlySlashes(tail);
      OnlySlashes(AfterComponent(p));
      assert forall i | 0 <= i < |tail| :: tail[i] == p[|k| + i];
      assert OnlySlashesFollow(p) <==> Split(tail) == [] by {
        assert forall i | |k| <= i < |p| :: p[i] == tail[i - |k|];
      }
      ExtendedIsSame(Split(k), Word(tail), Split(AfterComponent(p)));
      WordOfSlashes(tail);
    }
    hide Split, Kept, Word;
  }

  lemma WordOfSlashes(s: string)
    ensures Split(s) == [] <==> Word(s) == "" && Split(s[|Word(s)|..]) == []
  {
    if Word(s) == "" { assert s[|Word(s)|..] == s; }
  }

  lemma ExtendedIsSame(ks: seq<string>, w: string, ds: seq<string>)
    requires ks != []
    ensures var cs := Front(ks) + [End(ks) + w] + ds;
            && Front(ks) <= cs && |cs| == |ks| + |ds|
            && (ks == cs <==> w == "" && ds == [])
  {
    var cs := Front(ks) + [End(ks) + w] + ds;
    assert cs[|ks| - 1] == End(ks) + w;
    if w == "" && ds == [] { assert End(ks) + w == End(ks); }
  }

  /** CleanPath gives the path of the components of what it looks at. */
  lemma CleanedIsKept(p: string)
    requires p != "" && p[0] == '/' && Split(p) != []
    ensures Split(Kept(p)) != [] && Cleaned(p) == Join(Split(Kept(p)))
  {
    var k := Kept(p);
    SplitOfKept(p);
    CollapseKept(p, false);
    KeptStarts(p);
    CollapseIsJoin(k[1..]);
    JoinEnds(Split(k));
    hide Stripped, Join, Kept;
  }

  lemma KeptStarts(p: string)
    requires p != "" && p[0] == '/'
    ensures Kept(p) != "" && Kept(p)[0] == '/' && EndsAtBackslash(Kept(p)[1..])
  {
  }

  lemma {:induction false} SplitJoin(cs: seq<string>)
    requires AreWords(cs)
    ensures Split(Join(cs)) == cs
  {
    if cs != [] {
      var w, rest := cs[0], Join(cs[1..]);
      SplitJoin(cs[1..]);
      assert Join(cs) == "/" + w + rest && cs == [w] + cs[1..] && w != "" && '/' !in w;
      assert rest == "" || rest[0] == '/';
      hide Join, Split;
      SplitWord(w, rest);
      SplitFirstSlash(w + rest);
      Reassociated("/", w, rest);
    }
  }

  lemma SplitFirstSlash(s: string)
    ensures Split("/" + s) == Split(s)
  {
    assert ("/" + s)[1..] == s;
  }

  /** CleanPath gives the path of the components if and only if nothing but slashes follows the first backslash. */
  lemma CleanedIsJoin(p: string)
    requires p != "" && p[0] == '/' && Split(p) != []
    ensures Cleaned(p) == Join(Split(p)) <==> OnlySlashesFollow(p)
  {
    hide Split, Join, Cleaned, Kept, OnlySlashesFollow, BackslashInLast;
    CleanedIsKept(p);
    SplitOfKept(p);
    SplitJoin(Split(Kept(p)));
    SplitJoin(Split(p));
  }

  /** Everything after a backslash is lost, however long it is. */
  lemma BackslashTruncates(a: string, b: string)
    ensures Cleaned(a + "\\" + b) == Cleaned(a + "\\")
  {
    KeptStops(a, b);
    CollapseKept(a + "\\" + b, false);
    CollapseKept(a + "\\", false);
    hide Kept, Collapse, Stripped;
  }

  lemma {:induction false} KeptStops(a: string, b: string)
    ensures Kept(a + "\\" + b) == Kept(a + "\\")
  {
    if a != "" {
      assert (a + "\\" + b)[1..] == a[1..] + "\\" + b && (a + "\\")[1..] == a[1..] + "\\";
      KeptStops(a[1..], b);
    }
  }

  /** A path of two components that CleanPath makes one of. */
  lemma BackslashLosesName()
    ensures Split("/a\\/b") == ["a\\", "b"] && Cleaned("/a\\/b") == "/a\\"
  {
    var p := "/a\\/b";
    assert ["a\\", "b"] == ["a\\"] + ["b"];
    SplitSlash(p);
    assert p[1..] == "a\\" + "/b";
    SplitWord("a\\", "/b");
    SplitSlash("/b");
    assert "/b"[1..] == "b" + "";
    SplitWord("b", "");
    EmptyPath();
    assert p == "/a" + "\\" + "/b" && "/a\\" == "/a" + "\\";
    BackslashTruncates("/a", "/b");
    SplitSlash("/a\\");
    assert "/a\\"[1..] == "a\\" + "";
    SplitWord("a\\", "");
    assert Split("/a\\") == ["a\\"];
    assert "/a\\"[2] == '\\' && "/a\\"[1] == 'a';
    CleanedIsJoin("/a\\");
    JoinCons("a\\", []);
    assert ["a\\"] + [] == ["a\\"];
    assert OnlySlashesFollow("/a\\") by { KeptOfSmall(); }
    hide *;
  }

  lemma KeptOfSmall()
    ensures Kept("/a\\") == "/a\\"
  {
    assert "/a\\"[1..] == "a\\" && "a\\"[1..] == "\\";
    assert Kept("a\\") == "a\\";
  }

  lemma {:induction false} LastSlashIs(s: string, w: string, n: nat)
    requires '/' !in w && |s| <= n < |s| + 1 + |w|
    ensures LastSlash(s + "/" + w, n) == |s|
  {
    var t := s + "/" + w;
    assert t[|s|] == '/';
    if n > |s| {
      assert t[n] == w[n - |s| - 1];
      LastSlashIs(s, w, n - 1);
    }
  }

  lemma ParentOf(s: string, w: string)
    requires w != "" && '/' !in w
    ensures s + "/" + w != "" && Parent(s + "/" + w) == if s == "" then "/" else s
  {
    LastSlashIs(s, w, |s| + |w|);
    assert (s + "/" + w)[..|s|] == s;
  }

  /** GetParentDir of the path of some components is the path of all but the last one, or the root. */
  lemma ParentOfJoin(before: seq<string>, last: string)
    requires last != "" && '/' !in last
    ensures Join(before + [last]) != ""
    ensures Parent(Join(before + [last])) == if before == [] then "/" else Join(before)
  {
    hide Join, Parent;
    JoinIsEmpty(before);
    JoinSnoc(before, last);
    ParentOf(Join(before), last);
  }

  lemma JoinIsEmpty(cs: seq<string>)
    ensures Join(cs) == "" <==> cs == []
  {
  }

  /** S3ReadDir knows the path of some components under that path itself. */
  lemma DirKeyOfJoin(cs: seq<string>)
    requires AreWords(cs) && cs != []
    ensures SkipSlashes(Join(cs)) != "" && DirKey(Join(cs)) == Join(cs)
  {
    var s := Join(cs);
    JoinEnds(cs);
    assert s[1] == cs[0][0];
    assert SkipSlashes(s) == s[1..] by { assert s[1..][0] != '/'; }
  }

  /** S3FileStat, too. */
  lemma StatKeyOfJoin(cs: seq<string>)
    requires AreWords(cs) && cs != []
    ensures StatKey(Join(cs)) == Join(cs)
  {
    var s := Join(cs);
    JoinEnds(cs);
    assert s[1] == cs[0][0];
    assert SkipSlashes(s) == s[1..] by { assert s[1..][0] != '/'; }
    assert s == "/" + s[1..];
  }

  lemma CleanedIsNotEmpty(p: string)
    requires p != ""
    ensures Cleaned(p) != ""
  {
    StrippedIsNotEmpty(Collapse(p, false));
  }

  lemma {:induction false} StrippedIsNotEmpty(s: string)
    requires s != ""
    ensures Stripped(s) != ""
  {
    if |s| > 1 && s[|s| - 1] == '/' { StrippedIsNotEmpty(s[..|s| - 1]); }
  }

  /**
   Whatever redundant slashes a path has, the directory key that S3Unlink and
   S3Mkdir invalidate is the one S3ReadDir uses for the canonical path of its
   parent, if and only if no component follows the one with the first backslash.
   */
  lemma InvalidatedKey(p: string)
    requires p != "" && p[0] == '/' && |Split(p)| >= 2
    ensures var parent := Join(Front(Split(p)));
            && Cleaned(p) != ""
            && DirKey(parent) == parent
            && (Parent(Cleaned(p)) == DirKey(parent) <==> BackslashInLast(p))
  {
    var cs := Split(p);
    var ks := Split(Kept(p));
    hide Split, Join, Parent, Cleaned, DirKey, Kept, OnlySlashesFollow, BackslashInLast;
    SplitOfKept(p);
    CleanedIsKept(p);
    assert ks == Front(ks) + [End(ks)];
    ParentOfJoin(Front(ks), End(ks));
    DirKeyOfJoin(Front(cs));
    FrontIsFront(ks, cs);
    ParentIsFront(Front(ks), Front(cs));
  }

  lemma FrontIsFront(ks: seq<string>, cs: seq<string>)
    requires ks != [] && |ks| <= |cs| && Front(ks) <= cs
    ensures Front(ks) == Front(cs) <==> |ks| == |cs|
  {
  }

  lemma RootHasNone()
    ensures Split("/") == []
  {
    assert "/"[1..] == "";
  }

  /** The parents of two canonical paths are equal only if they have the same components. */
  lemma ParentIsFront(a: seq<string>, b: seq<string>)
    requires AreWords(a) && AreWords(b) && b != []
    ensures (if a == [] then "/" else Join(a)) == Join(b) <==> a == b
  {
    SplitJoin(a);
    SplitJoin(b);
    RootHasNone();
    hide Split, Join;
  }

  /** For a path of one component, the invalidated key is the root. */
  lemma InvalidatedRoot(p: string)
    requires p != "" && p[0] == '/' && |Split(p)| == 1
    ensures Cleaned(p) != "" && Parent(Cleaned(p)) == "/"
  {
    var ks := Split(Kept(p));
    hide Split, Join, Parent, Cleaned, Kept;
    SplitOfKept(p);
    CleanedIsKept(p);
    assert ks == [] + [ks[0]];
    ParentOfJoin([], ks[0]);
  }

  // ----- The stat cache -----

  /** Two slashes follow each other. */
  predicate HasDouble(s: string) {
    |s| >= 2 && ((s[0] == '/' && s[1] == '/') || HasDouble(s[1..]))
  }

  lemma {:induction false} DoubleInWord(w: string, r: string)
    requires w != "" && '/' !in w
    ensures HasDouble(w + r) == HasDouble(r)
  {
    if |w| > 1 {
      assert (w + r)[1..] == w[1..] + r;
      DoubleInWord(w[1..], r);
    } else {
      assert (w + r)[1..] == r;
    }
  }

  lemma {:induction false} JoinHasNoDouble(cs: seq<string>)
    requires AreWords(cs)
    ensures !HasDouble(Join(cs))
  {
    if cs != [] {
      JoinHasNoDouble(cs[1..]);
      DoubleInWord(cs[0], Join(cs[1..]));
      assert Join(cs)[1..] == cs[0] + Join(cs[1..]);
      assert cs[0][0] != '/';
    }
  }

  /** A path that starts with a slash, does not end with one, and has no two in a row is the path of its components. */
  lemma {:induction false} JoinOfSplit(p: string)
    requires p != "" && p[0] == '/' && !EndsWithSlash(p) && !HasDouble(p)
    ensures Join(Split(p)) == p
    decreases |p|
  {
    hide Split, Join;
    SplitSlash(p);
    var t := p[1..];
    assert p == "/" + t && t[0] == p[1] != '/';
    var w := WordOf(t);
    var rest := t[|w|..];
    assert t == w + rest;
    DoubleInWord(w, rest);
    SplitWord(w, rest);
    JoinCons(w, Split(rest));
    EmptyPath();
    if rest == "" {
      assert "/" + w + "" == p;
    } else {
      assert rest[|rest| - 1] == p[|p| - 1];
      JoinOfSplit(rest);
      assert "/" + w + rest == p;
    }
  }

  lemma {:induction false} SplitTrailing(t: string)
    ensures Split(t + "/") == Split(t)
    decreases |t|
  {
    if t == "" {
      assert (t + "/")[1..] == "";
    } else if t[0] == '/' {
      assert (t + "/")[1..] == t[1..] + "/";
      SplitTrailing(t[1..]);
    } else {
      var w := Word(t);
      var rest := t[|w|..];
      assert t == w + rest && t + "/" == w + (rest + "/");
      WordIs(w, rest + "/");
      assert (t + "/")[|w|..] == rest + "/";
      SplitTrailing(rest);
    }
  }

  lemma {:induction false} SplitStripped(s: string)
    ensures Split(Stripped(s)) == Split(s)
    ensures forall c <- Stripped(s) :: c in s
    ensures Stripped(Stripped(s)) == Stripped(s) && (s != "" ==> Stripped(s) != "" && Stripped(s)[0] == s[0])
  {
    if |s| > 1 && s[|s| - 1] == '/' {
      SplitStripped(s[..|s| - 1]);
      SplitTrailing(s[..|s| - 1]);
      assert s[..|s| - 1] + "/" == s;
    }
  }

  lemma {:induction false} SplitSkipped(s: string)
    ensures Split("/" + SkipSlashes(s)) == Split(s)
    ensures forall c <- SkipSlashes(s) :: c in s
  {
    assert ("/" + SkipSlashes(s))[1..] == SkipSlashes(s);
    if s != "" && s[0] == '/' {
      SplitSkipped(s[1..]);
      assert ("/" + SkipSlashes(s[1..]))[1..] == SkipSlashes(s[1..]);
    }
  }

  lemma {:induction false} StrippedEnd(s: string)
    ensures |Stripped(s)| > 1 ==> !EndsWithSlash(Stripped(s))
  {
    if |s| > 1 && s[|s| - 1] == '/' { StrippedEnd(s[..|s| - 1]); }
  }

  lemma StatKeyIs(p: string)
    requires Split(p) != []
    ensures var k := StatKey(p);
            k != "" && k[0] == '/' && !EndsWithSlash(k) && Split(k) == Split(p)
  {
    var s := "/" + SkipSlashes(p);
    SplitSkipped(p);
    SplitStripped(s);
    StrippedEnd(s);
    RootHasNone();
    assert |Stripped(s)| == 1 ==> Stripped(s) == "/";
    hide Stripped, Split, SkipSlashes;
  }

  /**
   The key under which S3FileStat caches a path is the one that S3Unlink
   deletes if and only if it has no two slashes in a row, for S3FileStat removes
   only those at the ends, and nothing but slashes follows the first backslash.
   */
  lemma StatKeyAgrees(p: string)
    requires p != "" && p[0] == '/' && Split(p) != []
    ensures StatKey(p) == Cleaned(p) <==> !HasDouble(StatKey(p)) && OnlySlashesFollow(p)
  {
    var k := StatKey(p);
    StatKeyIs(p);
    hide StatKey, Join, Split, Cleaned, Kept, OnlySlashesFollow, EndsWithSlash, HasDouble, BackslashInLast;
    CleanedIsJoin(p);
    CleanedIsKept(p);
    SplitOfKept(p);
    SplitJoin(Split(Kept(p)));
    if HasDouble(k) { JoinHasNoDouble(Split(p)); } else { JoinOfSplit(k); }
  }

  // ----- S3Rmdir -----

  lemma {:induction false} SplitSnoc(s: string, w: string)
    requires w != "" && '/' !in w
    ensures Split(s + "/" + w) == Split(s) + [w]
    decreases |s|
  {
    if s == "" {
      SplitWord(w, "");
      assert (s + "/" + w)[1..] == w && w + "" == w;
    } else if s[0] == '/' {
      assert (s + "/" + w)[1..] == s[1..] + "/" + w;
      SplitSnoc(s[1..], w);
    } else {
      var v := WordOf(s);
      var rest := s[|v|..];
      assert s == v + rest && s + "/" + w == v + (rest + "/" + w);
      SplitWord(v, rest);
      SplitWord(v, rest + "/" + w);
      SplitSnoc(rest, w);
    }
  }

  /** What follows the last slash has none. */
  lemma {:induction false} AfterLastSlash(s: string, n: nat)
    requires n < |s| && s[0] == '/'
    ensures s[LastSlash(s, n)] == '/' && '/' !in s[LastSlash(s, n) + 1..n + 1]
  {
    if n != 0 && s[n] != '/' {
      AfterLastSlash(s, n - 1);
      assert s[LastSlash(s, n) + 1..n + 1] == s[LastSlash(s, n) + 1..n] + [s[n]];
    }
  }

  lemma ParentOfTrailing(p: string)
    requires |p| > 1 && EndsWithSlash(p)
    ensures Split(Parent(p)) == Split(p)
  {
    hide Split;
    var q := p[..|p| - 1];
    assert q + "/" == p && Parent(p) == q;
    hide Parent;
    SplitTrailing(q);
  }

  /** A path is what precedes its last slash, the slash, and what follows it. */
  lemma CutAtLastSlash(p: string) returns (q: string, w: string)
    requires p != "" && p[0] == '/'
    ensures p == q + "/" + w && '/' !in w
    ensures Parent(p) == if q == "" then "/" else q
    ensures w == "" <==> EndsWithSlash(p)
  {
    var i := LastSlash(p, |p| - 1);
    q, w := p[..i], p[i + 1..];
    AfterLastSlash(p, |p| - 1);
    assert p[i + 1..|p|] == w;
  }

  lemma ParentOfPlain(p: string, before: seq<string>, last: string)
    requires p != "" && p[0] == '/' && !EndsWithSlash(p) && Split(p) == before + [last] && before != []
    ensures p == Parent(p) + "/" + last
  {
    hide Split, EndsWithSlash, Parent;
    var q, w := CutAtLastSlash(p);
    SplitSnoc(q, w);
    EmptyPath();
    SameSnoc(Split(q), w, before, last);
  }

  lemma SameSnoc(a: seq<string>, x: string, b: seq<string>, y: string)
    requires a + [x] == b + [y]
    ensures a == b && x == y
  {
    assert (a + [x])[..|a|] == a && (b + [y])[..|b|] == b && |a| == |b|;
    assert (a + [x])[|a|] == x && (b + [y])[|b|] == y;
  }

  /**
   S3Rmdir and S3CreateLink take the parent of a path as it is given.  That is
   the key that S3ReadDir uses for the canonical path of the parent directory if
   and only if the path has no slash at its end and no two in a row.
   */
  lemma RawParentKey(p: string)
    requires p != "" && p[0] == '/' && |Split(p)| >= 2
    ensures var parent := Join(Front(Split(p)));
            DirKey(parent) == parent && (Parent(p) == parent <==> !EndsWithSlash(p) && !HasDouble(p))
  {
    var cs := Split(p);
    var before, last := Front(cs), End(cs);
    assert cs == before + [last];
    hide Split, Join, Parent, DirKey, EndsWithSlash, HasDouble;
    DirKeyOfJoin(before);
    SplitIsShort(p);
    if EndsWithSlash(p) {
      ParentOfTrailing(p);
      SplitJoin(before);
    } else {
      ParentOfPlain(p, before, last);
      JoinSnoc(before, last);
      SameHead(Parent(p), Join(before), last);
      if HasDouble(p) { JoinHasNoDouble(cs); } else { JoinOfSplit(p); }
    }
  }

  /**
   The directory that S3Rmdir removes is the one of the clean path.  The key that
   it invalidates is the parent of that one if and only if the path has no slash
   at its end, no two in a row, and its first backslash in the last component.
   */
  lemma RmdirKeyAgrees(p: string)
    requires p != "" && p[0] == '/' && |Split(p)| >= 2
    ensures Cleaned(p) != ""
    ensures Parent(p) == Parent(Cleaned(p)) <==> !EndsWithSlash(p) && !HasDouble(p) && BackslashInLast(p)
  {
    var cs := Split(p);
    assert cs == Front(cs) + [End(cs)];
    hide Split, Join, Parent, Cleaned, EndsWithSlash, HasDouble, DirKey, BackslashInLast;
    InvalidatedKey(p);
    SplitIsShort(p);
    if EndsWithSlash(p) {
      ParentOfTrailing(p);
      ParentIsShorter(p);
    } else {
      RmdirPlain(p);
    }
  }

  lemma ParentOfClean(p: string)
    requires p != "" && p[0] == '/' && |Split(p)| >= 2
    ensures Cleaned(p) != "" && |Split(Parent(Cleaned(p)))| == |Split(Kept(p))| - 1
  {
    var ks := Split(Kept(p));
    hide Split, Join, Parent, Cleaned, Kept, OnlySlashesFollow, BackslashInLast;
    RootHasNone();
    SplitOfKept(p);
    CleanedIsKept(p);
    assert ks == Front(ks) + [End(ks)];
    ParentOfJoin(Front(ks), End(ks));
    SplitJoin(Front(ks));
  }

  lemma ParentIsShorter(p: string)
    requires p != "" && p[0] == '/' && |Split(p)| >= 2
    ensures Cleaned(p) != "" && Split(Parent(Cleaned(p))) != Split(p)
  {
    hide Split, Parent, Cleaned, Kept;
    ParentOfClean(p);
    SplitOfKept(p);
  }

  lemma RmdirPlain(p: string)
    requires p != "" && p[0] == '/' && |Split(p)| >= 2 && !EndsWithSlash(p)
    ensures Cleaned(p) != ""
    ensures Parent(p) == Parent(Cleaned(p)) <==> !HasDouble(p) && BackslashInLast(p)
  {
    var cs := Split(p);
    assert cs == Front(cs) + [End(cs)];
    hide Split, Join, Parent, Cleaned, EndsWithSlash, HasDouble, DirKey, BackslashInLast, OnlySlashesFollow, Kept;
    InvalidatedKey(p);
    ParentOfPlain(p, Front(cs), End(cs));
    ParentOfClean(p);
    SplitOfKept(p);
    SplitSnoc(Parent(p), End(cs));
    SameSnoc(Split(Parent(p)), End(cs), Front(cs), End(cs));
    JoinSnoc(Front(cs), End(cs));
    SameHead(Parent(p), Join(Front(cs)), End(cs));
    if HasDouble(p) { JoinHasNoDouble(cs); } else { JoinOfSplit(p); }
  }

  lemma SameHead(a: string, b: string, c: string)
    ensures a + "/" + c == b + "/" + c <==> a == b
  {
    if a + "/" + c == b + "/" + c {
      assert |a| == |b| && a == (a + "/" + c)[..|a|] && b == (b + "/" + c)[..|b|];
    }
  }

  lemma {:induction false} SplitIsShort(p: string)
    ensures |Split(p)| <= |p|
    decreases |p|
  {
    if p != "" {
      if p[0] == '/' { SplitIsShort(p[1..]); } else { SplitIsShort(p[|Word(p)|..]); }
    }
  }
}
