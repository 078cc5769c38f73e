/** Lists of names in the order of their last use, the most recently used name last. */
module Recency {
  predicate Distinct(l: seq<string>) {
    forall i, j | 0 <= i < j < |l| :: l[i] != l[j]
  }

  function Remove<T(==)>(l: seq<T>, f: T): seq<T> {
    if l == [] then [] else if l[0] == f then l[1..] else [l[0]] + Remove(l[1..], f)
  }

  /** The last c elements. */
  function Last<T>(l: seq<T>, c: nat): seq<T> {
    if |l| <= c then l else l[|l| - c..]
  }

  predicate IsSuffix(a: seq<string>, b: seq<string>) {
    |a| <= |b| && a == b[|b| - |a|..]
  }

  lemma {:induction false} RemoveElements(l: seq<string>, f: string)
    requires Distinct(l)
    ensures forall g :: g in Remove(l, f) <==> g in l && g != f
    ensures |Remove(l, f)| == if f in l then |l| - 1 else |l|
    ensures Distinct(Remove(l, f))
  {
    if l != [] {
      DistinctTail(l);
      if l[0] != f {
        RemoveElements(l[1..], f);
        DistinctCons(l[0], Remove(l[1..], f));
      }
    }
    hide Distinct;
  }

  lemma DistinctTail(l: seq<string>)
    requires Distinct(l) && l != []
    ensures Distinct(l[1..]) && l[0] !in l[1..]
    ensures forall g :: g in l <==> g == l[0] || g in l[1..]
  {
  }

  lemma DistinctCons(f: string, l: seq<string>)
    requires Distinct(l) && f !in l
    ensures Distinct([f] + l)
  {
  }

  lemma DistinctSnoc(l: seq<string>, f: string)
    requires Distinct(l) && f !in l
    ensures Distinct(l + [f])
  {
  }

  lemma DistinctLast(l: seq<string>, c: nat)
    requires Distinct(l)
    ensures Distinct(Last(l, c))
  {
  }

  lemma {:induction false} RemoveConcat<T>(a: seq<T>, b: seq<T>, f: T)
    ensures Remove(a + b, f) == if f in a then Remove(a, f) + b else a + Remove(b, f)
  {
    if a == [] {
      assert a + b == b;
    } else {
      assert (a + b)[1..] == a[1..] + b;
      assert forall g :: g in a <==> g == a[0] || g in a[1..];
      if a[0] != f {
        RemoveConcat(a[1..], b, f);
        Shift([a[0]], Remove(a[1..], f), b);
        Shift([a[0]], a[1..], Remove(b, f));
      }
    }
  }

  lemma Shift<T>(a: seq<T>, b: seq<T>, c: seq<T>)
    ensures a + (b + c) == a + b + c
  {
  }

  lemma {:induction false} RemoveAbsent<T>(l: seq<T>, f: T)
    requires f !in l
    ensures Remove(l, f) == l
  {
    if l != [] { RemoveAbsent(l[1..], f); }
  }

  // ----- Bounded and unbounded lists -----

  /** A use of a name, or its invalidation. */
  datatype Op = Use(name: string) | Drop(name: string)

  /** One operation on a cache of names that holds at most c of them. */
  function Step(l: seq<string>, op: Op, c: nat): seq<string> {
    match op
    case Use(f) => if f in l then Remove(l, f) + [f] else Last(l + [f], c)
    case Drop(f) => Remove(l, f)
  }

  /** One operation on the list of all names that were used and not invalidated since. */
  function Note(l: seq<string>, op: Op): seq<string> {
    match op
    case Use(f) => Remove(l, f) + [f]
    case Drop(f) => Remove(l, f)
  }

  function Cached(ops: seq<Op>, c: nat): seq<string> {
    if ops == [] then [] else Step(Cached(ops[..|ops| - 1], c), ops[|ops| - 1], c)
  }

  function Noted(ops: seq<Op>): seq<string> {
    if ops == [] then [] else Note(Noted(ops[..|ops| - 1]), ops[|ops| - 1])
  }

  lemma StepKeepsDistinct(l: seq<string>, op: Op, c: nat)
    requires Distinct(l) && |l| <= c
    ensures Distinct(Step(l, op, c)) && |Step(l, op, c)| <= c
  {
    var f := op.name;
    RemoveElements(l, f);
    match op
    case Use(_) =>
      if f in l {
        DistinctSnoc(Remove(l, f), f);
      } else {
        DistinctSnoc(l, f);
        DistinctLast(l + [f], c);
      }
    case Drop(_) =>
    hide Distinct, Remove;
  }

  lemma NoteKeepsDistinct(l: seq<string>, op: Op)
    requires Distinct(l)
    ensures Distinct(Note(l, op))
  {
    RemoveElements(l, op.name);
    if op.Use? { DistinctSnoc(Remove(l, op.name), op.name); }
    hide Distinct, Remove;
  }

  /** A cache never holds a name twice, or more names than it has room for. */
  lemma {:induction false} CachedIsBounded(ops: seq<Op>, c: nat)
    ensures Distinct(Cached(ops, c)) && |Cached(ops, c)| <= c
  {
    if ops != [] {
      CachedIsBounded(ops[..|ops| - 1], c);
      StepKeepsDistinct(Cached(ops[..|ops| - 1], c), ops[|ops| - 1], c);
    }
  }

  lemma {:induction false} NotedIsDistinct(ops: seq<Op>)
    ensures Distinct(Noted(ops))
  {
    if ops != [] {
      NotedIsDistinct(ops[..|ops| - 1]);
      NoteKeepsDistinct(Noted(ops[..|ops| - 1]), ops[|ops| - 1]);
    }
  }

  lemma SuffixOf(x: seq<string>, a: seq<string>)
    ensures IsSuffix(a, x + a)
  {
  }

  /** One step keeps the contents of a smaller cache at the end of those of a larger one. */
  lemma StepKeepsInclusion(x: seq<string>, a: seq<string>, op: Op, c: nat, d: nat)
    requires Distinct(x + a) && |a| <= c <= d && |x + a| <= d
    ensures IsSuffix(Step(a, op, c), Step(x + a, op, d))
  {
    var f := op.name;
    hide Distinct, Remove, Last;
    assert f in x + a <==> f in x || f in a;
    if f in x && f in a { TwiceIn(x, a, f); }
    else if f in a { StepOfShared(x, a, op, c, d); }
    else if f in x { StepOfLarger(x, a, op, c, d); }
    else { StepOfNeither(x, a, op, c, d); }
  }

  lemma StepOfShared(x: seq<string>, a: seq<string>, op: Op, c: nat, d: nat)
    requires op.name in a && op.name !in x
    ensures IsSuffix(Step(a, op, c), Step(x + a, op, d))
  {
    var f := op.name;
    RemoveConcat(x, a, f);
    hide Remove, IsSuffix;
    if op.Use? {
      assert x + Remove(a, f) + [f] == x + (Remove(a, f) + [f]);
      SuffixOf(x, Remove(a, f) + [f]);
    } else {
      SuffixOf(x, Remove(a, f));
    }
  }

  lemma StepOfLarger(x: seq<string>, a: seq<string>, op: Op, c: nat, d: nat)
    requires op.name in x && op.name !in a
    ensures IsSuffix(Step(a, op, c), Step(x + a, op, d))
  {
    var f := op.name;
    RemoveConcat(x, a, f);
    RemoveAbsent(a, f);
    hide Remove;
    if op.Use? {
      assert Remove(x, f) + a + [f] == Remove(x, f) + (a + [f]);
    }
  }

  lemma StepOfNeither(x: seq<string>, a: seq<string>, op: Op, c: nat, d: nat)
    requires op.name !in x && op.name !in a && |a| <= c <= d && |x + a| <= d
    ensures IsSuffix(Step(a, op, c), Step(x + a, op, d))
  {
    var f := op.name;
    if op.Use? {
      hide Remove, Last, IsSuffix;
      Shift(x, a, [f]);
      LastIsSuffix(x, a + [f], c, d);
    } else {
      RemoveAbsent(a, f);
      RemoveAbsent(x + a, f);
      hide Remove;
    }
  }

  lemma LastIsSuffix(x: seq<string>, a: seq<string>, c: nat, d: nat)
    requires c <= d
    ensures IsSuffix(Last(a, c), Last(x + a, d))
  {
  }

  lemma TwiceIn(x: seq<string>, a: seq<string>, f: string)
    requires f in x && f in a
    ensures !Distinct(x + a)
  {
    var i :| 0 <= i < |x| && x[i] == f;
    var j :| 0 <= j < |a| && a[j] == f;
    assert (x + a)[i] == f && (x + a)[|x| + j] == f;
  }

  /** Inclusion: what a cache holds, every larger cache holds as its most recently used names. */
  lemma {:induction false} Inclusion(ops: seq<Op>, c: nat, d: nat)
    requires c <= d
    ensures IsSuffix(Cached(ops, c), Cached(ops, d))
  {
    if ops != [] {
      var before := ops[..|ops| - 1];
      Inclusion(before, c, d);
      CachedIsBounded(before, c);
      CachedIsBounded(before, d);
      var a, b := Cached(before, c), Cached(before, d);
      assert b == b[..|b| - |a|] + a;
      StepKeepsInclusion(b[..|b| - |a|], a, ops[|ops| - 1], c, d);
    }
    hide Distinct, Step;
  }

  lemma {:induction false} NotedIsShort(ops: seq<Op>)
    ensures |Noted(ops)| <= |ops|
  {
    if ops != [] {
      NotedIsShort(ops[..|ops| - 1]);
      NotedIsDistinct(ops[..|ops| - 1]);
      RemoveElements(Noted(ops[..|ops| - 1]), ops[|ops| - 1].name);
    }
    hide Distinct, Remove;
  }

  /** A cache that is large enough is the list of all names. */
  lemma {:induction false} LargeCache(ops: seq<Op>, c: nat)
    requires |ops| <= c
    ensures Cached(ops, c) == Noted(ops)
  {
    if ops != [] {
      var before := ops[..|ops| - 1];
      LargeCache(before, c);
      NotedIsShort(before);
      RemoveAbsentNoted(Noted(before), ops[|ops| - 1].name);
    }
  }

  lemma RemoveAbsentNoted(l: seq<string>, f: string)
    ensures f !in l ==> Remove(l, f) == l
  {
    if f !in l { RemoveAbsent(l, f); }
  }

  /** What a cache holds are the most recently used names, in the order of their last use. */
  lemma CachedIsRecent(ops: seq<Op>, c: nat)
    ensures IsSuffix(Cached(ops, c), Noted(ops))
  {
    var d := if c < |ops| then |ops| else c;
    Inclusion(ops, c, d);
    LargeCache(ops, d);
    hide *;
  }

  /** Without invalidations, it is exactly the c most recently used names. */
  lemma {:induction false} CachedIsLast(ops: seq<Op>, c: nat)
    requires forall i | 0 <= i < |ops| :: ops[i].Use?
    ensures Cached(ops, c) == Last(Noted(ops), c)
  {
    if ops != [] {
      var before, f := ops[..|ops| - 1], ops[|ops| - 1].name;
      CachedIsLast(before, c);
      NotedIsDistinct(before);
      assert ops[|ops| - 1].Use?;
      UseKeepsLast(Noted(before), f, c);
    }
    hide Distinct, Step, Note, Last;
  }

  lemma UseKeepsLast(l: seq<string>, f: string, c: nat)
    requires Distinct(l)
    ensures Step(Last(l, c), Use(f), c) == Last(Note(l, Use(f)), c)
  {
    var a := Last(l, c);
    var x := l[..|l| - |a|];
    assert l == x + a;
    assert |a| <= c && (x == [] || |a| == c);
    assert f in l <==> f in x || f in a;
    hide Distinct, Remove, Last;
    RemoveElementsOf(x, a, f);
    if f in a { UseOfCached(x, a, f, c); }
    else if f in x { UseOfEvicted(x, a, f, c); }
    else { UseOfNew(x, a, f, c); }
  }

  lemma UseOfCached(x: seq<string>, a: seq<string>, f: string, c: nat)
    requires Distinct(x + a) && f in a && |a| <= c && (x == [] || |a| == c) && |Remove(a, f)| == |a| - 1
    ensures Last(Remove(x + a, f) + [f], c) == Remove(a, f) + [f]
  {
    assert f !in x by { if f in x { TwiceIn(x, a, f); } }
    RemoveConcat(x, a, f);
    assert x + Remove(a, f) + [f] == x + (Remove(a, f) + [f]);
    LastOfConcat(x, Remove(a, f) + [f], c);
    hide Distinct, Remove, Last;
  }

  lemma UseOfEvicted(x: seq<string>, a: seq<string>, f: string, c: nat)
    requires f in x && |a| == c
    ensures Last(Remove(x + a, f) + [f], c) == Last(a + [f], c)
  {
    RemoveConcat(x, a, f);
    assert Remove(x, f) + a + [f] == Remove(x, f) + (a + [f]);
    LastOfLast(Remove(x, f), a + [f], c);
    hide Remove, Last;
  }

  lemma UseOfNew(x: seq<string>, a: seq<string>, f: string, c: nat)
    requires f !in x && f !in a && (x == [] || |a| == c)
    ensures Last(Remove(x + a, f) + [f], c) == Last(a + [f], c)
  {
    RemoveAbsent(x + a, f);
    assert x + a + [f] == x + (a + [f]);
    LastOfLast(x, a + [f], c);
    hide Remove, Last;
  }

  lemma LastOfConcat(x: seq<string>, a: seq<string>, c: nat)
    requires |a| == c || (x == [] && |a| <= c)
    ensures Last(x + a, c) == a
  {
  }

  lemma LastOfLast(x: seq<string>, a: seq<string>, c: nat)
    requires x == [] || |a| >= c
    ensures Last(x + a, c) == Last(a, c)
  {
  }

  lemma RemoveElementsOf(x: seq<string>, a: seq<string>, f: string)
    requires Distinct(x + a)
    ensures |Remove(a, f)| == if f in a then |a| - 1 else |a|
    ensures |Remove(x, f)| == if f in x then |x| - 1 else |x|
  {
    DistinctParts(x, a);
    RemoveElements(a, f);
    RemoveElements(x, f);
    hide Distinct, Remove;
  }

  lemma DistinctParts(x: seq<string>, a: seq<string>)
    requires Distinct(x + a)
    ensures Distinct(x) && Distinct(a)
  {
    forall i, j | 0 <= i < j < |a| ensures a[i] != a[j] { assert (x + a)[|x| + i] != (x + a)[|x| + j]; }
    forall i, j | 0 <= i < j < |x| ensures x[i] != x[j] { assert (x + a)[i] != (x + a)[j]; }
  }

  /** A name that has just been used is the last one in a cache that has room for any. */
  lemma UsedIsCached(ops: seq<Op>, c: nat)
    requires ops != [] && ops[|ops| - 1].Use? && 0 < c
    ensures Cached(ops, c) != [] && Cached(ops, c)[|Cached(ops, c)| - 1] == ops[|ops| - 1].name
  {
  }

  // ----- How long a name stays -----

  lemma NotedSnoc(ops: seq<Op>, op: Op)
    ensures Noted(ops + [op]) == Note(Noted(ops), op)
  {
    assert (ops + [op])[..|ops|] == ops;
    hide Note;
  }

  /** What was noted before a use of f, f, and what was noted since. */
  lemma {:induction false} NotedSince(before: seq<Op>, f: string, since: seq<Op>) returns (x: seq<string>)
    requires forall i | 0 <= i < |since| :: since[i].name != f
    ensures Noted(before + [Use(f)] + since) == x + ([f] + Noted(since))
  {
    if since == [] {
      assert before + [Use(f)] + since == before + [Use(f)];
      NotedSnoc(before, Use(f));
      x := Remove(Noted(before), f);
    } else {
      hide Noted, Note, Remove, Distinct;
      var n := |since| - 1;
      var earlier := before + [Use(f)] + since[..n];
      assert before + [Use(f)] + since == earlier + [since[n]] && since == since[..n] + [since[n]];
      x := NotedSince(before, f, since[..n]);
      NotedIsDistinct(earlier);
      NotedSnoc(earlier, since[n]);
      NotedSnoc(since[..n], since[n]);
      NoteAfter(x, f, Noted(since[..n]), since[n]);
      if since[n].name in x { x := Remove(x, since[n].name); }
    }
  }

  lemma NoteAfter(x: seq<string>, f: string, l: seq<string>, op: Op)
    requires Distinct(x + ([f] + l)) && op.name != f
    ensures Note(x + ([f] + l), op) ==
            (if op.name in x then Remove(x, op.name) else x) + ([f] + Note(l, op))
  {
    var g := op.name;
    RemoveConcat(x, [f] + l, g);
    RemoveConcat([f], l, g);
    RemoveAbsent([f], g);
    if g in x {
      if g in l { TwiceIn(x, [f] + l, g); }
      RemoveAbsent(l, g);
    } else if g !in l {
      RemoveAbsent(l, g);
      RemoveAbsent([f] + l, g);
    }
    hide Remove, Distinct;
    var y := if g in x then Remove(x, g) else x;
    assert y + ([f] + Remove(l, g)) + [g] == y + ([f] + (Remove(l, g) + [g]));
  }

  /** A suffix that has f has everything that follows it. */
  lemma SuffixFrom(l: seq<string>, x: seq<string>, f: string, n: seq<string>) returns (y: seq<string>)
    requires IsSuffix(l, x + ([f] + n)) && Distinct(x + ([f] + n)) && f in l
    ensures l == y + ([f] + n)
  {
    var all := x + ([f] + n);
    var k := |all| - |l|;
    var i :| 0 <= i < |l| && l[i] == f;
    assert all[k + i] == f && all[|x|] == f;
    assert k <= |x|;
    y := x[k..];
    assert l == all[k..] == y + ([f] + n);
  }

  lemma StepIsFrom(l: seq<string>, op: Op, c: nat, f: string)
    requires f in Step(l, op, c) && op.name != f
    ensures f in l
  {
    RemoveIsFrom(l, op.name, f);
    hide Remove;
  }

  lemma {:induction false} RemoveIsFrom(l: seq<string>, g: string, f: string)
    ensures f in Remove(l, g) ==> f in l
  {
    if l != [] { RemoveIsFrom(l[1..], g, f); }
  }

  /** One operation on another name leaves f in the cache if fewer than c names were noted since. */
  lemma StepLeaves(y: seq<string>, f: string, n: seq<string>, op: Op, c: nat)
    requires Distinct(y + ([f] + n)) && |y + ([f] + n)| <= c && op.name != f
    ensures f in Step(y + ([f] + n), op, c) <==> |Note(n, op)| < c
  {
    var g, l := op.name, y + ([f] + n);
    DistinctParts(y, [f] + n);
    DistinctParts([f], n);
    RemoveElements(l, g);
    RemoveElements(n, g);
    assert f in l by { assert l[|y|] == f; }
    assert f !in n by { if f in n { TwiceIn([f], n, f); } }
    assert g in l <==> g in y || g in n;
    hide Remove, Distinct;
    if op.Use? && g !in l { NewLeaves(y, f, n, g, c); }
  }

  lemma NewLeaves(y: seq<string>, f: string, n: seq<string>, g: string, c: nat)
    requires |y + ([f] + n)| <= c && g != f && f !in n
    ensures f in Last(y + ([f] + n) + [g], c) <==> |n| + 1 < c
  {
    var all := y + ([f] + n) + [g];
    assert all[|y|] == f;
    if |all| <= c {
      assert Last(all, c) == all;
    } else {
      assert Last(all, c) == all[1..];
      if y == [] { assert all[1..] == n + [g]; } else { assert all[1..][|y| - 1] == f; }
    }
  }

  /**
   A name that was used stays in a cache until as many other names have been used
   since as it has room for; a name that was invalidated does not count.
   */
  lemma {:induction false} StaysCached(before: seq<Op>, f: string, since: seq<Op>, c: nat)
    requires forall i | 0 <= i < |since| :: since[i].name != f
    ensures f in Cached(before + [Use(f)] + since, c) <==> forall j | 0 <= j <= |since| :: |Noted(since[..j])| < c
  {
    var ops := before + [Use(f)] + since;
    if since == [] {
      assert ops == before + [Use(f)];
      JustUsed(before, f, c);
      assert since[..0] == [];
    } else {
      var n := |since| - 1;
      var earlier := before + [Use(f)] + since[..n];
      assert ops[..|ops| - 1] == earlier && ops[|ops| - 1] == since[n];
      assert forall j | 0 <= j <= n :: since[..n][..j] == since[..j];
      assert since[..n + 1] == since;
      StaysCached(before, f, since[..n], c);
      StaysOneStep(before, f, since, c);
    }
    hide Cached, Noted;
  }

  lemma JustUsed(before: seq<Op>, f: string, c: nat)
    ensures f in Cached(before + [Use(f)], c) <==> 0 < c
  {
    var ops := before + [Use(f)];
    if 0 < c { UsedIsCached(ops, c); } else { CachedIsBounded(ops, c); }
    hide Cached;
  }

  lemma StaysOneStep(before: seq<Op>, f: string, since: seq<Op>, c: nat)
    requires since != [] && forall i | 0 <= i < |since| :: since[i].name != f
    ensures var l := Cached(before + [Use(f)] + since[..|since| - 1], c);
            f in Cached(before + [Use(f)] + since, c) <==> f in l && |Noted(since)| < c
  {
    var n := |since| - 1;
    var ops, earlier := before + [Use(f)] + since, before + [Use(f)] + since[..n];
    assert ops[..|ops| - 1] == earlier && ops[|ops| - 1] == since[n];
    var l := Cached(earlier, c);
    assert Cached(ops, c) == Step(l, since[n], c);
    assert Noted(since) == Note(Noted(since[..n]), since[n]);
    hide Cached, Noted, Step, Note, Distinct, IsSuffix;
    if f in l {
      var x := NotedSince(before, f, since[..n]);
      CachedIsRecent(earlier, c);
      NotedIsDistinct(earlier);
      CachedIsBounded(earlier, c);
      var y := SuffixFrom(l, x, f, Noted(since[..n]));
      StepLeaves(y, f, Noted(since[..n]), since[n], c);
    } else if f in Step(l, since[n], c) {
      StepIsFrom(l, since[n], c, f);
    }
  }
}
