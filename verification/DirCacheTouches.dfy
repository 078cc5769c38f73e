/**
 What the five slots of the directory cache hold after any trace, exactly.

 An invalidated directory leaves its slot empty, and the empty slot moves to the
 front like a directory that was looked up.  So the slots are the five latest
 touches, where an invalidated resident counts as a touch of nothing.
 */
module DirCacheTouches {
  import opened Recency
  import opened Wrappers
  import opened DirCache

  // ----- Touches -----

  /** The touches, the latest first: a name, or nothing. */
  function Touch(l: seq<Option<string>>, op: Op): seq<Option<string>>
    requires |l| >= DIR_CACHE_SIZE
  {
    var others := Remove(l, Some(op.name));
    match op
    case Use(f) => [Some(f)] + others
    case Drop(f) => if Some(f) in l[..DIR_CACHE_SIZE] then [None] + others else others
  }

  lemma {:induction false} RemoveIsShort<T>(l: seq<T>, f: T)
    ensures |Remove(l, f)| == if f in l then |l| - 1 else |l|
  {
    if l != [] { RemoveIsShort(l[1..], f); }
  }

  lemma TouchKeepsLength(l: seq<Option<string>>, op: Op)
    requires |l| >= DIR_CACHE_SIZE
    ensures |Touch(l, op)| >= DIR_CACHE_SIZE
  {
    var f := Some(op.name);
    var front, back := l[..DIR_CACHE_SIZE], l[DIR_CACHE_SIZE..];
    assert l == front + back;
    RemoveConcat(front, back, f);
    RemoveIsShort(front, f);
    RemoveIsShort(l, f);
    hide Remove;
  }

  function Touches(ops: seq<Op>): (l: seq<Option<string>>)
    ensures |l| >= DIR_CACHE_SIZE
  {
    if ops == [] then [None, None, None, None, None]
    else
      var before := Touches(ops[..|ops| - 1]);
      TouchKeepsLength(before, ops[|ops| - 1]);
      Touch(before, ops[|ops| - 1])
  }

  function NameOf<C>(d: Slot<C>): Option<string> {
    if d.Dir? then Some(d.name) else None
  }

  function Names<C>(s: seq<Slot<C>>): (l: seq<Option<string>>)
    ensures |l| == |s|
    ensures forall i | 0 <= i < |s| :: l[i] == NameOf(s[i])
  {
    if s == [] then [] else [NameOf(s[0])] + Names(s[1..])
  }

  lemma NamesConcat<C>(a: seq<Slot<C>>, b: seq<Slot<C>>)
    ensures Names(a + b) == Names(a) + Names(b)
  {
    hide Names;
  }

  lemma {:induction false} NamesHas<C>(s: seq<Slot<C>>, f: string)
    ensures Some(f) in Names(s) <==> Has(s, f)
  {
    if s != [] { NamesHas(s[1..], f); }
  }

  function EventAfter<C>(s: seq<Slot<C>>, e: Event<C>): (t: seq<Slot<C>>)
    requires s != []
    ensures |t| == |s|
  {
    match e
    case Read(f, c) => Inserted(s, f, c)
    case Change(f) => Invalidated(s, f)
  }

  /** A resident name is taken out of the first five touches. */
  lemma TouchResident(a: seq<Option<string>>, f: string, b: seq<Option<string>>, rest: seq<Option<string>>)
    requires Some(f) !in a
    ensures Remove(a + ([Some(f)] + b) + rest, Some(f)) == a + b + rest
  {
    assert a + ([Some(f)] + b) + rest == a + ([Some(f)] + (b + rest));
    RemoveConcat(a, [Some(f)] + (b + rest), Some(f));
    assert ([Some(f)] + (b + rest))[1..] == b + rest;
  }

  lemma FirstOf<T>(x: seq<T>, y: seq<T>, n: nat)
    requires |x| == n
    ensures (x + y)[..n] == x
  {
  }

  lemma TouchOfResident(a: seq<Option<string>>, b: seq<Option<string>>, rest: seq<Option<string>>, op: Op)
    requires |a| + 1 + |b| == DIR_CACHE_SIZE && Some(op.name) !in a
    ensures Touch(a + ([Some(op.name)] + b) + rest, op)
            == [if op.Use? then Some(op.name) else None] + (a + b) + rest
  {
    var f := Some(op.name);
    TouchResident(a, op.name, b, rest);
    hide Remove;
    FirstOf(a + ([f] + b), rest, DIR_CACHE_SIZE);
    assert (a + ([f] + b))[|a|] == f;
    Shift([if op.Use? then f else None], a + b, rest);
  }

  lemma ResidentEvent<C>(s: seq<Slot<C>>, e: Event<C>, rest: seq<Option<string>>)
    requires |s| == DIR_CACHE_SIZE && Has(s, e.name)
    ensures |Touch(Names(s) + rest, OpOf(e))| >= DIR_CACHE_SIZE
    ensures Names(EventAfter(s, e)) == Touch(Names(s) + rest, OpOf(e))[..DIR_CACHE_SIZE]
  {
    var a, d, b := LookedUpParts(s, e.name);
    NamesHas(a, e.name);
    var first := if e.Read? then d else Empty;
    assert EventAfter(s, e) == [first] + (a + b);
    TouchKeepsLength(Names(s) + rest, OpOf(e));
    var mark := if e.Read? then Some(e.name) else None;
    assert NameOf(first) == mark && NameOf(d) == Some(e.name);
    NamesOf(d);
    NamesOf(first);
    hide *;
    NamesConcat(a, [d] + b);
    NamesConcat([d], b);
    NamesConcat([first], a + b);
    NamesConcat(a, b);
    TouchOfResident(Names(a), Names(b), rest, OpOf(e));
    FirstOf([mark] + (Names(a) + Names(b)), rest, DIR_CACHE_SIZE);
  }

  lemma NamesOf<C>(d: Slot<C>)
    ensures Names([d]) == [NameOf(d)]
  {
  }

  lemma OtherEvent<C>(s: seq<Slot<C>>, e: Event<C>, rest: seq<Option<string>>)
    requires |s| == DIR_CACHE_SIZE && !Has(s, e.name)
    ensures |Touch(Names(s) + rest, OpOf(e))| >= DIR_CACHE_SIZE
    ensures Names(EventAfter(s, e)) == Touch(Names(s) + rest, OpOf(e))[..DIR_CACHE_SIZE]
  {
    var f := e.name;
    NamesHas(s, f);
    FirstOf(Names(s), rest, DIR_CACHE_SIZE);
    RemoveConcat(Names(s), rest, Some(f));
    var others := Remove(rest, Some(f));
    hide Has, LookedUp, Names, Remove;
    FirstOf(Names(s), others, DIR_CACHE_SIZE);
    if e.Read? {
      var kept, last := s[..|s| - 1], s[|s| - 1];
      assert s == kept + [last];
      NamesConcat(kept, [last]);
      NamesConcat([Dir(f, e.listing)], kept);
      assert [Some(f)] + (Names(kept) + Names([last]) + others) == [Some(f)] + Names(kept) + (Names([last]) + others);
      FirstOf([Some(f)] + Names(kept), Names([last]) + others, DIR_CACHE_SIZE);
      assert Names([Dir(f, e.listing)]) == [Some(f)];
    }
  }

  /** The slots are the five latest touches, after any trace. */
  lemma {:induction false} SlotsAreTouches<C>(trace: seq<Event<C>>)
    ensures Names(After(trace)) == Touches(Ops(trace))[..5]
  {
    if trace != [] {
      var before, e := trace[..|trace| - 1], trace[|trace| - 1];
      SlotsAreTouches(before);
      OpsSnoc(trace);
      var s, l := After(before), Touches(Ops(before));
      assert l == Names(s) + l[DIR_CACHE_SIZE..];
      if Has(s, e.name) { ResidentEvent(s, e, l[DIR_CACHE_SIZE..]); } else { OtherEvent(s, e, l[DIR_CACHE_SIZE..]); }
      assert After(trace) == EventAfter(s, e);
    }
    hide Names, Touch, Inserted, Invalidated, Has;
  }

  /** A listing stays in its slot exactly while its directory is among the five latest touches. */
  lemma ListingStays<C>(trace: seq<Event<C>>, f: string)
    ensures Find(After(trace), f).Some? <==> Some(f) in Touches(Ops(trace))[..5]
  {
    SlotsAreTouches(trace);
    NamesHas(After(trace), f);
    hide After, Touches, Names;
  }

  // ----- The names that were read and not changed since -----

  /** The names among the touches, the latest last. */
  function Known(l: seq<Option<string>>): seq<string> {
    if l == [] then [] else Known(l[1..]) + (if l[0].Some? then [l[0].value] else [])
  }

  lemma {:induction false} KnownConcat(a: seq<Option<string>>, b: seq<Option<string>>)
    ensures Known(a + b) == Known(b) + Known(a)
  {
    if a == [] {
      assert a + b == b;
    } else {
      assert (a + b)[1..] == a[1..] + b;
      KnownConcat(a[1..], b);
      Shift(Known(b), Known(a[1..]), if a[0].Some? then [a[0].value] else []);
    }
  }

  lemma KnownOf(x: Option<string>)
    ensures Known([x]) == if x.Some? then [x.value] else []
  {
    assert [x][1..] == [];
  }

  lemma {:induction false} KnownHas(l: seq<Option<string>>, f: string)
    ensures f in Known(l) <==> Some(f) in l
  {
    if l != [] { KnownHas(l[1..], f); }
  }

  lemma {:induction false} KnownRemove(l: seq<Option<string>>, f: string)
    requires Distinct(Known(l))
    ensures Known(Remove(l, Some(f))) == Remove(Known(l), f)
  {
    if l != [] {
      var x, rest := l[0], l[1..];
      var k := if x.Some? then [x.value] else [];
      DistinctParts(Known(rest), k);
      assert [x] + rest == l;
      RemoveConcat(Known(rest), k, f);
      if x == Some(f) {
        if f in Known(rest) { TwiceIn(Known(rest), k, f); }
        assert k[1..] == [];
      } else {
        KnownRemove(rest, f);
        RemoveAbsent(k, f);
        KnownConcat([x], Remove(rest, Some(f)));
        KnownOf(x);
        KnownHas(rest, f);
        if f !in Known(rest) { RemoveAbsent(Known(rest), f); }
      }
    }
    hide Distinct;
  }

  lemma TouchIsNote(l: seq<Option<string>>, op: Op)
    requires |l| >= DIR_CACHE_SIZE && Distinct(Known(l))
    ensures Known(Touch(l, op)) == Note(Known(l), op)
  {
    var f := Some(op.name);
    KnownRemove(l, op.name);
    hide Remove, Distinct;
    KnownConcat([f], Remove(l, f));
    KnownConcat([None], Remove(l, f));
    KnownOf(f);
    KnownOf(None);
    hide Known;
  }

  /** The names among the touches are the names that were read and not changed since. */
  lemma {:induction false} KnownTouches(ops: seq<Op>)
    ensures Known(Touches(ops)) == Noted(ops)
  {
    if ops != [] {
      KnownTouches(ops[..|ops| - 1]);
      NotedIsDistinct(ops[..|ops| - 1]);
      TouchIsNote(Touches(ops[..|ops| - 1]), ops[|ops| - 1]);
      hide Known, Touch, Note, Distinct;
    } else {
      NothingKnown([None, None, None, None, None]);
    }
  }

  lemma {:induction false} NothingKnown(l: seq<Option<string>>)
    ensures Known(l) == [] <==> forall i | 0 <= i < |l| :: l[i].None?
  {
    if l != [] {
      NothingKnown(l[1..]);
      assert (forall i | 0 <= i < |l| :: l[i].None?) <==> l[0].None? && (forall i | 0 <= i < |l[1..]| :: l[1..][i].None?)
      by {
        if l[0].None? && forall i | 0 <= i < |l[1..]| :: l[1..][i].None? {
          forall i | 0 <= i < |l| ensures l[i].None? { if i > 0 { assert l[1..][i - 1].None?; } }
        }
        if forall i | 0 <= i < |l| :: l[i].None? {
          forall i | 0 <= i < |l[1..]| ensures l[1..][i].None? { assert l[i + 1].None?; }
        }
      }
    }
  }

  lemma {:induction false} AllKnown(l: seq<Option<string>>)
    ensures |Known(l)| <= |l|
    ensures |Known(l)| == |l| <==> None !in l
  {
    if l != [] { AllKnown(l[1..]); }
  }

  lemma {:induction false} RecentIsKnown<C>(s: seq<Slot<C>>)
    ensures Recent(s) == Known(Names(s))
  {
    if s != [] {
      RecentIsKnown(s[1..]);
      assert Names(s)[1..] == Names(s[1..]);
    }
  }

  lemma LastIsExact(x: seq<string>, a: seq<string>, n: nat)
    requires |a| <= n
    ensures a == Last(x + a, n) <==> |a| == n || x == []
  {
    if |a| == n || x == [] { LastOfConcat(x, a, n); }
  }

  /**
   The slots hold the five most recently read names that were not changed since
   unless an invalidated directory is among the five latest touches while a name
   that was read and not changed since is not.
   */
  lemma SlotsAreTheLatest<C>(trace: seq<Event<C>>)
    ensures var l := Touches(Ops(trace));
            Recent(After(trace)) == Last(Noted(Ops(trace)), 5) <==>
              None !in l[..5] || forall i | 0 <= i < |l[5..]| :: l[5..][i].None?
  {
    var l := Touches(Ops(trace));
    var front, back := l[..DIR_CACHE_SIZE], l[DIR_CACHE_SIZE..];
    assert l == front + back;
    SlotsAreTouches(trace);
    RecentIsKnown(After(trace));
    KnownTouches(Ops(trace));
    KnownConcat(front, back);
    AllKnown(front);
    NothingKnown(back);
    LastIsExact(Known(back), Known(front), DIR_CACHE_SIZE);
    hide *;
  }

  // ----- A trace that loses a name too early -----

  lemma AfterSnoc<C>(trace: seq<Event<C>>, e: Event<C>)
    ensures After(trace + [e]) == EventAfter(After(trace), e)
    ensures Noted(Ops(trace + [e])) == Note(Noted(Ops(trace)), OpOf(e))
  {
    var longer := trace + [e];
    assert longer[..|longer| - 1] == trace;
    OpsSnoc(longer);
  }

  lemma ReadNew<C>(trace: seq<Event<C>>, s: seq<Slot<C>>, noted: seq<string>, f: string, c: C)
    requires After(trace) == s && Noted(Ops(trace)) == noted && f !in noted
    requires forall i | 0 <= i < |s| :: s[i].Dir? ==> s[i].name != f
    ensures |s| == DIR_CACHE_SIZE
    ensures After(trace + [Read(f, c)]) == [Dir(f, c)] + s[..DIR_CACHE_SIZE - 1]
    ensures Noted(Ops(trace + [Read(f, c)])) == noted + [f]
  {
    AfterSnoc(trace, Read(f, c));
    RemoveAbsent(noted, f);
    assert !Has(s, f);
    hide After, Noted, Ops, Remove;
  }

  /** Five directories are read, the third is changed, a sixth is read. */
  function Forgetting<C>(n: seq<string>, c: C): seq<Event<C>>
    requires |n| == 6
  {
    [Read(n[0], c), Read(n[1], c), Read(n[2], c), Read(n[3], c), Read(n[4], c), Change(n[2]), Read(n[5], c)]
  }

  lemma ReadsThree<C>(n: seq<string>, c: C)
    requires |n| == 6 && Distinct(n)
    ensures var three := Forgetting(n, c)[..3];
            && After(three) == [Dir(n[2], c), Dir(n[1], c), Dir(n[0], c), Empty, Empty]
            && Noted(Ops(three)) == [n[0], n[1], n[2]]
  {
    hide After, Noted, Ops;
    EmptyTrace<C>();
    ReadNew<C>([], [Empty, Empty, Empty, Empty, Empty], [], n[0], c);
    var t: seq<Event<C>> := [] + [Read(n[0], c)];
    ReadNew(t, [Dir(n[0], c), Empty, Empty, Empty, Empty], [n[0]], n[1], c);
    t := t + [Read(n[1], c)];
    ReadNew(t, [Dir(n[1], c), Dir(n[0], c), Empty, Empty, Empty], [n[0], n[1]], n[2], c);
    assert Forgetting(n, c)[..3] == t + [Read(n[2], c)];
  }

  lemma ReadsFive<C>(n: seq<string>, c: C)
    requires |n| == 6 && Distinct(n)
    ensures var five := Forgetting(n, c)[..5];
            && After(five) == [Dir(n[4], c), Dir(n[3], c), Dir(n[2], c), Dir(n[1], c), Dir(n[0], c)]
            && Noted(Ops(five)) == [n[0], n[1], n[2], n[3], n[4]]
  {
    hide After, Noted, Ops;
    ReadsThree(n, c);
    var t := Forgetting(n, c)[..3];
    ReadNew(t, [Dir(n[2], c), Dir(n[1], c), Dir(n[0], c), Empty, Empty], [n[0], n[1], n[2]], n[3], c);
    t := t + [Read(n[3], c)];
    ReadNew(t, [Dir(n[3], c), Dir(n[2], c), Dir(n[1], c), Dir(n[0], c), Empty], [n[0], n[1], n[2], n[3]], n[4], c);
    assert Forgetting(n, c)[..5] == t + [Read(n[4], c)];
  }

  lemma EmptyTrace<C>()
    ensures After<C>([]) == [Empty, Empty, Empty, Empty, Empty] && Noted(Ops<C>([])) == []
  {
  }

  lemma ChangesThird<C>(n: seq<string>, c: C)
    requires |n| == 6 && Distinct(n)
    ensures var s := [Dir(n[4], c), Dir(n[3], c), Dir(n[2], c), Dir(n[1], c), Dir(n[0], c)];
            EventAfter(s, Change(n[2])) == [Empty, Dir(n[4], c), Dir(n[3], c), Dir(n[1], c), Dir(n[0], c)]
    ensures Note([n[0], n[1], n[2], n[3], n[4]], Drop(n[2])) == [n[0], n[1], n[3], n[4]]
  {
    var s := [Dir(n[4], c), Dir(n[3], c), Dir(n[2], c), Dir(n[1], c), Dir(n[0], c)];
    assert n[2] != n[3] && n[2] != n[4];
    assert IndexOf(s, n[2]) == 2 by { assert s[2].Dir? && s[2].name == n[2]; }
    RemoveMiddle([n[0], n[1]], n[2], [n[3], n[4]]);
    assert [n[0], n[1]] + [n[2]] + [n[3], n[4]] == [n[0], n[1], n[2], n[3], n[4]];
  }

  /** The first name is forgotten although only five names are in use and a slot is free. */
  lemma ForgetsTooEarly<C>(n: seq<string>, c: C)
    requires |n| == 6 && Distinct(n)
    ensures var trace := Forgetting(n, c);
            && Noted(Ops(trace)) == [n[0], n[1], n[3], n[4], n[5]]
            && After(trace) == [Dir(n[5], c), Empty, Dir(n[4], c), Dir(n[3], c), Dir(n[1], c)]
  {
    hide After, Noted, Ops;
    var five := Forgetting(n, c)[..5];
    ReadsFive(n, c);
    ChangesThird(n, c);
    AfterSnoc(five, Change(n[2]));
    var six := five + [Change(n[2])];
    hide EventAfter, Note;
    ReadNew(six, [Empty, Dir(n[4], c), Dir(n[3], c), Dir(n[1], c), Dir(n[0], c)], [n[0], n[1], n[3], n[4]], n[5], c);
    assert Forgetting(n, c) == six + [Read(n[5], c)];
  }
}
