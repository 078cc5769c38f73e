/** The order in which downloads start, the slots they start in, and the rows of the transfers table. */
module TransferScheduling {
  import opened Wrappers
  import opened TransferSystem
  import opened TransferInvariants
  import opened TransferDownloads
  import opened TransferRows
  import opened TransferReachable
  import TransferRuns

  // ----- The searches of the manager -----

  lemma {:induction false} FirstReadyFrom(ready: seq<bool>, i: nat)
    requires i <= |ready| && forall j | 0 <= j < i :: !ready[j]
    ensures i < |ready| && ready[i] ==> FirstReady(ready) == Some(i)
    ensures i == |ready| ==> FirstReady(ready) == None
  {
    if 0 < i { FirstReadyFrom(ready[1..], i - 1); }
  }

  method FindAvailableTransferer(isReady: array<bool>) returns (transferer: int)
    ensures match FirstReady(isReady[..])
            case Some(i) => transferer == i
            case None => transferer == -1
  {
    var i := 0;
    while i < isReady.Length
      invariant 0 <= i <= isReady.Length
      invariant forall j | 0 <= j < i :: !isReady[j]
    {
      if isReady[i] {
        FirstReadyFrom(isReady[..], i);
        return i;
      }
      i := i + 1;
    }
    FirstReadyFrom(isReady[..], i);
    return -1;
  }

  lemma {:induction false} FirstInactiveAfter(queue: seq<Eid>, entries: seq<Entry>, i: nat)
    requires i <= |queue| && forall j | 0 <= j < i :: queue[j] < |entries| && entries[queue[j]].active
    ensures FirstInactive(queue, entries) == FirstInactive(queue[i..], entries)
  {
    if 0 < i {
      assert queue[1..][i - 1..] == queue[i..];
      FirstInactiveAfter(queue[1..], entries, i - 1);
    }
  }

  /** g_queue_peek_nth returns NULL past the end. */
  function PeekNth(queue: seq<Eid>, n: nat): Option<Eid> {
    if n < |queue| then Some(queue[n]) else None
  }

  method GetSubscriptionFromDownloadQueue(queue: seq<Eid>, entries: seq<Entry>) returns (subscription: Option<Eid>)
    requires forall i | 0 <= i < |queue| :: queue[i] < |entries|
    ensures subscription == FirstInactive(queue, entries)
  {
    var index := 0;
    subscription := PeekNth(queue, index);
    index := index + 1;
    while subscription.Some? && entries[subscription.value].active
      invariant 1 <= index <= |queue| + 1
      invariant subscription == PeekNth(queue, index - 1)
      invariant forall j | 0 <= j < index - 1 :: entries[queue[j]].active
      decreases |queue| + 1 - index
    {
      subscription := PeekNth(queue, index);
      index := index + 1;
    }
    FirstInactiveAfter(queue, entries, index - 1);
  }

  // ----- Queue shape and fairness -----

  /** An increasing sequence of which all numbers from a below b are the largest elements ends with them. */
  lemma {:induction false} EndsWithRange(queue: seq<Eid>, a: nat, b: nat)
    requires a <= b && Increasing(queue)
    requires forall e: nat | a <= e < b :: e in queue
    requires forall e <- queue :: e < b
    ensures b - a <= |queue|
    ensures forall i | |queue| - (b - a) <= i < |queue| :: queue[i] == b - |queue| + i
    ensures forall i | 0 <= i < |queue| - (b - a) :: queue[i] < a
    decreases b
  {
    if a < b {
      assert b - 1 in queue;
      var n := |queue| - 1;
      assert queue[n] == b - 1 by {
        var i :| 0 <= i < |queue| && queue[i] == b - 1;
        assert queue[n] in queue;
      }
      forall e: nat | a <= e < b - 1 ensures e in queue[..n] {
        assert e in queue;
        var i :| 0 <= i < |queue| && queue[i] == e;
        assert queue[..n][i] == e;
      }
      forall e <- queue[..n] ensures e < b - 1 {}
      EndsWithRange(queue[..n], a, b - 1);
    } else {
      forall i | 0 <= i < |queue| ensures queue[i] < a { assert queue[i] in queue; }
    }
  }

  /** The first k entries of the queue are being downloaded; the others are all the unstarted ones. */
  ghost predicate ShapedAt(s: State, k: nat) {
    && k <= |s.queue|
    && (forall i: nat | i < |s.queue| :: s.queue[i] < |s.entries|)
    && (forall i: nat | i < k :: s.entries[s.queue[i]].active && s.queue[i] < s.starts)
    && (forall i: nat | k <= i < |s.queue| :: !s.entries[s.queue[i]].active && s.queue[i] == s.starts + i - k)
    && |s.entries| == s.starts + |s.queue| - k
  }

  lemma QueueIs(s: State) returns (k: nat)
    requires RunnerInv(s) && FlagsInv(s) && QueueInv(s)
    ensures ShapedAt(s, k)
  {
    forall e: nat | s.starts <= e < |s.entries| ensures e in s.queue { assert Progress(s, e) == 0; }
    EndsWithRange(s.queue, s.starts, |s.entries|);
    k := |s.queue| - (|s.entries| - s.starts);
    forall i: nat | i < |s.queue|
      ensures s.queue[i] < |s.entries|
      ensures s.entries[s.queue[i]].active <==> s.queue[i] < s.starts
    {
      assert s.queue[i] in s.queue;
    }
    hide RunnerInv, FlagsInv, QueueInv, Progress;
  }

  /** The queue is a block of entries that are being downloaded, followed by the unstarted ones in order of creation. */
  lemma QueueShape(s: State)
    requires Reachable(s)
    ensures exists k :: ShapedAt(s, k)
  {
    ReachableInv(s);
    var k := QueueIs(s);
    hide *;
  }

  /** No file is in the queue twice, and entries are in the order of the first requests. */
  lemma QueueIsDistinct(s: State, i: nat, j: nat)
    requires Reachable(s) && i < j < |s.queue|
    ensures s.queue[i] < s.queue[j] < |s.entries| && s.entries[s.queue[i]].fileId != s.entries[s.queue[j]].fileId
  {
    ReachableInv(s);
    assert s.queue[i] in s.queue && s.queue[j] in s.queue;
    hide LocksInv, ShapeInv, RunnerInv, FlagsInv, SlotsInv, MembersInv, CachedInv, AckInv, ManagerInv;
    hide RowsInv, Reachable, Progress;
  }

  /** The unstarted entries ahead of e. */
  function InactiveBefore(queue: seq<Eid>, entries: seq<Entry>, e: Eid): nat {
    if queue == [] || queue[0] == e then 0
    else InactiveBefore(queue[1..], entries, e) + (if queue[0] < |entries| && !entries[queue[0]].active then 1 else 0)
  }

  lemma {:induction false} CountsAhead(s: State, k: nat, j: nat, n: nat)
    requires ShapedAt(s, k) && j <= n && k <= n < |s.queue|
    ensures InactiveBefore(s.queue[j..], s.entries, s.queue[n]) == n - (if j < k then k else j)
    decreases n - j
  {
    if j < n {
      assert s.queue[j..][1..] == s.queue[j + 1..];
      assert s.queue[j] < |s.entries|;
      CountsAhead(s, k, j + 1, n);
    }
  }

  lemma AheadOf(s: State, e: Eid)
    requires RunnerInv(s) && FlagsInv(s) && QueueInv(s) && e in s.queue && e < |s.entries| && !s.entries[e].active
    ensures s.starts <= e && InactiveBefore(s.queue, s.entries, e) == e - s.starts
  {
    var k := QueueIs(s);
    var n: nat :| n < |s.queue| && s.queue[n] == e;
    assert k <= n;
    CountsAhead(s, k, 0, n);
    assert s.queue[0..] == s.queue;
    hide RunnerInv, FlagsInv, QueueInv;
  }

  /** The downloads that run[i..j] starts. */
  ghost function Started(run: seq<State>, i: nat, j: nat): nat
    requires i <= j < |run|
  {
    if i == j then 0
    else Started(run, i, j - 1) + (if IsStart(run[j - 1], run[j]) then 1 else 0)
  }

  /** The step starts a download. */
  ghost predicate IsStart(s: State, s': State) {
    exists t, slot, e, d, th' :: CallStep(s, t, StartDownload(slot, e, d), th', s')
  }

  lemma StartsOf(s: State, t: Tid, c: Call, th': Thread, s': State)
    requires CallStep(s, t, c, th', s')
    ensures s'.starts == if c.StartDownload? then s.starts + 1 else s.starts
    ensures c.StartDownload? ==> IsStart(s, s')
  {
    if c.StartDownload? {
      assert CallStep(s, t, StartDownload(c.i, c.e, c.d), th', s');
    }
    hide Does, Allowed, ThreadsAfter, EntriesAfter;
  }

  lemma StartsGrow(s: State, s': State)
    requires Next(s, s')
    ensures s'.starts == s.starts + (if IsStart(s, s') then 1 else 0)
  {
    hide CallStep;
    if IsStart(s, s') {
      var t, slot, e, d, th' :| CallStep(s, t, StartDownload(slot, e, d), th', s');
      StartsOf(s, t, StartDownload(slot, e, d), th', s');
    } else if t, c, th' :| CallStep(s, t, c, th', s') {
      StartsOf(s, t, c, th', s');
    }
  }

  lemma {:induction false} StartsCount(run: seq<State>, i: nat, j: nat)
    requires IsRun(run) && i <= j < |run|
    ensures run[j].starts == run[i].starts + Started(run, i, j)
  {
    if i < j {
      StartsCount(run, i, j - 1);
      assert StepAt(run, j);
      StartsGrow(run[j - 1], run[j]);
    }
    hide Next, IsStart, Init;
  }

  /** An unstarted entry with k unstarted ones ahead of it is started after exactly k other starts. */
  lemma Fairness(run: seq<State>, i: nat, j: nat, e: Eid, t: Tid, slot: nat, d: Tid, th': Thread, s': State)
    requires IsRun(run) && i <= j < |run|
    requires e in run[i].queue && e < |run[i].entries| && !run[i].entries[e].active
    requires CallStep(run[j], t, StartDownload(slot, e, d), th', s')
    ensures Started(run, i, j) == InactiveBefore(run[i].queue, run[i].entries, e)
  {
    RunKeeps(run, i);
    RunKeeps(run, j);
    StartsCount(run, i, j);
    var a, b := run[i], run[j];
    StartsNext(b, t, slot, e, d, th', s');
    AheadOf(a, e);
    hide IsRun, LocksInv, ShapeInv, RunnerInv, FlagsInv, QueueInv, SlotsInv, MembersInv, CachedInv, AckInv;
    hide ManagerInv, RowsInv, CallStep, Started;
  }

  lemma StartsNext(s: State, t: Tid, slot: nat, e: Eid, d: Tid, th': Thread, s': State)
    requires RunnerInv(s) && FlagsInv(s) && QueueInv(s) && CallStep(s, t, StartDownload(slot, e, d), th', s')
    ensures e == s.starts
  {
    NextDownload(s);
    hide RunnerInv, FlagsInv, QueueInv, Does, After;
  }

  // ----- Slots -----

  /** The thread has a slot and can still give it back. */
  predicate IsRunning(th: Thread) {
    (exists i: nat | i < MAX_TRANSFERS :: Occupies(th, i)) && !IsLost(th)
  }

  /** The slots with this flag. */
  function Slots(ready: seq<bool>, flag: bool): set<nat> {
    set i: nat | i < |ready| && ready[i] == flag
  }

  function ReadySlots(s: State): set<nat> {
    Slots(s.ready, true)
  }

  function BusySlots(s: State): set<nat> {
    Slots(s.ready, false)
  }

  function RunningThreads(s: State): set<Tid> {
    set t | t in s.threads && IsRunning(s.threads[t])
  }

  function LostThreads(s: State): set<Tid> {
    set t | t in s.threads && IsLost(s.threads[t])
  }

  lemma {:induction false} SameSize(slots: set<nat>, user: seq<Tid>)
    requires forall i <- slots :: i < |user|
    requires forall i <- slots, j <- slots | user[i] == user[j] :: i == j
    ensures |set i | i in slots :: user[i]| == |slots|
  {
    if slots == {} {
    } else {
      var k :| k in slots;
      SameSize(slots - {k}, user);
      assert (set i | i in slots :: user[i]) == (set i | i in slots - {k} :: user[i]) + {user[k]};
    }
  }

  lemma OneSlotEach(th: Thread, i: nat, j: nat)
    requires Occupies(th, i) && Occupies(th, j)
    ensures i == j
  {
  }

  lemma LostHasSlot(th: Thread)
    requires IsLost(th)
    ensures Occupies(th, if th.Downloader? then th.slot else th.uslot)
  {
  }

  /** The threads with a slot are the users of the slots that are not ready. */
  lemma BusyIsOccupied(s: State)
    requires SlotsInv(s) && ShapeInv(s)
    ensures RunningThreads(s) + LostThreads(s) == set i | i in BusySlots(s) :: s.user[i]
    ensures |BusySlots(s)| == |set i | i in BusySlots(s) :: s.user[i]|
  {
    forall i <- BusySlots(s), j <- BusySlots(s) | s.user[i] == s.user[j] ensures i == j {
      assert OccupiedBy(s, i, s.user[i]) && OccupiedBy(s, j, s.user[j]);
      OneSlotEach(s.threads[s.user[i]], i, j);
    }
    SameSize(BusySlots(s), s.user);
    forall t | t in RunningThreads(s) + LostThreads(s) ensures t in set i | i in BusySlots(s) :: s.user[i] {
      var i := SlotOf(s, t);
      assert OccupiedBy(s, i, t);
      assert i in BusySlots(s) && s.user[i] == t;
    }
    forall t | t in set i | i in BusySlots(s) :: s.user[i] ensures t in RunningThreads(s) + LostThreads(s) {
      var i :| i in BusySlots(s) && s.user[i] == t;
      assert OccupiedBy(s, i, t);
    }
    hide Occupies, IsLost, ShapeInv;
  }

  lemma SlotOf(s: State, t: Tid) returns (i: nat)
    requires ShapeInv(s) && t in RunningThreads(s) + LostThreads(s)
    ensures i < MAX_TRANSFERS && OccupiedBy(s, i, t)
  {
    assert Sane(s, s.threads[t]);
    if IsLost(s.threads[t]) {
      LostHasSlot(s.threads[t]);
      i := if s.threads[t].Downloader? then s.threads[t].slot else s.threads[t].uslot;
    } else {
      i :| i < MAX_TRANSFERS && Occupies(s.threads[t], i);
    }
    hide ShapeInv, Occupies;
  }

  /**
   Ready slots, running transfers and transfers that ended without success
   always add up to the three slots, and no two threads share one.
   */
  lemma SlotConservation(s: State, i: nat, t: Tid, u: Tid)
    requires Reachable(s)
    ensures |ReadySlots(s)| + |RunningThreads(s)| + |LostThreads(s)| == MAX_TRANSFERS
    ensures i < MAX_TRANSFERS && OccupiedBy(s, i, t) && OccupiedBy(s, i, u) ==> t == u
  {
    ReachableInv(s);
    assert SlotsInv(s) && ShapeInv(s);
    hide LocksInv, ShapeInv, RunnerInv, FlagsInv, QueueInv, SlotsInv, MembersInv, CachedInv, AckInv;
    hide ManagerInv, RowsInv, Reachable;
    BusyIsOccupied(s);
    assert RunningThreads(s) !! LostThreads(s);
    SlotsAddUp(s.ready);
    SlotUsers(s, i, t, u);
    hide IsRunning, IsLost, Occupies, OccupiedBy;
  }

  lemma SlotUsers(s: State, i: nat, t: Tid, u: Tid)
    requires SlotsInv(s)
    ensures |s.ready| == MAX_TRANSFERS
    ensures i < MAX_TRANSFERS && OccupiedBy(s, i, t) && OccupiedBy(s, i, u) ==> t == u
  {
    hide OccupiedBy;
  }

  lemma OneMoreSlot(ready: seq<bool>, flag: bool)
    requires ready != []
    ensures var n := |ready| - 1;
            Slots(ready, flag) == if ready[n] == flag then Slots(ready[..n], flag) + {n} else Slots(ready[..n], flag)
  {
    var n := |ready| - 1;
    forall i: nat ensures i in Slots(ready, flag) <==> i in Slots(ready[..n], flag) || (i == n && ready[n] == flag) {}
  }

  lemma {:induction false} SlotsAddUp(ready: seq<bool>)
    ensures |Slots(ready, true)| + |Slots(ready, false)| == |ready|
  {
    if ready == [] {
      assert Slots(ready, true) == {} && Slots(ready, false) == {};
    } else {
      SlotsAddUp(ready[..|ready| - 1]);
      OneMoreSlot(ready, true);
      OneMoreSlot(ready, false);
      assert |ready| - 1 !in Slots(ready[..|ready| - 1], true) && |ready| - 1 !in Slots(ready[..|ready| - 1], false);
    }
  }

  // ----- Rows -----

  /** While only registered users ask and only for downloads, the table and the queue list the same files. */
  lemma RowsAreQueued(s: State, f: FileId)
    requires Reachable(s) && DownloadsOnly(s) && MainLock !in s.locks
    ensures f in s.transfers <==> exists e :: e in s.queue && e < |s.entries| && s.entries[e].fileId == f
    ensures f in s.transfers ==> s.transfers[f].Download?
  {
    ReachableInv(s);
    assert !SomeTransit(s, f) by {
      if t :| InTransit(s, t, f) {
        TransitHolds(s, t, f);
        UnheldBy(s, t);
      }
    }
    QueuedIs(s, f);
    hide LocksInv, ShapeInv, RunnerInv, FlagsInv, QueueInv, SlotsInv, MembersInv, CachedInv, AckInv;
    hide ManagerInv, Reachable, InTransit, DownloadsOnly, IsQueued, HeldBy;
  }

  lemma UnheldBy(s: State, t: Tid)
    requires LocksInv(s) && MainLock !in s.locks
    ensures !HeldBy(s, t, MainLock)
  {
    hide HeldBy;
  }

  lemma QueuedIs(s: State, f: FileId)
    requires QueueInv(s)
    ensures IsQueued(s, f) <==> exists e :: e in s.queue && e < |s.entries| && s.entries[e].fileId == f
  {
    hide Progress;
    if IsQueued(s, f) {
      var e: nat :| e < |s.entries| && Progress(s, e) <= 10 && s.entries[e].fileId == f;
      assert e in s.queue;
    }
  }

  // ----- Unknown files -----

  lemma UnknownFileIsLookedFor() returns (run: seq<State>, s: State)
    ensures TransferRuns.Ends(run, s) && s.locks == map[] && s.files == map[]
    ensures 1 in s.threads && s.threads[1] == Client(CFind, 0, true)
  {
    var none := State(map[], map[MANAGER := Manager(MLock)], [], [], [true, true, true], map[], map[], 0, [0, 0, 0]);
    s := none.(threads := none.threads[1 := Client(CFind, 0, true)]);
    assert ArrivalStep(none, 1, Client(CFind, 0, true), s);
    run := [none, s];
    assert StepAt(run, 1);
    hide CallStep;
  }

  /**
   A file without a row has no cached flag to read: there is a run in which such
   a request is answered OK.  OkMeansCached therefore speaks of known files.
   */
  lemma UnknownFileMayBeOk() returns (run: seq<State>)
    ensures IsRun(run)
    ensures var s := run[|run| - 1]; s.files == map[] && 1 in s.threads && s.threads[1] == Client(CDone(Ok), 0, true)
  {
    hide ManagerDoes, DownloaderDoes, UploaderDoes, PutterDoes, StepAt, Init;
    var s: State;
    run, s := UnknownFileIsLookedFor();
    run, s := TransferRuns.Takes(run, s, 1, DbLock, Client(CFindDb, 0, true));
    run, s := TransferRuns.Queries(run, s, 1, FindFile(0), Client(CCheck, 0, true));
    run, s := TransferRuns.Takes(run, s, 1, DbLock, Client(CCheckDb, 0, true));
    run, s := TransferRuns.Queries(run, s, 1, IsCached(0, true), Client(CDone(Ok), 0, true));
  }
}
