/** Every reachable state of the transfer queue satisfies the invariants. */
module TransferReachable {
  import opened TransferSystem
  import opened TransferInvariants
  import opened TransferMutexes
  import opened TransferDownloads
  import opened TransferSubscribers
  import opened TransferManager
  import opened TransferRows

  lemma CallKeeps(s: State, t: Tid, c: Call, th': Thread, s': State)
    requires Inv(s) && CallStep(s, t, c, th', s')
    ensures Inv(s')
  {
    LocksKept(s, t, c, th', s');
    ShapeKept(s, t, c, th', s');
    RunnerKept(s, t, c, th', s');
    FlagsKept(s, t, c, th', s');
    QueueKept(s, t, c, th', s');
    SlotsKept(s, t, c, th', s');
    MembersKept(s, t, c, th', s');
    CachedKept(s, t, c, th', s');
    AckKept(s, t, c, th', s');
    ManagerKept(s, t, c, th', s');
    RowsKept(s, t, c, th', s');
    hide *;
  }

  // ----- New requests and new files -----

  /** A thread that has just arrived holds nothing and is counted nowhere. */
  lemma Newcomer(th: Thread, e: Eid, f: FileId, i: nat, entries: seq<Entry>, l: Lock)
    requires (th.Client? && th.cpc.CFind?) || (th.Putter? && th.ppc.PLock?)
    ensures !Holds(th, l) && !Registered(th, e) && !BeforeWake(th, e) && !AfterWake(th, e) && !Acknowledging(th, e)
    ensures !YetToSignal(th, e) && !Enqueueing(th) && !Occupies(th, i) && !AboutToSignal(th) && !Carries(entries, th, f)
  {
  }

  lemma ArrivalIsNew(s: State, t: Tid, th: Thread, s': State, u: Tid, e: Eid, f: FileId, i: nat, l: Lock)
    requires ArrivalStep(s, t, th, s')
    ensures HeldBy(s', u, l) <==> HeldBy(s, u, l)
    ensures IsRegistered(s', u, e) <==> IsRegistered(s, u, e)
    ensures IsBeforeWake(s', u, e) <==> IsBeforeWake(s, u, e)
    ensures IsAfterWake(s', u, e) <==> IsAfterWake(s, u, e)
    ensures IsAcknowledging(s', u, e) <==> IsAcknowledging(s, u, e)
    ensures IsYetToSignal(s', u, e) <==> IsYetToSignal(s, u, e)
    ensures OccupiedBy(s', i, u) <==> OccupiedBy(s, i, u)
    ensures InTransit(s', u, f) <==> InTransit(s, u, f)
  {
    Newcomer(th, e, f, i, s.entries, l);
    hide Holds, Registered, BeforeWake, AfterWake, Acknowledging, YetToSignal, Occupies, Carries;
  }

  /** No download, and no other thread, moves when a thread arrives. */
  lemma ArrivalProgress(s: State, t: Tid, th: Thread, s': State)
    requires RunnerInv(s) && ArrivalStep(s, t, th, s')
    ensures RunnerInv(s')
    ensures forall e: nat :: Progress(s', e) == Progress(s, e)
  {
  }

  lemma ArrivalLocks(s: State, t: Tid, th: Thread, s': State)
    requires LocksInv(s) && ArrivalStep(s, t, th, s')
    ensures LocksInv(s')
  {
    forall u, l ensures HeldBy(s', u, l) <==> HeldBy(s, u, l) {
      ArrivalIsNew(s, t, th, s', u, 0, 0, 0, l);
    }
    hide HeldBy;
  }

  lemma ArrivalSlots(s: State, t: Tid, th: Thread, s': State)
    requires SlotsInv(s) && ArrivalStep(s, t, th, s')
    ensures SlotsInv(s')
  {
    forall u, i: nat ensures OccupiedBy(s', i, u) <==> OccupiedBy(s, i, u) {
      ArrivalIsNew(s, t, th, s', u, 0, 0, i, MainLock);
    }
    hide OccupiedBy;
  }

  lemma ArrivalMembers(s: State, t: Tid, th: Thread, s': State)
    requires MembersInv(s) && ArrivalStep(s, t, th, s')
    ensures MembersInv(s')
  {
    forall u, e: nat
      ensures IsRegistered(s', u, e) <==> IsRegistered(s, u, e)
      ensures IsBeforeWake(s', u, e) <==> IsBeforeWake(s, u, e)
      ensures IsAfterWake(s', u, e) <==> IsAfterWake(s, u, e)
    {
      ArrivalIsNew(s, t, th, s', u, e, 0, 0, MainLock);
    }
    hide IsRegistered, IsBeforeWake, IsAfterWake;
  }

  lemma ArrivalAck(s: State, t: Tid, th: Thread, s': State)
    requires RunnerInv(s) && AckInv(s) && ArrivalStep(s, t, th, s')
    ensures AckInv(s')
  {
    ArrivalProgress(s, t, th, s');
    forall u, e: nat
      ensures IsYetToSignal(s', u, e) <==> IsYetToSignal(s, u, e)
      ensures IsAcknowledging(s', u, e) <==> IsAcknowledging(s, u, e)
    {
      ArrivalIsNew(s, t, th, s', u, e, 0, 0, MainLock);
    }
    hide RunnerInv, IsYetToSignal, IsAcknowledging, Progress;
  }

  lemma ArrivalShape(s: State, t: Tid, th: Thread, s': State)
    requires ShapeInv(s) && ArrivalStep(s, t, th, s')
    ensures ShapeInv(s')
  {
    forall u <- s.threads ensures Sane(s', s.threads[u]) { SaneStays(s, s', s.threads[u]); }
    assert Sane(s', th);
    hide Sane;
  }

  lemma ArrivalQueue(s: State, t: Tid, th: Thread, s': State)
    requires RunnerInv(s) && QueueInv(s) && FlagsInv(s) && CachedInv(s) && ArrivalStep(s, t, th, s')
    ensures QueueInv(s') && FlagsInv(s') && CachedInv(s')
  {
    ArrivalProgress(s, t, th, s');
    Newcomer(th, 0, 0, 0, s.entries, MainLock);
    hide RunnerInv, Progress, Enqueueing;
  }

  lemma ArrivalManager(s: State, t: Tid, th: Thread, s': State)
    requires LocksInv(s) && ManagerInv(s) && ArrivalStep(s, t, th, s')
    ensures ManagerInv(s')
  {
    assert HasWork(s') <==> HasWork(s);
    KnowsStays(s, s', s.threads[MANAGER].mpc);
    hide LocksInv, HasWork, Knows, AboutToSignal;
  }

  lemma OnlyDownloadsBefore(s: State, t: Tid, th: Thread, s': State)
    requires ArrivalStep(s, t, th, s') && DownloadsOnly(s')
    ensures DownloadsOnly(s)
  {
    assert forall u <- s.threads :: u in s'.threads && s'.threads[u] == s.threads[u];
  }

  lemma ArrivalRows(s: State, t: Tid, th: Thread, s': State)
    requires RunnerInv(s) && RowsInv(s) && ArrivalStep(s, t, th, s')
    ensures RowsInv(s')
  {
    ArrivalProgress(s, t, th, s');
    forall f ensures IsQueued(s', f) <==> IsQueued(s, f) {}
    forall u, f ensures InTransit(s', u, f) <==> InTransit(s, u, f) {
      ArrivalIsNew(s, t, th, s', u, 0, f, 0, MainLock);
    }
    forall f ensures SomeTransit(s', f) <==> SomeTransit(s, f) {}
    if DownloadsOnly(s') { OnlyDownloadsBefore(s, t, th, s'); }
    hide RunnerInv, IsQueued, InTransit, SomeTransit, DownloadsOnly;
  }

  lemma ArrivalKeeps(s: State, t: Tid, th: Thread, s': State)
    requires Inv(s) && ArrivalStep(s, t, th, s')
    ensures Inv(s')
  {
    ArrivalLocks(s, t, th, s');
    ArrivalShape(s, t, th, s');
    ArrivalProgress(s, t, th, s');
    ArrivalQueue(s, t, th, s');
    ArrivalSlots(s, t, th, s');
    ArrivalMembers(s, t, th, s');
    ArrivalAck(s, t, th, s');
    ArrivalManager(s, t, th, s');
    ArrivalRows(s, t, th, s');
    hide *;
  }

  /** A new file changes only the files table. */
  lemma NewFileProgress(s: State, f: FileId, s': State)
    requires NewFileStep(s, f, s')
    ensures forall e: nat :: Progress(s', e) == Progress(s, e)
    ensures forall u, e: nat :: IsYetToSignal(s', u, e) <==> IsYetToSignal(s, u, e)
    ensures forall u, e: nat :: IsAcknowledging(s', u, e) <==> IsAcknowledging(s, u, e)
    ensures forall u, l :: HeldBy(s', u, l) <==> HeldBy(s, u, l)
    ensures forall u, i: nat :: OccupiedBy(s', i, u) <==> OccupiedBy(s, i, u)
    ensures forall u, g :: InTransit(s', u, g) <==> InTransit(s, u, g)
  {
  }

  lemma NewFileKeepsDownloads(s: State, f: FileId, s': State)
    requires Inv(s) && NewFileStep(s, f, s')
    ensures LocksInv(s') && RunnerInv(s') && FlagsInv(s') && QueueInv(s') && SlotsInv(s')
  {
    NewFileProgress(s, f, s');
    hide Progress, HeldBy, OccupiedBy, ShapeInv, MembersInv, CachedInv, AckInv, ManagerInv, RowsInv;
  }

  lemma NewFileKeepsClients(s: State, f: FileId, s': State)
    requires Inv(s) && NewFileStep(s, f, s')
    ensures ShapeInv(s') && MembersInv(s')
  {
    forall u <- s.threads ensures Sane(s', s.threads[u]) { SaneStays(s, s', s.threads[u]); }
    assert forall u, e: nat :: IsRegistered(s', u, e) <==> IsRegistered(s, u, e);
    assert forall u, e: nat :: IsBeforeWake(s', u, e) <==> IsBeforeWake(s, u, e);
    assert forall u, e: nat :: IsAfterWake(s', u, e) <==> IsAfterWake(s, u, e);
    hide Sane, IsRegistered, IsBeforeWake, IsAfterWake, LocksInv, RunnerInv, QueueInv, SlotsInv, CachedInv;
    hide AckInv, ManagerInv, RowsInv;
  }

  lemma NewFileKeepsRest(s: State, f: FileId, s': State)
    requires Inv(s) && NewFileStep(s, f, s')
    ensures CachedInv(s') && AckInv(s')
  {
    NewFileProgress(s, f, s');
    assert CachedInv(s) && AckInv(s);
    hide Progress, IsYetToSignal, IsAcknowledging, Inv;
    NewFileKeepsCached(s, f, s');
    NewFileKeepsAck(s, f, s');
    hide *;
  }

  lemma NewFileKeepsCached(s: State, f: FileId, s': State)
    requires CachedInv(s) && NewFileStep(s, f, s')
    ensures CachedInv(s')
  {
    NewFileProgress(s, f, s');
    hide Progress;
  }

  lemma NewFileKeepsAck(s: State, f: FileId, s': State)
    requires AckInv(s) && NewFileStep(s, f, s')
    ensures AckInv(s')
  {
    NewFileProgress(s, f, s');
    hide Progress, IsYetToSignal, IsAcknowledging;
  }

  lemma NewFileKeepsManager(s: State, f: FileId, s': State)
    requires ManagerInv(s) && NewFileStep(s, f, s')
    ensures ManagerInv(s')
  {
    assert HasWork(s') <==> HasWork(s);
    KnowsStays(s, s', s.threads[MANAGER].mpc);
    hide HasWork, Knows;
  }

  lemma NewFileKeepsRows(s: State, f: FileId, s': State)
    requires RowsInv(s) && NewFileStep(s, f, s')
    ensures RowsInv(s')
  {
    NewFileProgress(s, f, s');
    forall g ensures IsQueued(s', g) <==> IsQueued(s, g) {}
    forall g ensures SomeTransit(s', g) <==> SomeTransit(s, g) {}
    assert DownloadsOnly(s') ==> DownloadsOnly(s);
    hide IsQueued, InTransit, SomeTransit, DownloadsOnly;
  }

  // ----- Runs -----

  lemma InitInv(s: State)
    requires Init(s)
    ensures Inv(s)
  {
    assert forall e: nat :: Progress(s, e) == 0;
    assert forall u, f :: !InTransit(s, u, f);
    assert forall f :: !IsQueued(s, f) && !SomeTransit(s, f);
    assert forall u, l :: !HeldBy(s, u, l);
    assert forall u, i: nat :: !OccupiedBy(s, i, u);
  }

  lemma StepKeeps(s: State, s': State)
    requires Inv(s) && Next(s, s')
    ensures Inv(s')
  {
    hide Inv;
    if t, c, th' :| CallStep(s, t, c, th', s') {
      CallKeeps(s, t, c, th', s');
    } else if t, th :| ArrivalStep(s, t, th, s') {
      ArrivalKeeps(s, t, th, s');
    } else {
      var f :| NewFileStep(s, f, s');
      NewFileKeeps(s, f, s');
    }
  }

  lemma NewFileKeeps(s: State, f: FileId, s': State)
    requires Inv(s) && NewFileStep(s, f, s')
    ensures Inv(s')
  {
    NewFileKeepsDownloads(s, f, s');
    NewFileKeepsClients(s, f, s');
    NewFileKeepsRest(s, f, s');
    NewFileKeepsManager(s, f, s');
    NewFileKeepsRows(s, f, s');
    hide LocksInv, ShapeInv, RunnerInv, FlagsInv, QueueInv, SlotsInv, MembersInv, CachedInv, AckInv;
    hide ManagerInv, RowsInv, NewFileStep;
  }

  ghost predicate Reachable(s: State) {
    exists run :: IsRun(run) && run[|run| - 1] == s
  }

  lemma {:induction false} RunKeeps(run: seq<State>, n: nat)
    requires IsRun(run) && n < |run|
    ensures Inv(run[n])
  {
    if n == 0 {
      hide Inv, Next;
      InitInv(run[0]);
    } else {
      hide *;
      RunKeeps(run, n - 1);
      StepOf(run, n);
      StepKeeps(run[n - 1], run[n]);
    }
  }

  lemma StepOf(run: seq<State>, n: nat)
    requires IsRun(run) && 0 < n < |run|
    ensures Next(run[n - 1], run[n])
  {
    hide Next, Init;
    assert StepAt(run, n);
  }

  /** The invariants hold in every state of every run. */
  lemma ReachableInv(s: State)
    requires Reachable(s)
    ensures Inv(s)
  {
    hide Inv, Init, StepAt;
    var run :| IsRun(run) && run[|run| - 1] == s;
    RunKeeps(run, |run| - 1);
  }
}
