/** What the invariants say about every run: the main results about the transfer queue. */
module TransferTheorems {
  import opened Wrappers
  import opened TransferSystem
  import opened TransferInvariants
  import opened TransferMutexes
  import opened TransferDownloads
  import opened TransferReachable

  // ----- Completion wake-ups -----

  /**
   No completion wake-up is lost.  Until the broadcast, a thread that is counted
   in subscribers sleeps on waitCond or has one of the two mutexes that the
   broadcast needs; after the broadcast, nobody sleeps on waitCond.
   */
  lemma NoLostWakeUp(s: State, t: Tid, e: Eid)
    requires Reachable(s) && e < |s.entries| && t in s.threads && s.threads[t].Client?
    ensures Registered(s.threads[t], e) && !s.entries[e].broadcast ==>
              || s.threads[t].cpc == CAsleep(e)
              || (MainLock in s.locks && s.locks[MainLock] == t)
              || (WaitLock(e) in s.locks && s.locks[WaitLock(e)] == t)
    ensures s.entries[e].broadcast ==> s.threads[t].cpc != CAsleep(e)
  {
    hide ShapeInv, RunnerInv, FlagsInv, QueueInv, SlotsInv, CachedInv, AckInv, ManagerInv, RowsInv, Reachable;
    hide LocksInv, MembersInv;
    ReachableInv(s);
    WakesInTime(s, t, e);
  }

  lemma WakesInTime(s: State, t: Tid, e: Eid)
    requires LocksInv(s) && MembersInv(s) && e < |s.entries| && t in s.threads && s.threads[t].Client?
    ensures Registered(s.threads[t], e) && !s.entries[e].broadcast ==>
              || s.threads[t].cpc == CAsleep(e)
              || (MainLock in s.locks && s.locks[MainLock] == t)
              || (WaitLock(e) in s.locks && s.locks[WaitLock(e)] == t)
    ensures s.entries[e].broadcast ==> s.threads[t].cpc != CAsleep(e)
  {
    assert IsBeforeWake(s, t, e) ==> !s.entries[e].broadcast;
    assert Registered(s.threads[t], e) && !BeforeWake(s.threads[t], e) ==> IsAfterWake(s, t, e);
    assert HeldBy(s, t, MainLock) ==> s.locks[MainLock] == t;
    assert HeldBy(s, t, WaitLock(e)) ==> s.locks[WaitLock(e)] == t;
  }

  /** The broadcast wakes every subscriber, and no thread can subscribe once the entry has left the queue. */
  lemma BroadcastReleasesAll(s: State, t: Tid, e: Eid, th': Thread, s': State)
    requires Reachable(s) && CallStep(s, t, Broadcast(e), th', s') && e < |s.entries|
    ensures e !in s.queue
    ensures forall u :: u in s.entries[e].members ==>
              u in s'.threads && s'.threads[u].Client? && s'.threads[u].cpc == CWoken(e)
  {
    hide LocksInv, ShapeInv, SlotsInv, MembersInv, CachedInv, AckInv, ManagerInv, RowsInv, Reachable, Does;
    ReachableInv(s);
    CallOfDownload(s, t, Broadcast(e), th', e);
    DownloaderStages(s.threads[t], Broadcast(e), th');
    assert HeldBy(s, t, MainLock) && HeldBy(s, t, WaitLock(e));
    forall u | u in s.entries[e].members
      ensures u in s'.threads && s'.threads[u].Client? && s'.threads[u].cpc == CWoken(e)
    {
      MemberSleeps(s, t, u, e);
      ThreadAfter(s, t, Broadcast(e), th', s', u);
    }
  }

  lemma MemberSleeps(s: State, t: Tid, u: Tid, e: Eid)
    requires LocksInv(s) && MembersInv(s) && e < |s.entries| && u in s.entries[e].members && !s.entries[e].broadcast
    requires HeldBy(s, t, MainLock) && HeldBy(s, t, WaitLock(e)) && t in s.threads && s.threads[t].Downloader?
    ensures u in s.threads && s.threads[u].Client? && s.threads[u].cpc == CAsleep(e)
  {
    assert IsRegistered(s, u, e);
    assert !IsAfterWake(s, u, e);
    assert HeldBy(s, u, MainLock) ==> u == t;
    assert HeldBy(s, u, WaitLock(e)) ==> u == t;
  }

  /** Nobody subscribes to an entry that has left the queue, and a broadcast entry has. */
  lemma NobodyJoinsLate(s: State, t: Tid, f: FileId, e: Eid, th': Thread, s': State)
    requires Reachable(s) && e < |s.entries|
    ensures s.entries[e].broadcast ==> e !in s.queue
    ensures CallStep(s, t, Search(f, Some(e)), th', s') ==> e in s.queue && !s.entries[e].broadcast && s.entries[e].fileId == f
  {
    ReachableInv(s);
    Found(s.queue, s.entries, f);
    hide LocksInv, ShapeInv, RunnerInv, SlotsInv, MembersInv, CachedInv, AckInv, ManagerInv, RowsInv;
    hide Reachable, Progress;
    hide Does, After, FindInQueue;
  }

  // ----- Cached files -----

  /** ReceiveDownload returns, and a known file is answered OK, only after the file is marked as cached. */
  lemma OkMeansCached(s: State, t: Tid)
    requires Reachable(s) && t in s.threads && s.threads[t].Client? && s.threads[t].file != 0
    requires s.threads[t].cpc == CDone(Ok) || s.threads[t].cpc.CLeave? || s.threads[t].cpc.CLeaveMain?
    ensures s.threads[t].file in s.files && s.files[s.threads[t].file]
  {
    ReachableInv(s);
    assert Sane(s, s.threads[t]);
    if !s.threads[t].cpc.CDone? {
      assert IsAfterWake(s, t, s.threads[t].cpc.e);
      assert Progress(s, s.threads[t].cpc.e) >= 19;
    }
    hide LocksInv, RunnerInv, QueueInv, SlotsInv, AckInv, ManagerInv, RowsInv, Reachable, Progress;
  }

  // ----- Subscribers -----

  /** subscribers is the number of threads that have registered and not yet left. */
  lemma SubscribersAreCounted(s: State, e: Eid)
    requires Reachable(s) && e < |s.entries|
    ensures s.entries[e].subscribers == |set t | t in s.threads && Registered(s.threads[t], e)|
  {
    ReachableInv(s);
    forall t ensures t in s.entries[e].members <==> t in s.threads && Registered(s.threads[t], e) {
      assert IsRegistered(s, t, e) <==> t in s.threads && Registered(s.threads[t], e);
    }
    assert s.entries[e].members == set t | t in s.threads && Registered(s.threads[t], e);
    hide LocksInv, ShapeInv, RunnerInv, FlagsInv, QueueInv, SlotsInv, CachedInv, AckInv, ManagerInv, RowsInv;
    hide Reachable, Registered;
  }

  /** The stage of a downloader is the progress of its subscription. */
  lemma ProgressOf(s: State, d: Tid)
    requires RunnerInv(s) && d in s.threads && s.threads[d].Downloader?
    ensures s.threads[d].entry < s.starts <= |s.entries|
    ensures s.entries[s.threads[d].entry].runner == d && Progress(s, s.threads[d].entry) == Stage(s.threads[d].dpc)
  {
    hide Stage;
  }

  /** A downloader that sleeps with nobody left to wait for has a last unsubscriber that has yet to signal. */
  lemma AcknowledgementComes(s: State, d: Tid)
    requires Reachable(s) && d in s.threads && s.threads[d].Downloader? && s.threads[d].dpc.DAsleep?
    ensures s.threads[d].entry < |s.entries|
    ensures s.entries[s.threads[d].entry].subscribers == 0 ==>
              exists t :: t in s.threads && YetToSignal(s.threads[t], s.threads[d].entry)
  {
    hide *;
    ReachableInv(s);
    Parts(s);
    ProgressOf(s, d);
    SleepingStage(s.threads[d].dpc);
    if s.entries[s.threads[d].entry].subscribers == 0 { LastYetToSignal(s, s.threads[d].entry); }
  }

  lemma Parts(s: State)
    requires Inv(s)
    ensures RunnerInv(s) && MembersInv(s) && AckedInv(s)
  {
    hide LocksInv, ShapeInv, RunnerInv, FlagsInv, QueueInv, SlotsInv, MembersInv, CachedInv, ManagerInv, RowsInv;
    hide AckedInv;
  }

  lemma SleepingStage(pc: DownloaderPc)
    ensures pc.DAsleep? ==> Stage(pc) == 24
  {
  }

  lemma LastYetToSignal(s: State, e: Eid)
    requires MembersInv(s) && AckedInv(s) && e < |s.entries| && Progress(s, e) == 24 && s.entries[e].subscribers == 0
    ensures exists t :: t in s.threads && YetToSignal(s.threads[t], e)
  {
    assert s.entries[e].members == {};
    assert IsYetToSignal(s, s.entries[e].last, e);
    hide Progress, YetToSignal;
  }

  /**
   A subscription is freed with no subscribers.  Then only the last
   unsubscriber can still be on its way out of acknowledgeMutex, and if the
   downloader slept until that thread signalled it, nobody is.
   */
  lemma FreedSubscription(s: State, e: Eid)
    requires Reachable(s) && e < |s.entries| && s.entries[e].freed
    ensures s.entries[e].subscribers == 0 && e !in s.queue
    ensures forall t <- s.threads | s.threads[t].Client? && ClientEntry(s.threads[t].cpc) == Some(e) ::
              s.threads[t].cpc == CLeaveMain(e) || (t == s.entries[e].last && Acknowledging(s.threads[t], e))
    ensures s.entries[e].acked ==> forall t <- s.threads :: !Acknowledging(s.threads[t], e)
  {
    ReachableInv(s);
    assert Progress(s, e) >= 28;
    assert s.entries[e].members == {};
    forall t <- s.threads | s.threads[t].Client? && ClientEntry(s.threads[t].cpc) == Some(e)
      ensures s.threads[t].cpc == CLeaveMain(e) || (t == s.entries[e].last && Acknowledging(s.threads[t], e))
    {
      assert !IsRegistered(s, t, e);
      if Acknowledging(s.threads[t], e) { assert IsAcknowledging(s, t, e); }
    }
    forall t <- s.threads | s.entries[e].acked ensures !Acknowledging(s.threads[t], e) {
      assert !IsAcknowledging(s, t, e);
    }
    hide LocksInv, ShapeInv, RunnerInv, SlotsInv, CachedInv, ManagerInv, RowsInv, Reachable, Progress;
  }

  // ----- The manager -----

  /**
   Whenever the manager sleeps and no signal is on its way, either all slots
   are busy, or neither an unstarted download nor a pending upload exists.
   */
  lemma ManagerSleepsWithoutWork(s: State)
    requires Reachable(s) && MANAGER in s.threads && s.threads[MANAGER] == Manager(MAsleep)
    ensures || FirstReady(s.ready) == None
            || (FirstInactive(s.queue, s.entries) == None && forall f :: !IsPending(s.transfers, f))
            || SignalPending(s)
    ensures MainLock !in s.locks ==> !SignalPending(s)
    ensures MainLock !in s.locks ==>
              || true !in s.ready
              || ((forall e <- s.queue | e < |s.entries| :: s.entries[e].active)
                  && forall f <- s.transfers :: s.transfers[f] == Download || s.transfers[f] == Upload(0))
  {
    ReachableInv(s);
    FirstReadyIs(s.ready);
    NextDownload(s);
    AllActive(s.queue, s.entries);
    hide LocksInv, ShapeInv, RunnerInv, FlagsInv, QueueInv, SlotsInv, CachedInv, AckInv, MembersInv, RowsInv;
    hide Reachable, FirstReady, FirstInactive, AboutToSignal;
  }

  lemma {:induction false} AllActive(queue: seq<Eid>, entries: seq<Entry>)
    ensures FirstInactive(queue, entries) == None ==> forall e <- queue | e < |entries| :: entries[e].active
  {
    if queue != [] {
      AllActive(queue[1..], entries);
      assert forall e :: e in queue <==> e == queue[0] || e in queue[1..];
    }
  }
}
