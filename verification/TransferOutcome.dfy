/** What a run comes to: who is still waiting when no thread can go on, and why. */
module TransferOutcome {
  import opened TransferSystem
  import opened TransferInvariants
  import opened TransferMutexes
  import opened TransferDownloads
  import opened TransferReachable
  import opened TransferRuns
  import opened TransferProgress

  /** The slot was given to a thread whose transfer ended without success. */
  predicate SlotIsLost(s: State, i: nat) {
    exists t <- s.threads :: Occupies(s.threads[t], i) && IsLost(s.threads[t])
  }

  /** Nobody will wake the subscribers of e: its transfer failed, or it is not started and no slot is left for it. */
  predicate IsStranded(s: State, e: Eid) {
    || (e < s.starts <= |s.entries| && s.entries[e].runner in s.threads && IsLost(s.threads[s.entries[e].runner]))
    || (s.starts <= e && forall i: nat | i < MAX_TRANSFERS :: SlotIsLost(s, i))
  }

  lemma StuckThreadsAreIdle(s: State, t: Tid)
    requires Reachable(s) && !CanGoOn(s) && t in s.threads
    ensures Idle(s.threads[t])
  {
    if !Idle(s.threads[t]) { ProgressIsMade(s, t); }
    hide *;
  }

  /** All threads are idle, and the invariants hold. */
  ghost predicate IsAtRest(s: State) {
    && LocksInv(s) && ShapeInv(s) && RunnerInv(s) && FlagsInv(s) && QueueInv(s) && SlotsInv(s) && MembersInv(s)
    && AckedInv(s) && ManagerInv(s)
    && forall t <- s.threads :: Idle(s.threads[t])
  }

  lemma NoMutexIsHeld(s: State, l: Lock)
    requires LocksInv(s) && forall t <- s.threads :: Idle(s.threads[t])
    ensures l !in s.locks
  {
    if l in s.locks {
      assert HeldBy(s, s.locks[l], l);
      IdleHoldsNothing(s.threads[s.locks[l]], l);
    }
    hide Holds, Idle;
  }

  lemma RestingMember(s: State, t: Tid, e: Eid)
    requires IsRegistered(s, t, e) && Idle(s.threads[t])
    ensures IsBeforeWake(s, t, e)
  {
  }

  lemma RestingSignaller(s: State, t: Tid, e: Eid)
    requires t in s.threads ==> Idle(s.threads[t])
    ensures !IsYetToSignal(s, t, e)
  {
  }

  /** A downloader at rest has failed or is done: nobody waits for an acknowledgement for ever. */
  lemma NoDownloaderWaits(s: State, d: Tid)
    requires IsAtRest(s) && d in s.threads && s.threads[d].Downloader?
    ensures s.threads[d].dpc.DFailed? || s.threads[d].dpc.DDone?
  {
    var e := s.threads[d].entry;
    assert Progress(s, e) == Stage(s.threads[d].dpc);
    RestingSignaller(s, s.entries[e].last, e);
    if s.threads[d].dpc.DAsleep? && s.entries[e].members != {} {
      var t :| t in s.entries[e].members;
      assert IsRegistered(s, t, e);
      RestingMember(s, t, e);
    }
    hide LocksInv, ShapeInv, QueueInv, SlotsInv, ManagerInv;
  }

  lemma RestingOccupier(th: Thread, i: nat)
    requires Idle(th) && Occupies(th, i) && (th.Downloader? ==> th.dpc.DFailed? || th.dpc.DDone?)
    ensures IsLost(th)
  {
  }

  lemma BusySlotIsLost(s: State, i: nat)
    requires IsAtRest(s) && i < MAX_TRANSFERS && true !in s.ready
    ensures SlotIsLost(s, i)
  {
    assert OccupiedBy(s, i, s.user[i]) by { assert s.ready[i] in s.ready; }
    var th := s.threads[s.user[i]];
    if th.Downloader? { NoDownloaderWaits(s, s.user[i]); }
    RestingOccupier(th, i);
    hide LocksInv, ShapeInv, QueueInv, MembersInv, FlagsInv, RunnerInv, AckedInv, ManagerInv, Idle, Occupies, IsLost;
  }

  lemma SleeperIsQueued(s: State, t: Tid, e: Eid)
    requires ShapeInv(s) && FlagsInv(s) && MembersInv(s)
    requires t in s.threads && s.threads[t].Client? && s.threads[t].cpc == CAsleep(e)
    ensures e < |s.entries| && Progress(s, e) <= 18
  {
    assert Sane(s, s.threads[t]);
    assert IsBeforeWake(s, t, e);
    hide Progress;
  }

  lemma ProgressOfRunner(s: State, e: Eid)
    requires RunnerInv(s) && e < s.starts
    ensures e < |s.entries| && s.entries[e].runner in s.threads && s.threads[s.entries[e].runner].Downloader?
    ensures Progress(s, e) == Stage(s.threads[s.entries[e].runner].dpc)
  {
    hide Stage;
  }

  lemma FailedIsQueued(s: State, e: Eid, d: Tid)
    requires QueueInv(s) && e < s.starts <= |s.entries| && s.entries[e].runner == d
    requires d in s.threads && s.threads[d].Downloader? && Progress(s, e) == Stage(s.threads[d].dpc)
    requires s.threads[d].dpc.DFailed?
    ensures e in s.queue && IsStranded(s, e)
  {
    hide Progress, SlotIsLost;
  }

  lemma StartedIsStranded(s: State, e: Eid)
    requires IsAtRest(s) && e < s.starts && e < |s.entries| && Progress(s, e) <= 18
    ensures e in s.queue && IsStranded(s, e)
  {
    hide *;
    RestingDownloads(s);
    ProgressOfRunner(s, e);
    var d := s.entries[e].runner;
    NoDownloaderWaits(s, d);
    DoneIsLate(s.threads[d].dpc);
    FailedIsQueued(s, e, d);
  }

  lemma RestingDownloads(s: State)
    requires IsAtRest(s)
    ensures RunnerInv(s) && QueueInv(s) && s.starts <= |s.entries|
  {
    hide LocksInv, ShapeInv, FlagsInv, QueueInv, SlotsInv, MembersInv, AckedInv, ManagerInv, Idle;
  }

  lemma DoneIsLate(pc: DownloaderPc)
    ensures pc.DDone? ==> Stage(pc) == 28
  {
  }

  lemma UnstartedIsStranded(s: State, e: Eid)
    requires IsAtRest(s) && s.starts <= e < |s.entries|
    ensures e in s.queue && IsStranded(s, e)
  {
    NoMutexIsHeld(s, MainLock);
    assert !HasWork(s);
    forall i: nat | i < MAX_TRANSFERS ensures SlotIsLost(s, i) { BusySlotIsLost(s, i); }
    hide LocksInv, ShapeInv, FlagsInv, SlotsInv, MembersInv, AckedInv, Idle, SlotIsLost;
  }

  lemma SleeperIsStranded(s: State, t: Tid, e: Eid)
    requires IsAtRest(s) && t in s.threads && s.threads[t].Client? && s.threads[t].cpc == CAsleep(e)
    ensures e < |s.entries| && e in s.queue && IsStranded(s, e)
  {
    assert ShapeInv(s) && FlagsInv(s) && MembersInv(s);
    hide *;
    SleeperIsQueued(s, t, e);
    if e < s.starts { StartedIsStranded(s, e); } else { UnstartedIsStranded(s, e); }
  }

  /**
   When no thread can go on, no mutex is held, every download that is not
   waited for has finished, and every client has its answer, except those whose
   download failed or has no slot left to start in.
   */
  lemma Quiescence(s: State, t: Tid)
    requires Reachable(s) && !CanGoOn(s)
    ensures s.locks == map[]
    ensures t in s.threads && s.threads[t].Client? && !s.threads[t].cpc.CDone? ==>
              && s.threads[t].cpc.CAsleep?
              && s.threads[t].cpc.e in s.queue
              && IsStranded(s, s.threads[t].cpc.e)
    ensures t in s.threads && s.threads[t].Downloader? ==> s.threads[t].dpc.DFailed? || s.threads[t].dpc.DDone?
  {
    Rests(s);
    forall l ensures l !in s.locks { NoMutexIsHeld(s, l); }
    if t in s.threads {
      assert Idle(s.threads[t]);
      if s.threads[t].Client? && !s.threads[t].cpc.CDone? { SleeperIsStranded(s, t, s.threads[t].cpc.e); }
      if s.threads[t].Downloader? { NoDownloaderWaits(s, t); }
    }
    hide LocksInv, ShapeInv, RunnerInv, FlagsInv, QueueInv, SlotsInv, MembersInv, AckedInv, ManagerInv;
    hide Reachable, CanGoOn, IsStranded;
  }

  lemma Rests(s: State)
    requires Reachable(s) && !CanGoOn(s)
    ensures IsAtRest(s)
  {
    ReachableInv(s);
    assert AckedInv(s);
    forall t <- s.threads ensures Idle(s.threads[t]) { StuckThreadsAreIdle(s, t); }
    hide LocksInv, ShapeInv, RunnerInv, FlagsInv, QueueInv, SlotsInv, MembersInv, AckedInv, ManagerInv;
    hide RowsInv, CachedInv, Reachable, CanGoOn, Idle;
  }

  /** If no transfer has failed, every client has its answer once no thread can go on. */
  lemma EverybodyIsAnswered(s: State, t: Tid)
    requires Reachable(s) && !CanGoOn(s) && t in s.threads && s.threads[t].Client?
    requires forall u <- s.threads :: !IsLost(s.threads[u])
    ensures s.threads[t].cpc.CDone?
  {
    Quiescence(s, t);
    assert !SlotIsLost(s, 0);
    hide Reachable, CanGoOn;
  }

  // ----- Failed transfers -----

  /** The transfer of e failed. */
  predicate HasFailed(s: State, e: Eid) {
    && e < s.starts <= |s.entries|
    && s.entries[e].runner in s.threads
    && s.threads[s.entries[e].runner].Downloader?
    && s.threads[s.entries[e].runner].dpc.DFailed?
  }

  /** The client sleeps on e. */
  predicate SleepsOn(s: State, t: Tid, e: Eid) {
    t in s.threads && s.threads[t].Client? && s.threads[t].cpc == CAsleep(e)
  }

  lemma FailedStays(s: State, e: Eid, u: Tid, c: Call, th': Thread, s': State)
    requires RunnerInv(s) && RunnerInv(s') && HasFailed(s, e) && CallStep(s, u, c, th', s')
    ensures HasFailed(s', e)
    ensures c != Broadcast(e)
  {
    var d := s.entries[e].runner;
    ThreadAfter(s, u, c, th', s', d);
    EntriesKeep(s, u, c);
    DownloaderWoken(s, c, d);
    if c == Broadcast(e) { CallOfDownload(s, u, c, th', e); }
    FailedIsStill(s.threads[d], c, th', u == d);
    hide Does, Allowed, EntriesAfter, ThreadsAfter, Woken, Stage;
  }

  lemma FailedIsStill(th: Thread, c: Call, th': Thread, own: bool)
    requires th.Downloader? && th.dpc.DFailed?
    ensures own ==> !Does(th, c, th')
    ensures Stage(th.dpc) == 4
  {
  }

  lemma SleeperStays(s: State, t: Tid, e: Eid, u: Tid, c: Call, th': Thread, s': State)
    requires SleepsOn(s, t, e) && CallStep(s, u, c, th', s') && c != Broadcast(e)
    ensures SleepsOn(s', t, e) && s'.threads[t] == s.threads[t]
  {
    ThreadAfter(s, u, c, th', s', t);
    if Woken(c, t, s.threads[t]) != s.threads[t] { WokenSleeper(s, c, t); }
    SleeperIsStill(s.threads[t], c, th', u == t);
    hide Does, Allowed, EntriesAfter, ThreadsAfter, Woken;
  }

  lemma SleeperIsStill(th: Thread, c: Call, th': Thread, own: bool)
    requires th.Client? && th.cpc.CAsleep?
    ensures own ==> !Does(th, c, th')
  {
  }

  // ----- Lost slots -----

  predicate AllSlotsLost(s: State) {
    forall i: nat | i < MAX_TRANSFERS :: SlotIsLost(s, i)
  }

  /** A thread whose transfer ended without success makes no call and is not woken. */
  lemma LostIsStill(s: State, t: Tid, u: Tid, c: Call, th': Thread, s': State)
    requires t in s.threads && IsLost(s.threads[t]) && CallStep(s, u, c, th', s')
    ensures u != t && t in s'.threads && s'.threads[t] == s.threads[t]
  {
    ThreadAfter(s, u, c, th', s', t);
    if Woken(c, t, s.threads[t]) != s.threads[t] { WokenSleeper(s, c, t); }
    LostDoesNothing(s.threads[t], c, th');
    hide Does, Allowed, EntriesAfter, ThreadsAfter, Woken;
  }

  lemma LostDoesNothing(th: Thread, c: Call, th': Thread)
    requires IsLost(th)
    ensures !Does(th, c, th')
  {
  }

  lemma LostSlotStays(s: State, i: nat, u: Tid, c: Call, th': Thread, s': State)
    requires SlotIsLost(s, i) && CallStep(s, u, c, th', s')
    ensures SlotIsLost(s', i)
  {
    var t :| t in s.threads && Occupies(s.threads[t], i) && IsLost(s.threads[t]);
    LostIsStill(s, t, u, c, th', s');
    hide Occupies, IsLost, CallStep;
  }

  /** When all slots are lost, nothing is started any more. */
  lemma LostSlotsStay(s: State, u: Tid, c: Call, th': Thread, s': State)
    requires ShapeInv(s) && ManagerInv(s) && SlotsInv(s) && AllSlotsLost(s) && CallStep(s, u, c, th', s')
    ensures AllSlotsLost(s') && s'.starts == s.starts
  {
    forall i: nat | i < MAX_TRANSFERS ensures SlotIsLost(s', i) { LostSlotStays(s, i, u, c, th', s'); }
    if c.StartDownload? {
      GivesFreeSlot(s, u, c, th', c.i, c.d);
      LostSlotIsBusy(s, c.i);
    }
    hide ShapeInv, ManagerInv, SlotsInv, SlotIsLost, Does, Allowed, EntriesAfter, ThreadsAfter;
  }

  lemma LostSlotIsBusy(s: State, i: nat)
    requires SlotsInv(s) && SlotIsLost(s, i) && i < MAX_TRANSFERS
    ensures i < |s.ready| && !s.ready[i]
  {
    var t :| t in s.threads && Occupies(s.threads[t], i) && IsLost(s.threads[t]);
    assert OccupiedBy(s, i, t);
    hide Occupies, IsLost;
  }

  lemma UnstartedIsNotBroadcast(s: State, e: Eid, u: Tid, c: Call, th': Thread)
    requires RunnerInv(s) && s.starts <= e && u in s.threads && Does(s.threads[u], c, th')
    ensures c != Broadcast(e)
  {
    if c == Broadcast(e) { CallOfDownload(s, u, c, th', e); }
    hide Does;
  }

  // ----- Stranded clients -----

  lemma FailedIsStranded(s: State, e: Eid)
    requires RunnerInv(s)
    ensures IsStranded(s, e) <==> HasFailed(s, e) || (s.starts <= e && AllSlotsLost(s))
  {
    hide SlotIsLost;
  }

  lemma StrandedCall(s: State, t: Tid, e: Eid, u: Tid, c: Call, th': Thread, s': State)
    requires Inv(s) && RunnerInv(s') && SleepsOn(s, t, e) && IsStranded(s, e) && CallStep(s, u, c, th', s')
    ensures SleepsOn(s', t, e) && IsStranded(s', e) && s'.threads[t] == s.threads[t]
  {
    assert RunnerInv(s) && ShapeInv(s) && ManagerInv(s) && SlotsInv(s) && u in s.threads && Does(s.threads[u], c, th');
    hide *;
    FailedIsStranded(s, e);
    FailedIsStranded(s', e);
    if HasFailed(s, e) {
      FailedStays(s, e, u, c, th', s');
    } else {
      LostSlotsStay(s, u, c, th', s');
      UnstartedIsNotBroadcast(s, e, u, c, th');
    }
    SleeperStays(s, t, e, u, c, th', s');
  }

  lemma StrandedStep(s: State, t: Tid, e: Eid, s': State)
    requires Inv(s) && RunnerInv(s') && SleepsOn(s, t, e) && IsStranded(s, e) && Next(s, s')
    ensures SleepsOn(s', t, e) && IsStranded(s', e) && s'.threads[t] == s.threads[t]
  {
    hide Inv, RunnerInv, CallStep;
    if u, c, th' :| CallStep(s, u, c, th', s') {
      StrandedCall(s, t, e, u, c, th', s');
    } else {
      assert forall u <- s.threads :: u in s'.threads && s'.threads[u] == s.threads[u];
      forall i: nat | i < MAX_TRANSFERS && SlotIsLost(s, i) ensures SlotIsLost(s', i) {
        var v :| v in s.threads && Occupies(s.threads[v], i) && IsLost(s.threads[v]);
        assert v in s'.threads && s'.threads[v] == s.threads[v];
      }
      hide Occupies, IsLost, SlotIsLost;
    }
  }

  /**
   A client that waits for a failed download, or for one that has no slot left
   to start in, is never woken, however the run goes on.  With Quiescence, these
   are exactly the clients that get no answer.
   */
  lemma {:induction false} StrandedForever(run: seq<State>, i: nat, j: nat, t: Tid, e: Eid)
    requires IsRun(run) && i <= j < |run| && SleepsOn(run[i], t, e) && IsStranded(run[i], e)
    ensures SleepsOn(run[j], t, e) && IsStranded(run[j], e) && run[j].threads[t] == run[i].threads[t]
  {
    hide *;
    if i < j {
      StrandedForever(run, i, j - 1, t, e);
      StrandedStays(run, j, t, e);
    }
  }

  lemma StrandedStays(run: seq<State>, j: nat, t: Tid, e: Eid)
    requires IsRun(run) && 0 < j < |run| && SleepsOn(run[j - 1], t, e) && IsStranded(run[j - 1], e)
    ensures SleepsOn(run[j], t, e) && IsStranded(run[j], e) && run[j].threads[t] == run[j - 1].threads[t]
  {
    hide *;
    StepOf(run, j);
    RunKeeps(run, j - 1);
    RunRunner(run, j);
    StrandedStep(run[j - 1], t, e, run[j]);
  }

  lemma RunRunner(run: seq<State>, n: nat)
    requires IsRun(run) && n < |run|
    ensures RunnerInv(run[n])
  {
    RunKeeps(run, n);
    hide IsRun, LocksInv, ShapeInv, RunnerInv, FlagsInv, QueueInv, SlotsInv, MembersInv, AckInv, ManagerInv;
    hide RowsInv, CachedInv;
  }

  /** The only transfer of a run fails, and the client that asked for it sleeps on. */
  lemma StrandedRun() returns (run: seq<State>)
    ensures IsRun(run)
    ensures SleepsOn(run[|run| - 1], CLIENT, 0) && IsStranded(run[|run| - 1], 0)
  {
    hide ClientDoes, ManagerDoes, UploaderDoes, PutterDoes, StepAt, Init, SlotIsLost;
    var s := Transferring();
    run := ReachesTransfer();
    run, s := Looks(run, s, DOWNLOADER, Transfer(false), Downloader(DFailed, 0, 0));
  }
}
