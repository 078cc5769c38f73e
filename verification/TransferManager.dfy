/** The manager is told of all work, and the transfers table follows the queue. */
module TransferManager {
  import opened TransferSystem
  import opened TransferInvariants
  import opened TransferMutexes
  import opened TransferDownloads

  // ----- Single threads -----

  /** The call changes a slot, the queue or the transfers table. */
  predicate Schedules(c: Call) {
    || c.SetReady? || c.Enqueue? || c.Remove? || c.StartUpload? || c.StartDownload?
    || c.AddDownload? || c.AddUpload? || c.CreateMultiparts? || c.DeleteTransfer? || c.DeleteUpload?
  }

  lemma SchedulesClient(th: Thread, c: Call, th': Thread)
    requires th.Client? && Does(th, c, th')
    ensures Schedules(c) ==> Holds(th, MainLock)
    ensures c.Enqueue? ==> AboutToSignal(th')
    ensures AboutToSignal(th) ==> c == SignalMain || AboutToSignal(th')
    ensures !c.SetReady? && !c.CreateMultiparts?
  {
    hide DownloaderDoes, ManagerDoes, UploaderDoes, PutterDoes;
  }

  lemma SchedulesDownloader(th: Thread, c: Call, th': Thread)
    requires th.Downloader? && Does(th, c, th')
    ensures Schedules(c) ==> Holds(th, MainLock)
  {
    hide ClientDoes, ManagerDoes, UploaderDoes, PutterDoes;
  }

  lemma SchedulesOther(th: Thread, c: Call, th': Thread)
    requires !th.Client? && !th.Downloader? && Does(th, c, th')
    ensures Schedules(c) ==> Holds(th, MainLock)
    ensures c.SetReady? || c.CreateMultiparts? ==> AboutToSignal(th')
    ensures AboutToSignal(th) ==> c == SignalMain || AboutToSignal(th')
    ensures !c.Enqueue?
  {
    hide ClientDoes, DownloaderDoes;
  }

  /** Whoever adds work holds mainLoop_mutex, and signals before giving it back. */
  lemma SchedulesMoves(th: Thread, c: Call, th': Thread)
    requires Does(th, c, th')
    ensures Schedules(c) ==> Holds(th, MainLock)
    ensures c.SetReady? || c.Enqueue? || c.CreateMultiparts? ==> AboutToSignal(th')
    ensures AboutToSignal(th) ==> c == SignalMain || AboutToSignal(th')
  {
    if th.Client? { SchedulesClient(th, c, th'); }
    else if th.Downloader? {
      SchedulesDownloader(th, c, th');
      DownloaderStages(th, c, th');
    } else { SchedulesOther(th, c, th'); }
    hide Does, Stage;
  }

  lemma SignallerHolds(th: Thread)
    requires AboutToSignal(th)
    ensures Holds(th, MainLock)
  {
  }

  lemma SignallerWoken(s: State, c: Call, u: Tid)
    requires Allowed(s, c) && u in s.threads && AboutToSignal(s.threads[u])
    ensures AboutToSignal(Woken(c, u, s.threads[u]))
  {
    if Woken(c, u, s.threads[u]) != s.threads[u] { WokenSleeper(s, c, u); }
    hide Allowed;
  }

  // ----- Work -----

  lemma PendingAfter(s: State, c: Call)
    ensures SomePending(TransfersAfter(s, c)) ==> SomePending(s.transfers) || c.CreateMultiparts?
    ensures !Schedules(c) ==> TransfersAfter(s, c) == s.transfers
  {
    if SomePending(TransfersAfter(s, c)) && !c.CreateMultiparts? {
      var f :| f in TransfersAfter(s, c) && IsPending(TransfersAfter(s, c), f);
      assert IsPending(s.transfers, f);
    }
  }

  lemma ReadyStays(s: State, c: Call)
    ensures true in ReadyAfter(s.ready, c) ==> true in s.ready || c.SetReady?
    ensures !Schedules(c) ==> ReadyAfter(s.ready, c) == s.ready
  {
  }

  lemma WorkAfter(s: State, t: Tid, c: Call, th': Thread, s': State)
    requires RunnerInv(s) && CallStep(s, t, c, th', s')
    ensures HasWork(s') ==> HasWork(s) || c.SetReady? || c.Enqueue? || c.CreateMultiparts?
    ensures !Schedules(c) ==> s'.ready == s.ready && s'.transfers == s.transfers && (HasWork(s') <==> HasWork(s))
  {
    PendingAfter(s, c);
    ReadyStays(s, c);
    EntriesKeep(s, t, c);
    assert s'.entries == EntriesAfter(s, t, c) && s'.ready == ReadyAfter(s.ready, c);
    assert s'.transfers == TransfersAfter(s, c) && s'.starts == if c.StartDownload? then s.starts + 1 else s.starts;
    hide Does, Allowed, After, CallStep, RunnerInv, EntriesAfter, ReadyAfter, TransfersAfter, SomePending;
  }

  // ----- The manager -----

  lemma ManagerAnswers(s: State, c: Call, pc: ManagerPc, th': Thread)
    requires Knows(s, pc) && Does(Manager(pc), c, th') && Allowed(s, c)
    requires FirstReady(s.ready).None? ==> true !in s.ready
    requires FirstReady(s.ready).Some? ==> FirstReady(s.ready).value < |s.ready| && s.ready[FirstReady(s.ready).value]
    requires FirstInactive(s.queue, s.entries).None? ==> s.starts == |s.entries|
    ensures th'.Manager?
    ensures Schedules(c) ==> th'.mpc.MScan?
    ensures !Schedules(c) ==> Knows(s, th'.mpc) && (th'.mpc.MAsleep? ==> !HasWork(s))
  {
    hide ClientDoes, DownloaderDoes, UploaderDoes, PutterDoes, FirstReady, FirstInactive;
  }

  lemma KnowsStays(s: State, s': State, pc: ManagerPc)
    requires Knows(s, pc) && s'.ready == s.ready && s'.transfers == s.transfers && (HasWork(s') <==> HasWork(s))
    ensures Knows(s', pc)
  {
  }

  lemma ManagerLearns(s: State, c: Call, th': Thread)
    requires SlotsInv(s) && RunnerInv(s) && FlagsInv(s) && QueueInv(s) && ManagerInv(s)
    requires Does(s.threads[MANAGER], c, th') && Allowed(s, c)
    ensures th'.Manager?
    ensures Schedules(c) ==> th'.mpc.MScan?
    ensures !Schedules(c) ==> Knows(s, th'.mpc) && (th'.mpc.MAsleep? ==> !HasWork(s))
  {
    FirstReadyIs(s.ready);
    NextDownload(s);
    assert s.starts <= |s.entries|;
    hide Does, Allowed, FirstReady, FirstInactive, HasWork, Knows, RunnerInv, FlagsInv, QueueInv;
    ManagerAnswers(s, c, s.threads[MANAGER].mpc, th');
  }

  lemma ManagerCall(s: State, c: Call, th': Thread, s': State)
    requires SlotsInv(s) && RunnerInv(s) && FlagsInv(s) && QueueInv(s) && ManagerInv(s)
    requires CallStep(s, MANAGER, c, th', s')
    ensures ManagerInv(s')
  {
    ThreadAfter(s, MANAGER, c, th', s', MANAGER);
    WorkAfter(s, MANAGER, c, th', s');
    ManagerLearns(s, c, th');
    if !Schedules(c) { KnowsStays(s, s', th'.mpc); }
    hide Does, Allowed, After, CallStep, RunnerInv, FlagsInv, QueueInv, HasWork, SlotsInv;
  }

  lemma KnowingHolds(s: State, pc: ManagerPc)
    ensures ManagerSlot(pc).Some? || pc.MPick? || pc.MSleep? ==> Holds(Manager(pc), MainLock)
  {
  }

  lemma ManagerWoken(c: Call, u: Tid, pc: ManagerPc)
    ensures Woken(c, u, Manager(pc)) == if c.SignalMain? && pc.MAsleep? then Manager(MWoken) else Manager(pc)
  {
  }

  lemma KnowsDuring(s: State, t: Tid, c: Call, th': Thread, s': State)
    requires LocksInv(s) && RunnerInv(s) && ManagerInv(s) && CallStep(s, t, c, th', s') && t != MANAGER
    ensures Knows(s', s.threads[MANAGER].mpc)
  {
    WorkAfter(s, t, c, th', s');
    SchedulesMoves(s.threads[t], c, th');
    var pc := s.threads[MANAGER].mpc;
    KnowingHolds(s, pc);
    if ManagerSlot(pc).Some? || pc.MPick? || pc.MSleep? {
      if Schedules(c) { OneHolder(s, t, MANAGER, MainLock); }
      KnowsStays(s, s', pc);
    }
    hide Does, Allowed, After, CallStep, RunnerInv, LocksInv, Holds, HasWork;
  }

  lemma HolderIsPending(s: State, t: Tid)
    requires LocksInv(s) && t in s.threads && AboutToSignal(s.threads[t])
    ensures SignalPending(s)
  {
    SignallerHolds(s.threads[t]);
    assert HeldBy(s, t, MainLock);
    hide Holds, AboutToSignal;
  }

  lemma OtherStaysPending(s: State, t: Tid, c: Call, th': Thread, s': State, h: Tid)
    requires CallStep(s, t, c, th', s') && h in s.threads && AboutToSignal(s.threads[h]) && h != t
    ensures h in s'.threads && AboutToSignal(s'.threads[h])
  {
    assert Allowed(s, c);
    hide *;
    ThreadAfter(s, t, c, th', s', h);
    SignallerWoken(s, c, h);
  }

  /** The thread that is about to signal goes on to do so. */
  lemma SignalStaysPending(s: State, t: Tid, c: Call, th': Thread, s': State)
    requires LocksInv(s') && CallStep(s, t, c, th', s') && !c.SignalMain?
    requires SignalPending(s) || AboutToSignal(th')
    ensures SignalPending(s')
  {
    SchedulesMoves(s.threads[t], c, th');
    ThreadAfter(s, t, c, th', s', t);
    if AboutToSignal(th') {
      HolderIsPending(s', t);
    } else {
      OtherStaysPending(s, t, c, th', s', s.locks[MainLock]);
      HolderIsPending(s', s.locks[MainLock]);
    }
    hide *;
  }

  lemma ManagerKept(s: State, t: Tid, c: Call, th': Thread, s': State)
    requires LocksInv(s) && ShapeInv(s) && SlotsInv(s) && RunnerInv(s) && FlagsInv(s) && QueueInv(s) && ManagerInv(s)
    requires CallStep(s, t, c, th', s')
    ensures ManagerInv(s')
  {
    if t == MANAGER {
      ManagerCall(s, c, th', s');
    } else {
      LocksKept(s, t, c, th', s');
      ThreadAfter(s, t, c, th', s', MANAGER);
      ManagerWoken(c, MANAGER, s.threads[MANAGER].mpc);
      KnowsDuring(s, t, c, th', s');
      WorkAfter(s, t, c, th', s');
      SchedulesMoves(s.threads[t], c, th');
      if !c.SignalMain? && s'.threads[MANAGER].mpc.MAsleep? && HasWork(s') {
        SignalStaysPending(s, t, c, th', s');
      }
    }
    hide Does, Allowed, After, CallStep, Woken, HasWork, LocksInv, ShapeInv, SlotsInv, RunnerInv, FlagsInv;
    hide QueueInv, SignalPending, Holds;
  }
}
