/** Who changes the transfers table, and which uploads the manager starts. */
module TransferUploads {
  import opened Wrappers
  import opened TransferSystem
  import opened TransferInvariants
  import opened TransferMutexes
  import opened TransferDownloads
  import opened TransferManager
  import opened TransferReachable
  import opened TransferOutcome
  import opened TransferScheduling

  // ----- Rows -----

  function RowOf(s: State, f: FileId): Option<Row> {
    if f in s.transfers then Some(s.transfers[f]) else None
  }

  /** A client for f whose user is known queues a download, unless f has a row. */
  lemma ClientRows(s: State, t: Tid, c: Call, th': Thread, s': State, f: FileId)
    requires CallStep(s, t, c, th', s') && s.threads[t].Client?
    ensures var th := s.threads[t];
            RowOf(s', f) ==
            if th.cpc.CAddRowDb? && th.file == f && th.registered && f in s.files && f !in s.transfers
            then Some(Download) else RowOf(s, f)
  {
    hide ManagerDoes, DownloaderDoes, UploaderDoes, PutterDoes, Allowed;
    hide ThreadsAfter, EntriesAfter, LocksAfter, QueueAfter, ReadyAfter;
  }

  lemma ManagerRows(s: State, t: Tid, c: Call, th': Thread, s': State, f: FileId)
    requires CallStep(s, t, c, th', s') && s.threads[t].Manager?
    ensures RowOf(s', f) == RowOf(s, f)
  {
    hide ClientDoes, DownloaderDoes, UploaderDoes, PutterDoes, Allowed;
    hide ThreadsAfter, EntriesAfter, LocksAfter, QueueAfter, ReadyAfter;
  }

  /** A downloader deletes the row of its file, once. */
  lemma DownloaderRows(s: State, t: Tid, c: Call, th': Thread, s': State, f: FileId)
    requires CallStep(s, t, c, th', s') && s.threads[t].Downloader? && s.threads[t].entry < |s.entries|
    ensures var th := s.threads[t];
            RowOf(s', f) ==
            if th.dpc.DDelRowDb? && s.entries[th.entry].fileId == f then None else RowOf(s, f)
  {
    hide ClientDoes, ManagerDoes, UploaderDoes, PutterDoes, Allowed;
    hide ThreadsAfter, EntriesAfter, LocksAfter, QueueAfter, ReadyAfter;
  }

  /** An uploader deletes the row of its file, once. */
  lemma UploaderRows(s: State, t: Tid, c: Call, th': Thread, s': State, f: FileId)
    requires CallStep(s, t, c, th', s') && s.threads[t].Uploader?
    ensures var th := s.threads[t];
            RowOf(s', f) == if th.upc.UDelRowDb? && th.ufile == f then None else RowOf(s, f)
  {
    hide ClientDoes, ManagerDoes, DownloaderDoes, PutterDoes, Allowed;
    hide ThreadsAfter, EntriesAfter, LocksAfter, QueueAfter, ReadyAfter;
  }

  /** A putter queues an upload without parts, unless its file has a row, and adds parts to an upload. */
  lemma PutterRows(s: State, t: Tid, c: Call, th': Thread, s': State, f: FileId)
    requires CallStep(s, t, c, th', s') && s.threads[t].Putter?
    ensures s.threads[t].ppc.PPartsDb? ==> c.CreateMultiparts?
    ensures var th := s.threads[t];
            RowOf(s', f) ==
            if th.pfile != f then RowOf(s, f)
            else if th.ppc.PAddDb? && th.owned && f in s.files && f !in s.transfers then Some(Upload(0))
            else if th.ppc.PPartsDb? && f in s.transfers && s.transfers[f].Upload?
            then Some(Upload(s.transfers[f].parts + c.parts))
            else RowOf(s, f)
  {
    hide ClientDoes, ManagerDoes, DownloaderDoes, UploaderDoes, Allowed;
    hide ThreadsAfter, EntriesAfter, LocksAfter, QueueAfter, ReadyAfter;
  }

  /**
   The row of a file changes only by a call of a thread for that file: a client
   or a putter creates it, a putter adds parts to it, and a downloader or an
   uploader deletes it.
   */
  lemma RowsAreOwned(s: State, t: Tid, c: Call, th': Thread, s': State, f: FileId)
    requires Reachable(s) && CallStep(s, t, c, th', s') && RowOf(s', f) != RowOf(s, f)
    ensures match s.threads[t]
            case Client(_, g, _) => g == f && RowOf(s, f) == None && RowOf(s', f) == Some(Download)
            case Manager(_) => false
            case Downloader(_, _, e) => e < |s.entries| && s.entries[e].fileId == f && RowOf(s', f) == None
            case Uploader(_, _, g) => g == f && RowOf(s', f) == None
            case Putter(_, g, _) =>
              && g == f
              && (RowOf(s, f) == None ==> RowOf(s', f) == Some(Upload(0)))
              && (RowOf(s, f).Some? ==>
                    RowOf(s, f).value.Upload? && RowOf(s', f).Some? && RowOf(s', f).value.Upload?
                    && RowOf(s', f).value.parts > RowOf(s, f).value.parts)
  {
    hide Does, After, Inv, Reachable, RunnerInv, Allowed;
    ReachableInv(s);
    DownloadersStarted(s);
    match s.threads[t] {
      case Client(_, _, _) => ClientRows(s, t, c, th', s', f);
      case Manager(_) => ManagerRows(s, t, c, th', s', f);
      case Downloader(_, _, _) => DownloaderRows(s, t, c, th', s', f);
      case Uploader(_, _, _) => UploaderRows(s, t, c, th', s', f);
      case Putter(_, _, _) =>
        PutterRows(s, t, c, th', s', f);
        assert RowOf(s, f).Some? ==> c.CreateMultiparts? && RowOf(s', f) == Some(Upload(s.transfers[f].parts + c.parts));
    }
  }

  lemma DownloadersStarted(s: State)
    requires Inv(s)
    ensures forall t <- s.threads | s.threads[t].Downloader? :: s.threads[t].entry < |s.entries|
  {
    hide LocksInv, ShapeInv, FlagsInv, QueueInv, SlotsInv, MembersInv, CachedInv, AckInv, ManagerInv, RowsInv;
  }

  // ----- The uploads that are started -----

  /** An uploader goes to work exactly if its file has an upload with parts to send. */
  lemma UploaderAsks(s: State, t: Tid, f: FileId, more: bool, th': Thread, s': State)
    requires CallStep(s, t, GetUpload(f, more), th', s')
    ensures s.threads[t].Uploader? && s.threads[t].ufile == f && th'.Uploader?
    ensures th'.upc == UWork <==> f in s.transfers && s.transfers[f].Upload? && s.transfers[f].parts > 0
  {
    hide After, FirstReady, FirstInactive, FindInQueue;
  }

  /** The manager is about to start an upload only of a file that has one with parts to send. */
  predicate StartIsPending(s: State) {
    MANAGER in s.threads && s.threads[MANAGER].Manager? && s.threads[MANAGER].mpc.MStartUpload? ==>
      var f := s.threads[MANAGER].mpc.f;
      f in s.transfers && s.transfers[f].Upload? && s.transfers[f].parts > 0
  }

  lemma ManagerFinds(s: State, c: Call, th: Thread, th': Thread)
    requires th.Manager? && Does(th, c, th') && Allowed(s, c) && th'.mpc.MStartUpload?
    ensures var f := th'.mpc.f; f in s.transfers && s.transfers[f].Upload? && s.transfers[f].parts > 0
    ensures c.FindUpload?
  {
    hide ClientDoes, DownloaderDoes, UploaderDoes, PutterDoes, FirstReady, FirstInactive, FindInQueue;
  }

  lemma ManagerStarts(s: State, c: Call, th': Thread, s': State)
    requires Inv(s) && CallStep(s, MANAGER, c, th', s')
    ensures StartIsPending(s')
  {
    hide Inv, Does, After, Allowed, CallStep, RunnerInv;
    StepParts(s, MANAGER, c, th', s');
    ThreadAfter(s, MANAGER, c, th', s', MANAGER);
    PartsOf(s);
    WorkAfter(s, MANAGER, c, th', s');
    if th'.Manager? && th'.mpc.MStartUpload? { ManagerFinds(s, c, s.threads[MANAGER], th'); }
  }

  lemma StepParts(s: State, t: Tid, c: Call, th': Thread, s': State)
    requires CallStep(s, t, c, th', s')
    ensures t in s.threads && Does(s.threads[t], c, th') && Allowed(s, c)
  {
    hide Does, Allowed, After;
  }

  lemma PartsOf(s: State)
    requires Inv(s)
    ensures RunnerInv(s) && LocksInv(s) && MANAGER in s.threads && s.threads[MANAGER].Manager?
  {
    hide LocksInv, RunnerInv, FlagsInv, QueueInv, SlotsInv, MembersInv, CachedInv, AckInv, ShapeInv, RowsInv;
  }

  lemma StarterHolds(pc: ManagerPc)
    requires pc.MStartUpload?
    ensures Holds(Manager(pc), MainLock)
  {
  }

  lemma CallStarts(s: State, t: Tid, c: Call, th': Thread, s': State)
    requires Inv(s) && StartIsPending(s) && CallStep(s, t, c, th', s')
    ensures StartIsPending(s')
  {
    hide Inv, Does, After, Allowed, CallStep, RunnerInv, LocksInv, Holds, Schedules;
    StepParts(s, t, c, th', s');
    PartsOf(s);
    if t == MANAGER {
      ManagerStarts(s, c, th', s');
    } else {
      ThreadAfter(s, t, c, th', s', MANAGER);
      ManagerWoken(c, MANAGER, s.threads[MANAGER].mpc);
      if s'.threads[MANAGER].mpc.MStartUpload? {
        StarterHolds(s.threads[MANAGER].mpc);
        SchedulesMoves(s.threads[t], c, th');
        if Schedules(c) { OneHolder(s, t, MANAGER, MainLock); }
        WorkAfter(s, t, c, th', s');
      }
    }
  }

  lemma StepStarts(s: State, s': State)
    requires Inv(s) && StartIsPending(s) && Next(s, s')
    ensures StartIsPending(s')
  {
    hide Inv, CallStep;
    if t, c, th' :| CallStep(s, t, c, th', s') { CallStarts(s, t, c, th', s'); }
  }

  lemma {:induction false} RunStarts(run: seq<State>, n: nat)
    requires IsRun(run) && n < |run|
    ensures StartIsPending(run[n])
  {
    hide Next, Inv, StepAt;
    if n > 0 {
      RunStarts(run, n - 1);
      RunKeeps(run, n - 1);
      StepOf(run, n);
      StepStarts(run[n - 1], run[n]);
    }
  }

  /**
   Whatever the other threads do between the query and the start, the manager
   starts an upload only in a free slot, and only of a file that has an upload
   with parts to send.
   */
  lemma StartsWhatIsPending(s: State, i: nat, f: FileId, u: Tid, th': Thread, s': State)
    requires Reachable(s) && CallStep(s, MANAGER, StartUpload(i, f, u), th', s')
    ensures f in s.transfers && s.transfers[f].Upload? && s.transfers[f].parts > 0
    ensures i < |s.ready| && s.ready[i] && !s'.ready[i]
    ensures u in s'.threads && s'.threads[u] == Uploader(UQuery, i, f)
  {
    hide Reachable, Does, Allowed, After, CallStep, Inv, StartIsPending;
    ReachableInv(s);
    ReachedStarts(s);
    StepParts(s, MANAGER, StartUpload(i, f, u), th', s');
    ThreadAfter(s, MANAGER, StartUpload(i, f, u), th', s', u);
    ManagerStarting(s, i, f, u, th');
    SlotTaken(s, i, f, u, th', s');
  }

  lemma ReachedStarts(s: State)
    requires Reachable(s)
    ensures StartIsPending(s)
  {
    hide StepAt, Init, StartIsPending;
    var run :| IsRun(run) && run[|run| - 1] == s;
    RunStarts(run, |run| - 1);
  }

  lemma ManagerStarting(s: State, i: nat, f: FileId, u: Tid, th': Thread)
    requires Inv(s) && StartIsPending(s) && MANAGER in s.threads
    requires Does(s.threads[MANAGER], StartUpload(i, f, u), th') && Allowed(s, StartUpload(i, f, u))
    ensures f in s.transfers && s.transfers[f].Upload? && s.transfers[f].parts > 0
    ensures i < |s.ready| && s.ready[i] && u !in s.threads && th'.Manager?
  {
    hide LocksInv, RunnerInv, FlagsInv, QueueInv, MembersInv, CachedInv, AckInv, RowsInv, HasWork;
    hide ClientDoes, DownloaderDoes, UploaderDoes, PutterDoes;
    assert Sane(s, s.threads[MANAGER]);
  }

  lemma SlotTaken(s: State, i: nat, f: FileId, u: Tid, th': Thread, s': State)
    requires CallStep(s, MANAGER, StartUpload(i, f, u), th', s') && i < |s.ready|
    ensures i < |s'.ready| && !s'.ready[i]
  {
    hide Does;
  }

  // ----- Transfers that fail -----

  /** A transfer that fails ends its thread, and one that ends well does not. */
  lemma FailureEndsThread(s: State, t: Tid, good: bool, th': Thread, s': State)
    requires CallStep(s, t, Transfer(good), th', s')
    ensures !good <==> (th'.Downloader? && th'.dpc == DFailed) || (th'.Uploader? && th'.upc == ULost)
  {
    hide After;
  }

  lemma {:induction false} LostForever(run: seq<State>, i: nat, j: nat, t: Tid)
    requires IsRun(run) && i <= j < |run| && t in run[i].threads && IsLost(run[i].threads[t])
    ensures t in run[j].threads && run[j].threads[t] == run[i].threads[t]
  {
    hide *;
    if i < j {
      LostForever(run, i, j - 1, t);
      StepOf(run, j);
      LostStep(run[j - 1], run[j], t);
    }
  }

  lemma LostStep(s: State, s': State, t: Tid)
    requires t in s.threads && IsLost(s.threads[t]) && Next(s, s')
    ensures t in s'.threads && s'.threads[t] == s.threads[t]
  {
    hide CallStep, IsLost;
    if u, c, th' :| CallStep(s, u, c, th', s') { LostIsStill(s, t, u, c, th', s'); }
  }

  /**
   A transfer that fails, or an upload without parts, never gives its slot back:
   in every later state the slot is busy and its user is that thread.
   */
  lemma SlotIsLostForever(run: seq<State>, i: nat, j: nat, t: Tid)
    requires IsRun(run) && i <= j < |run| && t in run[i].threads
    requires var th := run[i].threads[t]; (th.Downloader? && th.dpc == DFailed) || (th.Uploader? && th.upc == ULost)
    ensures var th := run[i].threads[t];
            var slot := if th.Downloader? then th.slot else th.uslot;
            slot < |run[j].ready| == |run[j].user| && !run[j].ready[slot] && run[j].user[slot] == t
  {
    assert IsLost(run[i].threads[t]);
    hide *;
    LostForever(run, i, j, t);
    RunKeeps(run, j);
    LostHasSlot(run[j].threads[t]);
    SlotOfLost(run[j], t);
  }

  lemma SlotOfLost(s: State, t: Tid)
    requires Inv(s) && t in s.threads && (s.threads[t].Downloader? || s.threads[t].Uploader?)
    requires Occupies(s.threads[t], if s.threads[t].Downloader? then s.threads[t].slot else s.threads[t].uslot)
    ensures var th := s.threads[t];
            var slot := if th.Downloader? then th.slot else th.uslot;
            slot < |s.ready| == |s.user| && !s.ready[slot] && s.user[slot] == t
  {
    hide LocksInv, RunnerInv, FlagsInv, QueueInv, MembersInv, CachedInv, AckInv, RowsInv, ManagerInv, Occupies;
    var slot := if s.threads[t].Downloader? then s.threads[t].slot else s.threads[t].uslot;
    assert Sane(s, s.threads[t]);
    assert OccupiedBy(s, slot, t);
  }
}
