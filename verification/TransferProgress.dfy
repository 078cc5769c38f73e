/**
 The mutexes never deadlock: threads take them in one order, so as long as some
 thread has work to do, some thread can go on.
 */
module TransferProgress {
  import opened Wrappers
  import opened TransferSystem
  import opened TransferInvariants
  import opened TransferReachable

  // ----- Deadlock freedom -----

  /** The order in which every thread takes the mutexes. */
  function Rank(l: Lock): nat {
    match l
    case MainLock => 0
    case AckLock(_) => 1
    case WaitLock(_) => 2
    case DbLock => 3
  }

  lemma ClientTakesInOrder(th: Thread, l: Lock, th': Thread, k: Lock)
    requires th.Client? && Does(th, Take(l), th') && Holds(th, k)
    ensures Rank(k) < Rank(l)
  {
    hide ManagerDoes, DownloaderDoes, UploaderDoes, PutterDoes;
  }

  lemma DownloaderTakesInOrder(th: Thread, l: Lock, th': Thread, k: Lock)
    requires th.Downloader? && Does(th, Take(l), th') && Holds(th, k)
    ensures Rank(k) < Rank(l)
  {
    hide ManagerDoes, ClientDoes, UploaderDoes, PutterDoes;
  }

  lemma OtherTakesInOrder(th: Thread, l: Lock, th': Thread, k: Lock)
    requires !th.Client? && !th.Downloader? && Does(th, Take(l), th') && Holds(th, k)
    ensures Rank(k) < Rank(l)
  {
    hide ClientDoes, DownloaderDoes;
  }

  /** A thread takes a mutex only while all that it holds come before it in the order. */
  lemma TakesInOrder(th: Thread, l: Lock, th': Thread, k: Lock)
    requires Does(th, Take(l), th') && Holds(th, k)
    ensures Rank(k) < Rank(l)
  {
    if th.Client? { ClientTakesInOrder(th, l, th', k); }
    else if th.Downloader? { DownloaderTakesInOrder(th, l, th', k); }
    else { OtherTakesInOrder(th, l, th', k); }
    hide *;
  }

  /** Thread t is about to take l, and u has it. */
  ghost predicate WaitsFor(s: State, t: Tid, l: Lock, u: Tid) {
    && t in s.threads
    && (exists th' :: Does(s.threads[t], Take(l), th'))
    && l in s.locks && s.locks[l] == u
  }

  ghost predicate IsCycle(s: State, ts: seq<Tid>, ls: seq<Lock>) {
    && 0 < |ts| == |ls|
    && WaitsFor(s, ts[|ts| - 1], ls[|ts| - 1], ts[0])
    && forall i | 0 < i < |ts| :: WaitsFor(s, ts[i - 1], ls[i - 1], ts[i])
  }

  lemma WaitsUpwards(s: State, t: Tid, l: Lock, u: Tid, k: Lock, v: Tid)
    requires LocksInv(s) && WaitsFor(s, t, l, u) && WaitsFor(s, u, k, v)
    ensures Rank(l) < Rank(k)
  {
    var th' :| Does(s.threads[u], Take(k), th');
    assert HeldBy(s, s.locks[l], l);
    TakesInOrder(s.threads[u], k, th', l);
    hide Does, Holds;
  }

  lemma {:induction false} RanksRise(s: State, ts: seq<Tid>, ls: seq<Lock>, i: nat)
    requires LocksInv(s) && IsCycle(s, ts, ls) && i < |ts|
    ensures Rank(ls[0]) <= Rank(ls[i])
  {
    if 0 < i {
      RanksRise(s, ts, ls, i - 1);
      WaitsUpwards(s, ts[i - 1], ls[i - 1], ts[i], ls[i], if i + 1 < |ts| then ts[i + 1] else ts[0])
        by { assert i + 1 < |ts| ==> WaitsFor(s, ts[i + 1 - 1], ls[i + 1 - 1], ts[i + 1]); }
    }
    hide WaitsFor, LocksInv;
  }

  /** No reachable state has a cycle of threads that wait for each other's mutexes. */
  lemma DeadlockFreedom(s: State, ts: seq<Tid>, ls: seq<Lock>)
    requires Reachable(s)
    ensures !IsCycle(s, ts, ls)
  {
    ReachableInv(s);
    assert LocksInv(s);
    if IsCycle(s, ts, ls) {
      var n := |ts|;
      RanksRise(s, ts, ls, n - 1);
      if n == 1 {
        WaitsUpwards(s, ts[0], ls[0], ts[0], ls[0], ts[0]);
      } else {
        assert WaitsFor(s, ts[1 - 1], ls[1 - 1], ts[1]);
        WaitsUpwards(s, ts[n - 1], ls[n - 1], ts[0], ls[0], ts[1]);
      }
    }
    hide *;
  }

  // ----- Progress -----

  /** The thread has ended, or waits on a condition variable. */
  predicate Idle(th: Thread) {
    match th
    case Client(pc, _, _) => pc.CAsleep? || pc.CDone?
    case Manager(pc) => pc.MAsleep?
    case Downloader(pc, _, _) => pc.DFailed? || pc.DAsleep? || pc.DDone?
    case Uploader(pc, _, _) => pc.ULost? || pc.UDone?
    case Putter(pc, _, _) => pc.PDone?
  }

  lemma IdleHoldsNothing(th: Thread, l: Lock)
    requires Idle(th)
    ensures !Holds(th, l)
  {
  }

  lemma FreshThread(threads: map<Tid, Thread>) returns (u: Tid)
    ensures u !in threads
  {
    u := FreshTid(threads.Keys);
  }

  lemma {:induction false} FreshTid(used: set<Tid>) returns (u: Tid)
    ensures forall t <- used :: t < u
  {
    if used == {} {
      u := 0;
    } else {
      var t :| t in used;
      var v := FreshTid(used - {t});
      u := if t < v then v else t + 1;
      assert forall x <- used :: x == t || x in used - {t};
    }
  }

  lemma EarlyClientGoesOn(s: State, th: Thread) returns (c: Call, th': Thread)
    requires th.Client? && !Idle(th) && ClientEntry(th.cpc).None? && Sane(s, th)
    ensures Does(th, c, th') && (c.Take? || Allowed(s, c))
  {
    hide ManagerDoes, DownloaderDoes, UploaderDoes, PutterDoes;
    var f, r := th.file, th.registered;
    match th.cpc
    case CFind => c, th' := Take(DbLock), Client(CFindDb, f, r);
    case CFindDb => c, th' := FindFile(0), Client(CCheck, 0, r);
    case CCheck => c, th' := Take(DbLock), Client(CCheckDb, f, r);
    case CCheckDb =>
      var cached := f in s.files && s.files[f];
      c := IsCached(f, cached);
      th' := Client(if cached then CDone(Ok) else if 0 < f then CEnter else CDone(Error), f, r);
    case CEnter => c, th' := Take(MainLock), Client(CSearch, f, r);
    case CSearch =>
      var found := FindInQueue(s.queue, s.entries, f);
      c, th' := Search(f, found), Client(if found.Some? then CLockWait(found.value) else CAddRow, f, r);
    case CAddRow => c, th' := Take(DbLock), Client(CAddRowDb, f, r);
    case CAddRowDb => c, th' := AddDownload(f, r), Client(CPush, f, r);
    case CPush => c, th' := Enqueue(f, |s.entries|), Client(CLockWait(|s.entries|), f, r);
    case _ => assert false;
  }

  lemma LateClientGoesOn(s: State, th: Thread) returns (c: Call, th': Thread)
    requires th.Client? && !Idle(th) && ClientEntry(th.cpc).Some? && Sane(s, th)
    ensures Does(th, c, th') && (c.Take? || Allowed(s, c))
  {
    hide ManagerDoes, DownloaderDoes, UploaderDoes, PutterDoes;
    var f, r := th.file, th.registered;
    var e := ClientEntry(th.cpc).value;
    match th.cpc
    case CLockWait(_) => c, th' := Take(WaitLock(e)), Client(CSignal(e), f, r);
    case CSignal(_) => c, th' := SignalMain, Client(CUnlockMain(e), f, r);
    case CUnlockMain(_) => c, th' := Give(MainLock), Client(CSleep(e), f, r);
    case CSleep(_) => c, th' := WaitDone(e), Client(CAsleep(e), f, r);
    case CWoken(_) => c, th' := Take(WaitLock(e)), Client(CUnlockWait(e), f, r);
    case CUnlockWait(_) => c, th' := Give(WaitLock(e)), Client(CLeave(e), f, r);
    case CLeave(_) => c, th' := Take(MainLock), Client(CDecrement(e), f, r);
    case CDecrement(_) =>
      var left := s.entries[e].subscribers - 1;
      c, th' := Unsubscribe(e, left), Client(if left == 0 then CLockAck(e) else CLeaveMain(e), f, r);
    case CLockAck(_) => c, th' := Take(AckLock(e)), Client(CSignalAck(e), f, r);
    case CSignalAck(_) =>
      th' := Client(CUnlockAck(e), f, r);
      if u :| u in s.threads && WaitsForAck(s.threads, u, e) {
        c := SignalAck(e, Some(u));
      } else {
        c := SignalAck(e, None);
      }
    case CUnlockAck(_) => c, th' := Give(AckLock(e)), Client(CLeaveMain(e), f, r);
    case CLeaveMain(_) => c, th' := Give(MainLock), Client(CDone(Ok), f, r);
    case _ => assert false;
  }

  lemma ManagerGoesOn(s: State, th: Thread) returns (c: Call, th': Thread)
    requires th.Manager? && !Idle(th)
    ensures Does(th, c, th') && (c.Take? || Allowed(s, c))
  {
    hide ClientDoes, DownloaderDoes, UploaderDoes, PutterDoes;
    match th.mpc
    case MLock => c, th' := Take(MainLock), Manager(MScan);
    case MScan =>
      var free := FirstReady(s.ready);
      c, th' := FindSlot(free), Manager(if free.Some? then MUpload(free.value) else MSleep);
    case MUpload(i) => c, th' := Take(DbLock), Manager(MUploadDb(i));
    case MUploadDb(i) =>
      if f :| f in s.transfers && IsPending(s.transfers, f) {
        c, th' := FindUpload(Some(f)), Manager(MStartUpload(i, f));
      } else {
        c, th' := FindUpload(None), Manager(MPick(i));
      }
    case MStartUpload(i, f) =>
      var u := FreshThread(s.threads);
      c, th' := StartUpload(i, f, u), Manager(MScan);
    case MPick(i) =>
      match FirstInactive(s.queue, s.entries) {
        case None => c, th' := NoDownload, Manager(MSleep);
        case Some(e) =>
          var d := FreshThread(s.threads);
          c, th' := StartDownload(i, e, d), Manager(MScan);
      }
    case MSleep => c, th' := WaitMain, Manager(MAsleep);
    case MWoken => c, th' := Take(MainLock), Manager(MUnlock);
    case MUnlock => c, th' := Give(MainLock), Manager(MLock);
    case MAsleep => assert false;
  }

  lemma EarlyDownloaderGoesOn(s: State, th: Thread) returns (c: Call, th': Thread)
    requires th.Downloader? && !Idle(th) && Stage(th.dpc) < 15
    ensures Does(th, c, th') && (c.Take? || Allowed(s, c))
  {
    hide ClientDoes, ManagerDoes, UploaderDoes, PutterDoes;
    var i, e := th.slot, th.entry;
    match th.dpc
    case DLock1 => c, th' := Take(MainLock), Downloader(DQuery1, i, e);
    case DQuery1 => c, th' := Take(DbLock), Downloader(DQuery1Db, i, e);
    case DQuery1Db => c, th' := Give(DbLock), Downloader(DUnlock1, i, e);
    case DUnlock1 => c, th' := Give(MainLock), Downloader(DTransfer, i, e);
    case DTransfer => c, th' := Transfer(true), Downloader(DLock2, i, e);
    case DLock2 => c, th' := Take(MainLock), Downloader(DQuery2, i, e);
    case DQuery2 => c, th' := Take(DbLock), Downloader(DQuery2Db, i, e);
    case DQuery2Db => c, th' := Give(DbLock), Downloader(DUnlock2, i, e);
    case DUnlock2 => c, th' := Give(MainLock), Downloader(DPublish, i, e);
    case DPublish => c, th' := Take(MainLock), Downloader(DRemove, i, e);
    case DRemove => c, th' := Remove(e), Downloader(DDelRow, i, e);
    case DDelRow => c, th' := Take(DbLock), Downloader(DDelRowDb, i, e);
    case DDelRowDb => c, th' := DeleteTransfer(e), Downloader(DMark, i, e);
    case DMark => c, th' := Take(DbLock), Downloader(DMarkDb, i, e);
    case DMarkDb => c, th' := MarkCached(e), Downloader(DReady, i, e);
    case _ => assert false;
  }

  lemma LateDownloaderGoesOn(s: State, th: Thread) returns (c: Call, th': Thread)
    requires th.Downloader? && !Idle(th) && 15 <= Stage(th.dpc) && th.entry < |s.entries|
    ensures Does(th, c, th') && (c.Take? || Allowed(s, c))
  {
    hide ClientDoes, ManagerDoes, UploaderDoes, PutterDoes;
    var i, e := th.slot, th.entry;
    match th.dpc
    case DReady => c, th' := SetReady(i), Downloader(DLockAck, i, e);
    case DLockAck => c, th' := Take(AckLock(e)), Downloader(DLockWait, i, e);
    case DLockWait => c, th' := Take(WaitLock(e)), Downloader(DBroadcast, i, e);
    case DBroadcast => c, th' := Broadcast(e), Downloader(DSignal, i, e);
    case DSignal => c, th' := SignalMain, Downloader(DUnlockMain, i, e);
    case DUnlockMain => c, th' := Give(MainLock), Downloader(DUnlockWait, i, e);
    case DUnlockWait => c, th' := Give(WaitLock(e)), Downloader(DRead, i, e);
    case DRead =>
      var n := s.entries[e].subscribers;
      c, th' := ReadCount(e, n), Downloader(if n != 0 then DSleep else DUnlockAck, i, e);
    case DSleep => c, th' := WaitAck(e), Downloader(DAsleep, i, e);
    case DWoken => c, th' := Take(AckLock(e)), Downloader(DUnlockAck, i, e);
    case DUnlockAck => c, th' := Give(AckLock(e)), Downloader(DFree, i, e);
    case DFree => c, th' := FreeEntry(e), Downloader(DDone, i, e);
    case _ => assert false;
  }

  lemma UploaderGoesOn(s: State, th: Thread) returns (c: Call, th': Thread)
    requires th.Uploader? && !Idle(th)
    ensures Does(th, c, th') && (c.Take? || Allowed(s, c))
  {
    hide ClientDoes, ManagerDoes, DownloaderDoes, PutterDoes;
    var i, f := th.uslot, th.ufile;
    match th.upc
    case UQuery => c, th' := Take(DbLock), Uploader(UQueryDb, i, f);
    case UQueryDb =>
      var more := IsPending(s.transfers, f);
      c, th' := GetUpload(f, more), Uploader(if more then UWork else ULost, i, f);
    case UWork => c, th' := Transfer(true), Uploader(ULock, i, f);
    case UAsk => c, th' := Take(DbLock), Uploader(UAskDb, i, f);
    case UAskDb => c, th' := Give(DbLock), Uploader(UWork, i, f);
    case ULock => c, th' := Take(MainLock), Uploader(UDelRow, i, f);
    case UDelRow => c, th' := Take(DbLock), Uploader(UDelRowDb, i, f);
    case UDelRowDb => c, th' := DeleteUpload(f), Uploader(UReady, i, f);
    case UReady => c, th' := SetReady(i), Uploader(USignal, i, f);
    case USignal => c, th' := SignalMain, Uploader(UUnlock, i, f);
    case UUnlock => c, th' := Give(MainLock), Uploader(UDone, i, f);
    case _ => assert false;
  }

  lemma PutterGoesOn(s: State, th: Thread) returns (c: Call, th': Thread)
    requires th.Putter? && !Idle(th)
    ensures Does(th, c, th') && (c.Take? || Allowed(s, c))
  {
    hide ClientDoes, ManagerDoes, DownloaderDoes, UploaderDoes;
    var f, k := th.pfile, th.owned;
    match th.ppc
    case PLock => c, th' := Take(MainLock), Putter(PFind, f, k);
    case PFind => c, th' := Take(DbLock), Putter(PFindDb, f, k);
    case PFindDb => c, th' := FindFile(0), Putter(PAdd, 0, k);
    case PAdd => c, th' := Take(DbLock), Putter(PAddDb, f, k);
    case PAddDb => c, th' := AddUpload(f, k), Putter(PParts, f, k);
    case PParts => c, th' := Take(DbLock), Putter(PPartsDb, f, k);
    case PPartsDb => c, th' := CreateMultiparts(f, 1), Putter(PSignal, f, k);
    case PSignal => c, th' := SignalMain, Putter(PUnlock, f, k);
    case PUnlock => c, th' := Give(MainLock), Putter(PDone, f, k);
    case PDone => assert false;
  }

  /** Every thread that is not idle has a next call; only a mutex that is taken can keep it from returning. */
  lemma GoesOn(s: State, t: Tid) returns (c: Call, th': Thread)
    requires ShapeInv(s) && RunnerInv(s) && t in s.threads && !Idle(s.threads[t])
    ensures Does(s.threads[t], c, th') && (c.Take? || Allowed(s, c))
  {
    var th := s.threads[t];
    assert Sane(s, th);
    assert th.Downloader? ==> th.entry < |s.entries|;
    hide *;
    match th
    case Client(pc, _, _) =>
      if ClientEntry(pc).None? { c, th' := EarlyClientGoesOn(s, th); } else { c, th' := LateClientGoesOn(s, th); }
    case Manager(_) => c, th' := ManagerGoesOn(s, th);
    case Downloader(pc, _, _) =>
      if Stage(pc) < 15 { c, th' := EarlyDownloaderGoesOn(s, th); } else { c, th' := LateDownloaderGoesOn(s, th); }
    case Uploader(_, _, _) => c, th' := UploaderGoesOn(s, th);
    case Putter(_, _, _) => c, th' := PutterGoesOn(s, th);
  }

  /** Some thread can make a call. */
  ghost predicate CanGoOn(s: State) {
    exists t, c, th' :: CallStep(s, t, c, th', After(s, t, c, th'))
  }

  lemma {:induction false} SomebodyGoesOn(s: State, t: Tid, floor: nat)
    requires LocksInv(s) && ShapeInv(s) && RunnerInv(s) && t in s.threads && !Idle(s.threads[t])
    requires floor == 0 || exists k :: Holds(s.threads[t], k) && Rank(k) + 1 == floor
    ensures CanGoOn(s)
    decreases 4 - floor
  {
    var c, th' := GoesOn(s, t);
    if c.Take? && c.l in s.locks {
      var u := s.locks[c.l];
      assert HeldBy(s, u, c.l);
      if 0 < floor {
        var k :| Holds(s.threads[t], k) && Rank(k) + 1 == floor;
        TakesInOrder(s.threads[t], c.l, th', k);
      }
      if Idle(s.threads[u]) { IdleHoldsNothing(s.threads[u], c.l); }
      SomebodyGoesOn(s, u, Rank(c.l) + 1);
    } else {
      assert CallStep(s, t, c, th', After(s, t, c, th'));
    }
    hide Does, Holds, Idle, ShapeInv, RunnerInv, LocksInv, After;
  }

  /** While some thread is neither ended nor asleep, some thread can go on. */
  lemma ProgressIsMade(s: State, t: Tid)
    requires Reachable(s) && t in s.threads && !Idle(s.threads[t])
    ensures CanGoOn(s)
  {
    ReachableInv(s);
    SomebodyGoesOn(s, t, 0);
    hide *;
  }
}
