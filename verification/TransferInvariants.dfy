/**
 The inductive invariants of the transfer queue, one predicate for each
 concern.  The modules that follow prove that every step keeps them.
 */
module TransferInvariants {
  import opened Wrappers
  import opened TransferSystem

  // ----- Classification of program counters -----

  /** How far a download has come; a failed one stays at the transfer. */
  function Stage(pc: DownloaderPc): nat {
    match pc
    case DLock1 => 0
    case DQuery1 => 1
    case DQuery1Db => 2
    case DUnlock1 => 3
    case DTransfer => 4
    case DFailed => 4
    case DLock2 => 5
    case DQuery2 => 6
    case DQuery2Db => 7
    case DUnlock2 => 8
    case DPublish => 9
    case DRemove => 10
    case DDelRow => 11
    case DDelRowDb => 12
    case DMark => 13
    case DMarkDb => 14
    case DReady => 15
    case DLockAck => 16
    case DLockWait => 17
    case DBroadcast => 18
    case DSignal => 19
    case DUnlockMain => 20
    case DUnlockWait => 21
    case DRead => 22
    case DSleep => 23
    case DAsleep => 24
    case DWoken => 25
    case DUnlockAck => 26
    case DFree => 27
    case DDone => 28
  }

  /** Whether a thread at this program counter has the mutex. */
  predicate Holds(th: Thread, l: Lock) {
    match th
    case Client(pc, _, _) => (
      match l
      case MainLock =>
        pc.CSearch? || pc.CAddRow? || pc.CAddRowDb? || pc.CPush? || pc.CLockWait? || pc.CSignal? || pc.CUnlockMain?
        || pc.CDecrement? || pc.CLockAck? || pc.CSignalAck? || pc.CUnlockAck? || pc.CLeaveMain?
      case DbLock => pc.CFindDb? || pc.CCheckDb? || pc.CAddRowDb?
      case WaitLock(e) => pc == CSignal(e) || pc == CUnlockMain(e) || pc == CSleep(e) || pc == CUnlockWait(e)
      case AckLock(e) => pc == CSignalAck(e) || pc == CUnlockAck(e))
    case Manager(pc) => (
      match l
      case MainLock =>
        pc.MScan? || pc.MUpload? || pc.MUploadDb? || pc.MStartUpload? || pc.MPick? || pc.MSleep? || pc.MUnlock?
      case DbLock => pc.MUploadDb?
      case _ => false)
    case Downloader(pc, _, e) => (
      match l
      case MainLock => 1 <= Stage(pc) <= 3 || 6 <= Stage(pc) <= 8 || 10 <= Stage(pc) <= 20
      case DbLock => pc.DQuery1Db? || pc.DQuery2Db? || pc.DDelRowDb? || pc.DMarkDb?
      case WaitLock(x) => x == e && 18 <= Stage(pc) <= 21
      case AckLock(x) => x == e && (17 <= Stage(pc) <= 23 || pc.DUnlockAck?))
    case Uploader(pc, _, _) => (
      match l
      case MainLock => pc.UDelRow? || pc.UDelRowDb? || pc.UReady? || pc.USignal? || pc.UUnlock?
      case DbLock => pc.UQueryDb? || pc.UAskDb? || pc.UDelRowDb?
      case _ => false)
    case Putter(pc, _, _) => (
      match l
      case MainLock => !pc.PLock? && !pc.PDone?
      case DbLock => pc.PFindDb? || pc.PAddDb? || pc.PPartsDb?
      case _ => false)
  }

  predicate HeldBy(s: State, t: Tid, l: Lock) {
    t in s.threads && Holds(s.threads[t], l)
  }

  /** The subscription a client refers to. */
  function ClientEntry(pc: ClientPc): Option<Eid> {
    match pc
    case CLockWait(e) => Some(e)
    case CSignal(e) => Some(e)
    case CUnlockMain(e) => Some(e)
    case CSleep(e) => Some(e)
    case CAsleep(e) => Some(e)
    case CWoken(e) => Some(e)
    case CUnlockWait(e) => Some(e)
    case CLeave(e) => Some(e)
    case CDecrement(e) => Some(e)
    case CLockAck(e) => Some(e)
    case CSignalAck(e) => Some(e)
    case CUnlockAck(e) => Some(e)
    case CLeaveMain(e) => Some(e)
    case _ => None
  }

  /** The slot the manager is about to fill. */
  function ManagerSlot(pc: ManagerPc): Option<nat> {
    match pc
    case MUpload(i) => Some(i)
    case MUploadDb(i) => Some(i)
    case MStartUpload(i, _) => Some(i)
    case MPick(i) => Some(i)
    case _ => None
  }

  /** The client has subscribed to e and has not been woken. */
  predicate BeforeWake(th: Thread, e: Eid) {
    th.Client? && (th.cpc == CLockWait(e) || th.cpc == CSignal(e) || th.cpc == CUnlockMain(e) || th.cpc == CSleep(e)
                   || th.cpc == CAsleep(e))
  }

  /** The client was woken by the broadcast on e. */
  predicate AfterWake(th: Thread, e: Eid) {
    th.Client? && ClientEntry(th.cpc) == Some(e) && !BeforeWake(th, e)
  }

  /** The client is counted in the subscribers of e. */
  predicate Registered(th: Thread, e: Eid) {
    BeforeWake(th, e) ||
    (th.Client? && (th.cpc == CWoken(e) || th.cpc == CUnlockWait(e) || th.cpc == CLeave(e) || th.cpc == CDecrement(e)))
  }

  /** The client took subscribers to zero and has not yet signalled acknowledgeCond. */
  predicate YetToSignal(th: Thread, e: Eid) {
    th.Client? && (th.cpc == CLockAck(e) || th.cpc == CSignalAck(e))
  }

  /** The client took subscribers to zero and still uses acknowledgeMutex. */
  predicate Acknowledging(th: Thread, e: Eid) {
    YetToSignal(th, e) || (th.Client? && th.cpc == CUnlockAck(e))
  }

  predicate IsRegistered(s: State, t: Tid, e: Eid) {
    t in s.threads && Registered(s.threads[t], e)
  }

  predicate IsBeforeWake(s: State, t: Tid, e: Eid) {
    t in s.threads && BeforeWake(s.threads[t], e)
  }

  predicate IsAfterWake(s: State, t: Tid, e: Eid) {
    t in s.threads && AfterWake(s.threads[t], e)
  }

  predicate IsYetToSignal(s: State, t: Tid, e: Eid) {
    t in s.threads && YetToSignal(s.threads[t], e)
  }

  predicate IsAcknowledging(s: State, t: Tid, e: Eid) {
    t in s.threads && Acknowledging(s.threads[t], e)
  }

  /** The client knows that its file is not queued, and is about to queue it. */
  predicate Enqueueing(th: Thread) {
    th.Client? && (th.cpc.CAddRow? || th.cpc.CAddRowDb? || th.cpc.CPush?)
  }

  /** The thread has slot i, or had it when its transfer ended without success. */
  predicate Occupies(th: Thread, i: nat) {
    match th
    case Downloader(pc, j, _) => i == j && Stage(pc) <= 15
    case Uploader(pc, j, _) => i == j && !pc.USignal? && !pc.UUnlock? && !pc.UDone?
    case _ => false
  }

  predicate OccupiedBy(s: State, i: nat, t: Tid) {
    t in s.threads && Occupies(s.threads[t], i)
  }

  /** The thread's transfer ended without success; its slot is never given back. */
  predicate IsLost(th: Thread) {
    (th.Downloader? && th.dpc.DFailed?) || (th.Uploader? && th.upc.ULost?)
  }

  /** The thread has changed what the manager looks at and signals it before it unlocks. */
  predicate AboutToSignal(th: Thread) {
    match th
    case Client(pc, _, _) => pc.CLockWait? || pc.CSignal?
    case Downloader(pc, _, _) => 16 <= Stage(pc) <= 19
    case Uploader(pc, _, _) => pc.USignal?
    case Putter(pc, _, _) => pc.PSignal?
    case Manager(_) => false
  }

  /** How far the download of e has come: 0 until it is started. */
  function Progress(s: State, e: Eid): nat {
    if e < s.starts && e < |s.entries| && s.entries[e].runner in s.threads && s.threads[s.entries[e].runner].Downloader?
    then Stage(s.threads[s.entries[e].runner].dpc)
    else 0
  }

  predicate SomePending(transfers: map<FileId, Row>) {
    exists f <- transfers :: IsPending(transfers, f)
  }

  /** A slot is free and there is something to fill it with. */
  predicate HasWork(s: State) {
    true in s.ready && (s.starts < |s.entries| || SomePending(s.transfers))
  }

  // ----- The invariants -----

  /** A mutex has at most one holder, and the program counters tell which. */
  ghost predicate LocksInv(s: State) {
    && (forall l <- s.locks :: HeldBy(s, s.locks[l], l))
    && (forall t, l | HeldBy(s, t, l) :: l in s.locks && s.locks[l] == t)
  }

  /** There is one manager; clients and uploads are for rows of the files table, and subscriptions exist. */
  ghost predicate ShapeInv(s: State) {
    && MANAGER in s.threads
    && (forall t <- s.threads :: s.threads[t].Manager? <==> t == MANAGER)
    && 0 !in s.files
    && (forall t <- s.threads :: Sane(s, s.threads[t]))
    && (forall e: nat | e < |s.entries| :: s.entries[e].fileId in s.files)
  }

  predicate Sane(s: State, th: Thread) {
    match th
    case Client(pc, f, _) =>
      && (f == 0 || f in s.files)
      && (pc.CFind? || pc.CFindDb? || pc.CCheck? || pc.CCheckDb? || pc.CDone? || f != 0)
      && (ClientEntry(pc).Some? ==>
            ClientEntry(pc).value < |s.entries| && s.entries[ClientEntry(pc).value].fileId == f)
    case Manager(pc) => ManagerSlot(pc).Some? ==> ManagerSlot(pc).value < MAX_TRANSFERS
    case Downloader(_, i, e) => i < MAX_TRANSFERS
    case Uploader(_, i, f) => i < MAX_TRANSFERS
    case Putter(_, f, _) => f == 0 || f in s.files
  }

  /** Started subscriptions and downloaders are in one-to-one correspondence. */
  ghost predicate RunnerInv(s: State) {
    && s.starts <= |s.entries|
    && (forall e: nat | e < s.starts ::
          s.entries[e].runner in s.threads
          && s.threads[s.entries[e].runner].Downloader?
          && s.threads[s.entries[e].runner].entry == e)
    && (forall t <- s.threads | s.threads[t].Downloader? ::
          s.threads[t].entry < s.starts && s.entries[s.threads[t].entry].runner == t)
  }

  /** The flags of a subscription say how far its download has come. */
  ghost predicate FlagsInv(s: State) {
    forall e: nat | e < |s.entries| ::
      && (s.entries[e].active <==> e < s.starts && Progress(s, e) <= 18)
      && (s.entries[e].broadcast <==> Progress(s, e) >= 19)
      && (s.entries[e].freed <==> Progress(s, e) >= 28)
  }

  predicate Increasing(queue: seq<Eid>) {
    forall i, j | 0 <= i < j < |queue| :: queue[i] < queue[j]
  }

  /** The queue lists, in order of creation, the subscriptions that are not yet removed; no file is in it twice. */
  ghost predicate QueueInv(s: State) {
    && Increasing(s.queue)
    && (forall e: nat :: e in s.queue <==> e < |s.entries| && Progress(s, e) <= 10)
    && (forall d: nat, e: nat | d < e < |s.entries| && Progress(s, d) <= 10 && Progress(s, e) <= 10 ::
          s.entries[d].fileId != s.entries[e].fileId)
    && (forall t <- s.threads, e: nat | Enqueueing(s.threads[t]) && e < |s.entries| && Progress(s, e) <= 10 ::
          s.entries[e].fileId != s.threads[t].file)
  }

  /** A slot that is not ready belongs to one thread. */
  ghost predicate SlotsInv(s: State) {
    && |s.ready| == |s.user| == MAX_TRANSFERS
    && (forall i: nat | i < MAX_TRANSFERS && !s.ready[i] :: OccupiedBy(s, i, s.user[i]))
    && (forall i: nat, t | i < MAX_TRANSFERS && OccupiedBy(s, i, t) :: !s.ready[i] && s.user[i] == t)
  }

  /** subscribers counts the registered threads; nobody registers after the broadcast. */
  ghost predicate MembersInv(s: State) {
    && (forall e: nat, t | e < |s.entries| :: t in s.entries[e].members <==> IsRegistered(s, t, e))
    && (forall e: nat | e < |s.entries| :: s.entries[e].subscribers == |s.entries[e].members|)
    && (forall e: nat, t | e < |s.entries| && IsBeforeWake(s, t, e) :: !s.entries[e].broadcast)
    && (forall e: nat, t | e < |s.entries| && IsAfterWake(s, t, e) :: s.entries[e].broadcast)
  }

  /** A download is marked as cached before anybody is told that it is there. */
  ghost predicate CachedInv(s: State) {
    && (forall e: nat | e < |s.entries| && Progress(s, e) >= 15 ::
          s.entries[e].fileId in s.files && s.files[s.entries[e].fileId])
    && (forall t <- s.threads | s.threads[t].Client? && s.threads[t].cpc == CDone(Ok) && s.threads[t].file != 0 ::
          s.threads[t].file in s.files && s.files[s.threads[t].file])
  }

  /** The acknowledgement of the last unsubscriber, as the threads see it. */
  ghost predicate AckInv(s: State) {
    && AckedInv(s)
    && (forall e: nat, t | e < |s.entries| && IsAcknowledging(s, t, e) ::
          t == s.entries[e].last && s.entries[e].members == {} && s.entries[e].broadcast)
    && (forall e: nat, t | e < |s.entries| && s.entries[e].acked :: !IsYetToSignal(s, t, e))
    && (forall e: nat, t | e < |s.entries| && s.entries[e].acked && Progress(s, e) >= 26 :: !IsAcknowledging(s, t, e))
  }

  /** The same, as the subscriptions see it. */
  ghost predicate AckedInv(s: State) {
    && (forall e: nat | e < |s.entries| && 23 <= Progress(s, e) <= 24 && s.entries[e].members == {} ::
          IsYetToSignal(s, s.entries[e].last, e))
    && (forall e: nat | e < |s.entries| && Progress(s, e) >= 25 :: s.entries[e].members == {})
    && (forall e: nat | e < |s.entries| && s.entries[e].acked :: Progress(s, e) >= 25)
    && (forall e: nat | e < |s.entries| && Progress(s, e) == 25 :: s.entries[e].acked)
  }

  /** What the manager has found out so far. */
  predicate Knows(s: State, pc: ManagerPc) {
    && (ManagerSlot(pc).Some? && ManagerSlot(pc).value < |s.ready| ==> s.ready[ManagerSlot(pc).value])
    && (pc.MPick? ==> !SomePending(s.transfers))
    && (pc.MSleep? ==> !HasWork(s))
  }

  ghost predicate SignalPending(s: State) {
    MainLock in s.locks && s.locks[MainLock] in s.threads && AboutToSignal(s.threads[s.locks[MainLock]])
  }

  /** The manager sleeps only while there is no work, or a thread is about to signal it. */
  ghost predicate ManagerInv(s: State) {
    && MANAGER in s.threads && s.threads[MANAGER].Manager?
    && Knows(s, s.threads[MANAGER].mpc)
    && (s.threads[MANAGER].mpc.MAsleep? && HasWork(s) ==> SignalPending(s))
  }

  /** No upload has been asked for, and every client has a row in the users table. */
  ghost predicate DownloadsOnly(s: State) {
    forall t <- s.threads ::
      && !s.threads[t].Putter?
      && !s.threads[t].Uploader?
      && (s.threads[t].Client? ==> s.threads[t].registered)
  }

  ghost predicate IsQueued(s: State, f: FileId) {
    exists e: nat :: e < |s.entries| && Progress(s, e) <= 10 && s.entries[e].fileId == f
  }

  /** The row for f is in the table, but its subscription is not yet, or not any more, in the queue. */
  predicate Carries(entries: seq<Entry>, th: Thread, f: FileId) {
    match th
    case Client(pc, g, _) => pc.CPush? && f == g
    case Downloader(pc, _, e) => 11 <= Stage(pc) <= 12 && e < |entries| && f == entries[e].fileId
    case _ => false
  }

  predicate InTransit(s: State, t: Tid, f: FileId) {
    t in s.threads && Carries(s.entries, s.threads[t], f)
  }

  ghost predicate SomeTransit(s: State, f: FileId) {
    exists t :: InTransit(s, t, f)
  }

  /** The rows of the transfers table, while there are only downloads. */
  ghost predicate RowsInv(s: State) {
    && (forall t, f | InTransit(s, t, f) :: !IsQueued(s, f))
    && (DownloadsOnly(s) ==>
          && (forall f :: f in s.transfers <==> IsQueued(s, f) || SomeTransit(s, f))
          && (forall f <- s.transfers :: s.transfers[f].Download?)
          && MANAGER in s.threads && s.threads[MANAGER].Manager?
          && !s.threads[MANAGER].mpc.MStartUpload?)
  }

  ghost predicate Inv(s: State) {
    && LocksInv(s)
    && ShapeInv(s)
    && RunnerInv(s)
    && FlagsInv(s)
    && QueueInv(s)
    && SlotsInv(s)
    && MembersInv(s)
    && CachedInv(s)
    && AckInv(s)
    && ManagerInv(s)
    && RowsInv(s)
  }
}
