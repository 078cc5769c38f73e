/**
 The transfer queue of the file cache server as a transition system.

 Every thread of src/downloadqueue.c (and the request handler of
 src/filecache.c that calls it) is a program: from a program counter it makes
 one call and moves on.  A call is one synchronisation point of the C code
 with the code up to the next one: taking a mutex, giving one back, waiting on
 a condition variable, signalling one, or one database query.  Does() is the
 text of the programs, Allowed() says when a call can return, and with what
 answer, and the ...After() functions say what a call does to each part of
 the shared state.  A run of the system is an interleaving of the threads.

 Condition variables wake only when they are signalled, and the one-minute
 timeout of the acknowledgement does not fire.
 */
module TransferSystem {
  import opened Wrappers

  type Tid = nat     // a thread
  type Eid = nat     // a DownloadSubscription, numbered in order of creation
  type FileId = nat  // row id in the files table; 0 means "not found"

  const MAX_TRANSFERS := 3
  const MANAGER: Tid := 0

  /** The mutexes: mainLoop_mutex, the two of a subscription, and cacheDatabase_mutex. */
  datatype Lock = MainLock | AckLock(ackOf: Eid) | WaitLock(waitOf: Eid) | DbLock

  datatype Answer = Ok | Error

  /** ClientRequestsDownload, with ReceiveDownload and UnsubscribeFromDownload inlined. */
  datatype ClientPc =
    | CFind | CFindDb       // FindFile
    | CCheck | CCheckDb     // Query_IsFileCached
    | CEnter                // lock mainLoop_mutex
    | CSearch               // search the queue; subscribe if the file is queued
    | CAddRow | CAddRowDb   // Query_AddDownload
    | CPush                 // create the subscription and queue it
    | CLockWait(e: Eid)     // lock waitMutex
    | CSignal(e: Eid)       // signal mainLoop_cond
    | CUnlockMain(e: Eid)
    | CSleep(e: Eid)        // wait on waitCond
    | CAsleep(e: Eid)
    | CWoken(e: Eid)        // lock waitMutex again
    | CUnlockWait(e: Eid)
    | CLeave(e: Eid)        // lock mainLoop_mutex
    | CDecrement(e: Eid)    // one subscriber less
    | CLockAck(e: Eid)      // the last subscriber: lock acknowledgeMutex
    | CSignalAck(e: Eid)    // signal acknowledgeCond
    | CUnlockAck(e: Eid)
    | CLeaveMain(e: Eid)    // unlock mainLoop_mutex
    | CDone(answer: Answer)

  /** ProcessTransferQueues, after its initialisation of the transfer slots. */
  datatype ManagerPc =
    | MLock                           // lock mainLoop_mutex
    | MScan                           // FindAvailableTransferer
    | MUpload(i: nat) | MUploadDb(i: nat)  // Query_FindPendingUpload
    | MStartUpload(i: nat, f: FileId)
    | MPick(i: nat)                   // GetSubscriptionFromDownloadQueue, start the download
    | MSleep                          // wait on mainLoop_cond
    | MAsleep
    | MWoken                          // lock mainLoop_mutex again
    | MUnlock

  /** BeginDownload. */
  datatype DownloaderPc =
    | DLock1 | DQuery1 | DQuery1Db | DUnlock1   // Query_GetDownload under mainLoop_mutex
    | DTransfer                                 // the HTTP transfer
    | DFailed                                   // it failed: the thread ends
    | DLock2 | DQuery2 | DQuery2Db | DUnlock2   // Query_GetOwners under mainLoop_mutex
    | DPublish                                  // MoveToSharedCache, lock mainLoop_mutex
    | DRemove                                   // g_queue_remove
    | DDelRow | DDelRowDb                       // Query_DeleteTransfer
    | DMark | DMarkDb                           // Query_MarkFileAsCached
    | DReady                                    // isReady = true
    | DLockAck | DLockWait
    | DBroadcast                                // downloadActive = false, broadcast waitCond
    | DSignal                                   // signal mainLoop_cond
    | DUnlockMain | DUnlockWait
    | DRead                                     // read subscribers, without mainLoop_mutex
    | DSleep                                    // wait on acknowledgeCond
    | DAsleep
    | DWoken                                    // lock acknowledgeMutex again
    | DUnlockAck
    | DFree                                     // free( subscription )
    | DDone

  /** BeginUpload. */
  datatype UploaderPc =
    | UQuery | UQueryDb       // Query_GetUpload
    | UWork | UAsk | UAskDb   // the transfer and its own database queries
    | ULost                   // it failed or found nothing to do: the thread ends
    | ULock
    | UDelRow | UDelRowDb     // Query_DeleteUploadTransfer
    | UReady | USignal | UUnlock | UDone

  /** PutUpload. */
  datatype PutterPc =
    | PLock
    | PFind | PFindDb         // FindFile
    | PAdd | PAddDb           // Query_AddUpload
    | PParts | PPartsDb       // Query_CreateMultiparts
    | PSignal | PUnlock | PDone

  /** A thread; registered says that its user has a row in the users table. */
  datatype Thread =
    | Client(cpc: ClientPc, file: FileId, registered: bool)
    | Manager(mpc: ManagerPc)
    | Downloader(dpc: DownloaderPc, slot: nat, entry: Eid)
    | Uploader(upc: UploaderPc, uslot: nat, ufile: FileId)
    | Putter(ppc: PutterPc, pfile: FileId, owned: bool)

  /**
   struct DownloadSubscription.  The fields after subscribers are history: calls
   record them, and only the properties read them.
   */
  datatype Entry = Entry(
    fileId: FileId,
    active: bool,
    subscribers: int,
    members: set<Tid>,  // the threads counted in subscribers
    runner: Tid,        // the downloader, once started
    last: Tid,          // the thread that took subscribers to zero
    broadcast: bool,    // waitCond has been broadcast
    acked: bool,        // the downloader was woken by the last unsubscriber
    freed: bool)

  /** A row of the transfers table; parts counts its rows in transferparts. */
  datatype Row = Download | Upload(parts: nat)

  /** starts and user are history, like the last fields of Entry. */
  datatype State = State(
    locks: map<Lock, Tid>,        // the mutexes that are held, and by whom
    threads: map<Tid, Thread>,
    entries: seq<Entry>,
    queue: seq<Eid>,              // downloadQueue
    ready: seq<bool>,             // transferers[ ].isReady
    transfers: map<FileId, Row>,
    files: map<FileId, bool>,     // the files table: iscached
    starts: nat,                  // downloads started so far
    user: seq<Tid>)               // the thread each slot was last given to

  /** What a thread asks of the shared state, with the answer it gets. */
  datatype Call =
    | Take(l: Lock)                          // pthread_mutex_lock
    | Give(l: Lock)                          // pthread_mutex_unlock
    | FindFile(f: FileId)                    // returns f
    | IsCached(f: FileId, cached: bool)
    | Search(f: FileId, found: Option<Eid>)  // look for f in the queue; subscribe if found
    | AddDownload(f: FileId, known: bool)
    | Enqueue(f: FileId, e: Eid)
    | SignalMain
    | WaitMain
    | WaitDone(e: Eid)                       // wait on waitCond
    | Unsubscribe(e: Eid, left: int)
    | SignalAck(e: Eid, woken: Option<Tid>)
    | FindSlot(free: Option<nat>)
    | FindUpload(pending: Option<FileId>)
    | StartUpload(i: nat, f: FileId, u: Tid)
    | NoDownload
    | StartDownload(i: nat, e: Eid, d: Tid)
    | Transfer(good: bool)
    | Remove(e: Eid)
    | DeleteTransfer(e: Eid)
    | MarkCached(e: Eid)
    | SetReady(i: nat)
    | Broadcast(e: Eid)
    | ReadCount(e: Eid, n: int)
    | WaitAck(e: Eid)
    | FreeEntry(e: Eid)
    | GetUpload(f: FileId, more: bool)
    | DeleteUpload(f: FileId)
    | AddUpload(f: FileId, known: bool)
    | CreateMultiparts(f: FileId, parts: nat)

  // ----- The programs -----

  /** From th, the thread can make call c and continue as th'. */
  predicate Does(th: Thread, c: Call, th': Thread) {
    match th
    case Client(pc, f, r) => ClientDoes(pc, f, r, c, th')
    case Manager(pc) => ManagerDoes(pc, c, th')
    case Downloader(pc, i, e) => DownloaderDoes(pc, i, e, c, th')
    case Uploader(pc, i, f) => UploaderDoes(pc, i, f, c, th')
    case Putter(pc, f, k) => PutterDoes(pc, f, k, c, th')
  }

  predicate ClientDoes(pc: ClientPc, f: FileId, r: bool, c: Call, th': Thread) {
    match pc
    case CFind => c == Take(DbLock) && th' == Client(CFindDb, f, r)
    case CFindDb => c.FindFile? && th' == Client(CCheck, c.f, r)
    case CCheck => c == Take(DbLock) && th' == Client(CCheckDb, f, r)
    case CCheckDb =>
      && c.IsCached? && c.f == f
      && th' == Client(if c.cached then CDone(Ok) else if 0 < f then CEnter else CDone(Error), f, r)
    case CEnter => c == Take(MainLock) && th' == Client(CSearch, f, r)
    case CSearch =>
      && c.Search? && c.f == f
      && th' == Client(if c.found.Some? then CLockWait(c.found.value) else CAddRow, f, r)
    case CAddRow => c == Take(DbLock) && th' == Client(CAddRowDb, f, r)
    case CAddRowDb => c == AddDownload(f, r) && th' == Client(CPush, f, r)
    case CPush => c.Enqueue? && c.f == f && th' == Client(CLockWait(c.e), f, r)
    case CLockWait(e) => c == Take(WaitLock(e)) && th' == Client(CSignal(e), f, r)
    case CSignal(e) => c == SignalMain && th' == Client(CUnlockMain(e), f, r)
    case CUnlockMain(e) => c == Give(MainLock) && th' == Client(CSleep(e), f, r)
    case CSleep(e) => c == WaitDone(e) && th' == Client(CAsleep(e), f, r)
    case CAsleep(_) => false
    case CWoken(e) => c == Take(WaitLock(e)) && th' == Client(CUnlockWait(e), f, r)
    case CUnlockWait(e) => c == Give(WaitLock(e)) && th' == Client(CLeave(e), f, r)
    case CLeave(e) => c == Take(MainLock) && th' == Client(CDecrement(e), f, r)
    case CDecrement(e) =>
      && c.Unsubscribe? && c.e == e
      && th' == Client(if c.left == 0 then CLockAck(e) else CLeaveMain(e), f, r)
    case CLockAck(e) => c == Take(AckLock(e)) && th' == Client(CSignalAck(e), f, r)
    case CSignalAck(e) => c.SignalAck? && c.e == e && th' == Client(CUnlockAck(e), f, r)
    case CUnlockAck(e) => c == Give(AckLock(e)) && th' == Client(CLeaveMain(e), f, r)
    case CLeaveMain(_) => c == Give(MainLock) && th' == Client(CDone(Ok), f, r)
    case CDone(_) => false
  }

  predicate ManagerDoes(pc: ManagerPc, c: Call, th': Thread) {
    match pc
    case MLock => c == Take(MainLock) && th' == Manager(MScan)
    case MScan => c.FindSlot? && th' == Manager(if c.free.Some? then MUpload(c.free.value) else MSleep)
    case MUpload(i) => c == Take(DbLock) && th' == Manager(MUploadDb(i))
    case MUploadDb(i) =>
      c.FindUpload? && th' == Manager(if c.pending.Some? then MStartUpload(i, c.pending.value) else MPick(i))
    case MStartUpload(i, f) => c.StartUpload? && c.i == i && c.f == f && th' == Manager(MScan)
    case MPick(i) =>
      || (c == NoDownload && th' == Manager(MSleep))
      || (c.StartDownload? && c.i == i && th' == Manager(MScan))
    case MSleep => c == WaitMain && th' == Manager(MAsleep)
    case MAsleep => false
    case MWoken => c == Take(MainLock) && th' == Manager(MUnlock)
    case MUnlock => c == Give(MainLock) && th' == Manager(MLock)
  }

  predicate DownloaderDoes(pc: DownloaderPc, i: nat, e: Eid, c: Call, th': Thread) {
    match pc
    case DLock1 => c == Take(MainLock) && th' == Downloader(DQuery1, i, e)
    case DQuery1 => c == Take(DbLock) && th' == Downloader(DQuery1Db, i, e)
    case DQuery1Db => c == Give(DbLock) && th' == Downloader(DUnlock1, i, e)
    case DUnlock1 => c == Give(MainLock) && th' == Downloader(DTransfer, i, e)
    case DTransfer => c.Transfer? && th' == Downloader(if c.good then DLock2 else DFailed, i, e)
    case DFailed => false
    case DLock2 => c == Take(MainLock) && th' == Downloader(DQuery2, i, e)
    case DQuery2 => c == Take(DbLock) && th' == Downloader(DQuery2Db, i, e)
    case DQuery2Db => c == Give(DbLock) && th' == Downloader(DUnlock2, i, e)
    case DUnlock2 => c == Give(MainLock) && th' == Downloader(DPublish, i, e)
    case DPublish => c == Take(MainLock) && th' == Downloader(DRemove, i, e)
    case DRemove => c == Remove(e) && th' == Downloader(DDelRow, i, e)
    case DDelRow => c == Take(DbLock) && th' == Downloader(DDelRowDb, i, e)
    case DDelRowDb => c == DeleteTransfer(e) && th' == Downloader(DMark, i, e)
    case DMark => c == Take(DbLock) && th' == Downloader(DMarkDb, i, e)
    case DMarkDb => c == MarkCached(e) && th' == Downloader(DReady, i, e)
    case DReady => c == SetReady(i) && th' == Downloader(DLockAck, i, e)
    case DLockAck => c == Take(AckLock(e)) && th' == Downloader(DLockWait, i, e)
    case DLockWait => c == Take(WaitLock(e)) && th' == Downloader(DBroadcast, i, e)
    case DBroadcast => c == Broadcast(e) && th' == Downloader(DSignal, i, e)
    case DSignal => c == SignalMain && th' == Downloader(DUnlockMain, i, e)
    case DUnlockMain => c == Give(MainLock) && th' == Downloader(DUnlockWait, i, e)
    case DUnlockWait => c == Give(WaitLock(e)) && th' == Downloader(DRead, i, e)
    case DRead => c.ReadCount? && c.e == e && th' == Downloader(if c.n != 0 then DSleep else DUnlockAck, i, e)
    case DSleep => c == WaitAck(e) && th' == Downloader(DAsleep, i, e)
    case DAsleep => false
    case DWoken => c == Take(AckLock(e)) && th' == Downloader(DUnlockAck, i, e)
    case DUnlockAck => c == Give(AckLock(e)) && th' == Downloader(DFree, i, e)
    case DFree => c == FreeEntry(e) && th' == Downloader(DDone, i, e)
    case DDone => false
  }

  predicate UploaderDoes(pc: UploaderPc, i: nat, f: FileId, c: Call, th': Thread) {
    match pc
    case UQuery => c == Take(DbLock) && th' == Uploader(UQueryDb, i, f)
    case UQueryDb => c.GetUpload? && c.f == f && th' == Uploader(if c.more then UWork else ULost, i, f)
    case UWork =>
      || (c == Transfer(true) && (th' == Uploader(ULock, i, f) || th' == Uploader(UAsk, i, f)))
      || (c == Transfer(false) && th' == Uploader(ULost, i, f))
    case UAsk => c == Take(DbLock) && th' == Uploader(UAskDb, i, f)
    case UAskDb => c == Give(DbLock) && th' == Uploader(UWork, i, f)
    case ULost => false
    case ULock => c == Take(MainLock) && th' == Uploader(UDelRow, i, f)
    case UDelRow => c == Take(DbLock) && th' == Uploader(UDelRowDb, i, f)
    case UDelRowDb => c == DeleteUpload(f) && th' == Uploader(UReady, i, f)
    case UReady => c == SetReady(i) && th' == Uploader(USignal, i, f)
    case USignal => c == SignalMain && th' == Uploader(UUnlock, i, f)
    case UUnlock => c == Give(MainLock) && th' == Uploader(UDone, i, f)
    case UDone => false
  }

  predicate PutterDoes(pc: PutterPc, f: FileId, k: bool, c: Call, th': Thread) {
    match pc
    case PLock => c == Take(MainLock) && th' == Putter(PFind, f, k)
    case PFind => c == Take(DbLock) && th' == Putter(PFindDb, f, k)
    case PFindDb => c.FindFile? && th' == Putter(PAdd, c.f, k)
    case PAdd => c == Take(DbLock) && th' == Putter(PAddDb, f, k)
    case PAddDb => c == AddUpload(f, k) && th' == Putter(PParts, f, k)
    case PParts => c == Take(DbLock) && th' == Putter(PPartsDb, f, k)
    case PPartsDb => c.CreateMultiparts? && c.f == f && th' == Putter(PSignal, f, k)
    case PSignal => c == SignalMain && th' == Putter(PUnlock, f, k)
    case PUnlock => c == Give(MainLock) && th' == Putter(PDone, f, k)
    case PDone => false
  }

  // ----- The shared state -----

  /** g_queue_find_custom with FindInDownloadQueue: the first entry for the file. */
  function FindInQueue(queue: seq<Eid>, entries: seq<Entry>, f: FileId): Option<Eid> {
    if queue == [] then None
    else if queue[0] < |entries| && entries[queue[0]].fileId == f then Some(queue[0])
    else FindInQueue(queue[1..], entries, f)
  }

  /** GetSubscriptionFromDownloadQueue: the first entry that is not being downloaded. */
  function FirstInactive(queue: seq<Eid>, entries: seq<Entry>): Option<Eid> {
    if queue == [] then None
    else if queue[0] < |entries| && !entries[queue[0]].active then Some(queue[0])
    else FirstInactive(queue[1..], entries)
  }

  /** FindAvailableTransferer: the first free slot. */
  function FirstReady(ready: seq<bool>): Option<nat> {
    if ready == [] then None
    else if ready[0] then Some(0)
    else match FirstReady(ready[1..])
      case None => None
      case Some(i) => Some(i + 1)
  }

  /** g_queue_remove: drop the first link with this data. */
  function RemoveFirst(queue: seq<Eid>, e: Eid): seq<Eid> {
    if queue == [] then []
    else if queue[0] == e then queue[1..]
    else [queue[0]] + RemoveFirst(queue[1..], e)
  }

  /** What Query_FindPendingUpload can return: an upload with a part that is not completed. */
  predicate IsPending(transfers: map<FileId, Row>, f: FileId) {
    f in transfers && transfers[f].Upload? && transfers[f].parts > 0
  }

  /** The downloader of e is waiting for the acknowledgement. */
  predicate WaitsForAck(threads: map<Tid, Thread>, u: Tid, e: Eid) {
    u in threads && threads[u].Downloader? && threads[u].entry == e && threads[u].dpc.DAsleep?
  }

  /** The call can return now, with this answer. */
  predicate Allowed(s: State, c: Call) {
    match c
    case Take(l) => l !in s.locks
    case FindFile(f) => f == 0 || f in s.files
    case IsCached(f, cached) =>
      // Without a row for the file, the code returns an uninitialised flag.
      f in s.files ==> cached == s.files[f]
    case Search(f, found) => found == FindInQueue(s.queue, s.entries, f)
    case Enqueue(_, e) => e == |s.entries|
    case Unsubscribe(e, left) =>
      && e < |s.entries|
      && left == s.entries[e].subscribers - 1
    case SignalAck(e, woken) =>
      if woken.Some? then WaitsForAck(s.threads, woken.value, e)
      else forall u <- s.threads :: !WaitsForAck(s.threads, u, e)
    case FindSlot(free) => free == FirstReady(s.ready)
    case FindUpload(pending) =>
      if pending.Some? then IsPending(s.transfers, pending.value)
      else forall f <- s.transfers :: !IsPending(s.transfers, f)
    case StartUpload(_, _, u) => u !in s.threads
    case NoDownload => FirstInactive(s.queue, s.entries) == None
    case StartDownload(_, e, d) => d !in s.threads && FirstInactive(s.queue, s.entries) == Some(e)
    case ReadCount(e, n) => e < |s.entries| && n == s.entries[e].subscribers
    case GetUpload(f, more) => more == IsPending(s.transfers, f)
    case _ => true
  }

  /** The mutex that a call gives back: a query its database lock, a wait its own mutex. */
  function Frees(c: Call): Option<Lock> {
    match c
    case Give(l) => Some(l)
    case FindFile(_) => Some(DbLock)
    case IsCached(_, _) => Some(DbLock)
    case AddDownload(_, _) => Some(DbLock)
    case WaitMain => Some(MainLock)
    case WaitDone(e) => Some(WaitLock(e))
    case FindUpload(_) => Some(DbLock)
    case DeleteTransfer(_) => Some(DbLock)
    case MarkCached(_) => Some(DbLock)
    case WaitAck(e) => Some(AckLock(e))
    case GetUpload(_, _) => Some(DbLock)
    case DeleteUpload(_) => Some(DbLock)
    case AddUpload(_, _) => Some(DbLock)
    case CreateMultiparts(_, _) => Some(DbLock)
    case _ => None
  }

  function LocksAfter(s: State, t: Tid, c: Call): map<Lock, Tid> {
    if c.Take? then s.locks[c.l := t]
    else if Frees(c).Some? then s.locks - {Frees(c).value}
    else s.locks
  }

  /** What a call does to another thread: signals and broadcasts wake those that wait. */
  function Woken(c: Call, u: Tid, th: Thread): Thread {
    match c
    case SignalMain => if th == Manager(MAsleep) then Manager(MWoken) else th
    case SignalAck(e, woken) => if woken == Some(u) && th.Downloader? then th.(dpc := DWoken) else th
    case Broadcast(e) => if th.Client? && th.cpc == CAsleep(e) then th.(cpc := CWoken(e)) else th
    case _ => th
  }

  /** The thread that a call creates. */
  function Created(c: Call): Option<(Tid, Thread)> {
    match c
    case StartUpload(i, f, u) => Some((u, Uploader(UQuery, i, f)))
    case StartDownload(i, e, d) => Some((d, Downloader(DLock1, i, e)))
    case _ => None
  }

  function ThreadsAfter(s: State, t: Tid, c: Call, th': Thread): map<Tid, Thread> {
    var woken := (map u | u in s.threads :: Woken(c, u, s.threads[u]))[t := th'];
    if Created(c).Some? then woken[Created(c).value.0 := Created(c).value.1] else woken
  }

  function EntryAfter(entry: Entry, t: Tid, c: Call): Entry {
    match c
    case Search(_, _) => entry.(subscribers := entry.subscribers + 1, members := entry.members + {t})
    case Unsubscribe(_, left) =>
      // A count that is already zero is left alone, and nobody is told.
      if entry.subscribers == 0 then entry
      else entry.(
        subscribers := left,
        members := entry.members - {t},
        last := if left == 0 then t else entry.last)
    case SignalAck(_, woken) => entry.(acked := entry.acked || woken.Some?)
    case StartDownload(_, _, d) => entry.(active := true, runner := d)
    case Broadcast(_) => entry.(active := false, broadcast := true)
    case FreeEntry(_) => entry.(freed := true)
    case _ => entry
  }

  /** The subscription that a call writes to. */
  function Touches(c: Call): Option<Eid> {
    match c
    case Search(_, found) => found
    case Unsubscribe(e, _) => Some(e)
    case SignalAck(e, _) => Some(e)
    case StartDownload(_, e, _) => Some(e)
    case Broadcast(e) => Some(e)
    case FreeEntry(e) => Some(e)
    case _ => None
  }

  function EntriesAfter(s: State, t: Tid, c: Call): seq<Entry> {
    if c.Enqueue? then s.entries + [Entry(c.f, false, 1, {t}, 0, 0, false, false, false)]
    else match Touches(c)
      case Some(e) => if e < |s.entries| then s.entries[e := EntryAfter(s.entries[e], t, c)] else s.entries
      case None => s.entries
  }

  function QueueAfter(s: State, c: Call): seq<Eid> {
    match c
    case Enqueue(_, e) => s.queue + [e]
    case Remove(e) => RemoveFirst(s.queue, e)
    case _ => s.queue
  }

  function ReadyAfter(ready: seq<bool>, c: Call): seq<bool> {
    match c
    case StartUpload(i, _, _) => if i < |ready| then ready[i := false] else ready
    case StartDownload(i, _, _) => if i < |ready| then ready[i := false] else ready
    case SetReady(i) => if i < |ready| then ready[i := true] else ready
    case _ => ready
  }

  function UserAfter(user: seq<Tid>, c: Call): seq<Tid> {
    match c
    case StartUpload(i, _, u) => if i < |user| then user[i := u] else user
    case StartDownload(i, _, d) => if i < |user| then user[i := d] else user
    case _ => user
  }

  /** The file column is unique, and an insertion needs a known file and a known owner. */
  function TransfersAfter(s: State, c: Call): map<FileId, Row> {
    match c
    case AddDownload(f, known) =>
      if known && f in s.files && f !in s.transfers then s.transfers[f := Download] else s.transfers
    case AddUpload(f, known) =>
      if known && f in s.files && f !in s.transfers then s.transfers[f := Upload(0)] else s.transfers
    case CreateMultiparts(f, parts) =>
      if f in s.transfers && s.transfers[f].Upload?
      then s.transfers[f := Upload(s.transfers[f].parts + parts)] else s.transfers
    case DeleteTransfer(e) => if e < |s.entries| then s.transfers - {s.entries[e].fileId} else s.transfers
    case DeleteUpload(f) => s.transfers - {f}
    case _ => s.transfers
  }

  function FilesAfter(s: State, c: Call): map<FileId, bool> {
    match c
    case MarkCached(e) =>
      if e < |s.entries| && s.entries[e].fileId in s.files then s.files[s.entries[e].fileId := true] else s.files
    case _ => s.files
  }

  function After(s: State, t: Tid, c: Call, th': Thread): State {
    State(
      LocksAfter(s, t, c),
      ThreadsAfter(s, t, c, th'),
      EntriesAfter(s, t, c),
      QueueAfter(s, c),
      ReadyAfter(s.ready, c),
      TransfersAfter(s, c),
      FilesAfter(s, c),
      if c.StartDownload? then s.starts + 1 else s.starts,
      UserAfter(s.user, c))
  }

  // ----- Runs -----

  /** Thread t makes call c and continues as th'. */
  predicate CallStep(s: State, t: Tid, c: Call, th': Thread, s': State) {
    && t in s.threads
    && Does(s.threads[t], c, th')
    && Allowed(s, c)
    && s' == After(s, t, c, th')
  }

  /** A client asks for a download or an upload, or a file becomes known (Query_CreateLocalFile). */
  predicate ArrivalStep(s: State, t: Tid, th: Thread, s': State) {
    && t !in s.threads
    && ((th.Client? && th == Client(CFind, 0, th.registered)) || (th.Putter? && th == Putter(PLock, 0, th.owned)))
    && s' == s.(threads := s.threads[t := th])
  }

  predicate NewFileStep(s: State, f: FileId, s': State) {
    f != 0 && f !in s.files && s' == s.(files := s.files[f := false])
  }

  ghost predicate Next(s: State, s': State) {
    || (exists t, c, th' :: CallStep(s, t, c, th', s'))
    || (exists t, th :: ArrivalStep(s, t, th, s'))
    || (exists f :: NewFileStep(s, f, s'))
  }

  /** The manager has marked all slots ready; no request has arrived yet. */
  predicate Init(s: State) {
    && s.locks == map[]
    && s.threads == map[MANAGER := Manager(MLock)]
    && s.entries == [] && s.queue == []
    && s.ready == [true, true, true]
    && s.transfers == map[]
    && 0 !in s.files
    && s.starts == 0
    && |s.user| == MAX_TRANSFERS
  }

  ghost predicate StepAt(run: seq<State>, i: nat) {
    0 < i < |run| && Next(run[i - 1], run[i])
  }

  ghost predicate IsRun(run: seq<State>) {
    && run != []
    && Init(run[0])
    && forall i | 0 < i < |run| :: StepAt(run, i)
  }
}
