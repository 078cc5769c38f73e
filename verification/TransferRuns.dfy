/**
 Two runs of the transfer queue with one client and one file: in one the
 transfer fails, in the other it ends well.  They share their beginning.
 */
module TransferRuns {
  import opened Wrappers
  import opened TransferSystem

  const CLIENT: Tid := 1
  const DOWNLOADER: Tid := 2

  /** The threads of the runs; the downloader is created later. */
  function Threads(m: ManagerPc, c: ClientPc, d: Option<DownloaderPc>): map<Tid, Thread> {
    var two := map[MANAGER := Manager(m), CLIENT := Client(c, 1, true)];
    if d.Some? then two[DOWNLOADER := Downloader(d.value, 0, 0)] else two
  }

  /** What the threads are, and what they become when one of them moves. */
  lemma ThreadsAre(m: ManagerPc, c: ClientPc, d: Option<DownloaderPc>, m': ManagerPc, c': ClientPc, d': DownloaderPc)
    ensures var threads := Threads(m, c, d);
            && MANAGER in threads && threads[MANAGER] == Manager(m)
            && CLIENT in threads && threads[CLIENT] == Client(c, 1, true)
            && (d.Some? ==> DOWNLOADER in threads && threads[DOWNLOADER] == Downloader(d.value, 0, 0))
            && threads[MANAGER := Manager(m')] == Threads(m', c, d)
            && threads[CLIENT := Client(c', 1, true)] == Threads(m, c', d)
            && threads[DOWNLOADER := Downloader(d', 0, 0)] == Threads(m, c, Some(d'))
  {
  }

  /** The entry of the one file. */
  function Only(active: bool, subscribers: nat, broadcast: bool): Entry {
    var last := if subscribers == 0 then CLIENT else 0;
    Entry(1, active, subscribers, if subscribers == 0 then {} else {CLIENT},
          if active || broadcast then DOWNLOADER else 0, last, broadcast, false, false)
  }

  /** The state before the download is queued. */
  function Asking(c: ClientPc, locks: map<Lock, Tid>, rows: map<FileId, Row>): State {
    State(locks, Threads(MLock, c, None), [], [], [true, true, true], rows, map[1 := false], 0, [0, 0, 0])
  }

  /** The state while the download is queued, before it is started. */
  function Queued(m: ManagerPc, c: ClientPc, locks: map<Lock, Tid>): State {
    State(locks, Threads(m, c, None), [Only(false, 1, false)], [0], [true, true, true],
          map[1 := Download], map[1 := false], 0, [0, 0, 0])
  }

  /** The state while the downloader of the entry runs. */
  function Started(m: ManagerPc, c: ClientPc, d: DownloaderPc, locks: map<Lock, Tid>): State {
    State(locks, Threads(m, c, Some(d)), [Only(true, 1, false)], [0], [false, true, true],
          map[1 := Download], map[1 := false], 1, [DOWNLOADER, 0, 0])
  }

  ghost predicate Ends(run: seq<State>, s: State) {
    IsRun(run) && run[|run| - 1] == s
  }

  /** A run goes on with one call. */
  lemma Goes(run: seq<State>, s: State, t: Tid, c: Call, th': Thread, s': State) returns (longer: seq<State>)
    requires Ends(run, s) && t in s.threads && Does(s.threads[t], c, th') && Allowed(s, c)
    requires s' == After(s, t, c, th')
    ensures Ends(longer, s')
  {
    longer := run + [s'];
    assert CallStep(s, t, c, th', s');
    forall i | 0 < i < |longer| ensures StepAt(longer, i) {
      if i < |run| { assert StepAt(run, i); }
    }
    hide Does, Allowed, After, Init;
  }

  /** A call that wakes and creates nobody changes only its own thread. */
  lemma Alone(s: State, t: Tid, c: Call, th': Thread)
    requires t in s.threads && !c.SignalMain? && !c.SignalAck? && !c.Broadcast? && Created(c).None?
    ensures ThreadsAfter(s, t, c, th') == s.threads[t := th']
  {
  }

  lemma Takes(run: seq<State>, s: State, t: Tid, l: Lock, th': Thread) returns (longer: seq<State>, s': State)
    requires Ends(run, s) && t in s.threads && Does(s.threads[t], Take(l), th') && l !in s.locks
    ensures s' == s.(locks := s.locks[l := t], threads := s.threads[t := th']) && Ends(longer, s')
  {
    Alone(s, t, Take(l), th');
    s' := After(s, t, Take(l), th');
    hide Does, Ends, ThreadsAfter;
    longer := Goes(run, s, t, Take(l), th', s');
  }

  lemma Gives(run: seq<State>, s: State, t: Tid, l: Lock, th': Thread) returns (longer: seq<State>, s': State)
    requires Ends(run, s) && t in s.threads && Does(s.threads[t], Give(l), th')
    ensures s' == s.(locks := s.locks - {l}, threads := s.threads[t := th']) && Ends(longer, s')
  {
    Alone(s, t, Give(l), th');
    s' := After(s, t, Give(l), th');
    hide Does, Ends, ThreadsAfter;
    longer := Goes(run, s, t, Give(l), th', s');
  }

  /** A query that changes no table gives back the database mutex. */
  lemma Queries(run: seq<State>, s: State, t: Tid, c: Call, th': Thread) returns (longer: seq<State>, s': State)
    requires Ends(run, s) && t in s.threads && Does(s.threads[t], c, th') && Allowed(s, c)
    requires c.FindFile? || c.IsCached? || c.FindUpload? || c.GetUpload?
    ensures s' == s.(locks := s.locks - {DbLock}, threads := s.threads[t := th']) && Ends(longer, s')
  {
    Alone(s, t, c, th');
    s' := After(s, t, c, th');
    hide Does, Allowed, Ends, ThreadsAfter;
    longer := Goes(run, s, t, c, th', s');
  }

  /** A call that only looks at the state. */
  lemma Looks(run: seq<State>, s: State, t: Tid, c: Call, th': Thread) returns (longer: seq<State>, s': State)
    requires Ends(run, s) && t in s.threads && Does(s.threads[t], c, th') && Allowed(s, c)
    requires (c.Search? && c.found.None?) || c.FindSlot? || c.NoDownload? || c.Transfer? || c.ReadCount?
    ensures s' == s.(threads := s.threads[t := th']) && Ends(longer, s')
  {
    Alone(s, t, c, th');
    s' := After(s, t, c, th');
    hide Does, Allowed, Ends, ThreadsAfter;
    longer := Goes(run, s, t, c, th', s');
  }

  // ----- The common beginning -----

  function Found(): State {
    Asking(CCheck, map[], map[])
  }

  function Unqueued(): State {
    Asking(CAddRow, map[MainLock := CLIENT], map[])
  }

  function AddingRow(): State {
    Asking(CAddRowDb, map[MainLock := CLIENT, DbLock := CLIENT], map[])
  }

  function RowAdded(): State {
    Asking(CPush, map[MainLock := CLIENT], map[1 := Download])
  }

  function Subscribed(): State {
    Queued(MLock, CLockWait(0), map[MainLock := CLIENT])
  }

  function Signalling(): State {
    Queued(MLock, CSignal(0), map[MainLock := CLIENT, WaitLock(0) := CLIENT])
  }

  function Signalled(): State {
    Queued(MLock, CUnlockMain(0), map[MainLock := CLIENT, WaitLock(0) := CLIENT])
  }

  function Waiting(): State {
    Queued(MLock, CSleep(0), map[WaitLock(0) := CLIENT])
  }

  function Asleep(): State {
    Queued(MLock, CAsleep(0), map[])
  }

  function SlotFound(): State {
    Queued(MUpload(0), CAsleep(0), map[MainLock := MANAGER])
  }

  function Picked(): State {
    Queued(MPick(0), CAsleep(0), map[MainLock := MANAGER])
  }

  function Downloading(): State {
    Started(MScan, CAsleep(0), DLock1, map[MainLock := MANAGER])
  }

  function OtherSlotFound(): State {
    Started(MUploadDb(1), CAsleep(0), DLock1, map[MainLock := MANAGER, DbLock := MANAGER])
  }

  function NoUploadFound(): State {
    Started(MPick(1), CAsleep(0), DLock1, map[MainLock := MANAGER])
  }

  function NothingLeft(): State {
    Started(MSleep, CAsleep(0), DLock1, map[MainLock := MANAGER])
  }

  function ManagerAsleep(): State {
    Started(MAsleep, CAsleep(0), DLock1, map[])
  }

  function Querying(): State {
    Started(MAsleep, CAsleep(0), DQuery1Db, map[MainLock := DOWNLOADER, DbLock := DOWNLOADER])
  }

  function Transferring(): State {
    Started(MAsleep, CAsleep(0), DTransfer, map[])
  }

  function FileReceived(): State {
    Started(MAsleep, CAsleep(0), DQuery2, map[MainLock := DOWNLOADER])
  }

  lemma Asks() returns (run: seq<State>)
    ensures Ends(run, Found())
  {
    hide ManagerDoes, DownloaderDoes, UploaderDoes, PutterDoes;
    var none := State(map[], map[MANAGER := Manager(MLock)], [], [], [true, true, true], map[], map[], 0, [0, 0, 0]);
    var file := none.(files := map[1 := false]);
    var s := file.(threads := none.threads[CLIENT := Client(CFind, 0, true)]);
    assert NewFileStep(none, 1, file) && ArrivalStep(file, CLIENT, Client(CFind, 0, true), s);
    run := [none, file, s];
    assert StepAt(run, 1) && StepAt(run, 2);
    assert Ends(run, s);
    hide Ends;
    run, s := Takes(run, s, CLIENT, DbLock, Client(CFindDb, 0, true));
    run, s := Queries(run, s, CLIENT, FindFile(1), Client(CCheck, 1, true));
    assert s.threads == Threads(MLock, CCheck, None) && s.locks == map[];
  }

  lemma Enters(run: seq<State>) returns (longer: seq<State>)
    requires Ends(run, Found())
    ensures Ends(longer, Unqueued())
  {
    hide ManagerDoes, DownloaderDoes, UploaderDoes, PutterDoes, Ends;
    var s := Found();
    longer, s := Takes(run, s, CLIENT, DbLock, Client(CCheckDb, 1, true));
    longer, s := Queries(longer, s, CLIENT, IsCached(1, false), Client(CEnter, 1, true));
    longer, s := Takes(longer, s, CLIENT, MainLock, Client(CSearch, 1, true));
    longer, s := Looks(longer, s, CLIENT, Search(1, None), Client(CAddRow, 1, true));
    assert s.threads == Threads(MLock, CAddRow, None);
    assert s.locks == Unqueued().locks;
  }

  lemma OpensTable(run: seq<State>) returns (longer: seq<State>)
    requires Ends(run, Unqueued())
    ensures Ends(longer, AddingRow())
  {
    hide ManagerDoes, DownloaderDoes, UploaderDoes, PutterDoes, Ends;
    var s := Unqueued();
    longer, s := Takes(run, s, CLIENT, DbLock, Client(CAddRowDb, 1, true));
    assert s.threads == Threads(MLock, CAddRowDb, None);
    assert s.locks == AddingRow().locks;
  }

  lemma AddsRow(run: seq<State>) returns (longer: seq<State>)
    requires Ends(run, AddingRow())
    ensures Ends(longer, RowAdded())
  {
    hide ManagerDoes, DownloaderDoes, UploaderDoes, PutterDoes, Ends;
    var s, s' := AddingRow(), RowAdded();
    var c, th' := AddDownload(1, true), Client(CPush, 1, true);
    Alone(s, CLIENT, c, th');
    hide ThreadsAfter;
    assert ThreadsAfter(s, CLIENT, c, th') == s'.threads && LocksAfter(s, CLIENT, c) == s'.locks;
    longer := Goes(run, s, CLIENT, c, th', s');
  }

  lemma Enqueues(run: seq<State>) returns (longer: seq<State>)
    requires Ends(run, RowAdded())
    ensures Ends(longer, Subscribed())
  {
    hide ManagerDoes, DownloaderDoes, UploaderDoes, PutterDoes, Ends;
    var s, s' := RowAdded(), Subscribed();
    var c, th' := Enqueue(1, 0), Client(CLockWait(0), 1, true);
    Alone(s, CLIENT, c, th');
    hide ThreadsAfter;
    assert ThreadsAfter(s, CLIENT, c, th') == s'.threads && LocksAfter(s, CLIENT, c) == s'.locks;
    longer := Goes(run, s, CLIENT, c, th', s');
  }

  lemma LocksWait(run: seq<State>) returns (longer: seq<State>)
    requires Ends(run, Subscribed())
    ensures Ends(longer, Signalling())
  {
    hide ManagerDoes, DownloaderDoes, UploaderDoes, PutterDoes, Ends;
    var s := Subscribed();
    longer, s := Takes(run, s, CLIENT, WaitLock(0), Client(CSignal(0), 1, true));
    assert s.threads == Threads(MLock, CSignal(0), None);
    assert s.locks == Signalling().locks;
  }

  lemma Signals(run: seq<State>) returns (longer: seq<State>)
    requires Ends(run, Signalling())
    ensures Ends(longer, Signalled())
  {
    hide ManagerDoes, DownloaderDoes, UploaderDoes, PutterDoes, Ends;
    var s, s' := Signalling(), Signalled();
    var c, th' := SignalMain, Client(CUnlockMain(0), 1, true);
    assert ThreadsAfter(s, CLIENT, c, th') == s'.threads && LocksAfter(s, CLIENT, c) == s'.locks;
    longer := Goes(run, s, CLIENT, c, th', s');
  }

  lemma UnlocksMain(run: seq<State>) returns (longer: seq<State>)
    requires Ends(run, Signalled())
    ensures Ends(longer, Waiting())
  {
    hide ManagerDoes, DownloaderDoes, UploaderDoes, PutterDoes, Ends;
    var s := Signalled();
    longer, s := Gives(run, s, CLIENT, MainLock, Client(CSleep(0), 1, true));
    assert s.threads == Threads(MLock, CSleep(0), None);
    assert s.locks == Waiting().locks;
  }

  lemma FallsAsleep(run: seq<State>) returns (longer: seq<State>)
    requires Ends(run, Waiting())
    ensures Ends(longer, Asleep())
  {
    hide ManagerDoes, DownloaderDoes, UploaderDoes, PutterDoes, Ends;
    var s, s' := Waiting(), Asleep();
    var c, th' := WaitDone(0), Client(CAsleep(0), 1, true);
    Alone(s, CLIENT, c, th');
    hide ThreadsAfter;
    assert ThreadsAfter(s, CLIENT, c, th') == s'.threads && LocksAfter(s, CLIENT, c) == s'.locks;
    longer := Goes(run, s, CLIENT, c, th', s');
  }

  lemma Picks(run: seq<State>) returns (longer: seq<State>)
    requires Ends(run, Asleep())
    ensures Ends(longer, SlotFound())
  {
    hide ClientDoes, DownloaderDoes, UploaderDoes, PutterDoes, Ends;
    var s := Asleep();
    longer, s := Takes(run, s, MANAGER, MainLock, Manager(MScan));
    longer, s := Looks(longer, s, MANAGER, FindSlot(Some(0)), Manager(MUpload(0)));
    assert s.threads == Threads(MUpload(0), CAsleep(0), None);
    assert s.locks == SlotFound().locks;
  }

  lemma LooksForUpload(run: seq<State>) returns (longer: seq<State>)
    requires Ends(run, SlotFound())
    ensures Ends(longer, Picked())
  {
    hide ClientDoes, DownloaderDoes, UploaderDoes, PutterDoes, Ends;
    var s := SlotFound();
    longer, s := Takes(run, s, MANAGER, DbLock, Manager(MUploadDb(0)));
    longer, s := Queries(longer, s, MANAGER, FindUpload(None), Manager(MPick(0)));
    assert s.threads == Threads(MPick(0), CAsleep(0), None);
    assert s.locks == Picked().locks;
  }

  lemma StartThreads()
    ensures ThreadsAfter(Picked(), MANAGER, StartDownload(0, 0, DOWNLOADER), Manager(MScan)) == Downloading().threads
  {
  }

  lemma Starts(run: seq<State>) returns (longer: seq<State>)
    requires Ends(run, Picked())
    ensures Ends(longer, Downloading())
  {
    hide ClientDoes, DownloaderDoes, UploaderDoes, PutterDoes, Ends;
    var s, s' := Picked(), Downloading();
    var c, th' := StartDownload(0, 0, DOWNLOADER), Manager(MScan);
    StartThreads();
    hide ThreadsAfter;
    assert ThreadsAfter(s, MANAGER, c, th') == s'.threads && LocksAfter(s, MANAGER, c) == s'.locks;
    longer := Goes(run, s, MANAGER, c, th', s');
  }

  lemma PicksNothing(run: seq<State>) returns (longer: seq<State>)
    requires Ends(run, Downloading())
    ensures Ends(longer, OtherSlotFound())
  {
    hide ClientDoes, DownloaderDoes, UploaderDoes, PutterDoes, Ends, Threads;
    var s := Downloading();
    ThreadsAre(MScan, CAsleep(0), Some(DLock1), MUpload(1), CAsleep(0), DLock1);
    longer, s := Looks(run, s, MANAGER, FindSlot(Some(1)), Manager(MUpload(1)));
    ThreadsAre(MUpload(1), CAsleep(0), Some(DLock1), MUploadDb(1), CAsleep(0), DLock1);
    longer, s := Takes(longer, s, MANAGER, DbLock, Manager(MUploadDb(1)));
    assert s.locks == OtherSlotFound().locks;
  }

  lemma FindsNoUpload(run: seq<State>) returns (longer: seq<State>)
    requires Ends(run, OtherSlotFound())
    ensures Ends(longer, NoUploadFound())
  {
    hide ClientDoes, DownloaderDoes, UploaderDoes, PutterDoes, Ends;
    var s := OtherSlotFound();
    longer, s := Queries(run, s, MANAGER, FindUpload(None), Manager(MPick(1)));
    assert s.threads == Threads(MPick(1), CAsleep(0), Some(DLock1));
    assert s.locks == NoUploadFound().locks;
  }

  lemma FindsNothing(run: seq<State>) returns (longer: seq<State>)
    requires Ends(run, NoUploadFound())
    ensures Ends(longer, NothingLeft())
  {
    hide ClientDoes, DownloaderDoes, UploaderDoes, PutterDoes, Ends;
    var s := NoUploadFound();
    longer, s := Looks(run, s, MANAGER, NoDownload, Manager(MSleep));
    assert s.threads == Threads(MSleep, CAsleep(0), Some(DLock1));
  }

  lemma ManagerSleeps(run: seq<State>) returns (longer: seq<State>)
    requires Ends(run, NothingLeft())
    ensures Ends(longer, ManagerAsleep())
  {
    hide ClientDoes, DownloaderDoes, UploaderDoes, PutterDoes, Ends;
    var s, s' := NothingLeft(), ManagerAsleep();
    var c, th' := WaitMain, Manager(MAsleep);
    Alone(s, MANAGER, c, th');
    hide ThreadsAfter;
    assert ThreadsAfter(s, MANAGER, c, th') == s'.threads && LocksAfter(s, MANAGER, c) == s'.locks;
    longer := Goes(run, s, MANAGER, c, th', s');
  }

  lemma Prepares(run: seq<State>) returns (longer: seq<State>)
    requires Ends(run, ManagerAsleep())
    ensures Ends(longer, Querying())
  {
    hide ClientDoes, ManagerDoes, UploaderDoes, PutterDoes, Ends;
    var s := ManagerAsleep();
    longer, s := Takes(run, s, DOWNLOADER, MainLock, Downloader(DQuery1, 0, 0));
    longer, s := Takes(longer, s, DOWNLOADER, DbLock, Downloader(DQuery1Db, 0, 0));
    assert s.threads == Threads(MAsleep, CAsleep(0), Some(DQuery1Db));
    assert s.locks == Querying().locks;
  }

  lemma UnlocksForTransfer(run: seq<State>) returns (longer: seq<State>)
    requires Ends(run, Querying())
    ensures Ends(longer, Transferring())
  {
    hide ClientDoes, ManagerDoes, UploaderDoes, PutterDoes, Ends;
    var s := Querying();
    longer, s := Gives(run, s, DOWNLOADER, DbLock, Downloader(DUnlock1, 0, 0));
    longer, s := Gives(longer, s, DOWNLOADER, MainLock, Downloader(DTransfer, 0, 0));
    assert s.threads == Threads(MAsleep, CAsleep(0), Some(DTransfer));
    assert s.locks == Transferring().locks;
  }

  /** The client sleeps, and the downloader is about to transfer the file. */
  lemma ReachesTransfer() returns (run: seq<State>)
    ensures Ends(run, Transferring())
  {
    hide *;
    run := Asks();
    run := Enters(run);
    run := OpensTable(run);
    run := AddsRow(run);
    run := Enqueues(run);
    run := LocksWait(run);
    run := Signals(run);
    run := UnlocksMain(run);
    run := FallsAsleep(run);
    run := Picks(run);
    run := LooksForUpload(run);
    run := Starts(run);
    run := PicksNothing(run);
    run := FindsNoUpload(run);
    run := FindsNothing(run);
    run := ManagerSleeps(run);
    run := Prepares(run);
    run := UnlocksForTransfer(run);
  }

  // ----- The transfer ends well -----

  /** The state from the removal of the entry on. */
  function Published(m: ManagerPc, c: ClientPc, d: DownloaderPc, locks: map<Lock, Tid>, entry: Entry,
                     rows: map<FileId, Row>, cached: bool, ready: bool): State {
    State(locks, Threads(m, c, Some(d)), [entry], [], [ready, true, true],
          rows, map[1 := cached], 1, [DOWNLOADER, 0, 0])
  }

  /** The same, when the row is deleted and the file marked, and the slot is free. */
  function Finished(m: ManagerPc, c: ClientPc, d: DownloaderPc, locks: map<Lock, Tid>, entry: Entry): State {
    Published(m, c, d, locks, entry, map[], true, true)
  }

  function Transferred(): State {
    Started(MAsleep, CAsleep(0), DUnlock2, map[MainLock := DOWNLOADER])
  }

  function Removing(): State {
    Started(MAsleep, CAsleep(0), DRemove, map[MainLock := DOWNLOADER])
  }

  function Removed(): State {
    Published(MAsleep, CAsleep(0), DDelRow, map[MainLock := DOWNLOADER], Only(true, 1, false),
              map[1 := Download], false, false)
  }

  function DeletingRow(): State {
    Published(MAsleep, CAsleep(0), DDelRowDb, map[MainLock := DOWNLOADER, DbLock := DOWNLOADER],
              Only(true, 1, false), map[1 := Download], false, false)
  }

  function RowDeleted(): State {
    Published(MAsleep, CAsleep(0), DMark, map[MainLock := DOWNLOADER], Only(true, 1, false), map[], false, false)
  }

  function Marking(): State {
    Published(MAsleep, CAsleep(0), DMarkDb, map[MainLock := DOWNLOADER, DbLock := DOWNLOADER],
              Only(true, 1, false), map[], false, false)
  }

  function Marked(): State {
    Published(MAsleep, CAsleep(0), DReady, map[MainLock := DOWNLOADER], Only(true, 1, false), map[], true, false)
  }

  function SlotFreed(): State {
    Finished(MAsleep, CAsleep(0), DLockAck, map[MainLock := DOWNLOADER], Only(true, 1, false))
  }

  function Broadcasting(): State {
    Finished(MAsleep, CAsleep(0), DBroadcast, map[MainLock := DOWNLOADER, AckLock(0) := DOWNLOADER,
             WaitLock(0) := DOWNLOADER], Only(true, 1, false))
  }

  function Woke(): State {
    Finished(MAsleep, CWoken(0), DSignal, map[MainLock := DOWNLOADER, AckLock(0) := DOWNLOADER,
             WaitLock(0) := DOWNLOADER], Only(false, 1, true))
  }

  function ManagerWoken(): State {
    Finished(MWoken, CWoken(0), DUnlockMain, map[MainLock := DOWNLOADER, AckLock(0) := DOWNLOADER,
             WaitLock(0) := DOWNLOADER], Only(false, 1, true))
  }

  function AboutToRead(): State {
    Finished(MWoken, CWoken(0), DRead, map[AckLock(0) := DOWNLOADER], Only(false, 1, true))
  }

  function Returned(): State {
    Finished(MWoken, CLeave(0), DRead, map[AckLock(0) := DOWNLOADER], Only(false, 1, true))
  }

  function Leaving(): State {
    Finished(MWoken, CDecrement(0), DRead, map[AckLock(0) := DOWNLOADER, MainLock := CLIENT],
             Only(false, 1, true))
  }

  function Left(): State {
    Finished(MWoken, CLockAck(0), DRead, map[AckLock(0) := DOWNLOADER, MainLock := CLIENT], Only(false, 0, true))
  }

  lemma Transfers(run: seq<State>) returns (longer: seq<State>)
    requires Ends(run, Transferring())
    ensures Ends(longer, FileReceived())
  {
    hide ClientDoes, ManagerDoes, UploaderDoes, PutterDoes, Ends;
    var s := Transferring();
    longer, s := Looks(run, s, DOWNLOADER, Transfer(true), Downloader(DLock2, 0, 0));
    longer, s := Takes(longer, s, DOWNLOADER, MainLock, Downloader(DQuery2, 0, 0));
    assert s.threads == Threads(MAsleep, CAsleep(0), Some(DQuery2));
    assert s.locks == FileReceived().locks;
  }

  lemma AsksForOwners(run: seq<State>) returns (longer: seq<State>)
    requires Ends(run, FileReceived())
    ensures Ends(longer, Transferred())
  {
    hide ClientDoes, ManagerDoes, UploaderDoes, PutterDoes, Ends;
    var s := FileReceived();
    longer, s := Takes(run, s, DOWNLOADER, DbLock, Downloader(DQuery2Db, 0, 0));
    longer, s := Gives(longer, s, DOWNLOADER, DbLock, Downloader(DUnlock2, 0, 0));
    assert s.threads == Threads(MAsleep, CAsleep(0), Some(DUnlock2));
    assert s.locks == Transferred().locks;
  }

  lemma Publishes(run: seq<State>) returns (longer: seq<State>)
    requires Ends(run, Transferred())
    ensures Ends(longer, Removing())
  {
    hide ClientDoes, ManagerDoes, UploaderDoes, PutterDoes, Ends;
    var s := Transferred();
    longer, s := Gives(run, s, DOWNLOADER, MainLock, Downloader(DPublish, 0, 0));
    longer, s := Takes(longer, s, DOWNLOADER, MainLock, Downloader(DRemove, 0, 0));
    assert s.threads == Threads(MAsleep, CAsleep(0), Some(DRemove));
    assert s.locks == Removing().locks;
  }

  lemma Removes(run: seq<State>) returns (longer: seq<State>)
    requires Ends(run, Removing())
    ensures Ends(longer, Removed())
  {
    hide ClientDoes, ManagerDoes, UploaderDoes, PutterDoes, Ends;
    var s, s' := Removing(), Removed();
    var c, th' := Remove(0), Downloader(DDelRow, 0, 0);
    Alone(s, DOWNLOADER, c, th');
    hide ThreadsAfter;
    assert ThreadsAfter(s, DOWNLOADER, c, th') == s'.threads && LocksAfter(s, DOWNLOADER, c) == s'.locks;
    longer := Goes(run, s, DOWNLOADER, c, th', s');
  }

  lemma OpensRow(run: seq<State>) returns (longer: seq<State>)
    requires Ends(run, Removed())
    ensures Ends(longer, DeletingRow())
  {
    hide ClientDoes, ManagerDoes, UploaderDoes, PutterDoes, Ends;
    var s := Removed();
    longer, s := Takes(run, s, DOWNLOADER, DbLock, Downloader(DDelRowDb, 0, 0));
    assert s.threads == Threads(MAsleep, CAsleep(0), Some(DDelRowDb));
    assert s.locks == DeletingRow().locks;
  }

  lemma DeletesRow(run: seq<State>) returns (longer: seq<State>)
    requires Ends(run, DeletingRow())
    ensures Ends(longer, RowDeleted())
  {
    hide ClientDoes, ManagerDoes, UploaderDoes, PutterDoes, Ends;
    var s, s' := DeletingRow(), RowDeleted();
    var c, th' := DeleteTransfer(0), Downloader(DMark, 0, 0);
    Alone(s, DOWNLOADER, c, th');
    hide ThreadsAfter;
    assert ThreadsAfter(s, DOWNLOADER, c, th') == s'.threads && LocksAfter(s, DOWNLOADER, c) == s'.locks;
    longer := Goes(run, s, DOWNLOADER, c, th', s');
  }

  lemma OpensFile(run: seq<State>) returns (longer: seq<State>)
    requires Ends(run, RowDeleted())
    ensures Ends(longer, Marking())
  {
    hide ClientDoes, ManagerDoes, UploaderDoes, PutterDoes, Ends;
    var s := RowDeleted();
    longer, s := Takes(run, s, DOWNLOADER, DbLock, Downloader(DMarkDb, 0, 0));
    assert s.threads == Threads(MAsleep, CAsleep(0), Some(DMarkDb));
    assert s.locks == Marking().locks;
  }

  lemma Marks(run: seq<State>) returns (longer: seq<State>)
    requires Ends(run, Marking())
    ensures Ends(longer, Marked())
  {
    hide ClientDoes, ManagerDoes, UploaderDoes, PutterDoes, Ends, Threads;
    var s, s' := Marking(), Marked();
    var c, th' := MarkCached(0), Downloader(DReady, 0, 0);
    ThreadsAre(MAsleep, CAsleep(0), Some(DMarkDb), MAsleep, CAsleep(0), DReady);
    Alone(s, DOWNLOADER, c, th');
    hide ThreadsAfter;
    assert ThreadsAfter(s, DOWNLOADER, c, th') == s'.threads && LocksAfter(s, DOWNLOADER, c) == s'.locks;
    longer := Goes(run, s, DOWNLOADER, c, th', s');
  }

  lemma FreesSlot(run: seq<State>) returns (longer: seq<State>)
    requires Ends(run, Marked())
    ensures Ends(longer, SlotFreed())
  {
    hide ClientDoes, ManagerDoes, UploaderDoes, PutterDoes, Ends;
    var s, s' := Marked(), SlotFreed();
    var c, th' := SetReady(0), Downloader(DLockAck, 0, 0);
    Alone(s, DOWNLOADER, c, th');
    hide ThreadsAfter;
    assert ThreadsAfter(s, DOWNLOADER, c, th') == s'.threads && LocksAfter(s, DOWNLOADER, c) == s'.locks;
    longer := Goes(run, s, DOWNLOADER, c, th', s');
  }

  lemma LocksBoth(run: seq<State>) returns (longer: seq<State>)
    requires Ends(run, SlotFreed())
    ensures Ends(longer, Broadcasting())
  {
    hide ClientDoes, ManagerDoes, UploaderDoes, PutterDoes, Ends, Threads;
    var s := SlotFreed();
    ThreadsAre(MAsleep, CAsleep(0), Some(DLockAck), MAsleep, CAsleep(0), DLockWait);
    longer, s := Takes(run, s, DOWNLOADER, AckLock(0), Downloader(DLockWait, 0, 0));
    ThreadsAre(MAsleep, CAsleep(0), Some(DLockWait), MAsleep, CAsleep(0), DBroadcast);
    longer, s := Takes(longer, s, DOWNLOADER, WaitLock(0), Downloader(DBroadcast, 0, 0));
    assert s.locks == Broadcasting().locks;
  }

  lemma BroadcastThreads()
    ensures ThreadsAfter(Broadcasting(), DOWNLOADER, Broadcast(0), Downloader(DSignal, 0, 0)) == Woke().threads
  {
  }

  lemma BroadcastAfter()
    ensures After(Broadcasting(), DOWNLOADER, Broadcast(0), Downloader(DSignal, 0, 0)) == Woke()
  {
    BroadcastThreads();
    hide ThreadsAfter;
  }

  lemma Broadcasts(run: seq<State>) returns (longer: seq<State>)
    requires Ends(run, Broadcasting())
    ensures Ends(longer, Woke())
  {
    hide ClientDoes, ManagerDoes, UploaderDoes, PutterDoes, Ends;
    var s, s' := Broadcasting(), Woke();
    var c, th' := Broadcast(0), Downloader(DSignal, 0, 0);
    BroadcastAfter();
    hide After;
    longer := Goes(run, s, DOWNLOADER, c, th', s');
  }

  lemma SignalThreads()
    ensures ThreadsAfter(Woke(), DOWNLOADER, SignalMain, Downloader(DUnlockMain, 0, 0)) == ManagerWoken().threads
  {
  }

  lemma WakesManager(run: seq<State>) returns (longer: seq<State>)
    requires Ends(run, Woke())
    ensures Ends(longer, ManagerWoken())
  {
    hide ClientDoes, ManagerDoes, UploaderDoes, PutterDoes, Ends;
    var s, s' := Woke(), ManagerWoken();
    var c, th' := SignalMain, Downloader(DUnlockMain, 0, 0);
    SignalThreads();
    hide ThreadsAfter;
    assert ThreadsAfter(s, DOWNLOADER, c, th') == s'.threads && LocksAfter(s, DOWNLOADER, c) == s'.locks;
    longer := Goes(run, s, DOWNLOADER, c, th', s');
  }

  lemma UnlocksBoth(run: seq<State>) returns (longer: seq<State>)
    requires Ends(run, ManagerWoken())
    ensures Ends(longer, AboutToRead())
  {
    hide ClientDoes, ManagerDoes, UploaderDoes, PutterDoes, Ends;
    var s := ManagerWoken();
    longer, s := Gives(run, s, DOWNLOADER, MainLock, Downloader(DUnlockWait, 0, 0));
    longer, s := Gives(longer, s, DOWNLOADER, WaitLock(0), Downloader(DRead, 0, 0));
    assert s.threads == Threads(MWoken, CWoken(0), Some(DRead));
    assert s.locks == AboutToRead().locks;
  }

  lemma Returns(run: seq<State>) returns (longer: seq<State>)
    requires Ends(run, AboutToRead())
    ensures Ends(longer, Returned())
  {
    hide ManagerDoes, DownloaderDoes, UploaderDoes, PutterDoes, Ends, Threads;
    var s := AboutToRead();
    ThreadsAre(MWoken, CWoken(0), Some(DRead), MWoken, CUnlockWait(0), DRead);
    longer, s := Takes(run, s, CLIENT, WaitLock(0), Client(CUnlockWait(0), 1, true));
    ThreadsAre(MWoken, CUnlockWait(0), Some(DRead), MWoken, CLeave(0), DRead);
    longer, s := Gives(longer, s, CLIENT, WaitLock(0), Client(CLeave(0), 1, true));
    assert s.locks == Returned().locks;
  }

  lemma LocksToLeave(run: seq<State>) returns (longer: seq<State>)
    requires Ends(run, Returned())
    ensures Ends(longer, Leaving())
  {
    hide ManagerDoes, DownloaderDoes, UploaderDoes, PutterDoes, Ends;
    var s := Returned();
    longer, s := Takes(run, s, CLIENT, MainLock, Client(CDecrement(0), 1, true));
    assert s.threads == Threads(MWoken, CDecrement(0), Some(DRead));
    assert s.locks == Leaving().locks;
  }

  lemma Leaves(run: seq<State>) returns (longer: seq<State>)
    requires Ends(run, Leaving())
    ensures Ends(longer, Left())
  {
    hide ManagerDoes, DownloaderDoes, UploaderDoes, PutterDoes, Ends;
    var s, s' := Leaving(), Left();
    var c, th' := Unsubscribe(0, 0), Client(CLockAck(0), 1, true);
    Alone(s, CLIENT, c, th');
    hide ThreadsAfter;
    assert ThreadsAfter(s, CLIENT, c, th') == s'.threads && LocksAfter(s, CLIENT, c) == s'.locks;
    assert {CLIENT} - {CLIENT} == {};
    longer := Goes(run, s, CLIENT, c, th', s');
  }

  /** The count is zero, the downloader has not read it, and the last unsubscriber has not signalled. */
  lemma ReachesRead() returns (run: seq<State>)
    ensures Ends(run, Left())
  {
    hide *;
    run := ReachesTransfer();
    run := Transfers(run);
    run := AsksForOwners(run);
    run := Publishes(run);
    run := Removes(run);
    run := OpensRow(run);
    run := DeletesRow(run);
    run := OpensFile(run);
    run := Marks(run);
    run := FreesSlot(run);
    run := LocksBoth(run);
    run := Broadcasts(run);
    run := WakesManager(run);
    run := UnlocksBoth(run);
    run := Returns(run);
    run := LocksToLeave(run);
    run := Leaves(run);
  }
}
