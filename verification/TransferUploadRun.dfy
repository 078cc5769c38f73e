/**
 A run with one upload.  No query says that a part is being sent, so the manager
 gives the upload to every free slot; the first uploader to end deletes the row,
 and the others, which then find nothing to send, never give their slots back.
 */
module TransferUploadRun {
  import opened Wrappers
  import opened TransferSystem
  import opened TransferInvariants
  import opened TransferMutexes
  import opened TransferManager
  import opened TransferReachable
  import opened TransferRuns
  import opened TransferUploads

  const PUTTER: Tid := 1

  // ----- All free slots -----

  /** While an upload has parts to send, the manager does not go to sleep before every slot is busy. */
  lemma UploadTakesEverySlot(s: State, f: FileId, th': Thread, s': State)
    requires Reachable(s) && CallStep(s, MANAGER, WaitMain, th', s')
    requires f in s.transfers && s.transfers[f].Upload? && s.transfers[f].parts > 0
    ensures |s.ready| == 3 && forall i | 0 <= i < 3 :: !s.ready[i]
  {
    hide Reachable, Does, After, Allowed, CallStep;
    ReachableInv(s);
    StepParts(s, MANAGER, WaitMain, th', s');
    GoesToSleep(s, th');
    SleepsWhenBusy(s, f);
  }

  lemma GoesToSleep(s: State, th': Thread)
    requires Inv(s) && MANAGER in s.threads && Does(s.threads[MANAGER], WaitMain, th')
    ensures s.threads[MANAGER] == Manager(MSleep)
  {
    hide LocksInv, RunnerInv, FlagsInv, QueueInv, SlotsInv, MembersInv, CachedInv, AckInv, RowsInv, Knows, HasWork;
    hide ShapeInv, ClientDoes, DownloaderDoes, UploaderDoes, PutterDoes;
  }

  lemma SleepsWhenBusy(s: State, f: FileId)
    requires Inv(s) && MANAGER in s.threads && s.threads[MANAGER] == Manager(MSleep)
    requires f in s.transfers && s.transfers[f].Upload? && s.transfers[f].parts > 0
    ensures |s.ready| == 3 && forall i | 0 <= i < 3 :: !s.ready[i]
  {
    hide LocksInv, RunnerInv, FlagsInv, QueueInv, MembersInv, CachedInv, AckInv, RowsInv, ShapeInv;
    assert IsPending(s.transfers, f);
    assert SomePending(s.transfers);
    assert !HasWork(s);
  }

  // ----- Calls -----

  /** A query that changes the transfers table. */
  lemma Writes(run: seq<State>, s: State, t: Tid, c: Call, th': Thread) returns (longer: seq<State>, s': State)
    requires Ends(run, s) && t in s.threads && Does(s.threads[t], c, th')
    requires c.AddUpload? || c.CreateMultiparts? || c.DeleteUpload?
    ensures s' == s.(locks := s.locks - {DbLock}, threads := s.threads[t := th'], transfers := TransfersAfter(s, c))
    ensures Ends(longer, s')
  {
    Alone(s, t, c, th');
    s' := After(s, t, c, th');
    hide Does, Ends, ThreadsAfter, TransfersAfter;
    longer := Goes(run, s, t, c, th', s');
  }

  lemma Starts(run: seq<State>, s: State, i: nat, f: FileId, u: Tid) returns (longer: seq<State>, s': State)
    requires Ends(run, s) && MANAGER in s.threads && s.threads[MANAGER] == Manager(MStartUpload(i, f)) && u !in s.threads
    requires i < |s.ready| && i < |s.user|
    ensures s' == s.(threads := s.threads[MANAGER := Manager(MScan)][u := Uploader(UQuery, i, f)],
                     ready := s.ready[i := false], user := s.user[i := u])
    ensures Ends(longer, s')
  {
    var c := StartUpload(i, f, u);
    NobodyIsWoken(s, c);
    s' := After(s, MANAGER, c, Manager(MScan));
    hide Ends;
    longer := Goes(run, s, MANAGER, c, Manager(MScan), s');
  }

  lemma NobodyIsWoken(s: State, c: Call)
    requires c.StartUpload?
    ensures (map u | u in s.threads :: Woken(c, u, s.threads[u])) == s.threads
  {
  }

  lemma Frees(run: seq<State>, s: State, t: Tid, i: nat, th': Thread) returns (longer: seq<State>, s': State)
    requires Ends(run, s) && t in s.threads && Does(s.threads[t], SetReady(i), th') && i < |s.ready|
    ensures s' == s.(threads := s.threads[t := th'], ready := s.ready[i := true]) && Ends(longer, s')
  {
    Alone(s, t, SetReady(i), th');
    s' := After(s, t, SetReady(i), th');
    hide Does, Ends, ThreadsAfter;
    longer := Goes(run, s, t, SetReady(i), th', s');
  }

  lemma Sleeps(run: seq<State>, s: State) returns (longer: seq<State>, s': State)
    requires Ends(run, s) && MANAGER in s.threads && s.threads[MANAGER] == Manager(MSleep)
    ensures s' == s.(locks := s.locks - {MainLock}, threads := s.threads[MANAGER := Manager(MAsleep)]) && Ends(longer, s')
  {
    Alone(s, MANAGER, WaitMain, Manager(MAsleep));
    s' := After(s, MANAGER, WaitMain, Manager(MAsleep));
    hide Ends, ThreadsAfter;
    longer := Goes(run, s, MANAGER, WaitMain, Manager(MAsleep), s');
  }

  /** A signal on mainLoop_cond. */
  lemma SignalsManager(run: seq<State>, s: State, t: Tid, th': Thread) returns (longer: seq<State>, s': State)
    requires Ends(run, s) && t in s.threads && Does(s.threads[t], SignalMain, th') && t != MANAGER && MANAGER in s.threads
    requires forall u <- s.threads :: s.threads[u] == Manager(MAsleep) ==> u == MANAGER
    ensures var m := if s.threads[MANAGER] == Manager(MAsleep) then Manager(MWoken) else s.threads[MANAGER];
            s' == s.(threads := s.threads[MANAGER := m][t := th']) && Ends(longer, s')
  {
    s' := After(s, t, SignalMain, th');
    var m := if s.threads[MANAGER] == Manager(MAsleep) then Manager(MWoken) else s.threads[MANAGER];
    assert (map u | u in s.threads :: Woken(SignalMain, u, s.threads[u])) == s.threads[MANAGER := m];
    hide Does, Ends;
    longer := Goes(run, s, t, SignalMain, th', s');
  }

  // ----- The run -----

  /** The state when the upload is in the table and nothing is started. */
  function Pending(): State {
    State(map[], map[MANAGER := Manager(MLock), PUTTER := Putter(PDone, 1, true)], [], [], [true, true, true],
          map[1 := Upload(1)], map[1 := false], 0, [0, 0, 0])
  }

  /** The state when each slot has an uploader for it, which are threads 2, 3 and 4. */
  function Uploading(m: ManagerPc, a: UploaderPc, b: UploaderPc, c: UploaderPc, rows: map<FileId, Row>, free: bool): State {
    State(map[],
          map[MANAGER := Manager(m), PUTTER := Putter(PDone, 1, true),
              2 := Uploader(a, 0, 1), 3 := Uploader(b, 1, 1), 4 := Uploader(c, 2, 1)],
          [], [], [free, false, false], rows, map[1 := false], 0, [2, 3, 4])
  }

  lemma Arrives() returns (run: seq<State>, s: State)
    ensures Ends(run, s)
    ensures s == Pending().(threads := map[MANAGER := Manager(MLock), PUTTER := Putter(PLock, 0, true)], transfers := map[])
  {
    var none := State(map[], map[MANAGER := Manager(MLock)], [], [], [true, true, true], map[], map[], 0, [0, 0, 0]);
    var file := none.(files := map[1 := false]);
    s := file.(threads := none.threads[PUTTER := Putter(PLock, 0, true)]);
    assert NewFileStep(none, 1, file) && ArrivalStep(file, PUTTER, Putter(PLock, 0, true), s);
    run := [none, file, s];
    assert StepAt(run, 1) && StepAt(run, 2);
  }

  /** The state while the upload is being put into the tables. */
  function Putting(p: PutterPc, rows: map<FileId, Row>): State {
    Pending().(locks := map[MainLock := PUTTER], transfers := rows,
               threads := map[MANAGER := Manager(MLock), PUTTER := Putter(p, 1, true)])
  }

  lemma Finds() returns (run: seq<State>)
    ensures Ends(run, Putting(PAdd, map[]))
  {
    hide ManagerDoes, ClientDoes, DownloaderDoes, UploaderDoes, Ends;
    var s: State;
    run, s := Arrives();
    run, s := Takes(run, s, PUTTER, MainLock, Putter(PFind, 0, true));
    run, s := Takes(run, s, PUTTER, DbLock, Putter(PFindDb, 0, true));
    run, s := Queries(run, s, PUTTER, FindFile(1), Putter(PAdd, 1, true));
    assert s.threads == Putting(PAdd, map[]).threads && s.locks == map[MainLock := PUTTER];
  }

  /** The state while the upload is being put into the tables, in a query. */
  function PuttingDb(p: PutterPc, rows: map<FileId, Row>): State {
    Putting(p, rows).(locks := map[MainLock := PUTTER, DbLock := PUTTER])
  }

  lemma OpensTable(run: seq<State>, p: PutterPc, p': PutterPc, rows: map<FileId, Row>) returns (longer: seq<State>)
    requires Ends(run, Putting(p, rows)) && Does(Putter(p, 1, true), Take(DbLock), Putter(p', 1, true))
    ensures Ends(longer, PuttingDb(p', rows))
  {
    hide Does, Ends;
    var s := Putting(p, rows);
    longer, s := Takes(run, s, PUTTER, DbLock, Putter(p', 1, true));
    assert s.threads == PuttingDb(p', rows).threads && s.locks == map[MainLock := PUTTER, DbLock := PUTTER];
  }

  lemma PutsRow(run: seq<State>) returns (longer: seq<State>)
    requires Ends(run, PuttingDb(PAddDb, map[]))
    ensures Ends(longer, Putting(PParts, map[1 := Upload(0)]))
  {
    hide ManagerDoes, ClientDoes, DownloaderDoes, UploaderDoes, Ends;
    var s := PuttingDb(PAddDb, map[]);
    longer, s := Writes(run, s, PUTTER, AddUpload(1, true), Putter(PParts, 1, true));
    assert s.threads == Putting(PParts, map[]).threads && s.locks == map[MainLock := PUTTER];
  }

  lemma PutsParts(run: seq<State>) returns (longer: seq<State>)
    requires Ends(run, PuttingDb(PPartsDb, map[1 := Upload(0)]))
    ensures Ends(longer, Putting(PSignal, map[1 := Upload(1)]))
  {
    hide ManagerDoes, ClientDoes, DownloaderDoes, UploaderDoes, Ends;
    var s := PuttingDb(PPartsDb, map[1 := Upload(0)]);
    longer, s := Writes(run, s, PUTTER, CreateMultiparts(1, 1), Putter(PSignal, 1, true));
    assert s.threads == Putting(PSignal, map[]).threads && s.locks == map[MainLock := PUTTER];
    assert s.transfers == map[1 := Upload(1)];
  }

  lemma Puts(run: seq<State>) returns (longer: seq<State>)
    requires Ends(run, Putting(PSignal, map[1 := Upload(1)]))
    ensures Ends(longer, Pending())
  {
    hide ManagerDoes, ClientDoes, DownloaderDoes, UploaderDoes, Ends;
    var s := Putting(PSignal, map[1 := Upload(1)]);
    longer, s := SignalsManager(run, s, PUTTER, Putter(PUnlock, 1, true));
    longer, s := Gives(longer, s, PUTTER, MainLock, Putter(PDone, 1, true));
    assert s.threads == Pending().threads && s.locks == map[];
  }

  lemma FindsSlot(run: seq<State>, s: State, i: nat) returns (longer: seq<State>, s': State)
    requires Ends(run, s) && MANAGER in s.threads && s.threads[MANAGER] == Manager(MScan)
    requires s.locks == map[MainLock := MANAGER] && FirstReady(s.ready) == Some(i)
    ensures s' == s.(locks := s.locks[DbLock := MANAGER], threads := s.threads[MANAGER := Manager(MUploadDb(i))])
    ensures Ends(longer, s')
  {
    hide ClientDoes, DownloaderDoes, UploaderDoes, PutterDoes, Ends, FirstReady, FirstInactive;
    longer, s' := Looks(run, s, MANAGER, FindSlot(Some(i)), Manager(MUpload(i)));
    longer, s' := Takes(longer, s', MANAGER, DbLock, Manager(MUploadDb(i)));
    assert s'.threads == s.threads[MANAGER := Manager(MUploadDb(i))];
  }

  lemma FindsUpload(run: seq<State>, s: State, i: nat) returns (longer: seq<State>, s': State)
    requires Ends(run, s) && MANAGER in s.threads && s.threads[MANAGER] == Manager(MUploadDb(i))
    requires s.transfers == map[1 := Upload(1)]
    ensures s' == s.(locks := s.locks - {DbLock}, threads := s.threads[MANAGER := Manager(MStartUpload(i, 1))])
    ensures Ends(longer, s')
  {
    hide ClientDoes, DownloaderDoes, UploaderDoes, PutterDoes, Ends, FirstReady, FirstInactive;
    longer, s' := Queries(run, s, MANAGER, FindUpload(Some(1)), Manager(MStartUpload(i, 1)));
  }

  /** The manager finds a free slot and the upload. */
  lemma Fills(run: seq<State>, s: State, i: nat) returns (longer: seq<State>, s': State)
    requires Ends(run, s) && MANAGER in s.threads && s.threads[MANAGER] == Manager(MScan) && 2 + i !in s.threads
    requires s.locks == map[MainLock := MANAGER] && s.transfers == map[1 := Upload(1)]
    requires i < |s.ready| && i < |s.user| && FirstReady(s.ready) == Some(i)
    ensures s' == s.(threads := s.threads[2 + i := Uploader(UQuery, i, 1)], ready := s.ready[i := false],
                     user := s.user[i := 2 + i])
    ensures Ends(longer, s')
  {
    hide Ends, FirstReady;
    longer, s' := FindsSlot(run, s, i);
    longer, s' := FindsUpload(longer, s', i);
    longer, s' := Starts(longer, s', i, 1, 2 + i);
    assert s'.locks == s.locks && s'.threads == s.threads[2 + i := Uploader(UQuery, i, 1)];
  }

  lemma FirstSlots()
    ensures FirstReady([true, true, true]) == Some(0) && FirstReady([false, true, true]) == Some(1)
    ensures FirstReady([false, false, true]) == Some(2) && FirstReady([false, false, false]) == None
  {
  }

  /** The threads when the manager has filled this many slots. */
  function Filling(n: nat, m: ManagerPc): (threads: map<Tid, Thread>)
    ensures forall t: Tid :: t in threads <==> t < 2 + n
    ensures threads[MANAGER] == Manager(m)
  {
    if n == 0 then map[MANAGER := Manager(m), PUTTER := Putter(PDone, 1, true)]
    else Filling(n - 1, m)[1 + n := Uploader(UQuery, n - 1, 1)]
  }

  /** The state when the manager has filled this many slots, under mainLoop_mutex. */
  function Filled(n: nat, m: ManagerPc): State {
    State(map[MainLock := MANAGER], Filling(n, m), [], [], seq(3, i => n <= i), map[1 := Upload(1)], map[1 := false], 0,
          seq(3, i => if i < n then 2 + i else 0))
  }

  lemma FillsOne(run: seq<State>, n: nat) returns (longer: seq<State>)
    requires n < 3 && Ends(run, Filled(n, MScan))
    ensures Ends(longer, Filled(n + 1, MScan))
  {
    hide Ends, FirstReady;
    FirstSlots();
    var s := Filled(n, MScan);
    assert s.ready == if n == 0 then [true, true, true] else if n == 1 then [false, true, true] else [false, false, true];
    longer, s := Fills(run, s, n);
    var t := Filled(n + 1, MScan);
    assert s.threads == t.threads && s.ready == t.ready && s.user == t.user;
  }

  lemma FillsAll(run: seq<State>) returns (longer: seq<State>)
    requires Ends(run, Pending())
    ensures Ends(longer, Uploading(MAsleep, UQuery, UQuery, UQuery, map[1 := Upload(1)], false))
  {
    hide ClientDoes, DownloaderDoes, UploaderDoes, PutterDoes, Ends, FirstReady;
    var s := Pending();
    longer, s := Takes(run, s, MANAGER, MainLock, Manager(MScan));
    assert s.threads == Filled(0, MScan).threads && s.ready == Filled(0, MScan).ready && s.user == Filled(0, MScan).user;
    hide Filled;
    longer := FillsOne(longer, 0);
    longer := FillsOne(longer, 1);
    longer := FillsOne(longer, 2);
    longer := FallsAsleep(longer);
  }

  lemma FallsAsleep(run: seq<State>) returns (longer: seq<State>)
    requires Ends(run, Filled(3, MScan))
    ensures Ends(longer, Uploading(MAsleep, UQuery, UQuery, UQuery, map[1 := Upload(1)], false))
  {
    hide ClientDoes, DownloaderDoes, UploaderDoes, PutterDoes, Ends, FirstReady;
    FirstSlots();
    var s := Filled(3, MScan);
    assert s.ready == [false, false, false];
    longer, s := Looks(run, s, MANAGER, FindSlot(None), Manager(MSleep));
    longer, s := Sleeps(longer, s);
    var t := Uploading(MAsleep, UQuery, UQuery, UQuery, map[1 := Upload(1)], false);
    assert s.threads == t.threads && s.locks == map[] && s.ready == t.ready && s.user == t.user;
  }

  /** The first uploader sends the file, and is about to delete the row. */
  lemma Sends(run: seq<State>) returns (longer: seq<State>)
    requires Ends(run, Uploading(MAsleep, UQuery, UQuery, UQuery, map[1 := Upload(1)], false))
    ensures Ends(longer, Uploading(MAsleep, ULock, UQuery, UQuery, map[1 := Upload(1)], false))
  {
    hide ClientDoes, DownloaderDoes, ManagerDoes, PutterDoes, Ends;
    var s := Uploading(MAsleep, UQuery, UQuery, UQuery, map[1 := Upload(1)], false);
    longer, s := Takes(run, s, 2, DbLock, Uploader(UQueryDb, 0, 1));
    longer, s := Queries(longer, s, 2, GetUpload(1, true), Uploader(UWork, 0, 1));
    longer, s := Looks(longer, s, 2, Transfer(true), Uploader(ULock, 0, 1));
    var t := Uploading(MAsleep, ULock, UQuery, UQuery, map[1 := Upload(1)], false);
    assert s.threads == t.threads && s.locks == map[];
  }

  /** The state while the first uploader has mainLoop_mutex. */
  function Ending(u: UploaderPc, m: ManagerPc, rows: map<FileId, Row>, free: bool): State {
    Uploading(m, u, UQuery, UQuery, rows, free).(locks := map[MainLock := 2])
  }

  lemma Locks(run: seq<State>) returns (longer: seq<State>)
    requires Ends(run, Uploading(MAsleep, ULock, UQuery, UQuery, map[1 := Upload(1)], false))
    ensures Ends(longer, Ending(UDelRow, MAsleep, map[1 := Upload(1)], false))
  {
    hide ClientDoes, DownloaderDoes, ManagerDoes, PutterDoes, Ends;
    var s := Uploading(MAsleep, ULock, UQuery, UQuery, map[1 := Upload(1)], false);
    longer, s := Takes(run, s, 2, MainLock, Uploader(UDelRow, 0, 1));
    assert s.threads == Ending(UDelRow, MAsleep, map[1 := Upload(1)], false).threads && s.locks == map[MainLock := 2];
  }

  lemma Deletes(run: seq<State>) returns (longer: seq<State>)
    requires Ends(run, Ending(UDelRow, MAsleep, map[1 := Upload(1)], false))
    ensures Ends(longer, Ending(UReady, MAsleep, map[], false))
  {
    hide ClientDoes, DownloaderDoes, ManagerDoes, PutterDoes, Ends;
    var s := Ending(UDelRow, MAsleep, map[1 := Upload(1)], false);
    longer, s := Takes(run, s, 2, DbLock, Uploader(UDelRowDb, 0, 1));
    longer, s := Writes(longer, s, 2, DeleteUpload(1), Uploader(UReady, 0, 1));
    assert s.threads == Ending(UReady, MAsleep, map[], false).threads && s.locks == map[MainLock := 2];
    assert s.transfers == map[];
  }

  lemma GivesSlot(run: seq<State>) returns (longer: seq<State>)
    requires Ends(run, Ending(UReady, MAsleep, map[], false))
    ensures Ends(longer, Ending(USignal, MAsleep, map[], true))
  {
    hide ClientDoes, DownloaderDoes, ManagerDoes, PutterDoes, Ends;
    var s := Ending(UReady, MAsleep, map[], false);
    longer, s := Frees(run, s, 2, 0, Uploader(USignal, 0, 1));
    assert s.threads == Ending(USignal, MAsleep, map[], true).threads && s.ready == [true, false, false];
  }

  lemma TellsManager(run: seq<State>) returns (longer: seq<State>)
    requires Ends(run, Ending(USignal, MAsleep, map[], true))
    ensures Ends(longer, Ending(UUnlock, MWoken, map[], true))
  {
    hide ClientDoes, DownloaderDoes, ManagerDoes, PutterDoes, Ends;
    var s := Ending(USignal, MAsleep, map[], true);
    longer, s := SignalsManager(run, s, 2, Uploader(UUnlock, 0, 1));
    assert s.threads == Ending(UUnlock, MWoken, map[], true).threads;
  }

  lemma Unlocks(run: seq<State>) returns (longer: seq<State>)
    requires Ends(run, Ending(UUnlock, MWoken, map[], true))
    ensures Ends(longer, Uploading(MWoken, UDone, UQuery, UQuery, map[], true))
  {
    hide ClientDoes, DownloaderDoes, ManagerDoes, PutterDoes, Ends;
    var s := Ending(UUnlock, MWoken, map[], true);
    longer, s := Gives(run, s, 2, MainLock, Uploader(UDone, 0, 1));
    assert s.threads == Uploading(MWoken, UDone, UQuery, UQuery, map[], true).threads && s.locks == map[];
  }

  /** The others find nothing to send. */
  lemma FindsNothing(run: seq<State>, s: State, t: Tid, i: nat) returns (longer: seq<State>, s': State)
    requires Ends(run, s) && t in s.threads && s.threads[t] == Uploader(UQuery, i, 1)
    requires s.locks == map[] && s.transfers == map[]
    ensures s' == s.(threads := s.threads[t := Uploader(ULost, i, 1)]) && Ends(longer, s')
  {
    hide ClientDoes, DownloaderDoes, ManagerDoes, PutterDoes, Ends;
    longer, s' := Takes(run, s, t, DbLock, Uploader(UQueryDb, i, 1));
    longer, s' := Queries(longer, s', t, GetUpload(1, false), Uploader(ULost, i, 1));
    assert s'.locks == map[] && s'.threads == s.threads[t := Uploader(ULost, i, 1)];
  }

  lemma IsSent() returns (run: seq<State>)
    ensures Ends(run, Uploading(MWoken, UDone, UQuery, UQuery, map[], true))
  {
    hide Ends, Uploading, Ending, Putting, PuttingDb, Pending, Filled;
    run := Finds();
    run := OpensTable(run, PAdd, PAddDb, map[]);
    run := PutsRow(run);
    run := OpensTable(run, PParts, PPartsDb, map[1 := Upload(0)]);
    run := PutsParts(run);
    run := Puts(run);
    run := FillsAll(run);
    run := Sends(run);
    run := Locks(run);
    run := Deletes(run);
    run := GivesSlot(run);
    run := TellsManager(run);
    run := Unlocks(run);
  }

  /**
   One upload of one part, which ends well: the run ends with its row deleted and
   no mutex held, but only one slot is free, and the other two belong to uploaders
   that have ended without giving them back.
   */
  lemma UploadLosesSlots() returns (run: seq<State>)
    ensures IsRun(run)
    ensures var s := run[|run| - 1];
            && s.transfers == map[] && s.locks == map[] && s.ready == [true, false, false] && s.user == [2, 3, 4]
            && 2 in s.threads && s.threads[2] == Uploader(UDone, 0, 1)
            && 3 in s.threads && s.threads[3] == Uploader(ULost, 1, 1)
            && 4 in s.threads && s.threads[4] == Uploader(ULost, 2, 1)
  {
    run := IsSent();
    var s := Uploading(MWoken, UDone, UQuery, UQuery, map[], true);
    run, s := FindsNothing(run, s, 3, 1);
    run, s := FindsNothing(run, s, 4, 2);
    hide IsRun;
  }
}
