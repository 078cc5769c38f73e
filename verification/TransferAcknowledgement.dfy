/**
 When a subscription is freed while its last unsubscriber still uses it.

 The downloader reads the count without mainLoop_mutex.  If it reads zero while
 the last unsubscriber is on its way through acknowledgeMutex, it does not wait
 for the signal and frees the subscription, mutex and all, under that thread.
 */
module TransferAcknowledgement {
  import opened Wrappers
  import opened TransferSystem
  import opened TransferInvariants
  import opened TransferMutexes
  import opened TransferDownloads
  import opened TransferSubscribers
  import opened TransferReachable
  import opened TransferRuns

  /** Some thread has still to lock, signal or unlock the acknowledgeMutex of e. */
  ghost predicate SomeAcknowledging(s: State, e: Eid) {
    exists t :: IsAcknowledging(s, t, e)
  }

  ghost predicate FreedInUse(s: State, e: Eid) {
    e < |s.entries| && s.entries[e].freed && SomeAcknowledging(s, e)
  }

  /** A run that goes on from s. */
  ghost predicate Continues(run: seq<State>, s: State) {
    && run != []
    && run[0] == s
    && forall i | 0 < i < |run| :: StepAt(run, i)
  }

  // ----- Subscriptions that are freed in time -----

  /** The downloader waits, or has waited, for the signal. */
  predicate IsWaitedFor(s: State, e: Eid) {
    e < |s.entries| && (23 <= Progress(s, e) <= 25 || s.entries[e].acked)
  }

  /** Everybody has left for good. */
  ghost predicate IsLeft(s: State, e: Eid) {
    e < |s.entries| && s.entries[e].members == {} && s.entries[e].broadcast && !SomeAcknowledging(s, e)
  }

  lemma WaitedForKept(s: State, t: Tid, c: Call, th': Thread, s': State, e: Eid)
    requires RunnerInv(s) && RunnerInv(s') && AckInv(s) && CallStep(s, t, c, th', s') && IsWaitedFor(s, e)
    ensures IsWaitedFor(s', e)
  {
    DownloadMoves(s, t, c, th', s', e);
    EntriesKeep(s, t, c);
    HistoryOfEntry(s, t, c, e);
    assert s'.entries == EntriesAfter(s, t, c);
    assert AckedInv(s);
    hide Does, Allowed, After, CallStep, RunnerInv, EntriesAfter, Progress, AckInv;
  }

  lemma LeftKept(s: State, t: Tid, c: Call, th': Thread, s': State, e: Eid)
    requires FlagsInv(s) && QueueInv(s) && MembersInv(s) && CallStep(s, t, c, th', s') && IsLeft(s, e)
    ensures IsLeft(s', e)
  {
    EmptyStays(s, t, c, th', s', e);
    forall u ensures !IsAcknowledging(s', u, e) {
      AckAfter(s, t, c, th', s', u, e);
    }
    hide FlagsInv, QueueInv, MembersInv, CallStep, IsAcknowledging;
  }

  ghost predicate IsSafe(s: State, e: Eid) {
    IsWaitedFor(s, e) || IsLeft(s, e)
  }

  /** Neither an arrival nor a new file touches a subscription or moves a thread. */
  lemma OtherStepKeepsSafe(s: State, s': State, e: Eid)
    requires RunnerInv(s) && IsSafe(s, e)
    requires (exists t, th :: ArrivalStep(s, t, th, s')) || (exists f :: NewFileStep(s, f, s'))
    ensures IsSafe(s', e)
  {
    if t, th :| ArrivalStep(s, t, th, s') {
      ArrivalProgress(s, t, th, s');
      forall u ensures IsAcknowledging(s', u, e) <==> IsAcknowledging(s, u, e) {
        ArrivalIsNew(s, t, th, s', u, e, 0, 0, MainLock);
      }
      hide RunnerInv, Progress, IsAcknowledging;
    } else {
      var f :| NewFileStep(s, f, s');
      NewFileProgress(s, f, s');
      hide RunnerInv, Progress, IsAcknowledging;
    }
  }

  lemma CallKeepsSafe(s: State, t: Tid, c: Call, th': Thread, s': State, e: Eid)
    requires Inv(s) && Inv(s') && IsSafe(s, e) && CallStep(s, t, c, th', s')
    ensures IsSafe(s', e)
  {
    if IsWaitedFor(s, e) { WaitedForKept(s, t, c, th', s', e); } else { LeftKept(s, t, c, th', s', e); }
    hide LocksInv, ShapeInv, RunnerInv, FlagsInv, QueueInv, SlotsInv, MembersInv, CachedInv, AckInv, ManagerInv;
    hide RowsInv, CallStep, IsWaitedFor, IsLeft;
  }

  lemma StepKeepsSafe(s: State, s': State, e: Eid)
    requires Inv(s) && Inv(s') && IsSafe(s, e) && Next(s, s')
    ensures IsSafe(s', e)
  {
    if t, c, th' :| CallStep(s, t, c, th', s') {
      hide *;
      CallKeepsSafe(s, t, c, th', s', e);
    } else {
      OtherStepKeepsSafe(s, s', e);
      hide LocksInv, ShapeInv, RunnerInv, FlagsInv, QueueInv, SlotsInv, MembersInv, CachedInv, AckInv, ManagerInv;
      hide RowsInv, CallStep, IsSafe, ArrivalStep, NewFileStep;
    }
  }

  lemma SafeIsNotInUse(s: State, e: Eid)
    requires FlagsInv(s) && AckInv(s) && IsSafe(s, e)
    ensures !FreedInUse(s, e)
  {
    assert e < |s.entries| && s.entries[e].freed ==> Progress(s, e) >= 28;
    hide Progress, IsAcknowledging, AckedInv;
  }

  lemma ContinuesAt(run: seq<State>, s: State, n: nat)
    requires Continues(run, s) && 0 < n < |run|
    ensures Next(run[n - 1], run[n])
  {
    hide Next;
    assert StepAt(run, n);
  }

  lemma {:induction false} SafeForEver(run: seq<State>, s: State, e: Eid, n: nat)
    requires Continues(run, s) && Inv(s) && IsSafe(s, e) && n < |run|
    ensures Inv(run[n]) && IsSafe(run[n], e)
  {
    if n == 0 {
      hide Inv, IsSafe, Next;
    } else {
      hide *;
      SafeForEver(run, s, e, n - 1);
      ContinuesAt(run, s, n);
      StepKeeps(run[n - 1], run[n]);
      StepKeepsSafe(run[n - 1], run[n], e);
    }
  }

  lemma SafeIsNeverInUse(run: seq<State>, s: State, e: Eid)
    requires Continues(run, s) && Inv(s) && IsSafe(s, e)
    ensures !FreedInUse(run[|run| - 1], e)
  {
    SafeForEver(run, s, e, |run| - 1);
    SafeIsNotInUse(run[|run| - 1], e);
    hide LocksInv, ShapeInv, RunnerInv, FlagsInv, QueueInv, SlotsInv, MembersInv, CachedInv, AckInv, ManagerInv;
    hide RowsInv, IsSafe, FreedInUse;
  }

  /** What the downloader reads is what the next state is safe or unsafe by. */
  lemma ReadIsSafe(s: State, d: Tid, e: Eid, n: int, th': Thread, s': State)
    requires Inv(s) && Inv(s') && CallStep(s, d, ReadCount(e, n), th', s')
    requires n != 0 || !SomeAcknowledging(s, e)
    ensures IsSafe(s', e)
  {
    var c := ReadCount(e, n);
    assert RunnerInv(s) && RunnerInv(s') && FlagsInv(s) && QueueInv(s) && MembersInv(s);
    CallOfDownload(s, d, c, th', e);
    DownloadMoves(s, d, c, th', s', e);
    hide LocksInv, ShapeInv, RunnerInv, FlagsInv, QueueInv, SlotsInv, CachedInv, AckInv, ManagerInv, RowsInv;
    hide Progress, Does;
    if n == 0 {
      assert s.entries[e].members == {};
      assert s.entries[e].broadcast by { FlagsOfRead(s, e); }
      LeftKept(s, d, c, th', s', e);
    } else {
      EntriesKeep(s, d, c);
    }
    hide MembersInv, CallStep, IsLeft;
  }

  lemma FlagsOfRead(s: State, e: Eid)
    requires FlagsInv(s) && e < |s.entries| && Progress(s, e) == 22
    ensures s.entries[e].broadcast
  {
  }

  // ----- Subscriptions that are freed too early -----

  lemma StepsOn(run: seq<State>, s: State, t: Tid, c: Call, th': Thread, s': State) returns (longer: seq<State>)
    requires run != [] && Continues(run, s) && CallStep(run[|run| - 1], t, c, th', s')
    ensures longer == run + [s'] && Continues(longer, s)
  {
    longer := run + [s'];
    forall i | 0 < i < |longer| ensures StepAt(longer, i) {
      if i < |run| { assert StepAt(run, i); }
    }
    hide CallStep;
  }

  lemma IdleStays(s: State, d: Tid, c: Call, th': Thread, s': State, t: Tid, e: Eid)
    requires CallStep(s, d, c, th', s') && IsAcknowledging(s, t, e) && t != d
    requires c.Give? || c.FreeEntry? || c.ReadCount?
    ensures IsAcknowledging(s', t, e)
  {
    ThreadAfter(s, d, c, th', s', t);
    hide Does, Allowed, After, CallStep;
  }

  lemma Unlocks(s: State, d: Tid, e: Eid, t: Tid, s': State)
    requires d in s.threads && s.threads[d].Downloader? && s.threads[d].dpc == DUnlockAck && s.threads[d].entry == e
    requires e < |s.entries| && IsAcknowledging(s, t, e)
    requires s' == After(s, d, Give(AckLock(e)), Downloader(DFree, s.threads[d].slot, e))
    ensures CallStep(s, d, Give(AckLock(e)), Downloader(DFree, s.threads[d].slot, e), s')
    ensures d in s'.threads && s'.threads[d] == Downloader(DFree, s.threads[d].slot, e)
    ensures e < |s'.entries| && IsAcknowledging(s', t, e)
  {
    var c, th' := Give(AckLock(e)), Downloader(DFree, s.threads[d].slot, e);
    hide ClientDoes, ManagerDoes, UploaderDoes, PutterDoes, After;
    assert CallStep(s, d, c, th', s');
    hide Does, Allowed, CallStep, IsAcknowledging;
    ThreadAfter(s, d, c, th', s', d);
    IdleStays(s, d, c, th', s', t, e);
    EntriesOfUnlock(s, d, e, th');
  }

  lemma EntriesOfUnlock(s: State, d: Tid, e: Eid, th': Thread)
    ensures After(s, d, Give(AckLock(e)), th').entries == s.entries
  {
  }

  lemma FreesEntry(s: State, d: Tid, i: nat, e: Eid, t: Tid, s': State)
    requires d in s.threads && s.threads[d] == Downloader(DFree, i, e) && e < |s.entries| && IsAcknowledging(s, t, e)
    requires s' == After(s, d, FreeEntry(e), Downloader(DDone, i, e))
    ensures CallStep(s, d, FreeEntry(e), Downloader(DDone, i, e), s') && FreedInUse(s', e)
  {
    var c, th' := FreeEntry(e), Downloader(DDone, i, e);
    hide ClientDoes, ManagerDoes, UploaderDoes, PutterDoes, EntriesAfter, ThreadsAfter, LocksAfter;
    assert CallStep(s, d, c, th', s');
    hide Does, Allowed, CallStep, IsAcknowledging;
    IdleStays(s, d, c, th', s', t, e);
    FlagsOfEntry(s, d, c, e);
  }

  /** A downloader that has read zero needs nobody to go on and free its subscription. */
  lemma FreesUnderUser(s: State, d: Tid, e: Eid, t: Tid) returns (run: seq<State>)
    requires d in s.threads && s.threads[d].Downloader? && s.threads[d].dpc == DUnlockAck && s.threads[d].entry == e
    requires e < |s.entries| && IsAcknowledging(s, t, e)
    ensures Continues(run, s) && FreedInUse(run[|run| - 1], e)
  {
    var i := s.threads[d].slot;
    var s1 := After(s, d, Give(AckLock(e)), Downloader(DFree, i, e));
    var s2 := After(s1, d, FreeEntry(e), Downloader(DDone, i, e));
    hide After, CallStep, IsAcknowledging, FreedInUse, StepAt;
    Unlocks(s, d, e, t, s1);
    FreesEntry(s1, d, i, e, t, s2);
    run := StepsOn([s], s, d, Give(AckLock(e)), Downloader(DFree, i, e), s1);
    run := StepsOn(run, s, d, FreeEntry(e), Downloader(DDone, i, e), s2);
  }

  lemma ReadsZero(s: State, d: Tid, e: Eid, th': Thread, s': State, t: Tid)
    requires CallStep(s, d, ReadCount(e, 0), th', s') && IsAcknowledging(s, t, e)
    ensures e < |s'.entries| && IsAcknowledging(s', t, e) && d in s'.threads
    ensures s'.threads[d].Downloader? && s'.threads[d].dpc == DUnlockAck && s'.threads[d].entry == e
  {
    var c := ReadCount(e, 0);
    CallOfDownload(s, d, c, th', e);
    ThreadAfter(s, d, c, th', s', d);
    IdleStays(s, d, c, th', s', t, e);
    EntriesKeep(s, d, c);
  }

  // ----- The exact condition -----

  /**
   When the downloader reads the count, it is settled whether its subscription
   can ever be freed in use: it cannot if the count is not zero or nobody is
   acknowledging at that moment, and it can in every other case.
   */
  lemma FreedInTime(s: State, d: Tid, e: Eid, n: int, th': Thread, s': State)
    requires Reachable(s) && CallStep(s, d, ReadCount(e, n), th', s')
    ensures n != 0 || !SomeAcknowledging(s, e) <==>
            forall run :: Continues(run, s') ==> !FreedInUse(run[|run| - 1], e)
  {
    hide LocksInv, ShapeInv, RunnerInv, FlagsInv, QueueInv, SlotsInv, MembersInv, CachedInv, AckInv, ManagerInv;
    hide RowsInv, CallStep, IsAcknowledging, StepAt, FreedInUse, IsSafe, Reachable, Inv;
    ReachableInv(s);
    CallKeeps(s, d, ReadCount(e, n), th', s');
    if n != 0 || !SomeAcknowledging(s, e) {
      ReadIsSafe(s, d, e, n, th', s');
      forall run | Continues(run, s') ensures !FreedInUse(run[|run| - 1], e) {
        SafeIsNeverInUse(run, s', e);
      }
    } else {
      var t :| IsAcknowledging(s, t, e);
      ReadsZero(s, d, e, th', s', t);
      var run := FreesUnderUser(s', d, e, t);
    }
  }

  /** The downloader has read zero; the client is about to lock acknowledgeMutex. */
  function ZeroRead(): State {
    Finished(MWoken, CLockAck(0), DUnlockAck, map[AckLock(0) := DOWNLOADER, MainLock := CLIENT], Only(false, 0, true))
  }

  function Freeing(): State {
    Finished(MWoken, CLockAck(0), DFree, map[MainLock := CLIENT], Only(false, 0, true))
  }

  function Freed(): State {
    Finished(MWoken, CLockAck(0), DDone, map[MainLock := CLIENT], Only(false, 0, true).(freed := true))
  }

  lemma ReadsCount() returns (run: seq<State>)
    ensures Ends(run, ZeroRead())
  {
    hide ClientDoes, ManagerDoes, UploaderDoes, PutterDoes, Ends;
    var s := Left();
    run := ReachesRead();
    run, s := Looks(run, s, DOWNLOADER, ReadCount(0, 0), Downloader(DUnlockAck, 0, 0));
    assert s.threads == Threads(MWoken, CLockAck(0), Some(DUnlockAck));
  }

  lemma UnlocksAck(run: seq<State>) returns (longer: seq<State>)
    requires Ends(run, ZeroRead())
    ensures Ends(longer, Freeing())
  {
    hide ClientDoes, ManagerDoes, UploaderDoes, PutterDoes, Ends;
    var s := ZeroRead();
    longer, s := TransferRuns.Gives(run, s, DOWNLOADER, AckLock(0), Downloader(DFree, 0, 0));
    assert s.threads == Threads(MWoken, CLockAck(0), Some(DFree));
    assert s.locks == Freeing().locks;
  }

  lemma FreesEarly(run: seq<State>) returns (longer: seq<State>)
    requires Ends(run, Freeing())
    ensures Ends(longer, Freed())
  {
    hide ClientDoes, ManagerDoes, UploaderDoes, PutterDoes, Ends;
    var s, s' := Freeing(), Freed();
    var c, th' := FreeEntry(0), Downloader(DDone, 0, 0);
    Alone(s, DOWNLOADER, c, th');
    hide ThreadsAfter;
    assert ThreadsAfter(s, DOWNLOADER, c, th') == s'.threads;
    longer := Goes(run, s, DOWNLOADER, c, th', s');
  }

  lemma LocksFreed(run: seq<State>) returns (longer: seq<State>, s: State)
    requires Ends(run, Freed())
    ensures Ends(longer, s) && FreedInUse(s, 0) && AckLock(0) in s.locks && s.locks[AckLock(0)] == CLIENT
  {
    hide ManagerDoes, DownloaderDoes, UploaderDoes, PutterDoes, Ends;
    s := Freed();
    longer, s := Takes(run, s, CLIENT, AckLock(0), Client(CSignalAck(0), 1, true));
    assert IsAcknowledging(s, CLIENT, 0);
  }

  /** A run that shows it: the client locks the mutex of the subscription that was freed under it. */
  lemma UseAfterFree() returns (run: seq<State>)
    ensures IsRun(run)
    ensures FreedInUse(run[|run| - 1], 0)
    ensures AckLock(0) in run[|run| - 1].locks && run[|run| - 1].locks[AckLock(0)] == CLIENT
  {
    hide FreedInUse, StepAt, Init;
    var s: State;
    run := ReadsCount();
    run := UnlocksAck(run);
    run := FreesEarly(run);
    run, s := LocksFreed(run);
  }
}
