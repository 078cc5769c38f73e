/** Subscribing to a download, being woken by it, and the acknowledgement of the last to leave. */
module TransferSubscribers {
  import opened Wrappers
  import opened TransferSystem
  import opened TransferInvariants
  import opened TransferMutexes
  import opened TransferDownloads

  // ----- Single threads -----

  /** The call subscribes its thread to e. */
  predicate Joins(c: Call, e: Eid) {
    (c.Search? && c.found == Some(e)) || (c.Enqueue? && c.e == e)
  }

  lemma RegisteredMoves(th: Thread, c: Call, th': Thread, e: Eid)
    requires th.Client? && Does(th, c, th')
    ensures Registered(th', e) <==> Joins(c, e) || (Registered(th, e) && !c.Unsubscribe?)
    ensures Joins(c, e) ==> ClientEntry(th.cpc) == None
    ensures c.Unsubscribe? && c.e == e ==> Registered(th, e) && AfterWake(th, e)
    ensures c.Unsubscribe? && Registered(th, e) ==> c.e == e
  {
    RegisteredStays(th, c, th', e);
    Unsubscribes(th, c, th', e);
    hide *;
  }

  lemma RegisteredStays(th: Thread, c: Call, th': Thread, e: Eid)
    requires th.Client? && Does(th, c, th')
    ensures Registered(th', e) <==> Joins(c, e) || (Registered(th, e) && !c.Unsubscribe?)
  {
    hide Does, Registered, Joins, ClientEntry;
    if ClientEntry(th.cpc).None? { Registers(th, c, th', e); } else { StaysRegistered(th, c, th', e); }
  }

  lemma Registers(th: Thread, c: Call, th': Thread, e: Eid)
    requires th.Client? && ClientEntry(th.cpc).None? && Does(th, c, th')
    ensures !Registered(th, e) && (Registered(th', e) <==> Joins(c, e))
  {
    hide DownloaderDoes, ManagerDoes, UploaderDoes, PutterDoes;
  }

  lemma StaysRegistered(th: Thread, c: Call, th': Thread, e: Eid)
    requires th.Client? && ClientEntry(th.cpc).Some? && Does(th, c, th')
    ensures !Joins(c, e) && (Registered(th', e) <==> Registered(th, e) && !c.Unsubscribe?)
  {
    hide DownloaderDoes, ManagerDoes, UploaderDoes, PutterDoes;
  }

  lemma Unsubscribes(th: Thread, c: Call, th': Thread, e: Eid)
    requires th.Client? && Does(th, c, th')
    ensures Joins(c, e) ==> ClientEntry(th.cpc) == None
    ensures c.Unsubscribe? && c.e == e ==> Registered(th, e) && AfterWake(th, e)
    ensures c.Unsubscribe? && Registered(th, e) ==> c.e == e
  {
    hide DownloaderDoes, ManagerDoes, UploaderDoes, PutterDoes;
  }

  lemma WakeMoves(th: Thread, c: Call, th': Thread, e: Eid)
    requires th.Client? && Does(th, c, th')
    ensures BeforeWake(th', e) <==> Joins(c, e) || BeforeWake(th, e)
    ensures AfterWake(th', e) ==> AfterWake(th, e)
  {
    BeforeWakeMoves(th, c, th', e);
    AfterWakeMoves(th, c, th', e);
    hide *;
  }

  lemma BeforeWakeMoves(th: Thread, c: Call, th': Thread, e: Eid)
    requires th.Client? && Does(th, c, th')
    ensures BeforeWake(th', e) <==> Joins(c, e) || BeforeWake(th, e)
  {
    hide DownloaderDoes, ManagerDoes, UploaderDoes, PutterDoes;
  }

  lemma AfterWakeMoves(th: Thread, c: Call, th': Thread, e: Eid)
    requires th.Client? && Does(th, c, th')
    ensures AfterWake(th', e) ==> AfterWake(th, e)
  {
    hide DownloaderDoes, ManagerDoes, UploaderDoes, PutterDoes;
  }

  lemma YetToSignalMoves(th: Thread, c: Call, th': Thread, e: Eid)
    requires th.Client? && Does(th, c, th')
    ensures YetToSignal(th', e) <==> (c.Unsubscribe? && c.e == e && c.left == 0) || (YetToSignal(th, e) && !c.SignalAck?)
    ensures c.SignalAck? && c.e == e ==> YetToSignal(th, e) && Holds(th, AckLock(e))
  {
    hide DownloaderDoes, ManagerDoes, UploaderDoes, PutterDoes;
  }

  lemma AcknowledgingMoves(th: Thread, c: Call, th': Thread, e: Eid)
    requires th.Client? && Does(th, c, th')
    ensures Acknowledging(th', e) <==>
              (c.Unsubscribe? && c.e == e && c.left == 0) || (Acknowledging(th, e) && c != Give(AckLock(e)))
  {
    hide DownloaderDoes, ManagerDoes, UploaderDoes, PutterDoes;
  }

  lemma AckMoves(th: Thread, c: Call, th': Thread, e: Eid)
    requires th.Client? && Does(th, c, th')
    ensures YetToSignal(th', e) <==> (c.Unsubscribe? && c.e == e && c.left == 0) || (YetToSignal(th, e) && !c.SignalAck?)
    ensures Acknowledging(th', e) <==>
              (c.Unsubscribe? && c.e == e && c.left == 0) || (Acknowledging(th, e) && c != Give(AckLock(e)))
    ensures c.SignalAck? && c.e == e ==> YetToSignal(th, e) && Holds(th, AckLock(e))
  {
    hide *;
    YetToSignalMoves(th, c, th', e);
    AcknowledgingMoves(th, c, th', e);
  }

  /** Other threads do not subscribe, leave or acknowledge. */
  lemma NotAClient(th: Thread, c: Call, th': Thread)
    requires !th.Client? && Does(th, c, th')
    ensures !th'.Client? && !c.Search? && !c.Enqueue? && !c.Unsubscribe? && !c.SignalAck?
  {
    SameKindDoes(th, c, th');
    if th.Downloader? { DownloaderMoves(th, c, th'); }
    hide ClientDoes, DownloaderDoes;
  }

  /** The broadcast moves the sleepers on its subscription from before to after their waking. */
  lemma ClientWoken(c: Call, u: Tid, th: Thread, e: Eid)
    requires th.Client?
    ensures var th' := Woken(c, u, th);
            && th'.Client?
            && (Registered(th', e) <==> Registered(th, e))
            && (YetToSignal(th', e) <==> YetToSignal(th, e))
            && (Acknowledging(th', e) <==> Acknowledging(th, e))
            && (AfterWake(th', e) <==> AfterWake(th, e) || (c == Broadcast(e) && th.cpc == CAsleep(e)))
            && (BeforeWake(th', e) <==> BeforeWake(th, e) && !(c == Broadcast(e) && th.cpc == CAsleep(e)))
  {
  }

  /** Who holds mainLoop_mutex or waitMutex is not asleep; everyone else who has subscribed is. */
  lemma AwakeHolds(th: Thread, e: Eid)
    requires BeforeWake(th, e) && th.cpc != CAsleep(e)
    ensures Holds(th, MainLock) || Holds(th, WaitLock(e))
  {
  }

  // ----- Subscribers -----

  lemma RegisteredAfter(s: State, t: Tid, c: Call, th': Thread, s': State, u: Tid, e: Eid)
    requires CallStep(s, t, c, th', s')
    ensures IsRegistered(s', u, e) <==> (u == t && Joins(c, e)) || (IsRegistered(s, u, e) && !(u == t && c.Unsubscribe?))
    ensures u == t && Joins(c, e) ==> !IsRegistered(s, u, e)
    ensures u == t && c.Unsubscribe? ==> (IsRegistered(s, u, e) <==> c.e == e)
  {
    hide Does, Woken, After, Allowed, ThreadsAfter;
    ThreadAfter(s, t, c, th', s', u);
    if s.threads[t].Client? { RegisteredMoves(s.threads[t], c, th', e); } else { NotAClient(s.threads[t], c, th'); }
    if u in s.threads {
      if s.threads[u].Client? { ClientWoken(c, u, s.threads[u], e); } else { SameKindWoken(c, u, s.threads[u]); }
    }
    hide Does, Woken, After, Allowed, ThreadsAfter;
  }

  lemma MembersOfEntry(s: State, t: Tid, c: Call, e: Eid)
    requires e < |s.entries| && Allowed(s, c)
    ensures var before := s.entries[e];
            var after := EntriesAfter(s, t, c)[e];
            if c.Search? && c.found == Some(e) then
              after.members == before.members + {t} && after.subscribers == before.subscribers + 1
            else if c.Unsubscribe? && c.e == e && before.subscribers != 0 then
              after.members == before.members - {t} && after.subscribers == before.subscribers - 1
            else
              after.members == before.members && after.subscribers == before.subscribers
  {
    EntriesKeep(s, t, c);
  }

  lemma MembersOfEntryKept(s: State, t: Tid, c: Call, th': Thread, s': State, e: Eid)
    requires MembersInv(s) && CallStep(s, t, c, th', s') && e < |s'.entries|
    requires e >= |s.entries| ==> forall u :: !IsRegistered(s, u, e)
    ensures forall u :: u in s'.entries[e].members <==> IsRegistered(s', u, e)
    ensures s'.entries[e].subscribers == |s'.entries[e].members|
  {
    forall u
      ensures IsRegistered(s', u, e) <==>
              (u == t && Joins(c, e)) || (IsRegistered(s, u, e) && !(u == t && c.Unsubscribe?))
      ensures u == t && Joins(c, e) ==> !IsRegistered(s, u, e)
      ensures u == t && c.Unsubscribe? ==> (IsRegistered(s, u, e) <==> c.e == e)
    {
      RegisteredAfter(s, t, c, th', s', u, e);
    }
    assert IsRegistered(s, t, e) <==> IsRegistered(s, t, e);
    EntriesKeep(s, t, c);
    assert s'.entries == EntriesAfter(s, t, c);
    if e < |s.entries| {
      MembersOfEntry(s, t, c, e);
    } else {
      assert s'.entries[e].members == {t} && s'.entries[e].subscribers == 1 && Joins(c, e);
    }
    hide Does, Allowed, After, CallStep, IsRegistered, EntriesAfter;
  }

  /** Nobody refers to a subscription that does not exist yet. */
  lemma NobodyYet(s: State, u: Tid, e: Eid)
    requires ShapeInv(s) && e >= |s.entries|
    ensures !IsRegistered(s, u, e) && !IsBeforeWake(s, u, e) && !IsAfterWake(s, u, e) && !IsAcknowledging(s, u, e)
  {
    if u in s.threads { assert Sane(s, s.threads[u]); }
  }

  lemma WakeAfter(s: State, t: Tid, c: Call, th': Thread, s': State, u: Tid, e: Eid)
    requires CallStep(s, t, c, th', s')
    ensures IsBeforeWake(s', u, e) ==> (u == t && Joins(c, e)) || IsBeforeWake(s, u, e)
    ensures IsBeforeWake(s', u, e) && c == Broadcast(e) ==>
              u != t && (Holds(s.threads[u], MainLock) || Holds(s.threads[u], WaitLock(e)))
    ensures IsAfterWake(s', u, e) ==> IsAfterWake(s, u, e) || c == Broadcast(e)
  {
    ThreadAfter(s, t, c, th', s', u);
    if s.threads[t].Client? { WakeMoves(s.threads[t], c, th', e); } else { NotAClient(s.threads[t], c, th'); }
    if c == Broadcast(e) { CallOfDownload(s, t, c, th', e); }
    if u in s.threads {
      if s.threads[u].Client? {
        ClientWoken(c, u, s.threads[u], e);
        if BeforeWake(s.threads[u], e) && s.threads[u].cpc != CAsleep(e) { AwakeHolds(s.threads[u], e); }
      } else { SameKindWoken(c, u, s.threads[u]); }
    }
    hide Does, Woken, After, Allowed, ThreadsAfter;
  }

  /** The broadcast is sent with mainLoop_mutex and waitMutex held. */
  lemma BroadcasterHolds(th: Thread, c: Call, th': Thread, e: Eid)
    requires th.Downloader? && Does(th, c, th') && c == Broadcast(e)
    ensures Holds(th, MainLock) && Holds(th, WaitLock(e))
  {
    DownloaderMoves(th, c, th');
    hide Does;
  }

  lemma BroadcastFlagKept(s: State, t: Tid, c: Call, th': Thread, s': State, u: Tid, e: Eid)
    requires LocksInv(s) && ShapeInv(s) && FlagsInv(s) && QueueInv(s) && MembersInv(s) && CallStep(s, t, c, th', s')
    requires e < |s'.entries|
    ensures IsBeforeWake(s', u, e) ==> !s'.entries[e].broadcast
    ensures IsAfterWake(s', u, e) ==> s'.entries[e].broadcast
  {
    WakeAfter(s, t, c, th', s', u, e);
    EntriesKeep(s, t, c);
    assert s'.entries == EntriesAfter(s, t, c);
    if e >= |s.entries| {
      NobodyYet(s, u, e);
      assert !s'.entries[e].broadcast && c.Enqueue?;
    } else {
      FlagsOfEntry(s, t, c, e);
      if c.Search? && c.found == Some(e) { Found(s.queue, s.entries, c.f); }
      if c == Broadcast(e) && IsBeforeWake(s', u, e) {
        CallOfDownload(s, t, c, th', e);
        BroadcasterHolds(s.threads[t], c, th', e);
        assert u in s.threads by { ThreadAfter(s, t, c, th', s', u); }
        if Holds(s.threads[u], MainLock) { OneHolder(s, t, u, MainLock); } else { OneHolder(s, t, u, WaitLock(e)); }
      }
    }
    assert c.Search? ==> c.found == FindInQueue(s.queue, s.entries, c.f);
    hide Does, Allowed, After, CallStep, IsBeforeWake, IsAfterWake, EntriesAfter, LocksInv, ShapeInv, Holds;
    hide FindInQueue;
  }

  lemma MembersKept(s: State, t: Tid, c: Call, th': Thread, s': State)
    requires LocksInv(s) && ShapeInv(s) && FlagsInv(s) && QueueInv(s) && MembersInv(s) && CallStep(s, t, c, th', s')
    ensures MembersInv(s')
  {
    forall e: nat, u | e < |s'.entries|
      ensures u in s'.entries[e].members <==> IsRegistered(s', u, e)
      ensures s'.entries[e].subscribers == |s'.entries[e].members|
      ensures IsBeforeWake(s', u, e) ==> !s'.entries[e].broadcast
      ensures IsAfterWake(s', u, e) ==> s'.entries[e].broadcast
    {
      BroadcastFlagKept(s, t, c, th', s', u, e);
      forall v | e >= |s.entries| ensures !IsRegistered(s, v, e) { NobodyYet(s, v, e); }
      MembersOfEntryKept(s, t, c, th', s', e);
    }
    hide LocksInv, ShapeInv, FlagsInv, QueueInv, CallStep, IsRegistered, IsBeforeWake, IsAfterWake;
  }

  // ----- Cached files -----

  lemma DoneMoves(th: Thread, c: Call, th': Thread)
    requires th.Client? && Does(th, c, th') && th'.cpc == CDone(Ok)
    ensures th'.file == th.file
    ensures (c.IsCached? && c.cached && c.f == th.file) || th.cpc.CLeaveMain?
  {
    hide DownloaderDoes, ManagerDoes, UploaderDoes, PutterDoes;
  }

  lemma CachedFileKept(s: State, t: Tid, c: Call, th': Thread, s': State, e: Eid)
    requires ShapeInv(s) && RunnerInv(s) && RunnerInv(s') && CachedInv(s) && CallStep(s, t, c, th', s')
    requires e < |s'.entries| && Progress(s', e) >= 15
    ensures s'.entries[e].fileId in s'.files && s'.files[s'.entries[e].fileId]
  {
    DownloadMoves(s, t, c, th', s', e);
    EntriesKeep(s, t, c);
    assert s'.entries == EntriesAfter(s, t, c) && s'.files == FilesAfter(s, c);
    if s.threads[t].Downloader? { DownloaderMoves(s.threads[t], c, th'); }
    assert e < s.starts ==> e < |s.entries|;
    assert e >= s.starts ==> Progress(s, e) == 0;
    hide Does, Allowed, After, CallStep, RunnerInv, EntriesAfter, Progress;
  }

  lemma FilesStay(s: State, c: Call, f: FileId)
    requires f in s.files && s.files[f]
    ensures f in FilesAfter(s, c) && FilesAfter(s, c)[f]
  {
  }

  /** An answer is sent to a client that found its file cached, or that was woken. */
  lemma OwnAnswer(s: State, t: Tid, c: Call, th': Thread)
    requires ShapeInv(s) && FlagsInv(s) && MembersInv(s) && CachedInv(s)
    requires t in s.threads && Does(s.threads[t], c, th') && Allowed(s, c) && s.threads[t].Client?
    requires th'.cpc == CDone(Ok) && th'.file != 0
    ensures th'.file in s.files && s.files[th'.file]
  {
    var th := s.threads[t];
    DoneMoves(th, c, th');
    assert Sane(s, th);
    if th.cpc.CLeaveMain? {
      assert IsAfterWake(s, t, th.cpc.e);
      assert Progress(s, th.cpc.e) >= 19;
    }
    hide Does, Progress;
  }

  lemma AnswerWoken(c: Call, u: Tid, th: Thread)
    requires Woken(c, u, th).Client? && Woken(c, u, th).cpc.CDone?
    ensures Woken(c, u, th) == th
  {
  }

  lemma AnswerKept(s: State, t: Tid, c: Call, th': Thread, s': State, u: Tid)
    requires ShapeInv(s) && FlagsInv(s) && MembersInv(s) && CachedInv(s) && CallStep(s, t, c, th', s')
    requires u in s'.threads && s'.threads[u].Client? && s'.threads[u].cpc == CDone(Ok) && s'.threads[u].file != 0
    ensures s'.threads[u].file in s'.files && s'.files[s'.threads[u].file]
  {
    ThreadAfter(s, t, c, th', s', u);
    KeepsKinds(s, t, c, th', s');
    assert s'.files == FilesAfter(s, c);
    if u == t {
      OwnAnswer(s, t, c, th');
    } else if u in s.threads {
      AnswerWoken(c, u, s.threads[u]);
    }
    FilesStay(s, c, s'.threads[u].file);
    hide Does, Allowed, After, CallStep, Progress, ThreadsAfter, FlagsInv, ShapeInv, MembersInv, Woken, FilesAfter;
  }

  lemma CachedKept(s: State, t: Tid, c: Call, th': Thread, s': State)
    requires ShapeInv(s) && RunnerInv(s) && FlagsInv(s) && QueueInv(s) && MembersInv(s) && CachedInv(s)
    requires CallStep(s, t, c, th', s')
    ensures CachedInv(s')
  {
    RunnerKept(s, t, c, th', s');
    forall e: nat | e < |s'.entries| && Progress(s', e) >= 15
      ensures s'.entries[e].fileId in s'.files && s'.files[s'.entries[e].fileId]
    {
      CachedFileKept(s, t, c, th', s', e);
    }
    forall u <- s'.threads | s'.threads[u].Client? && s'.threads[u].cpc == CDone(Ok) && s'.threads[u].file != 0
      ensures s'.threads[u].file in s'.files && s'.files[s'.threads[u].file]
    {
      AnswerKept(s, t, c, th', s', u);
    }
    hide ShapeInv, RunnerInv, FlagsInv, QueueInv, MembersInv, CallStep, Progress;
  }

  // ----- The acknowledgement -----

  lemma AckAfter(s: State, t: Tid, c: Call, th': Thread, s': State, u: Tid, e: Eid)
    requires CallStep(s, t, c, th', s')
    ensures IsYetToSignal(s', u, e) <==> (u == t && c.Unsubscribe? && c.e == e && c.left == 0)
                                         || (IsYetToSignal(s, u, e) && !(u == t && c.SignalAck?))
    ensures IsAcknowledging(s', u, e) <==> (u == t && c.Unsubscribe? && c.e == e && c.left == 0)
                                           || (IsAcknowledging(s, u, e) && !(u == t && c == Give(AckLock(e))))
    ensures c.SignalAck? && c.e == e ==> IsYetToSignal(s, t, e) && HeldBy(s, t, AckLock(e))
    ensures c.Unsubscribe? && c.e == e ==> IsRegistered(s, t, e) && IsAfterWake(s, t, e)
  {
    ThreadAfter(s, t, c, th', s', u);
    if s.threads[t].Client? {
      AckMoves(s.threads[t], c, th', e);
      RegisteredMoves(s.threads[t], c, th', e);
    } else { NotAClient(s.threads[t], c, th'); }
    if u in s.threads {
      if s.threads[u].Client? { ClientWoken(c, u, s.threads[u], e); } else { SameKindWoken(c, u, s.threads[u]); }
    }
    hide Does, Woken, After, Allowed, ThreadsAfter, Holds, Registered, AfterWake, BeforeWake;
  }

  lemma HistoryOfEntry(s: State, t: Tid, c: Call, e: Eid)
    requires e < |s.entries|
    ensures var before := s.entries[e];
            var after := EntriesAfter(s, t, c);
            && e < |after|
            && after[e].acked == (before.acked || (c.SignalAck? && c.e == e && c.woken.Some?))
            && after[e].last == (if c.Unsubscribe? && c.e == e && c.left == 0 && before.subscribers != 0 then t else before.last)
  {
  }

  /** Once everyone has left a download that was broadcast, it stays so. */
  lemma EmptyStays(s: State, t: Tid, c: Call, th': Thread, s': State, e: Eid)
    requires FlagsInv(s) && QueueInv(s) && MembersInv(s) && CallStep(s, t, c, th', s')
    requires e < |s.entries| && s.entries[e].members == {} && s.entries[e].broadcast
    ensures e < |s'.entries| && s'.entries[e].members == {}
    ensures s'.entries[e].last == s.entries[e].last && s'.entries[e].broadcast
    ensures !(c.Unsubscribe? && c.e == e)
  {
    AckAfter(s, t, c, th', s', t, e);
    EntriesKeep(s, t, c);
    assert s'.entries == EntriesAfter(s, t, c);
    MembersOfEntry(s, t, c, e);
    HistoryOfEntry(s, t, c, e);
    FlagsOfEntry(s, t, c, e);
    if c.Search? && c.found == Some(e) { Found(s.queue, s.entries, c.f); }
    assert c.Search? ==> c.found == FindInQueue(s.queue, s.entries, c.f);
    hide Does, Allowed, After, CallStep, EntriesAfter, FindInQueue, IsRegistered, IsAfterWake;
  }

  /** The last to leave is the one that acknowledges. */
  lemma AcknowledgerKept(s: State, t: Tid, c: Call, th': Thread, s': State, u: Tid, e: Eid)
    requires ShapeInv(s) && FlagsInv(s) && QueueInv(s) && MembersInv(s) && AckInv(s) && CallStep(s, t, c, th', s')
    requires e < |s'.entries| && IsAcknowledging(s', u, e)
    ensures u == s'.entries[e].last && s'.entries[e].members == {} && s'.entries[e].broadcast
  {
    AckAfter(s, t, c, th', s', u, e);
    EntriesKeep(s, t, c);
    assert s'.entries == EntriesAfter(s, t, c);
    if e >= |s.entries| {
      NobodyYet(s, u, e);
      NobodyYet(s, t, e);
    } else if IsAcknowledging(s, u, e) {
      EmptyStays(s, t, c, th', s', e);
    } else {
      LastLeaves(s, t, c, th', s');
    }
    hide Does, Allowed, After, CallStep, EntriesAfter, IsAcknowledging, FlagsInv, QueueInv, ShapeInv, MembersInv;
  }

  lemma LastLeaves(s: State, t: Tid, c: Call, th': Thread, s': State)
    requires MembersInv(s) && CallStep(s, t, c, th', s')
    requires c.Unsubscribe? && c.left == 0
    ensures c.e < |s'.entries| && s'.entries[c.e].members == {} && s'.entries[c.e].last == t
    ensures s'.entries[c.e].broadcast && c.e < |s.entries| && s.entries[c.e].members != {}
    ensures IsYetToSignal(s', t, c.e)
  {
    var e := c.e;
    AckAfter(s, t, c, th', s', t, e);
    EntriesKeep(s, t, c);
    assert s'.entries == EntriesAfter(s, t, c);
    MembersOfEntry(s, t, c, e);
    HistoryOfEntry(s, t, c, e);
    FlagsOfEntry(s, t, c, e);
    assert s.entries[e].subscribers == 1;
    assert t in s.entries[e].members;
    assert |s.entries[e].members - {t}| == 0;
    hide Does, Allowed, After, CallStep, EntriesAfter, IsRegistered, IsAfterWake;
  }

  /** A call that leaves a subscription without members is the leaving of the last, or found it so. */
  lemma EmptiedBy(s: State, t: Tid, c: Call, th': Thread, s': State, e: Eid)
    requires MembersInv(s) && CallStep(s, t, c, th', s')
    requires e < |s.entries| && e < |s'.entries| && s'.entries[e].members == {}
    ensures s.entries[e].members == {} || (c.Unsubscribe? && c.e == e && c.left == 0)
  {
    assert s'.entries == EntriesAfter(s, t, c);
    MembersOfEntry(s, t, c, e);
    AckAfter(s, t, c, th', s', t, e);
    if s.entries[e].members != {} && c.Unsubscribe? && c.e == e {
      assert t in s.entries[e].members;
      assert s.entries[e].members == {t} + (s.entries[e].members - {t});
    }
    hide Does, After, CallStep, EntriesAfter, IsRegistered, IsAfterWake;
  }

  /** While its downloader is between the two, it has acknowledgeMutex. */
  lemma ReaderHolds(s: State, e: Eid)
    requires RunnerInv(s) && e < s.starts && Progress(s, e) == 23
    ensures HeldBy(s, s.entries[e].runner, AckLock(e)) && s.threads[s.entries[e].runner].Downloader?
  {
  }

  lemma SleeperWaits(s: State, e: Eid)
    requires RunnerInv(s) && e < s.starts && Progress(s, e) == 24
    ensures WaitsForAck(s.threads, s.entries[e].runner, e)
  {
  }

  /** A downloader that waits for nobody is owed a signal. */
  lemma SignalOwedKept(s: State, t: Tid, c: Call, th': Thread, s': State, e: Eid)
    requires LocksInv(s) && RunnerInv(s) && RunnerInv(s') && FlagsInv(s) && QueueInv(s) && MembersInv(s) && AckInv(s)
    requires CallStep(s, t, c, th', s')
    requires e < |s'.entries| && 23 <= Progress(s', e) <= 24 && s'.entries[e].members == {}
    ensures IsYetToSignal(s', s'.entries[e].last, e)
  {
    DownloadMoves(s, t, c, th', s', e);
    EntriesKeep(s, t, c);
    assert s'.entries == EntriesAfter(s, t, c);
    assert e < s.starts && e < |s.entries| by { ProgressStarted(s, e); }
    EmptiedBy(s, t, c, th', s', e);
    if s.entries[e].members == {} {
      assert Progress(s, e) != 22;
      EmptyStays(s, t, c, th', s', e);
      var last := s.entries[e].last;
      AckAfter(s, t, c, th', s', last, e);
      if t == last && c.SignalAck? { NoLostSignal(s, t, c, th', e); }
    } else {
      LastLeaves(s, t, c, th', s');
    }
    hide Does, Allowed, After, CallStep, EntriesAfter, IsYetToSignal, LocksInv, RunnerInv, QueueInv;
    hide MembersInv, Progress;
  }

  lemma ProgressStarted(s: State, e: Eid)
    requires RunnerInv(s) && Progress(s, e) != 0
    ensures e < s.starts && e < |s.entries|
  {
  }

  /** The signal finds the downloader asleep, unless the downloader saw that it need not wait. */
  lemma NoLostSignal(s: State, t: Tid, c: Call, th': Thread, e: Eid)
    requires LocksInv(s) && RunnerInv(s) && t in s.threads && Does(s.threads[t], c, th') && Allowed(s, c)
    requires IsYetToSignal(s, t, e) && c.SignalAck?
    ensures c.e == e
    ensures Progress(s, e) != 23
    ensures Progress(s, e) == 24 ==> c.woken.Some?
  {
    AckMoves(s.threads[t], c, th', e);
    AckMoves(s.threads[t], c, th', c.e);
    if Progress(s, e) == 23 {
      ProgressStarted(s, e);
      ReaderHolds(s, e);
      OneHolder(s, t, s.entries[e].runner, AckLock(e));
    }
    if Progress(s, e) == 24 {
      ProgressStarted(s, e);
      SleeperWaits(s, e);
    }
    hide Does, Progress, Holds, LocksInv, RunnerInv;
  }

  /** Nobody is left once the downloader has been woken, or has seen that it need not sleep. */
  lemma NobodyLeftKept(s: State, t: Tid, c: Call, th': Thread, s': State, e: Eid)
    requires RunnerInv(s) && RunnerInv(s') && FlagsInv(s) && QueueInv(s) && MembersInv(s) && AckInv(s)
    requires CallStep(s, t, c, th', s')
    requires e < |s'.entries| && Progress(s', e) >= 25
    ensures s'.entries[e].members == {}
  {
    DownloadMoves(s, t, c, th', s', e);
    assert e < s.starts && e < |s.entries| by { ProgressStarted(s, e); }
    AckAfter(s, t, c, th', s', t, e);
    if c.SignalAck? && c.e == e { assert IsAcknowledging(s, t, e); }
    assert c.ReadCount? && c.e == e ==> c.n == |s.entries[e].members|;
    EmptyStays(s, t, c, th', s', e);
    hide Does, Allowed, After, CallStep, EntriesAfter, IsYetToSignal, RunnerInv, QueueInv, MembersInv, Progress;
  }

  lemma AckedKept(s: State, t: Tid, c: Call, th': Thread, s': State, e: Eid)
    requires RunnerInv(s) && RunnerInv(s') && AckInv(s) && CallStep(s, t, c, th', s') && e < |s'.entries|
    ensures s'.entries[e].acked ==> Progress(s', e) >= 25
    ensures Progress(s', e) == 25 ==> s'.entries[e].acked
    ensures s'.entries[e].acked ==>
              e < |s.entries| && (s.entries[e].acked || (c.SignalAck? && c.e == e && c.woken.Some? && Progress(s', e) == 25))
  {
    DownloadMoves(s, t, c, th', s', e);
    EntriesKeep(s, t, c);
    assert s'.entries == EntriesAfter(s, t, c);
    if e < |s.entries| {
      HistoryOfEntry(s, t, c, e);
    } else {
      assert !s'.entries[e].acked;
      assert Progress(s, e) == 0;
    }
    hide Does, Allowed, After, CallStep, EntriesAfter, RunnerInv, Progress;
  }

  lemma AckedSettled(s: State, t: Tid, c: Call, th': Thread, s': State, u: Tid, e: Eid)
    requires RunnerInv(s) && RunnerInv(s') && FlagsInv(s) && QueueInv(s) && MembersInv(s) && AckInv(s)
    requires CallStep(s, t, c, th', s')
    requires e < |s'.entries| && s'.entries[e].acked
    ensures !IsYetToSignal(s', u, e)
  {
    AckedKept(s, t, c, th', s', e);
    AckAfter(s, t, c, th', s', u, e);
    if s.entries[e].acked {
      EmptyStays(s, t, c, th', s', e);
    } else {
      assert IsAcknowledging(s, t, e);
      assert IsYetToSignal(s, u, e) ==> IsAcknowledging(s, u, e);
    }
    hide Does, Allowed, After, CallStep, EntriesAfter, RunnerInv, Progress, IsYetToSignal, IsAcknowledging;
    hide QueueInv, MembersInv;
  }

  /** The woken downloader takes acknowledgeMutex, so the last to leave has given it back. */
  lemma WokenTakes(s: State, t: Tid, c: Call, th': Thread, e: Eid)
    requires RunnerInv(s) && t in s.threads && s.threads[t].Downloader? && s.threads[t].entry == e
    requires Does(s.threads[t], c, th') && Progress(s, e) == 25
    ensures c == Take(AckLock(e))
  {
  }

  lemma AcknowledgerHolds(s: State, u: Tid, e: Eid)
    requires LocksInv(s) && IsAcknowledging(s, u, e) && !IsYetToSignal(s, u, e)
    ensures AckLock(e) in s.locks
  {
    assert HeldBy(s, u, AckLock(e));
  }

  lemma AcknowledgedKept(s: State, t: Tid, c: Call, th': Thread, s': State, u: Tid, e: Eid)
    requires LocksInv(s) && RunnerInv(s) && RunnerInv(s') && FlagsInv(s) && QueueInv(s) && MembersInv(s) && AckInv(s)
    requires CallStep(s, t, c, th', s')
    requires e < |s'.entries| && s'.entries[e].acked && Progress(s', e) >= 26
    ensures !IsAcknowledging(s', u, e)
  {
    AckedKept(s, t, c, th', s', e);
    DownloadMoves(s, t, c, th', s', e);
    AckAfter(s, t, c, th', s', u, e);
    assert s.entries[e].acked;
    EmptyStays(s, t, c, th', s', e);
    if Progress(s, e) == 25 {
      WokenTakes(s, t, c, th', e);
      if IsAcknowledging(s, u, e) { AcknowledgerHolds(s, u, e); }
    }
    hide Does, After, CallStep, EntriesAfter, RunnerInv, Progress, IsYetToSignal, IsAcknowledging, QueueInv;
    hide MembersInv, LocksInv;
  }

  lemma AckedInvKept(s: State, t: Tid, c: Call, th': Thread, s': State)
    requires LocksInv(s) && RunnerInv(s) && FlagsInv(s) && QueueInv(s) && MembersInv(s) && AckInv(s)
    requires CallStep(s, t, c, th', s')
    ensures AckedInv(s')
  {
    RunnerKept(s, t, c, th', s');
    forall e: nat | e < |s'.entries|
      ensures 23 <= Progress(s', e) <= 24 && s'.entries[e].members == {} ==> IsYetToSignal(s', s'.entries[e].last, e)
      ensures Progress(s', e) >= 25 ==> s'.entries[e].members == {}
      ensures s'.entries[e].acked ==> Progress(s', e) >= 25
      ensures Progress(s', e) == 25 ==> s'.entries[e].acked
    {
      AckedKept(s, t, c, th', s', e);
      if 23 <= Progress(s', e) <= 24 && s'.entries[e].members == {} { SignalOwedKept(s, t, c, th', s', e); }
      if Progress(s', e) >= 25 { NobodyLeftKept(s, t, c, th', s', e); }
      hide *;
    }
    hide LocksInv, RunnerInv, FlagsInv, QueueInv, MembersInv, AckInv, CallStep, Progress, IsYetToSignal;
  }

  lemma AckKept(s: State, t: Tid, c: Call, th': Thread, s': State)
    requires LocksInv(s) && ShapeInv(s) && RunnerInv(s) && FlagsInv(s) && QueueInv(s) && MembersInv(s) && AckInv(s)
    requires CallStep(s, t, c, th', s')
    ensures AckInv(s')
  {
    RunnerKept(s, t, c, th', s');
    AckedInvKept(s, t, c, th', s');
    forall e: nat, u | e < |s'.entries| && IsAcknowledging(s', u, e)
      ensures u == s'.entries[e].last && s'.entries[e].members == {} && s'.entries[e].broadcast
      ensures s'.entries[e].acked ==> Progress(s', e) < 26
    {
      AcknowledgerKept(s, t, c, th', s', u, e);
      if s'.entries[e].acked && Progress(s', e) >= 26 { AcknowledgedKept(s, t, c, th', s', u, e); }
      hide *;
    }
    forall e: nat, u | e < |s'.entries| && s'.entries[e].acked
      ensures !IsYetToSignal(s', u, e)
    {
      AckedSettled(s, t, c, th', s', u, e);
      hide *;
    }
    hide LocksInv, ShapeInv, RunnerInv, FlagsInv, QueueInv, MembersInv, AckedInv, CallStep, Progress;
    hide IsAcknowledging, IsYetToSignal;
  }
}
