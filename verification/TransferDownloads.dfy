/**
 The life of a download: queued, started by the manager, transferred, removed
 from the queue, marked as cached, broadcast, acknowledged, freed.
 */
module TransferDownloads {
  import opened Wrappers
  import opened TransferSystem
  import opened TransferInvariants
  import opened TransferMutexes

  // ----- Single threads -----

  /** A call of a downloader, by its stage. */
  predicate StageCall(n: nat, c: Call, e: Eid, i: nat) {
    && (c.Remove? <==> n == 10)
    && (c.MarkCached? <==> n == 14)
    && (c.SetReady? <==> n == 15)
    && (c.Broadcast? <==> n == 18)
    && (c.SignalMain? <==> n == 19)
    && (c.ReadCount? <==> n == 22)
    && (c.WaitAck? <==> n == 23)
    && (c.FreeEntry? <==> n == 27)
    && (c.Remove? ==> c.e == e)
    && (c.MarkCached? ==> c.e == e)
    && (c.SetReady? ==> c.i == i)
    && (c.Broadcast? ==> c.e == e)
    && (c.ReadCount? ==> c.e == e)
    && (c.WaitAck? ==> c.e == e)
    && (c.FreeEntry? ==> c.e == e)
    && !c.Search? && !c.Enqueue? && !c.Unsubscribe? && !c.SignalAck? && !c.StartDownload? && !c.StartUpload?
  }

  lemma DownloaderMoves(th: Thread, c: Call, th': Thread)
    requires th.Downloader? && Does(th, c, th')
    ensures th'.Downloader? && th'.entry == th.entry && th'.slot == th.slot
    ensures StageCall(Stage(th.dpc), c, th.entry, th.slot)
  {
    hide ClientDoes, ManagerDoes, UploaderDoes, PutterDoes;
  }

  function NextStage(n: nat, c: Call): nat {
    if c.Transfer? && !c.good then n else if c.ReadCount? && c.n == 0 then 26 else n + 1
  }

  lemma DownloaderEarlyStages(th: Thread, c: Call, th': Thread)
    requires th.Downloader? && Does(th, c, th') && Stage(th.dpc) < 11
    ensures Stage(th'.dpc) == NextStage(Stage(th.dpc), c)
  {
    hide ClientDoes, ManagerDoes, UploaderDoes, PutterDoes;
  }

  lemma DownloaderMiddleStages(th: Thread, c: Call, th': Thread)
    requires th.Downloader? && Does(th, c, th') && 11 <= Stage(th.dpc) < 20
    ensures Stage(th'.dpc) == NextStage(Stage(th.dpc), c)
  {
    hide ClientDoes, ManagerDoes, UploaderDoes, PutterDoes;
  }

  lemma DownloaderLateStages(th: Thread, c: Call, th': Thread)
    requires th.Downloader? && Does(th, c, th') && 20 <= Stage(th.dpc)
    ensures Stage(th'.dpc) == NextStage(Stage(th.dpc), c)
    ensures Stage(th.dpc) != 24 && Stage(th.dpc) != 28
  {
    hide ClientDoes, ManagerDoes, UploaderDoes, PutterDoes;
  }

  lemma DownloaderStages(th: Thread, c: Call, th': Thread)
    requires th.Downloader? && Does(th, c, th')
    ensures th'.Downloader? && th'.entry == th.entry && th'.slot == th.slot
    ensures StageCall(Stage(th.dpc), c, th.entry, th.slot)
    ensures Stage(th'.dpc) == NextStage(Stage(th.dpc), c)
    ensures Stage(th.dpc) != 24 && Stage(th.dpc) != 28
  {
    DownloaderMoves(th, c, th');
    if Stage(th.dpc) < 11 { DownloaderEarlyStages(th, c, th'); }
    else if Stage(th.dpc) < 20 { DownloaderMiddleStages(th, c, th'); }
    else { DownloaderLateStages(th, c, th'); }
    hide *;
  }

  /** Threads other than downloaders make none of the downloader's calls. */
  lemma OtherMoves(th: Thread, c: Call, th': Thread)
    requires !th.Downloader? && Does(th, c, th')
    ensures !th'.Downloader? && (th.Manager? <==> th'.Manager?)
    ensures !c.Remove? && !c.MarkCached? && !c.Broadcast? && !c.ReadCount? && !c.WaitAck? && !c.FreeEntry?
    ensures c.DeleteTransfer? ==> false
  {
  }

  // ----- Runners and progress -----

  /** What a call never changes of a thread. */
  predicate SameKind(th: Thread, th': Thread) {
    match th
    case Client(_, _, r) => th'.Client? && th'.registered == r
    case Manager(_) => th'.Manager?
    case Downloader(_, i, e) => th'.Downloader? && th'.slot == i && th'.entry == e
    case Uploader(_, i, f) => th'.Uploader? && th'.uslot == i && th'.ufile == f
    case Putter(_, _, k) => th'.Putter? && th'.owned == k
  }

  lemma SameKindClient(th: Thread, c: Call, th': Thread)
    requires th.Client? && Does(th, c, th')
    ensures SameKind(th, th')
  {
    hide ManagerDoes, DownloaderDoes, UploaderDoes, PutterDoes;
  }

  lemma SameKindDoes(th: Thread, c: Call, th': Thread)
    requires Does(th, c, th')
    ensures SameKind(th, th')
  {
    if th.Downloader? { DownloaderStages(th, c, th'); }
    if th.Client? { SameKindClient(th, c, th'); }
    hide ClientDoes, DownloaderDoes, Stage, StageCall, NextStage;
  }

  ghost predicate KindsKept(s: State, c: Call, s': State) {
    && (forall u <- s.threads :: u in s'.threads && SameKind(s.threads[u], s'.threads[u]))
    && (forall u <- s'.threads | u !in s.threads :: Created(c) == Some((u, s'.threads[u])))
    && (Created(c).Some? ==> Created(c).value.0 !in s.threads && Created(c).value.0 in s'.threads)
  }

  lemma SameKindWoken(c: Call, u: Tid, th: Thread)
    ensures SameKind(th, Woken(c, u, th))
  {
  }

  lemma KeepsKinds(s: State, t: Tid, c: Call, th': Thread, s': State)
    requires CallStep(s, t, c, th', s')
    ensures KindsKept(s, c, s')
  {
    SameKindDoes(s.threads[t], c, th');
    assert Created(c).Some? ==> Created(c).value.0 !in s.threads;
    forall u
      ensures u in s.threads ==> u in s'.threads && SameKind(s.threads[u], s'.threads[u])
      ensures u in s'.threads && u !in s.threads ==> Created(c) == Some((u, s'.threads[u]))
      ensures Created(c).Some? && Created(c).value.0 == u ==> u in s'.threads
    {
      ThreadAfter(s, t, c, th', s', u);
      if u in s.threads { SameKindWoken(c, u, s.threads[u]); }
      hide *;
    }
    hide Does, Allowed, Woken, SameKind, Created, After, CallStep;
  }

  lemma RunnerKept(s: State, t: Tid, c: Call, th': Thread, s': State)
    requires RunnerInv(s) && FlagsInv(s) && QueueInv(s) && CallStep(s, t, c, th', s')
    ensures RunnerInv(s')
  {
    KeepsKinds(s, t, c, th', s');
    NextDownload(s);
    EntriesKeep(s, t, c);
    RunnerFollows(s, c, s');
  }

  /** What every call keeps of every subscription. */
  lemma EntriesKeep(s: State, t: Tid, c: Call)
    ensures |EntriesAfter(s, t, c)| == (if c.Enqueue? then |s.entries| + 1 else |s.entries|)
    ensures forall e: nat | e < |s.entries| ::
      && EntriesAfter(s, t, c)[e].fileId == s.entries[e].fileId
      && EntriesAfter(s, t, c)[e].runner == (if c.StartDownload? && c.e == e then c.d else s.entries[e].runner)
  {
  }

  /** The manager starts downloads in order of creation. */
  lemma {:induction false} NextDownload(s: State)
    requires RunnerInv(s) && FlagsInv(s) && QueueInv(s)
    ensures FirstInactive(s.queue, s.entries) == if s.starts < |s.entries| then Some(s.starts) else None
  {
    if s.starts < |s.entries| { assert s.starts in s.queue; }
    FirstInactiveFrom(s, 0);
    assert s.queue[0..] == s.queue;
  }

  lemma FirstInactiveFrom(s: State, k: nat)
    requires RunnerInv(s) && FlagsInv(s) && QueueInv(s) && k <= |s.queue|
    requires s.starts < |s.entries| ==> s.starts in s.queue[k..]
    ensures FirstInactive(s.queue[k..], s.entries) == if s.starts < |s.entries| then Some(s.starts) else None
    decreases |s.queue| - k
  {
    if k < |s.queue| {
      var e := s.queue[k];
      assert e in s.queue;
      assert s.queue[k..][1..] == s.queue[k + 1..];
      if e < s.starts {
        FirstInactiveFrom(s, k + 1);
      }
    }
  }

  lemma RunnerFollows(s: State, c: Call, s': State)
    requires RunnerInv(s) && KindsKept(s, c, s')
    requires c.StartDownload? ==> c.e == s.starts < |s.entries|
    requires s'.starts == if c.StartDownload? then s.starts + 1 else s.starts
    requires |s.entries| <= |s'.entries|
    requires forall e: nat | e < |s.entries| ::
      s'.entries[e].runner == (if c.StartDownload? && c.e == e then c.d else s.entries[e].runner)
    ensures RunnerInv(s')
  {
  }

  /** A call moves on at most one download: its own, or the one whose downloader it wakes. */
  function ProgressAfter(s: State, t: Tid, c: Call, e: Eid): nat
    requires t in s.threads
  {
    if s.threads[t].Downloader? && s.threads[t].entry == e then NextStage(Progress(s, e), c)
    else if c.SignalAck? && c.e == e && c.woken.Some? then 25
    else Progress(s, e)
  }

  lemma OwnDownloadMoves(s: State, t: Tid, c: Call, th': Thread, s': State)
    requires RunnerInv(s) && RunnerInv(s') && CallStep(s, t, c, th', s') && s.threads[t].Downloader?
    ensures var e := s.threads[t].entry;
            && Progress(s', e) == NextStage(Progress(s, e), c)
            && e < s.starts
            && StageCall(Progress(s, e), c, e, s.threads[t].slot)
            && Progress(s, e) != 24 && Progress(s, e) != 28
  {
    DownloaderStages(s.threads[t], c, th');
    ThreadAfter(s, t, c, th', s', t);
    EntriesKeep(s, t, c);
    assert s'.starts >= s.starts;
    hide Does, Allowed, StageCall, Stage, After, CallStep, Woken, Created, NextStage;
  }

  lemma DownloaderWoken(s: State, c: Call, u: Tid)
    requires Allowed(s, c) && u in s.threads && s.threads[u].Downloader?
    ensures var th := s.threads[u];
            && Woken(c, u, th).Downloader?
            && (if c == SignalAck(th.entry, Some(u)) then Stage(th.dpc) == 24 && Stage(Woken(c, u, th).dpc) == 25
                else Woken(c, u, th) == th)
  {
    if Woken(c, u, s.threads[u]) != s.threads[u] { WokenSleeper(s, c, u); }
    assert c == SignalAck(s.threads[u].entry, Some(u)) ==> WaitsForAck(s.threads, u, s.threads[u].entry);
  }

  lemma OtherDownloadStays(s: State, t: Tid, c: Call, th': Thread, s': State, e: Eid)
    requires RunnerInv(s) && RunnerInv(s') && CallStep(s, t, c, th', s')
    requires e < s.starts && s.entries[e].runner != t
    ensures var u := s.entries[e].runner;
            if c == SignalAck(e, Some(u)) then Progress(s, e) == 24 && Progress(s', e) == 25
            else Progress(s', e) == Progress(s, e)
  {
    var u := s.entries[e].runner;
    ThreadAfter(s, t, c, th', s', u);
    EntriesKeep(s, t, c);
    DownloaderWoken(s, c, u);
    assert s'.starts >= s.starts;
    assert s'.entries[e].runner == u;
    hide Does, Allowed, After, CallStep, Created, ThreadsAfter, EntriesAfter, Woken, Stage, WaitsForAck;
  }

  lemma UnstartedStays(s: State, t: Tid, c: Call, th': Thread, s': State, e: Eid)
    requires RunnerInv(s) && RunnerInv(s') && CallStep(s, t, c, th', s') && s.starts <= e
    ensures Progress(s, e) == 0 && Progress(s', e) == 0
  {
    if e < s'.starts {
      assert c.StartDownload?;
      EntriesKeep(s, t, c);
      ThreadAfter(s, t, c, th', s', s'.entries[e].runner);
      KeepsKinds(s, t, c, th', s');
    }
    hide Does, Allowed, EntriesAfter;
  }

  lemma DownloadMoves(s: State, t: Tid, c: Call, th': Thread, s': State, e: Eid)
    requires RunnerInv(s) && RunnerInv(s') && CallStep(s, t, c, th', s')
    ensures Progress(s', e) == ProgressAfter(s, t, c, e)
    ensures s.threads[t].Downloader? && s.threads[t].entry == e ==>
              && e < s.starts
              && StageCall(Progress(s, e), c, e, s.threads[t].slot)
              && Progress(s, e) != 24 && Progress(s, e) != 28
    ensures c.SignalAck? && c.e == e && c.woken.Some? ==> Progress(s, e) == 24
  {
    assert c.SignalAck? && c.woken.Some? ==> WaitsForAck(s.threads, c.woken.value, c.e);
    if s.threads[t].Downloader? {
      OwnDownloadMoves(s, t, c, th', s');
      DownloaderMoves(s.threads[t], c, th');
    }
    if s.starts <= e {
      UnstartedStays(s, t, c, th', s', e);
    } else if s.entries[e].runner != t {
      OtherDownloadStays(s, t, c, th', s', e);
    }
    hide Does, Allowed, StageCall, Stage, After, CallStep, Progress, NextStage;
  }

  // ----- Flags -----

  lemma FlagsOfEntry(s: State, t: Tid, c: Call, e: Eid)
    requires e < |s.entries|
    ensures var after := EntriesAfter(s, t, c);
            && e < |after|
            && after[e].active == (if c.StartDownload? && c.e == e then true
                                   else if c.Broadcast? && c.e == e then false else s.entries[e].active)
            && after[e].broadcast == (s.entries[e].broadcast || (c.Broadcast? && c.e == e))
            && after[e].freed == (s.entries[e].freed || (c.FreeEntry? && c.e == e))
  {
  }

  /** A call that belongs to a download comes from its downloader. */
  lemma CallOfDownload(s: State, t: Tid, c: Call, th': Thread, e: Eid)
    requires t in s.threads && Does(s.threads[t], c, th')
    requires c == Remove(e) || c == MarkCached(e) || c == Broadcast(e) || c == WaitAck(e) || c == FreeEntry(e)
             || (c.ReadCount? && c.e == e)
    ensures s.threads[t].Downloader? && s.threads[t].entry == e
  {
    if s.threads[t].Downloader? { DownloaderMoves(s.threads[t], c, th'); } else { OtherMoves(s.threads[t], c, th'); }
    hide Does;
  }

  lemma FlagsOfEntryKept(s: State, t: Tid, c: Call, th': Thread, s': State, e: Eid)
    requires RunnerInv(s) && RunnerInv(s') && FlagsInv(s) && QueueInv(s) && CallStep(s, t, c, th', s')
    requires e < |s'.entries|
    ensures s'.entries[e].active <==> e < s'.starts && Progress(s', e) <= 18
    ensures s'.entries[e].broadcast <==> Progress(s', e) >= 19
    ensures s'.entries[e].freed <==> Progress(s', e) >= 28
  {
    DownloadMoves(s, t, c, th', s', e);
    EntriesKeep(s, t, c);
    assert s'.entries == EntriesAfter(s, t, c);
    assert s'.starts == if c.StartDownload? then s.starts + 1 else s.starts;
    assert c.StartDownload? ==> c.e == s.starts by { NextDownload(s); }
    if e < |s.entries| {
      FlagsOfEntry(s, t, c, e);
      if c == Broadcast(e) || c == FreeEntry(e) { CallOfDownload(s, t, c, th', e); }
      if s.threads[t].Downloader? { DownloaderMoves(s.threads[t], c, th'); }
    } else {
      assert s'.entries[e] == Entry(c.f, false, 1, {t}, 0, 0, false, false, false);
      assert e >= s'.starts;
    }
    hide Does, Allowed, After, CallStep, RunnerInv, QueueInv, EntriesAfter, Stage;
  }

  lemma FlagsKept(s: State, t: Tid, c: Call, th': Thread, s': State)
    requires RunnerInv(s) && FlagsInv(s) && QueueInv(s) && CallStep(s, t, c, th', s')
    ensures FlagsInv(s')
  {
    RunnerKept(s, t, c, th', s');
    forall e: nat | e < |s'.entries|
      ensures s'.entries[e].active <==> e < s'.starts && Progress(s', e) <= 18
      ensures s'.entries[e].broadcast <==> Progress(s', e) >= 19
      ensures s'.entries[e].freed <==> Progress(s', e) >= 28
    {
      FlagsOfEntryKept(s, t, c, th', s', e);
    }
    hide CallStep, RunnerInv, QueueInv, Progress;
  }

  // ----- The queue -----

  /** Only the thread that holds mainLoop_mutex can be about to queue a file. */
  lemma EnqueueingClient(th: Thread, c: Call, th': Thread)
    requires Does(th, c, th')
    ensures c.Enqueue? ==> Enqueueing(th) && th.file == c.f
    ensures Enqueueing(th') ==>
              (Enqueueing(th) && !c.Enqueue? && th.file == th'.file) || (c == Search(th'.file, None) && th'.Client?)
  {
    hide DownloaderDoes;
    if th.Downloader? { DownloaderStages(th, c, th'); }
  }

  lemma EnqueueingHolds(th: Thread)
    requires Enqueueing(th)
    ensures Holds(th, MainLock)
  {
  }

  lemma EnqueueingWoken(c: Call, u: Tid, th: Thread)
    ensures Enqueueing(Woken(c, u, th)) <==> Enqueueing(th)
    ensures Enqueueing(th) ==> Woken(c, u, th) == th
  {
  }

  lemma Found(queue: seq<Eid>, entries: seq<Entry>, f: FileId)
    ensures var found := FindInQueue(queue, entries, f);
            match found
            case Some(e) => e in queue && e < |entries| && entries[e].fileId == f
            case None => forall e <- queue | e < |entries| :: entries[e].fileId != f
  {
    if queue != [] {
      Found(queue[1..], entries, f);
      assert forall e :: e in queue <==> e == queue[0] || e in queue[1..];
    }
  }

  lemma {:induction false} IncreasingCons(first: Eid, rest: seq<Eid>)
    requires Increasing(rest) && forall d <- rest :: first < d
    ensures Increasing([first] + rest)
  {
    forall i, j | 0 <= i < j < |[first] + rest| ensures ([first] + rest)[i] < ([first] + rest)[j] {
      assert rest[j - 1] in rest;
    }
  }

  lemma IncreasingTail(queue: seq<Eid>)
    requires Increasing(queue) && queue != []
    ensures Increasing(queue[1..]) && forall d <- queue[1..] :: queue[0] < d
    ensures forall d :: d in queue <==> d == queue[0] || d in queue[1..]
  {
  }

  lemma {:induction false} Removed(queue: seq<Eid>, e: Eid)
    requires Increasing(queue)
    ensures Increasing(RemoveFirst(queue, e))
    ensures forall d :: d in RemoveFirst(queue, e) <==> d in queue && d != e
  {
    if queue != [] {
      IncreasingTail(queue);
      if queue[0] != e {
        Removed(queue[1..], e);
        IncreasingCons(queue[0], RemoveFirst(queue[1..], e));
      }
    }
    hide Increasing;
  }

  /** A call takes at most its own subscription out of the queue. */
  lemma QueuedAfter(s: State, t: Tid, c: Call, th': Thread, s': State, e: Eid)
    requires RunnerInv(s) && RunnerInv(s') && CallStep(s, t, c, th', s')
    ensures Progress(s', e) <= 10 <==> Progress(s, e) <= 10 && c != Remove(e)
  {
    DownloadMoves(s, t, c, th', s', e);
    if c == Remove(e) { CallOfDownload(s, t, c, th', e); }
    hide Does, Allowed, After, CallStep, RunnerInv, Progress;
  }

  lemma QueueListsAfter(s: State, t: Tid, c: Call, th': Thread, s': State)
    requires RunnerInv(s) && RunnerInv(s') && QueueInv(s) && CallStep(s, t, c, th', s')
    ensures Increasing(s'.queue)
    ensures forall e: nat :: e in s'.queue <==> e < |s'.entries| && Progress(s', e) <= 10
  {
    forall e: nat
      ensures Progress(s', e) <= 10 <==> Progress(s, e) <= 10 && c != Remove(e)
    {
      QueuedAfter(s, t, c, th', s', e);
    }
    EntriesKeep(s, t, c);
    assert |s'.entries| == if c.Enqueue? then |s.entries| + 1 else |s.entries|;
    assert s'.queue == QueueAfter(s, c);
    assert c.Enqueue? ==> c.e == |s.entries|;
    assert s.starts <= |s.entries|;
    assert Increasing(s.queue) && forall e: nat :: e in s.queue <==> e < |s.entries| && Progress(s, e) <= 10;
    hide Does, Allowed, After, CallStep, RunnerInv, EntriesAfter, QueueInv;
    match c {
      case Enqueue(_, n) =>
        assert Progress(s, n) == 0;
        assert forall i | 0 <= i < |s.queue| :: s.queue[i] in s.queue;
      case Remove(e) => Removed(s.queue, e);
      case _ =>
    }
    hide Progress;
  }

  lemma DistinctAfter(s: State, t: Tid, c: Call, th': Thread, s': State, d: Eid, e: Eid)
    requires RunnerInv(s) && RunnerInv(s') && QueueInv(s) && CallStep(s, t, c, th', s')
    requires d < e < |s'.entries| && Progress(s', d) <= 10 && Progress(s', e) <= 10
    ensures s'.entries[d].fileId != s'.entries[e].fileId
  {
    QueuedAfter(s, t, c, th', s', d);
    QueuedAfter(s, t, c, th', s', e);
    EntriesKeep(s, t, c);
    EnqueueingClient(s.threads[t], c, th');
    assert s'.entries == EntriesAfter(s, t, c);
    hide Does, Allowed, After, CallStep, RunnerInv, Progress, Enqueueing;
  }

  lemma EnqueueingAfter(s: State, t: Tid, c: Call, th': Thread, s': State, u: Tid, e: Eid)
    requires LocksInv(s) && RunnerInv(s) && RunnerInv(s') && QueueInv(s) && CallStep(s, t, c, th', s')
    requires u in s'.threads && Enqueueing(s'.threads[u]) && e < |s'.entries| && Progress(s', e) <= 10
    ensures s'.entries[e].fileId != s'.threads[u].file
  {
    QueuedAfter(s, t, c, th', s', e);
    EntriesKeep(s, t, c);
    EnqueueingClient(s.threads[t], c, th');
    ThreadAfter(s, t, c, th', s', u);
    assert s'.entries == EntriesAfter(s, t, c);
    if u == t {
      Found(s.queue, s.entries, s'.threads[u].file);
    } else if u in s.threads {
      EnqueueingWoken(c, u, s.threads[u]);
      if c.Enqueue? {
        EnqueueingHolds(s.threads[t]);
        EnqueueingHolds(s.threads[u]);
        OneHolder(s, t, u, MainLock);
      }
    }
    assert c.Search? ==> c.found == FindInQueue(s.queue, s.entries, c.f);
    hide Does, Allowed, After, CallStep, RunnerInv, Progress, Enqueueing, Woken, EntriesAfter, FindInQueue, Holds;
  }

  lemma QueueKept(s: State, t: Tid, c: Call, th': Thread, s': State)
    requires LocksInv(s) && RunnerInv(s) && FlagsInv(s) && QueueInv(s) && CallStep(s, t, c, th', s')
    ensures QueueInv(s')
  {
    RunnerKept(s, t, c, th', s');
    QueueListsAfter(s, t, c, th', s');
    forall d: nat, e: nat | d < e < |s'.entries| && Progress(s', d) <= 10 && Progress(s', e) <= 10
      ensures s'.entries[d].fileId != s'.entries[e].fileId
    {
      DistinctAfter(s, t, c, th', s', d, e);
    }
    forall u <- s'.threads, e: nat | Enqueueing(s'.threads[u]) && e < |s'.entries| && Progress(s', e) <= 10
      ensures s'.entries[e].fileId != s'.threads[u].file
    {
      EnqueueingAfter(s, t, c, th', s', u, e);
    }
    hide LocksInv, CallStep, RunnerInv, FlagsInv, Progress, Enqueueing;
  }

  // ----- Slots -----

  lemma OccupiesMoves(th: Thread, c: Call, th': Thread, i: nat)
    requires Does(th, c, th')
    ensures Occupies(th', i) <==> Occupies(th, i) && c != SetReady(i)
    ensures c == SetReady(i) ==> Occupies(th, i)
  {
    if th.Downloader? { DownloaderStages(th, c, th'); }
    hide ClientDoes, DownloaderDoes, Stage;
  }

  lemma OccupiesWoken(s: State, c: Call, u: Tid, i: nat)
    requires Allowed(s, c) && u in s.threads
    ensures Occupies(Woken(c, u, s.threads[u]), i) <==> Occupies(s.threads[u], i)
  {
    if s.threads[u].Downloader? { DownloaderWoken(s, c, u); }
    hide Allowed;
  }

  /** The call that gives slot i to a new thread. */
  predicate Gives(c: Call, i: nat, u: Tid) {
    (c.StartUpload? && c.i == i && c.u == u) || (c.StartDownload? && c.i == i && c.d == u)
  }

  lemma GivesFreeSlot(s: State, t: Tid, c: Call, th': Thread, i: nat, u: Tid)
    requires ShapeInv(s) && ManagerInv(s) && |s.ready| == MAX_TRANSFERS
    requires t in s.threads && Does(s.threads[t], c, th') && Gives(c, i, u)
    ensures i < MAX_TRANSFERS && s.ready[i]
  {
    assert t == MANAGER by {
      if s.threads[t].Downloader? { DownloaderStages(s.threads[t], c, th'); }
      hide DownloaderDoes;
    }
    assert Sane(s, s.threads[t]);
    hide ClientDoes, DownloaderDoes, UploaderDoes, PutterDoes;
  }

  /** Who occupies what after a call. */
  lemma OccupierAfter(s: State, t: Tid, c: Call, th': Thread, s': State, u: Tid, i: nat)
    requires CallStep(s, t, c, th', s')
    ensures OccupiedBy(s', i, u) <==> Gives(c, i, u) || (OccupiedBy(s, i, u) && (u == t ==> c != SetReady(i)))
    ensures c == SetReady(i) ==> Occupies(s.threads[t], i)
    ensures Gives(c, i, u) ==> u !in s.threads
  {
    ThreadAfter(s, t, c, th', s', u);
    OccupiesMoves(s.threads[t], c, th', i);
    if u in s.threads { OccupiesWoken(s, c, u, i); }
    hide Does, Woken, After;
  }

  lemma SlotsKept(s: State, t: Tid, c: Call, th': Thread, s': State)
    requires ShapeInv(s) && ManagerInv(s) && SlotsInv(s) && CallStep(s, t, c, th', s')
    ensures SlotsInv(s')
  {
    forall i: nat, u
      ensures OccupiedBy(s', i, u) <==> Gives(c, i, u) || (OccupiedBy(s, i, u) && (u == t ==> c != SetReady(i)))
      ensures c == SetReady(i) ==> OccupiedBy(s, i, t)
      ensures Gives(c, i, u) ==> !OccupiedBy(s, i, u)
    {
      OccupierAfter(s, t, c, th', s', u, i);
    }
    forall i: nat, u | Gives(c, i, u)
      ensures i < MAX_TRANSFERS && s.ready[i]
    {
      GivesFreeSlot(s, t, c, th', i, u);
    }
    SlotsFollow(s, t, c, s');
  }

  lemma SlotsFollow(s: State, t: Tid, c: Call, s': State)
    requires SlotsInv(s)
    requires forall i: nat, u ::
      OccupiedBy(s', i, u) <==> Gives(c, i, u) || (OccupiedBy(s, i, u) && (u == t ==> c != SetReady(i)))
    requires c.SetReady? ==> OccupiedBy(s, c.i, t)
    requires forall i: nat, u | Gives(c, i, u) :: i < MAX_TRANSFERS && s.ready[i]
    requires s'.ready == ReadyAfter(s.ready, c) && s'.user == UserAfter(s.user, c)
    ensures SlotsInv(s')
  {
    hide OccupiedBy;
    match c
    case StartUpload(i, _, u) => assert Gives(c, i, u);
    case StartDownload(i, _, d) => assert Gives(c, i, d);
    case _ =>
  }

  // ----- Files -----

  lemma EntryOfClient(th: Thread, c: Call, th': Thread, e: Eid)
    requires th.Client? && Does(th, c, th') && ClientEntry(th'.cpc) == Some(e)
    ensures th'.file == th.file
    ensures ClientEntry(th.cpc) == Some(e) || c == Search(th.file, Some(e)) || c == Enqueue(th.file, e)
  {
    hide DownloaderDoes, ManagerDoes, UploaderDoes, PutterDoes;
  }

  lemma FileOfClient(th: Thread, c: Call, th': Thread)
    requires th.Client? && Does(th, c, th')
    ensures th'.Client?
    ensures th'.file == (if c.FindFile? then c.f else th.file)
    ensures (th.cpc.CFind? || th.cpc.CFindDb? || th.cpc.CCheck? || th.cpc.CCheckDb? || th.cpc.CDone? || th.file != 0) ==>
              th'.cpc.CFind? || th'.cpc.CFindDb? || th'.cpc.CCheck? || th'.cpc.CCheckDb? || th'.cpc.CDone? || th'.file != 0
  {
    hide DownloaderDoes, ManagerDoes, UploaderDoes, PutterDoes;
  }

  /** What is said of a thread stays true as subscriptions and files are added. */
  lemma SaneStays(s: State, s': State, th: Thread)
    requires Sane(s, th) && |s.entries| <= |s'.entries| && s.files.Keys <= s'.files.Keys
    requires forall e: nat | e < |s.entries| :: s'.entries[e].fileId == s.entries[e].fileId
    ensures Sane(s', th)
  {
  }

  lemma SaneWoken(s: State, c: Call, u: Tid, th: Thread)
    requires Sane(s, th)
    ensures Sane(s, Woken(c, u, th))
  {
  }

  lemma FirstReadyIs(ready: seq<bool>)
    ensures var free := FirstReady(ready);
            match free
            case Some(i) => i < |ready| && ready[i] && forall j: nat | j < i :: !ready[j]
            case None => true !in ready
  {
    if ready != [] { FirstReadyIs(ready[1..]); }
  }

  lemma SaneClient(s: State, c: Call, th: Thread, th': Thread, s': State)
    requires Sane(s, th) && th.Client? && Does(th, c, th') && Allowed(s, c) && 0 !in s.files
    requires |s.entries| <= |s'.entries| && s'.files.Keys == s.files.Keys
    requires forall e: nat | e < |s.entries| :: s'.entries[e].fileId == s.entries[e].fileId
    requires c.Enqueue? ==> c.e < |s'.entries| && s'.entries[c.e].fileId == c.f
    ensures Sane(s', th')
    ensures c.Enqueue? ==> c.f in s.files
  {
    FileOfClient(th, c, th');
    if ClientEntry(th'.cpc).Some? {
      EntryOfClient(th, c, th', ClientEntry(th'.cpc).value);
      if c.Search? { Found(s.queue, s.entries, c.f); }
    }
    EnqueueingClient(th, c, th');
    hide Does;
  }

  lemma SaneManager(s: State, c: Call, th: Thread, th': Thread, s': State)
    requires Sane(s, th) && th.Manager? && Does(th, c, th') && Allowed(s, c) && |s.ready| == MAX_TRANSFERS
    ensures Sane(s', th') && !c.Enqueue?
  {
    FirstReadyIs(s.ready);
    hide ClientDoes, DownloaderDoes, UploaderDoes, PutterDoes, FirstReady, FirstInactive, FindInQueue;
  }

  lemma SanePutter(s: State, c: Call, th: Thread, th': Thread, s': State)
    requires Sane(s, th) && th.Putter? && Does(th, c, th') && Allowed(s, c) && s'.files.Keys == s.files.Keys
    ensures Sane(s', th') && !c.Enqueue?
  {
    PutterFile(th, c, th');
    hide Does, FirstReady, FirstInactive, FindInQueue;
  }

  lemma PutterFile(th: Thread, c: Call, th': Thread)
    requires th.Putter? && Does(th, c, th')
    ensures th'.Putter? && th'.pfile == (if c.FindFile? then c.f else th.pfile) && !c.Enqueue?
  {
    hide ClientDoes, DownloaderDoes, UploaderDoes, ManagerDoes;
  }

  lemma SaneOther(s: State, c: Call, th: Thread, th': Thread, s': State)
    requires Sane(s, th) && !th.Client? && Does(th, c, th') && Allowed(s, c) && |s.ready| == MAX_TRANSFERS
    requires s'.files.Keys == s.files.Keys
    ensures Sane(s', th') && !c.Enqueue?
  {
    SameKindDoes(th, c, th');
    EnqueueingClient(th, c, th');
    if th.Manager? { SaneManager(s, c, th, th', s'); }
    if th.Putter? { SanePutter(s, c, th, th', s'); }
    hide Does, Allowed;
  }

  lemma ShapeKept(s: State, t: Tid, c: Call, th': Thread, s': State)
    requires ShapeInv(s) && ManagerInv(s) && SlotsInv(s) && CallStep(s, t, c, th', s')
    ensures ShapeInv(s')
  {
    KeepsKinds(s, t, c, th', s');
    EntriesKeep(s, t, c);
    assert s'.files.Keys == s.files.Keys;
    assert c.Enqueue? ==> c.e < |s'.entries| && s'.entries[c.e].fileId == c.f;
    if s.threads[t].Client? { SaneClient(s, c, s.threads[t], th', s'); } else { SaneOther(s, c, s.threads[t], th', s'); }
    forall u <- s'.threads
      ensures Sane(s', s'.threads[u])
    {
      SaneAfter(s, t, c, th', s', u);
    }
    ShapeFollows(s, c, s');
  }

  lemma SaneAfter(s: State, t: Tid, c: Call, th': Thread, s': State, u: Tid)
    requires ShapeInv(s) && ManagerInv(s) && SlotsInv(s) && CallStep(s, t, c, th', s') && u in s'.threads && Sane(s', th')
    ensures Sane(s', s'.threads[u])
  {
    ThreadAfter(s, t, c, th', s', u);
    EntriesKeep(s, t, c);
    assert s'.files.Keys == s.files.Keys;
    if u in s.threads {
      if u != t {
        SaneStays(s, s', s.threads[u]);
        SaneWoken(s', c, u, s.threads[u]);
      }
    } else {
      GivesFreeSlot(s, t, c, th', c.i, u);
    }
    hide Does, Allowed, After, Woken, SlotsInv, ManagerInv;
  }

  lemma ShapeFollows(s: State, c: Call, s': State)
    requires ShapeInv(s) && KindsKept(s, c, s') && s'.files.Keys == s.files.Keys
    requires |s'.entries| == if c.Enqueue? then |s.entries| + 1 else |s.entries|
    requires forall e: nat | e < |s.entries| :: s'.entries[e].fileId == s.entries[e].fileId
    requires c.Enqueue? ==> c.e == |s.entries| && s'.entries[c.e].fileId == c.f && c.f in s.files
    requires forall u <- s'.threads :: Sane(s', s'.threads[u])
    ensures ShapeInv(s')
  {
    hide Sane;
  }
}
