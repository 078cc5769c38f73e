/** While there are only downloads, the rows of the transfers table are the files of the queue. */
module TransferRows {
  import opened TransferSystem
  import opened TransferInvariants
  import opened TransferMutexes
  import opened TransferDownloads

  // ----- Rows in transit -----

  lemma TransitClient(th: Thread, c: Call, th': Thread)
    requires th.Client? && Does(th, c, th')
    ensures th'.Client? && (th'.cpc.CPush? <==> c.AddDownload?)
    ensures c.AddDownload? ==> c.f == th.file == th'.file && c.known == th.registered && !th.cpc.CPush? && th.cpc.CAddRowDb?
    ensures c.Enqueue? <==> th.cpc.CPush?
    ensures c.Enqueue? ==> c.f == th.file
  {
    hide DownloaderDoes, ManagerDoes, UploaderDoes, PutterDoes;
  }

  lemma TransitStages(th: Thread, c: Call, th': Thread)
    requires th.Downloader? && Does(th, c, th')
    ensures c.DeleteTransfer? <==> Stage(th.dpc) == 12
    ensures c.DeleteTransfer? ==> c.e == th.entry
    ensures !c.AddDownload? && !c.AddUpload? && !c.CreateMultiparts? && !c.DeleteUpload?
  {
    hide ClientDoes, ManagerDoes, UploaderDoes, PutterDoes;
  }

  lemma TransitDownloader(th: Thread, c: Call, th': Thread)
    requires th.Downloader? && Does(th, c, th')
    ensures th'.Downloader? && th'.entry == th.entry
    ensures 11 <= Stage(th'.dpc) <= 12 <==> c == Remove(th.entry) || (11 <= Stage(th.dpc) <= 12 && !c.DeleteTransfer?)
    ensures c.DeleteTransfer? ==> Stage(th.dpc) == 12 && c.e == th.entry
    ensures c.Remove? ==> Stage(th.dpc) == 10 && c.e == th.entry
    ensures !c.AddDownload? && !c.AddUpload? && !c.CreateMultiparts? && !c.DeleteUpload?
  {
    hide Does, Stage;
    DownloaderStages(th, c, th');
    TransitStages(th, c, th');
  }

  lemma TransitOther(th: Thread, c: Call, th': Thread)
    requires !th.Client? && !th.Downloader? && Does(th, c, th')
    ensures !th'.Client? && !th'.Downloader?
    ensures !c.AddDownload? && !c.Enqueue? && !c.Remove? && !c.DeleteTransfer?
    ensures th.Manager? ==> !c.AddUpload? && !c.CreateMultiparts? && !c.DeleteUpload?
  {
    hide ClientDoes, DownloaderDoes;
  }

  /** The call puts the row for f in transit. */
  predicate Sends(s: State, c: Call, f: FileId) {
    (c.AddDownload? && c.f == f) || (c.Remove? && c.e < |s.entries| && s.entries[c.e].fileId == f)
  }

  predicate Delivers(c: Call) {
    c.Enqueue? || c.DeleteTransfer?
  }

  lemma CarriesMoves(s: State, t: Tid, c: Call, th': Thread, f: FileId)
    requires RunnerInv(s) && t in s.threads && Does(s.threads[t], c, th')
    ensures var before := Carries(s.entries, s.threads[t], f);
            && (Carries(s.entries, th', f) <==> Sends(s, c, f) || (before && !Delivers(c)))
            && (Sends(s, c, f) ==> !before)
            && (c.Enqueue? ==> (before <==> f == c.f))
            && (c.DeleteTransfer? ==> c.e < |s.entries| && (before <==> f == s.entries[c.e].fileId))
            && (c.Remove? ==> c.e < |s.entries|)
  {
    if s.threads[t].Client? { TransitClient(s.threads[t], c, th'); }
    else if s.threads[t].Downloader? { TransitDownloader(s.threads[t], c, th'); }
    else { TransitOther(s.threads[t], c, th'); }
    hide Does, Stage;
  }

  lemma CarriesStays(s: State, s': State, th: Thread, f: FileId)
    requires th.Downloader? ==> th.entry < |s.entries|
    requires |s.entries| <= |s'.entries| && forall e: nat | e < |s.entries| :: s'.entries[e].fileId == s.entries[e].fileId
    ensures Carries(s'.entries, th, f) <==> Carries(s.entries, th, f)
  {
  }

  lemma CarriesWoken(s: State, c: Call, u: Tid, f: FileId)
    requires u in s.threads && Allowed(s, c)
    ensures Carries(s.entries, Woken(c, u, s.threads[u]), f) <==> Carries(s.entries, s.threads[u], f)
  {
    if Woken(c, u, s.threads[u]) != s.threads[u] { WokenSleeper(s, c, u); }
  }

  lemma TransitAfter(s: State, t: Tid, c: Call, th': Thread, s': State, u: Tid, f: FileId)
    requires RunnerInv(s) && CallStep(s, t, c, th', s')
    ensures InTransit(s', u, f) <==>
            (u == t && Sends(s, c, f)) || (InTransit(s, u, f) && !(u == t && Delivers(c)))
    ensures Sends(s, c, f) ==> !InTransit(s, t, f)
    ensures c.Enqueue? && u == t ==> (InTransit(s, u, f) <==> f == c.f)
    ensures c.DeleteTransfer? ==> c.e < |s.entries| && (u == t ==> (InTransit(s, u, f) <==> f == s.entries[c.e].fileId))
    ensures c.Remove? ==> c.e < |s.entries|
  {
    assert t in s.threads && Does(s.threads[t], c, th') && Allowed(s, c) && s'.entries == EntriesAfter(s, t, c);
    hide Does, Allowed, After, CallStep, Woken, ThreadsAfter, EntriesAfter, Carries, Sends, Created;
    ThreadAfter(s, t, c, th', s', u);
    EntriesKeep(s, t, c);
    CarriesMoves(s, t, c, th', f);
    MovedCarriesOn(s, t, c, th', s', f);
    if u in s.threads {
      CarriesWoken(s, c, u, f);
      EntryOfThread(s, c, u);
      CarriesStays(s, s', Woken(c, u, s.threads[u]), f);
    } else if u in s'.threads {
      CreatedCarriesNothing(c, s'.entries, f);
    }
  }

  lemma MovedCarriesOn(s: State, t: Tid, c: Call, th': Thread, s': State, f: FileId)
    requires RunnerInv(s) && t in s.threads && Does(s.threads[t], c, th')
    requires |s.entries| <= |s'.entries| && forall e: nat | e < |s.entries| :: s'.entries[e].fileId == s.entries[e].fileId
    ensures Carries(s'.entries, th', f) <==> Carries(s.entries, th', f)
  {
    SameKindDoes(s.threads[t], c, th');
    hide Does, Carries;
    CarriesStays(s, s', th', f);
  }

  lemma EntryOfThread(s: State, c: Call, u: Tid)
    requires RunnerInv(s) && u in s.threads
    ensures var th := Woken(c, u, s.threads[u]); th.Downloader? ==> th.entry < |s.entries|
  {
    SameKindWoken(c, u, s.threads[u]);
    hide Woken;
  }

  lemma CreatedCarriesNothing(c: Call, entries: seq<Entry>, f: FileId)
    requires Created(c).Some?
    ensures !Carries(entries, Created(c).value.1, f)
  {
  }

  /** A row is in transit only under mainLoop_mutex. */
  lemma TransitHolds(s: State, t: Tid, f: FileId)
    requires InTransit(s, t, f)
    ensures HeldBy(s, t, MainLock)
  {
  }

  // ----- Queued files -----

  lemma QueuedFileAfter(s: State, t: Tid, c: Call, th': Thread, s': State, f: FileId)
    requires RunnerInv(s) && RunnerInv(s') && QueueInv(s) && CallStep(s, t, c, th', s')
    ensures IsQueued(s', f) <==>
            (c.Enqueue? && c.f == f)
            || (IsQueued(s, f) && !(c.Remove? && c.e < |s.entries| && s.entries[c.e].fileId == f))
    ensures c.Remove? && c.e < |s.entries| && s.entries[c.e].fileId == f ==> IsQueued(s, f)
  {
    forall e: nat
      ensures Progress(s', e) <= 10 <==> Progress(s, e) <= 10 && c != Remove(e)
    {
      QueuedAfter(s, t, c, th', s', e);
    }
    if c.Remove? {
      CallOfDownload(s, t, c, th', c.e);
      DownloadMoves(s, t, c, th', s', c.e);
    }
    EntriesKeep(s, t, c);
    assert s'.entries == EntriesAfter(s, t, c);
    assert c.Enqueue? ==> c.e == |s.entries| && Progress(s, c.e) == 0 && s'.entries[c.e].fileId == c.f;
    QueuedFileFollows(s, c, s', f);
  }

  lemma QueuedFileFollows(s: State, c: Call, s': State, f: FileId)
    requires QueueInv(s)
    requires forall e: nat :: Progress(s', e) <= 10 <==> Progress(s, e) <= 10 && c != Remove(e)
    requires |s'.entries| == if c.Enqueue? then |s.entries| + 1 else |s.entries|
    requires forall e: nat | e < |s.entries| :: s'.entries[e].fileId == s.entries[e].fileId
    requires c.Enqueue? ==> c.e == |s.entries| && Progress(s, c.e) == 0 && s'.entries[c.e].fileId == c.f
    requires c.Remove? && c.e < |s.entries| ==> Progress(s, c.e) == 10
    ensures IsQueued(s', f) <==>
            (c.Enqueue? && c.f == f)
            || (IsQueued(s, f) && !(c.Remove? && c.e < |s.entries| && s.entries[c.e].fileId == f))
    ensures c.Remove? && c.e < |s.entries| && s.entries[c.e].fileId == f ==> IsQueued(s, f)
  {
    if c.Enqueue? { assert Progress(s', c.e) <= 10; }
    if e: nat :| e < |s.entries| && Progress(s, e) <= 10 && s.entries[e].fileId == f {
      assert c != Remove(e) ==> Progress(s', e) <= 10;
    }
    if e: nat :| e < |s'.entries| && Progress(s', e) <= 10 && s'.entries[e].fileId == f {
      assert Progress(s, e) <= 10;
    }
    hide Progress;
  }

  // ----- The table -----

  lemma DownloadsOnlyBefore(s: State, c: Call, s': State)
    requires KindsKept(s, c, s') && DownloadsOnly(s')
    ensures DownloadsOnly(s)
  {
  }

  lemma NotQueuedKept(s: State, t: Tid, c: Call, th': Thread, s': State, u: Tid, f: FileId)
    requires LocksInv(s) && RunnerInv(s) && RunnerInv(s') && QueueInv(s) && RowsInv(s) && CallStep(s, t, c, th', s')
    requires InTransit(s', u, f)
    ensures !IsQueued(s', f)
  {
    TransitAfter(s, t, c, th', s', u, f);
    QueuedFileAfter(s, t, c, th', s', f);
    if c.Enqueue? && u != t {
      TransitAfter(s, t, c, th', s', t, c.f);
      TransitHolds(s, t, c.f);
      TransitHolds(s, u, f);
    }
    if c.AddDownload? { AddedIsNotQueued(s, t, c, th'); }
    hide Does, Allowed, After, CallStep, RunnerInv, QueueInv, InTransit, IsQueued, HeldBy;
  }

  lemma AddedIsNotQueued(s: State, t: Tid, c: Call, th': Thread)
    requires QueueInv(s) && t in s.threads && Does(s.threads[t], c, th') && c.AddDownload?
    ensures !IsQueued(s, c.f)
  {
    if s.threads[t].Client? { TransitClient(s.threads[t], c, th'); }
    else if s.threads[t].Downloader? { TransitDownloader(s.threads[t], c, th'); }
    else { TransitOther(s.threads[t], c, th'); }
    hide Does, Progress;
  }

  /** With only downloads, the table changes by one row. */
  lemma TableAfter(s: State, t: Tid, c: Call, th': Thread, f: FileId)
    requires ShapeInv(s) && DownloadsOnly(s) && t in s.threads && Does(s.threads[t], c, th')
    requires c.DeleteTransfer? ==> c.e < |s.entries|
    ensures f in TransfersAfter(s, c) <==>
            (c.AddDownload? && c.f == f)
            || (f in s.transfers && !(c.DeleteTransfer? && s.entries[c.e].fileId == f))
    ensures f in TransfersAfter(s, c) ==>
              || (f in s.transfers && TransfersAfter(s, c)[f] == s.transfers[f])
              || TransfersAfter(s, c)[f].Download?
  {
    var th := s.threads[t];
    assert Sane(s, th);
    if th.Client? { TransitClient(th, c, th'); NoUploadCalls(th, c, th'); }
    else if th.Downloader? { TransitDownloader(th, c, th'); }
    else { TransitOther(th, c, th'); }
    hide Does;
  }

  lemma NoUploadCalls(th: Thread, c: Call, th': Thread)
    requires th.Client? && Does(th, c, th')
    ensures !c.AddUpload? && !c.CreateMultiparts? && !c.DeleteUpload? && !c.DeleteTransfer?
  {
    hide DownloaderDoes, ManagerDoes, UploaderDoes, PutterDoes;
  }

  lemma SomeTransitAfter(s: State, t: Tid, c: Call, th': Thread, s': State, f: FileId)
    requires LocksInv(s) && RunnerInv(s) && CallStep(s, t, c, th', s')
    ensures c.DeleteTransfer? ==> c.e < |s.entries|
    ensures var delivered := (c.Enqueue? && c.f == f) || (c.DeleteTransfer? && s.entries[c.e].fileId == f);
            && (SomeTransit(s', f) <==> Sends(s, c, f) || (SomeTransit(s, f) && !delivered))
            && (delivered ==> SomeTransit(s, f))
  {
    forall u
      ensures InTransit(s', u, f) <==>
              (u == t && Sends(s, c, f)) || (InTransit(s, u, f) && !(u == t && Delivers(c)))
      ensures c.Enqueue? && u == t ==> (InTransit(s, u, f) <==> f == c.f)
      ensures c.DeleteTransfer? ==> c.e < |s.entries| && (u == t ==> (InTransit(s, u, f) <==> f == s.entries[c.e].fileId))
      ensures InTransit(s, u, f) && InTransit(s, t, f) ==> u == t
    {
      TransitAfter(s, t, c, th', s', u, f);
      if InTransit(s, u, f) && InTransit(s, t, f) {
        TransitHolds(s, t, f);
        TransitHolds(s, u, f);
      }
      hide RunnerInv, CallStep, InTransit, HeldBy;
    }
    assert InTransit(s', t, f) <==> Sends(s, c, f) || (InTransit(s, t, f) && !Delivers(c));
    hide LocksInv, RunnerInv, CallStep, InTransit, Sends;
  }

  lemma RowKept(s: State, t: Tid, c: Call, th': Thread, s': State, f: FileId)
    requires LocksInv(s) && ShapeInv(s) && RunnerInv(s) && RunnerInv(s') && QueueInv(s) && RowsInv(s)
    requires CallStep(s, t, c, th', s') && DownloadsOnly(s)
    ensures f in s'.transfers <==> IsQueued(s', f) || SomeTransit(s', f)
    ensures f in s'.transfers ==> s'.transfers[f].Download?
  {
    SomeTransitAfter(s, t, c, th', s', f);
    QueuedFileAfter(s, t, c, th', s', f);
    TableAfter(s, t, c, th', f);
    assert s'.transfers == TransfersAfter(s, c);
    if SomeTransit(s, f) {
      var u :| InTransit(s, u, f);
      assert !IsQueued(s, f);
    }
    hide LocksInv, ShapeInv, RunnerInv, QueueInv, CallStep, InTransit, IsQueued, SomeTransit, After, Does;
    hide Allowed, TransfersAfter;
  }

  lemma UploadFound(pc: ManagerPc, c: Call, th': Thread)
    requires Does(Manager(pc), c, th')
    ensures th'.Manager? && (th'.mpc.MStartUpload? ==> c.FindUpload? && c.pending.Some?)
  {
    hide ClientDoes, DownloaderDoes, UploaderDoes, PutterDoes;
  }

  lemma ManagerStays(c: Call, pc: ManagerPc)
    ensures Woken(c, MANAGER, Manager(pc)).Manager?
    ensures Woken(c, MANAGER, Manager(pc)).mpc.MStartUpload? ==> pc.MStartUpload?
  {
  }

  lemma NoUploadStarts(s: State, t: Tid, c: Call, th': Thread, s': State)
    requires ShapeInv(s) && RowsInv(s) && CallStep(s, t, c, th', s') && DownloadsOnly(s)
    ensures MANAGER in s'.threads && s'.threads[MANAGER].Manager? && !s'.threads[MANAGER].mpc.MStartUpload?
  {
    ThreadAfter(s, t, c, th', s', MANAGER);
    assert c.FindUpload? && c.pending.Some? ==> IsPending(s.transfers, c.pending.value);
    if t == MANAGER { UploadFound(s.threads[t].mpc, c, th'); } else { ManagerStays(c, s.threads[MANAGER].mpc); }
    hide Does, After, Allowed, Woken, IsQueued, SomeTransit, InTransit;
  }

  /** A row is carried by a thread or queued, never both. */
  lemma TransitKept(s: State, t: Tid, c: Call, th': Thread, s': State)
    requires LocksInv(s) && ShapeInv(s) && RunnerInv(s) && RunnerInv(s') && FlagsInv(s) && QueueInv(s) && RowsInv(s)
    requires CallStep(s, t, c, th', s')
    ensures forall u, f | InTransit(s', u, f) :: !IsQueued(s', f)
  {
    hide *;
    forall u, f | InTransit(s', u, f)
      ensures !IsQueued(s', f)
    {
      NotQueuedKept(s, t, c, th', s', u, f);
    }
  }

  lemma TableKept(s: State, t: Tid, c: Call, th': Thread, s': State)
    requires LocksInv(s) && ShapeInv(s) && RunnerInv(s) && RunnerInv(s') && QueueInv(s) && RowsInv(s)
    requires CallStep(s, t, c, th', s') && DownloadsOnly(s)
    ensures forall f :: f in s'.transfers <==> IsQueued(s', f) || SomeTransit(s', f)
    ensures forall f <- s'.transfers :: s'.transfers[f].Download?
  {
    hide *;
    forall f
      ensures f in s'.transfers <==> IsQueued(s', f) || SomeTransit(s', f)
      ensures f in s'.transfers ==> s'.transfers[f].Download?
    {
      RowKept(s, t, c, th', s', f);
    }
  }

  lemma RowsKept(s: State, t: Tid, c: Call, th': Thread, s': State)
    requires LocksInv(s) && ShapeInv(s) && RunnerInv(s) && FlagsInv(s) && QueueInv(s) && RowsInv(s)
    requires CallStep(s, t, c, th', s')
    ensures RowsInv(s')
  {
    hide LocksInv, ShapeInv, RunnerInv, FlagsInv, QueueInv, CallStep, InTransit, IsQueued, SomeTransit, DownloadsOnly;
    RunnerKept(s, t, c, th', s');
    KeepsKinds(s, t, c, th', s');
    TransitKept(s, t, c, th', s');
    if DownloadsOnly(s') {
      DownloadsOnlyBefore(s, c, s');
      NoUploadStarts(s, t, c, th', s');
      TableKept(s, t, c, th', s');
    }
  }
}
