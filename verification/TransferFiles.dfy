/** Which files are marked as cached, in every state of every run. */
module TransferFiles {
  import opened Wrappers
  import opened TransferSystem
  import opened TransferInvariants
  import opened TransferMutexes
  import opened TransferDownloads
  import opened TransferSubscribers
  import opened TransferReachable
  import opened TransferTheorems

  /** A download of f is past Query_MarkFileAsCached. */
  ghost predicate IsMarked(s: State, f: FileId) {
    exists e: nat :: e < |s.entries| && s.entries[e].fileId == f && Progress(s, e) >= 15
  }

  /** The call is the one that marks f. */
  predicate Marks(s: State, c: Call, f: FileId) {
    c.MarkCached? && c.e < |s.entries| && s.entries[c.e].fileId == f
  }

  // ----- Steps -----

  /** Marking a file as cached leaves the flag of every other file as it is. */
  lemma FlagMoves(s: State, c: Call, f: FileId)
    ensures f in FilesAfter(s, c) <==> f in s.files
    ensures f in s.files ==> (FilesAfter(s, c)[f] <==> s.files[f] || Marks(s, c, f))
  {
  }

  lemma {:induction false} MarkedStage(n: nat, c: Call, e: Eid, i: nat)
    requires StageCall(n, c, e, i)
    ensures NextStage(n, c) >= 15 <==> n >= 15 || c == MarkCached(e)
  {
  }

  lemma MarkedMoves(s: State, t: Tid, c: Call, th': Thread, s': State, e: Eid)
    requires RunnerInv(s) && RunnerInv(s') && CallStep(s, t, c, th', s')
    ensures Progress(s', e) >= 15 <==> Progress(s, e) >= 15 || c == MarkCached(e)
  {
    hide RunnerInv, CallStep, Does, Progress, NextStage, StageCall;
    DownloadMoves(s, t, c, th', s', e);
    StepCall(s, t, c, th', s');
    if s.threads[t].Downloader? && s.threads[t].entry == e {
      MarkedStage(Progress(s, e), c, e, s.threads[t].slot);
    } else if c == MarkCached(e) {
      CallOfDownload(s, t, c, th', e);
    }
  }

  lemma StepCall(s: State, t: Tid, c: Call, th': Thread, s': State)
    requires CallStep(s, t, c, th', s')
    ensures t in s.threads && Does(s.threads[t], c, th') && s'.files == FilesAfter(s, c)
    ensures s'.entries == EntriesAfter(s, t, c)
  {
    hide Does, Allowed, FilesAfter, EntriesAfter;
  }

  lemma MarksMoves(s: State, t: Tid, c: Call, th': Thread, s': State, f: FileId)
    requires RunnerInv(s) && RunnerInv(s') && CallStep(s, t, c, th', s')
    ensures IsMarked(s', f) <==> IsMarked(s, f) || Marks(s, c, f)
  {
    hide *;
    StepCall(s, t, c, th', s');
    EntriesKeep(s, t, c);
    forall e: nat
      ensures Progress(s', e) >= 15 <==> Progress(s, e) >= 15 || c == MarkCached(e)
      ensures Progress(s, e) >= 15 ==> e < |s.entries|
      ensures Progress(s', e) >= 15 ==> e < |s'.entries|
    {
      MarkedMoves(s, t, c, th', s', e);
      StartedExists(s, e);
      StartedExists(s', e);
    }
    MarksFollow(s, c, s', f);
  }

  lemma StartedExists(s: State, e: Eid)
    ensures Progress(s, e) > 0 ==> e < |s.entries|
  {
    hide Stage;
  }

  lemma MarksFollow(s: State, c: Call, s': State, f: FileId)
    requires |s.entries| <= |s'.entries|
    requires forall e: nat | e < |s.entries| :: s'.entries[e].fileId == s.entries[e].fileId
    requires forall e: nat :: Progress(s', e) >= 15 <==> Progress(s, e) >= 15 || c == MarkCached(e)
    requires forall e: nat :: Progress(s, e) >= 15 ==> e < |s.entries|
    requires c.MarkCached? ==> |s'.entries| == |s.entries|
    ensures IsMarked(s', f) <==> IsMarked(s, f) || Marks(s, c, f)
  {
    hide Progress;
    if e: nat :| e < |s.entries| && s.entries[e].fileId == f && Progress(s, e) >= 15 {
      assert Progress(s', e) >= 15;
    }
    if Marks(s, c, f) { assert Progress(s', c.e) >= 15; }
  }

  lemma TransferMoves(s: State, t: Tid, c: Call, th': Thread, s': State, e: Eid)
    requires RunnerInv(s) && RunnerInv(s') && CallStep(s, t, c, th', s')
    ensures Progress(s', e) >= 5 ==>
              Progress(s, e) >= 5 || (c == Transfer(true) && s.threads[t].Downloader? && s.threads[t].entry == e)
  {
    hide RunnerInv, CallStep, Does, Progress, StageCall;
    DownloadMoves(s, t, c, th', s', e);
    StepCall(s, t, c, th', s');
    if s.threads[t].Downloader? && s.threads[t].entry == e {
      ProgressOfOwn(s, t);
      TransferStage(s.threads[t], c, th');
    }
  }

  lemma ProgressOfOwn(s: State, t: Tid)
    requires RunnerInv(s) && t in s.threads && s.threads[t].Downloader?
    ensures Progress(s, s.threads[t].entry) == Stage(s.threads[t].dpc)
    ensures s.threads[t].entry < |s.entries|
  {
    hide Stage;
  }

  /** A download gets past its transfer only when that ended well. */
  lemma TransferStage(th: Thread, c: Call, th': Thread)
    requires th.Downloader? && Does(th, c, th')
    ensures NextStage(Stage(th.dpc), c) >= 5 ==> Stage(th.dpc) >= 5 || c == Transfer(true)
  {
    hide ClientDoes, ManagerDoes, UploaderDoes, PutterDoes;
  }

  // ----- Runs -----

  predicate WasCached(s: State, f: FileId) {
    f in s.files && s.files[f]
  }

  /** The flags of the files in s, when first is the first state of the run. */
  ghost predicate FlagsAreEarned(first: State, s: State) {
    && first.files.Keys <= s.files.Keys
    && forall f <- s.files :: s.files[f] <==> WasCached(first, f) || IsMarked(s, f)
  }

  lemma CallEarns(first: State, s: State, t: Tid, c: Call, th': Thread, s': State)
    requires RunnerInv(s) && RunnerInv(s') && FlagsAreEarned(first, s) && CallStep(s, t, c, th', s')
    ensures FlagsAreEarned(first, s')
  {
    hide RunnerInv, CallStep, IsMarked, Marks, FilesAfter, WasCached, EntriesAfter;
    StepCall(s, t, c, th', s');
    forall f
      ensures f in s'.files <==> f in s.files
      ensures f in s.files ==> (s'.files[f] <==> s.files[f] || Marks(s, c, f))
      ensures IsMarked(s', f) <==> IsMarked(s, f) || Marks(s, c, f)
    {
      FlagMoves(s, c, f);
      MarksMoves(s, t, c, th', s', f);
    }
    assert s'.files.Keys == s.files.Keys;
  }

  lemma ArrivalEarns(first: State, s: State, t: Tid, th: Thread, s': State)
    requires RunnerInv(s) && FlagsAreEarned(first, s) && ArrivalStep(s, t, th, s')
    ensures FlagsAreEarned(first, s')
  {
    ArrivalProgress(s, t, th, s');
    hide RunnerInv, Progress;
    forall f ensures IsMarked(s', f) <==> IsMarked(s, f) {}
    hide IsMarked;
  }

  lemma NewFileEarns(first: State, s: State, g: FileId, s': State)
    requires ShapeInv(s) && FlagsAreEarned(first, s) && NewFileStep(s, g, s')
    ensures FlagsAreEarned(first, s')
  {
    NewFileProgress(s, g, s');
    hide Progress;
    forall f ensures IsMarked(s', f) <==> IsMarked(s, f) {}
    assert !IsMarked(s, g);
    hide IsMarked, ShapeInv;
  }

  lemma StepEarns(first: State, s: State, s': State)
    requires Inv(s) && Inv(s') && FlagsAreEarned(first, s) && Next(s, s')
    ensures FlagsAreEarned(first, s')
  {
    PartsOf(s);
    PartsOf(s');
    hide Inv, CallStep, RunnerInv, ShapeInv, FlagsAreEarned, ArrivalStep, NewFileStep;
    if t, c, th' :| CallStep(s, t, c, th', s') {
      CallEarns(first, s, t, c, th', s');
    } else if t, th :| ArrivalStep(s, t, th, s') {
      ArrivalEarns(first, s, t, th, s');
    } else {
      var f :| NewFileStep(s, f, s');
      NewFileEarns(first, s, f, s');
    }
  }

  lemma PartsOf(s: State)
    requires Inv(s)
    ensures RunnerInv(s) && ShapeInv(s)
  {
    hide LocksInv, ShapeInv, RunnerInv, FlagsInv, QueueInv, SlotsInv, MembersInv, CachedInv, AckInv, ManagerInv, RowsInv;
  }

  lemma NothingMarked(s: State)
    requires Init(s)
    ensures FlagsAreEarned(s, s)
  {
    hide Progress;
  }

  lemma {:induction false} RunEarns(run: seq<State>, n: nat)
    requires IsRun(run) && n < |run|
    ensures FlagsAreEarned(run[0], run[n])
  {
    hide *;
    if n == 0 {
      InitOf(run);
      NothingMarked(run[0]);
    } else {
      RunEarns(run, n - 1);
      RunKeeps(run, n - 1);
      RunKeeps(run, n);
      StepOf(run, n);
      StepEarns(run[0], run[n - 1], run[n]);
    }
  }

  lemma InitOf(run: seq<State>)
    requires IsRun(run)
    ensures run != [] && Init(run[0])
  {
    hide Init, StepAt;
  }

  /**
   In every state of every run, a file is marked as cached if and only if it was
   in the first state, or one of its downloads is past marking it.
   */
  lemma CachedExactly(run: seq<State>, n: nat, f: FileId)
    requires IsRun(run) && n < |run| && f in run[n].files
    ensures run[n].files[f] <==>
            || (f in run[0].files && run[0].files[f])
            || exists e: nat :: e < |run[n].entries| && run[n].entries[e].fileId == f && Progress(run[n], e) >= 15
  {
    hide IsRun, Progress;
    RunEarns(run, n);
  }

  // ----- Where a flag comes from -----

  /** A downloader of f makes the step from s to s': its transfer ends well. */
  ghost predicate Fetches(s: State, s': State, f: FileId, t: Tid, th': Thread) {
    && CallStep(s, t, Transfer(true), th', s')
    && s.threads[t].Downloader?
    && s.threads[t].entry < |s.entries|
    && s.entries[s.threads[t].entry].fileId == f
  }

  ghost predicate FetchesAt(run: seq<State>, i: nat, f: FileId, t: Tid, th': Thread) {
    i + 1 < |run| && Fetches(run[i], run[i + 1], f, t, th')
  }

  /** A transfer of f ends well before state n of the run. */
  ghost predicate WasFetched(run: seq<State>, n: nat, f: FileId) {
    exists i: nat, t, th' :: i < n && FetchesAt(run, i, f, t, th')
  }

  lemma EntriesOfStep(s: State, s': State, e: Eid)
    requires Inv(s) && Inv(s') && Next(s, s') && Progress(s', e) >= 5
    ensures e < |s.entries| <= |s'.entries| && s'.entries[e].fileId == s.entries[e].fileId
    ensures Progress(s, e) >= 5 || exists t, th' :: Fetches(s, s', s.entries[e].fileId, t, th')
  {
    PartsOf(s);
    PartsOf(s');
    hide Inv, CallStep, RunnerInv, ShapeInv, Progress, EntriesAfter, NewFileStep, ArrivalStep, Does;
    if t, c, th' :| CallStep(s, t, c, th', s') {
      TransferMoves(s, t, c, th', s', e);
      StartedExists(s, e);
      StepCall(s, t, c, th', s');
      EntriesKeep(s, t, c);
      if Progress(s, e) < 5 {
        ProgressOfOwn(s, t);
        assert Fetches(s, s', s.entries[e].fileId, t, th');
      }
    } else if t, th :| ArrivalStep(s, t, th, s') {
      ArrivalProgress(s, t, th, s');
      StartedExists(s, e);
      ArrivalEntries(s, t, th, s');
    } else {
      var f :| NewFileStep(s, f, s');
      NewFileProgress(s, f, s');
      StartedExists(s, e);
      NewFileEntries(s, f, s');
    }
  }

  lemma ArrivalEntries(s: State, t: Tid, th: Thread, s': State)
    requires ArrivalStep(s, t, th, s')
    ensures s'.entries == s.entries
  {
  }

  lemma NewFileEntries(s: State, f: FileId, s': State)
    requires NewFileStep(s, f, s')
    ensures s'.entries == s.entries
  {
  }

  lemma {:induction false} PastTransfer(run: seq<State>, n: nat, e: Eid)
    requires IsRun(run) && n < |run| && Progress(run[n], e) >= 5
    ensures e < |run[n].entries| && WasFetched(run, n, run[n].entries[e].fileId)
  {
    hide *;
    if n == 0 {
      InitOf(run);
      NoProgress(run[0], e);
    } else {
      RunKeeps(run, n - 1);
      RunKeeps(run, n);
      StepOf(run, n);
      EntriesOfStep(run[n - 1], run[n], e);
      var f := run[n].entries[e].fileId;
      if Progress(run[n - 1], e) >= 5 {
        PastTransfer(run, n - 1, e);
        FetchedBefore(run, n, f);
      } else {
        var t, th' :| Fetches(run[n - 1], run[n], f, t, th');
        FetchedLast(run, n, f, t, th');
      }
    }
  }

  lemma NoProgress(s: State, e: Eid)
    requires Init(s)
    ensures Progress(s, e) == 0
  {
  }

  lemma FetchedBefore(run: seq<State>, n: nat, f: FileId)
    requires 0 < n < |run| && WasFetched(run, n - 1, f)
    ensures WasFetched(run, n, f)
  {
    hide FetchesAt;
  }

  lemma FetchedLast(run: seq<State>, n: nat, f: FileId, t: Tid, th': Thread)
    requires 0 < n < |run| && Fetches(run[n - 1], run[n], f, t, th')
    ensures WasFetched(run, n, f)
  {
    hide Fetches;
    assert FetchesAt(run, n - 1, f, t, th');
  }

  /** A known file is answered OK only if it was cached from the first, or a transfer of that file has ended well. */
  lemma OkIsEarned(run: seq<State>, n: nat, t: Tid)
    requires IsRun(run) && n < |run| && t in run[n].threads && run[n].threads[t].Client?
    requires run[n].threads[t].cpc == CDone(Ok) && run[n].threads[t].file != 0
    ensures var f := run[n].threads[t].file;
            || (f in run[0].files && run[0].files[f])
            || exists i: nat, d, th' :: i < n && FetchesAt(run, i, f, d, th')
  {
    hide IsRun, Progress, FetchesAt, IsMarked;
    var f := run[n].threads[t].file;
    Visited(run, n);
    OkMeansCached(run[n], t);
    RunEarns(run, n);
    if !WasCached(run[0], f) { MarkedWasFetched(run, n, f); }
  }

  lemma Visited(run: seq<State>, n: nat)
    requires IsRun(run) && n < |run|
    ensures Reachable(run[n])
  {
    hide StepAt, Init;
    var before := run[..n + 1];
    forall i | 0 < i < |before| ensures StepAt(before, i) { StepOfPrefix(run, n + 1, i); }
    assert IsRun(before) && before[|before| - 1] == run[n];
  }

  lemma StepOfPrefix(run: seq<State>, m: nat, i: nat)
    requires IsRun(run) && 0 < i < m <= |run|
    ensures StepAt(run[..m], i)
  {
    hide Next, Init;
    assert StepAt(run, i);
  }

  lemma MarkedWasFetched(run: seq<State>, n: nat, f: FileId)
    requires IsRun(run) && n < |run| && IsMarked(run[n], f)
    ensures WasFetched(run, n, f)
  {
    hide IsRun, Progress, WasFetched;
    var e: nat :| e < |run[n].entries| && run[n].entries[e].fileId == f && Progress(run[n], e) >= 15;
    PastTransfer(run, n, e);
  }

  // ----- Errors -----

  /**
   What a client makes of the flag: a cached file is answered OK, an unknown
   one that reads as not cached with an error, and every other is queued.
   */
  lemma CheckIsAnswered(s: State, t: Tid, f: FileId, cached: bool, th': Thread, s': State)
    requires Reachable(s) && CallStep(s, t, IsCached(f, cached), th', s')
    ensures th'.Client? && th'.file == f
    ensures cached ==> th'.cpc == CDone(Ok)
    ensures !cached && f == 0 ==> th'.cpc == CDone(Error)
    ensures !cached && f != 0 ==> th'.cpc == CEnter && f in s.files && !s.files[f]
  {
    hide Reachable, After;
    ReachableInv(s);
    PartsOf(s);
    CheckIsSane(s, t, f, cached, th');
  }

  lemma CheckIsSane(s: State, t: Tid, f: FileId, cached: bool, th': Thread)
    requires ShapeInv(s) && t in s.threads && Does(s.threads[t], IsCached(f, cached), th')
    requires f in s.files ==> cached == s.files[f]
    ensures th'.Client? && th'.file == f
    ensures cached ==> th'.cpc == CDone(Ok)
    ensures !cached && f == 0 ==> th'.cpc == CDone(Error)
    ensures !cached && f != 0 ==> th'.cpc == CEnter && f in s.files && !s.files[f]
  {
    assert Sane(s, s.threads[t]);
  }

  ghost predicate ErrorsAreUnknown(s: State) {
    forall t <- s.threads | s.threads[t].Client? && s.threads[t].cpc == CDone(Error) :: s.threads[t].file == 0
  }

  lemma ErrorMoves(th: Thread, c: Call, th': Thread)
    requires Does(th, c, th') && th'.Client? && th'.cpc == CDone(Error)
    ensures th'.file == 0
  {
  }

  lemma CallErrs(s: State, t: Tid, c: Call, th': Thread, s': State)
    requires ErrorsAreUnknown(s) && CallStep(s, t, c, th', s')
    ensures ErrorsAreUnknown(s')
  {
    hide Does, After, CallStep, Woken, Allowed;
    StepCall(s, t, c, th', s');
    forall u <- s'.threads | s'.threads[u].Client? && s'.threads[u].cpc == CDone(Error)
      ensures s'.threads[u].file == 0
    {
      ThreadAfter(s, t, c, th', s', u);
      if u == t {
        ErrorMoves(s.threads[t], c, th');
      } else if u in s.threads {
        AnswerWoken(c, u, s.threads[u]);
      }
    }
  }

  lemma {:induction false} RunErrs(run: seq<State>, n: nat)
    requires IsRun(run) && n < |run|
    ensures ErrorsAreUnknown(run[n])
  {
    hide CallStep, StepAt, Next;
    if n == 0 {
      InitOf(run);
    } else {
      RunErrs(run, n - 1);
      StepOf(run, n);
      StepErrs(run[n - 1], run[n]);
    }
  }

  lemma StepErrs(s: State, s': State)
    requires ErrorsAreUnknown(s) && Next(s, s')
    ensures ErrorsAreUnknown(s')
  {
    hide CallStep;
    if t, c, th' :| CallStep(s, t, c, th', s') { CallErrs(s, t, c, th', s'); }
  }

  /** An error is answered only to a request for an unknown file, and such a request is not queued. */
  lemma ErrorMeansUnknown(s: State, t: Tid)
    requires Reachable(s) && t in s.threads && s.threads[t].Client?
    ensures s.threads[t].cpc == CDone(Error) ==> s.threads[t].file == 0
    ensures s.threads[t].file == 0 ==> ClientEntry(s.threads[t].cpc) == None && !s.threads[t].cpc.CEnter?
  {
    hide *;
    ReachableInv(s);
    PartsOf(s);
    ReachedErrs(s);
    UnknownStays(s, t);
  }

  lemma UnknownStays(s: State, t: Tid)
    requires ShapeInv(s) && ErrorsAreUnknown(s) && t in s.threads && s.threads[t].Client?
    ensures s.threads[t].cpc == CDone(Error) ==> s.threads[t].file == 0
    ensures s.threads[t].file == 0 ==> ClientEntry(s.threads[t].cpc) == None && !s.threads[t].cpc.CEnter?
  {
    assert Sane(s, s.threads[t]);
  }

  lemma ReachedErrs(s: State)
    requires Reachable(s)
    ensures ErrorsAreUnknown(s)
  {
    hide StepAt, Init, ErrorsAreUnknown;
    var run :| IsRun(run) && run[|run| - 1] == s;
    RunErrs(run, |run| - 1);
  }
}
