/**
 Downloads come to an end.  While there are only downloads, for users that are
 registered, and no more requests arrive, every run stops after a number of calls that is known in advance; what
 TransferOutcome says of stopped runs then holds of all of them.
 */
module TransferLiveness {
  import opened Wrappers
  import opened TransferSystem
  import opened TransferInvariants
  import opened TransferMutexes
  import opened TransferDownloads
  import opened TransferReachable
  import opened TransferProgress
  import opened TransferOutcome

  // ----- The calls that are left -----

  const ROUND := 8      // the calls of the manager that a signal may cause
  const DOWNLOAD := 40  // those of a downloader and the manager that a queued entry may cause

  function ManagerWeight(pc: ManagerPc): nat {
    match pc
    case MAsleep => 0
    case MSleep => 1
    case MPick(_) => 2
    case MStartUpload(_, _) => 2
    case MUploadDb(_) => 3
    case MUpload(_) => 4
    case MScan => 5
    case MLock => 6
    case MUnlock => 7
    case MWoken => ROUND
  }

  function ClientWeight(pc: ClientPc): nat {
    match pc
    case CDone(_) => 0
    case CLeaveMain(_) => 1
    case CUnlockAck(_) => 2
    case CSignalAck(_) => 3
    case CLockAck(_) => 4
    case CDecrement(_) => 5
    case CLeave(_) => 6
    case CUnlockWait(_) => 7
    case CWoken(_) => 8
    case CAsleep(_) => 9
    case CSleep(_) => 10
    case CUnlockMain(_) => 11
    case CSignal(_) => 12 + ROUND
    case CLockWait(_) => 13 + ROUND
    case CPush => 14 + ROUND + DOWNLOAD
    case CAddRowDb => 15 + ROUND + DOWNLOAD
    case CAddRow => 16 + ROUND + DOWNLOAD
    case CSearch => 17 + ROUND + DOWNLOAD
    case CEnter => 18 + ROUND + DOWNLOAD
    case CCheckDb => 19 + ROUND + DOWNLOAD
    case CCheck => 20 + ROUND + DOWNLOAD
    case CFindDb => 21 + ROUND + DOWNLOAD
    case CFind => 22 + ROUND + DOWNLOAD
  }

  function DownloaderWeight(pc: DownloaderPc): nat {
    if pc.DFailed? then 0 else 28 - Stage(pc) + (if Stage(pc) <= 19 then ROUND else 0)
  }

  function Weight(th: Thread): nat {
    match th
    case Client(pc, _, _) => ClientWeight(pc)
    case Downloader(pc, _, _) => DownloaderWeight(pc)
    case _ => 0
  }

  ghost function Pick(ks: set<Tid>): (k: Tid)
    requires ks != {}
    ensures k in ks
  {
    var k :| k in ks;
    k
  }

  ghost function Sum(threads: map<Tid, Thread>, ks: set<Tid>): nat
    requires ks <= threads.Keys
  {
    if ks == {} then 0 else Weight(threads[Pick(ks)]) + Sum(threads, ks - {Pick(ks)})
  }

  /** The most calls that the threads can still make. */
  ghost function Potential(s: State): int {
    (if MANAGER in s.threads && s.threads[MANAGER].Manager? then ManagerWeight(s.threads[MANAGER].mpc) else 0)
    + Sum(s.threads, s.threads.Keys - {MANAGER})
    + DOWNLOAD * (|s.entries| - s.starts)
  }

  // ----- Sums -----

  lemma {:induction false} SumWithout(threads: map<Tid, Thread>, ks: set<Tid>, k: Tid)
    requires ks <= threads.Keys && k in ks
    ensures Sum(threads, ks) == Weight(threads[k]) + Sum(threads, ks - {k})
    decreases ks
  {
    var j := Pick(ks);
    if j != k {
      SumWithout(threads, ks - {j}, k);
      SumWithout(threads, ks - {k}, j);
      assert ks - {j} - {k} == ks - {k} - {j};
    }
    hide Weight;
  }

  lemma {:induction false} SumIsLess(before: map<Tid, Thread>, after: map<Tid, Thread>, ks: set<Tid>)
    requires ks <= before.Keys && ks <= after.Keys
    requires forall k <- ks :: Weight(after[k]) <= Weight(before[k])
    ensures Sum(after, ks) <= Sum(before, ks)
  {
    if ks != {} { SumIsLess(before, after, ks - {Pick(ks)}); }
    hide Weight;
  }

  // ----- Single threads -----

  /** What a call takes from the weight of its thread: itself, and what it causes. */
  function Cost(c: Call): nat {
    1 + (if c.SignalMain? then ROUND else 0) + (if c.Enqueue? then DOWNLOAD else 0)
  }

  lemma EarlyClientDrops(th: Thread, c: Call, th': Thread)
    requires th.Client? && ClientEntry(th.cpc).None? && Does(th, c, th')
    ensures th'.Client? && ClientWeight(th'.cpc) + Cost(c) <= ClientWeight(th.cpc)
  {
    hide DownloaderDoes, ManagerDoes, UploaderDoes, PutterDoes;
  }

  lemma LateClientDrops(th: Thread, c: Call, th': Thread)
    requires th.Client? && ClientEntry(th.cpc).Some? && Does(th, c, th')
    ensures th'.Client? && ClientWeight(th'.cpc) + Cost(c) <= ClientWeight(th.cpc)
  {
    hide DownloaderDoes, ManagerDoes, UploaderDoes, PutterDoes;
  }

  lemma ClientStarts(th: Thread, c: Call, th': Thread)
    requires th.Client? && Does(th, c, th')
    ensures Created(c).None? && !c.StartDownload?
  {
    hide DownloaderDoes, ManagerDoes, UploaderDoes, PutterDoes;
  }

  lemma ClientDrops(th: Thread, c: Call, th': Thread)
    requires th.Client? && Does(th, c, th')
    ensures th'.Client? && ClientWeight(th'.cpc) + Cost(c) <= ClientWeight(th.cpc)
    ensures Created(c).None? && !c.StartDownload?
  {
    hide *;
    ClientStarts(th, c, th');
    if ClientEntry(th.cpc).None? { EarlyClientDrops(th, c, th'); } else { LateClientDrops(th, c, th'); }
  }

  lemma DownloaderDrops(th: Thread, c: Call, th': Thread)
    requires th.Downloader? && Does(th, c, th')
    ensures th'.Downloader?
    ensures DownloaderWeight(th'.dpc) + Cost(c) <= DownloaderWeight(th.dpc)
    ensures Created(c).None? && !c.StartDownload? && !c.Enqueue?
  {
    DownloaderStages(th, c, th');
    TransferEnds(th, c, th');
    StageIsBounded(th'.dpc);
    hide Does, Stage;
  }

  lemma StageIsBounded(pc: DownloaderPc)
    ensures Stage(pc) <= 28
  {
  }

  lemma TransferEnds(th: Thread, c: Call, th': Thread)
    requires th.Downloader? && Does(th, c, th')
    ensures !th.dpc.DFailed? && th'.Downloader? && (c.Transfer? && !c.good ==> th'.dpc.DFailed? && Stage(th.dpc) == 4)
    ensures th.dpc.DTransfer? <==> c.Transfer?
    ensures !c.Enqueue? && Created(c).None?
  {
    hide ClientDoes, ManagerDoes, UploaderDoes, PutterDoes;
  }

  lemma ManagerDrops(pc: ManagerPc, c: Call, th': Thread)
    requires Does(Manager(pc), c, th') && !pc.MStartUpload? && !(c.FindUpload? && c.pending.Some?)
    ensures th'.Manager? && !c.SignalMain? && !c.Enqueue? && !c.StartUpload?
    ensures if c.StartDownload? then ManagerWeight(th'.mpc) == ManagerWeight(pc) + 3
            else ManagerWeight(th'.mpc) < ManagerWeight(pc)
  {
    hide ClientDoes, DownloaderDoes, UploaderDoes, PutterDoes;
  }

  lemma WokenIsLess(s: State, c: Call, u: Tid)
    requires Allowed(s, c) && u in s.threads && !s.threads[u].Manager?
    ensures Weight(Woken(c, u, s.threads[u])) <= Weight(s.threads[u])
  {
    if Woken(c, u, s.threads[u]) != s.threads[u] { WokenSleeper(s, c, u); }
  }

  lemma WokenManager(c: Call, pc: ManagerPc)
    ensures Woken(c, MANAGER, Manager(pc)).Manager?
    ensures ManagerWeight(Woken(c, MANAGER, Manager(pc)).mpc) <= ManagerWeight(pc) + (if c.SignalMain? then ROUND else 0)
  {
  }

  // ----- Calls -----

  lemma OthersAreLess(s: State, t: Tid, c: Call, th': Thread, s': State, ks: set<Tid>)
    requires ShapeInv(s) && CallStep(s, t, c, th', s') && ks <= s.threads.Keys - {MANAGER, t}
    ensures ks <= s'.threads.Keys && Sum(s'.threads, ks) <= Sum(s.threads, ks)
  {
    forall u <- ks ensures u in s'.threads && Weight(s'.threads[u]) <= Weight(s.threads[u]) {
      ThreadAfter(s, t, c, th', s', u);
      WokenIsLess(s, c, u);
    }
    hide CallStep, Weight, ShapeInv;
    SumIsLess(s.threads, s'.threads, ks);
  }

  lemma SameThreads(s: State, t: Tid, c: Call, th': Thread, s': State)
    requires CallStep(s, t, c, th', s')
    ensures Created(c).None? ==> s'.threads.Keys == s.threads.Keys
    ensures Created(c).Some? ==>
              Created(c).value.0 !in s.threads && s'.threads.Keys == s.threads.Keys + {Created(c).value.0}
    ensures Created(c).Some? && Created(c).value.0 != t ==> s'.threads[Created(c).value.0] == Created(c).value.1
    ensures t in s.threads && s'.threads[t] == th'
  {
    forall u ensures u in s'.threads <==> u in s.threads || (Created(c).Some? && Created(c).value.0 == u) {
      ThreadAfter(s, t, c, th', s', u);
    }
    ThreadAfter(s, t, c, th', s', t);
    if Created(c).Some? { ThreadAfter(s, t, c, th', s', Created(c).value.0); }
    hide Does, After, Woken;
  }

  lemma EntriesGrow(s: State, t: Tid, c: Call, th': Thread, s': State)
    requires CallStep(s, t, c, th', s')
    ensures |s'.entries| == (if c.Enqueue? then |s.entries| + 1 else |s.entries|)
    ensures s'.starts == (if c.StartDownload? then s.starts + 1 else s.starts)
  {
    EntriesKeep(s, t, c);
    hide Does, Allowed, EntriesAfter;
  }

  /** A client or a downloader uses up its own calls, and pays for what it causes. */
  lemma ThreadStepDrops(s: State, t: Tid, c: Call, th': Thread, s': State)
    requires ShapeInv(s) && CallStep(s, t, c, th', s') && (s.threads[t].Client? || s.threads[t].Downloader?)
    ensures Potential(s') < Potential(s)
  {
    var ks := s.threads.Keys - {MANAGER};
    var th := s.threads[t];
    assert t in ks && MANAGER in s.threads && s.threads[MANAGER].Manager?;
    SameThreads(s, t, c, th', s');
    EntriesGrow(s, t, c, th', s');
    OthersAreLess(s, t, c, th', s', ks - {t});
    ThreadAfter(s, t, c, th', s', MANAGER);
    WokenManager(c, s.threads[MANAGER].mpc);
    if th.Client? { ClientDrops(th, c, th'); } else { DownloaderDrops(th, c, th'); }
    hide CallStep, ShapeInv, Sum, ManagerWeight, ClientWeight, DownloaderWeight, Woken;
    assert s'.threads.Keys == s.threads.Keys;
    SumWithout(s.threads, ks, t);
    SumWithout(s'.threads, ks, t);
  }

  /** So does the manager; what a download takes was set aside when it was queued. */
  lemma ManagerStepDrops(s: State, c: Call, th': Thread, s': State)
    requires ShapeInv(s) && RunnerInv(s) && CallStep(s, MANAGER, c, th', s')
    requires !s.threads[MANAGER].mpc.MStartUpload? && !(c.FindUpload? && c.pending.Some?)
    ensures Potential(s') < Potential(s)
  {
    var ks := s.threads.Keys - {MANAGER};
    SameThreads(s, MANAGER, c, th', s');
    EntriesGrow(s, MANAGER, c, th', s');
    OthersAreLess(s, MANAGER, c, th', s', ks);
    ManagerDrops(s.threads[MANAGER].mpc, c, th');
    assert Weight(Downloader(DLock1, 0, 0)) == 28 + ROUND;
    if c.StartDownload? {
      var d := c.d;
      assert Created(c) == Some((d, Downloader(DLock1, c.i, c.e))) && d != MANAGER;
      assert s'.threads.Keys - {MANAGER} == ks + {d} && ks + {d} - {d} == ks;
      assert Weight(s'.threads[d]) == 28 + ROUND;
      hide CallStep, ShapeInv, RunnerInv, Sum, ManagerWeight, Weight, Woken;
      SumWithout(s'.threads, ks + {d}, d);
    } else {
      assert Created(c).None?;
      hide CallStep, ShapeInv, RunnerInv, Sum, ManagerWeight, Weight, Woken;
    }
  }

  lemma NothingPends(s: State, c: Call)
    requires RowsInv(s) && DownloadsOnly(s) && Allowed(s, c)
    ensures !(c.FindUpload? && c.pending.Some?)
    ensures MANAGER in s.threads && s.threads[MANAGER].Manager? && !s.threads[MANAGER].mpc.MStartUpload?
  {
    assert c.FindUpload? && c.pending.Some? ==> IsPending(s.transfers, c.pending.value);
    hide IsQueued, SomeTransit, InTransit, DownloadsOnly;
  }

  lemma NoUploadCall(s: State, t: Tid, c: Call, th': Thread)
    requires ShapeInv(s) && RowsInv(s) && DownloadsOnly(s)
    requires t in s.threads && Does(s.threads[t], c, th') && Allowed(s, c)
    ensures !c.StartUpload? && (t == MANAGER || s.threads[t].Client? || s.threads[t].Downloader?)
  {
    var th := s.threads[t];
    NothingPends(s, c);
    assert th.Manager? <==> t == MANAGER;
    assert !th.Uploader? && !th.Putter?;
    hide RowsInv, ShapeInv, DownloadsOnly, Does, Allowed, ClientWeight, DownloaderWeight, ManagerWeight, Created;
    if t == MANAGER { ManagerDrops(th.mpc, c, th'); }
    else if th.Client? { ClientDrops(th, c, th'); CreatedByNone(c); }
    else { DownloaderDrops(th, c, th'); CreatedByNone(c); }
  }

  lemma CreatedByNone(c: Call)
    requires Created(c).None?
    ensures !c.StartUpload?
  {
  }

  lemma DownloadsFollow(s: State, c: Call, s': State)
    requires KindsKept(s, c, s') && DownloadsOnly(s) && !c.StartUpload?
    ensures DownloadsOnly(s')
  {
  }

  lemma OnlyDownloadsAfter(s: State, t: Tid, c: Call, th': Thread, s': State)
    requires ShapeInv(s) && RowsInv(s) && DownloadsOnly(s) && CallStep(s, t, c, th', s')
    ensures DownloadsOnly(s') && (t == MANAGER || s.threads[t].Client? || s.threads[t].Downloader?)
  {
    assert Does(s.threads[t], c, th') && Allowed(s, c);
    hide *;
    KeepsKinds(s, t, c, th', s');
    NoUploadCall(s, t, c, th');
    DownloadsFollow(s, c, s');
  }

  lemma StepDrops(s: State, t: Tid, c: Call, th': Thread, s': State)
    requires Inv(s) && DownloadsOnly(s) && CallStep(s, t, c, th', s')
    ensures DownloadsOnly(s') && Potential(s') < Potential(s)
  {
    assert ShapeInv(s) && RunnerInv(s) && RowsInv(s) && Allowed(s, c);
    hide *;
    OnlyDownloadsAfter(s, t, c, th', s');
    NothingPends(s, c);
    if t == MANAGER { ManagerStepDrops(s, c, th', s'); } else { ThreadStepDrops(s, t, c, th', s'); }
  }

  // ----- Runs -----

  ghost predicate IsCall(s: State, s': State) {
    exists t, c, th' :: CallStep(s, t, c, th', s')
  }

  ghost predicate CallAt(run: seq<State>, i: nat) {
    0 < i < |run| && IsCall(run[i - 1], run[i])
  }

  /** A run that goes on from s with calls alone. */
  ghost predicate GoesOnWith(run: seq<State>, s: State) {
    run != [] && run[0] == s && forall i | 0 < i < |run| :: CallAt(run, i)
  }

  lemma CallDrops(s: State, s': State)
    requires Inv(s) && DownloadsOnly(s) && IsCall(s, s')
    ensures Inv(s') && DownloadsOnly(s') && Potential(s') < Potential(s)
  {
    var t, c, th' :| CallStep(s, t, c, th', s');
    hide *;
    StepDrops(s, t, c, th', s');
    CallKeeps(s, t, c, th', s');
  }

  lemma ReachableNext(s: State, s': State)
    requires Reachable(s) && IsCall(s, s')
    ensures Reachable(s')
  {
    hide CallStep, Init;
    var run :| IsRun(run) && run[|run| - 1] == s;
    var longer := run + [s'];
    forall i | 0 < i < |longer| ensures StepAt(longer, i) {
      if i < |run| { assert StepAt(run, i); }
    }
    assert IsRun(longer);
  }

  lemma CallOf(run: seq<State>, s: State, n: nat)
    requires GoesOnWith(run, s) && 0 < n < |run|
    ensures IsCall(run[n - 1], run[n])
  {
    hide IsCall;
    assert CallAt(run, n);
  }

  lemma {:induction false} CallsAreCounted(run: seq<State>, s: State, n: nat)
    requires Reachable(s) && DownloadsOnly(s) && GoesOnWith(run, s) && n < |run|
    ensures Reachable(run[n]) && DownloadsOnly(run[n]) && n + Potential(run[n]) <= Potential(s)
  {
    if n == 0 {
      hide Reachable, DownloadsOnly, Potential, CallAt;
    } else {
      hide *;
      CallsAreCounted(run, s, n - 1);
      CallOf(run, s, n);
      ReachableInv(run[n - 1]);
      CallDrops(run[n - 1], run[n]);
      ReachableNext(run[n - 1], run[n]);
    }
  }

  lemma PotentialIsNatural(s: State)
    requires Reachable(s)
    ensures 0 <= Potential(s)
  {
    ReachableInv(s);
    assert RunnerInv(s);
    hide Inv, Reachable, Sum;
  }

  /** Every run without new requests is shorter than what its first state allows. */
  lemma RunsEnd(run: seq<State>, s: State)
    requires Reachable(s) && DownloadsOnly(s) && GoesOnWith(run, s)
    ensures |run| <= Potential(s) + 1
  {
    CallsAreCounted(run, s, |run| - 1);
    PotentialIsNatural(run[|run| - 1]);
    hide Reachable, DownloadsOnly, Potential, CallAt;
  }

  /** From every reachable state, the calls come to a state in which no thread can go on. */
  lemma Completes(s: State) returns (run: seq<State>)
    requires Reachable(s) && DownloadsOnly(s)
    ensures GoesOnWith(run, s) && !CanGoOn(run[|run| - 1])
    decreases Potential(s)
  {
    hide Reachable, DownloadsOnly, Potential, CallAt, CanGoOn, IsCall;
    if CanGoOn(s) {
      var s' := NextCall(s);
      CompletesAfter(s, s');
      var rest := Completes(s');
      run := Prepended(s, s', rest);
    } else {
      run := [s];
    }
  }

  lemma NextCall(s: State) returns (s': State)
    requires CanGoOn(s)
    ensures IsCall(s, s')
  {
    hide CallStep, After;
    var t, c, th' :| CallStep(s, t, c, th', After(s, t, c, th'));
    s' := After(s, t, c, th');
  }

  lemma CompletesAfter(s: State, s': State)
    requires Reachable(s) && DownloadsOnly(s) && IsCall(s, s')
    ensures Reachable(s') && DownloadsOnly(s') && 0 <= Potential(s') < Potential(s)
  {
    hide *;
    ReachableInv(s);
    CallDrops(s, s');
    ReachableNext(s, s');
    PotentialIsNatural(s');
  }

  lemma Prepended(s: State, s': State, rest: seq<State>) returns (run: seq<State>)
    requires IsCall(s, s') && GoesOnWith(rest, s')
    ensures GoesOnWith(run, s) && run[|run| - 1] == rest[|rest| - 1]
  {
    hide IsCall;
    run := [s] + rest;
    forall i | 0 < i < |run| ensures CallAt(run, i) {
      if 1 < i { assert CallAt(rest, i - 1); }
    }
  }

  /**
   Every client is answered, however the threads are scheduled: when a run has
   ended, as it must, each client has its answer, or sleeps on a download whose
   transfer failed or that found no slot.  If no transfer failed, all have.
   */
  lemma EveryRunAnswers(run: seq<State>, s: State, t: Tid)
    requires Reachable(s) && DownloadsOnly(s) && GoesOnWith(run, s) && !CanGoOn(run[|run| - 1])
    requires t in run[|run| - 1].threads && run[|run| - 1].threads[t].Client?
    ensures |run| <= Potential(s) + 1
    ensures var last := run[|run| - 1];
            && (last.threads[t].cpc.CDone? || (last.threads[t].cpc.CAsleep? && IsStranded(last, last.threads[t].cpc.e)))
            && ((forall u <- last.threads :: !IsLost(last.threads[u])) ==> last.threads[t].cpc.CDone?)
  {
    var last := run[|run| - 1];
    RunsEnd(run, s);
    CallsAreCounted(run, s, |run| - 1);
    Quiescence(last, t);
    if forall u <- last.threads :: !IsLost(last.threads[u]) { EverybodyIsAnswered(last, t); }
    hide Reachable, DownloadsOnly, Potential, CallAt, CanGoOn, IsStranded, IsLost;
  }
}
