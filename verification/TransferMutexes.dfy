/** Every step keeps the mutexes with the threads that hold them, and creates threads that hold none. */
module TransferMutexes {
  import opened Wrappers
  import opened TransferSystem
  import opened TransferInvariants

  /** The threads after a call, one by one. */
  lemma ThreadAfter(s: State, t: Tid, c: Call, th': Thread, s': State, u: Tid)
    requires CallStep(s, t, c, th', s')
    ensures u in s'.threads <==> u in s.threads || (Created(c).Some? && Created(c).value.0 == u)
    ensures u == t ==> s'.threads[u] == th'
    ensures u in s.threads && u != t ==> s'.threads[u] == Woken(c, u, s.threads[u])
    ensures u !in s.threads && u in s'.threads ==> s'.threads[u] == Created(c).value.1
  {
    hide Does;
  }

  /** A signal wakes only a thread that waits for it. */
  lemma WokenSleeper(s: State, c: Call, u: Tid)
    requires Allowed(s, c) && u in s.threads && Woken(c, u, s.threads[u]) != s.threads[u]
    ensures match s.threads[u]
            case Client(pc, _, _) => c.Broadcast? && pc == CAsleep(c.e)
            case Manager(pc) => c.SignalMain? && pc.MAsleep?
            case Downloader(pc, _, e) => c == SignalAck(e, Some(u)) && pc.DAsleep?
            case _ => false
  {
  }

  lemma HoldsEarlyClient(th: Thread, c: Call, th': Thread, l: Lock)
    requires th.Client? && ClientEntry(th.cpc).None? && Does(th, c, th')
    ensures Frees(c) == Some(l) ==> Holds(th, l)
    ensures Holds(th', l) <==> c == Take(l) || (Holds(th, l) && Frees(c) != Some(l))
  {
    hide ManagerDoes, DownloaderDoes, UploaderDoes, PutterDoes;
  }

  lemma HoldsLateClient(th: Thread, c: Call, th': Thread, l: Lock)
    requires th.Client? && ClientEntry(th.cpc).Some? && Does(th, c, th')
    ensures Frees(c) == Some(l) ==> Holds(th, l)
    ensures Holds(th', l) <==> c == Take(l) || (Holds(th, l) && Frees(c) != Some(l))
  {
    hide ManagerDoes, DownloaderDoes, UploaderDoes, PutterDoes;
  }

  lemma HoldsManager(th: Thread, c: Call, th': Thread, l: Lock)
    requires th.Manager? && Does(th, c, th')
    ensures Frees(c) == Some(l) ==> Holds(th, l)
    ensures Holds(th', l) <==> c == Take(l) || (Holds(th, l) && Frees(c) != Some(l))
  {
    hide ClientDoes, DownloaderDoes, UploaderDoes, PutterDoes;
  }

  lemma HoldsEarlyDownloader(th: Thread, c: Call, th': Thread, l: Lock)
    requires th.Downloader? && Stage(th.dpc) < 10 && Does(th, c, th')
    ensures Frees(c) == Some(l) ==> Holds(th, l)
    ensures Holds(th', l) <==> c == Take(l) || (Holds(th, l) && Frees(c) != Some(l))
  {
    hide ClientDoes, ManagerDoes, UploaderDoes, PutterDoes;
  }

  lemma HoldsMiddleDownloader(th: Thread, c: Call, th': Thread, l: Lock)
    requires th.Downloader? && 10 <= Stage(th.dpc) < 18 && Does(th, c, th')
    ensures Frees(c) == Some(l) ==> Holds(th, l)
    ensures Holds(th', l) <==> c == Take(l) || (Holds(th, l) && Frees(c) != Some(l))
  {
    hide ClientDoes, ManagerDoes, UploaderDoes, PutterDoes;
  }

  lemma HoldsLateDownloader(th: Thread, c: Call, th': Thread, l: Lock)
    requires th.Downloader? && 18 <= Stage(th.dpc) < 22 && Does(th, c, th')
    ensures Frees(c) == Some(l) ==> Holds(th, l)
    ensures Holds(th', l) <==> c == Take(l) || (Holds(th, l) && Frees(c) != Some(l))
  {
    hide ClientDoes, ManagerDoes, UploaderDoes, PutterDoes;
  }

  lemma HoldsLastDownloader(th: Thread, c: Call, th': Thread, l: Lock)
    requires th.Downloader? && 22 <= Stage(th.dpc) && Does(th, c, th')
    ensures Frees(c) == Some(l) ==> Holds(th, l)
    ensures Holds(th', l) <==> c == Take(l) || (Holds(th, l) && Frees(c) != Some(l))
  {
    hide ClientDoes, ManagerDoes, UploaderDoes, PutterDoes;
  }

  lemma HoldsUploader(th: Thread, c: Call, th': Thread, l: Lock)
    requires th.Uploader? && Does(th, c, th')
    ensures Frees(c) == Some(l) ==> Holds(th, l)
    ensures Holds(th', l) <==> c == Take(l) || (Holds(th, l) && Frees(c) != Some(l))
  {
    hide ClientDoes, ManagerDoes, DownloaderDoes, PutterDoes;
  }

  lemma HoldsPutter(th: Thread, c: Call, th': Thread, l: Lock)
    requires th.Putter? && Does(th, c, th')
    ensures Frees(c) == Some(l) ==> Holds(th, l)
    ensures Holds(th', l) <==> c == Take(l) || (Holds(th, l) && Frees(c) != Some(l))
  {
    hide ClientDoes, ManagerDoes, DownloaderDoes, UploaderDoes;
  }

  /** A call changes what its thread holds by the mutex it takes or gives back. */
  lemma HoldsAfter(th: Thread, c: Call, th': Thread, l: Lock)
    requires Does(th, c, th')
    ensures Frees(c) == Some(l) ==> Holds(th, l)
    ensures Holds(th', l) <==> c == Take(l) || (Holds(th, l) && Frees(c) != Some(l))
  {
    hide Does, Holds, Frees, Stage, ClientEntry;
    match th
    case Client(_, _, _) =>
      if ClientEntry(th.cpc).None? { HoldsEarlyClient(th, c, th', l); } else { HoldsLateClient(th, c, th', l); }
    case Manager(_) => HoldsManager(th, c, th', l);
    case Downloader(_, _, _) =>
      if Stage(th.dpc) < 10 { HoldsEarlyDownloader(th, c, th', l); }
      else if Stage(th.dpc) < 18 { HoldsMiddleDownloader(th, c, th', l); }
      else if Stage(th.dpc) < 22 { HoldsLateDownloader(th, c, th', l); }
      else { HoldsLastDownloader(th, c, th', l); }
    case Uploader(_, _, _) => HoldsUploader(th, c, th', l);
    case Putter(_, _, _) => HoldsPutter(th, c, th', l);
  }

  /** A thread that is woken holds nothing, before and after. */
  lemma HoldsWoken(s: State, c: Call, u: Tid, l: Lock)
    requires Allowed(s, c) && u in s.threads
    ensures Holds(Woken(c, u, s.threads[u]), l) <==> Holds(s.threads[u], l)
  {
    if Woken(c, u, s.threads[u]) != s.threads[u] { WokenSleeper(s, c, u); }
  }

  lemma HoldsCreated(c: Call, l: Lock)
    requires Created(c).Some?
    ensures !Holds(Created(c).value.1, l)
  {
  }

  /** Who holds what after a call. */
  lemma HolderAfter(s: State, t: Tid, c: Call, th': Thread, s': State, u: Tid, l: Lock)
    requires CallStep(s, t, c, th', s')
    ensures HeldBy(s', u, l) <==>
            (u == t && c == Take(l)) || (HeldBy(s, u, l) && (u == t ==> Frees(c) != Some(l)))
    ensures Frees(c) == Some(l) ==> HeldBy(s, t, l)
  {
    ThreadAfter(s, t, c, th', s', u);
    HoldsAfter(s.threads[t], c, th', l);
    if u in s.threads { HoldsWoken(s, c, u, l); }
    if Created(c).Some? { HoldsCreated(c, l); }
    hide *;
  }

  lemma LocksKept(s: State, t: Tid, c: Call, th': Thread, s': State)
    requires LocksInv(s) && CallStep(s, t, c, th', s')
    ensures LocksInv(s')
  {
    assert LocksInv(s);
    hide LocksInv;
    forall u, l
      ensures HeldBy(s', u, l) <==>
              (u == t && c == Take(l)) || (HeldBy(s, u, l) && (u == t ==> Frees(c) != Some(l)))
      ensures Frees(c) == Some(l) ==> HeldBy(s, t, l)
    {
      HolderAfter(s, t, c, th', s', u, l);
    }
    LocksFollow(s, t, c, s');
  }

  lemma LocksFollow(s: State, t: Tid, c: Call, s': State)
    requires LocksInv(s) && t in s.threads && Allowed(s, c) && s'.locks == LocksAfter(s, t, c)
    requires forall u, l ::
      HeldBy(s', u, l) <==> (u == t && c == Take(l)) || (HeldBy(s, u, l) && (u == t ==> Frees(c) != Some(l)))
    requires Frees(c).Some? ==> HeldBy(s, t, Frees(c).value)
    ensures LocksInv(s')
  {
    assert c.Take? ==> c.l !in s.locks && Frees(c) == None;
    hide HeldBy, Frees, Allowed;
  }

  lemma OneHolder(s: State, t: Tid, u: Tid, l: Lock)
    requires LocksInv(s) && t in s.threads && u in s.threads && Holds(s.threads[t], l) && Holds(s.threads[u], l)
    ensures t == u
  {
    assert HeldBy(s, t, l) && HeldBy(s, u, l);
    hide Holds;
  }
}
