/** Alerts that were accepted and are left with no worker whose end would start them. */
module StrandedAlerts {
  import opened Common
  import opened Supervisor
  import opened SupervisorInvariant
  import opened SupervisorLoop
  import opened Runs
  import opened Guarantees
  import opened ReconcileResult
  import opened RefreshSignals

  /** An alert waits and no worker is running whose end would start it. */
  predicate Stranded(s: Record) {
    s.alerts != [] && !s.newsRunning && !s.alertRunning
  }

  /** The command does not reach reconcile, by the guards of the cases that `continue`. */
  predicate Skips(w: World, c: Command, expired: bool) {
    if c.Internal() then
      match c
      case NewsStopped(run, err) => run != w.s.newsRun || (err.Real() && w.s.desiredOn && !w.s.shuttingDown)
      case AlertFinished(run, err) => run != w.s.alertRun
      case NewsRetry(run) =>
        run != w.s.newsRun || !w.s.desiredOn || w.s.shuttingDown || w.s.alertRunning || w.s.alerts != []
      case _ => false
    else expired || c.Snapshot? || (c.AddAlert? && Refuses(w))
  }

  /** An alert would be refused: shutting down, outside the window, or the queue full. */
  predicate Refuses(w: World) {
    || w.s.shuttingDown
    || (!w.s.desiredOn && !w.cfg.allowOutside)
    || |w.s.alerts| - (if !w.s.alertRunning && w.s.alerts != [] then 1 else 0) >= w.cfg.alertQueueCapacity
  }

  lemma SkipsIff(w: World, c: Command, expired: bool)
    ensures Skips(w, c, expired)
            <==> (expired && !c.Internal()) || Switch(w.(e := Receive(w.e, c)), c).Skip?
  {
  }

  lemma StartWorksIff(w: World, o: Outcomes)
    ensures StartDisplay(w, o).err.None? <==> StartWorks(w.cfg, o)
  {
    TryStartSucceedsIff(w.e, o.starts, w.cfg.startupRetries, 0, "<nil>");
  }

  lemma StopNewsRuns(w: World)
    ensures StopNews(w).s.newsRunning == w.s.newsRunning
  {
  }

  /** With the display on, reconcile leaves a worker for every waiting alert. */
  lemma UseDisplayServes(w: World, o: Outcomes)
    ensures !Stranded(UseDisplay(w, o).w.s)
  {
    hide StopNews, StartNews, StopDisplay;
    UseDisplayFates(w, o);
    if !w.s.alertRunning && w.s.alerts != [] && w.s.newsRunning {
      StopNewsRuns(w);
    }
  }

  /** Reconcile strands an alert only if it has to start the display and cannot. */
  lemma ReconcileStrands(w: World, o: Outcomes)
    requires Mid(w)
    ensures Stranded(Reconciled(w, o).w.s) <==> w.s.alerts != [] && !w.s.displayRunning && !StartWorks(w.cfg, o)
  {
    hide StartDisplay, UseDisplay, TurnOff, Ledger, Histories, Channel;
    StartWorksIff(w, o);
    StartDisplayFrame(w, o);
    UseDisplayServes(w, o);
    UseDisplayServes(StartDisplay(w, o).w, o);
    if !WantDisplay(w.s) {
      TurnOffFates(w, o);
    }
  }

  lemma SkipStrands(w: World, c: Command, expired: bool)
    requires Open(w) && Deliverable(w, c) && Skips(w, c, expired)
    ensures var w0 := w.(e := Receive(w.e, c));
            var w1 := if expired && !c.Internal() then w0 else Switch(w0, c).w;
            Stranded(w1.s) <==> Stranded(w.s) || (c.NewsStopped? && w.s.alerts != [])
  {
    if c.NewsStopped? {
      NewsStoppedBooks(w, c);
    }
  }

  /** The queue and the display after the switch. */
  predicate Waits(w: World, w': World, waiting: bool) {
    (w'.s.alerts != [] <==> waiting) && w'.s.displayRunning == w.s.displayRunning && w'.cfg == w.cfg
  }

  lemma CancelAllWaits(w: World, scheduled: bool)
    ensures Waits(w, CancelAll(w, scheduled), false)
  {
  }

  lemma AddAlertWaits(w: World, item: Alert)
    requires !Refuses(w)
    ensures Waits(w, OnAddAlert(w, item).w, true)
  {
    var w1 := Appended(w, item);
    assert w1.s.alerts[|w.s.alerts|] == item;
    assert OnAddAlert(w, item).w == StopNews(w1);
  }

  lemma SwitchWaits(w: World, c: Command)
    requires c.AddAlert? ==> !Refuses(w)
    ensures Waits(w, Switch(w, c).w, !CancelsAll(c) && (w.s.alerts != [] || c.AddAlert?))
  {
    hide CancelAll, OnAddAlert;
    match c
    case Shutdown => CancelAllWaits(w.(s := w.s.(desiredOn := false, forceStop := w.s.displayRunning)), true);
    case Reconcile(desired) => CancelAllWaits(w.(s := w.s.(desiredOn := false, forceStop := true)), true);
    case Stop => CancelAllWaits(Leaving(w), false);
    case AddAlert(item) => AddAlertWaits(w, item);
    case _ =>
  }

  /** Exactly when a command leaves an accepted alert with no worker. If the command skips
      reconcile: one was left before, or this is the news worker's real error while it should have
      made room. If it reaches reconcile: an alert is waiting or comes with the command, the
      command does not drop it, and the display is off and cannot be started. */
  lemma StrandedIff(w: World, c: Command, expired: bool, o: Outcomes)
    requires Open(w) && Deliverable(w, c)
    ensures Stranded(Handle(w, c, expired, o).w.s) <==>
              if Skips(w, c, expired)
              then Stranded(w.s) || (c.NewsStopped? && w.s.alerts != [])
              else !CancelsAll(c) && (w.s.alerts != [] || c.AddAlert?)
                   && !w.s.displayRunning && !StartWorks(w.cfg, o)
  {
    hide Handle, Reconciled, Exit, Ledger, Histories, Channel;
    HandleCases(w, c, expired, o);
    SkipsIff(w, c, expired);
    if Skips(w, c, expired) {
      SkipStrands(w, c, expired);
    } else {
      SwitchKeepsInvariant(w, c);
      SwitchWaits(w.(e := Receive(w.e, c)), c);
      var w1 := Switch(w.(e := Receive(w.e, c)), c).w;
      ReconcileStrands(w1, o);
      var w2 := Reconciled(w1, o).w;
      ExitFrame(w2, o);
      if Finishing(w2.s) {
        ReconciledKeeps(w1, o);
      }
    }
  }

  /** A message that the news worker stopped is skipped exactly if it failed while wanted. */
  lemma FailureIsSkipped(w: World, c: Command)
    requires Open(w) && c in w.e.mail && c.NewsStopped?
    ensures Skips(w, c, false) <==> c.err.Real() && w.s.desiredOn && !w.s.shuttingDown
  {
    NewsStoppedBooks(w, c);
  }

  /** The retry armed by that failure does not help the stranded alert: it ignores itself. */
  lemma RetryIgnoresStranded(w: World, c: Command, o: Outcomes)
    requires Open(w) && Stranded(w.s) && c in w.e.mail && c.NewsRetry?
    ensures Handle(w, c, false, o).w.s == w.s
  {
  }

  // ----- over whole runs -----

  /** The news worker's real error is handled while the display is wanted and an alert waits. */
  predicate FailureMeetsAlert(w: World, ev: Event) {
    && ev.Deliver? && ev.c.NewsStopped? && ev.c.err.Real()
    && w.s.desiredOn && !w.s.shuttingDown && w.s.alerts != []
  }

  /** The event is no command, or one that skips reconcile. */
  predicate PassesOver(w: World, ev: Event) {
    match ev
    case Request(c, expired, _) => Skips(w, c, expired)
    case Deliver(c, _) => Skips(w, c, false)
    case _ => true
  }

  /** In this run the display can always be started. */
  ghost predicate DisplayStarts(cfg: Config, evs: seq<Event>) {
    forall i :: 0 <= i < |evs| && (evs[i].Request? || evs[i].Deliver?) ==> StartWorks(cfg, evs[i].o)
  }

  lemma PrefixRuns(w: World, evs: seq<Event>, i: nat)
    requires i <= |evs| && Exec(w, evs).Some?
    ensures Exec(w, evs[..i]).Some?
  {
    assert evs == evs[..i] + evs[i..];
    ExecSplits(w, evs[..i], evs[i..]);
  }

  /** The state before the i-th event. */
  function Before(cfg: Config, evs: seq<Event>, i: nat): World
    requires i <= |evs| && Exec(Initial(cfg), evs).Some?
  {
    PrefixRuns(Initial(cfg), evs, i);
    Exec(Initial(cfg), evs[..i]).value
  }

  lemma BeforeNext(cfg: Config, evs: seq<Event>, i: nat)
    requires i < |evs| && Exec(Initial(cfg), evs).Some?
    ensures Next(Before(cfg, evs, i), evs[i]) == Some(Before(cfg, evs, i + 1))
  {
    PrefixRuns(Initial(cfg), evs, i);
    PrefixRuns(Initial(cfg), evs, i + 1);
    assert evs[..i + 1] == evs[..i] + [evs[i]];
    ExecSplits(Initial(cfg), evs[..i], [evs[i]]);
    assert [evs[i]][1..] == [];
  }

  /** The i-th event begins something, and no event after it and before the n-th reaches reconcile. */
  ghost predicate BegunAt(cfg: Config, evs: seq<Event>, begins: (World, Event) -> bool, i: nat, n: nat)
    requires i < n <= |evs| && Exec(Initial(cfg), evs).Some?
  {
    && begins(Before(cfg, evs, i), evs[i])
    && forall j :: i < j < n ==> PassesOver(Before(cfg, evs, j), evs[j])
  }

  /** Something has begun that reconcile has not yet put right. */
  ghost predicate Unsettled(cfg: Config, evs: seq<Event>, begins: (World, Event) -> bool, n: nat)
    requires n <= |evs| && Exec(Initial(cfg), evs).Some?
  {
    exists i :: 0 <= i < n && BegunAt(cfg, evs, begins, i, n)
  }

  /** One event of a run in which the display can be started. */
  lemma NextStrands(w: World, ev: Event)
    requires Open(w) && Next(w, ev).Some?
    requires (ev.Request? || ev.Deliver?) ==> StartWorks(w.cfg, ev.o)
    ensures Stranded(Next(w, ev).value.s) <==> FailureMeetsAlert(w, ev) || (Stranded(w.s) && PassesOver(w, ev))
  {
    hide Handle, Ledger, Histories, Channel;
    match ev
    case Request(c, expired, o) => StrandedIff(w, c, expired, o);
    case Deliver(c, o) =>
      StrandedIff(w, c, false, o);
      if c.NewsStopped? {
        FailureIsSkipped(w, c);
      }
    case _ =>
  }

  lemma BegunStep(cfg: Config, evs: seq<Event>, begins: (World, Event) -> bool, i: nat, n: nat)
    requires i <= n < |evs| && Exec(Initial(cfg), evs).Some?
    ensures BegunAt(cfg, evs, begins, i, n + 1)
            <==> if i == n then begins(Before(cfg, evs, n), evs[n])
                 else BegunAt(cfg, evs, begins, i, n) && PassesOver(Before(cfg, evs, n), evs[n])
  {
    hide PassesOver;
  }

  lemma UnsettledStep(cfg: Config, evs: seq<Event>, begins: (World, Event) -> bool, n: nat)
    requires n < |evs| && Exec(Initial(cfg), evs).Some?
    ensures Unsettled(cfg, evs, begins, n + 1) <==>
              || begins(Before(cfg, evs, n), evs[n])
              || (Unsettled(cfg, evs, begins, n) && PassesOver(Before(cfg, evs, n), evs[n]))
  {
    hide PassesOver, BegunAt;
    BegunStep(cfg, evs, begins, n, n);
    if Unsettled(cfg, evs, begins, n + 1) {
      var i :| 0 <= i < n + 1 && BegunAt(cfg, evs, begins, i, n + 1);
      BegunStep(cfg, evs, begins, i, n);
    }
    if Unsettled(cfg, evs, begins, n) {
      var i :| 0 <= i < n && BegunAt(cfg, evs, begins, i, n);
      BegunStep(cfg, evs, begins, i, n);
    }
  }

  lemma NextConfig(w: World, ev: Event)
    requires Next(w, ev).Some?
    ensures Next(w, ev).value.cfg == w.cfg
  {
    match ev
    case Request(c, expired, o) => HandleConfig(w, c, expired, o);
    case Deliver(c, o) => HandleConfig(w, c, false, o);
    case _ =>
  }

  lemma {:induction false} ConfigStays(w: World, evs: seq<Event>)
    requires Exec(w, evs).Some?
    ensures Exec(w, evs).value.cfg == w.cfg
    decreases |evs|
  {
    if evs != [] {
      NextConfig(w, evs[0]);
      ConfigStays(Next(w, evs[0]).value, evs[1..]);
    }
  }

  /** The state before the n-th event is that of a run, and so one of the invariant. */
  lemma BeforeOpen(cfg: Config, evs: seq<Event>, n: nat)
    requires n < |evs| && Exec(Initial(cfg), evs).Some?
    ensures var w := Before(cfg, evs, n);
            Open(w) && w.cfg == cfg && Next(w, evs[n]) == Some(Before(cfg, evs, n + 1))
  {
    hide Next;
    BeforeNext(cfg, evs, n);
    PrefixRuns(Initial(cfg), evs, n);
    EveryRunKeeps(cfg, evs[..n]);
    NextFromOpen(Before(cfg, evs, n), evs[n]);
    ConfigStays(Initial(cfg), evs[..n]);
  }

  lemma NothingBefore(cfg: Config, evs: seq<Event>, begins: (World, Event) -> bool)
    requires Exec(Initial(cfg), evs).Some?
    ensures Before(cfg, evs, 0) == Initial(cfg) && Before(cfg, evs, |evs|) == Exec(Initial(cfg), evs).value
    ensures !Unsettled(cfg, evs, begins, 0)
  {
    assert evs[..0] == [] && evs[..|evs|] == evs;
  }

  lemma {:induction false} PrefixStrandsIff(cfg: Config, evs: seq<Event>, n: nat)
    requires n <= |evs| && Exec(Initial(cfg), evs).Some? && DisplayStarts(cfg, evs)
    ensures Stranded(Before(cfg, evs, n).s) <==> Unsettled(cfg, evs, FailureMeetsAlert, n)
    decreases n
  {
    hide Next, Open, Unsettled;
    if n == 0 {
      NothingBefore(cfg, evs, FailureMeetsAlert);
    } else {
      PrefixStrandsIff(cfg, evs, n - 1);
      UnsettledStep(cfg, evs, FailureMeetsAlert, n - 1);
      BeforeOpen(cfg, evs, n - 1);
      NextStrands(Before(cfg, evs, n - 1), evs[n - 1]);
    }
  }

  /** With a display that can be started, a run from the start leaves an alert with no worker if and
      only if the news worker's error was handled while the alert waited, and no command since
      then has reached reconcile. */
  lemma RunStrandsIff(cfg: Config, evs: seq<Event>)
    requires Exec(Initial(cfg), evs).Some? && DisplayStarts(cfg, evs)
    ensures Stranded(Exec(Initial(cfg), evs).value.s) <==> Unsettled(cfg, evs, FailureMeetsAlert, |evs|)
  {
    PrefixStrandsIff(cfg, evs, |evs|);
    NothingBefore(cfg, evs, FailureMeetsAlert);
  }
}
