/** What comes back by itself, and what only the next reconcile brings back, when the display works. */
module Recovery {
  import opened Common
  import opened Supervisor
  import opened SupervisorInvariant
  import opened SupervisorLoop
  import opened Runs
  import opened Guarantees
  import opened Lifecycle
  import opened ReconcileResult
  import opened StrandedAlerts

  // ----- the display, off though wanted -----

  predicate OffThoughWanted(s: Record) {
    s.desiredOn && !s.displayRunning
  }

  /** The last alert of a temporary display ends after the display became wanted. */
  predicate EndsOutlived(w: World, c: Command) {
    c.AlertFinished? && w.s.temporary && w.s.desiredOn && w.s.alerts == []
  }

  lemma SkipKeepsDisplay(w: World, c: Command)
    ensures Switch(w, c).Skip? ==>
              Switch(w, c).w.s.desiredOn == w.s.desiredOn && Switch(w, c).w.s.displayRunning == w.s.displayRunning
  {
  }

  lemma StopNewsDisplay(w: World)
    ensures StopNews(w).s.displayRunning == w.s.displayRunning
  {
  }

  lemma StartNewsDisplay(w: World)
    ensures StartNews(w).s.displayRunning == w.s.displayRunning
  {
  }

  /** With the display on, only an outlived temporary display makes reconcile turn it off. */
  lemma UseDisplayStaysOn(w: World, o: Outcomes)
    requires w.s.displayRunning && (w.s.temporary ==> w.s.alertRunning || w.s.alerts != [])
    ensures UseDisplay(w, o).w.s.displayRunning
  {
    hide StopNews, StartNews, StopDisplay;
    if !w.s.alertRunning {
      if w.s.alerts != [] {
        StopNewsDisplay(w);
      } else {
        StartNewsDisplay(w);
      }
    }
  }

  lemma ReconcileOff(w: World, o: Outcomes)
    requires Mid(w) && DisplayWorks(w, o) && !w.s.shuttingDown
    ensures OffThoughWanted(Reconciled(w, o).w.s) <==> TemporaryOutlived(w.s)
  {
    hide StartDisplay, UseDisplay, TurnOff, Ledger, Histories, Channel;
    ReconcileScalars(w, o);
    if TemporaryOutlived(w.s) {
      OutlivedTwice(w, o);
    } else if w.s.desiredOn {
      StartsWhenItWorks(w, o);
      if w.s.displayRunning {
        UseDisplayStaysOn(w, o);
      } else {
        UseDisplayStaysOn(StartDisplay(w, o).w, o);
      }
    }
  }

  lemma CancelAllNotTemporary(w: World, scheduled: bool)
    ensures !CancelAll(w, scheduled).s.temporary
  {
  }

  lemma AddAlertWaiting(w: World, item: Alert)
    ensures OnAddAlert(w, item).Fall? ==> OnAddAlert(w, item).w.s.alerts != []
  {
    var alerts := w.s.alerts + [item];
    assert alerts[|w.s.alerts|] == item;
  }

  /** After which commands reconcile finds an outlived temporary display. */
  lemma SwitchOutlived(w: World, c: Command)
    requires Open(w) && Deliverable(w, c) && !Skips(w, c, false)
    ensures TemporaryOutlived(Switch(w.(e := Receive(w.e, c)), c).w.s) <==> EndsOutlived(w, c)
  {
    hide CancelAll, OnAddAlert, Histories, Channel;
    var w0 := w.(e := Receive(w.e, c));
    match c
    case Shutdown => CancelAllNotTemporary(w0.(s := w0.s.(desiredOn := false, forceStop := w0.s.displayRunning)), true);
    case Reconcile(desired) => CancelAllNotTemporary(w0.(s := w0.s.(desiredOn := false, forceStop := true)), true);
    case Stop => CancelAllNotTemporary(Leaving(w0), false);
    case AddAlert(item) =>
      SkipsIff(w, c, false);
      AddAlertWaiting(w0, item);
    case _ =>
  }

  lemma AddAlertScalars(w: World, item: Alert)
    ensures SameScalars(w, OnAddAlert(w, item).w)
  {
    if OnAddAlert(w, item).Fall? {
      assert OnAddAlert(w, item).w == StopNews(Appended(w, item));
    }
  }

  lemma StaysUp(w: World, c: Command)
    requires !w.s.shuttingDown && !c.Stop?
    ensures !Switch(w, c).w.s.shuttingDown && Switch(w, c).w.cfg == w.cfg
  {
    hide CancelAll, OnAddAlert;
    match c
    case Shutdown => CancelAllScalars(w.(s := w.s.(desiredOn := false, forceStop := w.s.displayRunning)), true);
    case Reconcile(desired) => CancelAllScalars(w.(s := w.s.(desiredOn := false, forceStop := true)), true);
    case AddAlert(item) => AddAlertScalars(w, item);
    case _ =>
  }

  /** Exactly when a command leaves the display off though wanted: it was so before and the command
      skips reconcile, or the command is the end of an outlived temporary display. So it stays off
      until the next command that reaches reconcile, and no longer. */
  lemma OffIff(w: World, c: Command, expired: bool, o: Outcomes)
    requires Open(w) && Deliverable(w, c) && DisplayWorks(w, o)
    requires !w.s.shuttingDown && (c.Stop? ==> expired)
    ensures OffThoughWanted(Handle(w, c, expired, o).w.s) <==>
              if Skips(w, c, expired) then OffThoughWanted(w.s) else EndsOutlived(w, c)
  {
    hide Handle, Reconciled, Exit, Switch, Ledger, Histories, Channel;
    HandleCases(w, c, expired, o);
    SkipsIff(w, c, expired);
    var w0 := w.(e := Receive(w.e, c));
    if Skips(w, c, expired) {
      SkipKeepsDisplay(w0, c);
    } else {
      var w1 := Switch(w0, c).w;
      StaysUp(w0, c);
      SwitchKeepsInvariant(w, c);
      SwitchOutlived(w, c);
      ReconcileScalars(w1, o);
      ReconcileOff(w1, o);
    }
  }

  // ----- over whole runs -----

  /** In this run display calls succeed: every Stop, and an allowed attempt of every Start. */
  ghost predicate DisplayAlwaysWorks(cfg: Config, evs: seq<Event>) {
    forall i :: 0 <= i < |evs| && (evs[i].Request? || evs[i].Deliver?) ==>
      evs[i].o.stop.None? && StartWorks(cfg, evs[i].o)
  }

  /** The last alert of an outlived temporary display is handled as ended. */
  predicate OutlivedEnds(w: World, ev: Event) {
    ev.Deliver? && EndsOutlived(w, ev.c)
  }

  lemma NextOff(w: World, ev: Event)
    requires Open(w) && Next(w, ev).Some? && !Next(w, ev).value.s.shuttingDown
    requires (ev.Request? || ev.Deliver?) ==> ev.o.stop.None? && StartWorks(w.cfg, ev.o)
    ensures !w.s.shuttingDown
    ensures OffThoughWanted(Next(w, ev).value.s) <==>
              OutlivedEnds(w, ev) || (OffThoughWanted(w.s) && PassesOver(w, ev))
  {
    hide Handle, Ledger, Histories, Channel, NewsStep, AlertStep;
    NextRuns(w, ev);
    match ev
    case Request(c, expired, o) =>
      if c.Stop? && !expired {
        StopShuts(w, o);
      }
      OffIff(w, c, expired, o);
      InternalOnly(w, c);
    case Deliver(c, o) =>
      OffIff(w, c, false, o);
      if EndsOutlived(w, c) {
        EndIsNotSkipped(w, c);
      }
    case NewsAct(a) => StepsKeepRecord(w, ev);
    case AlertAct(b) => StepsKeepRecord(w, ev);
    case ParentEnds => StepsKeepRecord(w, ev);
  }

  lemma StopShuts(w: World, o: Outcomes)
    requires Open(w)
    ensures Handle(w, Stop, false, o).w.s.shuttingDown
  {
    hide Handle, Reconciled, Exit;
    HandleCases(w, Stop, false, o);
    SwitchFrame(w, Stop);
    assert w.(e := Receive(w.e, Stop)) == w;
    ReconcileScalars(Switch(w, Stop).w, o);
    ExitFrame(Reconciled(Switch(w, Stop).w, o).w, o);
  }

  lemma InternalOnly(w: World, c: Command)
    ensures EndsOutlived(w, c) ==> c.Internal()
  {
  }

  lemma EndIsNotSkipped(w: World, c: Command)
    requires Open(w) && c in w.e.mail && c.AlertFinished?
    ensures !Skips(w, c, false)
  {
    AlertFinishedBooks(w, c);
  }

  lemma StepsKeepRecord(w: World, ev: Event)
    requires Next(w, ev).Some? && !ev.Request? && !ev.Deliver?
    ensures Next(w, ev).value.s == w.s && PassesOver(w, ev)
  {
  }

  lemma {:induction false} PrefixOffIff(cfg: Config, evs: seq<Event>, n: nat)
    requires n <= |evs| && Exec(Initial(cfg), evs).Some? && DisplayAlwaysWorks(cfg, evs)
    requires !Before(cfg, evs, n).s.shuttingDown
    ensures OffThoughWanted(Before(cfg, evs, n).s) <==> Unsettled(cfg, evs, OutlivedEnds, n)
    decreases n
  {
    hide Next, Open, Unsettled, PassesOver;
    if n == 0 {
      NothingBefore(cfg, evs, OutlivedEnds);
    } else {
      BeforeOpen(cfg, evs, n - 1);
      NextOff(Before(cfg, evs, n - 1), evs[n - 1]);
      PrefixOffIff(cfg, evs, n - 1);
      UnsettledStep(cfg, evs, OutlivedEnds, n - 1);
    }
  }

  /** With a display that works, and before shutdown, a run from the start leaves the display off
      though wanted if and only if an outlived temporary display was ended and no command since then
      has reached reconcile. */
  lemma RunOffIff(cfg: Config, evs: seq<Event>)
    requires Exec(Initial(cfg), evs).Some? && DisplayAlwaysWorks(cfg, evs)
    requires !Exec(Initial(cfg), evs).value.s.shuttingDown
    ensures OffThoughWanted(Exec(Initial(cfg), evs).value.s) <==> Unsettled(cfg, evs, OutlivedEnds, |evs|)
  {
    NothingBefore(cfg, evs, OutlivedEnds);
    PrefixOffIff(cfg, evs, |evs|);
  }

  // ----- news that failed -----

  /** The display is on and wanted, and nobody uses it or waits for it. */
  predicate Idle(s: Record) {
    s.desiredOn && s.displayRunning && !s.newsRunning && !s.alertRunning && s.alerts == [] && !s.shuttingDown
  }

  /** A retry of the current run is armed. */
  ghost predicate NewsIsComing(w: World) {
    Idle(w.s) ==> NewsRetry(w.s.newsRun) in w.e.mail
  }

  /** Reconcile leaves no display idle. */
  lemma ReconcileUses(w: World, o: Outcomes)
    requires Mid(w) && DisplayWorks(w, o) && !w.s.shuttingDown
    ensures !Idle(Reconciled(w, o).w.s)
  {
    hide Reconciled, Ledger, Histories, Channel;
    ReconcileScalars(w, o);
    if TemporaryOutlived(w.s) {
      OutlivedTwice(w, o);
    } else {
      ReconcileAchieves(w, o);
    }
  }

  lemma SkipComing(w: World, c: Command)
    requires Open(w) && Deliverable(w, c) && NewsIsComing(w)
    ensures var out := Switch(w.(e := Receive(w.e, c)), c); out.Skip? ==> NewsIsComing(out.w)
  {
    hide Histories, Channel;
    if c.NewsStopped? {
      NewsStoppedBooks(w, c);
    }
  }

  lemma HandleComing(w: World, c: Command, expired: bool, o: Outcomes)
    requires Open(w) && Deliverable(w, c) && DisplayWorks(w, o) && NewsIsComing(w)
    ensures NewsIsComing(Handle(w, c, expired, o).w)
  {
    hide Handle, Reconciled, Exit, Switch, Ledger, Histories, Channel, OnStop;
    HandleCases(w, c, expired, o);
    if !expired || c.Internal() {
      var out := Switch(w.(e := Receive(w.e, c)), c);
      if out.Skip? {
        SkipComing(w, c);
      } else {
        SwitchKeepsInvariant(w, c);
        SwitchFrame(w.(e := Receive(w.e, c)), c);
        ReconcileScalars(out.w, o);
        ExitFrame(Reconciled(out.w, o).w, o);
        if !out.w.s.shuttingDown {
          ReconcileUses(out.w, o);
        }
      }
    }
  }

  lemma StepsKeepMail(w: World, ev: Event)
    requires Next(w, ev).Some? && !ev.Request? && !ev.Deliver?
    ensures Next(w, ev).value.s == w.s && forall c :: c in w.e.mail ==> c in Next(w, ev).value.e.mail
  {
  }

  lemma NextComing(w: World, ev: Event)
    requires Open(w) && Next(w, ev).Some? && NewsIsComing(w)
    requires (ev.Request? || ev.Deliver?) ==> ev.o.stop.None? && StartWorks(w.cfg, ev.o)
    ensures NewsIsComing(Next(w, ev).value)
  {
    hide Handle, Ledger, Histories, Channel, NewsStep, AlertStep;
    match ev
    case Request(c, expired, o) => HandleComing(w, c, expired, o);
    case Deliver(c, o) => HandleComing(w, c, false, o);
    case NewsAct(a) => StepsKeepMail(w, ev);
    case AlertAct(b) => StepsKeepMail(w, ev);
    case ParentEnds => StepsKeepMail(w, ev);
  }

  lemma {:induction false} PrefixComing(cfg: Config, evs: seq<Event>, n: nat)
    requires n <= |evs| && Exec(Initial(cfg), evs).Some? && DisplayAlwaysWorks(cfg, evs)
    ensures NewsIsComing(Before(cfg, evs, n))
    decreases n
  {
    hide Next, Open, NewsIsComing;
    if n == 0 {
      StartIsNotIdle(cfg);
      NothingBefore(cfg, evs, OutlivedEnds);
    } else {
      PrefixComing(cfg, evs, n - 1);
      BeforeOpen(cfg, evs, n - 1);
      NextComing(Before(cfg, evs, n - 1), evs[n - 1]);
    }
  }

  lemma StartIsNotIdle(cfg: Config)
    ensures NewsIsComing(Initial(cfg))
  {
  }

  lemma RetryStarts(w: World, o: Outcomes)
    requires Open(w) && NewsRetry(w.s.newsRun) in w.e.mail
    requires Idle(w.s)
    ensures var w' := Handle(w, NewsRetry(w.s.newsRun), false, o).w;
            w'.s.newsRun == w.s.newsRun + 1 && w'.e.news.NewsLive? && w'.e.link == w.e.link
  {
    HandleCases(w, NewsRetry(w.s.newsRun), false, o);
  }

  /** Failed news comes back: in every run with a display that works, whenever the display is on and
      wanted with no worker and no alert, a retry is on its way, and handling it starts news. */
  lemma NewsComesBack(cfg: Config, evs: seq<Event>, o: Outcomes)
    requires Exec(Initial(cfg), evs).Some? && DisplayAlwaysWorks(cfg, evs)
    requires Idle(Exec(Initial(cfg), evs).value.s)
    ensures var w := Exec(Initial(cfg), evs).value;
            && NewsRetry(w.s.newsRun) in w.e.mail
            && var w' := Next(w, Deliver(NewsRetry(w.s.newsRun), o));
               w'.Some? && w'.value.e.news.NewsLive? && w'.value.s.newsRun == w.s.newsRun + 1
  {
    hide Handle, Ledger, Histories, Channel;
    NothingBefore(cfg, evs, OutlivedEnds);
    PrefixComing(cfg, evs, |evs|);
    EveryRunKeeps(cfg, evs);
    var w := Exec(Initial(cfg), evs).value;
    IdleIsOpen(w);
    RetryStarts(w, o);
  }

  lemma IdleIsOpen(w: World)
    requires Inv(w) && Idle(w.s)
    ensures Open(w) && !w.e.exited
  {
  }
}
