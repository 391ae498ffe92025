/** Lifecycle labels and run numbers. */
module Lifecycle {
  import opened Supervisor
  import opened SupervisorInvariant
  import opened SupervisorLoop
  import opened Runs
  import opened Guarantees

  // ----- labels -----

  /** The news worker with the current run number has not been accounted for: it is live, or
      its completion message is on its way. */
  ghost predicate NewsOpen(w: World) {
    w.e.news.NewsLive? || exists c :: c in w.e.mail && c.NewsStopped?
  }

  ghost predicate AlertOpen(w: World) {
    w.e.alert.AlertLive? || exists c :: c in w.e.mail && c.AlertFinished?
  }

  /** In every reachable state the label is true of the goroutines and the display, not only
      of the supervisor's flags. */
  lemma LabelsAreTrue(cfg: Config, evs: seq<Event>)
    requires Exec(Initial(cfg), evs).Some? && !Exec(Initial(cfg), evs).value.e.exited
    ensures var w := Exec(Initial(cfg), evs).value;
            match w.s.lifecycle
            case Off => Quiet(w.e) && !OnAfter(w.e.calls)
            case Starting => false
            case Running => NewsOpen(w) && w.s.alerts == []
                            && (w.e.news.NewsLive? && !w.e.appCancelled ==> !w.e.news.cancelled)
            case Pausing => NewsOpen(w) && (w.e.news.NewsLive? ==> w.e.news.cancelled)
            case Alerting => AlertOpen(w) && Quiet(w.e.(alert := NoAlert))
            case Stopping => NewsOpen(w) || AlertOpen(w)
            case Failed => true
  {
    EveryRunKeeps(cfg, evs);
  }

  /** Every reply that reports the state reports a truthful label. */
  lemma RepliesAreTrue(w: World, c: Command, expired: bool, o: Outcomes)
    requires Open(w) && Deliverable(w, c)
    ensures var h := Handle(w, c, expired, o);
            && (h.reply.Snapped? ==> h.reply.state == Public(w.s) && h.w.s == w.s && LabelHolds(w.s))
            && (h.reply.Reported? ==> h.reply.state == Public(h.w.s) && LabelHolds(h.w.s))
  {
    hide Reconciled, Exit, Ledger, Histories, Channel;
    var h := Handle(w, c, expired, o);
    if h.reply.Reported? {
      ReportedReply(w, c, expired, o);
      ReportedStaysOpen(w, c);
      SwitchKeepsInvariant(w, c);
      var w1 := Switch(w.(e := Receive(w.e, c)), c).w;
      ReconciledKeeps(w1, o);
      ReconcileFrame(w1, o);
      HandleCases(w, c, expired, o);
    } else {
      SnappedReply(w, c, expired, o);
    }
  }

  lemma ReportedReply(w: World, c: Command, expired: bool, o: Outcomes)
    requires Handle(w, c, expired, o).reply.Reported?
    ensures (c.Start? || c.Shutdown? || c.Reconcile? || c.NewsChanged?) && !expired
    ensures var w1 := Switch(w.(e := Receive(w.e, c)), c).w;
            Handle(w, c, expired, o).reply.state == Public(Reconciled(w1, o).w.s)
  {
    SwitchReply(w, c);
  }

  lemma SwitchReply(w: World, c: Command)
    ensures var out := Switch(w.(e := Receive(w.e, c)), c);
            && !out.reply.Reported? && out.reply.Snapped? == c.Snapshot?
            && (out.reply.Snapped? ==> out == Skip(w.(e := Receive(w.e, c)), Snapped(Public(w.s))))
  {
  }

  lemma SnappedReply(w: World, c: Command, expired: bool, o: Outcomes)
    ensures var h := Handle(w, c, expired, o);
            h.reply.Snapped? ==> h.reply.state == Public(w.s) && h.w.s == w.s
  {
    SwitchReply(w, c);
  }

  /** The requests that are answered with the state never end the loop themselves. */
  lemma ReportedStaysOpen(w: World, c: Command)
    requires Open(w) && (c.Start? || c.Shutdown? || c.Reconcile? || c.NewsChanged?)
    ensures !Finishing(Switch(w.(e := Receive(w.e, c)), c).w.s)
  {
  }

  /** How reconcile may move the run counters. */
  predicate Advances(w: World, w': World) {
    && w'.s.shuttingDown == w.s.shuttingDown && w'.cfg == w.cfg
    && (w'.s.newsRun == w.s.newsRun
        || (w'.s.newsRun == w.s.newsRun + 1 && !w.s.newsRunning && !w.s.alertRunning && w'.e.news.NewsLive?))
    && (w'.s.alertRun == w.s.alertRun
        || (w'.s.alertRun == w.s.alertRun + 1 && !w.s.newsRunning && !w.s.alertRunning && w'.e.alert.AlertLive?))
  }

  predicate SameRuns(w: World, w': World) {
    w'.s.newsRun == w.s.newsRun && w'.s.alertRun == w.s.alertRun
    && w'.s.shuttingDown == w.s.shuttingDown && w'.cfg == w.cfg
  }

  lemma CancelAllAdvances(w: World, scheduled: bool)
    ensures SameRuns(w, CancelAll(w, scheduled))
  {
  }

  lemma StopDisplayAdvances(w: World, o: Outcomes)
    ensures SameRuns(w, StopDisplay(w, o).w)
  {
  }

  lemma TurnOffFrame(w: World, o: Outcomes)
    ensures Advances(w, TurnOff(w, o).w)
  {
    hide CancelAll, StopDisplay;
    CancelAllAdvances(w, true);
    StopDisplayAdvances(CancelAll(w, true), o);
  }

  lemma StopNewsAdvances(w: World)
    ensures SameRuns(w, StopNews(w))
  {
  }

  lemma StartNewsAdvances(w: World)
    requires !w.s.newsRunning && !w.s.alertRunning
    ensures Advances(w, StartNews(w))
  {
  }

  lemma StartAlertAdvances(w: World)
    requires !w.s.newsRunning && !w.s.alertRunning && w.s.alerts != []
    ensures Advances(w, StartAlert(PopHead(w), w.s.alerts[0]))
  {
  }

  lemma UseDisplayFrame(w: World, o: Outcomes)
    ensures Advances(w, UseDisplay(w, o).w)
  {
    hide StopNews, StartNews, StartAlert, StopDisplay;
    if w.s.alertRunning {
    } else if w.s.alerts != [] {
      if w.s.newsRunning {
        StopNewsAdvances(w);
      } else {
        StartAlertAdvances(w);
      }
    } else if w.s.temporary {
      StopDisplayAdvances(w.(s := w.s.(temporary := false)), o);
    } else if !w.s.newsRunning {
      StartNewsAdvances(w);
    }
  }

  /** Reconcile during shutdown does nothing, and it never leaves or enters shutdown. */
  lemma ReconcileFrame(w: World, o: Outcomes)
    ensures Advances(w, Reconciled(w, o).w)
    ensures w.s.shuttingDown ==> Reconciled(w, o).w == w
  {
    hide StartDisplay, UseDisplay, TurnOff;
    StartDisplayFrame(w, o);
    TurnOffFrame(w, o);
    UseDisplayFrame(w, o);
    UseDisplayFrame(StartDisplay(w, o).w, o);
  }

  /** Same counters and phase of shutdown, same goroutines. */
  predicate Steady(w: World, w': World) {
    && w'.s.newsRun == w.s.newsRun && w'.s.alertRun == w.s.alertRun && w'.cfg == w.cfg
    && (w.s.shuttingDown ==> w'.s.shuttingDown)
    && w'.e.exited == w.e.exited
    && (w'.e.news.NewsLive? <==> w.e.news.NewsLive?) && (w'.e.alert.AlertLive? <==> w.e.alert.AlertLive?)
  }

  lemma CancelAllSteady(w: World, scheduled: bool)
    ensures Steady(w, CancelAll(w, scheduled))
  {
  }

  lemma AddAlertSteady(w: World, item: Alert)
    ensures Steady(w, OnAddAlert(w, item).w)
  {
    if OnAddAlert(w, item).Fall? {
      assert OnAddAlert(w, item).w == StopNews(Appended(w, item));
    }
  }

  lemma StopSteady(w: World)
    ensures Steady(w, OnStop(w)) && OnStop(w).s.shuttingDown
  {
    hide CancelAll;
    CancelAllSteady(Leaving(w), false);
    CancelAllScalars(Leaving(w), false);
  }

  /** The switch itself neither starts nor ends a goroutine nor uses up a run number. */
  lemma SwitchFrame(w: World, c: Command)
    ensures Steady(w, Switch(w, c).w)
    ensures c.Stop? ==> Switch(w, c).w.s.shuttingDown
  {
    hide CancelAll, OnAddAlert, OnStop;
    match c
    case Shutdown => CancelAllSteady(w.(s := w.s.(desiredOn := false, forceStop := w.s.displayRunning)), true);
    case Reconcile(desired) => CancelAllSteady(w.(s := w.s.(desiredOn := false, forceStop := true)), true);
    case Stop => StopSteady(w);
    case AddAlert(item) => AddAlertSteady(w, item);
    case _ =>
  }

  // ----- run numbers -----

  /** The only completion message of its kind. */
  ghost predicate Sole(mail: multiset<Command>, c: Command) {
    && mail[c] == 1
    && forall d :: d in mail && ((c.NewsStopped? && d.NewsStopped?) || (c.AlertFinished? && d.AlertFinished?)) ==>
         d == c
  }

  /** A completion message is never stale when it arrives, and there is never a second one. */
  lemma CompletionsAreCurrent(cfg: Config, evs: seq<Event>, c: Command)
    requires Exec(Initial(cfg), evs).Some? && c in Exec(Initial(cfg), evs).value.e.mail
    ensures var w := Exec(Initial(cfg), evs).value;
            && (c.NewsStopped? ==>
                  c.run == w.s.newsRun && w.s.newsRunning && w.e.news.NoNews? && Sole(w.e.mail, c))
            && (c.AlertFinished? ==>
                  c.run == w.s.alertRun && w.s.alertRunning && w.e.alert.NoAlert? && Sole(w.e.mail, c))
  {
    EveryRunKeeps(cfg, evs);
  }

  /** A stop timeout changes the record only while its own worker is current and stopping; it
      then only marks the failure, so nothing is started over the hung worker. */
  lemma TimeoutOnlyWhileStopping(w: World, c: Command, o: Outcomes)
    requires Open(w) && c in w.e.mail && c.NewsStopTimedOut?
    ensures var w1 := Switch(w.(e := Receive(w.e, c)), c).w;
            && (w1.s != w.s ==> c.run == w.s.newsRun && w.s.newsRunning && w.s.newsStopping)
            && w1.s == w.s.(lifecycle := w1.s.lifecycle, lastError := w1.s.lastError)
    ensures w.s.newsRunning ==>
              var w' := Handle(w, c, false, o).w;
              w'.s.newsRun == w.s.newsRun && w'.s.alertRun == w.s.alertRun && w'.s.newsRunning
  {
    hide Handle, Reconciled, Exit, Histories, Channel;
    var w0 := w.(e := Receive(w.e, c));
    HandleCases(w, c, false, o);
    MessageKeeps(w, c);
    var w1 := Switch(w0, c).w;
    ReconcileFrame(w1, o);
    if w.s.newsRunning {
      ReconcileKeepsNews(w1, o);
    }
  }

  lemma ReconcileKeepsNews(w: World, o: Outcomes)
    requires w.s.newsRunning
    ensures Reconciled(w, o).w.s.newsRunning && !Finishing(Reconciled(w, o).w.s)
  {
    StartDisplayFrame(w, o);
  }

  /** A run number is used once and never for a second worker: in one event each counter stays
      or grows by one, it grows only when both kinds of worker are gone, and then the new
      worker is the live one. */
  lemma NextRuns(w: World, ev: Event)
    requires Open(w) && Next(w, ev).Some?
    ensures var w' := Next(w, ev).value;
            && (w'.s.newsRun == w.s.newsRun
                || (w'.s.newsRun == w.s.newsRun + 1 && Quiet(w.e) && w'.e.news.NewsLive?
                    && w'.e.news.run == w'.s.newsRun))
            && (w'.s.alertRun == w.s.alertRun
                || (w'.s.alertRun == w.s.alertRun + 1 && Quiet(w.e) && w'.e.alert.AlertLive?
                    && w'.e.alert.run == w'.s.alertRun))
            && (w.s.shuttingDown ==> w'.s.shuttingDown && w'.s.newsRun == w.s.newsRun && w'.s.alertRun == w.s.alertRun)
  {
    hide Handle, Histories, Channel;
    NextKeeps(w, ev);
    if ev.Request? || ev.Deliver? {
      var expired := ev.Request? && ev.expired;
      HandleRuns(w, ev.c, expired, ev.o);
    }
  }

  lemma HandleRuns(w: World, c: Command, expired: bool, o: Outcomes)
    requires Open(w) && Deliverable(w, c)
    ensures var w' := Handle(w, c, expired, o).w;
            && (w'.s.newsRun == w.s.newsRun
                || (w'.s.newsRun == w.s.newsRun + 1 && Quiet(w.e) && w'.e.news.NewsLive?))
            && (w'.s.alertRun == w.s.alertRun
                || (w'.s.alertRun == w.s.alertRun + 1 && Quiet(w.e) && w'.e.alert.AlertLive?))
            && (w.s.shuttingDown ==> w'.s.shuttingDown && w'.s.newsRun == w.s.newsRun && w'.s.alertRun == w.s.alertRun)
  {
    hide Handle, Switch, Reconciled, Exit, Histories, Channel;
    HandleCases(w, c, expired, o);
    if !expired || c.Internal() {
      var w0 := w.(e := Receive(w.e, c));
      SwitchFrame(w0, c);
      SwitchKeepsInvariant(w, c);
      var out := Switch(w0, c);
      if out.Fall? {
        ReconcileFrame(out.w, o);
        ExitFrame(Reconciled(out.w, o).w, o);
        if !out.w.s.newsRunning && !out.w.s.alertRunning {
          assert Quiet(out.w.e);
        }
      }
    }
  }
}
