/** One iteration of the supervisor's loop keeps the invariant. */
module SupervisorLoop {
  import opened Common
  import opened Supervisor
  import opened SupervisorInvariant
  import AlertRun

  /** Reconcile leaves the record as a snapshot may see it. */
  ghost predicate Settled(w: World) {
    && Mid(w)
    && LabelHolds(w.s)
    && w.s.queuedAlerts == QueueLength(w.s)
    && (w.s.temporary ==> w.s.alertRunning || w.s.alerts != [])
  }

  // ----- what the books depend on -----

  /** The parts of the record and of the world that the ledger speaks of. */
  predicate SameBooks(s: Record, e: Env, s': Record, e': Env) {
    && s'.newsRunning == s.newsRunning && s'.newsRun == s.newsRun && s'.newsStopping == s.newsStopping
    && s'.alertRunning == s.alertRunning && s'.alertRun == s.alertRun && s'.currentAlert == s.currentAlert
    && e'.news == e.news && e'.alert == e.alert && e'.mail == e.mail && e'.appCancelled == e.appCancelled
  }

  lemma LedgerFrame(s: Record, e: Env, s': Record, e': Env)
    requires Ledger(s, e) && SameBooks(s, e, s', e')
    ensures Ledger(s', e')
  {
    assert NewsBooks(s', e');
    assert AlertBooks(s', e');
    assert Timers(s', e'.mail);
  }

  // ----- starting workers -----

  lemma StartNewsKeeps(w: World)
    requires Mid(w) && w.s.displayRunning && !w.s.newsRunning && !w.s.alertRunning && !w.s.shuttingDown
    requires w.s.alerts == [] && !w.s.temporary
    ensures Settled(StartNews(w))
  {
    var w' := StartNews(w);
    assert NewsBooks(w'.s, w'.e);
    assert AlertBooks(w'.s, w'.e);
    assert Timers(w'.s, w'.e.mail);
  }

  function PopHead(w: World): World
    requires w.s.alerts != []
  {
    w.(s := w.s.(alerts := w.s.alerts[1..], queuedAlerts := |w.s.alerts| - 1))
  }

  lemma HeadMoves(accepted: seq<Alert>, before: seq<Alert>, alerts: seq<Alert>)
    requires accepted == before + alerts && alerts != []
    ensures accepted == before + [alerts[0]] + alerts[1..]
  {
  }

  lemma StartAlertFields(w: World)
    requires w.s.alerts != []
    ensures var w' := StartAlert(PopHead(w), w.s.alerts[0]); var item := w.s.alerts[0];
            && w'.s.alerts == w.s.alerts[1..] && w'.s.displayRunning == w.s.displayRunning
            && w'.e.calls == w.e.calls && w'.e.accepted == w.e.accepted
            && w'.e.resolved == w.e.resolved + [Resolved(item, true)]
            && w'.e.presented == w.e.presented + [AlertRun.Show(item)]
  {
  }

  lemma StartAlertHistories(w: World)
    requires Histories(w.s, w.e) && w.s.alerts != []
    ensures var w' := StartAlert(PopHead(w), w.s.alerts[0]); Histories(w'.s, w'.e)
  {
    hide StartAlert, PopHead, Items, StartedItems, Shown, OnAfter;
    StartAlertFields(w);
    StartExtends(w.e, w.s.alerts[0]);
    HeadMoves(w.e.accepted, Items(w.e.resolved), w.s.alerts);
  }

  lemma StartAlertBooks(w: World)
    requires Flags(w.s) && Ledger(w.s, w.e) && w.s.alerts != []
    requires w.s.displayRunning && !w.s.newsRunning && !w.s.alertRunning
    ensures var w' := StartAlert(PopHead(w), w.s.alerts[0]); Flags(w'.s) && Ledger(w'.s, w'.e)
  {
    var w' := StartAlert(PopHead(w), w.s.alerts[0]);
    assert NewsBooks(w'.s, w'.e);
    assert AlertBooks(w'.s, w'.e);
    assert Timers(w'.s, w'.e.mail);
  }

  lemma StartAlertKeeps(w: World)
    requires Mid(w) && w.s.displayRunning && !w.s.newsRunning && !w.s.alertRunning && w.s.alerts != []
    ensures Settled(StartAlert(PopHead(w), w.s.alerts[0]))
  {
    StartAlertHistories(w);
    StartAlertBooks(w);
  }

  // ----- reconcile -----

  lemma CancelledIsMid(w: World)
    requires Mid(w) && !w.s.shuttingDown && !w.s.desiredOn
    ensures Mid(CancelAll(w, true)) && CancelAll(w, true).s.alerts == [] && !CancelAll(w, true).s.temporary
    ensures CancelAll(w, true).s.queuedAlerts == 0 && CancelAll(w, true).s.lifecycle == Stopping
  {
    hide CancelAll, Items, StartedItems, Shown, OnAfter;
    CancelAllKeeps(w, true);
  }

  /** With no worker and no alert the display is turned off, if that succeeds. */
  lemma IdleStops(w: World, o: Outcomes)
    requires Mid(w) && w.s.alerts == [] && !w.s.temporary && w.s.queuedAlerts == 0
    requires !w.s.newsRunning && !w.s.alertRunning && !w.s.shuttingDown
    ensures var r := StopDisplay(w, o);
            Settled(if r.err.Some? then r.w else r.w.(s := r.w.s.(lifecycle := Off)))
  {
    hide Items, StartedItems, Shown, OnAfter, StopDisplay;
    StopDisplayKeeps(w, o);
    var r := StopDisplay(w, o);
    LedgerFrame(w.s, w.e, r.w.s, r.w.e);
    LedgerFrame(w.s, w.e, r.w.s.(lifecycle := Off), r.w.e);
  }

  lemma TurnOffKeeps(w: World, o: Outcomes)
    requires Mid(w) && !w.s.shuttingDown && !w.s.desiredOn
    ensures Settled(TurnOff(w, o).w)
  {
    hide CancelAll, StopDisplay, Histories, Ledger, Channel;
    CancelledIsMid(w);
    CancelledKeeps(w);
    var w1 := CancelAll(w, true);
    if !w1.s.newsRunning && !w1.s.alertRunning {
      if w1.s.displayRunning || w1.s.forceStop {
        IdleStops(w1, o);
      } else {
        OffIsSettled(w1);
      }
    }
  }

  lemma CancelledKeeps(w: World)
    ensures CancelAll(w, true).s.shuttingDown == w.s.shuttingDown
  {
  }

  lemma OffIsSettled(w: World)
    requires Mid(w) && w.s.alerts == [] && !w.s.temporary && w.s.queuedAlerts == 0
    requires !w.s.newsRunning && !w.s.alertRunning && !w.s.displayRunning
    ensures Settled(w.(s := w.s.(lifecycle := Off)))
  {
    hide Items, StartedItems, Shown, OnAfter;
    LedgerFrame(w.s, w.e, w.s.(lifecycle := Off), w.e);
  }

  lemma PauseKeeps(w: World)
    requires Mid(w) && w.s.newsRunning && w.s.alerts != [] && !w.s.alertRunning && !w.s.shuttingDown
    ensures var w1 := StopNews(w); Settled(w1.(s := w1.s.(lifecycle := Pausing)))
  {
    hide StopNews, Items, StartedItems, Shown, OnAfter;
    StopNewsBooks(w);
    StopNewsFrame(w);
    var w1 := StopNews(w);
    LedgerFrame(w1.s, w1.e, w1.s.(lifecycle := Pausing), w1.e);
  }

  lemma EndTemporaryKeeps(w: World, o: Outcomes)
    requires Mid(w) && w.s.displayRunning && !w.s.shuttingDown && w.s.desiredOn
    requires !w.s.alertRunning && w.s.alerts == [] && w.s.temporary
    ensures Settled(UseDisplay(w, o).w)
    ensures UseDisplay(w, o).err == None ==> UseDisplay(w, o).w.s.lifecycle == Off
  {
    hide Items, StartedItems, Shown, OnAfter, StopDisplay;
    var w1 := w.(s := w.s.(temporary := false));
    StopDisplayKeeps(w1, o);
    var r := StopDisplay(w1, o);
    LedgerFrame(w.s, w.e, r.w.s, r.w.e);
    LedgerFrame(w.s, w.e, r.w.s.(lifecycle := Off), r.w.e);
  }

  lemma UseDisplayKeeps(w: World, o: Outcomes)
    requires Mid(w) && w.s.displayRunning && !w.s.shuttingDown && WantDisplay(w.s)
    ensures Settled(UseDisplay(w, o).w)
  {
    if w.s.alertRunning {
    } else if w.s.alerts != [] {
      if w.s.newsRunning {
        PauseKeeps(w);
      } else {
        StartAlertKeeps(w);
      }
    } else if w.s.temporary {
      EndTemporaryKeeps(w, o);
    } else if w.s.desiredOn && !w.s.newsRunning {
      StartNewsKeeps(w);
    }
  }

  lemma StartFirstKeeps(w: World, o: Outcomes)
    requires Mid(w) && !w.s.displayRunning && !w.s.shuttingDown && WantDisplay(w.s)
    ensures var r := StartDisplay(w, o);
            if r.err.Some? then Settled(r.w)
            else Mid(r.w) && r.w.s.displayRunning && WantDisplay(r.w.s) && !r.w.s.shuttingDown
  {
    hide Items, StartedItems, Shown, OnAfter;
    StartDisplayKeeps(w, o);
  }

  lemma ShuttingIsSettled(w: World)
    requires Mid(w) && w.s.shuttingDown && LabelHolds(w.s)
    ensures Settled(w)
  {
  }

  lemma ReconciledKeeps(w: World, o: Outcomes)
    requires Mid(w)
    requires w.s.shuttingDown && !Finishing(w.s) ==> LabelHolds(w.s)
    ensures var r := Reconciled(w, o);
            if Finishing(r.w.s) then r.w == w else Settled(r.w)
  {
    hide Ledger, Histories, Channel, StartDisplay, UseDisplay, TurnOff, Settled;
    ReconcileScalars(w, o);
    if w.s.shuttingDown {
      if !Finishing(w.s) {
        ShuttingIsSettled(w);
      }
    } else if !WantDisplay(w.s) {
      TurnOffKeeps(w, o);
    } else if w.s.displayRunning {
      UseDisplayKeeps(w, o);
    } else {
      StartFirstKeeps(w, o);
      var started := StartDisplay(w, o);
      if started.err.None? {
        UseDisplayKeeps(started.w, o);
      }
    }
  }

  // ----- the switch -----

  /** A command may be handled: it comes from outside, or it is a message in the bag. */
  predicate Deliverable(w: World, c: Command) {
    c.Internal() ==> c in w.e.mail
  }

  /** What a case of the switch leaves: the loop's invariant after `continue`, and what
      reconcile needs otherwise. */
  ghost predicate SwitchKeeps(out: Switched) {
    if out.Skip? then Open(out.w)
    else Mid(out.w) && (out.w.s.shuttingDown && !Finishing(out.w.s) ==> LabelHolds(out.w.s))
  }

  /** Taking a timer message out of the bag disturbs nothing. */
  lemma ReceiveTimer(w: World, c: Command)
    requires Open(w) && c in w.e.mail && (c.NewsStopTimedOut? || c.NewsRetry?)
    ensures Open(w.(e := Receive(w.e, c)))
  {
    var e' := Receive(w.e, c);
    forall d | d in e'.mail ensures d in w.e.mail && e'.mail[d] <= w.e.mail[d] {
    }
    forall d | d in w.e.mail && d != c ensures d in e'.mail && e'.mail[d] == w.e.mail[d] {
    }
    assert NewsBooks(w.s, e');
    assert AlertBooks(w.s, e');
    assert Timers(w.s, e'.mail);
  }

  lemma ShutdownKeeps(w: World, force: bool)
    requires Open(w)
    ensures var w1 := w.(s := w.s.(desiredOn := false, forceStop := force));
            SwitchKeeps(Fall(CancelAll(w1, true), NoReply))
  {
    var w1 := w.(s := w.s.(desiredOn := false, forceStop := force));
    assert Ledger(w1.s, w1.e);
    assert Histories(w1.s, w1.e);
    CancelAllKeeps(w1, true);
    assert Mid(CancelAll(w1, true));
  }

  lemma SignalKeeps(w: World)
    requires Open(w)
    ensures SwitchKeeps(Fall(Signal(w), NoReply))
  {
    var w' := Signal(w);
    assert NewsBooks(w'.s, w'.e);
    assert AlertBooks(w'.s, w'.e);
    assert Timers(w'.s, w'.e.mail);
  }

  /** The world after an alert was appended, before news is asked to stop. */
  function Appended(w: World, item: Alert): World {
    var alerts := w.s.alerts + [item];
    w.(s := w.s.(alerts := alerts,
                 queuedAlerts := if w.s.alertRunning then |alerts| else |alerts| - 1,
                 temporary := w.s.temporary || !w.s.desiredOn),
       e := w.e.(accepted := w.e.accepted + [item]))
  }

  lemma AppendedKeeps(w: World, item: Alert)
    requires Open(w) && !w.s.shuttingDown
    requires |w.s.alerts| - (if !w.s.alertRunning && |w.s.alerts| > 0 then 1 else 0) < w.cfg.alertQueueCapacity
    ensures var w1 := Appended(w, item);
            && Flags(w1.s) && Waiting(w1.cfg, w1.s) && w1.s.queuedAlerts == QueueLength(w1.s)
            && Ledger(w1.s, w1.e) && Histories(w1.s, w1.e) && Channel(w1.cfg, w1.e)
  {
    var w1 := Appended(w, item);
    assert w1.e.accepted == Items(w1.e.resolved) + w1.s.alerts;
    assert NewsBooks(w1.s, w1.e) && AlertBooks(w1.s, w1.e) && Timers(w1.s, w1.e.mail);
  }

  lemma AddAlertKeeps(w: World, item: Alert)
    requires Open(w)
    ensures SwitchKeeps(OnAddAlert(w, item))
  {
    hide Items, StartedItems, Shown, OnAfter;
    if OnAddAlert(w, item).Fall? {
      AppendedKeeps(w, item);
      var w1 := Appended(w, item);
      StopNewsBooks(w1);
      StopNewsFrame(w1);
      assert OnAddAlert(w, item).w == StopNews(w1);
      assert Mid(StopNews(w1));
    }
  }

  lemma NewsStoppedBooks(w: World, c: Command)
    requires Ledger(w.s, w.e) && Flags(w.s) && c in w.e.mail && c.NewsStopped?
    ensures var s1 := w.s.(newsRunning := false, newsStopping := false, newsCancel := None);
            && c.run == w.s.newsRun && w.s.newsRunning && w.e.news.NoNews?
            && NewsBooks(s1, Receive(w.e, c)) && AlertBooks(s1, Receive(w.e, c)) && Timers(s1, Receive(w.e, c).mail)
  {
    var e' := Receive(w.e, c);
    forall d | d in e'.mail ensures d in w.e.mail && e'.mail[d] <= w.e.mail[d] {
    }
    assert c !in e'.mail;
  }

  /** The worker failed while it was wanted: a retry is armed and reconcile is skipped. */
  lemma NewsFailedKeeps(w: World, c: Command)
    requires Open(w) && c in w.e.mail && c.NewsStopped?
    requires c.err.Real() && w.s.desiredOn && !w.s.shuttingDown
    ensures SwitchKeeps(OnNewsStopped(w.(e := Receive(w.e, c)), c.run, c.err))
  {
    hide Items, StartedItems, Shown, OnAfter;
    NewsStoppedBooks(w, c);
    var s1 := w.s.(newsRunning := false, newsStopping := false, newsCancel := None);
    var e1 := Receive(w.e, c);
    PostTimer(s1, e1, NewsRetry(c.run));
    var out := OnNewsStopped(w.(e := e1), c.run, c.err);
    assert out.w.e == Post(e1, NewsRetry(c.run));
    assert NewsBooks(out.w.s, out.w.e) && AlertBooks(out.w.s, out.w.e) && Timers(out.w.s, out.w.e.mail);
    assert Histories(out.w.s, out.w.e);
  }

  lemma NewsStoppedKeeps(w: World, c: Command)
    requires Open(w) && c in w.e.mail && c.NewsStopped?
    requires !(c.err.Real() && w.s.desiredOn && !w.s.shuttingDown)
    ensures SwitchKeeps(OnNewsStopped(w.(e := Receive(w.e, c)), c.run, c.err))
  {
    hide Items, StartedItems, Shown, OnAfter;
    NewsStoppedBooks(w, c);
    var out := OnNewsStopped(w.(e := Receive(w.e, c)), c.run, c.err);
    assert NewsBooks(out.w.s, out.w.e) && AlertBooks(out.w.s, out.w.e) && Timers(out.w.s, out.w.e.mail);
    assert Histories(out.w.s, out.w.e);
  }

  lemma AlertFinishedBooks(w: World, c: Command)
    requires Ledger(w.s, w.e) && Flags(w.s) && c in w.e.mail && c.AlertFinished?
    ensures var s1 := w.s.(alertRunning := false, alertCancel := None, currentAlert := "");
            && c.run == w.s.alertRun && w.s.alertRunning && w.e.alert.NoAlert?
            && NewsBooks(s1, Receive(w.e, c)) && AlertBooks(s1, Receive(w.e, c)) && Timers(s1, Receive(w.e, c).mail)
  {
    var e' := Receive(w.e, c);
    forall d | d in e'.mail ensures d in w.e.mail && e'.mail[d] <= w.e.mail[d] {
    }
    assert c !in e'.mail;
  }

  lemma AlertFinishedKeeps(w: World, c: Command)
    requires Open(w) && c in w.e.mail && c.AlertFinished?
    ensures SwitchKeeps(OnAlertFinished(w.(e := Receive(w.e, c)), c.run, c.err))
  {
    AlertFinishedBooks(w, c);
    var out := OnAlertFinished(w.(e := Receive(w.e, c)), c.run, c.err);
    assert NewsBooks(out.w.s, out.w.e);
    assert AlertBooks(out.w.s, out.w.e);
    assert Histories(out.w.s, out.w.e);
    assert Mid(out.w);
  }

  lemma CancelAppKeeps(s: Record, e: Env)
    requires NewsBooks(s, e) && AlertBooks(s, e)
    ensures NewsBooks(s, CancelApp(e)) && AlertBooks(s, CancelApp(e))
  {
  }

  function Leaving(w: World): World {
    w.(s := w.s.(shuttingDown := true, desiredOn := false, forceStop := true))
  }

  lemma StopBooks(w: World)
    requires Open(w)
    ensures Cancelled(Leaving(w), CancelAll(Leaving(w), false), false)
    ensures Ledger(OnStop(w).s, OnStop(w).e) && Histories(OnStop(w).s, OnStop(w).e)
    ensures Channel(OnStop(w).cfg, OnStop(w).e)
  {
    var w0 := Leaving(w);
    assert Ledger(w0.s, w0.e) && Histories(w0.s, w0.e);
    CancelAllKeeps(w0, false);
    var w1 := CancelAll(w0, false);
    CancelAppKeeps(w1.s, w1.e);
  }

  lemma StopKeeps(w: World)
    requires Open(w)
    ensures SwitchKeeps(Fall(OnStop(w), Accepted)) && OnStop(w).s.shuttingDown
  {
    StopBooks(w);
    var s2 := OnStop(w).s;
    assert s2 == CancelAll(Leaving(w), false).s;
    assert Flags(s2) && Waiting(w.cfg, s2);
    assert s2.newsRunning || s2.alertRunning ==> LabelHolds(s2);
  }

  lemma TimedOutKeeps(w: World, c: Command)
    requires Open(w) && c in w.e.mail && c.NewsStopTimedOut?
    ensures SwitchKeeps(Switch(w.(e := Receive(w.e, c)), c))
  {
    hide Items, StartedItems, Shown, OnAfter, Receive;
    ReceiveTimer(w, c);
    var w0 := w.(e := Receive(w.e, c));
    if c.run == w.s.newsRun && w.s.newsRunning {
      var s1 := w0.s.(lifecycle := Failed, lastError := "worker stop timeout");
      LedgerFrame(w0.s, w0.e, s1, w0.e);
      assert Mid(w0.(s := s1));
    }
  }

  lemma WantedKeeps(w: World)
    requires Open(w)
    ensures SwitchKeeps(Fall(w.(s := w.s.(desiredOn := true)), NoReply))
  {
    var w1 := w.(s := w.s.(desiredOn := true));
    assert NewsBooks(w1.s, w1.e) && AlertBooks(w1.s, w1.e) && Timers(w1.s, w1.e.mail);
  }

  lemma OpenIsKept(w: World, reply: Reply)
    requires Open(w)
    ensures SwitchKeeps(Skip(w, reply)) && SwitchKeeps(Fall(w, reply))
  {
  }

  lemma MessageKeeps(w: World, c: Command)
    requires Open(w) && c.Internal() && c in w.e.mail
    ensures SwitchKeeps(Switch(w.(e := Receive(w.e, c)), c))
  {
    hide Open, Mid, SwitchKeeps, OnNewsStopped, OnAlertFinished;
    match c
    case NewsStopped(run, err) =>
      if err.Real() && w.s.desiredOn && !w.s.shuttingDown {
        NewsFailedKeeps(w, c);
      } else {
        NewsStoppedKeeps(w, c);
      }
    case NewsStopTimedOut(run) => TimedOutKeeps(w, c);
    case NewsRetry(run) =>
      ReceiveTimer(w, c);
      OpenIsKept(w.(e := Receive(w.e, c)), NoReply);
    case AlertFinished(run, err) => AlertFinishedKeeps(w, c);
  }

  lemma RequestKeeps(w: World, c: Command)
    requires Open(w) && !c.Internal()
    ensures SwitchKeeps(Switch(w, c))
  {
    hide Open, Mid, SwitchKeeps, CancelAll, OnAddAlert, OnStop, Signal;
    match c
    case Start => WantedKeeps(w);
    case Shutdown => ShutdownKeeps(w, w.s.displayRunning);
    case Reconcile(desired) =>
      if desired {
        WantedKeeps(w);
      } else {
        ShutdownKeeps(w, true);
      }
    case NewsChanged => SignalKeeps(w);
    case NewsPass => SignalKeeps(w);
    case AddAlert(item) => AddAlertKeeps(w, item);
    case Snapshot => OpenIsKept(w, Snapped(Public(w.s)));
    case Stop => StopKeeps(w);
  }

  lemma SwitchKeepsInvariant(w: World, c: Command)
    requires Open(w) && Deliverable(w, c)
    ensures SwitchKeeps(Switch(w.(e := Receive(w.e, c)), c))
  {
    if c.Internal() {
      MessageKeeps(w, c);
    } else {
      assert w.(e := Receive(w.e, c)) == w;
      RequestKeeps(w, c);
    }
  }

  // ----- the end of the loop -----

  lemma ExitKeeps(w: World, o: Outcomes)
    requires Mid(w) && Finishing(w.s)
    ensures Closed(Exit(w, o))
  {
    hide Items, StartedItems, Shown, OnAfter, StopDisplay;
    StopDisplayKeeps(w, o);
    var w' := StopDisplay(w, o).w;
    assert Ledger(w'.s, w'.e);
    var w2 := Exit(w, o);
    assert NewsBooks(w2.s, w2.e) && AlertBooks(w2.s, w2.e);
  }

  /** One iteration of the loop, for any command that can arrive and any behaviour of the
      display, keeps the invariant. */
  lemma HandleKeeps(w: World, c: Command, expired: bool, o: Outcomes)
    requires Open(w) && Deliverable(w, c)
    ensures Inv(Handle(w, c, expired, o).w)
  {
    var w0 := w.(e := Receive(w.e, c));
    if !expired || c.Internal() {
      SwitchKeepsInvariant(w, c);
      var out := Switch(w0, c);
      if out.Fall? {
        ReconciledKeeps(out.w, o);
        if Finishing(Reconciled(out.w, o).w.s) {
          ExitKeeps(out.w, o);
        }
      }
    }
  }
}
