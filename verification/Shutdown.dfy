/** From cmdStop to the end of the loop. */
module Shutdown {
  import opened Common
  import opened Supervisor
  import opened SupervisorInvariant
  import opened SupervisorLoop
  import opened Runs
  import opened Guarantees
  import opened Lifecycle
  import opened RefreshSignals
  import NW = NewsWorkflow
  import AlertRun

  predicate Completion(ev: Event) {
    ev.Deliver? && (ev.c.NewsStopped? || ev.c.AlertFinished?)
  }

  function Completions(evs: seq<Event>): nat {
    if evs == [] then 0 else NW.One(Completion(evs[0])) + Completions(evs[1..])
  }

  /** While shutting down the loop waits for exactly one worker, which has been cancelled. */
  lemma OneCancelledWorker(w: World)
    requires Open(w) && w.s.shuttingDown
    ensures w.s.newsRunning != w.s.alertRunning
    ensures w.e.news.NewsLive? ==> w.e.news.cancelled
    ensures w.e.alert.AlertLive? ==> w.e.alert.cancelled
  {
  }

  /** The first completion message ends the loop. */
  lemma CompletionEndsLoop(w: World, c: Command, o: Outcomes)
    requires Open(w) && w.s.shuttingDown && c in w.e.mail && (c.NewsStopped? || c.AlertFinished?)
    ensures Handle(w, c, false, o).w.e.exited
  {
    hide Handle, Reconciled, Exit, Histories, Channel;
    if c.NewsStopped? {
      NewsStoppedBooks(w, c);
    } else {
      AlertFinishedBooks(w, c);
    }
    HandleCases(w, c, false, o);
    var out := Switch(w.(e := Receive(w.e, c)), c);
    assert out.Fall? && Finishing(out.w.s) && out.w.s.shuttingDown;
    ReconcileFrame(out.w, o);
    ExitFrame(out.w, o);
  }

  /** The display calls made between two worlds of a shutdown: none, or the last Stop. */
  predicate OnlyFinalStop(w: World, w': World) {
    if w'.e.exited then w'.e.calls == w.e.calls + [DisplayCall(false, w'.e.published == [None], true)]
    else w'.e.calls == w.e.calls
  }

  predicate CallsNothing(w: World, w': World) {
    w'.e.calls == w.e.calls && w'.e.published == w.e.published && w'.e.exited == w.e.exited
  }

  lemma CancelAllCallsNothing(w: World, scheduled: bool)
    ensures CallsNothing(w, CancelAll(w, scheduled))
  {
  }

  lemma AddAlertCallsNothing(w: World, item: Alert)
    ensures CallsNothing(w, OnAddAlert(w, item).w)
  {
    if OnAddAlert(w, item).Fall? {
      assert OnAddAlert(w, item).w == StopNews(Appended(w, item));
    }
  }

  lemma StopCallsNothing(w: World)
    ensures CallsNothing(w, OnStop(w)) && OnStop(w).s == CancelAll(Leaving(w), false).s
  {
    hide CancelAll;
    CancelAllCallsNothing(Leaving(w), false);
  }

  lemma SwitchCallsNothing(w: World, c: Command)
    ensures CallsNothing(w, Switch(w, c).w)
  {
    hide CancelAll, OnStop, OnAddAlert;
    match c
    case Shutdown => CancelAllCallsNothing(w.(s := w.s.(desiredOn := false, forceStop := w.s.displayRunning)), true);
    case Reconcile(desired) => CancelAllCallsNothing(w.(s := w.s.(desiredOn := false, forceStop := true)), true);
    case Stop => StopCallsNothing(w);
    case AddAlert(item) => AddAlertCallsNothing(w, item);
    case _ =>
  }

  lemma ExitCalls(w: World, o: Outcomes)
    requires Mid(w) && Finishing(w.s)
    ensures OnlyFinalStop(w, Exit(w, o)) && Exit(w, o).e.exited
  {
    assert Quiet(w.e);
    assert Exit(w, o).e.published == [o.stop];
    assert [o.stop] == [None] <==> o.stop == None by {
      assert [o.stop][0] == o.stop;
    }
  }

  lemma HandleWhileShutting(w: World, c: Command, expired: bool, o: Outcomes)
    requires Open(w) && w.s.shuttingDown && Deliverable(w, c)
    ensures OnlyFinalStop(w, Handle(w, c, expired, o).w)
  {
    hide Handle, Exit, Switch, Histories, Channel;
    HandleCases(w, c, expired, o);
    var w0 := w.(e := Receive(w.e, c));
    if !expired || c.Internal() {
      SwitchCallsNothing(w0, c);
      SwitchFrame(w0, c);
      SwitchKeepsInvariant(w, c);
      var out := Switch(w0, c);
      if out.Fall? {
        ReconcileFrame(out.w, o);
        if Finishing(out.w.s) {
          ExitCalls(out.w, o);
        }
      }
    }
  }

  lemma NextWhileShutting(w: World, ev: Event)
    requires Open(w) && w.s.shuttingDown && Next(w, ev).Some?
    ensures OnlyFinalStop(w, Next(w, ev).value)
    ensures Completion(ev) ==> Next(w, ev).value.e.exited
  {
    match ev
    case Request(c, expired, o) => HandleWhileShutting(w, c, expired, o);
    case Deliver(c, o) =>
      HandleWhileShutting(w, c, false, o);
      if Completion(ev) {
        CompletionEndsLoop(w, c, o);
      }
    case _ =>
  }

  lemma {:induction false} ShuttingRun(w: World, evs: seq<Event>)
    requires Inv(w) && w.s.shuttingDown && Exec(w, evs).Some?
    ensures var w' := Exec(w, evs).value;
            && w'.s.newsRun == w.s.newsRun && w'.s.alertRun == w.s.alertRun && w'.s.shuttingDown
            && Completions(evs) <= (if w.e.exited then 0 else 1)
            && (w.e.exited ==> w' == w)
            && (!w.e.exited ==> OnlyFinalStop(w, w'))
            && (Completions(evs) == 1 ==> w'.e.exited)
    decreases |evs|
  {
    if evs != [] {
      NextRuns(w, evs[0]);
      NextKeeps(w, evs[0]);
      NextWhileShutting(w, evs[0]);
      ShuttingRun(Next(w, evs[0]).value, evs[1..]);
    }
  }

  /** The Stop request itself: the loop ends at once exactly if no worker is running. */
  lemma StopRequest(w: World, o: Outcomes)
    requires Open(w)
    ensures var w' := Handle(w, Stop, false, o).w;
            && w'.s.shuttingDown && OnlyFinalStop(w, w')
            && w'.s.newsRun == w.s.newsRun && w'.s.alertRun == w.s.alertRun
            && (w'.e.exited <==> !w.s.newsRunning && !w.s.alertRunning)
  {
    hide Handle, Reconciled, OnStop, Exit, Ledger, Histories, Channel;
    StopKeeps(w);
    StopBooks(w);
    StopCallsNothing(w);
    SwitchFrame(w, Stop);
    HandleCases(w, Stop, false, o);
    assert w.(e := Receive(w.e, Stop)) == w;
    ReconcileFrame(OnStop(w), o);
    ExitFrame(OnStop(w), o);
    if Finishing(OnStop(w).s) {
      ExitCalls(OnStop(w), o);
    }
  }

  /** Shutdown from any reachable state and whatever follows it: no worker is ever started
      again, the display is called at most once more and that call is a Stop, at most one
      completion message is handled and handling it ends the loop; once the loop has ended no
      worker is live and exactly the result of that Stop was published. */
  lemma StopIsFinal(w: World, o: Outcomes, evs: seq<Event>)
    requires Open(w) && Exec(w, [Request(Stop, false, o)] + evs).Some?
    ensures var w' := Exec(w, [Request(Stop, false, o)] + evs).value;
            && w'.s.newsRun == w.s.newsRun && w'.s.alertRun == w.s.alertRun
            && OnlyFinalStop(w, w')
            && Completions(evs) <= 1 && (Completions(evs) == 1 ==> w'.e.exited)
            && (w'.e.exited ==> Quiet(w'.e) && |w'.e.published| == 1)
            && (!w'.e.exited ==> w'.s.newsRunning != w'.s.alertRunning)
  {
    hide Handle, Histories, Channel;
    var ev := Request(Stop, false, o);
    assert ([ev] + evs)[1..] == evs;
    var w1 := Next(w, ev).value;
    StopRequest(w, o);
    NextKeeps(w, ev);
    ShuttingRun(w1, evs);
    ExecKeeps(w1, evs);
    var w' := Exec(w1, evs).value;
    if !w'.e.exited {
      OneCancelledWorker(w');
    }
  }

  // ----- and it comes -----

  /** A step of a worker. */
  predicate WorkerStep(ev: Event) {
    ev.NewsAct? || ev.AlertAct?
  }

  function WorkerSteps(evs: seq<Event>): nat {
    if evs == [] then 0 else NW.One(WorkerStep(evs[0])) + WorkerSteps(evs[1..])
  }

  /** How many steps the cancelled workers take at most. */
  function Remaining(w: World): nat {
    (if w.e.news.NewsLive? then NW.Left(w.e.news.worker, w.e.link) else 0)
    + (if w.e.alert.AlertLive? then AlertRun.Left(w.e.alert.stage) else 0)
  }

  /** The alert's goroutine is where it was, except that it may have been cancelled. */
  predicate AlertStays(p: AlertProcess, p': AlertProcess) {
    p' == p || (p.AlertLive? && p' == p.(cancelled := true))
  }

  lemma CancelAllAlert(w: World, scheduled: bool)
    ensures AlertStays(w.e.alert, CancelAll(w, scheduled).e.alert)
  {
  }

  lemma SwitchAlert(w: World, c: Command)
    ensures AlertStays(w.e.alert, Switch(w, c).w.e.alert)
  {
    match c
    case Shutdown => CancelAllAlert(w.(s := w.s.(desiredOn := false, forceStop := w.s.displayRunning)), true);
    case Reconcile(desired) => CancelAllAlert(w.(s := w.s.(desiredOn := false, forceStop := true)), true);
    case Stop => CancelAllAlert(Leaving(w), false);
    case AddAlert(item) =>
      if OnAddAlert(w, item).Fall? {
        assert OnAddAlert(w, item).w == StopNews(Appended(w, item));
      }
    case _ =>
  }

  /** Nothing the loop does while shutting down gives a worker more to do. */
  lemma HandleRemaining(w: World, c: Command, expired: bool, o: Outcomes)
    requires Open(w) && w.s.shuttingDown && Deliverable(w, c)
    ensures Remaining(Handle(w, c, expired, o).w) == Remaining(w)
  {
    hide Handle, Reconciled, Exit, Switch, Histories, Channel;
    HandleCases(w, c, expired, o);
    var w0 := w.(e := Receive(w.e, c));
    if !expired || c.Internal() {
      SwitchAlert(w0, c);
      SwitchChannel(w0, c);
      SwitchFrame(w0, c);
      SwitchKeepsInvariant(w, c);
      var out := Switch(w0, c);
      if out.Fall? {
        ReconcileFrame(out.w, o);
        ExitFrame(out.w, o);
      }
    }
  }

  lemma NewsStepRemaining(w: World, a: NW.Action)
    requires Open(w) && w.s.shuttingDown && NewsStep(w, a).Some?
    ensures Remaining(NewsStep(w, a).value) < Remaining(w)
  {
    OneCancelledWorker(w);
    NW.CancelledProgress(w.cfg.worker, w.e.news.worker, w.e.link, a);
  }

  lemma AlertStepRemaining(w: World, b: AlertRun.Action)
    requires AlertStep(w, b).Some?
    ensures Remaining(AlertStep(w, b).value) < Remaining(w)
  {
  }

  lemma NextRemaining(w: World, ev: Event)
    requires Open(w) && w.s.shuttingDown && Next(w, ev).Some?
    ensures Remaining(Next(w, ev).value) + NW.One(WorkerStep(ev)) <= Remaining(w)
  {
    match ev
    case Request(c, expired, o) => HandleRemaining(w, c, expired, o);
    case Deliver(c, o) => HandleRemaining(w, c, false, o);
    case NewsAct(a) => NewsStepRemaining(w, a);
    case AlertAct(b) => AlertStepRemaining(w, b);
    case ParentEnds =>
  }

  lemma {:induction false} ShuttingSteps(w: World, evs: seq<Event>)
    requires Inv(w) && w.s.shuttingDown && Exec(w, evs).Some?
    ensures WorkerSteps(evs) + Remaining(Exec(w, evs).value) <= Remaining(w)
    decreases |evs|
  {
    if evs != [] {
      NextRuns(w, evs[0]);
      NextKeeps(w, evs[0]);
      NextRemaining(w, evs[0]);
      ShuttingSteps(Next(w, evs[0]).value, evs[1..]);
    }
  }

  lemma NewsCanStep(w: World)
    requires Open(w) && w.s.shuttingDown && w.e.news.NewsLive?
    ensures exists a :: NewsStep(w, a).Some?
  {
    OneCancelledWorker(w);
    NW.CancelledEnabled(w.cfg.worker, w.e.news.worker, w.e.link);
    var a :| !NW.Step(w.cfg.worker, w.e.news.worker, true, w.e.link, a).Blocked?;
    assert NewsStep(w, a).Some?;
  }

  lemma AlertCanStep(w: World)
    requires Open(w) && w.s.shuttingDown && w.e.alert.AlertLive?
    ensures exists b :: AlertStep(w, b).Some?
  {
    OneCancelledWorker(w);
    var b := match w.e.alert.stage
      case Showing => AlertRun.ShowEnds(NoError)
      case Held => AlertRun.SeeCancel
      case _ => AlertRun.ClearEnds(NoError);
    assert AlertStep(w, b).Some?;
  }

  lemma CompletionIsThere(w: World)
    requires Open(w) && w.s.shuttingDown && w.e.news.NoNews? && w.e.alert.NoAlert?
    ensures exists c :: c in w.e.mail && c.Internal() && (c.NewsStopped? || c.AlertFinished?)
  {
  }

  /** Until the loop has ended, a worker can take a step or its completion can be handled. */
  lemma SomethingIsPossible(w: World)
    requires Open(w) && w.s.shuttingDown
    ensures exists ev :: (WorkerStep(ev) || Completion(ev)) && Next(w, ev).Some?
  {
    hide NewsStep, AlertStep, Handle, Ledger, Histories, Channel;
    if w.e.news.NewsLive? {
      NewsCanStep(w);
      var a :| NewsStep(w, a).Some?;
      assert WorkerStep(NewsAct(a)) && Next(w, NewsAct(a)).Some?;
    } else if w.e.alert.AlertLive? {
      AlertCanStep(w);
      var b :| AlertStep(w, b).Some?;
      assert WorkerStep(AlertAct(b)) && Next(w, AlertAct(b)).Some?;
    } else {
      CompletionIsThere(w);
      var c :| c in w.e.mail && c.Internal() && (c.NewsStopped? || c.AlertFinished?);
      var ev := Deliver(c, Outcomes((_: nat) => Attempt(None, true), None));
      assert Completion(ev) && Next(w, ev).Some?;
    }
  }

  lemma RemainingBounded(w: World)
    requires Open(w)
    ensures Remaining(w) <= 6
  {
    if w.e.news.NewsLive? {
      NW.CancelledProgress(w.cfg.worker, w.e.news.worker, w.e.link, NW.Advance);
    }
  }

  /** Shutdown terminates. Whatever happens after Stop, the workers take at most six steps
      altogether, one completion is handled at most, and until the loop has ended one of those is
      always possible. */
  lemma StopTerminates(w: World, o: Outcomes, evs: seq<Event>)
    requires Open(w) && Exec(w, [Request(Stop, false, o)] + evs).Some?
    ensures WorkerSteps(evs) <= 6 && Completions(evs) <= 1
    ensures var w' := Exec(w, [Request(Stop, false, o)] + evs).value;
            !w'.e.exited ==> exists ev :: (WorkerStep(ev) || Completion(ev)) && Next(w', ev).Some?
  {
    hide Handle, Ledger, Histories, Channel;
    var ev := Request(Stop, false, o);
    assert ([ev] + evs)[1..] == evs;
    StopIsFinal(w, o, evs);
    StopRequest(w, o);
    NextKeeps(w, ev);
    var w1 := Next(w, ev).value;
    ShuttingSteps(w1, evs);
    ShuttingRun(w1, evs);
    ExecKeeps(w1, evs);
    if w1.e.exited {
      assert Remaining(w1) == 0;
    } else {
      RemainingBounded(w1);
    }
    var w' := Exec(w1, evs).value;
    if !w'.e.exited {
      SomethingIsPossible(w');
    }
  }
}
