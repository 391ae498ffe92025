/** Short runs that reach the states in which supervisor or worker do not do what one would expect. */
module Witnesses {
  import opened Common
  import opened Supervisor
  import opened SupervisorInvariant
  import opened SupervisorLoop
  import opened Runs
  import opened Guarantees
  import opened StrandedAlerts
  import opened Recovery
  import opened RefreshSignals
  import NW = NewsWorkflow
  import AlertRun

  /** There is room for an alert, and the display starts at the first attempt and stops. */
  predicate ReadyForAlerts(cfg: Config, o: Outcomes) {
    cfg.startupRetries > 0 && cfg.alertQueueCapacity > 0 && o.starts(0).err.None? && o.stop.None?
  }

  lemma ExecStep(w: World, ev: Event, rest: seq<Event>)
    requires Next(w, ev).Some?
    ensures Exec(w, [ev] + rest) == Exec(Next(w, ev).value, rest)
  {
    assert ([ev] + rest)[1..] == rest;
  }

  /** A world with the display on for its own sake and a fresh news worker. */
  function Started(cfg: Config): World {
    World(cfg,
          NEW_RECORD.(lifecycle := Running, desiredOn := true, displayRunning := true, newsRunning := true,
                     newsCancel := Some(1), newsRun := 1),
          NEW_ENV.(news := NewsLive(1, false, NW.NEW_WORKER), calls := [DisplayCall(true, true, true)]))
  }

  lemma StartReaches(cfg: Config, o: Outcomes)
    requires ReadyForAlerts(cfg, o)
    ensures Next(Initial(cfg), Request(Start, false, o)) == Some(Started(cfg))
  {
    assert TryStart(NEW_ENV, o.starts, cfg.startupRetries, 0, "<nil>").ok;
    assert [] + [DisplayCall(true, true, true)] == [DisplayCall(true, true, true)];
  }

  const FAILURE := Broken("clock: draw: ssh")

  function WithWorker(w: World, worker: NW.Worker, link: NW.Link): World {
    w.(e := w.e.(news := NewsLive(1, false, worker), link := link))
  }

  const FAILING_ACTS := [NewsAct(NW.Advance), NewsAct(NW.Advance), NewsAct(NW.ClockEnds(FAILURE)), NewsAct(NW.Join)]

  /** The worker enters its loop, shows the clock, and the clock fails. */
  lemma WorkerFails(cfg: Config)
    requires cfg.worker.hasDashboard && cfg.worker.hasClock
    ensures var w := Started(cfg);
            Exec(w, FAILING_ACTS)
            == Some(w.(e := Post(w.e.(news := NoNews, link := NW.Show(NW.NEW_LINK, NW.Clock)),
                                 NewsStopped(1, FAILURE))))
  {
    var w := Started(cfg);
    var link := NW.Show(NW.NEW_LINK, NW.Clock);
    var wa := WithWorker(w, NW.Worker(NW.LoopTop, false, NW.Absent, NW.Absent), NW.NEW_LINK);
    var wb := WithWorker(w, NW.Worker(NW.ClockOn, false, NW.Active, NW.Absent), link);
    var wc := WithWorker(w, NW.Worker(NW.ClockOn, false, NW.Finished(FAILURE), NW.Absent), link);
    var wd := w.(e := Post(w.e.(news := NoNews, link := link), NewsStopped(1, FAILURE)));
    assert Next(w, FAILING_ACTS[0]) == Some(wa);
    assert Next(wa, FAILING_ACTS[1]) == Some(wb);
    assert Next(wb, FAILING_ACTS[2]) == Some(wc);
    assert Next(wc, FAILING_ACTS[3]) == Some(wd);
    ExecStep(wc, FAILING_ACTS[3], []);
    ExecStep(wb, FAILING_ACTS[2], [FAILING_ACTS[3]] + []);
    ExecStep(wa, FAILING_ACTS[1], [FAILING_ACTS[2]] + ([FAILING_ACTS[3]] + []));
    ExecStep(w, FAILING_ACTS[0], [FAILING_ACTS[1]] + ([FAILING_ACTS[2]] + ([FAILING_ACTS[3]] + [])));
    assert FAILING_ACTS == [FAILING_ACTS[0]] + ([FAILING_ACTS[1]] + ([FAILING_ACTS[2]] + ([FAILING_ACTS[3]] + [])));
  }

  /** An alert arrives while the message of a failed worker is under way. */
  lemma AlertArrives(w: World, item: Alert, o: Outcomes)
    requires Open(w) && w.s.newsRunning && !w.s.newsStopping && w.s.desiredOn && !w.s.shuttingDown
    requires w.s.alerts == [] && w.cfg.alertQueueCapacity > 0
    ensures var h := Handle(w, AddAlert(item), false, o);
            && h.reply == Added(item.operationId, true)
            && h.w.s.alerts == [item] && h.w.s.desiredOn && !h.w.s.shuttingDown && !h.w.e.exited && h.w.s.displayRunning
            && h.w.e.mail == w.e.mail + multiset{NewsStopTimedOut(w.s.newsRun)}
  {
    HandleCases(w, AddAlert(item), false, o);
    assert w.(e := Receive(w.e, AddAlert(item))) == w;
    var w1 := StopNews(Appended(w, item));
    assert OnAddAlert(w, item) == Fall(w1, Added(item.operationId, true));
    assert w1.s.alerts == [item];
    assert Reconciled(w1, o).w == w1.(s := w1.s.(lifecycle := Pausing));
  }

  lemma FailureArrives(w: World, c: Command, o: Outcomes)
    requires Open(w) && w.s.desiredOn && !w.s.shuttingDown && w.s.alerts != []
    requires c in w.e.mail && c.NewsStopped? && c.err.Real()
    ensures var w' := Handle(w, c, false, o).w;
            && Stranded(w'.s) && w'.s.alerts == w.s.alerts && w'.s.displayRunning
            && w'.s.desiredOn && !w'.s.shuttingDown && !w'.e.exited
  {
    FailureIsSkipped(w, c);
    StrandedIff(w, c, false, o);
    HandleCases(w, c, false, o);
    NewsStoppedBooks(w, c);
  }

  /** A started system whose news worker has failed without the supervisor knowing yet. */
  lemma FailureUnderWay(cfg: Config, o: Outcomes) returns (w: World, evs: seq<Event>)
    requires ReadyForAlerts(cfg, o) && cfg.worker.hasDashboard && cfg.worker.hasClock
    ensures Exec(Initial(cfg), evs) == Some(w) && !w.e.exited && w.cfg == cfg
    ensures w.s.newsRunning && !w.s.newsStopping && w.s.desiredOn && !w.s.shuttingDown && w.s.alerts == []
    ensures NewsStopped(1, FAILURE) in w.e.mail
  {
    var start := Request(Start, false, o);
    evs := [start] + FAILING_ACTS;
    StartReaches(cfg, o);
    WorkerFails(cfg);
    ExecStep(Initial(cfg), start, FAILING_ACTS);
    w := Exec(Started(cfg), FAILING_ACTS).value;
  }

  /** An alert can be accepted as displaying and then wait with the display on and no worker:
      the news worker returns an error in the moment it should make room. */
  lemma StrandedIsReachable(cfg: Config, item: Alert, o: Outcomes) returns (evs: seq<Event>)
    requires ReadyForAlerts(cfg, o) && cfg.worker.hasDashboard && cfg.worker.hasClock
    ensures Exec(Initial(cfg), evs).Some?
    ensures var w := Exec(Initial(cfg), evs).value;
            !w.e.exited && Stranded(w.s) && w.s.displayRunning && w.s.desiredOn && !w.s.shuttingDown
  {
    hide Handle, Ledger, Histories, Channel, Stranded;
    var add := Request(AddAlert(item), false, o);
    var message := NewsStopped(1, FAILURE);
    var deliver := Deliver(message, o);
    var w2, before := FailureUnderWay(cfg, o);
    EveryRunKeeps(cfg, before);
    AlertArrives(w2, item, o);
    NextKeeps(w2, add);
    var w3 := Next(w2, add).value;
    FailureArrives(w3, message, o);
    evs := before + ([add] + ([deliver] + []));
    ExecSplits(Initial(cfg), before, [add] + ([deliver] + []));
    ExecStep(w2, add, [deliver] + []);
    ExecStep(w3, deliver, []);
  }

  /** A news worker whose failure is under way misses a request for a pass: the signal stays in the
      channel while the supervisor arms the retry. */
  lemma SignalStays(w: World, o: Outcomes)
    requires Open(w) && w.s.newsRunning && !w.s.newsStopping && w.s.desiredOn && !w.s.shuttingDown && w.s.alerts == []
    ensures Next(w, Request(NewsPass, false, o)) == Some(Signal(w))
  {
    HandleCases(w, NewsPass, false, o);
    assert w.(e := Receive(w.e, NewsPass)) == w;
  }

  lemma RetryIsArmed(w: World, c: Command, o: Outcomes)
    requires Open(w) && c in w.e.mail && c.NewsStopped? && c.err.Real() && w.s.desiredOn && !w.s.shuttingDown
    ensures var w' := Handle(w, c, false, o).w;
            && NewsRetry(w.s.newsRun) in w'.e.mail && w'.e.link == w.e.link
            && !w'.s.newsRunning && w'.s.newsRun == w.s.newsRun && w'.s.desiredOn && !w'.s.shuttingDown
            && w'.s.alerts == w.s.alerts && w'.s.displayRunning && !w'.s.alertRunning && !w'.e.exited
  {
    NewsStoppedBooks(w, c);
    HandleCases(w, c, false, o);
  }

  /** A started worker can owe a pass from the beginning: the signal its predecessor did not live to
      take is in the channel. */
  lemma KickIsReachable(cfg: Config, o: Outcomes) returns (evs: seq<Event>)
    requires ReadyForAlerts(cfg, o) && cfg.worker.hasDashboard && cfg.worker.hasClock
    ensures Exec(Initial(cfg), evs).Some?
    ensures var w := Exec(Initial(cfg), evs).value;
            w.e.news.NewsLive? && w.e.news.worker == NW.NEW_WORKER && NW.Due(w.e.news.worker, w.e.link)
  {
    hide Handle, Ledger, Histories, Channel;
    var signal := Request(NewsPass, false, o);
    var message := NewsStopped(1, FAILURE);
    var deliver := Deliver(message, o);
    var w1, before := FailureUnderWay(cfg, o);
    EveryRunKeeps(cfg, before);
    SignalStays(w1, o);
    NextKeeps(w1, signal);
    var w2 := Signal(w1);
    RetryIsArmed(w2, message, o);
    NextKeeps(w2, deliver);
    var w3 := Next(w2, deliver).value;
    var retry := Deliver(NewsRetry(w3.s.newsRun), o);
    RetryStarts(w3, o);
    NewWorkerOwesIff(w3, retry);
    evs := before + ([signal] + ([deliver] + ([retry] + [])));
    ExecSplits(Initial(cfg), before, [signal] + ([deliver] + ([retry] + [])));
    ExecStep(w1, signal, [deliver] + ([retry] + []));
    ExecStep(w2, deliver, [retry] + []);
    ExecStep(w3, retry, []);
  }

  /** An alert shown outside the active window. */
  function Visiting(cfg: Config, item: Alert): World {
    World(cfg,
          NEW_RECORD.(lifecycle := Alerting, displayRunning := true, alertRunning := true,
                     currentAlert := item.operationId, alertCancel := Some(1), alertRun := 1, temporary := true),
          NEW_ENV.(alert := AlertLive(1, false, item, AlertRun.Showing), calls := [DisplayCall(true, true, true)],
                  accepted := [item], resolved := [Resolved(item, true)], presented := [AlertRun.Show(item)]))
  }

  lemma VisitReaches(cfg: Config, item: Alert, o: Outcomes)
    requires ReadyForAlerts(cfg, o) && cfg.allowOutside
    ensures Next(Initial(cfg), Request(AddAlert(item), false, o)) == Some(Visiting(cfg, item))
  {
    var w0 := Initial(cfg);
    var w1 := Appended(w0, item);
    assert OnAddAlert(w0, item) == Fall(w1, Added(item.operationId, true));
    assert w1.s.alerts == [item] && w1.e.accepted == [item];
    assert TryStart(w1.e, o.starts, cfg.startupRetries, 0, "<nil>").ok;
    var w2 := StartDisplay(w1, o).w;
    assert w2.e.calls == [DisplayCall(true, true, true)];
    var w3 := StartAlert(PopHead(w2), item);
    assert PopHead(w2).s.alerts == [];
    assert UseDisplay(w2, o).w == w3;
    assert w3.e.resolved == [Resolved(item, true)] && w3.e.presented == [AlertRun.Show(item)];
  }

  /** The display can be off while it is wanted: an alert outside the active window opens it
      temporarily, the window begins, the alert ends. */
  lemma OffThoughWantedIsReachable(cfg: Config, item: Alert, o: Outcomes) returns (evs: seq<Event>)
    requires ReadyForAlerts(cfg, o) && cfg.allowOutside
    ensures Exec(Initial(cfg), evs).Some?
    ensures var w := Exec(Initial(cfg), evs).value;
            w.s.desiredOn && w.s.lifecycle == Off && !w.s.displayRunning && !w.s.newsRunning
  {
    var add := Request(AddAlert(item), false, o);
    var start := Request(Start, false, o);
    var fail := AlertAct(AlertRun.ShowEnds(Broken("show")));
    var message := AlertFinished(1, Broken("show"));
    var deliver := Deliver(message, o);
    VisitReaches(cfg, item, o);
    var w1 := Visiting(cfg, item);
    var w2 := w1.(s := w1.s.(desiredOn := true));
    assert Next(w1, start) == Some(w2);
    var w3 := w2.(e := Post(w2.e.(alert := NoAlert), message));
    assert Next(w2, fail) == Some(w3);
    assert message in w3.e.mail;
    var w4 := Next(w3, deliver).value;
    evs := [add] + ([start] + ([fail] + ([deliver] + [])));
    ExecStep(Initial(cfg), add, [start] + ([fail] + ([deliver] + [])));
    ExecStep(w1, start, [fail] + ([deliver] + []));
    ExecStep(w2, fail, [deliver] + []);
    ExecStep(w3, deliver, []);
  }
}
