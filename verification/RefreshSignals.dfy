/** Refresh signals through the whole system: what the supervisor forwards is what the
    worker is promised in NewsWorkflow. */
module RefreshSignals {
  import opened Common
  import opened Supervisor
  import opened SupervisorInvariant
  import opened SupervisorLoop
  import opened Runs
  import opened Guarantees
  import opened Lifecycle
  import NW = NewsWorkflow

  predicate IsSignal(ev: Event) {
    ev.Request? && !ev.expired && (ev.c.NewsChanged? || ev.c.NewsPass?)
  }

  function Seen(w: World): NW.Position
    requires w.e.news.NewsLive?
  {
    NW.Position(w.e.news.worker, w.e.link)
  }

  /** A run number's worker, live and not yet told to stop. */
  predicate Working(w: World, run: nat) {
    w.e.news.NewsLive? && w.e.news.run == run && !w.e.news.cancelled
  }

  predicate SameOrCancelled(p: NewsProcess, p': NewsProcess) {
    p' == p || (p.NewsLive? && p' == p.(cancelled := true))
  }

  /** Neither the channel nor a live worker is touched, except for cancelling it. */
  predicate Untouched(w: World, w': World) {
    w'.e.link == w.e.link && SameOrCancelled(w.e.news, w'.e.news)
  }

  lemma CancelAllChannel(w: World, scheduled: bool)
    ensures Untouched(w, CancelAll(w, scheduled)) && CancelAll(w, scheduled).s.newsRun == w.s.newsRun
  {
  }

  lemma AddAlertChannel(w: World, item: Alert)
    ensures Untouched(w, OnAddAlert(w, item).w)
  {
    if OnAddAlert(w, item).Fall? {
      assert OnAddAlert(w, item).w == StopNews(Appended(w, item));
    }
  }

  /** The switch touches the channel only to forward a signal, and no case undoes a cancellation. */
  lemma SwitchChannel(w: World, c: Command)
    ensures var w' := Switch(w, c).w;
            && w'.e.link == (if (c.NewsChanged? || c.NewsPass?) && w.s.newsRunning && !w.s.newsStopping
                             then NW.Offer(w.e.link) else w.e.link)
            && SameOrCancelled(w.e.news, w'.e.news)
  {
    match c
    case Shutdown => CancelAllChannel(w.(s := w.s.(desiredOn := false, forceStop := w.s.displayRunning)), true);
    case Reconcile(desired) => CancelAllChannel(w.(s := w.s.(desiredOn := false, forceStop := true)), true);
    case Stop => CancelAllChannel(Leaving(w), false);
    case AddAlert(item) => AddAlertChannel(w, item);
    case _ =>
  }

  /** News was started: with a new run number, on the channel as it is. */
  predicate Begun(w: World, w': World) {
    && !w.s.newsRunning && w'.s.newsRun == w.s.newsRun + 1 && w'.e.link == w.e.link
    && w'.e.news == NewsLive(w'.s.newsRun, w.e.appCancelled, NW.NEW_WORKER)
  }

  predicate Aside(w: World, w': World) {
    Untouched(w, w') && w'.s.newsRun == w.s.newsRun
  }

  lemma StopNewsChannel(w: World)
    ensures Aside(w, StopNews(w))
  {
  }

  lemma StopDisplayChannel(w: World, o: Outcomes)
    ensures Aside(w, StopDisplay(w, o).w)
  {
  }

  lemma StartAlertChannel(w: World)
    requires w.s.alerts != []
    ensures Aside(w, StartAlert(PopHead(w), w.s.alerts[0]))
  {
  }

  lemma StartNewsChannel(w: World)
    requires !w.s.newsRunning
    ensures Begun(w, StartNews(w))
  {
  }

  lemma TurnOffChannel(w: World, o: Outcomes)
    ensures Aside(w, TurnOff(w, o).w)
  {
    hide CancelAll, StopDisplay;
    CancelAllChannel(w, true);
    StopDisplayChannel(CancelAll(w, true), o);
  }

  lemma UseDisplayChannel(w: World, o: Outcomes)
    ensures Begun(w, UseDisplay(w, o).w) || Aside(w, UseDisplay(w, o).w)
  {
    hide StopNews, StartNews, StartAlert, StopDisplay;
    if w.s.alertRunning {
    } else if w.s.alerts != [] {
      if w.s.newsRunning {
        StopNewsChannel(w);
      } else {
        StartAlertChannel(w);
      }
    } else if w.s.temporary {
      StopDisplayChannel(w.(s := w.s.(temporary := false)), o);
    } else if !w.s.newsRunning {
      StartNewsChannel(w);
    }
  }

  /** Reconcile leaves the channel and the worker alone, or starts a worker. */
  lemma ReconcileChannel(w: World, o: Outcomes)
    ensures Begun(w, Reconciled(w, o).w) || Aside(w, Reconciled(w, o).w)
  {
    hide StartDisplay, UseDisplay, TurnOff;
    StartDisplayFrame(w, o);
    TurnOffChannel(w, o);
    TurnOffFrame(w, o);
    UseDisplayChannel(w, o);
    UseDisplayChannel(StartDisplay(w, o).w, o);
  }

  lemma HandleChannel(w: World, c: Command, expired: bool, o: Outcomes)
    requires Open(w) && Deliverable(w, c) && w.e.news.NewsLive?
    ensures var w' := Handle(w, c, expired, o).w;
            && SameOrCancelled(w.e.news, w'.e.news)
            && w'.e.link == (if !expired && (c.NewsChanged? || c.NewsPass?) && !w.s.newsStopping
                             then NW.Offer(w.e.link) else w.e.link)
  {
    hide Handle, Reconciled, Switch, Exit, Histories, Channel;
    HandleCases(w, c, expired, o);
    var w0 := w.(e := Receive(w.e, c));
    if !expired || c.Internal() {
      SwitchChannel(w0, c);
      SwitchKeepsInvariant(w, c);
      var out := Switch(w0, c);
      if out.Fall? {
        assert out.w.s.newsRunning;
        ReconcileChannel(out.w, o);
        ExitFrame(Reconciled(out.w, o).w, o);
      }
    }
  }

  /** What a command that reaches reconcile does to the channel, and to the worker if it starts
      one. */
  lemma FallLink(w: World, c: Command, o: Outcomes)
    ensures var out := Switch(w, c).w; var w' := Reconciled(out, o).w;
            && w'.e.link == out.e.link
            && (w'.s.newsRun != w.s.newsRun ==>
                  w'.e.link == w.e.link && w'.e.news.NewsLive? && w'.e.news.worker == NW.NEW_WORKER)
  {
    hide Reconciled, Switch;
    SwitchChannel(w, c);
    SwitchFrame(w, c);
    ReconcileChannel(Switch(w, c).w, o);
    if c.NewsChanged? || c.NewsPass? {
      SignalKeepsFlag(w, c);
    }
  }

  /** What one command does to the channel, and to the worker if it starts one. */
  lemma HandleLink(w: World, c: Command, expired: bool, o: Outcomes)
    ensures var w' := Handle(w, c, expired, o).w;
            && w'.e.link == (if !expired && (c.NewsChanged? || c.NewsPass?) && w.s.newsRunning && !w.s.newsStopping
                             then NW.Offer(w.e.link) else w.e.link)
            && (w'.s.newsRun != w.s.newsRun ==>
                  w'.e.link == w.e.link && w'.e.news.NewsLive? && w'.e.news.worker == NW.NEW_WORKER)
  {
    hide Handle, Reconciled, Switch, Exit;
    HandleCases(w, c, expired, o);
    var w0 := w.(e := Receive(w.e, c));
    if !expired || c.Internal() {
      SwitchChannel(w0, c);
      SwitchFrame(w0, c);
      FallLink(w0, c, o);
      ExitFrame(Reconciled(Switch(w0, c).w, o).w, o);
    }
  }

  lemma SignalKeepsFlag(w: World, c: Command)
    requires c.NewsChanged? || c.NewsPass?
    ensures Switch(w, c).w.s == w.s
  {
  }

  /** The supervisor's part of the promise: an unexpired request for a pass leaves a signal in the
      channel, its own or the one it merged into, exactly if the news flag is set and the worker
      is not stopping; at any other time the channel is left alone. */
  lemma RequestsAreForwarded(w: World, c: Command, o: Outcomes)
    requires Open(w) && (c.NewsChanged? || c.NewsPass?)
    ensures var w' := Handle(w, c, false, o).w;
            if w.s.newsRunning && !w.s.newsStopping
            then w'.e.link == NW.Offer(w.e.link) && w'.e.link.token
            else w'.e.link == w.e.link
  {
    HandleLink(w, c, false, o);
  }

  /** A pass is then due if the worker is live. If it has returned and its message is still under
      way, nobody owes the pass: the signal waits in the channel for the next worker. */
  lemma ForwardedIsDue(w: World, c: Command, o: Outcomes)
    requires Open(w) && (c.NewsChanged? || c.NewsPass?) && w.s.newsRunning && !w.s.newsStopping
    ensures var w' := Handle(w, c, false, o).w;
            if w.e.news.NewsLive? then w'.e.news.NewsLive? && NW.Due(w'.e.news.worker, w'.e.link)
            else w'.e.news.NoNews? && w'.e.link.token
  {
    hide Handle, Histories, Ledger, Channel;
    HandleLink(w, c, false, o);
    if w.e.news.NewsLive? {
      HandleChannel(w, c, false, o);
    } else {
      StaysRunning(w, c, o);
      HandleNoRevival(w, c, false, o);
    }
  }

  lemma StaysRunning(w: World, c: Command, o: Outcomes)
    requires Open(w) && (c.NewsChanged? || c.NewsPass?) && w.s.newsRunning
    ensures Handle(w, c, false, o).w.s.newsRun == w.s.newsRun
  {
    hide Handle, Reconciled, Exit, Histories, Channel;
    HandleCases(w, c, false, o);
    assert w.(e := Receive(w.e, c)) == w;
    ReconcileFrame(Switch(w, c).w, o);
    ExitFrame(Reconciled(Switch(w, c).w, o).w, o);
  }

  /** A worker is not always started idle: it owes a pass from the beginning if and only if a signal
      was left in the channel. */
  lemma NewWorkerOwesIff(w: World, ev: Event)
    requires Open(w) && Next(w, ev).Some? && Next(w, ev).value.s.newsRun != w.s.newsRun
    ensures var w' := Next(w, ev).value;
            && w'.e.news.NewsLive? && w'.e.news.worker == NW.NEW_WORKER && w'.e.link == w.e.link
            && (NW.Due(w'.e.news.worker, w'.e.link) <==> w.e.link.token)
            && NW.Owed(w'.e.news.worker, w'.e.link) == NW.One(w.e.link.token)
  {
    match ev
    case Request(c, expired, o) => HandleLink(w, c, expired, o);
    case Deliver(c, o) => HandleLink(w, c, false, o);
    case _ =>
  }

  /** What an event of the system is to the news worker. */
  function MoveOf(ev: Event): seq<NW.Move> {
    if ev.NewsAct? then [NW.Act(ev.a)] else if IsSignal(ev) then [NW.Signal] else []
  }

  function MovesOf(evs: seq<Event>): seq<NW.Move> {
    if evs == [] then [] else MoveOf(evs[0]) + MovesOf(evs[1..])
  }

  lemma PlayOne(setup: NW.Setup, p: NW.Position, m: NW.Move, rest: seq<NW.Move>)
    ensures NW.Play(setup, p, [m] + rest)
            == (match NW.Play(setup, p, [m]) case None => None case Some(q) => NW.Play(setup, q, rest))
  {
    assert ([m] + rest)[1..] == rest;
    assert [m][1..] == [];
  }

  /** One event, seen by a worker that goes on working. */
  lemma NextSeen(w: World, ev: Event, run: nat)
    requires Open(w) && Next(w, ev).Some? && Working(w, run) && Working(Next(w, ev).value, run)
    ensures NW.Play(w.cfg.worker, Seen(w), MoveOf(ev)) == Some(Seen(Next(w, ev).value))
    ensures Next(w, ev).value.cfg == w.cfg
  {
    match ev
    case Request(c, expired, o) =>
      HandleChannel(w, c, expired, o);
      HandleConfig(w, c, expired, o);
      assert MoveOf(ev) == [NW.Signal] ==> MoveOf(ev)[1..] == [];
    case Deliver(c, o) =>
      HandleChannel(w, c, false, o);
      HandleConfig(w, c, false, o);
    case NewsAct(a) => assert [NW.Act(a)][1..] == [];
    case _ =>
  }

  lemma HandleConfig(w: World, c: Command, expired: bool, o: Outcomes)
    ensures Handle(w, c, expired, o).w.cfg == w.cfg
  {
    HandleCases(w, c, expired, o);
    var w0 := w.(e := Receive(w.e, c));
    SwitchFrame(w0, c);
    ReconcileFrame(Switch(w0, c).w, o);
    ExitFrame(Reconciled(Switch(w0, c).w, o).w, o);
  }

  /** A worker that has been told to stop, or is gone, never works again. */
  lemma NextNeverRevives(w: World, ev: Event, run: nat)
    requires Open(w) && Next(w, ev).Some? && run <= w.s.newsRun && !Working(w, run)
    ensures run <= Next(w, ev).value.s.newsRun && !Working(Next(w, ev).value, run)
  {
    hide Handle, Histories, Channel;
    NextRuns(w, ev);
    NextKeeps(w, ev);
    var w' := Next(w, ev).value;
    if w.e.news.NewsLive? {
      match ev
      case Request(c, expired, o) => HandleChannel(w, c, expired, o);
      case Deliver(c, o) => HandleChannel(w, c, false, o);
      case _ =>
    } else if w'.s.newsRun == w.s.newsRun && (ev.Request? || ev.Deliver?) {
      HandleNoRevival(w, ev.c, ev.Request? && ev.expired, ev.o);
    }
  }

  /** A handler makes a worker live only together with a new run number. */
  lemma HandleNoRevival(w: World, c: Command, expired: bool, o: Outcomes)
    requires Open(w) && Deliverable(w, c) && w.e.news.NoNews?
    requires Handle(w, c, expired, o).w.s.newsRun == w.s.newsRun
    ensures Handle(w, c, expired, o).w.e.news.NoNews?
  {
    hide Handle, Reconciled, Switch, Exit, Histories, Channel;
    HandleCases(w, c, expired, o);
    if !expired || c.Internal() {
      var w0 := w.(e := Receive(w.e, c));
      SwitchChannel(w0, c);
      SwitchFrame(w0, c);
      var out := Switch(w0, c);
      if out.Fall? {
        ReconcileChannel(out.w, o);
        ExitFrame(Reconciled(out.w, o).w, o);
      }
    }
  }

  lemma {:induction false} NeverRevives(w: World, evs: seq<Event>, run: nat)
    requires Inv(w) && Exec(w, evs).Some? && run <= w.s.newsRun && !Working(w, run)
    ensures !Working(Exec(w, evs).value, run)
    decreases |evs|
  {
    hide Next;
    if evs != [] {
      NextFromOpen(w, evs[0]);
      NextNeverRevives(w, evs[0], run);
      NextKeeps(w, evs[0]);
      NeverRevives(Next(w, evs[0]).value, evs[1..], run);
    }
  }

  /** As long as one worker keeps working, the system's run is to it a history of its own
      steps and of signals. */
  lemma {:induction false} RunSeen(w: World, evs: seq<Event>, run: nat)
    requires Inv(w) && Exec(w, evs).Some? && Working(w, run) && Working(Exec(w, evs).value, run)
    ensures NW.Play(w.cfg.worker, Seen(w), MovesOf(evs)) == Some(Seen(Exec(w, evs).value))
    decreases |evs|
  {
    hide Next, Inv;
    if evs != [] {
      var w1 := Next(w, evs[0]).value;
      NextFromOpen(w, evs[0]);
      NextKeeps(w, evs[0]);
      if !Working(w1, run) {
        NextRuns(w, evs[0]);
        NeverRevives(w1, evs[1..], run);
      }
      NextSeen(w, evs[0], run);
      RunSeen(w1, evs[1..], run);
      if MoveOf(evs[0]) == [] {
        assert MovesOf(evs) == MovesOf(evs[1..]);
      } else {
        var m := MoveOf(evs[0])[0];
        assert MoveOf(evs[0]) == [m];
        PlayOne(w.cfg.worker, Seen(w), m, MovesOf(evs[1..]));
      }
    }
  }

  /** Refresh signals are neither lost nor multiplied. Take any run in which one news worker
      keeps working, beginning at a moment when a pass is due (for instance just after a
      request was forwarded): either a new pass has started, or the pass is still due and the
      worker has taken fewer steps than its distance plus the signals sent meanwhile. And the
      passes started never exceed those owed at the beginning plus the signals sent. */
  lemma SignalsAreServed(w: World, evs: seq<Event>, run: nat)
    requires Inv(w) && Exec(w, evs).Some? && Working(w, run) && Working(Exec(w, evs).value, run)
    requires NW.Due(w.e.news.worker, w.e.link) && !NW.Leaving(w.e.news.worker)
    ensures var p := Seen(w); var q := Seen(Exec(w, evs).value); var moves := MovesOf(evs);
            && (|| NW.Passes(q.link.paints) > NW.Passes(p.link.paints)
                || (NW.Due(q.worker, q.link)
                    && NW.Steps(moves) + NW.Distance(q.worker, q.link)
                       <= NW.Distance(p.worker, p.link) + NW.Signals(moves)))
            && NW.Passes(q.link.paints) + NW.Owed(q.worker, q.link)
               <= NW.Passes(p.link.paints) + NW.Owed(p.worker, p.link) + NW.Signals(moves)
  {
    RunSeen(w, evs, run);
    NW.SignalIsServed(w.cfg.worker, Seen(w), MovesOf(evs));
    NW.PassesBoundedBySignals(w.cfg.worker, Seen(w), MovesOf(evs));
  }

  /** Over every run, whatever workers came and went: every signal is taken at most once, no
      more passes start than signals were sent, and the clock is shown between any two passes. */
  lemma PassesNeverExceedSignals(cfg: Config, evs: seq<Event>)
    requires Exec(Initial(cfg), evs).Some?
    ensures var l := Exec(Initial(cfg), evs).value.e.link;
            && NW.Passes(l.paints) <= l.taken <= l.sent
            && (Exec(Initial(cfg), evs).value.cfg.worker.hasClock ==> NW.ClockBetweenPasses(l.paints))
  {
    EveryRunKeeps(cfg, evs);
  }
}
