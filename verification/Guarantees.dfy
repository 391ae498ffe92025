/** What the composed system promises, over every run. */
module Guarantees {
  import opened Supervisor
  import opened SupervisorInvariant
  import opened SupervisorLoop
  import opened Runs
  import NW = NewsWorkflow

  // ----- one painter -----

  function Painters(e: Env): nat {
    (if e.news.NewsLive? then NW.Painters(e.news.worker) else 0) + NW.One(e.alert.AlertLive?)
  }

  /** In every reachable state at most one of the clock, a news pass and an alert is drawing,
      and display.Start and display.Stop were only ever called while no worker was live. */
  lemma SinglePainter(cfg: Config, evs: seq<Event>)
    requires Exec(Initial(cfg), evs).Some?
    ensures var w := Exec(Initial(cfg), evs).value;
            && Painters(w.e) <= 1
            && !(w.e.news.NewsLive? && w.e.alert.AlertLive?)
            && (forall i :: 0 <= i < |w.e.calls| ==> w.e.calls[i].quiet)
            && (Painters(w.e) > 0 ==> OnAfter(w.e.calls))
  {
    EveryRunKeeps(cfg, evs);
    var w := Exec(Initial(cfg), evs).value;
    if w.e.news.NewsLive? {
      NW.OnePainter(w.e.news.worker);
    }
  }

  // ----- alerts are neither lost nor reordered -----

  /** The requests that cancel everything. */
  predicate Cancelling(ev: Event) {
    ev.Request? && CancelsAll(ev.c) && !ev.expired
  }

  /** The fates decided between two states. */
  function NewFates(w: World, w': World): seq<Resolved>
    requires |w.e.resolved| <= |w'.e.resolved|
  {
    w'.e.resolved[|w.e.resolved|..]
  }

  /** Nothing already logged changes. */
  ghost predicate LogsGrow(w: World, w': World) {
    w.e.accepted <= w'.e.accepted && w.e.resolved <= w'.e.resolved
  }

  predicate SameFates(w: World, w': World) {
    && w'.e.accepted == w.e.accepted && w'.e.resolved == w.e.resolved
    && w'.s.alerts == w.s.alerts && w'.s.alertRunning == w.s.alertRunning
  }

  /** The head of the queue has been started. */
  predicate HeadStarted(w: World, w': World) {
    && w.s.alerts != [] && !w.s.alertRunning && w'.s.alertRunning && w'.s.alerts == w.s.alerts[1..]
    && w'.e.accepted == w.e.accepted && w'.e.resolved == w.e.resolved + [Resolved(w.s.alerts[0], true)]
  }

  lemma StopNewsFates(w: World)
    ensures SameFates(w, StopNews(w))
  {
  }

  lemma StartNewsFates(w: World)
    ensures SameFates(w, StartNews(w))
  {
  }

  lemma StopDisplayFates(w: World, o: Outcomes)
    ensures SameFates(w, StopDisplay(w, o).w)
  {
  }

  lemma TurnOffFates(w: World, o: Outcomes)
    requires w.s.alerts == []
    ensures SameFates(w, TurnOff(w, o).w)
  {
    hide CancelAll, StopDisplay;
    CancelAllFields(w, true);
    CancelAllRuns(w);
    assert w.e.resolved + Drops([]) == w.e.resolved;
    StopDisplayFates(CancelAll(w, true), o);
  }

  lemma CancelAllRuns(w: World)
    ensures CancelAll(w, true).s.alertRunning == w.s.alertRunning
  {
  }

  lemma UseDisplayFates(w: World, o: Outcomes)
    ensures SameFates(w, UseDisplay(w, o).w) || HeadStarted(w, UseDisplay(w, o).w)
  {
    hide StopNews, StartNews, StopDisplay;
    if w.s.alertRunning {
    } else if w.s.alerts != [] {
      StopNewsFates(w);
    } else if w.s.temporary {
      StopDisplayFates(w.(s := w.s.(temporary := false)), o);
    } else {
      StartNewsFates(w);
    }
  }

  lemma ReconcileStartsHead(w: World, o: Outcomes)
    requires !w.s.shuttingDown && !WantDisplay(w.s) ==> w.s.alerts == []
    ensures SameFates(w, Reconciled(w, o).w) || HeadStarted(w, Reconciled(w, o).w)
  {
    hide TurnOff, UseDisplay, StartDisplay;
    StartDisplayFrame(w, o);
    UseDisplayFates(w, o);
    UseDisplayFates(StartDisplay(w, o).w, o);
    if !WantDisplay(w.s) && !w.s.shuttingDown {
      TurnOffFates(w, o);
    }
  }

  /** Reconcile starts at most the head of the queue and drops nothing: the cancelAll inside
      it always finds the queue empty. */
  lemma ReconcileFates(w: World, o: Outcomes)
    requires Mid(w)
    ensures var w' := Reconciled(w, o).w;
            && w'.e.accepted == w.e.accepted
            && (|| w'.e.resolved == w.e.resolved
                || (w.s.alerts != [] && !w.s.alertRunning && w'.s.alertRunning
                    && w'.e.resolved == w.e.resolved + [Resolved(w.s.alerts[0], true)]))
  {
    hide Reconciled;
    ReconcileStartsHead(w, o);
  }

  lemma StartDisplayFrame(w: World, o: Outcomes)
    ensures var w' := StartDisplay(w, o).w;
            && w'.cfg == w.cfg && w'.e == w.e.(calls := w'.e.calls)
            && w'.s.alerts == w.s.alerts && w'.s.alertRunning == w.s.alertRunning
            && w'.s.newsRun == w.s.newsRun && w'.s.alertRun == w.s.alertRun && w'.s.newsRunning == w.s.newsRunning
            && w'.s.temporary == w.s.temporary && w'.s.desiredOn == w.s.desiredOn
            && w'.s.shuttingDown == w.s.shuttingDown
  {
    hide TryStart;
    TryStartFrame(w.e, o.starts, w.cfg.startupRetries, 0, "<nil>");
  }

  lemma {:induction false} TryStartFrame(e: Env, starts: nat -> Attempt, n: nat, i: nat, last: string)
    ensures TryStart(e, starts, n, i, last).e == e.(calls := TryStart(e, starts, n, i, last).e.calls)
    decreases n - i
  {
    if i < n && starts(i).err.Some? && starts(i).waited {
      TryStartFrame(CallDisplay(e, true, false), starts, n, i + 1, starts(i).err.value);
    }
  }

  lemma SwitchFates(w: World, c: Command)
    ensures var w' := Switch(w, c).w;
            && (w'.e.accepted == w.e.accepted || (c.AddAlert? && w'.e.accepted == w.e.accepted + [c.item]))
            && w'.e.resolved == (if c.Shutdown? || c == Reconcile(false) || c.Stop?
                                 then w.e.resolved + Drops(w.s.alerts) else w.e.resolved)
            && (c.Shutdown? || c == Reconcile(false) || c.Stop? ==> w'.s.alerts == [])
  {
    hide CancelAll;
    if c.Shutdown? {
      CancelAllFields(w.(s := w.s.(desiredOn := false, forceStop := w.s.displayRunning)), true);
    } else if c == Reconcile(false) {
      CancelAllFields(w.(s := w.s.(desiredOn := false, forceStop := true)), true);
    } else if c.Stop? {
      CancelAllFields(Leaving(w), false);
    }
  }

  /** What one event may do to the queue of a world in state w. */
  ghost predicate FatesDecided(w: World, w': World, cancelling: bool) {
    && LogsGrow(w, w') && |w'.e.accepted| <= |w.e.accepted| + 1
    && (if cancelling then NewFates(w, w') == Drops(w.s.alerts) && w'.s.alerts == []
        else |NewFates(w, w')| <= 1 && AllStarted(NewFates(w, w')))
  }

  predicate AllStarted(fates: seq<Resolved>) {
    forall i :: 0 <= i < |fates| ==> fates[i].started
  }

  predicate CancelsAll(c: Command) {
    c.Shutdown? || c == Reconcile(false) || c.Stop?
  }

  lemma FallFates(w: World, c: Command, o: Outcomes)
    requires Open(w) && Deliverable(w, c)
    requires Switch(w.(e := Receive(w.e, c)), c).Fall?
    ensures FatesDecided(w, Reconciled(Switch(w.(e := Receive(w.e, c)), c).w, o).w, CancelsAll(c))
  {
    hide Switch, Reconciled, Ledger, Histories, Channel;
    var w0 := w.(e := Receive(w.e, c));
    SwitchFates(w0, c);
    SwitchKeepsInvariant(w, c);
    var w1 := Switch(w0, c).w;
    ReconcileFates(w1, o);
    assert w0.e.resolved == w.e.resolved && w0.e.accepted == w.e.accepted && w0.s == w.s;
    if CancelsAll(c) {
      ReconcileKeepsEmpty(w1, o);
    }
  }

  lemma ReconcileKeepsEmpty(w: World, o: Outcomes)
    requires w.s.alerts == []
    ensures Reconciled(w, o).w.s.alerts == []
  {
    hide Reconciled;
    ReconcileStartsHead(w, o);
  }

  lemma SkipFates(w: World, c: Command)
    requires Open(w) && Deliverable(w, c)
    requires Switch(w.(e := Receive(w.e, c)), c).Skip?
    ensures !CancelsAll(c) && FatesDecided(w, Switch(w.(e := Receive(w.e, c)), c).w, false)
  {
    SwitchFates(w.(e := Receive(w.e, c)), c);
  }

  lemma ExitFrame(w: World, o: Outcomes)
    ensures var w' := Exit(w, o);
            && w'.e == w.e.(calls := w'.e.calls, published := w'.e.published, exited := true)
            && w'.s.alerts == w.s.alerts && w'.cfg == w.cfg
            && w'.s.newsRun == w.s.newsRun && w'.s.alertRun == w.s.alertRun
            && w'.s.shuttingDown == w.s.shuttingDown
  {
  }

  /** Handle is one of: nothing, a skipped case, a reconciled case, or the end of the loop. */
  lemma HandleCases(w: World, c: Command, expired: bool, o: Outcomes)
    ensures var w' := Handle(w, c, expired, o).w;
            var w0 := w.(e := Receive(w.e, c));
            if expired && !c.Internal() then w' == w0
            else var out := Switch(w0, c);
              if out.Skip? then w' == out.w
              else var r := Reconciled(out.w, o).w; w' == if Finishing(r.s) then Exit(r, o) else r
  {
  }

  lemma HandleFates(w: World, c: Command, expired: bool, o: Outcomes)
    requires Open(w) && Deliverable(w, c)
    ensures FatesDecided(w, Handle(w, c, expired, o).w, CancelsAll(c) && !expired)
  {
    hide Handle, Switch, Reconciled, Exit, Open;
    HandleCases(w, c, expired, o);
    if !expired || c.Internal() {
      var out := Switch(w.(e := Receive(w.e, c)), c);
      if out.Fall? {
        FallFates(w, c, o);
        ExitFrame(Reconciled(out.w, o).w, o);
      } else {
        SkipFates(w, c);
      }
    }
  }

  /** One event decides the fate of waiting alerts as promised: a cancelling request drops all
      of them; any other event starts at most one, drops none, and accepts at most one. */
  lemma NextFates(w: World, ev: Event)
    requires Open(w) && Next(w, ev).Some?
    ensures FatesDecided(w, Next(w, ev).value, Cancelling(ev))
  {
    hide Handle, Ledger, Histories, Channel;
    match ev
    case Request(c, expired, o) => HandleFates(w, c, expired, o);
    case Deliver(c, o) => HandleFates(w, c, false, o);
    case _ =>
  }

  lemma FatesAdd(w: World, w1: World, w': World)
    requires LogsGrow(w, w1) && LogsGrow(w1, w') && AllStarted(NewFates(w, w1)) && AllStarted(NewFates(w1, w'))
    ensures LogsGrow(w, w') && AllStarted(NewFates(w, w'))
  {
    assert NewFates(w, w') == NewFates(w, w1) + NewFates(w1, w');
  }

  lemma {:induction false} OnlyStarts(w: World, evs: seq<Event>)
    requires Inv(w) && Exec(w, evs).Some?
    requires forall i :: 0 <= i < |evs| ==> !Cancelling(evs[i])
    ensures LogsGrow(w, Exec(w, evs).value) && AllStarted(NewFates(w, Exec(w, evs).value))
    decreases |evs|
  {
    hide Next, Inv;
    if evs != [] {
      var w1 := Next(w, evs[0]).value;
      var w' := Exec(w, evs).value;
      NextFromOpen(w, evs[0]);
      NextFates(w, evs[0]);
      NextKeeps(w, evs[0]);
      OnlyStarts(w1, evs[1..]);
      FatesAdd(w, w1, w');
    }
  }

  /** While nothing is cancelled no alert is lost: the alerts waiting at the beginning and
      those accepted since are those started since, in the same order, followed by those
      still waiting. */
  lemma NoCancellationNoLoss(w: World, evs: seq<Event>)
    requires Inv(w) && Exec(w, evs).Some?
    requires forall i :: 0 <= i < |evs| ==> !Cancelling(evs[i])
    ensures var w' := Exec(w, evs).value;
            && LogsGrow(w, w')
            && AllStarted(NewFates(w, w'))
            && w.s.alerts + w'.e.accepted[|w.e.accepted|..] == Items(NewFates(w, w')) + w'.s.alerts
  {
    var w' := Exec(w, evs).value;
    OnlyStarts(w, evs);
    ExecKeeps(w, evs);
    Balance(w.e.accepted, w.e.resolved, w.s.alerts, w'.e.accepted, w'.e.resolved, w'.s.alerts);
  }

  /** The arithmetic of two balanced ledgers, one extending the other. */
  lemma Balance(accepted: seq<Alert>, resolved: seq<Resolved>, waiting: seq<Alert>,
                accepted': seq<Alert>, resolved': seq<Resolved>, waiting': seq<Alert>)
    requires accepted == Items(resolved) + waiting && accepted' == Items(resolved') + waiting'
    requires accepted <= accepted' && resolved <= resolved'
    ensures waiting + accepted'[|accepted|..] == Items(resolved'[|resolved|..]) + waiting'
  {
    var fates := resolved'[|resolved|..];
    assert resolved' == resolved + fates;
    ItemsAppend(resolved, fates);
    assert waiting + accepted'[|accepted|..] == accepted'[|resolved|..];
    assert Items(fates) + waiting' == accepted'[|resolved|..];
  }

  /** Over every run, each accepted alert has exactly one fate (started or dropped) or is
      waiting, fates are decided in the order of acceptance, and the presenter is asked to
      show exactly the started alerts in that order. */
  lemma AlertsConserved(cfg: Config, evs: seq<Event>)
    requires Exec(Initial(cfg), evs).Some?
    ensures var w := Exec(Initial(cfg), evs).value;
            && w.e.accepted == Items(w.e.resolved) + w.s.alerts
            && Shown(w.e.presented) == StartedItems(w.e.resolved)
  {
    EveryRunKeeps(cfg, evs);
  }

  lemma {:induction false} LogsGrowAlongRuns(w: World, evs: seq<Event>)
    requires Inv(w) && Exec(w, evs).Some?
    ensures LogsGrow(w, Exec(w, evs).value)
    decreases |evs|
  {
    hide Next;
    if evs != [] {
      NextFromOpen(w, evs[0]);
      NextFates(w, evs[0]);
      NextKeeps(w, evs[0]);
      LogsGrowAlongRuns(Next(w, evs[0]).value, evs[1..]);
    }
  }

  /** Acknowledged as displaying, an alert joins an empty queue: every alert accepted before it
      has had its fate decided. */
  lemma DisplayingIsHead(w: World, item: Alert, o: Outcomes)
    requires Open(w) && Handle(w, AddAlert(item), false, o).reply == Added(item.operationId, true)
    ensures var w1 := Next(w, Request(AddAlert(item), false, o)).value;
            w1.e.accepted == w.e.accepted + [item] && |w.e.accepted| == |w.e.resolved|
  {
    hide Handle, Reconciled, OnAddAlert, Channel;
    DisplayingMeansEmpty(w, item, o);
    NextKeeps(w, Request(AddAlert(item), false, o));
    SwitchFates(w, AddAlert(item));
    SwitchKeepsInvariant(w, AddAlert(item));
    ReconcileFates(Switch(w, AddAlert(item)).w, o);
    HandleCases(w, AddAlert(item), false, o);
    ExitFrame(Reconciled(Switch(w, AddAlert(item)).w, o).w, o);
    assert |Items(w.e.resolved)| == |w.e.resolved|;
  }

  lemma DisplayingMeansEmpty(w: World, item: Alert, o: Outcomes)
    requires Handle(w, AddAlert(item), false, o).reply == Added(item.operationId, true)
    ensures w.s.alerts == [] && w.(e := Receive(w.e, AddAlert(item))) == w
    ensures var out := Switch(w, AddAlert(item)); out.Fall? && out.w.e.accepted == w.e.accepted + [item]
  {
    hide Reconciled, StopNews;
    StopNewsFates(Appended(w, item));
  }

  /** An alert acknowledged as displaying is the very next one whose fate is decided: in every
      continuation, no other alert is started before it. */
  lemma DisplayingIsNext(w: World, item: Alert, o: Outcomes, evs: seq<Event>)
    requires Open(w) && Handle(w, AddAlert(item), false, o).reply == Added(item.operationId, true)
    requires Exec(w, [Request(AddAlert(item), false, o)] + evs).Some?
    ensures var w' := Exec(w, [Request(AddAlert(item), false, o)] + evs).value;
            |w'.e.resolved| > |w.e.resolved| ==> w'.e.resolved[|w.e.resolved|].item == item
  {
    var ev := Request(AddAlert(item), false, o);
    var w1 := Next(w, ev).value;
    assert ([ev] + evs)[1..] == evs;
    DisplayingIsHead(w, item, o);
    NextKeeps(w, ev);
    FirstFate(w1, evs, |w.e.accepted|);
  }

  /** The n-th fate is that of the n-th accepted alert. */
  lemma FirstFate(w: World, evs: seq<Event>, n: nat)
    requires Inv(w) && Exec(w, evs).Some? && n < |w.e.accepted|
    ensures var w' := Exec(w, evs).value;
            |w'.e.resolved| > n ==> w'.e.resolved[n].item == w.e.accepted[n]
  {
    var w' := Exec(w, evs).value;
    LogsGrowAlongRuns(w, evs);
    ExecKeeps(w, evs);
    if |w'.e.resolved| > n {
      assert w'.e.accepted[n] == w.e.accepted[n];
      assert Items(w'.e.resolved)[n] == w'.e.resolved[n].item;
    }
  }

  /** Over every run the queue respects its capacity and the reported length leaves out the
      head that owns the pending transition. */
  lemma CapacityRespected(cfg: Config, evs: seq<Event>)
    requires Exec(Initial(cfg), evs).Some?
    ensures var w := Exec(Initial(cfg), evs).value;
            w.e.exited || (WithinCapacity(w.cfg, w.s) && w.s.queuedAlerts == QueueLength(w.s))
  {
    EveryRunKeeps(cfg, evs);
  }
}
