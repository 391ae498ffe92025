/** The lifecycle supervisor as functions on values: what each command does to the
    supervisor's own record and to the world it acts on (goroutines, timers, the refresh
    channel, the display). The class in SupervisorObject.dfy is proved to do the same, and
    SupervisorInvariant.dfy and Runs.dfy prove what every run of it keeps. */
module Supervisor {
  import opened Common
  import NW = NewsWorkflow
  import AlertRun

  type Alert = AlertRun.Alert

  datatype Config = Config(alertQueueCapacity: int, allowOutside: bool, startupRetries: nat, worker: NW.Setup)

  datatype Lifecycle = Off | Starting | Running | Pausing | Alerting | Stopping | Failed

  /** The part of the record a snapshot reports (without its timestamps). */
  datatype State = State(
    lifecycle: Lifecycle, desiredOn: bool, displayRunning: bool, newsRunning: bool, alertRunning: bool,
    queuedAlerts: int, currentAlert: string, lastError: string)

  /** internalState: a cancel function is represented by the run it cancels. */
  datatype Record = Record(
    lifecycle: Lifecycle, desiredOn: bool, displayRunning: bool, newsRunning: bool, alertRunning: bool,
    queuedAlerts: int, currentAlert: string, lastError: string,
    newsCancel: Option<nat>, alertCancel: Option<nat>, alerts: seq<Alert>, newsRun: nat, alertRun: nat,
    newsFailures: nat, shuttingDown: bool, temporary: bool, newsStopping: bool, forceStop: bool)

  const NEW_RECORD := Record(Off, false, false, false, false, 0, "", "",
                            None, None, [], 0, 0, 0, false, false, false, false)

  function Public(s: Record): State {
    State(s.lifecycle, s.desiredOn, s.displayRunning, s.newsRunning, s.alertRunning,
          s.queuedAlerts, s.currentAlert, s.lastError)
  }

  /** Everything the loop receives; the last four come from its own goroutines and timers. */
  datatype Command =
    | Start
    | Shutdown
    | AddAlert(item: Alert)
    | NewsChanged
    | NewsPass
    | Reconcile(desired: bool)
    | Snapshot
    | Stop
    | NewsStopped(run: nat, err: RunError)
    | AlertFinished(run: nat, err: RunError)
    | NewsStopTimedOut(run: nat)
    | NewsRetry(run: nat)
  {
    predicate Internal() {
      NewsStopped? || AlertFinished? || NewsStopTimedOut? || NewsRetry?
    }
  }

  datatype NewsProcess = NoNews | NewsLive(run: nat, cancelled: bool, worker: NW.Worker)

  datatype AlertProcess = NoAlert | AlertLive(run: nat, cancelled: bool, item: Alert, stage: AlertRun.Stage)

  /** A call of display.Start or display.Stop; `quiet` says that no worker was live. */
  datatype DisplayCall = DisplayCall(start: bool, ok: bool, quiet: bool)

  /** What became of an accepted alert that is no longer waiting. */
  datatype Resolved = Resolved(item: Alert, started: bool)

  /** The world: goroutines, armed timers and sent messages (a bag, since they arrive in any
      order), the refresh channel, and the histories the properties are about. */
  datatype Env = Env(
    news: NewsProcess, alert: AlertProcess, mail: multiset<Command>, link: NW.Link, appCancelled: bool,
    calls: seq<DisplayCall>, accepted: seq<Alert>, resolved: seq<Resolved>,
    presented: seq<AlertRun.Presenter>, published: seq<Option<string>>, exited: bool)

  const NEW_ENV := Env(NoNews, NoAlert, multiset{}, NW.NEW_LINK, false, [], [], [], [], [], false)

  datatype World = World(cfg: Config, s: Record, e: Env)

  function Initial(cfg: Config): World {
    World(cfg, NEW_RECORD, NEW_ENV)
  }

  /** What the display does when called during one command: the result of each attempt to
      start it, whether the pause after a failed attempt ran to its end, and the result of Stop. */
  datatype Attempt = Attempt(err: Option<string>, waited: bool)
  datatype Outcomes = Outcomes(starts: nat -> Attempt, stop: Option<string>)

  datatype Reply =
    | NoReply
    | Expired
    | Refused(reason: Refusal)
    | Added(operationId: string, displaying: bool)
    | Snapped(state: State)
    | Reported(state: State, err: Option<string>)
    | Accepted

  datatype Refusal = ErrShuttingDown | ErrOutsideActiveWindow | ErrQueueFull

  // ----- goroutines and the display -----

  function CancelNews(e: Env, cancel: Option<nat>): Env {
    if cancel.Some? && e.news.NewsLive? && e.news.run == cancel.value
    then e.(news := e.news.(cancelled := true))
    else e
  }

  function CancelAlert(e: Env, cancel: Option<nat>): Env {
    if cancel.Some? && e.alert.AlertLive? && e.alert.run == cancel.value
    then e.(alert := e.alert.(cancelled := true))
    else e
  }

  /** The application context ends: every context derived from it does. */
  function CancelApp(e: Env): Env {
    e.(appCancelled := true,
       news := if e.news.NewsLive? then e.news.(cancelled := true) else e.news,
       alert := if e.alert.AlertLive? then e.alert.(cancelled := true) else e.alert)
  }

  function Post(e: Env, c: Command): Env {
    e.(mail := e.mail + multiset{c})
  }

  predicate Quiet(e: Env) {
    e.news.NoNews? && e.alert.NoAlert?
  }

  function CallDisplay(e: Env, start: bool, ok: bool): Env {
    e.(calls := e.calls + [DisplayCall(start, ok, Quiet(e))])
  }

  datatype Tried = Tried(ok: bool, e: Env, message: string)

  /** The retry loop of startDisplay from attempt i on. */
  function TryStart(e: Env, starts: nat -> Attempt, n: nat, i: nat, last: string): Tried
    decreases n - i
  {
    if i >= n then Tried(false, e, last)
    else match starts(i).err
      case None => Tried(true, CallDisplay(e, true, true), last)
      case Some(m) =>
        var e' := CallDisplay(e, true, false);
        if starts(i).waited then TryStart(e', starts, n, i + 1, m) else Tried(false, e', m)
  }

  datatype Attempted = Attempted(w: World, err: Option<string>)

  function StartDisplay(w: World, o: Outcomes): Attempted {
    var t := TryStart(w.e, o.starts, w.cfg.startupRetries, 0, "<nil>");
    if t.ok then Attempted(w.(s := w.s.(lifecycle := Starting, displayRunning := true), e := t.e), None)
    else
      var message := "start display: " + t.message;
      Attempted(w.(s := w.s.(lifecycle := Failed, lastError := message), e := t.e), Some(message))
  }

  function StopDisplay(w: World, o: Outcomes): Attempted {
    match o.stop
    case None =>
      Attempted(w.(s := w.s.(displayRunning := false, forceStop := false), e := CallDisplay(w.e, false, true)), None)
    case Some(m) =>
      Attempted(w.(s := w.s.(lifecycle := Failed, lastError := m), e := CallDisplay(w.e, false, false)), Some(m))
  }

  function StartNews(w: World): World {
    if w.s.newsRunning then w
    else
      var run := w.s.newsRun + 1;
      w.(s := w.s.(newsCancel := Some(run), newsRun := run, newsRunning := true, newsStopping := false,
                   lifecycle := Running),
         e := w.e.(news := NewsLive(run, w.e.appCancelled, NW.NEW_WORKER)))
  }

  function StopNews(w: World): World {
    if !w.s.newsRunning || w.s.newsStopping then w
    else
      w.(s := w.s.(newsStopping := true, lifecycle := Pausing),
         e := Post(CancelNews(w.e, w.s.newsCancel), NewsStopTimedOut(w.s.newsRun)))
  }

  function StartAlert(w: World, item: Alert): World {
    var run := w.s.alertRun + 1;
    w.(s := w.s.(alertCancel := Some(run), alertRun := run, alertRunning := true,
                 currentAlert := item.operationId, lifecycle := Alerting),
       e := w.e.(alert := AlertLive(run, w.e.appCancelled, item, AlertRun.Showing),
                 presented := w.e.presented + [AlertRun.Show(item)],
                 resolved := w.e.resolved + [Resolved(item, true)]))
  }

  function Drops(alerts: seq<Alert>): seq<Resolved> {
    seq(|alerts|, i requires 0 <= i < |alerts| => Resolved(alerts[i], false))
  }

  function CancelAll(w: World, scheduled: bool): World {
    var w1 := if w.s.newsCancel.Some? then StopNews(w) else w;
    w1.(s := w1.s.(alerts := [], queuedAlerts := 0, temporary := false,
                   lifecycle := if scheduled then Stopping else w1.s.lifecycle),
        e := CancelAlert(w1.e, w1.s.alertCancel).(resolved := w1.e.resolved + Drops(w1.s.alerts)))
  }

  // ----- reconcile -----

  predicate WantDisplay(s: Record) {
    s.desiredOn || (s.temporary && (s.alertRunning || s.alerts != []))
  }

  function TurnOff(w: World, o: Outcomes): Attempted {
    var w1 := CancelAll(w, true);
    if w1.s.newsRunning || w1.s.alertRunning then Attempted(w1, None)
    else if w1.s.displayRunning || w1.s.forceStop then
      var stopped := StopDisplay(w1, o);
      if stopped.err.Some? then stopped
      else Attempted(stopped.w.(s := stopped.w.s.(lifecycle := Off)), None)
    else Attempted(w1.(s := w1.s.(lifecycle := Off)), None)
  }

  /** The part of reconcile that runs with the display on. */
  function UseDisplay(w: World, o: Outcomes): Attempted {
    if w.s.alertRunning then Attempted(w.(s := w.s.(lifecycle := Alerting)), None)
    else if w.s.alerts != [] then
      if w.s.newsRunning then
        var w1 := StopNews(w);
        Attempted(w1.(s := w1.s.(lifecycle := Pausing)), None)
      else
        var item := w.s.alerts[0];
        var w1 := w.(s := w.s.(alerts := w.s.alerts[1..], queuedAlerts := |w.s.alerts| - 1));
        Attempted(StartAlert(w1, item), None)
    else if w.s.temporary then
      var stopped := StopDisplay(w.(s := w.s.(temporary := false)), o);
      if stopped.err.Some? then stopped
      else Attempted(stopped.w.(s := stopped.w.s.(lifecycle := Off)), None)
    else if w.s.desiredOn && !w.s.newsRunning then Attempted(StartNews(w), None)
    else Attempted(w, None)
  }

  function Reconciled(w: World, o: Outcomes): Attempted {
    if w.s.shuttingDown then Attempted(w, None)
    else if !WantDisplay(w.s) then TurnOff(w, o)
    else if w.s.displayRunning then UseDisplay(w, o)
    else
      var started := StartDisplay(w, o);
      if started.err.Some? then started else UseDisplay(started.w, o)
  }

  // ----- the command switch -----

  /** A case of the switch either ends in `continue` or falls through to reconcile. */
  datatype Switched = Skip(w: World, reply: Reply) | Fall(w: World, reply: Reply)

  function OnAddAlert(w: World, item: Alert): Switched {
    if w.s.shuttingDown then Skip(w, Refused(ErrShuttingDown))
    else if !w.s.desiredOn && !w.cfg.allowOutside then Skip(w, Refused(ErrOutsideActiveWindow))
    else
      var waiting := |w.s.alerts|;
      var headPending := !w.s.alertRunning && waiting > 0;
      if waiting - (if headPending then 1 else 0) >= w.cfg.alertQueueCapacity
      then Skip(w, Refused(ErrQueueFull))
      else
        var alerts := w.s.alerts + [item];
        var w1 := w.(s := w.s.(alerts := alerts,
                               queuedAlerts := if w.s.alertRunning then |alerts| else |alerts| - 1,
                               temporary := w.s.temporary || !w.s.desiredOn),
                     e := w.e.(accepted := w.e.accepted + [item]));
        Fall(StopNews(w1), Added(item.operationId, !w.s.alertRunning && waiting == 0))
  }

  function OnNewsStopped(w: World, run: nat, err: RunError): Switched {
    if run != w.s.newsRun then Skip(w, NoReply)
    else
      var s1 := w.s.(newsRunning := false, newsStopping := false, newsCancel := None);
      if err.Real() && s1.desiredOn && !s1.shuttingDown then
        Skip(w.(s := s1.(lastError := err.message, newsFailures := s1.newsFailures + 1, lifecycle := Failed),
                e := Post(w.e, NewsRetry(run))), NoReply)
      else
        Fall(w.(s := s1.(lastError := if err.Real() then err.message else s1.lastError, newsFailures := 0)), NoReply)
  }

  function OnAlertFinished(w: World, run: nat, err: RunError): Switched {
    if run != w.s.alertRun then Skip(w, NoReply)
    else Fall(w.(s := w.s.(alertRunning := false, alertCancel := None, currentAlert := "",
                           lastError := if err.Real() then err.message else w.s.lastError)), NoReply)
  }

  function OnStop(w: World): World {
    var w1 := CancelAll(w.(s := w.s.(shuttingDown := true, desiredOn := false, forceStop := true)), false);
    w1.(e := CancelApp(w1.e))
  }

  function Switch(w: World, c: Command): Switched {
    match c
    case Start => Fall(w.(s := w.s.(desiredOn := true)), NoReply)
    case Shutdown =>
      Fall(CancelAll(w.(s := w.s.(desiredOn := false, forceStop := w.s.displayRunning)), true), NoReply)
    case Reconcile(desired) =>
      if desired then Fall(w.(s := w.s.(desiredOn := true)), NoReply)
      else Fall(CancelAll(w.(s := w.s.(desiredOn := false, forceStop := true)), true), NoReply)
    case NewsChanged => Fall(Signal(w), NoReply)
    case NewsPass => Fall(Signal(w), NoReply)
    case AddAlert(item) => OnAddAlert(w, item)
    case NewsStopped(run, err) => OnNewsStopped(w, run, err)
    case NewsStopTimedOut(run) =>
      if run == w.s.newsRun && w.s.newsRunning
      then Fall(w.(s := w.s.(lifecycle := Failed, lastError := "worker stop timeout")), NoReply)
      else Fall(w, NoReply)
    case NewsRetry(run) =>
      if run != w.s.newsRun || !w.s.desiredOn || w.s.shuttingDown || w.s.alertRunning || w.s.alerts != []
      then Skip(w, NoReply)
      else Fall(w, NoReply)
    case AlertFinished(run, err) => OnAlertFinished(w, run, err)
    case Snapshot => Skip(w, Snapped(Public(w.s)))
    case Stop => Fall(OnStop(w), Accepted)
  }

  function Signal(w: World): World {
    if w.s.newsRunning && !w.s.newsStopping then w.(e := w.e.(link := NW.Offer(w.e.link))) else w
  }

  datatype Handled = Handled(w: World, reply: Reply)

  /** Receiving takes an internal message out of the bag. */
  function Receive(e: Env, c: Command): Env {
    if c.Internal() then e.(mail := e.mail - multiset{c}) else e
  }

  predicate Finishing(s: Record) {
    s.shuttingDown && !s.newsRunning && !s.alertRunning
  }

  /** The end of the loop: the last display.Stop, the published result, and the return. */
  function Exit(w: World, o: Outcomes): World {
    var stopped := StopDisplay(w, o);
    stopped.w.(e := stopped.w.e.(published := stopped.w.e.published + [stopped.err], exited := true))
  }

  /** One iteration of the loop; `expired` says that the caller's context has ended. */
  function Handle(w: World, c: Command, expired: bool, o: Outcomes): Handled {
    var w0 := w.(e := Receive(w.e, c));
    if expired && !c.Internal() then Handled(w0, Expired)
    else match Switch(w0, c)
      case Skip(w1, reply) => Handled(w1, reply)
      case Fall(w1, reply) =>
        var r := Reconciled(w1, o);
        var reply' := if c.Start? || c.Shutdown? || c.Reconcile? || c.NewsChanged?
                      then Reported(Public(r.w.s), r.err) else reply;
        if Finishing(r.w.s) then Handled(Exit(r.w, o), reply') else Handled(r.w, reply')
  }
}
