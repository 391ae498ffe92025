/** The supervisor as the code has it: an object whose methods update its record and act on
    the world. Every method is proved to do exactly what its specification in Supervisor.dfy
    says, and one iteration of the loop keeps the system's invariant. */
module SupervisorObject {
  import opened Common
  import opened Supervisor
  import opened SupervisorInvariant
  import opened SupervisorLoop
  import NW = NewsWorkflow
  import AlertRun

  class Loop {
    const cfg: Config
    var st: Record
    var env: Env

    constructor (cfg: Config)
      ensures View() == Initial(cfg) && Inv(View())
    {
      this.cfg, st, env := cfg, NEW_RECORD, NEW_ENV;
      new;
      assert Items([]) == [];
    }

    function View(): World
      reads this
    {
      World(cfg, st, env)
    }

    /** The cancel function of a running worker can be called: it is not nil. */
    predicate Callable()
      reads this
    {
      st.newsRunning ==> st.newsCancel.Some?
    }

    /** The retry loop of startDisplay. */
    method TryToStart(o: Outcomes) returns (ok: bool, last: string)
      modifies this`env
      ensures var t := TryStart(old(env), o.starts, cfg.startupRetries, 0, "<nil>");
              env == t.e && ok == t.ok && last == t.message
    {
      last := "<nil>";
      var i := 0;
      while i < cfg.startupRetries
        invariant 0 <= i <= cfg.startupRetries
        invariant TryStart(old(env), o.starts, cfg.startupRetries, 0, "<nil>")
               == TryStart(env, o.starts, cfg.startupRetries, i, last)
      {
        var attempt := o.starts(i);
        env := CallDisplay(env, true, attempt.err.None?);
        if attempt.err.None? {
          return true, last;
        }
        last := attempt.err.value;
        if !attempt.waited {
          return false, last;
        }
        i := i + 1;
      }
      return false, last;
    }

    method StartDisplay(o: Outcomes) returns (err: Option<string>)
      modifies this
      ensures View() == Supervisor.StartDisplay(old(View()), o).w
      ensures err == Supervisor.StartDisplay(old(View()), o).err
    {
      hide TryStart;
      st := st.(lifecycle := Starting);
      var ok, last := TryToStart(o);
      if ok {
        st := st.(displayRunning := true);
        return None;
      }
      st := st.(lifecycle := Failed, lastError := "start display: " + last);
      return Some(st.lastError);
    }

    method StopDisplay(o: Outcomes) returns (err: Option<string>)
      modifies this
      ensures View() == Supervisor.StopDisplay(old(View()), o).w
      ensures err == Supervisor.StopDisplay(old(View()), o).err == o.stop
    {
      env := CallDisplay(env, false, o.stop.None?);
      if o.stop.Some? {
        st := st.(lastError := o.stop.value);
        st := st.(lifecycle := Failed);
        return o.stop;
      }
      st := st.(displayRunning := false);
      st := st.(forceStop := false);
      return None;
    }

    method StartNews()
      modifies this
      ensures View() == Supervisor.StartNews(old(View()))
    {
      if st.newsRunning {
        return;
      }
      st := st.(newsRun := st.newsRun + 1);
      st := st.(newsCancel := Some(st.newsRun));
      st := st.(newsRunning := true);
      st := st.(newsStopping := false);
      st := st.(lifecycle := Running);
      env := env.(news := NewsLive(st.newsRun, env.appCancelled, NW.NEW_WORKER));
    }

    method StopNews()
      requires Callable()
      modifies this
      ensures View() == Supervisor.StopNews(old(View())) && Callable()
    {
      if !st.newsRunning || st.newsStopping {
        return;
      }
      st := st.(newsStopping := true);
      st := st.(lifecycle := Pausing);
      env := CancelNews(env, Some(st.newsCancel.value));
      env := Post(env, NewsStopTimedOut(st.newsRun));
    }

    method StartAlert(item: Alert)
      modifies this
      ensures View() == Supervisor.StartAlert(old(View()), item)
    {
      st := st.(alertRun := st.alertRun + 1);
      st := st.(alertCancel := Some(st.alertRun));
      st := st.(alertRunning := true);
      st := st.(currentAlert := item.operationId);
      st := st.(lifecycle := Alerting);
      env := env.(alert := AlertLive(st.alertRun, env.appCancelled, item, AlertRun.Showing),
                  presented := env.presented + [AlertRun.Show(item)],
                  resolved := env.resolved + [Resolved(item, true)]);
    }

    method CancelAll(scheduled: bool)
      requires Callable()
      modifies this
      ensures View() == Supervisor.CancelAll(old(View()), scheduled) && Callable()
    {
      if st.newsCancel.Some? {
        StopNews();
      }
      DropAlerts(scheduled);
    }

    method DropAlerts(scheduled: bool)
      modifies this
      ensures st == old(st).(alerts := [], queuedAlerts := 0, temporary := false,
                             lifecycle := if scheduled then Stopping else old(st).lifecycle)
      ensures env == CancelAlert(old(env), old(st).alertCancel).(resolved := old(env).resolved + Drops(old(st).alerts))
    {
      if st.alertCancel.Some? {
        env := CancelAlert(env, st.alertCancel);
      }
      env := env.(resolved := env.resolved + Drops(st.alerts));
      st := st.(alerts := [], queuedAlerts := 0, temporary := false);
      if scheduled {
        st := st.(lifecycle := Stopping);
      }
    }

    /** The branch of reconcile for a display that is not wanted. */
    method TurnOff(o: Outcomes) returns (err: Option<string>)
      requires Callable()
      modifies this
      ensures View() == Supervisor.TurnOff(old(View()), o).w && err == Supervisor.TurnOff(old(View()), o).err
    {
      err := None;
      CancelAll(true);
      if st.newsRunning || st.alertRunning {
        return;
      }
      if st.displayRunning || st.forceStop {
        err := StopDisplay(o);
        if err.Some? {
          return;
        }
      }
      st := st.(lifecycle := Off);
    }

    /** The rest of reconcile, with the display on. */
    method UseDisplay(o: Outcomes) returns (err: Option<string>)
      requires Callable()
      modifies this
      ensures View() == Supervisor.UseDisplay(old(View()), o).w && err == Supervisor.UseDisplay(old(View()), o).err
    {
      hide Supervisor.StartNews, Supervisor.StartAlert, Supervisor.StopDisplay;
      err := None;
      if st.alertRunning {
        st := st.(lifecycle := Alerting);
        return;
      }
      if |st.alerts| > 0 {
        if st.newsRunning {
          if !st.newsStopping {
            StopNews();
          }
          st := st.(lifecycle := Pausing);
          return;
        }
        var item := st.alerts[0];
        st := st.(alerts := st.alerts[1..], queuedAlerts := |st.alerts| - 1);
        StartAlert(item);
        return;
      }
      if st.temporary {
        st := st.(temporary := false);
        err := StopDisplay(o);
        if err.None? {
          st := st.(lifecycle := Off);
        }
        return;
      }
      if st.desiredOn && !st.newsRunning {
        StartNews();
      }
    }

    method Reconcile(o: Outcomes) returns (err: Option<string>)
      requires Callable()
      modifies this
      ensures View() == Reconciled(old(View()), o).w && err == Reconciled(old(View()), o).err
    {
      if st.shuttingDown {
        return None;
      }
      var wantDisplay := st.desiredOn || (st.temporary && (st.alertRunning || |st.alerts| > 0));
      if !wantDisplay {
        err := TurnOff(o);
        return;
      }
      if !st.displayRunning {
        err := StartDisplay(o);
        if err.Some? {
          return;
        }
      }
      err := UseDisplay(o);
    }

    /** The cases of the command switch; `skip` is its `continue`. */
    method Dispatch(c: Command) returns (skip: bool, reply: Reply)
      requires Callable()
      modifies this
      ensures Callable()
      ensures View() == Switch(old(View()), c).w && reply == Switch(old(View()), c).reply
      ensures skip == Switch(old(View()), c).Skip?
    {
      skip, reply := false, NoReply;
      match c {
        case Start => st := st.(desiredOn := true);
        case Shutdown => Unwant(st.displayRunning);
        case Reconcile(desired) => Wish(desired);
        case NewsChanged => Forward();
        case NewsPass => Forward();
        case AddAlert(item) => skip, reply := Enqueue(item);
        case NewsStopped(run, err) => skip := NewsEnded(run, err);
        case NewsStopTimedOut(run) => TimedOut(run);
        case NewsRetry(run) =>
          skip := run != st.newsRun || !st.desiredOn || st.shuttingDown || st.alertRunning || |st.alerts| > 0;
        case AlertFinished(run, err) => skip := AlertEnded(run, err);
        case Snapshot => skip, reply := true, Snapped(Public(st));
        case Stop =>
          Leave();
          reply := Accepted;
      }
    }

    method Wish(desired: bool)
      requires Callable()
      modifies this
      ensures Callable()
      ensures View() == Switch(old(View()), Command.Reconcile(desired)).w
    {
      if desired {
        st := st.(desiredOn := true);
      } else {
        Unwant(true);
      }
    }

    method Unwant(force: bool)
      requires Callable()
      modifies this
      ensures Callable()
      ensures View() == Supervisor.CancelAll(
                old(View()).(s := old(st).(desiredOn := false, forceStop := force)), true)
    {
      st := st.(desiredOn := false, forceStop := force);
      CancelAll(true);
    }

    method Leave()
      requires Callable()
      modifies this
      ensures Callable() && View() == OnStop(old(View()))
    {
      st := st.(shuttingDown := true, desiredOn := false, forceStop := true);
      CancelAll(false);
      env := CancelApp(env);
    }

    method TimedOut(run: nat)
      modifies this`st
      ensures View() == Switch(old(View()), NewsStopTimedOut(run)).w
      ensures Callable() == old(Callable())
    {
      if run == st.newsRun && st.newsRunning {
        st := st.(lifecycle := Failed, lastError := "worker stop timeout");
      }
    }

    method AlertEnded(run: nat, err: RunError) returns (skip: bool)
      requires Callable()
      modifies this`st
      ensures Callable()
      ensures View() == OnAlertFinished(old(View()), run, err).w
      ensures skip == OnAlertFinished(old(View()), run, err).Skip?
    {
      if run != st.alertRun {
        return true;
      }
      st := st.(alertRunning := false, alertCancel := None, currentAlert := "");
      if err.Real() {
        st := st.(lastError := err.message);
      }
      return false;
    }

    method Forward()
      modifies this`env
      ensures View() == Signal(old(View()))
    {
      if st.newsRunning && !st.newsStopping {
        env := env.(link := NW.Offer(env.link));
      }
    }

    method Enqueue(item: Alert) returns (skip: bool, reply: Reply)
      requires Callable()
      modifies this
      ensures Callable()
      ensures View() == OnAddAlert(old(View()), item).w && reply == OnAddAlert(old(View()), item).reply
      ensures skip == OnAddAlert(old(View()), item).Skip?
    {
      if st.shuttingDown {
        return true, Refused(ErrShuttingDown);
      }
      if !st.desiredOn && !cfg.allowOutside {
        return true, Refused(ErrOutsideActiveWindow);
      }
      var waiting := |st.alerts|;
      var queued := waiting;
      if !st.alertRunning && waiting > 0 {
        queued := queued - 1;
      }
      if queued >= cfg.alertQueueCapacity {
        return true, Refused(ErrQueueFull);
      }
      var displaying := !st.alertRunning && waiting == 0;
      Append(item);
      if st.newsRunning && !st.newsStopping {
        StopNews();
      }
      return false, Added(item.operationId, displaying);
    }

    method Append(item: Alert)
      requires Callable()
      modifies this
      ensures Callable() && View() == Appended(old(View()), item)
    {
      var reported := |st.alerts| + 1;
      if !st.alertRunning && reported > 0 {
        reported := reported - 1;
      }
      st := st.(alerts := st.alerts + [item], queuedAlerts := reported);
      env := env.(accepted := env.accepted + [item]);
      if !st.desiredOn {
        st := st.(temporary := true);
      }
    }

    method NewsEnded(run: nat, err: RunError) returns (skip: bool)
      requires Callable()
      modifies this
      ensures Callable()
      ensures View() == OnNewsStopped(old(View()), run, err).w && skip == OnNewsStopped(old(View()), run, err).Skip?
      ensures OnNewsStopped(old(View()), run, err).reply == NoReply
    {
      if run != st.newsRun {
        return true;
      }
      st := st.(newsRunning := false, newsStopping := false, newsCancel := None);
      if err.Real() {
        if st.desiredOn && !st.shuttingDown {
          st := st.(lastError := err.message, newsFailures := st.newsFailures + 1, lifecycle := Failed);
          env := Post(env, NewsRetry(st.newsRun));
          return true;
        }
        st := st.(lastError := err.message);
      }
      st := st.(newsFailures := 0);
      return false;
    }

    /** The return of the loop: the last Stop and its published result. */
    method Finish(o: Outcomes)
      modifies this
      ensures View() == Exit(old(View()), o)
    {
      var err := StopDisplay(o);
      env := env.(published := env.published + [err], exited := true);
    }

    /** The part of an iteration after the switch. */
    method Settle(c: Command, reply: Reply, o: Outcomes) returns (reply': Reply)
      requires Callable()
      modifies this
      ensures var r := Reconciled(old(View()), o);
              && View() == (if Finishing(r.w.s) then Exit(r.w, o) else r.w)
              && reply' == (if c.Start? || c.Shutdown? || c.Reconcile? || c.NewsChanged?
                            then Reported(Public(r.w.s), r.err) else reply)
    {
      reply' := reply;
      var reconcileErr := Reconcile(o);
      if c.Start? || c.Shutdown? || c.Reconcile? || c.NewsChanged? {
        reply' := Reported(Public(st), reconcileErr);
      }
      if st.shuttingDown && !st.newsRunning && !st.alertRunning {
        Finish(o);
      }
    }

    method Process(c: Command, expired: bool, o: Outcomes) returns (reply: Reply)
      requires Callable()
      modifies this
      ensures View() == Handle(old(View()), c, expired, o).w && reply == Handle(old(View()), c, expired, o).reply
    {
      if c.Internal() {
        env := Receive(env, c);
      } else if expired {
        return Expired;
      }
      var skip;
      skip, reply := Dispatch(c);
      if !skip {
        reply := Settle(c, reply, o);
      }
    }

    /** One iteration of the loop: it does what Handle says, and it keeps the invariant of the
        whole system. */
    method Iterate(c: Command, expired: bool, o: Outcomes) returns (reply: Reply)
      requires Open(View()) && Deliverable(View(), c)
      modifies this
      ensures View() == Handle(old(View()), c, expired, o).w && reply == Handle(old(View()), c, expired, o).reply
      ensures Inv(View())
    {
      HandleKeeps(View(), c, expired, o);
      reply := Process(c, expired, o);
    }
  }
}
