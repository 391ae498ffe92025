/** The invariant of the composed system, and the parts of the supervisor that keep it. */
module SupervisorInvariant {
  import opened Common
  import opened Supervisor
  import NW = NewsWorkflow
  import AlertRun

  // ----- the supervisor's own flags -----

  /** A cancel function is held exactly for the worker that is running, the two kinds of
      worker exclude each other, and both need the display. */
  ghost predicate Flags(s: Record) {
    && s.newsCancel == (if s.newsRunning then Some(s.newsRun) else None)
    && s.alertCancel == (if s.alertRunning then Some(s.alertRun) else None)
    && !(s.newsRunning && s.alertRunning)
    && (s.newsRunning || s.alertRunning ==> s.displayRunning)
    && (s.newsStopping ==> s.newsRunning)
  }

  /** The head of the queue owns the pending transition when no alert is running. */
  function QueueLength(s: Record): int {
    |s.alerts| - if !s.alertRunning && s.alerts != [] then 1 else 0
  }

  predicate WithinCapacity(cfg: Config, s: Record) {
    |s.alerts| <= (if cfg.alertQueueCapacity > 0 then cfg.alertQueueCapacity else 0)
                  + (if s.alertRunning then 0 else 1)
  }

  /** An alert has just ended and reconcile has not yet looked at the queue. */
  predicate BetweenAlerts(s: Record) {
    !s.alertRunning && !s.newsRunning && s.displayRunning
  }

  ghost predicate Waiting(cfg: Config, s: Record) {
    && WithinCapacity(cfg, s)
    && (s.alerts != [] ==> s.desiredOn || s.temporary)
    && (s.queuedAlerts == QueueLength(s) || (BetweenAlerts(s) && s.queuedAlerts == |s.alerts|))
    && (s.temporary ==> s.alertRunning || s.alerts != [] || BetweenAlerts(s))
    && (s.shuttingDown ==> s.alerts == [] && !s.temporary && (s.newsRunning ==> s.newsStopping))
  }

  /** What each lifecycle label promises to whoever takes a snapshot. */
  predicate Truthful(s: State, stopping: bool, waiting: nat) {
    match s.lifecycle
    case Off => !s.newsRunning && !s.alertRunning && !s.displayRunning
    case Starting => false
    case Running => s.newsRunning && !stopping && waiting == 0
    case Pausing => s.newsRunning && stopping
    case Alerting => s.alertRunning
    case Stopping => s.newsRunning || s.alertRunning
    case Failed => true
  }

  predicate LabelHolds(s: Record) {
    Truthful(Public(s), s.newsStopping, |s.alerts|)
  }

  // ----- run numbers and messages -----

  /** Each worker that was started is live or has exactly one completion message under way,
      and that message carries the current run number. */
  ghost predicate NewsBooks(s: Record, e: Env) {
    && (e.news.NewsLive? ==> s.newsRunning && e.news.run == s.newsRun
                             && (e.news.cancelled <==> s.newsStopping || e.appCancelled))
    && (forall c :: c in e.mail && c.NewsStopped? ==>
          s.newsRunning && c.run == s.newsRun && e.news.NoNews? && e.mail[c] == 1)
    && (forall c, d :: c in e.mail && d in e.mail && c.NewsStopped? && d.NewsStopped? ==> c == d)
    && (s.newsRunning && e.news.NoNews? ==> exists c :: c in e.mail && c.NewsStopped?)
  }

  ghost predicate AlertBooks(s: Record, e: Env) {
    && (e.alert.AlertLive? ==> s.alertRunning && e.alert.run == s.alertRun
                               && e.alert.item.operationId == s.currentAlert
                               && (e.appCancelled ==> e.alert.cancelled))
    && (forall c :: c in e.mail && c.AlertFinished? ==>
          s.alertRunning && c.run == s.alertRun && e.alert.NoAlert? && e.mail[c] == 1)
    && (forall c, d :: c in e.mail && d in e.mail && c.AlertFinished? && d.AlertFinished? ==> c == d)
    && (s.alertRunning && e.alert.NoAlert? ==> exists c :: c in e.mail && c.AlertFinished?)
  }

  /** Timers are never ahead of the run they were armed for; a stop timer of the running
      worker means it is stopping, and a retry never belongs to a running worker. */
  ghost predicate Timers(s: Record, mail: multiset<Command>) {
    && (forall c :: c in mail ==> c.Internal())
    && (forall c :: c in mail && c.NewsStopTimedOut? ==>
          c.run <= s.newsRun && (c.run == s.newsRun && s.newsRunning ==> s.newsStopping))
    && (forall c :: c in mail && c.NewsRetry? ==>
          c.run <= s.newsRun && (c.run == s.newsRun ==> !s.newsRunning))
  }

  ghost predicate Ledger(s: Record, e: Env) {
    && NewsBooks(s, e)
    && AlertBooks(s, e)
    && Timers(s, e.mail)
  }

  // ----- histories -----

  function Items(resolved: seq<Resolved>): seq<Alert> {
    seq(|resolved|, i requires 0 <= i < |resolved| => resolved[i].item)
  }

  /** The alerts that were started, in order. */
  function StartedItems(resolved: seq<Resolved>): seq<Alert> {
    if resolved == [] then []
    else
      var last := resolved[|resolved| - 1];
      StartedItems(resolved[..|resolved| - 1]) + if last.started then [last.item] else []
  }

  /** The alerts the presenter was asked to show, in order. */
  function Shown(calls: seq<AlertRun.Presenter>): seq<Alert> {
    if calls == [] then []
    else
      var last := calls[|calls| - 1];
      Shown(calls[..|calls| - 1]) + if last.Show? then [last.item] else []
  }

  /** The display is on after these calls: the last one that succeeded was a Start. */
  function OnAfter(calls: seq<DisplayCall>): bool {
    if calls == [] then false
    else
      var last := calls[|calls| - 1];
      if last.ok then last.start else OnAfter(calls[..|calls| - 1])
  }

  /** The display was never called while a worker was live, and the flag tells its state. */
  ghost predicate CallsInv(on: bool, calls: seq<DisplayCall>) {
    && (forall i :: 0 <= i < |calls| ==> calls[i].quiet)
    && on == OnAfter(calls)
  }

  ghost predicate Histories(s: Record, e: Env) {
    && CallsInv(s.displayRunning, e.calls)
    && e.accepted == Items(e.resolved) + s.alerts
    && Shown(e.presented) == StartedItems(e.resolved)
  }

  ghost predicate Channel(cfg: Config, e: Env) {
    && NW.LinkInv(cfg.worker, e.link)
    && (e.news.NewsLive? ==> NW.LiveInv(cfg.worker, e.news.worker, e.link))
  }

  /** Holds throughout one iteration of the loop. */
  ghost predicate Mid(w: World) {
    && Flags(w.s)
    && Waiting(w.cfg, w.s)
    && Ledger(w.s, w.e)
    && Histories(w.s, w.e)
    && Channel(w.cfg, w.e)
    && (w.s.newsRunning || w.s.alertRunning ==> LabelHolds(w.s))
    && (w.s.shuttingDown ==> w.e.appCancelled)
    && !w.e.exited && w.e.published == []
  }

  /** Holds whenever the loop waits for the next command. */
  ghost predicate Open(w: World) {
    && Mid(w)
    && LabelHolds(w.s)
    && w.s.queuedAlerts == QueueLength(w.s)
    && (w.s.temporary ==> w.s.alertRunning || w.s.alerts != [])
    && (w.s.shuttingDown ==> w.s.newsRunning || w.s.alertRunning)
  }

  /** Holds after the loop has returned. */
  ghost predicate Closed(w: World) {
    && Flags(w.s) && Ledger(w.s, w.e) && Histories(w.s, w.e) && Channel(w.cfg, w.e)
    && w.e.exited && Finishing(w.s) && Quiet(w.e) && w.s.alerts == []
    && w.e.calls != [] && !w.e.calls[|w.e.calls| - 1].start
    && |w.e.published| == 1
    && (w.e.published[0] == None <==> w.e.calls[|w.e.calls| - 1].ok)
  }

  ghost predicate Inv(w: World) {
    if w.e.exited then Closed(w) else Open(w)
  }

  // ----- what reconcile never touches -----

  predicate SameScalars(w: World, w': World) {
    w'.cfg == w.cfg && w'.s.desiredOn == w.s.desiredOn && w'.s.shuttingDown == w.s.shuttingDown
  }

  lemma StopNewsScalars(w: World)
    ensures SameScalars(w, StopNews(w))
  {
  }

  lemma StartNewsScalars(w: World)
    ensures SameScalars(w, StartNews(w))
  {
  }

  lemma StopDisplayScalars(w: World, o: Outcomes)
    ensures SameScalars(w, StopDisplay(w, o).w)
  {
  }

  lemma StartDisplayScalars(w: World, o: Outcomes)
    ensures SameScalars(w, StartDisplay(w, o).w)
  {
  }

  lemma CancelAllScalars(w: World, scheduled: bool)
    ensures SameScalars(w, CancelAll(w, scheduled))
  {
  }

  lemma StartAlertScalars(w: World, item: Alert)
    ensures SameScalars(w, StartAlert(w, item))
  {
  }

  lemma TurnOffScalars(w: World, o: Outcomes)
    ensures SameScalars(w, TurnOff(w, o).w)
  {
    hide CancelAll, StopDisplay;
    CancelAllScalars(w, true);
    StopDisplayScalars(CancelAll(w, true), o);
  }

  lemma UseDisplayScalars(w: World, o: Outcomes)
    ensures SameScalars(w, UseDisplay(w, o).w)
  {
    hide StopNews, StartNews, StartAlert, StopDisplay;
    if w.s.alertRunning {
    } else if w.s.alerts != [] {
      if w.s.newsRunning {
        StopNewsScalars(w);
      } else {
        StartAlertScalars(w.(s := w.s.(alerts := w.s.alerts[1..], queuedAlerts := |w.s.alerts| - 1)), w.s.alerts[0]);
      }
    } else if w.s.temporary {
      StopDisplayScalars(w.(s := w.s.(temporary := false)), o);
    } else {
      StartNewsScalars(w);
    }
  }

  /** Reconcile changes neither whether the display is wanted nor whether the loop is ending. */
  lemma ReconcileScalars(w: World, o: Outcomes)
    ensures SameScalars(w, Reconciled(w, o).w)
  {
    hide TurnOff, UseDisplay, StartDisplay;
    TurnOffScalars(w, o);
    UseDisplayScalars(w, o);
    StartDisplayScalars(w, o);
    UseDisplayScalars(StartDisplay(w, o).w, o);
  }

  // ----- histories under the world's operations -----

  lemma CallKeeps(on: bool, e: Env, start: bool, ok: bool)
    requires CallsInv(on, e.calls) && Quiet(e)
    ensures CallsInv(if ok then start else on, CallDisplay(e, start, ok).calls)
  {
    var calls := CallDisplay(e, start, ok).calls;
    assert calls[..|calls| - 1] == e.calls;
  }

  lemma ItemsAppend(a: seq<Resolved>, b: seq<Resolved>)
    ensures Items(a + b) == Items(a) + Items(b)
  {
  }

  lemma {:induction false} DropsStartNothing(resolved: seq<Resolved>, alerts: seq<Alert>)
    ensures StartedItems(resolved + Drops(alerts)) == StartedItems(resolved)
    ensures Items(Drops(alerts)) == alerts
    decreases |alerts|
  {
    if alerts == [] {
      assert resolved + Drops(alerts) == resolved;
    } else {
      var all := resolved + Drops(alerts);
      var front := alerts[..|alerts| - 1];
      assert all[..|all| - 1] == resolved + Drops(front);
      DropsStartNothing(resolved, front);
    }
  }

  lemma StartExtends(e: Env, item: Alert)
    ensures StartedItems(e.resolved + [Resolved(item, true)]) == StartedItems(e.resolved) + [item]
    ensures Shown(e.presented + [AlertRun.Show(item)]) == Shown(e.presented) + [item]
    ensures Items(e.resolved + [Resolved(item, true)]) == Items(e.resolved) + [item]
  {
    var r := e.resolved + [Resolved(item, true)];
    var p := e.presented + [AlertRun.Show(item)];
    assert r[..|r| - 1] == e.resolved;
    assert p[..|p| - 1] == e.presented;
  }

  // ----- messages under the world's operations -----

  lemma PostTimer(s: Record, e: Env, t: Command)
    requires NewsBooks(s, e) && AlertBooks(s, e) && Timers(s, e.mail)
    requires || (t == NewsStopTimedOut(s.newsRun) && (s.newsRunning ==> s.newsStopping))
             || (t == NewsRetry(s.newsRun) && !s.newsRunning)
    ensures NewsBooks(s, Post(e, t)) && AlertBooks(s, Post(e, t)) && Timers(s, Post(e, t).mail)
  {
    var mail' := Post(e, t).mail;
    forall c | c in e.mail ensures c in mail' {
    }
  }

  lemma StopNewsBooks(w: World)
    requires Flags(w.s) && Ledger(w.s, w.e)
    ensures Flags(StopNews(w).s) && Ledger(StopNews(w).s, StopNews(w).e)
  {
    if w.s.newsRunning && !w.s.newsStopping {
      var w' := StopNews(w);
      var e1 := CancelNews(w.e, w.s.newsCancel);
      assert NewsBooks(w'.s, e1) && AlertBooks(w'.s, e1) && Timers(w'.s, e1.mail);
      PostTimer(w'.s, e1, NewsStopTimedOut(w.s.newsRun));
    }
  }

  lemma StopNewsFrame(w: World)
    requires Flags(w.s)
    ensures var w' := StopNews(w);
            && w'.cfg == w.cfg
            && w'.e == w.e.(news := w'.e.news, mail := w'.e.mail)
            && (w'.e.news.NewsLive? <==> w.e.news.NewsLive?)
            && (w.e.news.NewsLive? ==> w'.e.news.worker == w.e.news.worker)
            && w'.s == w.s.(newsStopping := w.s.newsRunning,
                            lifecycle := if w.s.newsRunning && !w.s.newsStopping then Pausing else w.s.lifecycle)
  {
  }

  // ----- the helpers -----

  /** What cancelAll needs from its callers and what it leaves. */
  ghost predicate Cancelled(w: World, w': World, scheduled: bool) {
    && Flags(w'.s) && Ledger(w'.s, w'.e) && Histories(w'.s, w'.e) && Channel(w'.cfg, w'.e)
    && w'.s.alerts == [] && !w'.s.temporary && w'.s.queuedAlerts == 0
    && (w'.s.newsRunning ==> w'.s.newsStopping)
    && w'.s.newsRunning == w.s.newsRunning && w'.s.alertRunning == w.s.alertRunning
    && w'.s.desiredOn == w.s.desiredOn && w'.s.shuttingDown == w.s.shuttingDown
    && w'.s.displayRunning == w.s.displayRunning && w'.s.forceStop == w.s.forceStop
    && w'.s.newsRun == w.s.newsRun && w'.s.alertRun == w.s.alertRun
    && w'.e.exited == w.e.exited && w'.e.published == w.e.published && w'.e.calls == w.e.calls
    && w'.e.appCancelled == w.e.appCancelled && w'.cfg == w.cfg
    && w'.s.lifecycle == (if scheduled then Stopping
                          else if w.s.newsRunning && !w.s.newsStopping then Pausing else w.s.lifecycle)
  }

  lemma CancelAllBooks(w: World, scheduled: bool)
    requires Flags(w.s) && Ledger(w.s, w.e)
    ensures Flags(CancelAll(w, scheduled).s) && Ledger(CancelAll(w, scheduled).s, CancelAll(w, scheduled).e)
  {
    StopNewsBooks(w);
    var w1 := StopNews(w);
    var e2 := CancelAlert(w1.e, w1.s.alertCancel);
    assert NewsBooks(w1.s, e2) && AlertBooks(w1.s, e2);
  }

  lemma CancelAllFields(w: World, scheduled: bool)
    ensures var w' := CancelAll(w, scheduled);
            && w'.e.calls == w.e.calls && w'.e.accepted == w.e.accepted && w'.e.presented == w.e.presented
            && w'.e.resolved == w.e.resolved + Drops(w.s.alerts)
            && w'.s.alerts == [] && w'.s.displayRunning == w.s.displayRunning
  {
  }

  lemma CancelAllHistories(w: World, scheduled: bool)
    requires Histories(w.s, w.e)
    ensures Histories(CancelAll(w, scheduled).s, CancelAll(w, scheduled).e)
  {
    CancelAllFields(w, scheduled);
    DropsStartNothing(w.e.resolved, w.s.alerts);
    ItemsAppend(w.e.resolved, Drops(w.s.alerts));
    var w' := CancelAll(w, scheduled);
    calc {
      w'.e.accepted;
      Items(w.e.resolved) + w.s.alerts;
      Items(w'.e.resolved);
      Items(w'.e.resolved) + w'.s.alerts;
    }
  }

  lemma CancelAllKeeps(w: World, scheduled: bool)
    requires Flags(w.s) && Ledger(w.s, w.e) && Histories(w.s, w.e) && Channel(w.cfg, w.e)
    ensures Cancelled(w, CancelAll(w, scheduled), scheduled)
  {
    CancelAllBooks(w, scheduled);
    CancelAllHistories(w, scheduled);
  }

  lemma StopDisplayKeeps(w: World, o: Outcomes)
    requires Histories(w.s, w.e) && Quiet(w.e)
    ensures var r := StopDisplay(w, o);
            && Histories(r.w.s, r.w.e)
            && r.w.e == w.e.(calls := r.w.e.calls) && r.w.cfg == w.cfg
            && r.w.e.calls != [] && !r.w.e.calls[|r.w.e.calls| - 1].start
            && (r.err == None <==> r.w.e.calls[|r.w.e.calls| - 1].ok)
            && (r.err == None ==> r.w.s == w.s.(displayRunning := false, forceStop := false))
            && (r.err.Some? ==> r.w.s == w.s.(lifecycle := Failed, lastError := r.err.value))
  {
    CallKeeps(w.s.displayRunning, w.e, false, o.stop.None?);
  }

  lemma {:induction false} TryStartKeeps(on: bool, e: Env, starts: nat -> Attempt, n: nat, i: nat, last: string)
    requires CallsInv(on, e.calls) && Quiet(e)
    ensures var t := TryStart(e, starts, n, i, last);
            t.e == e.(calls := t.e.calls) && CallsInv(on || t.ok, t.e.calls)
    decreases n - i
  {
    if i < n {
      CallKeeps(on, e, true, starts(i).err.None?);
      if starts(i).err.Some? && starts(i).waited {
        TryStartKeeps(on, CallDisplay(e, true, false), starts, n, i + 1, starts(i).err.value);
      }
    }
  }

  lemma StartDisplayKeeps(w: World, o: Outcomes)
    requires Histories(w.s, w.e) && Quiet(w.e)
    ensures var r := StartDisplay(w, o);
            && Histories(r.w.s, r.w.e)
            && r.w.e == w.e.(calls := r.w.e.calls) && r.w.cfg == w.cfg
            && (r.err == None ==> r.w.s == w.s.(lifecycle := Starting, displayRunning := true))
            && (r.err.Some? ==> r.w.s == w.s.(lifecycle := Failed, lastError := r.err.value))
  {
    hide TryStart, OnAfter, Items, StartedItems, Shown;
    TryStartKeeps(w.s.displayRunning, w.e, o.starts, w.cfg.startupRetries, 0, "<nil>");
  }

  /** From attempt i on, attempt k is the first to succeed and nothing ends the loop before it. */
  ghost predicate SucceedsAt(starts: nat -> Attempt, i: nat, k: nat) {
    starts(k).err.None? && forall j :: i <= j < k ==> starts(j).err.Some? && starts(j).waited
  }

  /** Starting the display succeeds exactly if some attempt within the retry count succeeds
      before one fails without its pause; it never makes more calls than the retry count, and
      none after the first success. */
  lemma {:induction false} TryStartSucceedsIff(e: Env, starts: nat -> Attempt, n: nat, i: nat, last: string)
    requires i <= n
    ensures var t := TryStart(e, starts, n, i, last);
            && (t.ok <==> exists k :: i <= k < n && SucceedsAt(starts, i, k))
            && |t.e.calls| <= |e.calls| + (n - i)
            && (forall k :: i <= k < n && SucceedsAt(starts, i, k) ==> |t.e.calls| == |e.calls| + (k - i) + 1)
    decreases n - i
  {
    if i < n {
      var t := TryStart(e, starts, n, i, last);
      if starts(i).err.None? {
        assert SucceedsAt(starts, i, i);
      } else if starts(i).waited {
        TryStartSucceedsIff(CallDisplay(e, true, false), starts, n, i + 1, starts(i).err.value);
        forall k | i + 1 <= k < n ensures SucceedsAt(starts, i, k) <==> SucceedsAt(starts, i + 1, k) {
        }
        if t.ok {
          var k :| i + 1 <= k < n && SucceedsAt(starts, i + 1, k);
          assert SucceedsAt(starts, i, k);
        }
      }
    }
  }
}
