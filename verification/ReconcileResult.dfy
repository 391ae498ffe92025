/** What reconcile achieves when the display works, and where it does not achieve what one would
    expect. */
module ReconcileResult {
  import opened Common
  import opened Supervisor
  import opened SupervisorInvariant
  import opened SupervisorLoop
  import opened Guarantees

  /** Some attempt allowed to the display's start succeeds before one fails without its pause. */
  ghost predicate StartWorks(cfg: Config, o: Outcomes) {
    exists k :: 0 <= k < cfg.startupRetries && SucceedsAt(o.starts, 0, k)
  }

  /** Stop succeeds, and so does one of the allowed attempts to start. */
  ghost predicate DisplayWorks(w: World, o: Outcomes) {
    o.stop.None? && StartWorks(w.cfg, o)
  }

  lemma StartsWhenItWorks(w: World, o: Outcomes)
    requires DisplayWorks(w, o)
    ensures var r := StartDisplay(w, o);
            && r.err == None && r.w.cfg == w.cfg
            && r.w == w.(s := w.s.(lifecycle := Starting, displayRunning := true),
                         e := w.e.(calls := r.w.e.calls))
  {
    TryStartSucceedsIff(w.e, o.starts, w.cfg.startupRetries, 0, "<nil>");
    TryStartFrame(w.e, o.starts, w.cfg.startupRetries, 0, "<nil>");
  }

  /** Reconcile is entered with the last alert of a temporary display just finished, while the
      display has become wanted for its own sake. */
  predicate TemporaryOutlived(s: Record) {
    s.temporary && s.desiredOn && !s.alertRunning && s.alerts == []
  }

  lemma CancelAllTwice(w: World)
    ensures CancelAll(CancelAll(w, true), true) == CancelAll(w, true)
  {
    var w1 := CancelAll(w, true);
    assert w1.e.resolved + Drops([]) == w1.e.resolved;
  }

  lemma TurnOffTwice(w: World, o: Outcomes)
    requires Mid(w) && !WantDisplay(w.s) && !w.s.shuttingDown && o.stop.None?
    ensures Reconciled(TurnOff(w, o).w, o).w == TurnOff(w, o).w
  {
    CancelAllTwice(w);
    CancelAllKeeps(w, true);
    var w1 := CancelAll(w, true);
    var w2 := TurnOff(w, o).w;
    assert w2.e.resolved + Drops([]) == w2.e.resolved;
    if w1.s.newsRunning || w1.s.alertRunning {
      assert w2 == w1;
    } else {
      assert w2.s.newsCancel == None && w2.s.alertCancel == None;
      assert CancelAll(w2, true) == w2.(s := w2.s.(lifecycle := Stopping));
    }
  }

  lemma UseDisplayTwice(w: World, o: Outcomes)
    requires Mid(w) && w.s.displayRunning && WantDisplay(w.s) && !w.s.shuttingDown && !TemporaryOutlived(w.s)
    ensures Reconciled(UseDisplay(w, o).w, o).w == UseDisplay(w, o).w
  {
  }

  lemma OutlivedTwice(w: World, o: Outcomes)
    requires Mid(w) && TemporaryOutlived(w.s) && DisplayWorks(w, o)
    ensures var w1 := Reconciled(w, o).w;
            && w1.s.lifecycle == Off && !w1.s.displayRunning && w1.s.desiredOn && !w1.s.newsRunning
            && Reconciled(w1, o).w.s.displayRunning
  {
    var w1 := Reconciled(w, o).w;
    StartsWhenItWorks(w1, o);
  }

  /** Reconcile is idempotent exactly when no temporary display has been outlived. In that case
      it turns the display off although it is wanted, and only the next reconcile turns it on. */
  lemma IdempotentIff(w: World, o: Outcomes)
    requires Mid(w) && DisplayWorks(w, o)
    ensures Reconciled(Reconciled(w, o).w, o).w == Reconciled(w, o).w <==> !TemporaryOutlived(w.s)
  {
    if w.s.shuttingDown {
    } else if TemporaryOutlived(w.s) {
      OutlivedTwice(w, o);
    } else if !WantDisplay(w.s) {
      TurnOffTwice(w, o);
    } else if w.s.displayRunning {
      UseDisplayTwice(w, o);
    } else {
      StartsWhenItWorks(w, o);
      StartFirstKeeps(w, o);
      UseDisplayTwice(StartDisplay(w, o).w, o);
    }
  }

  /** Except in that case and during shutdown, reconcile leaves a worker in charge of every
      waiting alert, news running whenever the display is wanted and there is no alert, and the
      display off whenever it is not wanted and no worker holds it. */
  lemma ReconcileAchieves(w: World, o: Outcomes)
    requires Mid(w) && DisplayWorks(w, o) && !w.s.shuttingDown && !TemporaryOutlived(w.s)
    ensures var s := Reconciled(w, o).w.s;
            && (s.alerts != [] ==> s.newsRunning || s.alertRunning)
            && (s.desiredOn && s.alerts == [] && !s.alertRunning ==> s.newsRunning)
            && (!WantDisplay(w.s) && !s.newsRunning && !s.alertRunning ==> !s.displayRunning && s.lifecycle == Off)
  {
    StartsWhenItWorks(w, o);
    if !WantDisplay(w.s) {
      CancelAllKeeps(w, true);
    }
  }
}
