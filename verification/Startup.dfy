/** What the process asks of the supervisor from its start on: the startup reconciliation of
    main, then the scheduled jobs. */
module Startup {
  import opened Supervisor
  import opened SupervisorInvariant
  import opened SupervisorLoop
  import opened Runs
  import opened Guarantees
  import S = Schedule

  // ----- the requests that decide whether the display is wanted -----

  predicate Decides(c: Command) {
    c.Start? || c.Shutdown? || c.Reconcile? || c.Stop?
  }

  function Wish(c: Command): bool {
    c.Start? || c == Reconcile(true)
  }

  /** The deciding requests of a run whose callers had not given up, in order. */
  function Wishes(evs: seq<Event>): seq<Command> {
    if evs == [] then []
    else
      (if evs[0].Request? && !evs[0].expired && Decides(evs[0].c) then [evs[0].c] else []) + Wishes(evs[1..])
  }

  /** The latest request decides. */
  function Decided(wanted: bool, wishes: seq<Command>): bool {
    if wishes == [] then wanted else Wish(wishes[|wishes| - 1])
  }

  lemma AddAlertDesire(w: World, item: Alert)
    ensures OnAddAlert(w, item).w.s.desiredOn == w.s.desiredOn
  {
    if OnAddAlert(w, item).Fall? {
      assert OnAddAlert(w, item).w == StopNews(Appended(w, item));
    }
  }

  lemma SwitchDesire(w: World, c: Command)
    ensures Switch(w, c).w.s.desiredOn == if Decides(c) then Wish(c) else w.s.desiredOn
  {
    hide CancelAll, StopNews;
    match c
    case Shutdown => CancelAllScalars(w.(s := w.s.(desiredOn := false, forceStop := w.s.displayRunning)), true);
    case Reconcile(desired) => CancelAllScalars(w.(s := w.s.(desiredOn := false, forceStop := true)), true);
    case Stop => CancelAllScalars(Leaving(w), false);
    case AddAlert(item) => AddAlertDesire(w, item);
    case _ =>
  }

  lemma HandleDesire(w: World, c: Command, expired: bool, o: Outcomes)
    ensures Handle(w, c, expired, o).w.s.desiredOn == if !expired && Decides(c) then Wish(c) else w.s.desiredOn
  {
    hide Handle, Reconciled, Switch;
    HandleCases(w, c, expired, o);
    var w0 := w.(e := Receive(w.e, c));
    SwitchDesire(w0, c);
    ReconcileScalars(Switch(w0, c).w, o);
  }

  lemma NextDesire(w: World, ev: Event)
    requires Next(w, ev).Some?
    ensures Next(w, ev).value.s.desiredOn == Decided(w.s.desiredOn, Wishes([ev]))
  {
    hide Handle;
    assert Wishes([ev][1..]) == [];
    if ev.Request? || ev.Deliver? {
      HandleDesire(w, ev.c, ev.Request? && ev.expired, ev.o);
    }
  }

  lemma WishesFirst(evs: seq<Event>)
    requires evs != []
    ensures Wishes(evs) == Wishes([evs[0]]) + Wishes(evs[1..])
  {
    assert [evs[0]][1..] == [];
  }

  /** Over every run the supervisor wants the display exactly as the latest such request said. */
  lemma {:induction false} DesiredFollows(w: World, evs: seq<Event>)
    requires Exec(w, evs).Some?
    ensures Exec(w, evs).value.s.desiredOn == Decided(w.s.desiredOn, Wishes(evs))
    decreases |evs|
  {
    hide Next;
    if evs != [] {
      NextDesire(w, evs[0]);
      WishesFirst(evs);
      DesiredFollows(Next(w, evs[0]).value, evs[1..]);
    }
  }

  // ----- the jobs as requests -----

  function CommandOf(job: S.Job): Command {
    match job
    case StartJob => Start
    case StopJob => Shutdown
  }

  function Commands(jobs: seq<S.Job>): seq<Command> {
    seq(|jobs|, i requires 0 <= i < |jobs| => CommandOf(jobs[i]))
  }

  lemma JobsDecide(wanted: bool, jobs: seq<S.Job>)
    ensures Decided(wanted, [Reconcile(wanted)] + Commands(jobs)) == S.Obey(wanted, jobs)
  {
  }

  /** A process that looked at the window at `boot` and armed the jobs at `armed`; `taken` says which
      of the jobs heard since then the supervisor took and carried out, the others were refused. At
      every later instant the supervisor wants the display exactly when the window is open if and only
      if an even number of jobs has fired since the last one carried out, or since `boot`, if none has
      been. */
  lemma WantedIffWindow(cfg: Config, evs: seq<Event>, boot: int, armed: int, now: int,
                        start: S.TimeOfDay, stop: S.TimeOfDay, taken: seq<bool>)
    requires start.Valid() && stop.Valid() && start != stop && boot <= armed <= now
    requires Exec(Initial(cfg), evs).Some? && |taken| == |S.Heard(armed, now, start, stop)|
    requires Wishes(evs) == [Reconcile(S.IsInsideActiveWindow(boot, start, stop))]
                            + Commands(S.Accepted(S.Heard(armed, now, start, stop), taken))
    ensures Exec(Initial(cfg), evs).value.s.desiredOn == S.IsInsideActiveWindow(now, start, stop)
            <==> if true in taken then S.Refused(taken) % 2 == 0 else |S.Heard(boot, now, start, stop)| % 2 == 0
  {
    DesiredFollows(Initial(cfg), evs);
    JobsDecide(S.IsInsideActiveWindow(boot, start, stop), S.Accepted(S.Heard(armed, now, start, stop), taken));
    S.AcceptedAgreesIff(boot, armed, now, start, stop, taken);
  }
}
