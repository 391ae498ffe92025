/** The composed system: the supervisor's loop, the news worker, the timed alert and the
    timers, interleaved in every possible order. */
module Runs {
  import opened Common
  import opened Supervisor
  import opened SupervisorInvariant
  import opened SupervisorLoop
  import NW = NewsWorkflow
  import AlertRun

  /** A request or a message is handled, a goroutine takes a step, or the process is told to end. */
  datatype Event =
    | Request(c: Command, expired: bool, o: Outcomes)
    | Deliver(c: Command, o: Outcomes)
    | NewsAct(a: NW.Action)
    | AlertAct(b: AlertRun.Action)
    | ParentEnds

  function NewsStep(w: World, a: NW.Action): Option<World> {
    if !w.e.news.NewsLive? then None
    else match NW.Step(w.cfg.worker, w.e.news.worker, w.e.news.cancelled, w.e.link, a)
      case Blocked => None
      case Running(worker, link) => Some(w.(e := w.e.(news := w.e.news.(worker := worker), link := link)))
      case Returned(err, link) =>
        Some(w.(e := Post(w.e.(news := NoNews, link := link), NewsStopped(w.e.news.run, err))))
  }

  function AlertStep(w: World, a: AlertRun.Action): Option<World> {
    if !w.e.alert.AlertLive? then None
    else match AlertRun.Step(w.e.alert.stage, w.e.alert.item, w.e.alert.cancelled, a)
      case Blocked => None
      case Running(stage, calls) =>
        Some(w.(e := w.e.(alert := w.e.alert.(stage := stage), presented := w.e.presented + calls)))
      case Returned(err) =>
        Some(w.(e := Post(w.e.(alert := NoAlert), AlertFinished(w.e.alert.run, err))))
  }

  function Next(w: World, ev: Event): Option<World> {
    if w.e.exited then None
    else match ev
      case Request(c, expired, o) => if c.Internal() then None else Some(Handle(w, c, expired, o).w)
      case Deliver(c, o) => if c.Internal() && c in w.e.mail then Some(Handle(w, c, false, o).w) else None
      case NewsAct(a) => NewsStep(w, a)
      case AlertAct(b) => AlertStep(w, b)
      case ParentEnds => Some(w.(e := CancelApp(w.e)))
  }

  function Exec(w: World, evs: seq<Event>): Option<World>
    decreases |evs|
  {
    if evs == [] then Some(w)
    else match Next(w, evs[0])
      case None => None
      case Some(w') => Exec(w', evs[1..])
  }

  // ----- the goroutines keep the invariant -----

  lemma NewsReturnKeeps(w: World, err: RunError, link: NW.Link)
    requires Open(w) && w.e.news.NewsLive? && NW.LinkInv(w.cfg.worker, link)
    ensures Open(w.(e := Post(w.e.(news := NoNews, link := link), NewsStopped(w.e.news.run, err))))
  {
    var c := NewsStopped(w.e.news.run, err);
    var e' := Post(w.e.(news := NoNews, link := link), c);
    forall d | d in w.e.mail ensures d in e'.mail {
    }
    assert c in e'.mail;
    assert NewsBooks(w.s, e');
    assert AlertBooks(w.s, e');
    assert Timers(w.s, e'.mail);
    assert Histories(w.s, e');
  }

  lemma NewsRunKeeps(w: World, worker: NW.Worker, link: NW.Link)
    requires Open(w) && w.e.news.NewsLive? && NW.LiveInv(w.cfg.worker, worker, link)
    ensures Open(w.(e := w.e.(news := w.e.news.(worker := worker), link := link)))
  {
    var e' := w.e.(news := w.e.news.(worker := worker), link := link);
    assert NewsBooks(w.s, e') && AlertBooks(w.s, e') && Timers(w.s, e'.mail);
    assert Histories(w.s, e');
  }

  lemma NewsStepKeeps(w: World, a: NW.Action)
    requires Open(w) && NewsStep(w, a).Some?
    ensures Open(NewsStep(w, a).value)
  {
    NW.StepKeeps(w.cfg.worker, w.e.news.worker, w.e.news.cancelled, w.e.link, a);
    match NW.Step(w.cfg.worker, w.e.news.worker, w.e.news.cancelled, w.e.link, a)
    case Running(worker, link) => NewsRunKeeps(w, worker, link);
    case Returned(err, link) => NewsReturnKeeps(w, err, link);
  }

  lemma ClearShowsNothing(presented: seq<AlertRun.Presenter>, item: Alert)
    ensures Shown(presented + [AlertRun.Clear(item)]) == Shown(presented)
  {
    var p := presented + [AlertRun.Clear(item)];
    assert p[..|p| - 1] == presented;
  }

  lemma AlertReturnKeeps(w: World, err: RunError)
    requires Open(w) && w.e.alert.AlertLive?
    ensures Open(w.(e := Post(w.e.(alert := NoAlert), AlertFinished(w.e.alert.run, err))))
  {
    var c := AlertFinished(w.e.alert.run, err);
    var e' := Post(w.e.(alert := NoAlert), c);
    forall d | d in w.e.mail ensures d in e'.mail {
    }
    assert c in e'.mail;
    assert NewsBooks(w.s, e');
    assert AlertBooks(w.s, e');
    assert Timers(w.s, e'.mail);
    assert Histories(w.s, e');
  }

  lemma AlertStepKeeps(w: World, a: AlertRun.Action)
    requires Open(w) && AlertStep(w, a).Some?
    ensures Open(AlertStep(w, a).value)
  {
    hide Items, StartedItems, OnAfter, Timers;
    match AlertRun.Step(w.e.alert.stage, w.e.alert.item, w.e.alert.cancelled, a)
    case Running(stage, calls) =>
      var e' := w.e.(alert := w.e.alert.(stage := stage), presented := w.e.presented + calls);
      ClearShowsNothing(w.e.presented, w.e.alert.item);
      assert w.e.presented + [] == w.e.presented;
      assert Histories(w.s, e');
      assert NewsBooks(w.s, e') && AlertBooks(w.s, e') && Timers(w.s, e'.mail);
    case Returned(err) => AlertReturnKeeps(w, err);
  }

  lemma ParentEndsKeeps(w: World)
    requires Open(w)
    ensures Open(w.(e := CancelApp(w.e)))
  {
    var e' := CancelApp(w.e);
    CancelAppKeeps(w.s, w.e);
    assert Histories(w.s, e');
    assert Channel(w.cfg, e');
  }

  lemma NextKeeps(w: World, ev: Event)
    requires Inv(w) && Next(w, ev).Some?
    ensures Inv(Next(w, ev).value)
  {
    match ev
    case Request(c, expired, o) => HandleKeeps(w, c, expired, o);
    case Deliver(c, o) => HandleKeeps(w, c, false, o);
    case NewsAct(a) => NewsStepKeeps(w, a);
    case AlertAct(b) => AlertStepKeeps(w, b);
    case ParentEnds => ParentEndsKeeps(w);
  }

  /** Something can happen only while the loop runs. */
  lemma NextFromOpen(w: World, ev: Event)
    requires Inv(w) && Next(w, ev).Some?
    ensures Open(w)
  {
  }

  lemma InitialHolds(cfg: Config)
    ensures Inv(Initial(cfg))
  {
    assert Items([]) == [];
  }

  lemma {:induction false} ExecKeeps(w: World, evs: seq<Event>)
    requires Inv(w) && Exec(w, evs).Some?
    ensures Inv(Exec(w, evs).value)
    decreases |evs|
  {
    if evs != [] {
      NextKeeps(w, evs[0]);
      ExecKeeps(Next(w, evs[0]).value, evs[1..]);
    }
  }

  /** Every run of the system, from the start, keeps the invariant. */
  lemma EveryRunKeeps(cfg: Config, evs: seq<Event>)
    requires Exec(Initial(cfg), evs).Some?
    ensures Inv(Exec(Initial(cfg), evs).value)
  {
    InitialHolds(cfg);
    ExecKeeps(Initial(cfg), evs);
  }

  lemma {:induction false} ExecSplits(w: World, first: seq<Event>, second: seq<Event>)
    ensures Exec(w, first + second) == (match Exec(w, first) case None => None case Some(w') => Exec(w', second))
    decreases |first|
  {
    if first == [] {
      assert first + second == second;
    } else {
      assert (first + second)[1..] == first[1..] + second;
      match Next(w, first[0])
      case None =>
      case Some(w') => ExecSplits(w', first[1..], second);
    }
  }
}
