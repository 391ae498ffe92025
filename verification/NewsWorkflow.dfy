/** The news worker: the loop of newsworkflow.Worker.Run as a process that
    interleaves with the supervisor through the one-slot refresh channel.

    A state of the process is the place in the code where it blocks, the local
    variable `pending`, and the two goroutines it starts and joins. Every blocking
    point is left by an Action, so a `select` with several ready cases is a free
    choice between actions. */
module NewsWorkflow {
  import opened Common

  /** What Run finds in the Worker it is called on. */
  datatype Setup = Setup(hasDashboard: bool, hasClock: bool)

  /** A child goroutine, seen through the one-slot channel it reports on. */
  datatype Child = Absent | Active | Finished(err: RunError)

  datatype Phase =
    | Entry                      // before the dashboard check
    | LoopTop                    // at ctx.Err()
    | Painting                   // inside ShowClock
    | ClockOn                    // runClockUntil: select
    | ClockJoin(toPass: bool)    // clock cancelled, waiting on <-done
    | ClockIdle                  // waitForRefresh
    | PassOn                     // cycleWait: select
    | PassJoin                   // pass cancelled, waiting on <-cycleDone

  datatype Worker = Worker(phase: Phase, pending: bool, clock: Child, pass: Child)

  const NEW_WORKER := Worker(Entry, false, Absent, Absent)

  /** What the worker puts on the screen. */
  datatype Paint = Clock | Pass

  /** The refresh channel with its history, and the history of the screen. */
  datatype Link = Link(token: bool, sent: nat, taken: nat, paints: seq<Paint>)

  const NEW_LINK := Link(false, 0, 0, [])

  datatype Action =
    | Advance                      // straight-line code up to the next blocking point
    | SeeCancel                    // the ctx.Done() case of a select
    | TakeToken                    // the refreshNow case of a select
    | Join                         // the `done` case of a select, or a bare <-done
    | PaintEnds(err: RunError)     // ShowClock returns
    | ClockEnds(err: RunError)     // the clock goroutine returns
    | PassEnds(err: RunError)      // the pass goroutine returns

  datatype Outcome =
    | Blocked
    | Running(worker: Worker, link: Link)
    | Returned(err: RunError, link: Link)

  /** The supervisor's non-blocking send on the channel. */
  function Offer(l: Link): Link {
    if l.token then l else l.(token := true, sent := l.sent + 1)
  }

  function Take(l: Link): Link {
    l.(token := false, taken := l.taken + 1)
  }

  function Show(l: Link, p: Paint): Link {
    l.(paints := l.paints + [p])
  }

  function BeginPass(w: Worker, l: Link): Outcome {
    Running(w.(phase := PassOn, pending := false, clock := Absent, pass := Active), Show(l, Pass))
  }

  function AtTop(setup: Setup, w: Worker, cancelled: bool, l: Link): Outcome {
    if cancelled then Returned(Canceled, l)
    else if w.pending then
      if setup.hasClock then Running(w.(phase := Painting), Show(l, Clock)) else BeginPass(w, l)
    else if setup.hasClock then Running(w.(phase := ClockOn, clock := Active), Show(l, Clock))
    else Running(w.(phase := ClockIdle), l)
  }

  function AfterPaint(w: Worker, cancelled: bool, l: Link, err: RunError): Outcome {
    if err.Real() then Returned(err, l)
    else if cancelled then Returned(Canceled, l)
    else BeginPass(w, l)
  }

  function InClock(w: Worker, cancelled: bool, l: Link, a: Action): Outcome {
    match a
    case SeeCancel => if cancelled then Running(w.(phase := ClockJoin(false)), l) else Blocked
    case TakeToken => if l.token then Running(w.(phase := ClockJoin(true)), Take(l)) else Blocked
    case Join =>
      if !w.clock.Finished? then Blocked
      else if w.clock.err.Real() then Returned(w.clock.err, l)
      else Running(w.(phase := ClockIdle, clock := Absent), l)
    case _ => Blocked
  }

  function InPass(w: Worker, cancelled: bool, l: Link, a: Action): Outcome {
    match a
    case SeeCancel => if cancelled then Running(w.(phase := PassJoin), l) else Blocked
    case TakeToken => if l.token then Running(w.(pending := true), Take(l)) else Blocked
    case Join =>
      if !w.pass.Finished? then Blocked
      else if w.pass.err.Real() then Returned(w.pass.err, l)
      else Running(w.(phase := LoopTop, pass := Absent), l)
    case _ => Blocked
  }

  /** One step of the process or of a goroutine it started. */
  function Step(setup: Setup, w: Worker, cancelled: bool, l: Link, a: Action): Outcome {
    match a
    case ClockEnds(err) => if w.clock.Active? then Running(w.(clock := Finished(err)), l) else Blocked
    case PassEnds(err) => if w.pass.Active? then Running(w.(pass := Finished(err)), l) else Blocked
    case _ =>
      match w.phase
      case Entry =>
        if !a.Advance? then Blocked
        else if !setup.hasDashboard then Returned(Broken("news workflow: dashboard is required"), l)
        else Running(w.(phase := LoopTop), l)
      case LoopTop => if a.Advance? then AtTop(setup, w, cancelled, l) else Blocked
      case Painting => if a.PaintEnds? then AfterPaint(w, cancelled, l, a.err) else Blocked
      case ClockOn => InClock(w, cancelled, l, a)
      case ClockJoin(toPass) =>
        if !a.Join? || !w.clock.Finished? then Blocked
        else if toPass then BeginPass(w, l)
        else Returned(Canceled, l)
      case ClockIdle =>
        if a.SeeCancel? && cancelled then Returned(Canceled, l)
        else if a.TakeToken? && l.token then BeginPass(w, Take(l))
        else Blocked
      case PassOn => InPass(w, cancelled, l, a)
      case PassJoin => if a.Join? && w.pass.Finished? then Returned(Canceled, l) else Blocked
  }

  // ----- what the process keeps -----

  /** The number of passes started so far. */
  function Passes(paints: seq<Paint>): nat {
    if paints == [] then 0
    else Passes(paints[..|paints| - 1]) + if paints[|paints| - 1].Pass? then 1 else 0
  }

  /** Between two passes the clock was put on the screen. */
  ghost predicate ClockBetweenPasses(paints: seq<Paint>) {
    forall i :: 0 < i < |paints| ==> !(paints[i - 1].Pass? && paints[i].Pass?)
  }

  /** A signal was taken for a pass that has not started. */
  predicate Holding(w: Worker) {
    w.pending || w.phase == ClockJoin(true)
  }

  function One(b: bool): nat {
    if b then 1 else 0
  }

  /** Passes still to come if no further signal is sent. */
  function Owed(w: Worker, l: Link): nat {
    One(l.token) + One(Holding(w))
  }

  /** How many of the things the worker runs are drawing right now. */
  function Painters(w: Worker): nat {
    One(w.phase.Painting?) + One(w.clock.Active?) + One(w.pass.Active?)
  }

  /** Which goroutine may exist at which place of the loop. */
  ghost predicate WorkerInv(w: Worker) {
    && (w.clock.Absent? || w.phase.ClockOn? || w.phase.ClockJoin?)
    && (w.phase.ClockOn? || w.phase.ClockJoin? ==> !w.clock.Absent?)
    && (w.pass.Absent? || w.phase.PassOn? || w.phase.PassJoin?)
    && (w.phase.PassOn? || w.phase.PassJoin? ==> !w.pass.Absent?)
    && (w.pending ==> w.phase.LoopTop? || w.phase.Painting? || w.phase.PassOn? || w.phase.PassJoin?)
    && (w.phase.Painting? ==> w.pending)
  }

  /** The channel's books balance, passes never outnumber the signals taken, and the clock
      is shown between passes. */
  ghost predicate LinkInv(setup: Setup, l: Link) {
    && l.sent == l.taken + One(l.token)
    && Passes(l.paints) <= l.taken
    && (setup.hasClock ==> ClockBetweenPasses(l.paints))
  }

  predicate ClockLast(paints: seq<Paint>) {
    paints != [] && paints[|paints| - 1].Clock?
  }

  /** The invariant of a live worker and its link. */
  ghost predicate LiveInv(setup: Setup, w: Worker, l: Link) {
    && WorkerInv(w)
    && LinkInv(setup, l)
    && Passes(l.paints) + One(Holding(w)) <= l.taken
    && (setup.hasClock && (w.phase.Painting? || w.phase.ClockOn? || w.phase.ClockJoin? || w.phase.ClockIdle?)
        ==> ClockLast(l.paints))
  }

  /** What a step must leave behind; a worker that returns has joined everything it
      started, so nothing of it can draw afterwards. */
  ghost predicate Kept(setup: Setup, w: Worker, out: Outcome) {
    match out
    case Blocked => true
    case Running(w', l') => LiveInv(setup, w', l')
    case Returned(_, l') => !w.clock.Active? && !w.pass.Active? && LinkInv(setup, l')
  }

  lemma ShowCounts(l: Link, p: Paint)
    ensures Passes(Show(l, p).paints) == Passes(l.paints) + One(p.Pass?)
    ensures Show(l, p).paints[|l.paints|] == p
  {
    var s := Show(l, p).paints;
    assert s[..|s| - 1] == l.paints;
  }

  lemma BeginPassKeeps(setup: Setup, w: Worker, l: Link)
    requires WorkerInv(w) && !w.clock.Active? && w.pass.Absent?
    requires LinkInv(setup, l) && Passes(l.paints) < l.taken
    requires setup.hasClock ==> ClockLast(l.paints)
    ensures Kept(setup, w, BeginPass(w, l))
  {
    ShowCounts(l, Pass);
  }

  lemma TopKeeps(setup: Setup, w: Worker, cancelled: bool, l: Link)
    requires LiveInv(setup, w, l) && w.phase.LoopTop?
    ensures Kept(setup, w, AtTop(setup, w, cancelled, l))
  {
    ShowCounts(l, Clock);
    if !cancelled && w.pending && !setup.hasClock {
      BeginPassKeeps(setup, w, l);
    }
  }

  lemma IdleKeeps(setup: Setup, w: Worker, l: Link)
    requires LiveInv(setup, w, l) && w.phase.ClockIdle? && l.token
    ensures Kept(setup, w, BeginPass(w, Take(l)))
  {
    BeginPassKeeps(setup, w, Take(l));
  }

  /** Every step of the worker and of its goroutines keeps the invariant. */
  lemma StepKeeps(setup: Setup, w: Worker, cancelled: bool, l: Link, a: Action)
    requires LiveInv(setup, w, l)
    ensures Kept(setup, w, Step(setup, w, cancelled, l, a))
  {
    hide Passes, AtTop, BeginPass, ClockBetweenPasses;
    match w.phase
    case LoopTop => TopKeeps(setup, w, cancelled, l);
    case Painting => BeginPassKeeps(setup, w, l);
    case ClockJoin(toPass) =>
      if toPass && !w.clock.Active? {
        BeginPassKeeps(setup, w, l);
      }
    case ClockIdle =>
      if l.token {
        IdleKeeps(setup, w, l);
      }
    case _ =>
  }

  /** At most one of the clock goroutine, the pass goroutine and ShowClock is running. */
  lemma OnePainter(w: Worker)
    requires WorkerInv(w)
    ensures Painters(w) <= 1
  {
  }

  /** A worker step spends what is owed one for one: the passes started plus the passes
      owed never grow, and a signal adds at most one. So no more than Owed(w, l) <= 2 passes
      can follow without a new signal. */
  lemma StepSpends(setup: Setup, w: Worker, cancelled: bool, l: Link, a: Action)
    requires WorkerInv(w)
    ensures match Step(setup, w, cancelled, l, a)
            case Blocked => true
            case Running(w', l') => Passes(l'.paints) + Owed(w', l') <= Passes(l.paints) + Owed(w, l)
            case Returned(_, l') => Passes(l'.paints) + One(l'.token) <= Passes(l.paints) + Owed(w, l)
  {
    hide Passes;
    ShowCounts(l, Clock);
    ShowCounts(l, Pass);
    ShowCounts(Take(l), Pass);
  }

  // ----- no signal is lost -----

  /** A pass is due: the channel holds a signal, or one was taken and not yet served. */
  predicate Due(w: Worker, l: Link) {
    l.token || Holding(w)
  }

  /** An upper bound on the steps until a due pass starts. */
  function Distance(w: Worker, l: Link): nat {
    match w.phase
    case Entry => 5
    case LoopTop => if w.pending then 2 else 4
    case Painting => 1
    case ClockOn => 2 + One(w.clock.Active?)
    case ClockJoin(_) => 1 + One(w.clock.Active?)
    case ClockIdle => 1
    case PassOn => 5 + One(w.pass.Active?) + One(l.token)
    case PassJoin => 0
  }

  /** The worker is only waiting to return. */
  predicate Leaving(w: Worker) {
    w.phase.PassJoin? || w.phase == ClockJoin(false)
  }

  predicate Closer(w: Worker, l: Link, w': Worker, l': Link) {
    Passes(l'.paints) == Passes(l.paints) && Due(w', l') && Distance(w', l') < Distance(w, l)
  }

  /** While a pass is due and the worker is not cancelled, every step returns with an error,
      starts a pass, or comes strictly closer to starting one; the pass stays due. */
  lemma DueProgress(setup: Setup, w: Worker, l: Link, a: Action)
    requires WorkerInv(w) && Due(w, l) && !Leaving(w)
    ensures var out := Step(setup, w, false, l, a);
            || out.Blocked?
            || (out.Returned? && out.err.Real())
            || (out.Running? && !Leaving(out.worker)
                && (Passes(out.link.paints) == Passes(l.paints) + 1 || Closer(w, l, out.worker, out.link)))
  {
    hide Passes;
    ShowCounts(l, Clock);
    ShowCounts(l, Pass);
    ShowCounts(Take(l), Pass);
  }

  /** While a pass is due the worker is never stuck. */
  lemma DueEnabled(setup: Setup, w: Worker, cancelled: bool, l: Link)
    requires WorkerInv(w) && Due(w, l)
    ensures exists a :: !Step(setup, w, cancelled, l, a).Blocked?
  {
    var a := match w.phase
      case Entry => Advance
      case LoopTop => Advance
      case Painting => PaintEnds(NoError)
      case ClockOn => if w.clock.Active? then ClockEnds(NoError) else Join
      case ClockJoin(_) => if w.clock.Active? then ClockEnds(NoError) else Join
      case ClockIdle => TakeToken
      case PassOn => if w.pass.Active? then PassEnds(NoError) else Join
      case PassJoin => if w.pass.Active? then PassEnds(NoError) else Join;
    assert !Step(setup, w, cancelled, l, a).Blocked?;
  }

  // ----- a cancelled worker returns -----

  /** An upper bound on the steps of a cancelled worker, and of what it started, to its return. */
  function Left(w: Worker, l: Link): nat {
    match w.phase
    case Entry => 2
    case LoopTop => 1
    case Painting => 1
    case ClockOn => 5 + One(w.clock.Active?)
    case ClockJoin(toPass) => (if toPass then 4 + One(l.token) else 1) + One(w.clock.Active?)
    case ClockIdle => 4
    case PassOn => 2 + One(w.pass.Active?) + One(l.token)
    case PassJoin => 1 + One(w.pass.Active?)
  }

  /** Every step of a cancelled worker brings it closer to its return, even one that still starts
      a pass. */
  lemma CancelledProgress(setup: Setup, w: Worker, l: Link, a: Action)
    requires WorkerInv(w)
    ensures Left(w, l) <= 6
    ensures var out := Step(setup, w, true, l, a); out.Running? ==> Left(out.worker, out.link) < Left(w, l)
  {
  }

  /** A cancelled worker is never stuck. */
  lemma CancelledEnabled(setup: Setup, w: Worker, l: Link)
    requires WorkerInv(w)
    ensures exists a :: !Step(setup, w, true, l, a).Blocked?
  {
    var a := match w.phase
      case Entry => Advance
      case LoopTop => Advance
      case Painting => PaintEnds(NoError)
      case ClockOn => SeeCancel
      case ClockJoin(_) => if w.clock.Active? then ClockEnds(NoError) else Join
      case ClockIdle => SeeCancel
      case PassOn => SeeCancel
      case PassJoin => if w.pass.Active? then PassEnds(NoError) else Join;
    assert !Step(setup, w, true, l, a).Blocked?;
  }

  /** A history of one uncancelled worker: its own steps and the supervisor's signals. */
  datatype Move = Act(a: Action) | Signal

  datatype Position = Position(worker: Worker, link: Link)

  function Play(setup: Setup, p: Position, moves: seq<Move>): Option<Position>
    decreases |moves|
  {
    if moves == [] then Some(p)
    else match moves[0]
      case Signal => Play(setup, Position(p.worker, Offer(p.link)), moves[1..])
      case Act(a) =>
        match Step(setup, p.worker, false, p.link, a)
        case Running(w, l) => Play(setup, Position(w, l), moves[1..])
        case _ => None
  }

  function Steps(moves: seq<Move>): nat {
    if moves == [] then 0 else One(moves[0].Act?) + Steps(moves[1..])
  }

  function Signals(moves: seq<Move>): nat {
    if moves == [] then 0 else One(moves[0].Signal?) + Signals(moves[1..])
  }

  lemma {:induction false} PassesNeverShrink(setup: Setup, p: Position, moves: seq<Move>)
    requires Play(setup, p, moves).Some?
    ensures Passes(p.link.paints) <= Passes(Play(setup, p, moves).value.link.paints)
    decreases |moves|
  {
    hide Passes;
    if moves != [] {
      match moves[0]
      case Signal => PassesNeverShrink(setup, Position(p.worker, Offer(p.link)), moves[1..]);
      case Act(a) =>
        var out := Step(setup, p.worker, false, p.link, a);
        ShowCounts(p.link, Clock);
        ShowCounts(p.link, Pass);
        ShowCounts(Take(p.link), Pass);
        PassesNeverShrink(setup, Position(out.worker, out.link), moves[1..]);
    }
  }

  /** A signal that was sent (or merged into one still in the channel) is served by a pass
      that starts after it: in any history in which the worker neither returns nor is
      cancelled, either a new pass has started or it is still due, and it cannot stay due for
      more worker steps than its distance plus the signals sent meanwhile. */
  lemma {:induction false} SignalIsServed(setup: Setup, p: Position, moves: seq<Move>)
    requires LiveInv(setup, p.worker, p.link)
    requires Due(p.worker, p.link) && !Leaving(p.worker)
    requires Play(setup, p, moves).Some?
    ensures var q := Play(setup, p, moves).value;
            || Passes(q.link.paints) > Passes(p.link.paints)
            || (Due(q.worker, q.link)
                && Steps(moves) + Distance(q.worker, q.link)
                   <= Distance(p.worker, p.link) + Signals(moves))
    decreases |moves|
  {
    if moves != [] {
      match moves[0]
      case Signal =>
        SignalIsServed(setup, Position(p.worker, Offer(p.link)), moves[1..]);
      case Act(a) =>
        var out := Step(setup, p.worker, false, p.link, a);
        DueProgress(setup, p.worker, p.link, a);
        StepKeeps(setup, p.worker, false, p.link, a);
        var p' := Position(out.worker, out.link);
        PassesNeverShrink(setup, p', moves[1..]);
        if Passes(out.link.paints) == Passes(p.link.paints) {
          SignalIsServed(setup, p', moves[1..]);
        }
    }
  }

  /** In any history of an uncancelled worker the passes started are at most the passes owed
      at its beginning plus the signals sent during it. */
  lemma {:induction false} PassesBoundedBySignals(setup: Setup, p: Position, moves: seq<Move>)
    requires LiveInv(setup, p.worker, p.link)
    requires Play(setup, p, moves).Some?
    ensures var q := Play(setup, p, moves).value;
            Passes(q.link.paints) + Owed(q.worker, q.link)
            <= Passes(p.link.paints) + Owed(p.worker, p.link) + Signals(moves)
    decreases |moves|
  {
    if moves != [] {
      match moves[0]
      case Signal =>
        PassesBoundedBySignals(setup, Position(p.worker, Offer(p.link)), moves[1..]);
      case Act(a) =>
        var out := Step(setup, p.worker, false, p.link, a);
        StepSpends(setup, p.worker, false, p.link, a);
        StepKeeps(setup, p.worker, false, p.link, a);
        PassesBoundedBySignals(setup, Position(out.worker, out.link), moves[1..]);
    }
  }

  // ----- how many follow-up passes a burst of signals causes -----

  /** Neither goroutine has already returned a real error. */
  predicate Healthy(w: Worker) {
    && !(w.clock.Finished? && w.clock.err.Real())
    && !(w.pass.Finished? && w.pass.err.Real())
  }

  /** The next thing that happens when nothing fails and no `select` swallows a signal. */
  function Friendly(w: Worker): Action {
    match w.phase
    case Entry => Advance
    case LoopTop => Advance
    case Painting => PaintEnds(NoError)
    case ClockOn => TakeToken
    case ClockJoin(_) => if w.clock.Active? then ClockEnds(NoError) else Join
    case ClockIdle => TakeToken
    case _ => if w.pass.Active? then PassEnds(NoError) else Join
  }

  lemma FriendlyRuns(setup: Setup, w: Worker, l: Link)
    requires setup.hasDashboard
    requires WorkerInv(w) && Healthy(w) && !Leaving(w) && Due(w, l)
    ensures var out := Step(setup, w, false, l, Friendly(w));
            out.Running? && Healthy(out.worker)
  {
  }

  lemma FriendlySpendsNothing(setup: Setup, w: Worker, l: Link)
    requires setup.hasDashboard
    requires WorkerInv(w) && Healthy(w) && !Leaving(w) && Due(w, l)
    ensures var out := Step(setup, w, false, l, Friendly(w));
            out.Running?
            && Passes(out.link.paints) + Owed(out.worker, out.link) == Passes(l.paints) + Owed(w, l)
  {
    hide Passes;
    FriendlyRuns(setup, w, l);
    match w.phase
    case LoopTop => ShowCounts(l, Clock); ShowCounts(l, Pass);
    case Painting => ShowCounts(l, Pass);
    case ClockJoin(_) => ShowCounts(l, Pass);
    case ClockIdle => ShowCounts(Take(l), Pass);
    case _ =>
  }

  lemma FriendlyStep(setup: Setup, w: Worker, l: Link)
    requires setup.hasDashboard
    requires LiveInv(setup, w, l) && Healthy(w) && !Leaving(w) && Due(w, l)
    ensures var out := Step(setup, w, false, l, Friendly(w));
            && out.Running? && Healthy(out.worker) && !Leaving(out.worker)
            && LiveInv(setup, out.worker, out.link)
            && Passes(out.link.paints) + Owed(out.worker, out.link) == Passes(l.paints) + Owed(w, l)
            && (Owed(out.worker, out.link) < Owed(w, l) || Closer(w, l, out.worker, out.link))
  {
    FriendlyRuns(setup, w, l);
    FriendlySpendsNothing(setup, w, l);
    DueProgress(setup, w, l, Friendly(w));
    StepKeeps(setup, w, false, l, Friendly(w));
  }

  /** Owed is attained: without failures and further signals the worker can start exactly
      Owed(w, l) more passes, so together with PassesBoundedBySignals it is their maximum. */
  lemma {:induction false} OwedIsAttained(setup: Setup, p: Position) returns (moves: seq<Move>)
    requires setup.hasDashboard
    requires LiveInv(setup, p.worker, p.link) && Healthy(p.worker) && !Leaving(p.worker)
    ensures Signals(moves) == 0 && Play(setup, p, moves).Some?
    ensures var q := Play(setup, p, moves).value;
            Owed(q.worker, q.link) == 0
            && Passes(q.link.paints) == Passes(p.link.paints) + Owed(p.worker, p.link)
    decreases Owed(p.worker, p.link), Distance(p.worker, p.link)
  {
    if Owed(p.worker, p.link) == 0 {
      moves := [];
    } else {
      FriendlyStep(setup, p.worker, p.link);
      var out := Step(setup, p.worker, false, p.link, Friendly(p.worker));
      var rest := OwedIsAttained(setup, Position(out.worker, out.link));
      moves := [Act(Friendly(p.worker))] + rest;
      assert moves[1..] == rest;
    }
  }

  /** Every way on without a further signal starts at most one more pass. */
  ghost predicate OneFollowUp(setup: Setup, p: Position) {
    forall moves :: Signals(moves) == 0 && Play(setup, p, moves).Some? ==>
      Passes(Play(setup, p, moves).value.link.paints) <= Passes(p.link.paints) + 1
  }

  /** The README of the repository promises one follow-up pass for ticks that arrive during a
      pass. For a pass of a worker in which nothing has failed, that is assured if and only if not
      both `pending` is set and another signal sits in the channel. */
  lemma OneFollowUpIff(setup: Setup, p: Position)
    requires setup.hasDashboard
    requires LiveInv(setup, p.worker, p.link) && Healthy(p.worker) && p.worker.phase.PassOn?
    ensures OneFollowUp(setup, p) <==> !(p.worker.pending && p.link.token)
  {
    if p.worker.pending && p.link.token {
      var moves := OwedIsAttained(setup, p);
      assert Passes(Play(setup, p, moves).value.link.paints) == Passes(p.link.paints) + 2;
    } else {
      forall moves | Signals(moves) == 0 && Play(setup, p, moves).Some?
        ensures Passes(Play(setup, p, moves).value.link.paints) <= Passes(p.link.paints) + 1
      {
        PassesBoundedBySignals(setup, p, moves);
      }
    }
  }

  /** Even then there may be only one: the select may take the second signal during the same pass,
      which merges the two. */
  lemma SecondSignalMayMerge(setup: Setup, p: Position)
    requires LiveInv(setup, p.worker, p.link) && p.worker.phase.PassOn? && p.worker.pending && p.link.token
    ensures var q := Play(setup, p, [Act(TakeToken)]);
            q.Some? && Owed(q.value.worker, q.value.link) == 1 && q.value.worker.phase.PassOn?
  {
    assert [Act(TakeToken)][1..] == [];
  }

  /** The promise fails during every pass: a tick, its receipt, and a second tick leave two passes
      owed. */
  lemma TwoFollowUps(setup: Setup, p: Position)
    requires LiveInv(setup, p.worker, p.link) && p.worker.phase.PassOn?
    ensures var q := Play(setup, p, if p.link.token then [Act(TakeToken), Signal]
                                                     else [Signal, Act(TakeToken), Signal]);
            q.Some? && Owed(q.value.worker, q.value.link) == 2
  {
    var l := Offer(p.link);
    var p' := Position(p.worker.(pending := true), Take(l));
    var tail := [Act(TakeToken), Signal];
    assert tail[1..] == [Signal];
    assert [Signal][1..] == [];
    assert Play(setup, Position(p'.worker, Offer(p'.link)), []) == Some(Position(p'.worker, Offer(p'.link)));
    assert Play(setup, p', [Signal]) == Some(Position(p'.worker, Offer(p'.link)));
    assert Play(setup, Position(p.worker, l), tail) == Play(setup, p', [Signal]);
    assert ([Signal] + tail)[1..] == tail;
  }

  // ----- the loop as imperative code -----

  /** What a piece of the loop did: it is still waiting, it moved on, or Run returned. */
  datatype Progress = Waits | MovesOn | Leaves(err: RunError)

  /** One activation of Run: its local variable `pending`, the place it has reached, its two
      child goroutines, and the channel and screen it works on. */
  class Activation {
    const setup: Setup
    var phase: Phase
    var pending: bool
    var clock: Child
    var pass: Child
    var link: Link

    constructor (setup: Setup, link: Link)
      ensures this.setup == setup && View() == NEW_WORKER && this.link == link
    {
      this.setup, this.link := setup, link;
      phase, pending, clock, pass := Entry, false, Absent, Absent;
    }

    function View(): Worker
      reads this
    {
      Worker(phase, pending, clock, pass)
    }

    /** The progress and the new fields are those of an outcome of the specification. */
    twostate predicate Follows(out: Outcome, r: Progress)
      reads this
    {
      match out
      case Blocked => r == Waits && View() == old(View()) && link == old(link)
      case Running(w, l) => r == MovesOn && View() == w && link == l
      case Returned(err, l) => r == Leaves(err) && link == l
    }

    method StartPass() returns (r: Progress)
      modifies this
      ensures Follows(BeginPass(old(View()), old(link)), r)
    {
      pending := false;
      clock, pass := Absent, Active;
      link := Show(link, Pass);
      phase := PassOn;
      return MovesOn;
    }

    /** The head of the outer loop. */
    method LoopHead(cancelled: bool) returns (r: Progress)
      modifies this
      ensures Follows(AtTop(setup, old(View()), cancelled, old(link)), r)
    {
      if cancelled {
        return Leaves(Canceled);
      }
      if pending {
        if !setup.hasClock {
          r := StartPass();
          return;
        }
        link := Show(link, Clock);
        phase := Painting;
      } else if setup.hasClock {
        clock := Active;
        link := Show(link, Clock);
        phase := ClockOn;
      } else {
        phase := ClockIdle;
      }
      return MovesOn;
    }

    /** ShowClock has returned. */
    method PaintedOnce(err: RunError, cancelled: bool) returns (r: Progress)
      modifies this
      ensures Follows(AfterPaint(old(View()), cancelled, old(link), err), r)
    {
      if err.Real() {
        return Leaves(err);
      }
      if cancelled {
        return Leaves(Canceled);
      }
      r := StartPass();
    }

    method ReceiveToken() returns (ok: bool)
      modifies this`link
      ensures ok == old(link.token)
      ensures link == if ok then Take(old(link)) else old(link)
    {
      ok := link.token;
      if ok {
        link := Take(link);
      }
    }

    /** The select of runClockUntil. */
    method ClockSelect(a: Action, cancelled: bool) returns (r: Progress)
      modifies this
      ensures Follows(InClock(old(View()), cancelled, old(link), a), r)
    {
      r := Waits;
      match a {
        case SeeCancel =>
          if cancelled {
            phase := ClockJoin(false);
            return MovesOn;
          }
        case TakeToken =>
          var ok := ReceiveToken();
          if ok {
            phase := ClockJoin(true);
            return MovesOn;
          }
        case Join =>
          if clock.Finished? {
            if clock.err.Real() {
              return Leaves(clock.err);
            }
            clock := Absent;
            phase := ClockIdle;
            return MovesOn;
          }
        case _ =>
      }
    }

    /** The select of cycleWait. */
    method PassSelect(a: Action, cancelled: bool) returns (r: Progress)
      modifies this
      ensures Follows(InPass(old(View()), cancelled, old(link), a), r)
    {
      r := Waits;
      match a {
        case SeeCancel =>
          if cancelled {
            phase := PassJoin;
            return MovesOn;
          }
        case TakeToken =>
          var ok := ReceiveToken();
          if ok {
            pending := true;
            return MovesOn;
          }
        case Join =>
          if pass.Finished? {
            if pass.err.Real() {
              return Leaves(pass.err);
            }
            pass := Absent;
            phase := LoopTop;
            return MovesOn;
          }
        case _ =>
      }
    }

    /** waitForRefresh. */
    method WaitForRefresh(a: Action, cancelled: bool) returns (r: Progress)
      requires phase.ClockIdle? && !clock.Active? && !pass.Active?
      modifies this
      ensures Follows(Step(setup, old(View()), cancelled, old(link), a), r)
    {
      r := Waits;
      if a.SeeCancel? && cancelled {
        return Leaves(Canceled);
      }
      if a.TakeToken? {
        var ok := ReceiveToken();
        if ok {
          r := StartPass();
        }
      }
    }

    /** Whatever happens next, the code does what Step says. */
    method React(a: Action, cancelled: bool) returns (r: Progress)
      requires WorkerInv(View())
      modifies this
      ensures Follows(Step(setup, old(View()), cancelled, old(link), a), r)
    {
      r := Waits;
      if a.ClockEnds? {
        if clock.Active? {
          clock := Finished(a.err);
          r := MovesOn;
        }
        return;
      }
      if a.PassEnds? {
        if pass.Active? {
          pass := Finished(a.err);
          r := MovesOn;
        }
        return;
      }
      match phase {
        case Entry =>
          if a.Advance? {
            if !setup.hasDashboard {
              return Leaves(Broken("news workflow: dashboard is required"));
            }
            phase := LoopTop;
            r := MovesOn;
          }
        case LoopTop =>
          if a.Advance? {
            r := LoopHead(cancelled);
          }
        case Painting =>
          if a.PaintEnds? {
            r := PaintedOnce(a.err, cancelled);
          }
        case ClockOn => r := ClockSelect(a, cancelled);
        case ClockJoin(toPass) =>
          if a.Join? && clock.Finished? {
            if toPass {
              r := StartPass();
            } else {
              r := Leaves(Canceled);
            }
          }
        case ClockIdle => r := WaitForRefresh(a, cancelled);
        case PassOn => r := PassSelect(a, cancelled);
        case PassJoin =>
          if a.Join? && pass.Finished? {
            r := Leaves(Canceled);
          }
      }
    }
  }
}
