/** The timed alert of alert.Run: show, hold until the timer or cancellation, clear. */
module AlertRun {
  import opened Common

  datatype Alert = Alert(operationId: string, message: string)

  datatype Stage = Showing | Held | ClearingInTime | ClearingEarly

  /** A call of the presenter. */
  datatype Presenter = Show(item: Alert) | Clear(item: Alert)

  datatype Action =
    | ShowEnds(err: RunError)
    | TimerFires
    | SeeCancel
    | ClearEnds(err: RunError)

  datatype Outcome =
    | Blocked
    | Running(stage: Stage, calls: seq<Presenter>)
    | Returned(err: RunError)

  /** One step of the goroutine; `calls` are the presenter calls it begins. */
  function Step(stage: Stage, item: Alert, cancelled: bool, a: Action): Outcome {
    match stage
    case Showing =>
      if !a.ShowEnds? then Blocked
      else if a.err != NoError then Returned(a.err)
      else Running(Held, [])
    case Held =>
      if a.TimerFires? then Running(ClearingInTime, [Clear(item)])
      else if a.SeeCancel? && cancelled then Running(ClearingEarly, [Clear(item)])
      else Blocked
    case ClearingInTime => if a.ClearEnds? then Returned(a.err) else Blocked
    case ClearingEarly => if a.ClearEnds? then Returned(Canceled) else Blocked
  }

  /** How many more steps the goroutine takes at most. */
  function Left(stage: Stage): nat {
    match stage
    case Showing => 3
    case Held => 2
    case _ => 1
  }

  /** What Run returns and which presenter calls it makes, for given results of those calls. */
  datatype Finished = Finished(err: RunError, calls: seq<Presenter>)

  function Drive(stage: Stage, item: Alert, cancelled: bool, actions: seq<Action>, calls: seq<Presenter>)
    : Option<Finished>
    decreases |actions|
  {
    if actions == [] then None
    else match Step(stage, item, cancelled, actions[0])
      case Blocked => None
      case Running(stage', more) => Drive(stage', item, cancelled, actions[1..], calls + more)
      case Returned(err) => if |actions| == 1 then Some(Finished(err, calls)) else None
  }

  /** Run as code: `early` says whether cancellation wins the select. */
  method Run(item: Alert, shown: RunError, early: bool, cleared: RunError)
    returns (err: RunError, calls: seq<Presenter>)
    ensures shown == NoError ==>
              Drive(Showing, item, early,
                    [ShowEnds(shown), if early then SeeCancel else TimerFires, ClearEnds(cleared)], [Show(item)])
              == Some(Finished(err, calls))
    ensures shown != NoError ==>
              Drive(Showing, item, early, [ShowEnds(shown)], [Show(item)]) == Some(Finished(err, calls))
  {
    calls := [Show(item)];
    if shown != NoError {
      return shown, calls;
    }
    calls := calls + [Clear(item)];
    err := if early then Canceled else cleared;
    var select := if early then SeeCancel else TimerFires;
    var script := [ShowEnds(shown), select, ClearEnds(cleared)];
    assert script[1..] == [select, ClearEnds(cleared)];
    assert script[1..][1..] == [ClearEnds(cleared)];
    assert Drive(if early then ClearingEarly else ClearingInTime, item, early, [ClearEnds(cleared)], calls)
        == Some(Finished(err, calls));
    assert [Show(item)] + [] == [Show(item)];
    assert Drive(Held, item, early, script[1..], [Show(item)]) == Some(Finished(err, calls));
  }

  /** However the goroutine is scheduled, an alert that was shown is cleared exactly once
      before Run returns, one whose Show failed is never cleared, and only the timer lets the
      result of Clear through. */
  lemma {:induction false} ShownIsCleared(
      stage: Stage, item: Alert, cancelled: bool, actions: seq<Action>, calls: seq<Presenter>)
    requires Drive(stage, item, cancelled, actions, calls).Some?
    ensures var f := Drive(stage, item, cancelled, actions, calls).value;
            var shown := stage.Held? || (stage.Showing? && actions[0] == ShowEnds(NoError));
            && f.calls == calls + (if shown then [Clear(item)] else [])
            && (stage.Showing? && actions[0] != ShowEnds(NoError) ==> actions == [ShowEnds(f.err)])
            && (f.err == NoError ==> actions[|actions| - 1] == ClearEnds(NoError))
    decreases |actions|
  {
    var out := Step(stage, item, cancelled, actions[0]);
    if out.Running? {
      ShownIsCleared(out.stage, item, cancelled, actions[1..], calls + out.calls);
      assert calls + [] == calls;
    }
  }
}
