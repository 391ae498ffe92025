/** The active window against the daily cron events, and the news-pass minutes. */
module Schedule {

  // ----- the active window -----

  /** Instants are nanoseconds since some midnight of a zone with a fixed offset. */
  const MINUTE := 60_000_000_000
  const DAY := 24 * 60 * MINUTE

  /** Hours and minutes as the configuration admits them. */
  datatype TimeOfDay = TimeOfDay(hour: int, minute: int) {

    predicate Valid() {
      0 <= hour < 24 && 0 <= minute < 60
    }

    /** The distance from midnight. */
    function Offset(): (o: int)
      requires Valid()
      ensures 0 <= o < DAY
    {
      (hour * 60 + minute) * MINUTE
    }
  }

  function DayOf(now: int): (d: int)
    ensures d * DAY <= now < (d + 1) * DAY
  {
    now / DAY
  }

  /** time.Date: the instant of a time of day on a given day. */
  function At(day: int, t: TimeOfDay): int
    requires t.Valid()
  {
    day * DAY + t.Offset()
  }

  predicate IsInsideActiveWindow(now: int, start: TimeOfDay, stop: TimeOfDay)
    requires start.Valid() && stop.Valid()
  {
    var begin, end := At(DayOf(now), start), At(DayOf(now), stop);
    if begin < end then begin <= now < end else begin <= now || now < end
  }

  // ----- the cron history -----

  /** The job fires at its time of day on every day. */
  ghost predicate FiresAt(t: TimeOfDay, instant: int)
    requires t.Valid()
  {
    exists day :: At(day, t) == instant
  }

  /** `event` is the last firing of a start or stop job no later than `now`. */
  ghost predicate LatestEvent(event: int, now: int, start: TimeOfDay, stop: TimeOfDay)
    requires start.Valid() && stop.Valid()
  {
    event <= now && (FiresAt(start, event) || FiresAt(stop, event))
    && forall later :: event < later <= now ==> !FiresAt(start, later) && !FiresAt(stop, later)
  }

  /** The last time a job fired: today, or yesterday if today's time is still to come. */
  function LastFiring(t: TimeOfDay, now: int): int
    requires t.Valid()
  {
    var d := DayOf(now);
    if At(d, t) <= now then At(d, t) else At(d - 1, t)
  }

  lemma DaysOrdered(a: int, b: int)
    requires a < b
    ensures a * DAY + DAY <= b * DAY
  {
  }

  lemma LastFiringIsLast(t: TimeOfDay, now: int)
    requires t.Valid()
    ensures FiresAt(t, LastFiring(t, now)) && now - DAY < LastFiring(t, now) <= now
    ensures forall later :: LastFiring(t, now) < later <= now ==> !FiresAt(t, later)
  {
    var d := DayOf(now);
    var last := LastFiring(t, now);
    assert FiresAt(t, last) by {
      assert At(d, t) == last || At(d - 1, t) == last;
    }
    forall later | last < later <= now ensures !FiresAt(t, later) {
      if FiresAt(t, later) {
        var day :| At(day, t) == later;
        if day > d {
          DaysOrdered(d, day);
        } else if day < d {
          DaysOrdered(day, d);
          if day < d - 1 {
            DaysOrdered(day, d - 1);
          }
        }
      }
    }
  }

  /** The two jobs never fire together unless they have the same time of day. */
  lemma FiringsApart(start: TimeOfDay, stop: TimeOfDay, instant: int)
    requires start.Valid() && stop.Valid() && start != stop
    ensures !(FiresAt(start, instant) && FiresAt(stop, instant))
  {
    if FiresAt(start, instant) && FiresAt(stop, instant) {
      var a :| At(a, start) == instant;
      var b :| At(b, stop) == instant;
      OffsetsDiffer(start, stop);
      if a < b {
        DaysOrdered(a, b);
      } else if b < a {
        DaysOrdered(b, a);
      }
      assert false;
    }
  }

  lemma OffsetsDiffer(a: TimeOfDay, b: TimeOfDay)
    requires a.Valid() && b.Valid() && a != b
    ensures a.Offset() != b.Offset()
  {
  }

  /** The window is exactly the replay of the cron jobs: now is inside if and only if the latest
      event no later than now is a start, on ordinary and overnight windows alike. */
  lemma WindowReplaysCron(now: int, event: int, start: TimeOfDay, stop: TimeOfDay)
    requires start.Valid() && stop.Valid() && start != stop
    requires LatestEvent(event, now, start, stop)
    ensures IsInsideActiveWindow(now, start, stop) <==> FiresAt(start, event)
  {
    LastFiringIsLast(start, now);
    LastFiringIsLast(stop, now);
    OffsetsDiffer(start, stop);
    FiringsApart(start, stop, event);
    var s, e := LastFiring(start, now), LastFiring(stop, now);
    assert event == s || event == e;
    assert event >= s && event >= e;
    WindowByLastFirings(now, start, stop);
  }

  lemma WindowByLastFirings(now: int, start: TimeOfDay, stop: TimeOfDay)
    requires start.Valid() && stop.Valid() && start != stop
    ensures LastFiring(start, now) != LastFiring(stop, now)
    ensures IsInsideActiveWindow(now, start, stop) <==> LastFiring(start, now) > LastFiring(stop, now)
  {
    OffsetsDiffer(start, stop);
    var d := DayOf(now);
    DayEarlier(d, start);
    DayEarlier(d, stop);
  }

  lemma DayEarlier(day: int, t: TimeOfDay)
    requires t.Valid()
    ensures At(day - 1, t) == At(day, t) - DAY
    ensures day * DAY <= At(day, t) < day * DAY + DAY
  {
  }

  /** There always is a latest event, so the equivalence is never about nothing. */
  lemma LatestEventExists(now: int, start: TimeOfDay, stop: TimeOfDay) returns (event: int)
    requires start.Valid() && stop.Valid()
    ensures LatestEvent(event, now, start, stop)
  {
    LastFiringIsLast(start, now);
    LastFiringIsLast(stop, now);
    var s, e := LastFiring(start, now), LastFiring(stop, now);
    event := if s < e then e else s;
  }

  // ----- a process that is started and then follows the jobs -----

  datatype Job = StartJob | StopJob

  /** The job that fires at an instant. */
  ghost function Firing(instant: int, start: TimeOfDay, stop: TimeOfDay): seq<Job>
    requires start.Valid() && stop.Valid()
  {
    if FiresAt(start, instant) then [StartJob] else if FiresAt(stop, instant) then [StopJob] else []
  }

  /** The jobs that fire after `since` and no later than `now`, in order. */
  ghost function Heard(since: int, now: int, start: TimeOfDay, stop: TimeOfDay): seq<Job>
    requires start.Valid() && stop.Valid()
    decreases now - since
  {
    if now <= since then [] else Heard(since, now - 1, start, stop) + Firing(now, start, stop)
  }

  /** What is asked of the supervisor after one job, and after several. */
  function Obeyed(wanted: bool, job: Job): bool {
    match job
    case StartJob => true
    case StopJob => false
  }

  function Obey(wanted: bool, jobs: seq<Job>): bool {
    if jobs == [] then wanted else Obeyed(Obey(wanted, jobs[..|jobs| - 1]), jobs[|jobs| - 1])
  }

  lemma FiresToday(t: TimeOfDay, now: int)
    requires t.Valid()
    ensures FiresAt(t, now) <==> now == At(DayOf(now), t)
  {
    var d := DayOf(now);
    if FiresAt(t, now) {
      var day :| At(day, t) == now;
      if day < d {
        DaysOrdered(day, d);
      } else if day > d {
        DaysOrdered(d, day);
      }
    }
  }

  lemma DayBefore(now: int)
    ensures DayOf(now - 1) == (if now == DayOf(now) * DAY then DayOf(now) - 1 else DayOf(now))
  {
  }

  /** The window opens and closes exactly with the jobs. */
  lemma WindowTurns(now: int, start: TimeOfDay, stop: TimeOfDay)
    requires start.Valid() && stop.Valid() && start != stop
    ensures IsInsideActiveWindow(now, start, stop)
            == Obey(IsInsideActiveWindow(now - 1, start, stop), Firing(now, start, stop))
    ensures IsInsideActiveWindow(now, start, stop) != IsInsideActiveWindow(now - 1, start, stop)
            <==> Firing(now, start, stop) != []
  {
    OffsetsDiffer(start, stop);
    FiresToday(start, now);
    FiresToday(stop, now);
    DayBefore(now);
  }

  lemma {:induction false} ObeyLast(wanted: bool, jobs: seq<Job>, more: seq<Job>)
    requires |more| <= 1
    ensures Obey(wanted, jobs + more) == Obey(Obey(wanted, jobs), more)
  {
    if more == [] {
      assert jobs + more == jobs;
    } else {
      assert (jobs + more)[..|jobs|] == jobs;
      assert more[..0] == [];
    }
  }

  /** The jobs heard since some instant decide what is asked for; without any the window has not
      changed. */
  lemma {:induction false} HeardDecides(wanted: bool, since: int, now: int, start: TimeOfDay, stop: TimeOfDay)
    requires start.Valid() && stop.Valid() && start != stop && since <= now
    ensures var jobs := Heard(since, now, start, stop);
            && Obey(wanted, jobs) == (if jobs == [] then wanted else IsInsideActiveWindow(now, start, stop))
            && (jobs == [] ==> IsInsideActiveWindow(now, start, stop) == IsInsideActiveWindow(since, start, stop))
    decreases now - since
  {
    if since < now {
      HeardDecides(wanted, since, now - 1, start, stop);
      WindowTurns(now, start, stop);
      ObeyLast(wanted, Heard(since, now - 1, start, stop), Firing(now, start, stop));
    }
  }

  /** The window looks the same at two instants exactly if an even number of jobs fired between
      them. */
  lemma {:induction false} HeardParity(since: int, now: int, start: TimeOfDay, stop: TimeOfDay)
    requires start.Valid() && stop.Valid() && start != stop && since <= now
    ensures IsInsideActiveWindow(since, start, stop) == IsInsideActiveWindow(now, start, stop)
            <==> |Heard(since, now, start, stop)| % 2 == 0
    decreases now - since
  {
    if since < now {
      HeardParity(since, now - 1, start, stop);
      WindowTurns(now, start, stop);
      OneMore(|Heard(since, now - 1, start, stop)|, |Firing(now, start, stop)|);
    }
  }

  lemma OneMore(a: nat, b: nat)
    requires b <= 1
    ensures (a + b) % 2 == 0 <==> (a % 2 == 0 <==> b == 0)
  {
  }

  /** A process looks at the window at `boot` and hears the jobs only from `armed` on. What it
      then asks for agrees with the window if and only if a job has been heard since, or the jobs
      missed between `boot` and `armed` undid each other. */
  lemma RestartAgreesIff(boot: int, armed: int, now: int, start: TimeOfDay, stop: TimeOfDay)
    requires start.Valid() && stop.Valid() && start != stop && boot <= armed <= now
    ensures Obey(IsInsideActiveWindow(boot, start, stop), Heard(armed, now, start, stop))
            == IsInsideActiveWindow(now, start, stop)
            <==> Heard(armed, now, start, stop) != []
                 || IsInsideActiveWindow(boot, start, stop) == IsInsideActiveWindow(armed, start, stop)
    ensures IsInsideActiveWindow(boot, start, stop) == IsInsideActiveWindow(armed, start, stop)
            <==> |Heard(boot, armed, start, stop)| % 2 == 0
  {
    HeardDecides(IsInsideActiveWindow(boot, start, stop), armed, now, start, stop);
    HeardParity(boot, armed, start, stop);
  }

  // ----- jobs that the supervisor refuses -----

  /** The jobs carried out, of those heard: one is refused when the command queue is full. */
  function Accepted(jobs: seq<Job>, taken: seq<bool>): seq<Job>
    requires |taken| == |jobs|
  {
    if jobs == [] then []
    else
      var n := |jobs| - 1;
      Accepted(jobs[..n], taken[..n]) + if taken[n] then [jobs[n]] else []
  }

  /** How many jobs have been refused since the last one carried out. */
  function Refused(taken: seq<bool>): nat {
    if taken == [] || taken[|taken| - 1] then 0 else 1 + Refused(taken[..|taken| - 1])
  }

  lemma OneMoreJob(wanted: bool, jobs: seq<Job>, more: seq<Job>, taken: seq<bool>)
    requires |more| <= 1 && |taken| == |jobs| + |more|
    ensures var before := taken[..|jobs|];
            if more == [] then before == taken && jobs + more == jobs
            else
              Obey(wanted, Accepted(jobs + more, taken))
              == (if taken[|jobs|] then Obeyed(Obey(wanted, Accepted(jobs, before)), more[0])
                  else Obey(wanted, Accepted(jobs, before)))
  {
    var before := taken[..|jobs|];
    if more != [] {
      assert (jobs + more)[..|jobs|] == jobs;
      if taken[|jobs|] {
        assert (Accepted(jobs, before) + more)[..|Accepted(jobs, before)|] == Accepted(jobs, before);
        assert more == [more[0]];
      } else {
        assert Accepted(jobs, before) + [] == Accepted(jobs, before);
      }
    }
  }

  /** Once a job has been carried out, what is asked for agrees with the window if and only if the
      jobs refused since the last one carried out undid each other. */
  predicate Agrees(wanted: bool, asked: bool, open: bool, taken: seq<bool>) {
    if true in taken then asked == open <==> Refused(taken) % 2 == 0 else asked == wanted
  }

  lemma OneMoreAgrees(wanted: bool, asked: bool, open: bool, before: seq<bool>, taken: seq<bool>)
    requires Agrees(wanted, asked, open, before) && taken != [] && before == taken[..|taken| - 1]
    ensures Agrees(wanted, if taken[|taken| - 1] then !open else asked, !open, taken)
  {
    assert taken == before + [taken[|taken| - 1]];
    OneMore(Refused(before), 1);
  }

  lemma {:induction false} AcceptedDecides(wanted: bool, since: int, now: int, start: TimeOfDay, stop: TimeOfDay,
                                           taken: seq<bool>)
    requires start.Valid() && stop.Valid() && start != stop && since <= now
    requires |taken| == |Heard(since, now, start, stop)|
    ensures var asked := Obey(wanted, Accepted(Heard(since, now, start, stop), taken));
            Agrees(wanted, asked, IsInsideActiveWindow(now, start, stop), taken)
    decreases now - since
  {
    if since < now {
      hide *;
      var before, more := Heard(since, now - 1, start, stop), Firing(now, start, stop);
      HeardMore(since, now, start, stop);
      AcceptedDecides(wanted, since, now - 1, start, stop, taken[..|before|]);
      OneMoreJob(wanted, before, more, taken);
      WindowTurns(now, start, stop);
      if more != [] {
        var asked := Obey(wanted, Accepted(before, taken[..|before|]));
        var open := IsInsideActiveWindow(now - 1, start, stop);
        JobOpens(open, more);
        OneMoreAgrees(wanted, asked, open, taken[..|before|], taken);
      }
    }
  }

  lemma HeardMore(since: int, now: int, start: TimeOfDay, stop: TimeOfDay)
    requires start.Valid() && stop.Valid() && since < now
    ensures Heard(since, now, start, stop) == Heard(since, now - 1, start, stop) + Firing(now, start, stop)
    ensures |Firing(now, start, stop)| <= 1
  {
  }

  lemma JobOpens(open: bool, more: seq<Job>)
    requires |more| == 1
    ensures forall wanted :: Obeyed(wanted, more[0]) == Obey(open, more)
  {
  }

  /** Whatever jobs are refused, the process agrees with the window if and only if an even number of
      jobs has fired since the last one carried out, or since it looked, if none has been. */
  lemma AcceptedAgreesIff(boot: int, armed: int, now: int, start: TimeOfDay, stop: TimeOfDay, taken: seq<bool>)
    requires start.Valid() && stop.Valid() && start != stop && boot <= armed <= now
    requires |taken| == |Heard(armed, now, start, stop)|
    ensures Obey(IsInsideActiveWindow(boot, start, stop), Accepted(Heard(armed, now, start, stop), taken))
            == IsInsideActiveWindow(now, start, stop)
            <==> if true in taken then Refused(taken) % 2 == 0 else |Heard(boot, now, start, stop)| % 2 == 0
  {
    AcceptedDecides(IsInsideActiveWindow(boot, start, stop), armed, now, start, stop, taken);
    HeardParity(boot, now, start, stop);
  }

  lemma {:induction false} HeardNothing(since: int, now: int, start: TimeOfDay, stop: TimeOfDay)
    requires start.Valid() && stop.Valid()
    requires forall t :: since < t <= now ==> Firing(t, start, stop) == []
    ensures Heard(since, now, start, stop) == []
    decreases now - since
  {
    if since < now {
      HeardNothing(since, now - 1, start, stop);
    }
  }

  /** The input on which it does not agree: the process looks one second before eight in the
      morning, hears the jobs from one second after it, and at nine still asks for nothing. */
  lemma StartIsMissed()
    ensures var start, stop := TimeOfDay(8, 0), TimeOfDay(22, 0);
            var boot, armed, now := At(0, start) - MINUTE / 60, At(0, start) + MINUTE / 60, At(0, TimeOfDay(9, 0));
            && Heard(armed, now, start, stop) == []
            && !Obey(IsInsideActiveWindow(boot, start, stop), Heard(armed, now, start, stop))
            && IsInsideActiveWindow(now, start, stop)
  {
    var start, stop := TimeOfDay(8, 0), TimeOfDay(22, 0);
    var armed, now := At(0, start) + MINUTE / 60, At(0, TimeOfDay(9, 0));
    forall t | armed < t <= now ensures Firing(t, start, stop) == [] {
      assert DayOf(t) == 0;
      FiresToday(start, t);
      FiresToday(stop, t);
    }
    HeardNothing(armed, now, start, stop);
  }

  // ----- news passes -----

  datatype Spec = Minutes(minutes: seq<int>) | OutOfRange | NotWholeMinutes | NotADivisor

  /** The minutes of the hour at which the news-pass job fires, or the reason there are none: the
      k-th is k intervals into the hour, and together they fill the hour exactly. */
  method NewsPassCronSpec(interval: int) returns (spec: Spec)
    ensures spec.OutOfRange? <==> interval <= 0 || interval > 60 * MINUTE
    ensures spec.NotWholeMinutes? <==> 0 < interval <= 60 * MINUTE && interval % MINUTE != 0
    ensures spec.NotADivisor? <==>
              0 < interval <= 60 * MINUTE && interval % MINUTE == 0 && 60 % (interval / MINUTE) != 0
    ensures spec.Minutes? ==> Even(spec.minutes, interval / MINUTE)
  {
    if interval <= 0 || interval > 60 * MINUTE {
      return OutOfRange;
    }
    if interval % MINUTE != 0 {
      return NotWholeMinutes;
    }
    var minutes := interval / MINUTE;
    if 60 % minutes != 0 {
      return NotADivisor;
    }
    var parts: seq<int> := [];
    var m := 0;
    while m < 60
      invariant m == |parts| * minutes
      invariant |parts| <= 60 / minutes
      invariant forall k :: 0 <= k < |parts| ==> parts[k] == k * minutes
      decreases 60 - m
    {
      DivisorRoom(|parts|, minutes);
      parts := parts + [m];
      m := m + minutes;
    }
    HourFilled(|parts|, minutes);
    return Minutes(parts);
  }

  ghost predicate Even(parts: seq<int>, minutes: int) {
    |parts| * minutes == 60 && forall k :: 0 <= k < |parts| ==> parts[k] == k * minutes
  }

  lemma DivisorRoom(k: nat, minutes: int)
    requires 0 < minutes && 60 % minutes == 0 && k * minutes < 60
    ensures k < 60 / minutes
  {
    var n := 60 / minutes;
    assert n * minutes == 60;
    if k >= n {
      TimesMonotone(n, k, minutes);
    }
  }

  lemma HourFilled(k: nat, minutes: int)
    requires 0 < minutes && 60 % minutes == 0 && k * minutes >= 60 && k <= 60 / minutes
    ensures k * minutes == 60
  {
    assert 60 / minutes * minutes == 60;
    TimesMonotone(k, 60 / minutes, minutes);
  }

  lemma TimesMonotone(a: int, b: int, m: int)
    requires a <= b && 0 < m
    ensures a * m <= b * m
  {
    assert (b - a) * m >= 0;
    assert b * m == a * m + (b - a) * m;
  }

  /** The job fires at the listed minutes of every hour. */
  predicate PassAt(minute: int, parts: seq<int>) {
    minute % 60 in parts
  }

  ghost predicate IsMultiple(minute: int, minutes: int) {
    exists k: int :: minute == k * minutes
  }

  /** The passes are evenly spaced over all time, across hour and day boundaries: counted from any
      full hour, the job fires exactly at the multiples of the interval. */
  lemma PassesAreEven(minute: int, parts: seq<int>, minutes: int)
    requires 0 < minutes && Even(parts, minutes)
    ensures PassAt(minute, parts) <==> IsMultiple(minute, minutes)
  {
    if PassAt(minute, parts) {
      PassIsMultiple(minute, parts, minutes);
    }
    if IsMultiple(minute, minutes) {
      MultipleIsPass(minute, parts, minutes);
    }
  }

  lemma PassIsMultiple(minute: int, parts: seq<int>, minutes: int)
    requires 0 < minutes && Even(parts, minutes) && PassAt(minute, parts)
    ensures IsMultiple(minute, minutes)
  {
    var n, hour := |parts|, minute / 60;
    var k :| 0 <= k < n && parts[k] == minute % 60;
    Regrouped(hour, n, k, minutes);
    assert minute == (hour * n + k) * minutes;
  }

  lemma MultipleIsPass(minute: int, parts: seq<int>, minutes: int)
    requires 0 < minutes && Even(parts, minutes) && IsMultiple(minute, minutes)
    ensures PassAt(minute, parts)
  {
    var n, hour := |parts|, minute / 60;
    var k: int :| minute == k * minutes;
    var i := k - hour * n;
    Regrouped(hour, n, i, minutes);
    if i < 0 {
      TimesMonotone(i, -1, minutes);
    } else if i >= n {
      TimesMonotone(n, i, minutes);
    }
    assert parts[i] == minute % 60;
  }

  lemma Regrouped(hour: int, n: int, k: int, minutes: int)
    requires n * minutes == 60
    ensures (hour * n + k) * minutes == hour * 60 + k * minutes
  {
    var h := hour * n;
    assert (h + k) * minutes == h * minutes + k * minutes;
    assert hour * (n * minutes) == h * minutes;
  }
}
