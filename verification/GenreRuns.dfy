/** Genres command by command, with pushes and calls of Next falling anywhere between its commands. */
module GenreRuns {
  import opened Common
  import opened NewsStore
  import opened PushLog
  import opened GenreSet

  /** Where Genres is in the visit of one member: before it, about to ask for the length of the
      genre's queue, or about to remove the genre because the length was zero. */
  datatype Phase = Idle | Measuring(genre: string) | Doomed(genre: string)

  /** `active` are the genres found so far, which Genres sorts and returns at the end. */
  datatype State = State(db: Db, left: seq<string>, phase: Phase, active: seq<string>)

  /** Genres advances by one command, a push arrives, or Next is called on some queue. */
  datatype Move = Advance | Arrive(a: Arrival) | Turn(key: string)

  function WithActive(active: seq<string>, genre: string): seq<string> {
    if genre in active then active else active + [genre]
  }

  /** The next command of Genres. */
  function Command(s: State, maxStories: nat): State {
    match s.phase
    case Idle =>
      if s.left == [] then s
      else
        var stored := s.left[0];
        var genre := Normalize(stored);
        var rest := s.left[1..];
        if genre == "" then s.(db := s.db.(members := s.db.members - {stored}), left := rest)
        else if genre == stored then s.(left := rest, phase := Measuring(genre))
        else s.(db := Migrate(s.db, stored, genre, maxStories), left := rest, phase := Measuring(genre))
    case Measuring(genre) =>
      if List(s.db, genre) == [] then s.(phase := Doomed(genre))
      else s.(phase := Idle, active := WithActive(s.active, genre))
    case Doomed(genre) => s.(db := s.db.(members := s.db.members - {genre}), phase := Idle)
  }

  function Step(s: State, m: Move, limits: Limits): State {
    match m
    case Advance => Command(s, limits.maxStories)
    case Arrive(a) => s.(db := PushScript(s.db, a.genre, a.key, a.item, limits.maxStories, limits.ttl, a.at))
    case Turn(key) =>
      var q := List(s.db, key);
      s.(db := WithList(s.db, key, NextQueue(q)).(dead := NextDead(q, s.db.dead)))
  }

  function StepWith(limits: Limits): (State, Move) -> State {
    (s: State, m: Move) => Step(s, m, limits)
  }

  /** The state after the first n moves of a run. */
  function At(s: State, moves: seq<Move>, limits: Limits, n: nat): State
    requires n <= |moves|
  {
    After(StepWith(limits), s, moves, n)
  }

  lemma AtNext(s: State, moves: seq<Move>, limits: Limits, n: nat)
    requires n < |moves|
    ensures At(s, moves, limits, n + 1) == Step(At(s, moves, limits, n), moves[n], limits)
  {
  }

  // ----- run alone -----

  /** The database after the rest of the visit that is under way. */
  function Finished(s: State): Db {
    match s.phase
    case Idle => s.db
    case Measuring(genre) => if List(s.db, genre) == [] then s.db.(members := s.db.members - {genre}) else s.db
    case Doomed(genre) => s.db.(members := s.db.members - {genre})
  }

  /** The genres found by then. */
  function FinishedActive(s: State): seq<string> {
    match s.phase
    case Measuring(genre) => if List(s.db, genre) == [] then s.active else WithActive(s.active, genre)
    case _ => s.active
  }

  function VisitedActive(active: seq<string>, db: Db, stored: string): seq<string> {
    var genre := Normalize(stored);
    if genre != "" && List(db, genre) != [] then WithActive(active, genre) else active
  }

  lemma CommandVisits(s: State, maxStories: nat)
    ensures var s' := Command(s, maxStories);
            if s.phase.Idle? && s.left != [] then
              && Finished(s') == Visit(s.db, s.left[0], maxStories)
              && FinishedActive(s') == VisitedActive(s.active, Visit(s.db, s.left[0], maxStories), s.left[0])
              && s'.left == s.left[1..] && Finished(s) == s.db && FinishedActive(s) == s.active
            else
              Finished(s') == Finished(s) && FinishedActive(s') == FinishedActive(s) && s'.left == s.left
  {
  }

  lemma VisitMore(db: Db, order: seq<string>, done: nat, maxStories: nat)
    requires done < |order|
    ensures var before := order[..done]; var more := order[..done + 1];
            && VisitAll(db, more, maxStories) == Visit(VisitAll(db, before, maxStories), order[done], maxStories)
            && Active(db, more, maxStories)
               == VisitedActive(Active(db, before, maxStories), VisitAll(db, more, maxStories), order[done])
  {
    assert order[..done + 1][..done] == order[..done];
  }

  /** Genres has visited the members that are not left, and is perhaps in the middle of a visit. */
  ghost predicate Visited(db: Db, order: seq<string>, s: State, maxStories: nat) {
    && |s.left| <= |order| && s.left == order[|order| - |s.left|..]
    && Finished(s) == VisitAll(db, order[..|order| - |s.left|], maxStories)
    && FinishedActive(s) == Active(db, order[..|order| - |s.left|], maxStories)
  }

  lemma CommandKeepsVisited(db: Db, order: seq<string>, s: State, maxStories: nat)
    requires Visited(db, order, s, maxStories)
    ensures Visited(db, order, Command(s, maxStories), maxStories)
  {
    CommandVisits(s, maxStories);
    if s.phase.Idle? && s.left != [] {
      var done := |order| - |s.left|;
      VisitMore(db, order, done, maxStories);
      assert s.left[1..] == order[done + 1..] && s.left[0] == order[done];
    }
  }

  /** Run alone, the commands make the visits of Genres, member by member. */
  lemma {:induction false} AloneIsGenres(db: Db, order: seq<string>, moves: seq<Move>, limits: Limits, n: nat)
    requires n <= |moves| && forall i :: 0 <= i < |moves| ==> moves[i].Advance?
    ensures Visited(db, order, At(State(db, order, Idle, []), moves, limits, n), limits.maxStories)
    decreases n
  {
    var s := State(db, order, Idle, []);
    if n == 0 {
      assert order[0..] == order && order[..0] == [];
    } else {
      AloneIsGenres(db, order, moves, limits, n - 1);
      AtNext(s, moves, limits, n - 1);
      CommandKeepsVisited(db, order, At(s, moves, limits, n - 1), limits.maxStories);
    }
  }

  // ----- with pushes and calls of Next -----

  /** Stories are stored under the genre, but the set does not have it. */
  predicate Missing(db: Db, genre: string) {
    List(db, genre) != [] && genre !in db.members
  }

  predicate InsertsInto(s: State, m: Move, genre: string) {
    m.Arrive? && m.a.genre == genre && !Alive(s.db, m.a.key, m.a.at)
  }

  /** Genres removes the genre although its queue is no longer empty. */
  predicate Loses(s: State, m: Move, genre: string) {
    m.Advance? && s.phase == Doomed(genre) && List(s.db, genre) != []
  }

  /** A story is inserted into the genre, or another spelling is merged into it. */
  predicate Restores(s: State, m: Move, genre: string) {
    || InsertsInto(s, m, genre)
    || (m.Advance? && s.phase.Idle? && s.left != [] && s.left[0] != genre && Normalize(s.left[0]) == genre)
  }

  /** Next finds only bad items in the genre's queue and removes them. */
  predicate Empties(s: State, m: Move, genre: string) {
    m.Turn? && m.key == genre && NextQueue(List(s.db, genre)) == []
  }

  predicate Mends(s: State, m: Move, genre: string) {
    Restores(s, m, genre) || Empties(s, m, genre)
  }

  lemma StepMissing(s: State, m: Move, limits: Limits, genre: string)
    requires limits.maxStories > 0 && genre != "" && Canonical(genre)
    ensures Missing(Step(s, m, limits).db, genre)
            <==> Loses(s, m, genre) || (Missing(s.db, genre) && !Mends(s, m, genre))
  {
    if m.Advance? && s.phase.Idle? && s.left != [] {
      NormalizeIdempotent(s.left[0]);
    }
  }

  /** Genres lost the genre with the i-th move, and none of the first n moves since has mended that. */
  predicate LostSince(s: State, moves: seq<Move>, limits: Limits, genre: string, i: nat, n: nat)
    requires i < n <= |moves|
  {
    && Loses(At(s, moves, limits, i), moves[i], genre)
    && forall j :: i < j < n ==> !Mends(At(s, moves, limits, j), moves[j], genre)
  }

  predicate Lost(s: State, moves: seq<Move>, limits: Limits, genre: string, n: nat)
    requires n <= |moves|
  {
    exists i :: 0 <= i < n && LostSince(s, moves, limits, genre, i, n)
  }

  lemma LostStep(s: State, moves: seq<Move>, limits: Limits, genre: string, n: nat)
    requires n < |moves|
    ensures var now := At(s, moves, limits, n);
            Lost(s, moves, limits, genre, n + 1)
            <==> Loses(now, moves[n], genre) || (Lost(s, moves, limits, genre, n) && !Mends(now, moves[n], genre))
  {
    if Lost(s, moves, limits, genre, n + 1) {
      var i :| 0 <= i < n + 1 && LostSince(s, moves, limits, genre, i, n + 1);
      if i < n {
        assert LostSince(s, moves, limits, genre, i, n);
      }
    }
    if Loses(At(s, moves, limits, n), moves[n], genre) {
      assert LostSince(s, moves, limits, genre, n, n + 1);
    }
    if Lost(s, moves, limits, genre, n) && !Mends(At(s, moves, limits, n), moves[n], genre) {
      var i :| 0 <= i < n && LostSince(s, moves, limits, genre, i, n);
      assert LostSince(s, moves, limits, genre, i, n + 1);
    }
  }

  lemma NothingLost(s: State, moves: seq<Move>, limits: Limits, genre: string)
    ensures At(s, moves, limits, 0) == s && !Lost(s, moves, limits, genre, 0)
  {
  }

  lemma NextMissing(s: State, moves: seq<Move>, limits: Limits, genre: string, n: nat)
    requires limits.maxStories > 0 && genre != "" && Canonical(genre) && n < |moves|
    ensures var now := At(s, moves, limits, n);
            Missing(At(s, moves, limits, n + 1).db, genre)
            <==> Loses(now, moves[n], genre) || (Missing(now.db, genre) && !Mends(now, moves[n], genre))
  {
    AtNext(s, moves, limits, n);
    StepMissing(At(s, moves, limits, n), moves[n], limits, genre);
  }

  /** Over every run of Genres with pushes and calls of Next between its commands, started on a set
      that knows the genre: the set lacks a stocked genre if and only if Genres removed the genre
      when its queue was no longer empty, and since then nothing has been inserted or merged into it
      and no call of Next has emptied it. */
  lemma {:induction false} MissingIff(s: State, moves: seq<Move>, limits: Limits, genre: string, n: nat)
    requires limits.maxStories > 0 && genre != "" && Canonical(genre) && !Missing(s.db, genre) && n <= |moves|
    ensures Missing(At(s, moves, limits, n).db, genre) <==> Lost(s, moves, limits, genre, n)
    decreases n
  {
    hide Missing, Lost, Step;
    if n == 0 {
      NothingLost(s, moves, limits, genre);
    } else {
      MissingIff(s, moves, limits, genre, n - 1);
      NextMissing(s, moves, limits, genre, n - 1);
      LostStep(s, moves, limits, genre, n - 1);
    }
  }

  lemma StepFills(s: State, m: Move, limits: Limits, genre: string)
    requires limits.maxStories > 0 && !m.Advance?
    ensures List(Step(s, m, limits).db, genre) != []
            <==> InsertsInto(s, m, genre) || (List(s.db, genre) != [] && !Empties(s, m, genre))
    ensures Step(s, m, limits).phase == s.phase
  {
  }

  /** One of the first n moves inserted into the genre, and no call of Next has emptied it since. */
  predicate Filled(s: State, moves: seq<Move>, limits: Limits, genre: string, n: nat)
    requires n <= |moves|
  {
    n > 0 &&
    var before := At(s, moves, limits, n - 1);
    || InsertsInto(before, moves[n - 1], genre)
    || (Filled(s, moves, limits, genre, n - 1) && !Empties(before, moves[n - 1], genre))
  }

  /** Whatever pushes and calls of Next come between the length, which was zero, and the removal: the
      queue is no longer empty exactly if one of the pushes inserted into it and no call emptied it. */
  lemma {:induction false} DoomedIff(s: State, moves: seq<Move>, limits: Limits, genre: string, n: nat)
    requires limits.maxStories > 0 && List(s.db, genre) == [] && n <= |moves|
    requires forall i :: 0 <= i < |moves| ==> !moves[i].Advance?
    ensures List(At(s, moves, limits, n).db, genre) != [] <==> Filled(s, moves, limits, genre, n)
    ensures At(s, moves, limits, n).phase == s.phase
    decreases n
  {
    hide Step;
    if n > 0 {
      DoomedIff(s, moves, limits, genre, n - 1);
      AtNext(s, moves, limits, n - 1);
      StepFills(At(s, moves, limits, n - 1), moves[n - 1], limits, genre);
    }
  }

  // ----- what Genres returns -----

  /** Genres asks for the length of the genre's queue and finds it stocked. */
  predicate Counts(s: State, m: Move, genre: string) {
    m.Advance? && s.phase == Measuring(genre) && List(s.db, genre) != []
  }

  predicate Counted(s: State, moves: seq<Move>, limits: Limits, genre: string, n: nat)
    requires n <= |moves|
  {
    n > 0 && (Counted(s, moves, limits, genre, n - 1) || Counts(At(s, moves, limits, n - 1), moves[n - 1], genre))
  }

  lemma StepActive(s: State, m: Move, limits: Limits, genre: string)
    ensures genre in Step(s, m, limits).active <==> genre in s.active || Counts(s, m, genre)
  {
  }

  /** With anything between the commands, a genre is among those returned if and only if it had a
      story at the moment its length was asked for. */
  lemma {:induction false} ReturnedIff(s: State, moves: seq<Move>, limits: Limits, genre: string, n: nat)
    requires s.active == [] && n <= |moves|
    ensures genre in At(s, moves, limits, n).active <==> Counted(s, moves, limits, genre, n)
    decreases n
  {
    hide Step, Counts;
    if n > 0 {
      ReturnedIff(s, moves, limits, genre, n - 1);
      AtNext(s, moves, limits, n - 1);
      StepActive(At(s, moves, limits, n - 1), moves[n - 1], limits, genre);
    }
  }
}
