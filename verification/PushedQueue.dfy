/** A genre queue under calls of Next and pushes falling between them, with its items told apart. */
module PushedQueue {
  import opened Common
  import opened NewsStore
  import opened PushLog
  import opened Dashboard

  // ----- numbered items -----

  /** A queued item with a number of its own. The items of the queue at the beginning are numbered
      from its head, inserted ones go on from there. */
  datatype Slot = Slot(id: nat, item: Item)

  /** A call of Next, or a push that inserts its item. */
  datatype Move = Call | Insert(item: Item)

  datatype State = State(queue: seq<Slot>, found: seq<Slot>, next: nat)

  function Items(q: seq<Slot>): seq<Item> {
    seq(|q|, i requires 0 <= i < |q| => q[i].item)
  }

  function Start(q: seq<Item>): State {
    State(seq(|q|, i requires 0 <= i < |q| => Slot(i, q[i])), [], |q|)
  }

  function AfterCall(s: State): State {
    var n := GoodEnd(Items(s.queue));
    if n == 0 then s.(queue := [])
    else State([s.queue[n - 1]] + s.queue[..n - 1], s.found + [s.queue[n - 1]], s.next)
  }

  function AfterInsert(s: State, item: Item, maxStories: nat): State {
    State(Last(s.queue + [Slot(s.next, item)], maxStories), s.found, s.next + 1)
  }

  function Step(s: State, m: Move, maxStories: nat): State {
    match m
    case Call => AfterCall(s)
    case Insert(item) => AfterInsert(s, item, maxStories)
  }

  function StepWith(maxStories: nat): (State, Move) -> State {
    (s: State, m: Move) => Step(s, m, maxStories)
  }

  /** The state after the first n moves. */
  function At(q: seq<Item>, moves: seq<Move>, maxStories: nat, n: nat): State
    requires n <= |moves|
  {
    After(StepWith(maxStories), Start(q), moves, n)
  }

  lemma AtNext(q: seq<Item>, moves: seq<Move>, maxStories: nat, n: nat)
    requires n < |moves|
    ensures At(q, moves, maxStories, n + 1) == Step(At(q, moves, maxStories, n), moves[n], maxStories)
  {
  }

  /** How many of the first n moves are calls, and how many insert. */
  function CallsIn(moves: seq<Move>, n: nat): nat
    requires n <= |moves|
  {
    if n == 0 then 0 else CallsIn(moves, n - 1) + if moves[n - 1].Call? then 1 else 0
  }

  function InsertsIn(moves: seq<Move>, n: nat): nat
    requires n <= |moves|
  {
    if n == 0 then 0 else InsertsIn(moves, n - 1) + if moves[n - 1].Insert? then 1 else 0
  }

  lemma {:induction false} CountsGrow(moves: seq<Move>, i: nat, j: nat)
    requires i <= j <= |moves|
    ensures CallsIn(moves, i) <= CallsIn(moves, j) && InsertsIn(moves, i) <= InsertsIn(moves, j)
    decreases j
  {
    if i < j {
      CountsGrow(moves, i, j - 1);
    }
  }

  // ----- the moves are those of the store -----

  /** What happens to the database during a pass over a genre: the pass calls Next, or a push of
      any genre arrives. */
  datatype Action = Pull | Arrive(a: Arrival)

  function Acted(db: Db, genre: string, action: Action, m: Limits): Db {
    match action
    case Pull =>
      WithList(db, genre, NextQueue(List(db, genre))).(dead := NextDead(List(db, genre), db.dead))
    case Arrive(a) => PushScript(db, a.genre, a.key, a.item, m.maxStories, m.ttl, a.at)
  }

  function AfterActions(db: Db, genre: string, actions: seq<Action>, m: Limits): Db {
    if actions == [] then db
    else Acted(AfterActions(db, genre, actions[..|actions| - 1], m), genre, actions[|actions| - 1], m)
  }

  /** The items that the calls of Next find. */
  function FoundBy(db: Db, genre: string, actions: seq<Action>, m: Limits): seq<Item> {
    if actions == [] then []
    else
      var front := actions[..|actions| - 1];
      FoundBy(db, genre, front, m)
      + (if actions[|actions| - 1].Pull? then Listed(NextItem(List(AfterActions(db, genre, front, m), genre))) else [])
  }

  /** An action as a move on the genre's queue, which duplicates and pushes of other genres leave
      alone. */
  function MoveOf(db: Db, genre: string, action: Action): Option<Move> {
    match action
    case Pull => Some(Call)
    case Arrive(a) => if a.genre == genre && !Alive(db, a.key, a.at) then Some(Insert(a.item)) else None
  }

  function MovesOf(db: Db, genre: string, actions: seq<Action>, m: Limits): seq<Move> {
    if actions == [] then []
    else
      var front := actions[..|actions| - 1];
      MovesOf(db, genre, front, m)
      + Listed(MoveOf(AfterActions(db, genre, front, m), genre, actions[|actions| - 1]))
  }

  /** What one move does to the queue of items. */
  function Moved(q: seq<Item>, m: Move, maxStories: nat): seq<Item> {
    match m
    case Call => NextQueue(q)
    case Insert(item) => Last(q + [item], maxStories)
  }

  lemma CalledItems(s: State)
    ensures Items(AfterCall(s).queue) == NextQueue(Items(s.queue))
    ensures Items(AfterCall(s).found) == Items(s.found) + Listed(NextItem(Items(s.queue)))
  {
    var n := GoodEnd(Items(s.queue));
    if n > 0 {
      assert Items(s.queue)[..n - 1] == Items(s.queue[..n - 1]);
    }
  }

  lemma InsertedItems(s: State, item: Item, maxStories: nat)
    ensures Items(AfterInsert(s, item, maxStories).queue) == Last(Items(s.queue) + [item], maxStories)
    ensures AfterInsert(s, item, maxStories).found == s.found
  {
    var all := s.queue + [Slot(s.next, item)];
    assert Items(all) == Items(s.queue) + [item];
  }

  lemma StepItems(s: State, m: Move, maxStories: nat)
    ensures Items(Step(s, m, maxStories).queue) == Moved(Items(s.queue), m, maxStories)
    ensures Items(Step(s, m, maxStories).found)
            == Items(s.found) + if m.Call? then Listed(NextItem(Items(s.queue))) else []
  {
    hide AfterCall, AfterInsert;
    if m.Call? {
      CalledItems(s);
    } else {
      InsertedItems(s, m.item, maxStories);
      assert Items(s.found) + [] == Items(s.found);
    }
  }

  lemma ActedList(db: Db, genre: string, action: Action, m: Limits)
    ensures var move := MoveOf(db, genre, action); var q := List(db, genre);
            List(Acted(db, genre, action, m), genre) == if move.Some? then Moved(q, move.value, m.maxStories) else q
  {
  }

  lemma {:induction false} AtPrefix(q: seq<Item>, moves: seq<Move>, more: seq<Move>, maxStories: nat, n: nat)
    requires n <= |moves|
    ensures At(q, moves + more, maxStories, n) == At(q, moves, maxStories, n)
    decreases n
  {
    if n > 0 {
      AtPrefix(q, moves, more, maxStories, n - 1);
      assert (moves + more)[n - 1] == moves[n - 1];
    }
  }

  lemma OneMoreMove(q: seq<Item>, moves: seq<Move>, m: Move, maxStories: nat)
    ensures At(q, moves + [m], maxStories, |moves| + 1) == Step(At(q, moves, maxStories, |moves|), m, maxStories)
  {
    AtPrefix(q, moves, [m], maxStories, |moves|);
    AtNext(q, moves + [m], maxStories, |moves|);
  }

  /** The numbered queue is the genre's queue in the database, and the numbered items found are those
      that Next found, whatever calls and pushes there were. */
  lemma {:induction false} QueueIsMoves(db: Db, genre: string, actions: seq<Action>, m: Limits)
    ensures var moves := MovesOf(db, genre, actions, m);
            var s := At(List(db, genre), moves, m.maxStories, |moves|);
            && List(AfterActions(db, genre, actions, m), genre) == Items(s.queue)
            && FoundBy(db, genre, actions, m) == Items(s.found)
    decreases |actions|
  {
    var q := List(db, genre);
    if actions == [] {
      assert Items(Start(q).queue) == q;
    } else {
      var front, last := actions[..|actions| - 1], actions[|actions| - 1];
      var moves, before := MovesOf(db, genre, front, m), AfterActions(db, genre, front, m);
      QueueIsMoves(db, genre, front, m);
      ActedList(before, genre, last, m);
      var move := MoveOf(before, genre, last);
      if move.Some? {
        OneMoreMove(q, moves, move.value, m.maxStories);
        StepItems(At(q, moves, m.maxStories, |moves|), move.value, m.maxStories);
      } else {
        assert moves + [] == moves;
      }
    }
  }

  // ----- when an item is reached -----

  predicate Has(q: seq<Slot>, id: nat) {
    exists i :: 0 <= i < |q| && q[i].id == id
  }

  /** How many decodable items lie behind the one with this number. */
  function Behind(q: seq<Slot>, id: nat): nat {
    if q == [] || q[|q| - 1].id == id then 0
    else Behind(q[..|q| - 1], id) + if q[|q| - 1].item.good then 1 else 0
  }

  /** Numbers are used once. */
  ghost predicate Numbered(s: State) {
    && (forall i, j :: 0 <= i < j < |s.queue| ==> s.queue[i].id != s.queue[j].id)
    && (forall i :: 0 <= i < |s.queue| ==> s.queue[i].id < s.next)
    && (forall i :: 0 <= i < |s.found| ==> s.found[i].id < s.next)
  }

  predicate Live(q: seq<Slot>, id: nat) {
    exists i :: 0 <= i < |q| && q[i].id == id && q[i].item.good
  }

  /** The decodable item is in the queue and has not been found. */
  predicate Waiting(s: State, id: nat) {
    Live(s.queue, id) && !Has(s.found, id)
  }

  lemma {:induction false} BehindPrefix(a: seq<Slot>, b: seq<Slot>, id: nat)
    requires Has(b, id)
    ensures Behind(a + b, id) == Behind(b, id)
    decreases |b|
  {
    assert (a + b)[..|a + b| - 1] == a + b[..|b| - 1];
    if b[|b| - 1].id != id {
      var i :| 0 <= i < |b| && b[i].id == id;
      assert b[..|b| - 1][i].id == id;
      BehindPrefix(a, b[..|b| - 1], id);
    }
  }

  lemma {:induction false} BehindBad(a: seq<Slot>, b: seq<Slot>, id: nat)
    requires forall i :: 0 <= i < |b| ==> !b[i].item.good && b[i].id != id
    ensures Behind(a + b, id) == Behind(a, id)
    decreases |b|
  {
    if b == [] {
      assert a + b == a;
    } else {
      assert (a + b)[..|a + b| - 1] == a + b[..|b| - 1];
      BehindBad(a, b[..|b| - 1], id);
    }
  }

  lemma BehindOne(a: seq<Slot>, x: Slot, id: nat)
    ensures Behind(a + [x], id) == if x.id == id then 0 else Behind(a, id) + if x.item.good then 1 else 0
  {
    assert (a + [x])[..|a|] == a;
  }

  /** Where Next cuts a queue with a decodable item. */
  lemma CutAt(q: seq<Slot>, id: nat) returns (n: nat)
    requires Live(q, id)
    ensures 0 < n <= |q| && n == GoodEnd(Items(q)) && q[n - 1].item.good
    ensures q == q[..n - 1] + [q[n - 1]] + q[n..]
    ensures forall i :: n <= i < |q| ==> !q[i].item.good
  {
    n := GoodEnd(Items(q));
    var i :| 0 <= i < |q| && q[i].id == id && q[i].item.good;
    assert Items(q)[i].good;
    forall i | n <= i < |q| ensures !q[i].item.good {
      assert !Items(q)[i].good;
    }
    assert n > 0 && Items(q)[n - 1].good;
  }

  /** The count before and after the last decodable item goes to the head. */
  lemma BehindCut(front: seq<Slot>, x: Slot, bad: seq<Slot>, id: nat)
    requires x.item.good && forall i :: 0 <= i < |bad| ==> !bad[i].item.good && bad[i].id != id
    ensures Behind(front + [x] + bad, id) == if x.id == id then 0 else Behind(front, id) + 1
    ensures Has(front, id) ==> Behind([x] + front, id) == Behind(front, id)
  {
    BehindBad(front + [x], bad, id);
    BehindOne(front, x, id);
    if Has(front, id) {
      BehindPrefix([x], front, id);
    }
  }

  lemma CalledParts(s: State, id: nat) returns (front: seq<Slot>, x: Slot, bad: seq<Slot>)
    requires Numbered(s) && Live(s.queue, id)
    ensures s.queue == front + [x] + bad && x.item.good && AfterCall(s) == State([x] + front, s.found + [x], s.next)
    ensures forall i :: 0 <= i < |bad| ==> !bad[i].item.good && bad[i].id != id
    ensures x.id == id || Live(front, id)
  {
    hide Behind, Waiting;
    var q := s.queue;
    var n := CutAt(q, id);
    front, x, bad := q[..n - 1], q[n - 1], q[n..];
    var p :| 0 <= p < |q| && q[p].id == id && q[p].item.good;
    assert p < n;
    forall i | 0 <= i < |bad| ensures !bad[i].item.good && bad[i].id != id {
      assert bad[i] == q[n + i];
    }
    if p < n - 1 {
      assert front[p] == q[p];
    }
  }

  lemma LiveBehind(x: Slot, front: seq<Slot>, id: nat)
    requires Live(front, id)
    ensures Live([x] + front, id) && Has(front, id)
  {
    var p :| 0 <= p < |front| && front[p].id == id && front[p].item.good;
    assert ([x] + front)[p + 1] == front[p];
  }

  /** A call finds the item with nothing decodable behind it; any other decodable item comes one
      closer. */
  lemma CallMoves(s: State, id: nat)
    requires Numbered(s) && Live(s.queue, id)
    ensures var s' := AfterCall(s);
            && |s'.found| == |s.found| + 1 && s'.found[..|s.found|] == s.found
            && (s'.found[|s.found|].id == id <==> Behind(s.queue, id) == 0)
            && (Behind(s.queue, id) > 0 ==> Live(s'.queue, id) && Behind(s'.queue, id) == Behind(s.queue, id) - 1)
  {
    hide Behind, Numbered, AfterCall;
    var front, x, bad := CalledParts(s, id);
    BehindCut(front, x, bad, id);
    if x.id != id {
      LiveBehind(x, front, id);
    }
  }

  /** A push puts one more decodable item behind every other one, unless trimming drops that. */
  lemma InsertMoves(s: State, item: Item, maxStories: nat, id: nat)
    requires Numbered(s) && Live(s.queue, id) && item.good && maxStories > 0
    ensures var s' := AfterInsert(s, item, maxStories);
            && s'.found == s.found
            && (Has(s'.queue, id) ==> Live(s'.queue, id) && Behind(s'.queue, id) == Behind(s.queue, id) + 1)
  {
    hide Behind;
    var added := Slot(s.next, item);
    var all := s.queue + [added];
    var kept := Last(all, maxStories);
    var p :| 0 <= p < |s.queue| && s.queue[p].id == id && s.queue[p].item.good;
    BehindOne(s.queue, added, id);
    if Has(kept, id) {
      var cut := |all| - |kept|;
      assert all == all[..cut] + kept;
      BehindPrefix(all[..cut], kept, id);
      var i :| 0 <= i < |kept| && kept[i].id == id;
      assert all[cut + i].id == id && all[p].id == id;
    }
  }

  // ----- over whole runs -----

  predicate InsertsGood(moves: seq<Move>) {
    forall i :: 0 <= i < |moves| && moves[i].Insert? ==> moves[i].item.good
  }

  lemma CalledNumbered(s: State)
    requires Numbered(s)
    ensures Numbered(AfterCall(s))
  {
  }

  lemma InsertedNumbered(s: State, item: Item, maxStories: nat)
    requires Numbered(s)
    ensures Numbered(AfterInsert(s, item, maxStories))
  {
  }

  lemma StepNumbered(s: State, m: Move, maxStories: nat)
    requires Numbered(s)
    ensures Numbered(Step(s, m, maxStories))
  {
    hide Numbered, AfterCall, AfterInsert;
    if m.Call? {
      CalledNumbered(s);
    } else {
      InsertedNumbered(s, m.item, maxStories);
    }
  }

  lemma StartNumbered(q: seq<Item>)
    ensures Numbered(Start(q))
  {
  }

  lemma {:induction false} AtNumbered(q: seq<Item>, moves: seq<Move>, maxStories: nat, n: nat)
    requires n <= |moves|
    ensures Numbered(At(q, moves, maxStories, n))
    decreases n
  {
    hide Numbered, Step;
    if n == 0 {
      StartNumbered(q);
    } else {
      AtNumbered(q, moves, maxStories, n - 1);
      AtNext(q, moves, maxStories, n - 1);
      StepNumbered(At(q, moves, maxStories, n - 1), moves[n - 1], maxStories);
    }
  }

  /** What one move does to a waiting item. */
  predicate Advances(s: State, m: Move, s': State, id: nat) {
    if m.Call? then
      if Behind(s.queue, id) == 0 then Has(s'.found, id)
      else Waiting(s', id) && Behind(s'.queue, id) == Behind(s.queue, id) - 1
    else
      !Has(s'.found, id) && (Waiting(s', id) ==> Behind(s'.queue, id) == Behind(s.queue, id) + 1)
  }

  lemma HasAppended(a: seq<Slot>, b: seq<Slot>, id: nat)
    requires |b| == |a| + 1 && b[..|a|] == a
    ensures Has(b, id) <==> Has(a, id) || b[|a|].id == id
  {
    if Has(a, id) {
      var i :| 0 <= i < |a| && a[i].id == id;
      assert b[i] == a[i];
    }
  }

  lemma StepAdvances(s: State, m: Move, maxStories: nat, id: nat)
    requires Numbered(s) && Waiting(s, id) && maxStories > 0 && (m.Insert? ==> m.item.good)
    ensures Advances(s, m, Step(s, m, maxStories), id)
  {
    hide Numbered, Behind, AfterCall, AfterInsert;
    if m.Call? {
      CallMoves(s, id);
      HasAppended(s.found, AfterCall(s).found, id);
    } else {
      InsertMoves(s, m.item, maxStories, id);
    }
  }

  lemma FoundStays(s: State, m: Move, maxStories: nat, id: nat)
    requires Has(s.found, id)
    ensures Has(Step(s, m, maxStories).found, id)
  {
    var i :| 0 <= i < |s.found| && s.found[i].id == id;
    assert Step(s, m, maxStories).found[i] == s.found[i];
  }

  /** A dropped item's number is never used again. */
  lemma GoneStays(s: State, m: Move, maxStories: nat, id: nat)
    requires id < s.next && !Has(s.queue, id) && !Has(s.found, id)
    ensures var s' := Step(s, m, maxStories); id < s'.next && !Has(s'.queue, id) && !Has(s'.found, id)
  {
    assert forall i :: 0 <= i < |s.queue| ==> s.queue[i].id != id;
    assert forall i :: 0 <= i < |s.found| ==> s.found[i].id != id;
  }

  lemma InsertedLives(s: State, item: Item, maxStories: nat, id: nat)
    requires Numbered(s) && Waiting(s, id) && item.good && maxStories > 0
    ensures var s' := AfterInsert(s, item, maxStories);
            s'.found == s.found && (Has(s'.queue, id) ==> Live(s'.queue, id))
  {
    hide Numbered, Behind;
    InsertMoves(s, item, maxStories, id);
  }

  /** An item of the beginning is waiting, or has been found, or was dropped. */
  predicate Accounted(s: State, id: nat) {
    id < s.next && (Waiting(s, id) || Has(s.found, id) || !Has(s.queue, id))
  }

  lemma NextGrows(s: State, m: Move, maxStories: nat)
    ensures s.next <= Step(s, m, maxStories).next
  {
  }

  lemma StepAccounts(s: State, m: Move, maxStories: nat, id: nat)
    requires Numbered(s) && Accounted(s, id) && maxStories > 0 && (m.Insert? ==> m.item.good)
    ensures Accounted(Step(s, m, maxStories), id)
  {
    hide Numbered, Behind, AfterCall, AfterInsert, Has, Live;
    NextGrows(s, m, maxStories);
    if Has(s.found, id) {
      FoundStays(s, m, maxStories, id);
    } else if Waiting(s, id) {
      StepAdvances(s, m, maxStories, id);
      if m.Insert? {
        InsertedLives(s, m.item, maxStories, id);
      }
    } else {
      GoneStays(s, m, maxStories, id);
    }
  }
}
