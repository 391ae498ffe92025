/** What a pass finds while stories are pushed: the exact conditions. */
module PassRuns {
  import opened NewsStore
  import opened Dashboard
  import opened PushedQueue

  // ----- any queue -----

  /** A decodable item of the queue at the beginning, in a run whose pushes are of decodable items. */
  ghost predicate Tracked(q: seq<Item>, moves: seq<Move>, maxStories: nat, id: nat) {
    maxStories > 0 && InsertsGood(moves) && id < |q| && q[id].good
  }

  /** How many decodable items lie behind it at the beginning. */
  function Depth(q: seq<Item>, id: nat): nat {
    Behind(Start(q).queue, id)
  }

  /** What is kept of it: it is accounted for, and while it waits every call has brought it one
      closer and every insertion one further. */
  ghost predicate Counted(q: seq<Item>, moves: seq<Move>, maxStories: nat, id: nat, n: nat)
    requires n <= |moves|
  {
    var s := At(q, moves, maxStories, n);
    && Accounted(s, id)
    && (Waiting(s, id) ==> Behind(s.queue, id) + CallsIn(moves, n) == Depth(q, id) + InsertsIn(moves, n))
  }

  lemma StartCounted(q: seq<Item>, moves: seq<Move>, maxStories: nat, id: nat)
    requires Tracked(q, moves, maxStories, id)
    ensures Counted(q, moves, maxStories, id, 0) && Waiting(Start(q), id) && At(q, moves, maxStories, 0) == Start(q)
  {
    var slots := Start(q).queue;
    assert slots[id].id == id && slots[id].item.good;
  }

  lemma NextCounted(q: seq<Item>, moves: seq<Move>, maxStories: nat, id: nat, n: nat)
    requires Tracked(q, moves, maxStories, id) && n < |moves| && Counted(q, moves, maxStories, id, n)
    ensures Counted(q, moves, maxStories, id, n + 1)
    ensures var s := At(q, moves, maxStories, n); var s' := At(q, moves, maxStories, n + 1);
            && (Has(s.found, id) ==> Has(s'.found, id))
            && (!Has(s.found, id) ==>
                  (Has(s'.found, id)
                   <==> moves[n].Call? && Waiting(s, id) && CallsIn(moves, n) == Depth(q, id) + InsertsIn(moves, n)))
  {
    hide Behind, Numbered, Has, Live, Step;
    var s, s', m := At(q, moves, maxStories, n), At(q, moves, maxStories, n + 1), moves[n];
    AtNext(q, moves, maxStories, n);
    AtNumbered(q, moves, maxStories, n);
    StepAccounts(s, m, maxStories, id);
    if Has(s.found, id) {
      FoundStays(s, m, maxStories, id);
    } else if Waiting(s, id) {
      StepAdvances(s, m, maxStories, id);
    } else {
      GoneStays(s, m, maxStories, id);
      GoneDoesNotWait(s', id);
    }
  }

  lemma GoneDoesNotWait(s: State, id: nat)
    requires !Has(s.queue, id)
    ensures !Waiting(s, id)
  {
  }

  lemma {:induction false} AtCounted(q: seq<Item>, moves: seq<Move>, maxStories: nat, id: nat, n: nat)
    requires Tracked(q, moves, maxStories, id) && n <= |moves|
    ensures Counted(q, moves, maxStories, id, n)
    decreases n
  {
    hide Counted;
    if n == 0 {
      StartCounted(q, moves, maxStories, id);
    } else {
      AtCounted(q, moves, maxStories, id, n - 1);
      NextCounted(q, moves, maxStories, id, n - 1);
    }
  }

  /** The j-th move finds the item: it is a call made when the item is still waiting and the calls so
      far have used up the items behind it, those of the beginning and those inserted since. */
  ghost predicate Reaches(q: seq<Item>, moves: seq<Move>, maxStories: nat, id: nat, j: nat)
    requires j < |moves|
  {
    && moves[j].Call? && Waiting(At(q, moves, maxStories, j), id)
    && CallsIn(moves, j) == Depth(q, id) + InsertsIn(moves, j)
  }

  ghost predicate Reached(q: seq<Item>, moves: seq<Move>, maxStories: nat, id: nat, n: nat)
    requires n <= |moves|
  {
    exists j :: 0 <= j < n && Reaches(q, moves, maxStories, id, j)
  }

  lemma ReachedStep(q: seq<Item>, moves: seq<Move>, maxStories: nat, id: nat, n: nat)
    requires n < |moves|
    ensures Reached(q, moves, maxStories, id, n + 1)
            <==> Reached(q, moves, maxStories, id, n) || Reaches(q, moves, maxStories, id, n)
    ensures !Reached(q, moves, maxStories, id, 0)
  {
    hide Reaches;
  }

  /** On any queue, whatever is pushed between the calls: a decodable item is found within n moves if
      and only if some call of them was made with the item still waiting and exactly as many calls
      before it as there were decodable items behind the item and insertions since. */
  lemma {:induction false} FoundIff(q: seq<Item>, moves: seq<Move>, maxStories: nat, id: nat, n: nat)
    requires Tracked(q, moves, maxStories, id) && n <= |moves|
    ensures Has(At(q, moves, maxStories, n).found, id) <==> Reached(q, moves, maxStories, id, n)
    decreases n
  {
    hide Counted, Has, Waiting, Reached, Live;
    if n == 0 {
      NothingFound(q, moves, maxStories, id);
    } else {
      FoundIff(q, moves, maxStories, id, n - 1);
      ReachedStep(q, moves, maxStories, id, n - 1);
      AtCounted(q, moves, maxStories, id, n - 1);
      NextCounted(q, moves, maxStories, id, n - 1);
      FoundDoesNotWait(At(q, moves, maxStories, n - 1), id);
    }
  }

  lemma NothingFound(q: seq<Item>, moves: seq<Move>, maxStories: nat, id: nat)
    ensures !Has(At(q, moves, maxStories, 0).found, id) && !Reached(q, moves, maxStories, id, 0)
  {
  }

  lemma FoundDoesNotWait(s: State, id: nat)
    ensures Has(s.found, id) ==> !Waiting(s, id)
  {
  }

  /** Pushes can starve a story: if every call finds more insertions behind it than calls can make
      up for, it is never found, however many passes there are. */
  lemma AlwaysBehind(q: seq<Item>, moves: seq<Move>, maxStories: nat, id: nat)
    requires Tracked(q, moves, maxStories, id)
    requires forall j :: 0 <= j < |moves| && moves[j].Call? ==> CallsIn(moves, j) < Depth(q, id) + InsertsIn(moves, j)
    ensures !Has(At(q, moves, maxStories, |moves|).found, id)
  {
    FoundIff(q, moves, maxStories, id, |moves|);
  }

  // ----- queues of decodable items -----

  /** From the moves alone: no call has found the item at this depth, and no insertion has pushed it
      out of the last maxStories. */
  predicate StillWaits(moves: seq<Move>, depth: nat, maxStories: nat, n: nat)
    requires n <= |moves|
  {
    n > 0 ==>
      && StillWaits(moves, depth, maxStories, n - 1)
      && (if moves[n - 1].Call? then CallsIn(moves, n - 1) != depth + InsertsIn(moves, n - 1)
          else depth + InsertsIn(moves, n) - CallsIn(moves, n) < maxStories)
  }

  lemma {:induction false} BehindInGood(q: seq<Slot>, p: nat)
    requires p < |q| && AllGood(Items(q)) && forall i, j :: 0 <= i < j < |q| ==> q[i].id != q[j].id
    ensures Behind(q, q[p].id) == |q| - 1 - p
    decreases |q|
  {
    var front := q[..|q| - 1];
    assert Items(q)[|q| - 1].good;
    if p < |q| - 1 {
      assert forall i :: 0 <= i < |front| ==> Items(front)[i] == Items(q)[i];
      BehindInGood(front, p);
      assert front[p] == q[p];
    }
  }

  /** An insertion drops exactly the items beyond the last maxStories. */
  lemma InsertKeepsIff(s: State, item: Item, maxStories: nat, id: nat)
    requires Numbered(s) && AllGood(Items(s.queue)) && Waiting(s, id) && item.good && maxStories > 0
    ensures Waiting(AfterInsert(s, item, maxStories), id) <==> Behind(s.queue, id) + 1 < maxStories
  {
    var all := s.queue + [Slot(s.next, item)];
    var kept := Last(all, maxStories);
    var p :| 0 <= p < |s.queue| && s.queue[p].id == id && s.queue[p].item.good;
    BehindInGood(s.queue, p);
    var cut := |all| - |kept|;
    assert forall i :: 0 <= i < |kept| ==> kept[i] == all[cut + i];
    if p >= cut {
      assert kept[p - cut] == all[p];
    }
  }

  lemma StepGood(s: State, m: Move, maxStories: nat)
    requires AllGood(Items(s.queue)) && (m.Insert? ==> m.item.good)
    ensures AllGood(Items(Step(s, m, maxStories).queue))
  {
    hide Step;
    StepItems(s, m, maxStories);
  }

  lemma {:induction false} AtGood(q: seq<Item>, moves: seq<Move>, maxStories: nat, n: nat)
    requires AllGood(q) && InsertsGood(moves) && n <= |moves|
    ensures AllGood(Items(At(q, moves, maxStories, n).queue))
    decreases n
  {
    hide Step;
    if n == 0 {
      assert Items(Start(q).queue) == q;
    } else {
      AtGood(q, moves, maxStories, n - 1);
      AtNext(q, moves, maxStories, n - 1);
      StepGood(At(q, moves, maxStories, n - 1), moves[n - 1], maxStories);
    }
  }

  lemma DepthInGood(q: seq<Item>, id: nat)
    requires AllGood(q) && id < |q|
    ensures Depth(q, id) == |q| - 1 - id
  {
    var slots := Start(q).queue;
    assert Items(slots) == q;
    BehindInGood(slots, id);
  }

  lemma NextWaitsIff(q: seq<Item>, moves: seq<Move>, maxStories: nat, id: nat, n: nat)
    requires AllGood(q) && Tracked(q, moves, maxStories, id) && n < |moves|
    requires Waiting(At(q, moves, maxStories, n), id) && Counted(q, moves, maxStories, id, n)
    ensures Waiting(At(q, moves, maxStories, n + 1), id) <==>
              if moves[n].Call? then CallsIn(moves, n) != Depth(q, id) + InsertsIn(moves, n)
              else Depth(q, id) + InsertsIn(moves, n + 1) - CallsIn(moves, n + 1) < maxStories
  {
    hide Behind, Numbered, Has, Live, AfterCall, AfterInsert;
    var s := At(q, moves, maxStories, n);
    AtNext(q, moves, maxStories, n);
    AtNumbered(q, moves, maxStories, n);
    AtGood(q, moves, maxStories, n);
    if moves[n].Call? {
      StepAdvances(s, moves[n], maxStories, id);
      FoundDoesNotWait(At(q, moves, maxStories, n + 1), id);
    } else {
      InsertKeepsIff(s, moves[n].item, maxStories, id);
    }
  }

  lemma NextSettled(q: seq<Item>, moves: seq<Move>, maxStories: nat, id: nat, n: nat)
    requires Tracked(q, moves, maxStories, id) && n < |moves|
    requires !Waiting(At(q, moves, maxStories, n), id) && Counted(q, moves, maxStories, id, n)
    ensures !Waiting(At(q, moves, maxStories, n + 1), id)
  {
    hide Behind, Numbered, Has, Live, Step;
    var s, s' := At(q, moves, maxStories, n), At(q, moves, maxStories, n + 1);
    AtNext(q, moves, maxStories, n);
    if Has(s.found, id) {
      FoundStays(s, moves[n], maxStories, id);
      FoundDoesNotWait(s', id);
    } else {
      GoneStays(s, moves[n], maxStories, id);
      GoneDoesNotWait(s', id);
    }
  }

  /** In a queue of decodable items the moves alone decide whether an item is still waiting. */
  lemma {:induction false} WaitsIff(q: seq<Item>, moves: seq<Move>, maxStories: nat, id: nat, n: nat)
    requires AllGood(q) && Tracked(q, moves, maxStories, id) && n <= |moves|
    ensures Waiting(At(q, moves, maxStories, n), id) <==> StillWaits(moves, |q| - 1 - id, maxStories, n)
    decreases n
  {
    hide Counted, Waiting, Step;
    if n == 0 {
      StartCounted(q, moves, maxStories, id);
    } else {
      WaitsIff(q, moves, maxStories, id, n - 1);
      AtCounted(q, moves, maxStories, id, n - 1);
      DepthInGood(q, id);
      if Waiting(At(q, moves, maxStories, n - 1), id) {
        NextWaitsIff(q, moves, maxStories, id, n - 1);
      } else {
        NextSettled(q, moves, maxStories, id, n - 1);
      }
    }
  }

  /** The j-th move finds the item, from the moves alone. */
  predicate Crosses(moves: seq<Move>, depth: nat, maxStories: nat, j: nat)
    requires j < |moves|
  {
    moves[j].Call? && StillWaits(moves, depth, maxStories, j) && CallsIn(moves, j) == depth + InsertsIn(moves, j)
  }

  /** One of the first n moves finds it. */
  predicate Crossed(moves: seq<Move>, depth: nat, maxStories: nat, n: nat)
    requires n <= |moves|
  {
    exists j :: 0 <= j < n && Crosses(moves, depth, maxStories, j)
  }

  /** In a queue of decodable items the item with number id, which has |q| - 1 - id items behind it, is
      found exactly when the calls first exceed those and the insertions so far, unless an insertion
      has pushed it out of the last maxStories before. */
  lemma FoundInGoodIff(q: seq<Item>, moves: seq<Move>, maxStories: nat, id: nat, n: nat)
    requires AllGood(q) && Tracked(q, moves, maxStories, id) && n <= |moves|
    ensures Has(At(q, moves, maxStories, n).found, id) <==> Crossed(moves, |q| - 1 - id, maxStories, n)
  {
    hide Has, Waiting, StillWaits;
    var depth := |q| - 1 - id;
    FoundIff(q, moves, maxStories, id, n);
    DepthInGood(q, id);
    forall j | 0 <= j < n
      ensures Reaches(q, moves, maxStories, id, j) <==> Crosses(moves, depth, maxStories, j)
    {
      WaitsIff(q, moves, maxStories, id, j);
    }
  }

  // ----- one pass -----

  /** The calls are those of one pass, whose number was fixed by the length of the queue before it. */
  predicate IsPass(q: seq<Item>, moves: seq<Move>, maxPerGenre: int) {
    CallsIn(moves, |moves|) == Limit(|q|, maxPerGenre)
  }

  /** No push inserted before the last call. */
  predicate Undisturbed(moves: seq<Move>) {
    forall j :: 0 <= j < |moves| && moves[j].Insert? ==> CallsIn(moves, j) == CallsIn(moves, |moves|)
  }

  predicate Once(found: seq<Slot>, id: nat) {
    exists i :: 0 <= i < |found| && found[i].id == id
      && forall j :: 0 <= j < |found| && found[j].id == id ==> j == i
  }

  lemma NothingInserted(moves: seq<Move>, n: nat)
    requires Undisturbed(moves) && n < |moves| && moves[n].Call?
    ensures InsertsIn(moves, n) == 0
  {
    if InsertsIn(moves, n) > 0 {
      var j := SomeInsert(moves, n);
      CountsGrow(moves, j, n);
      CountsGrow(moves, n + 1, |moves|);
    }
  }

  lemma {:induction false} SomeInsert(moves: seq<Move>, n: nat) returns (j: nat)
    requires n <= |moves| && InsertsIn(moves, n) > 0
    ensures j < n && moves[j].Insert?
    decreases n
  {
    if moves[n - 1].Insert? {
      j := n - 1;
    } else {
      j := SomeInsert(moves, n - 1);
    }
  }

  /** Before anything is inserted, an item waits exactly until the call that reaches its depth. */
  lemma {:induction false} WaitsUndisturbed(moves: seq<Move>, depth: nat, maxStories: nat, n: nat)
    requires n <= |moves| && InsertsIn(moves, n) == 0
    ensures StillWaits(moves, depth, maxStories, n) <==> CallsIn(moves, n) <= depth
    decreases n
  {
    if n > 0 {
      WaitsUndisturbed(moves, depth, maxStories, n - 1);
    }
  }

  /** The numbers found so far, in order, as long as nothing has been inserted. */
  predicate FoundInOrder(q: seq<Item>, s: State, calls: nat) {
    |s.found| == calls <= |q| && forall i :: 0 <= i < calls ==> s.found[i].id == |q| - 1 - i
  }

  lemma CallFindsNext(q: seq<Item>, moves: seq<Move>, maxStories: nat, n: nat)
    requires AllGood(q) && InsertsGood(moves) && maxStories > 0 && n < |moves| && moves[n].Call?
    requires InsertsIn(moves, n) == 0 && CallsIn(moves, n) < |q|
    requires FoundInOrder(q, At(q, moves, maxStories, n), CallsIn(moves, n))
    ensures FoundInOrder(q, At(q, moves, maxStories, n + 1), CallsIn(moves, n + 1))
  {
    hide Behind, AfterCall, StillWaits, Live, Has, Numbered, Counted;
    var s, calls := At(q, moves, maxStories, n), CallsIn(moves, n);
    var id := |q| - 1 - calls;
    WaitsUndisturbed(moves, calls, maxStories, n);
    WaitsIff(q, moves, maxStories, id, n);
    AtCounted(q, moves, maxStories, id, n);
    CountedDepth(q, moves, maxStories, id, n);
    AtNumbered(q, moves, maxStories, n);
    AtNext(q, moves, maxStories, n);
    CallMoves(s, id);
    var found := AfterCall(s).found;
    assert forall i :: 0 <= i < calls ==> found[i] == s.found[i] by {
      assert forall i :: 0 <= i < calls ==> found[i] == found[..calls][i];
    }
  }

  lemma CountedDepth(q: seq<Item>, moves: seq<Move>, maxStories: nat, id: nat, n: nat)
    requires AllGood(q) && id < |q| && n <= |moves| && Counted(q, moves, maxStories, id, n)
    requires Waiting(At(q, moves, maxStories, n), id)
    ensures Behind(At(q, moves, maxStories, n).queue, id) + CallsIn(moves, n) == |q| - 1 - id + InsertsIn(moves, n)
  {
    hide Behind, Waiting;
    DepthInGood(q, id);
  }

  lemma InsertFindsNothing(q: seq<Item>, moves: seq<Move>, maxStories: nat, n: nat)
    requires n < |moves| && moves[n].Insert?
    ensures At(q, moves, maxStories, n + 1).found == At(q, moves, maxStories, n).found
    ensures CallsIn(moves, n + 1) == CallsIn(moves, n)
  {
    AtNext(q, moves, maxStories, n);
  }

  lemma {:induction false} UndisturbedFinds(q: seq<Item>, moves: seq<Move>, maxStories: nat, n: nat)
    requires AllGood(q) && InsertsGood(moves) && maxStories > 0 && n <= |moves|
    requires Undisturbed(moves) && CallsIn(moves, |moves|) <= |q|
    ensures FoundInOrder(q, At(q, moves, maxStories, n), CallsIn(moves, n))
    decreases n
  {
    hide Step, AllGood, InsertsGood, Undisturbed;
    if n > 0 {
      UndisturbedFinds(q, moves, maxStories, n - 1);
      CountsGrow(moves, n, |moves|);
      if moves[n - 1].Call? {
        NothingInserted(moves, n - 1);
        CallFindsNext(q, moves, maxStories, n - 1);
      } else {
        InsertFindsNothing(q, moves, maxStories, n - 1);
      }
    }
  }

  /** When a full pass finds the item at the head, nothing was inserted before the last call. */
  lemma HeadCrossed(moves: seq<Move>, depth: nat, maxStories: nat, j: nat)
    requires j < |moves| && Crosses(moves, depth, maxStories, j) && CallsIn(moves, |moves|) <= depth + 1
    ensures CallsIn(moves, |moves|) == depth + 1 && Undisturbed(moves)
  {
    hide StillWaits;
    CountsGrow(moves, j + 1, |moves|);
    forall i | 0 <= i < |moves| && moves[i].Insert? ensures CallsIn(moves, i) == CallsIn(moves, |moves|) {
      if i < j {
        CountsGrow(moves, i + 1, j);
        assert false;
      } else if i > j {
        CountsGrow(moves, j + 1, i);
        CountsGrow(moves, i, |moves|);
      }
    }
  }

  /** The item at the head is out of reach of a pass that is shorter than the queue or disturbed. */
  lemma HeadIsMissed(q: seq<Item>, moves: seq<Move>, maxStories: nat)
    requires AllGood(q) && InsertsGood(moves) && maxStories > 0 && q != []
    requires CallsIn(moves, |moves|) < |q| || (CallsIn(moves, |moves|) == |q| && !Undisturbed(moves))
    ensures !Has(At(q, moves, maxStories, |moves|).found, 0)
  {
    hide Crosses, Has, Undisturbed, CallsIn, At;
    FoundInGoodIff(q, moves, maxStories, 0, |moves|);
    if Crossed(moves, |q| - 1, maxStories, |moves|) {
      var j :| 0 <= j < |moves| && Crosses(moves, |q| - 1, maxStories, j);
      HeadCrossed(moves, |q| - 1, maxStories, j);
      assert false;
    }
  }

  /** The comment of drainGenre, with pushes. Over a queue of decodable items a pass finds every item
      of the queue at its beginning exactly once if and only if it makes as many calls as there are
      items and no push inserts before the last of them. */
  lemma PassOnceIff(q: seq<Item>, moves: seq<Move>, maxStories: nat, maxPerGenre: int)
    requires AllGood(q) && InsertsGood(moves) && maxStories > 0 && IsPass(q, moves, maxPerGenre)
    ensures (forall id :: 0 <= id < |q| ==> Once(At(q, moves, maxStories, |moves|).found, id))
            <==> q == [] || (Limit(|q|, maxPerGenre) == |q| && Undisturbed(moves))
  {
    hide Has, Undisturbed;
    var s := At(q, moves, maxStories, |moves|);
    LimitBounded(|q|, maxPerGenre);
    if q != [] {
      if Limit(|q|, maxPerGenre) == |q| && Undisturbed(moves) {
        UndisturbedFinds(q, moves, maxStories, |moves|);
        forall id | 0 <= id < |q| ensures Once(s.found, id) {
          OnceInOrder(q, s, id);
        }
      } else {
        HeadIsMissed(q, moves, maxStories);
        OnceIsFound(s.found, 0);
      }
    }
  }

  lemma OnceInOrder(q: seq<Item>, s: State, id: nat)
    requires FoundInOrder(q, s, |q|) && id < |q|
    ensures Once(s.found, id)
  {
    assert s.found[|q| - 1 - id].id == id;
  }

  lemma OnceIsFound(found: seq<Slot>, id: nat)
    ensures Once(found, id) ==> Has(found, id)
  {
  }

  /** The input on which an undisturbed pass would find both stories and a disturbed one misses the
      first: a push between the two calls. */
  lemma PushHidesStory(a: Item, b: Item, c: Item, maxStories: nat)
    requires a.good && b.good && c.good && maxStories > 0
    ensures var moves := [Call, Insert(c), Call];
            IsPass([a, b], moves, 0) && !Has(At([a, b], moves, maxStories, 3).found, 0)
  {
    var moves := [Call, Insert(c), Call];
    assert CallsIn(moves, 0) == 0 && CallsIn(moves, 1) == 1 && CallsIn(moves, 2) == 1 && CallsIn(moves, 3) == 2;
    assert moves[1].Insert?;
    HeadIsMissed([a, b], moves, maxStories);
  }
}
