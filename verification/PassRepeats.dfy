/** What a pass finds twice while stories are pushed: the exact condition. */
module PassRepeats {
  import opened NewsStore
  import opened Dashboard
  import opened PushedQueue
  import opened PassRuns

  predicate FoundDistinct(s: State) {
    forall i, j :: 0 <= i < j < |s.found| ==> s.found[i].id != s.found[j].id
  }

  // ----- any queue, nothing trimmed -----

  /** What is kept while nothing has been found twice: each item found is still in the queue, and the
      calls since then and the items still behind it add up to all decodable ones. */
  ghost predicate Ring(s: State, calls: nat, all: nat) {
    && Numbered(s) && |s.found| == calls && |Goods(Items(s.queue))| == all && FoundDistinct(s)
    && forall i :: 0 <= i < |s.found| ==> Round(s, i, all)
  }

  predicate Round(s: State, i: nat, all: nat)
    requires i < |s.found|
  {
    Live(s.queue, s.found[i].id) && Behind(s.queue, s.found[i].id) + |s.found| - i == all
  }

  lemma {:induction false} BehindHead(x: Slot, front: seq<Slot>)
    requires !Has(front, x.id)
    ensures Behind([x] + front, x.id) == |Goods(Items(front))|
    decreases |front|
  {
    var q := [x] + front;
    if front != [] {
      var rest := front[..|front| - 1];
      assert q[..|q| - 1] == [x] + rest && Items(front)[..|front| - 1] == Items(rest);
      assert forall i :: 0 <= i < |rest| ==> rest[i] == front[i];
      BehindHead(x, rest);
    }
  }

  lemma HeadAfterCall(s: State)
    requires Numbered(s) && Goods(Items(s.queue)) != []
    ensures var s' := AfterCall(s);
            && |s'.found| == |s.found| + 1 && s'.found[..|s.found|] == s.found
            && Live(s.queue, s'.found[|s.found|].id) && Live(s'.queue, s'.found[|s.found|].id)
            && Behind(s'.queue, s'.found[|s.found|].id) + 1 == |Goods(Items(s.queue))|
            && |Goods(Items(s'.queue))| == |Goods(Items(s.queue))|
  {
    var items := Items(s.queue);
    NextTurnsTheWheel(items);
    CalledItems(s);
    var n := GoodEnd(items);
    var x, front := s.queue[n - 1], s.queue[..n - 1];
    assert s.queue[n - 1].item.good && AfterCall(s).queue[0] == x;
    forall i | 0 <= i < |front| ensures front[i].id != x.id {
      assert front[i] == s.queue[i];
    }
    BehindHead(x, front);
    GoodsOfHead(x, front);
  }

  lemma GoodsOfHead(x: Slot, front: seq<Slot>)
    requires x.item.good
    ensures |Goods(Items([x] + front))| == |Goods(Items(front))| + 1
  {
    assert Items([x] + front) == [x.item] + Items(front);
    GoodsFirst(x.item, Items(front));
  }

  /** A call made before every decodable item has been found finds another one. */
  lemma CallKeepsRing(s: State, calls: nat, all: nat)
    requires Ring(s, calls, all) && calls < all
    ensures Ring(AfterCall(s), calls + 1, all)
  {
    hide AfterCall, Behind, Live, Numbered, Goods;
    HeadAfterCall(s);
    CalledNumbered(s);
    var s' := AfterCall(s);
    forall i | 0 <= i < |s.found|
      ensures s'.found[i] == s.found[i] && Round(s', i, all) && s'.found[|s.found|].id != s.found[i].id
    {
      assert s'.found[..|s.found|][i] == s.found[i];
      assert Round(s, i, all);
      CallMoves(s, s.found[i].id);
    }
  }

  /** A call made after that finds the item found first. */
  lemma CallRepeats(s: State, calls: nat, all: nat)
    requires Ring(s, calls, all) && calls >= all > 0
    ensures !FoundDistinct(AfterCall(s))
  {
    hide AfterCall, Behind, Live, Numbered, Goods;
    var s' := AfterCall(s);
    assert Round(s, 0, all);
    CallMoves(s, s.found[0].id);
    assert s'.found[..|s.found|][0] == s.found[0];
    assert s'.found[0].id == s'.found[|s.found|].id;
  }

  lemma Untrimmed(s: State, item: Item, maxStories: nat)
    requires item.good && |s.queue| < maxStories
    ensures var s' := AfterInsert(s, item, maxStories);
            && s'.queue == s.queue + [Slot(s.next, item)] && s'.found == s.found
            && |Goods(Items(s'.queue))| == |Goods(Items(s.queue))| + 1
            && forall id :: Live(s.queue, id) ==> Has(s'.queue, id)
  {
    var q := s.queue + [Slot(s.next, item)];
    assert Items(q)[..|s.queue|] == Items(s.queue);
    forall id | Live(s.queue, id) ensures Has(q, id) {
      var i :| 0 <= i < |s.queue| && s.queue[i].id == id && s.queue[i].item.good;
      assert q[i].id == id;
    }
  }

  lemma InsertKeepsRing(s: State, item: Item, maxStories: nat, calls: nat, all: nat)
    requires Ring(s, calls, all) && item.good && |s.queue| < maxStories
    ensures Ring(AfterInsert(s, item, maxStories), calls, all + 1)
  {
    hide AfterInsert, Behind, Live, Has, Numbered, Goods;
    Untrimmed(s, item, maxStories);
    InsertedNumbered(s, item, maxStories);
    var s', more := AfterInsert(s, item, maxStories), all + 1;
    forall i | 0 <= i < |s.found| ensures Round(s', i, more) {
      assert Round(s, i, all);
      InsertMoves(s, item, maxStories, s.found[i].id);
    }
  }

  /** Every call so far came before as many calls as there were decodable items by then. */
  predicate Fresh(moves: seq<Move>, goods: nat, n: nat)
    requires n <= |moves|
  {
    forall j :: 0 <= j < n && moves[j].Call? ==> CallsIn(moves, j) < goods + InsertsIn(moves, j)
  }

  lemma {:induction false} LengthBounded(q: seq<Item>, moves: seq<Move>, maxStories: nat, n: nat)
    requires n <= |moves|
    ensures |At(q, moves, maxStories, n).queue| <= |q| + InsertsIn(moves, n)
    decreases n
  {
    if n > 0 {
      LengthBounded(q, moves, maxStories, n - 1);
      AtNext(q, moves, maxStories, n - 1);
    }
  }

  lemma RepeatsStay(s: State, m: Move, maxStories: nat)
    requires !FoundDistinct(s)
    ensures !FoundDistinct(Step(s, m, maxStories))
  {
    var s' := Step(s, m, maxStories);
    assert forall i :: 0 <= i < |s.found| ==> s'.found[i] == s.found[i];
  }

  lemma StartRing(q: seq<Item>)
    ensures Ring(Start(q), 0, |Goods(q)|)
  {
    StartNumbered(q);
    assert Items(Start(q).queue) == q;
  }

  lemma {:induction false} RingIff(q: seq<Item>, moves: seq<Move>, maxStories: nat, n: nat)
    requires InsertsGood(moves) && Goods(q) != [] && n <= |moves| && |q| + InsertsIn(moves, |moves|) <= maxStories
    ensures var s := At(q, moves, maxStories, n);
            if Fresh(moves, |Goods(q)|, n) then Ring(s, CallsIn(moves, n), |Goods(q)| + InsertsIn(moves, n))
            else !FoundDistinct(s)
    decreases n
  {
    hide AfterCall, AfterInsert, Ring, FoundDistinct, Goods;
    if n == 0 {
      StartRing(q);
    } else {
      var s, m := At(q, moves, maxStories, n - 1), moves[n - 1];
      var calls, all := CallsIn(moves, n - 1), |Goods(q)| + InsertsIn(moves, n - 1);
      RingIff(q, moves, maxStories, n - 1);
      AtNext(q, moves, maxStories, n - 1);
      if !Fresh(moves, |Goods(q)|, n - 1) {
        RepeatsStay(s, m, maxStories);
      } else if m.Insert? {
        LengthBounded(q, moves, maxStories, n - 1);
        CountsGrow(moves, n, |moves|);
        InsertKeepsRing(s, m.item, maxStories, calls, all);
      } else if calls < all {
        CallKeepsRing(s, calls, all);
      } else {
        CallRepeats(s, calls, all);
      }
    }
  }

  /** Over any queue with a decodable item and room for what is pushed: nothing is found twice if and
      only if every call came when fewer calls had been made than there were decodable items, those of
      the beginning and those inserted by then. */
  lemma RepeatsIff(q: seq<Item>, moves: seq<Move>, maxStories: nat)
    requires InsertsGood(moves) && Goods(q) != [] && |q| + InsertsIn(moves, |moves|) <= maxStories
    ensures FoundDistinct(At(q, moves, maxStories, |moves|)) <==> Fresh(moves, |Goods(q)|, |moves|)
  {
    hide Round, Numbered, Goods, Fresh, AfterCall, AfterInsert;
    RingIff(q, moves, maxStories, |moves|);
  }

  // ----- queues of decodable items -----

  /** Whatever was found, in the order found, is so far from the tail that a pass does not come round
      to it again. */
  predicate FarBack(q: seq<Item>, s: State) {
    && |s.queue| >= |q| && FoundDistinct(s)
    && forall i, p :: 0 <= i < |s.found| && 0 <= p < |s.queue| && s.queue[p].id == s.found[i].id ==>
         |s.queue| - 1 - p + |s.found| - i >= |q|
  }

  lemma CallInGood(s: State)
    requires AllGood(Items(s.queue)) && s.queue != []
    ensures var n := |s.queue| - 1;
            AfterCall(s) == State([s.queue[n]] + s.queue[..n], s.found + [s.queue[n]], s.next)
  {
    assert GoodEnd(Items(s.queue)) == |s.queue|;
  }

  lemma CallStaysFar(q: seq<Item>, s: State)
    requires AllGood(Items(s.queue)) && Numbered(s) && FarBack(q, s) && |s.found| < |q|
    ensures FarBack(q, AfterCall(s)) && |AfterCall(s).found| == |s.found| + 1
  {
    hide AfterCall;
    CallInGood(s);
    var n := |s.queue| - 1;
    var s' := AfterCall(s);
    forall p | 0 < p < |s'.queue| ensures s'.queue[p] == s.queue[p - 1] {
    }
    assert forall i :: 0 <= i < |s.found| ==> s'.found[i] == s.found[i] && s.found[i].id != s.queue[n].id;
  }

  lemma InsertStaysFar(q: seq<Item>, s: State, item: Item, maxStories: nat)
    requires Numbered(s) && FarBack(q, s) && |q| <= maxStories
    ensures FarBack(q, AfterInsert(s, item, maxStories))
  {
    var all := s.queue + [Slot(s.next, item)];
    var s' := AfterInsert(s, item, maxStories);
    var cut := |all| - |s'.queue|;
    assert forall p :: 0 <= p < |s'.queue| ==> s'.queue[p] == all[cut + p];
  }

  lemma {:induction false} StaysFar(q: seq<Item>, moves: seq<Move>, maxStories: nat, n: nat)
    requires AllGood(q) && InsertsGood(moves) && |q| <= maxStories && n <= |moves| && CallsIn(moves, n) <= |q|
    ensures var s := At(q, moves, maxStories, n); FarBack(q, s) && |s.found| == CallsIn(moves, n)
    decreases n
  {
    hide AfterCall, AfterInsert, FarBack, Numbered, AllGood, InsertsGood;
    if n == 0 {
      StartIsFar(q);
    } else {
      StaysFar(q, moves, maxStories, n - 1);
      AtNext(q, moves, maxStories, n - 1);
      AtNumbered(q, moves, maxStories, n - 1);
      AtGood(q, moves, maxStories, n - 1);
      if moves[n - 1].Call? {
        CallStaysFar(q, At(q, moves, maxStories, n - 1));
      } else {
        InsertStaysFar(q, At(q, moves, maxStories, n - 1), moves[n - 1].item, maxStories);
        InsertFindsNothing(q, moves, maxStories, n - 1);
      }
    }
  }

  lemma StartIsFar(q: seq<Item>)
    ensures FarBack(q, Start(q))
  {
  }

  /** On a queue of decodable items no longer than the store keeps, a pass finds nothing twice, neither
      items of the beginning nor inserted ones, however pushes disturb it. */
  lemma NothingTwice(q: seq<Item>, moves: seq<Move>, maxStories: nat, maxPerGenre: int)
    requires AllGood(q) && InsertsGood(moves) && |q| <= maxStories && IsPass(q, moves, maxPerGenre)
    ensures FoundDistinct(At(q, moves, maxStories, |moves|))
  {
    LimitBounded(|q|, maxPerGenre);
    StaysFar(q, moves, maxStories, |moves|);
  }
}
