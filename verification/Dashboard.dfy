/** drainGenre: one bounded pass over a rotating genre queue. */
module Dashboard {
  import opened Common
  import opened Text
  import opened NewsStore
  import opened Wheel

  // ----- the queue as a wheel -----

  /** The decodable items of a queue, in order. */
  function Goods(q: seq<Item>): seq<Item> {
    if q == [] then []
    else Goods(q[..|q| - 1]) + if q[|q| - 1].good then [q[|q| - 1]] else []
  }

  /** A store's queue while Next is called again and again: the queue, the items found so far, the
      stories returned for them, and the bad items removed so far, the latest first. */
  datatype Pulled = Pulled(queue: seq<Item>, found: seq<Item>, stories: seq<Story>, bad: seq<Item>)

  function Listed<T>(x: Option<T>): seq<T> {
    if x.Some? then [x.value] else []
  }

  function PullOne(p: Pulled): Pulled {
    Pulled(NextQueue(p.queue), p.found + Listed(NextItem(p.queue)), p.stories + Listed(NextStory(p.queue)),
           p.queue[GoodEnd(p.queue)..] + p.bad)
  }

  function PullFrom(p: Pulled, n: nat): Pulled {
    Times(PullOne, p, n)
  }

  lemma PullFromCompose(p: Pulled, a: nat, b: nat)
    ensures PullFrom(PullFrom(p, a), b) == PullFrom(p, a + b)
  {
    TimesCompose(PullOne, p, a, b);
  }

  /** n calls of Next on a queue. */
  function Pull(q: seq<Item>, n: nat): Pulled {
    PullFrom(Pulled(q, [], [], []), n)
  }

  lemma PullNext(q: seq<Item>, i: nat)
    ensures Pull(q, i + 1) == PullOne(Pull(q, i))
  {
  }

  lemma {:induction false} GoodsSplit(a: seq<Item>, b: seq<Item>)
    ensures Goods(a + b) == Goods(a) + Goods(b)
    decreases |b|
  {
    if b == [] {
      assert a + b == a;
    } else {
      assert (a + b)[..|a + b| - 1] == a + b[..|b| - 1];
      GoodsSplit(a, b[..|b| - 1]);
    }
  }

  lemma {:induction false} AllBad(q: seq<Item>)
    requires forall i :: 0 <= i < |q| ==> !q[i].good
    ensures Goods(q) == []
    decreases |q|
  {
    if q != [] {
      AllBad(q[..|q| - 1]);
    }
  }

  lemma GoodsUpTo(q: seq<Item>)
    ensures Goods(q) == Goods(q[..GoodEnd(q)])
  {
    var n := GoodEnd(q);
    assert q == q[..n] + q[n..];
    GoodsSplit(q[..n], q[n..]);
    AllBad(q[n..]);
    assert Goods(q[..n]) + [] == Goods(q[..n]);
  }

  lemma GoodsFirst(item: Item, q: seq<Item>)
    requires item.good
    ensures Goods([item] + q) == [item] + Goods(q)
  {
    GoodsSplit([item], q);
    assert [item][..0] == [];
    assert Goods([item]) == [item];
  }

  /** Next turns the wheel of the decodable items by one, whatever else is in the queue: it finds
      the last of them and fails only if there is none. */
  lemma NextTurnsTheWheel(q: seq<Item>)
    ensures Listed(NextItem(q)) == Tail(Goods(q)) && |Listed(NextStory(q))| == |Tail(Goods(q))|
    ensures Goods(NextQueue(q)) == Turned(Goods(q))
  {
    var n := GoodEnd(q);
    GoodsUpTo(q);
    if n > 0 {
      assert q[..n][..n - 1] == q[..n - 1];
      assert Goods(q[..n]) == Goods(q[..n - 1]) + [q[n - 1]];
      GoodsFirst(q[n - 1], q[..n - 1]);
    }
  }

  /** Any number of calls, on any queue, is determined by the wheel of its decodable items. */
  lemma {:induction false} PullIsWheel(q: seq<Item>, n: nat)
    ensures Goods(Pull(q, n).queue) == TurnedTimes(Goods(q), n)
    ensures Pull(q, n).found == Shown(Goods(q), n)
    decreases n
  {
    if n > 0 {
      PullIsWheel(q, n - 1);
      NextTurnsTheWheel(Pull(q, n - 1).queue);
    }
  }

  /** The story has every field that the item's text sets. */
  ghost predicate Shows(story: Story, item: Item) {
    forall f: Field :: item.fields.Get(f).Some? ==> story.Get(f) == item.fields.Get(f).value
  }

  ghost predicate AllShow(stories: seq<Story>, items: seq<Item>) {
    |stories| == |items| && forall i :: 0 <= i < |items| ==> Shows(stories[i], items[i])
  }

  lemma NextShows(q: seq<Item>)
    requires GoodEnd(q) > 0
    ensures Shows(NextStory(q).value, NextItem(q).value)
  {
    var n := GoodEnd(q);
    forall f: Field
      ensures Residue(q, n - 1).Get(f) == Or(q[n - 1].fields.Get(f), Residue(q, n).Get(f))
    {
      DecodeGets(Residue(q, n), q[n - 1], f);
    }
  }

  lemma PullOneShows(p: Pulled)
    requires AllShow(p.stories, p.found)
    ensures AllShow(PullOne(p).stories, PullOne(p).found)
  {
    if GoodEnd(p.queue) > 0 {
      NextShows(p.queue);
    }
  }

  /** Each call returns a story with every field that the text of the item found sets. */
  lemma PullShows(q: seq<Item>, n: nat)
    ensures AllShow(Pull(q, n).stories, Pull(q, n).found)
  {
    ghost var kept := (p: Pulled) => AllShow(p.stories, p.found);
    forall p | kept(p) ensures kept(PullOne(p)) {
      PullOneShows(p);
    }
    TimesKeeps(PullOne, kept, Pulled(q, [], [], []), n);
  }

  /** The text sets every field, as marshalling a story does. */
  predicate Complete(item: Item) {
    && item.fields.storyId.Some? && item.fields.eventId.Some? && item.fields.title.Some?
    && item.fields.description.Some? && item.fields.genre.Some? && item.fields.sources.Some?
  }

  lemma CompleteIsClean(story: Story, item: Item)
    requires Complete(item) && Shows(story, item)
    ensures story == Clean(item)
  {
    forall f: Field ensures story.Get(f) == Clean(item).Get(f) {
      DecodeGets(EMPTY_STORY, item, f);
      assert item.fields.Get(f).Some?;
    }
    SameStory(story, Clean(item));
  }

  lemma PullOneConserves(p: Pulled)
    ensures multiset(PullOne(p).queue) + multiset(PullOne(p).bad) == multiset(p.queue) + multiset(p.bad)
  {
    var n := GoodEnd(p.queue);
    assert p.queue == p.queue[..n] + p.queue[n..];
    if n > 0 {
      assert p.queue[..n] == p.queue[..n - 1] + [p.queue[n - 1]];
    }
  }

  /** Nothing is lost: what leaves the queue is bad, and it is all in the removed items. */
  lemma {:induction false} PullConserves(q: seq<Item>, n: nat)
    ensures multiset(Pull(q, n).queue) + multiset(Pull(q, n).bad) == multiset(q)
    ensures forall i :: 0 <= i < |Pull(q, n).bad| ==> !Pull(q, n).bad[i].good
    decreases n
  {
    if n > 0 {
      PullConserves(q, n - 1);
      PullOneConserves(Pull(q, n - 1));
      PullOneRemovesBad(Pull(q, n - 1));
    }
  }

  lemma PullOneRemovesBad(p: Pulled)
    requires forall i :: 0 <= i < |p.bad| ==> !p.bad[i].good
    ensures forall i :: 0 <= i < |PullOne(p).bad| ==> !PullOne(p).bad[i].good
  {
  }

  // ----- a pass -----

  /** How many calls of Next a pass makes at most. */
  function Limit(n: nat, maxStories: int): nat {
    if maxStories > 0 && n > maxStories then maxStories else n
  }

  predicate Titled(s: Story) {
    TrimSpace(s.title) != ""
  }

  /** What is painted: untitled stories are skipped, and a story without a genre gets the queue's. */
  function Painted(stories: seq<Story>, genre: string): seq<Story> {
    if stories == [] then []
    else
      var s := stories[|stories| - 1];
      Painted(stories[..|stories| - 1], genre)
      + if Titled(s) then [if TrimSpace(s.genre) == "" then s.(genre := genre) else s] else []
  }

  function Min(a: nat, b: nat): nat {
    if a < b then a else b
  }

  /** The dead-letter list after the bad items were pushed on it. */
  function Buried(bad: seq<Item>, dead: seq<Item>): seq<Item> {
    if bad == [] then dead else Take(bad + dead, DEAD_LETTER_LIMIT)
  }

  lemma BuriedTwice(more: seq<Item>, bad: seq<Item>, dead: seq<Item>)
    ensures Buried(more, Buried(bad, dead)) == Buried(more + bad, dead)
  {
    assert more + (bad + dead) == more + bad + dead;
    if more == [] {
      assert more + bad == bad;
    } else if bad == [] {
      assert more + bad == more;
    }
  }

  lemma PullOneOfEmpty(p: Pulled)
    requires p.queue == []
    ensures PullOne(p) == p
  {
    assert [][0..] + p.bad == p.bad;
  }

  lemma PullOneStops(p: Pulled)
    requires NextStory(p.queue) == None
    ensures PullOne(PullOne(p)) == PullOne(p)
  {
    PullOneOfEmpty(PullOne(p));
  }

  /** Once Next finds nothing, further calls change nothing. */
  lemma PullStops(q: seq<Item>, i: nat, n: nat)
    requires i < n && NextStory(Pull(q, i).queue) == None
    ensures Pull(q, n) == Pull(q, i + 1)
  {
    PullOneStops(Pull(q, i));
    PullNext(q, i);
    TimesFixed(PullOne, Pull(q, i + 1), n - i - 1);
    PullFromCompose(Pulled(q, [], [], []), i + 1, n - i - 1);
  }

  /** The store holds what the calls left, given its queue and dead letters at the beginning. */
  ghost predicate Holds(store: Store, key: string, p: Pulled, dead: seq<Item>)
    reads store
  {
    List(store.View(), key) == p.queue && store.dead == Buried(p.bad, dead)
  }

  lemma SameTransitive(a: Db, b: Db, c: Db, key: string)
    ensures SameElsewhere(a, a, key)
    ensures SameElsewhere(a, b, key) && SameElsewhere(b, c, key) ==> SameElsewhere(a, c, key)
  {
  }

  /** drainGenre on a store that nobody else uses. `steps` is how many rounds are made before the
      context ends, or up to the one in which painting fails. The pass does exactly as many calls of Next as the bounds
      allow, and leaves everything but the genre's queue and the dead letters alone. */
  method DrainGenre(store: Store, genre: string, maxStories: int, steps: nat) returns (painted: seq<Story>)
    modifies store`lists, store`dead
    ensures var q := old(List(store.View(), Normalize(genre)));
            var p := Pull(q, Min(Limit(|q|, maxStories), steps));
            Holds(store, Normalize(genre), p, old(store.dead)) && painted == Painted(p.stories, genre)
    ensures SameElsewhere(old(store.View()), store.View(), Normalize(genre))
  {
    hide SameElsewhere, Holds, Painted;
    var key := Normalize(genre);
    ghost var db, q, dead := store.View(), List(store.View(), key), store.dead;
    PassBegins(store, key, genre);
    SameTransitive(db, db, db, key);
    var n := store.LLen(key);
    if maxStories > 0 && n > maxStories {
      n := maxStories;
    }
    painted := [];
    ghost var p := Pulled(q, [], [], []);
    var i := 0;
    while i < n
      invariant 0 <= i <= n == Limit(|q|, maxStories) && i <= Min(n, steps)
      invariant p == Pull(q, i) && Holds(store, key, p, dead) && painted == Painted(p.stories, genre)
      invariant SameElsewhere(db, store.View(), key)
      decreases n - i
    {
      if i >= steps {
        return;
      }
      ghost var before := store.View();
      var more;
      more, painted := OneStory(store, genre, p, dead, painted);
      SameTransitive(db, before, store.View(), key);
      PullNext(q, i);
      p := PullOne(p);
      if !more {
        PullStops(q, i, Min(n, steps));
        return;
      }
      i := i + 1;
    }
  }

  lemma PassBegins(store: Store, key: string, genre: string)
    ensures var p := Pull(List(store.View(), key), 0);
            Holds(store, key, p, store.dead) && [] == Painted(p.stories, genre)
  {
  }

  /** One round of the loop: call Next, and paint what it returns. */
  method OneStory(store: Store, genre: string, ghost p: Pulled, ghost dead: seq<Item>, painted: seq<Story>)
    returns (more: bool, painted': seq<Story>)
    requires Holds(store, Normalize(genre), p, dead) && painted == Painted(p.stories, genre)
    modifies store`lists, store`dead
    ensures Holds(store, Normalize(genre), PullOne(p), dead) && painted' == Painted(PullOne(p).stories, genre)
    ensures !more ==> NextStory(p.queue) == None
    ensures SameElsewhere(old(store.View()), store.View(), Normalize(genre))
  {
    var story := NextFrom(store, genre, p, dead);
    if story.None? {
      return false, painted;
    }
    painted' := PaintOne(painted, p.stories, story.value, genre);
    more := true;
  }

  /** One call of Next. */
  method NextFrom(store: Store, genre: string, ghost p: Pulled, ghost dead: seq<Item>) returns (story: Option<Story>)
    requires Holds(store, Normalize(genre), p, dead)
    modifies store`lists, store`dead
    ensures Holds(store, Normalize(genre), PullOne(p), dead)
    ensures story == NextStory(p.queue)
    ensures PullOne(p).stories == if story.None? then p.stories else p.stories + [story.value]
    ensures SameElsewhere(old(store.View()), store.View(), Normalize(genre))
  {
    story := store.Next(genre);
    BuriedTwice(p.queue[GoodEnd(p.queue)..], p.bad, dead);
  }

  /** The untitled are skipped, a missing genre is filled in. */
  method PaintOne(painted: seq<Story>, ghost before: seq<Story>, story: Story, genre: string)
    returns (painted': seq<Story>)
    requires painted == Painted(before, genre)
    ensures painted' == Painted(before + [story], genre)
  {
    ghost var after := before + [story];
    assert after[..|after| - 1] == before;
    if !Titled(story) {
      return painted;
    }
    var s := story;
    if TrimSpace(s.genre) == "" {
      s := s.(genre := genre);
    }
    return painted + [s];
  }

  // ----- what a pass shows -----

  /** The text sets a title and a genre that are not blank. */
  predicate Presentable(item: Item) {
    && item.fields.title.Some? && TrimSpace(item.fields.title.value) != ""
    && item.fields.genre.Some? && TrimSpace(item.fields.genre.value) != ""
  }

  predicate AllPresentable(items: seq<Item>) {
    forall i :: 0 <= i < |items| ==> Presentable(items[i])
  }

  lemma {:induction false} PaintedAll(stories: seq<Story>, genre: string)
    requires forall i :: 0 <= i < |stories| ==> Titled(stories[i]) && TrimSpace(stories[i].genre) != ""
    ensures Painted(stories, genre) == stories
    decreases |stories|
  {
    if stories != [] {
      PaintedAll(stories[..|stories| - 1], genre);
      assert stories == stories[..|stories| - 1] + [stories[|stories| - 1]];
    }
  }

  lemma ShowsPresentable(story: Story, item: Item)
    requires Shows(story, item) && Presentable(item)
    ensures Titled(story) && TrimSpace(story.genre) != ""
  {
    assert story.Get(Title) == item.fields.Get(Title).value;
    assert story.Get(Genre) == item.fields.Get(Genre).value;
  }

  /** If the decodable items are presentable, every item found is painted, with every field that
      its text sets. */
  lemma FoundIsPainted(q: seq<Item>, k: nat, genre: string)
    requires AllPresentable(Goods(q))
    ensures var p := Pull(q, k); Painted(p.stories, genre) == p.stories && AllShow(p.stories, p.found)
  {
    var p := Pull(q, k);
    PullShows(q, k);
    PullIsWheel(q, k);
    forall i | 0 <= i < |p.stories| ensures Titled(p.stories[i]) && TrimSpace(p.stories[i].genre) != "" {
      ShownHolds(Goods(q), k, p.found[i]);
      ShowsPresentable(p.stories[i], p.found[i]);
    }
    PaintedAll(p.stories, genre);
  }

  /** The comment of drainGenre says it shows each story of the queue once. With nothing pushed during
      the pass, it finds each decodable item of the queue exactly once if and only if the number of
      calls, fixed before bad items are quarantined, is the number of decodable items; and it finds no
      item twice if and only if it does not exceed that number. What it finds, it paints, if the items
      are presentable. PassRuns says what pushes change. */
  lemma ShownOnceIff(q: seq<Item>, maxStories: int, genre: string)
    ensures var k := Limit(|q|, maxStories); var p := Pull(q, k);
            && (multiset(p.found) == multiset(Goods(q)) <==> k == |Goods(q)| || Goods(q) == [])
            && (Distinct(Goods(q)) ==> (Distinct(p.found) <==> k <= |Goods(q)| || Goods(q) == []))
            && (AllPresentable(Goods(q)) ==> AllShow(Painted(p.stories, genre), p.found))
  {
    var k := Limit(|q|, maxStories);
    PullIsWheel(q, k);
    ShownAllIff(Goods(q), k);
    if Distinct(Goods(q)) {
      ShownDistinctIff(Goods(q), k);
    }
    if AllPresentable(Goods(q)) {
      FoundIsPainted(q, k, genre);
    }
  }

  /** The same of the stories painted, when every text is complete, as pushed stories are: with
      nothing pushed during the pass they are the stories of the queue, each once, and none twice,
      under the same conditions. */
  lemma StoriesOnceIff(q: seq<Item>, maxStories: int, genre: string)
    requires AllPresentable(Goods(q)) && forall i :: 0 <= i < |Goods(q)| ==> Complete(Goods(q)[i])
    ensures var k := Limit(|q|, maxStories); var painted := Painted(Pull(q, k).stories, genre);
            var stories := Map(Clean, Goods(q));
            && (multiset(painted) == multiset(stories) <==> k == |stories| || stories == [])
            && (Distinct(stories) ==> (Distinct(painted) <==> k <= |stories| || stories == []))
  {
    var k := Limit(|q|, maxStories);
    var stories := Map(Clean, Goods(q));
    PaintedAreClean(q, k, genre);
    ShownAllIff(stories, k);
    if Distinct(stories) {
      ShownDistinctIff(stories, k);
    }
  }

  lemma PaintedAreClean(q: seq<Item>, k: nat, genre: string)
    requires AllPresentable(Goods(q)) && forall i :: 0 <= i < |Goods(q)| ==> Complete(Goods(q)[i])
    ensures Painted(Pull(q, k).stories, genre) == Shown(Map(Clean, Goods(q)), k)
  {
    var p := Pull(q, k);
    FoundIsPainted(q, k, genre);
    PullIsWheel(q, k);
    MapShown(Clean, Goods(q), k);
    forall i | 0 <= i < |p.stories| ensures p.stories[i] == Clean(p.found[i]) {
      ShownHolds(Goods(q), k, p.found[i]);
      CompleteIsClean(p.stories[i], p.found[i]);
    }
    assert p.stories == Map(Clean, p.found);
  }

  /** The input on which a story is shown twice: one story followed by one text that does not
      decode. */
  lemma StoryIsShownTwice(good: Item, bad: Item, genre: string)
    requires good.good && !bad.good && Presentable(good) && Complete(good)
    ensures Painted(Pull([good, bad], Limit(2, 0)).stories, genre) == [Clean(good), Clean(good)]
  {
    GoodsOfPair(good, bad);
    PaintedAreClean([good, bad], 2, genre);
    assert Map(Clean, [good]) == [Clean(good)];
    ShownOfOne(Clean(good));
  }

  lemma GoodsOfPair(good: Item, bad: Item)
    requires good.good && !bad.good
    ensures Goods([good, bad]) == [good]
  {
    assert [good, bad] == [good] + [bad];
    assert [good][..0] == [] && [bad][..0] == [];
    GoodsSplit([good], [bad]);
    assert Goods([good]) == [good] && Goods([bad]) == [];
  }

  lemma ShownOfOne(x: Story)
    ensures Shown([x], 2) == [x, x]
  {
    var s := [x];
    assert TurnedTimes(s, 0) == s && TurnedTimes(s, 1) == Turned(s) == s;
    assert Shown(s, 0) == [] && Shown(s, 1) == [] + [x];
  }

  // ----- queues without bad items -----

  predicate AllGood(q: seq<Item>) {
    forall i :: 0 <= i < |q| ==> q[i].good
  }

  lemma {:induction false} GoodsOfGood(q: seq<Item>)
    requires AllGood(q)
    ensures Goods(q) == q
    decreases |q|
  {
    if q != [] {
      GoodsOfGood(q[..|q| - 1]);
    }
  }

  /** No item is bad, none has been, and every story is that of its item's own text. */
  ghost predicate Spotless(p: Pulled) {
    AllGood(p.queue) && p.bad == [] && p.stories == Map(Clean, p.found)
  }

  lemma PullOneGood(p: Pulled)
    requires Spotless(p)
    ensures Spotless(PullOne(p))
  {
    var q := p.queue;
    assert GoodEnd(q) == |q|;
    if q != [] {
      assert Residue(q, |q|) == EMPTY_STORY;
      assert NextStory(q) == Some(Clean(q[|q| - 1]));
    }
  }

  lemma GoodStayGood(q: seq<Item>, k: nat)
    requires AllGood(q)
    ensures Spotless(Pull(q, k))
  {
    forall p | Spotless(p) ensures Spotless(PullOne(p)) {
      PullOneGood(p);
    }
    TimesKeeps(PullOne, Spotless, Pulled(q, [], [], []), k);
  }

  lemma PullTurns(q: seq<Item>, k: nat)
    requires AllGood(q)
    ensures Pull(q, k).queue == TurnedTimes(q, k) && Pull(q, k).found == Shown(q, k)
    ensures Pull(q, k).stories == Map(Clean, Shown(q, k))
  {
    GoodsOfGood(q);
    GoodStayGood(q, k);
    GoodsOfGood(Pull(q, k).queue);
    PullIsWheel(q, k);
  }

  lemma PullPaints(q: seq<Item>, k: nat, genre: string)
    requires AllGood(q) && AllPresentable(q)
    ensures Painted(Pull(q, k).stories, genre) == Map(Clean, Shown(q, k))
  {
    PullTurns(q, k);
    GoodsOfGood(q);
    FoundIsPainted(q, k, genre);
  }

  lemma LimitBounded(n: nat, maxStories: int)
    ensures Limit(n, maxStories) <= n
  {
  }

  lemma StoriesWithin(q: seq<Item>, k: nat)
    requires k <= |q|
    ensures var stories := Map(Clean, Shown(q, k));
            |stories| == k && forall i :: 0 <= i < k ==> stories[i] == Clean(q[|q| - 1 - i])
  {
    WithinOneTurn(q, k);
  }

  lemma QueueWithin(q: seq<Item>, k: nat)
    requires AllGood(q) && k <= |q|
    ensures Pull(q, k).queue == q[|q| - k..] + q[..|q| - k]
  {
    PullTurns(q, k);
    TurnsWithin(q, k);
  }

  /** With only decodable, presentable items a pass rotates: it moves the last min(n, Max) items to
      the front in their order and paints exactly their stories, last to first. */
  lemma PassRotates(q: seq<Item>, maxStories: int, genre: string)
    requires AllGood(q) && AllPresentable(q)
    ensures var k := Limit(|q|, maxStories);
            && k <= |q| && Pull(q, k).queue == q[|q| - k..] + q[..|q| - k]
            && var painted := Painted(Pull(q, k).stories, genre);
               |painted| == k && forall i :: 0 <= i < k ==> painted[i] == Clean(q[|q| - 1 - i])
  {
    var k := Limit(|q|, maxStories);
    LimitBounded(|q|, maxStories);
    PullPaints(q, k, genre);
    StoriesWithin(q, k);
    QueueWithin(q, k);
  }

  /** As many calls as there are items restore a queue of decodable items. */
  lemma FullRotationRestores(q: seq<Item>)
    requires AllGood(q)
    ensures Pull(q, |q|).queue == q
  {
    PullTurns(q, |q|);
    TurnsRepeat(q, 0);
  }

  // ----- several passes -----

  /** How many calls the pass that finds this queue makes. */
  function CallsOf(maxStories: int): Pulled -> nat {
    (p: Pulled) => Limit(|p.queue|, maxStories)
  }

  /** Pass after pass, each with its own number of calls from the length of the queue it finds. */
  function Passes(q: seq<Item>, maxStories: int, passes: nat): Pulled {
    Rounds(PullOne, CallsOf(maxStories), Pulled(q, [], [], []), passes)
  }

  function Calls(q: seq<Item>, maxStories: int, passes: nat): nat {
    Applications(PullOne, CallsOf(maxStories), Pulled(q, [], [], []), passes)
  }

  lemma PassesArePulls(q: seq<Item>, maxStories: int, passes: nat)
    ensures Passes(q, maxStories, passes) == Pull(q, Calls(q, maxStories, passes))
  {
    RoundsAreTimes(PullOne, CallsOf(maxStories), Pulled(q, [], [], []), passes);
  }

  lemma {:induction false} GoodsBounded(q: seq<Item>)
    ensures |Goods(q)| <= |q|
    decreases |q|
  {
    if q != [] {
      GoodsBounded(q[..|q| - 1]);
    }
  }

  lemma LimitMonotone(a: nat, b: nat, maxStories: int)
    requires a <= b
    ensures Limit(a, maxStories) <= Limit(b, maxStories)
  {
  }

  /** Quarantining never brings a pass below what the decodable items call for. */
  lemma {:induction false} CallsEnough(q: seq<Item>, maxStories: int, passes: nat)
    ensures Calls(q, maxStories, passes) >= passes * Limit(|Goods(q)|, maxStories)
    decreases passes
  {
    if passes > 0 {
      CallsEnough(q, maxStories, passes - 1);
      NextPassEnough(q, maxStories, passes - 1);
      OneMorePass(Limit(|Goods(q)|, maxStories), passes);
    }
  }

  lemma NextPassEnough(q: seq<Item>, maxStories: int, passes: nat)
    ensures Limit(|Goods(q)|, maxStories) <= Limit(|Passes(q, maxStories, passes).queue|, maxStories)
  {
    var n := Calls(q, maxStories, passes);
    PassesArePulls(q, maxStories, passes);
    PullIsWheel(q, n);
    TurnedLength(Goods(q), n);
    GoodsBounded(Pull(q, n).queue);
    LimitMonotone(|Goods(q)|, |Pull(q, n).queue|, maxStories);
  }

  lemma OneMorePass(k: nat, passes: nat)
    requires passes > 0
    ensures (passes - 1) * k + k == passes * k
  {
  }

  lemma {:induction false} PaintedJoins(a: seq<Story>, b: seq<Story>, genre: string)
    ensures Painted(a + b, genre) == Painted(a, genre) + Painted(b, genre)
    decreases |b|
  {
    if b == [] {
      assert a + b == a;
    } else {
      assert (a + b)[..|a + b| - 1] == a + b[..|b| - 1];
      PaintedJoins(a, b[..|b| - 1], genre);
    }
  }

  /** With nothing pushed meanwhile, repeated passes starve no story. Once passes times min(n, Max)
      reaches the number n of decodable items, each of them has been found, whatever bad items the
      queue held; and if they are presentable, each has been painted. Pushes can starve one, see
      PassRuns.AlwaysBehind. */
  lemma EveryStoryIsReached(q: seq<Item>, maxStories: int, passes: nat, i: nat, genre: string)
    requires passes * Limit(|Goods(q)|, maxStories) >= |Goods(q)| && i < |Goods(q)|
    ensures var p := Passes(q, maxStories, passes);
            && Goods(q)[i] in p.found
            && (AllPresentable(Goods(q)) ==>
                  exists j :: 0 <= j < |Painted(p.stories, genre)| && Shows(Painted(p.stories, genre)[j], Goods(q)[i]))
  {
    var n := Calls(q, maxStories, passes);
    CallsEnough(q, maxStories, passes);
    PassesArePulls(q, maxStories, passes);
    PullIsWheel(q, n);
    ShownCovers(Goods(q), n, i);
    if AllPresentable(Goods(q)) {
      FoundIsPainted(q, n, genre);
      var j :| 0 <= j < |Pull(q, n).found| && Pull(q, n).found[j] == Goods(q)[i];
      assert Shows(Painted(Pull(q, n).stories, genre)[j], Goods(q)[i]);
    }
  }
}
