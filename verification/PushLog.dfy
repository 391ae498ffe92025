/** Timed pushes as a deduplicated, bounded log. */
module PushLog {
  import opened Text
  import opened NewsStore

  /** A push that reaches the script: its time, normalized genre, deduplication key and item. */
  datatype Arrival = Arrival(at: int, genre: string, key: string, item: Item)

  datatype Limits = Limits(maxStories: nat, ttl: nat)

  function AfterPushes(db: Db, log: seq<Arrival>, m: Limits): Db {
    if log == [] then db
    else
      var a := log[|log| - 1];
      PushScript(AfterPushes(db, log[..|log| - 1], m), a.genre, a.key, a.item, m.maxStories, m.ttl, a.at)
  }

  /** The i-th push inserts its story. */
  predicate Inserts(db: Db, log: seq<Arrival>, m: Limits, i: nat)
    requires i < |log|
  {
    !Alive(AfterPushes(db, log[..i], m), log[i].key, log[i].at)
  }

  predicate InOrder(log: seq<Arrival>) {
    forall i, j :: 0 <= i < j < |log| ==> log[i].at <= log[j].at
  }

  /** The items inserted into one genre, in order. */
  function InsertedItems(db: Db, log: seq<Arrival>, m: Limits, genre: string): seq<Item> {
    if log == [] then []
    else
      var n := |log| - 1;
      InsertedItems(db, log[..n], m, genre)
      + if log[n].genre == genre && Inserts(db, log, m, n) then [log[n].item] else []
  }

  /** What a queue is after the given items were appended to it with trimming. */
  function Logged<T>(queue: seq<T>, items: seq<T>, n: nat): seq<T> {
    if items == [] then queue else Last(queue + items, n)
  }

  lemma LoggedStep<T>(queue: seq<T>, items: seq<T>, x: T, n: nat)
    ensures Last(Logged(queue, items, n) + [x], n) == Logged(queue, items + [x], n)
  {
    LastOfMore(queue + items, [x], n);
    assert queue + items + [x] == queue + (items + [x]);
    if items == [] {
      assert queue + items == queue;
    }
  }

  lemma PushQueue(db: Db, a: Arrival, m: Limits, genre: string)
    ensures List(PushScript(db, a.genre, a.key, a.item, m.maxStories, m.ttl, a.at), genre)
            == if a.genre == genre && !Alive(db, a.key, a.at) then Last(List(db, genre) + [a.item], m.maxStories)
               else List(db, genre)
  {
  }

  /** A queue is the last maxStories of what was in it followed by what was inserted since. */
  lemma {:induction false} QueueIsLog(db: Db, log: seq<Arrival>, m: Limits, genre: string)
    ensures List(AfterPushes(db, log, m), genre)
            == Logged(List(db, genre), InsertedItems(db, log, m, genre), m.maxStories)
    decreases |log|
  {
    if log != [] {
      var n := |log| - 1;
      QueueIsLog(db, log[..n], m, genre);
      PushQueue(AfterPushes(db, log[..n], m), log[n], m, genre);
      LoggedStep(List(db, genre), InsertedItems(db, log[..n], m, genre), log[n].item, m.maxStories);
      assert InsertedItems(db, log[..n], m, genre) + [] == InsertedItems(db, log[..n], m, genre);
    }
  }

  /** Which push last inserted under a key: one past its position, or 0. */
  function LastInsertion(db: Db, log: seq<Arrival>, m: Limits, key: string): (n: nat)
    ensures n <= |log|
  {
    if log == [] then 0
    else if log[|log| - 1].key == key && Inserts(db, log, m, |log| - 1) then |log|
    else LastInsertion(db, log[..|log| - 1], m, key)
  }

  lemma {:induction false} LastInsertionInserts(db: Db, log: seq<Arrival>, m: Limits, key: string)
    ensures var n := LastInsertion(db, log, m, key);
            && (n > 0 ==> log[n - 1].key == key && Inserts(db, log, m, n - 1))
            && (forall i :: n <= i < |log| && log[i].key == key ==> !Inserts(db, log, m, i))
    decreases |log|
  {
    hide AfterPushes;
    if log != [] {
      var front := log[..|log| - 1];
      LastInsertionInserts(db, front, m, key);
      forall i | 0 <= i < |front| ensures Inserts(db, log, m, i) == Inserts(db, front, m, i) {
        assert log[..i] == front[..i];
      }
    }
  }

  /** A deduplication key expires ttl seconds after the last insertion under it. */
  lemma {:induction false} ExpiryIsLastInsertion(db: Db, log: seq<Arrival>, m: Limits, key: string)
    ensures var n := LastInsertion(db, log, m, key);
            var after := AfterPushes(db, log, m);
            if n > 0 then key in after.dedupe && after.dedupe[key] == log[n - 1].at + m.ttl
            else
              && (key in after.dedupe <==> key in db.dedupe)
              && (key in db.dedupe ==> after.dedupe[key] == db.dedupe[key])
    decreases |log|
  {
    if log != [] {
      ExpiryIsLastInsertion(db, log[..|log| - 1], m, key);
    }
  }

  /** When a push inserts: no deduplication key from before the log is still alive, and no push of
      the log inserted under the same key less than ttl seconds ago. */
  lemma InsertsIff(db: Db, log: seq<Arrival>, m: Limits, i: nat)
    requires i < |log| && InOrder(log)
    ensures Inserts(db, log, m, i) <==>
              && !Alive(db, log[i].key, log[i].at)
              && forall j :: 0 <= j < i && log[j].key == log[i].key && Inserts(db, log, m, j) ==>
                   log[j].at + m.ttl <= log[i].at
  {
    hide AfterPushes;
    var key, front := log[i].key, log[..i];
    var n := LastInsertion(db, front, m, key);
    ExpiryIsLastInsertion(db, front, m, key);
    LastInsertionInserts(db, front, m, key);
    forall j | 0 <= j < i ensures Inserts(db, log, m, j) == Inserts(db, front, m, j) {
      assert log[..j] == front[..j];
    }
    if n > 0 {
      FirstInsertionAfterExpiry(db, front, m, key);
    }
  }

  /** The first insertion under a key waits until a key left from before the log has expired. */
  lemma {:induction false} FirstInsertionAfterExpiry(db: Db, log: seq<Arrival>, m: Limits, key: string)
    requires InOrder(log) && LastInsertion(db, log, m, key) > 0
    ensures !Alive(db, key, log[LastInsertion(db, log, m, key) - 1].at)
    decreases |log|
  {
    var last := |log| - 1;
    var front := log[..last];
    if log[last].key == key && Inserts(db, log, m, last) {
      ExpiryIsLastInsertion(db, front, m, key);
      if LastInsertion(db, front, m, key) > 0 {
        FirstInsertionAfterExpiry(db, front, m, key);
      }
    } else {
      FirstInsertionAfterExpiry(db, front, m, key);
    }
  }

  /** Two insertions under the same key are at least ttl seconds apart. */
  lemma InsertionsAreApart(db: Db, log: seq<Arrival>, m: Limits, i: nat, j: nat)
    requires i < j < |log| && InOrder(log) && log[i].key == log[j].key
    requires Inserts(db, log, m, i) && Inserts(db, log, m, j)
    ensures log[i].at + m.ttl <= log[j].at
  {
    InsertsIff(db, log, m, j);
  }

  /** The genre set gains exactly the genres something was inserted into. */
  lemma {:induction false} MembersAreInserted(db: Db, log: seq<Arrival>, m: Limits, genre: string)
    ensures genre in AfterPushes(db, log, m).members
            <==> genre in db.members || InsertedItems(db, log, m, genre) != []
    decreases |log|
  {
    if log != [] {
      MembersAreInserted(db, log[..|log| - 1], m, genre);
    }
  }

  // ----- fingerprints -----

  predicate NulFree(s: string) {
    0 as char !in s
  }

  lemma NulSplits(a: string, b: string, x: string, y: string)
    requires NulFree(a) && NulFree(x) && a + [0 as char] + b == x + [0 as char] + y
    ensures a == x && b == y
  {
    var s, t := a + [0 as char] + b, x + [0 as char] + y;
    assert s[|a|] == 0 as char && t[|x|] == 0 as char;
    assert forall i :: 0 <= i < |a| ==> s[i] == a[i] && a[i] in a;
    assert forall i :: 0 <= i < |x| ==> t[i] == x[i] && x[i] in x;
    assert |a| == |x|;
    assert a == s[..|a|] && x == t[..|x|];
    assert b == s[|a| + 1..] && y == t[|x| + 1..];
  }

  predicate Identified(s: Story) {
    TrimSpace(s.storyId) != "" || TrimSpace(s.eventId) != ""
  }

  predicate SameIds(s: Story, t: Story) {
    s.genre == t.genre && TrimSpace(s.storyId) == TrimSpace(t.storyId) && TrimSpace(s.eventId) == TrimSpace(t.eventId)
  }

  /** When two stories share a basis; their marshalled texts hold no NUL. Without identifiers: if the
      texts are the same. An identified story never shares one with an unidentified story. Identified
      stories share one if genre and trimmed identifiers are the same, and if no NUL is in genre and
      story identifier only then; in general UniqueIff decides. */
  lemma BasisIdentifies(s: Story, sData: string, t: Story, tData: string)
    requires NulFree(sData) && NulFree(tData)
    ensures !Identified(s) && !Identified(t) ==> (Basis(s, sData) == Basis(t, tData) <==> sData == tData)
    ensures Identified(s) != Identified(t) ==> Basis(s, sData) != Basis(t, tData)
    ensures Identified(s) && Identified(t) && SameIds(s, t) ==> Basis(s, sData) == Basis(t, tData)
    ensures && Identified(s) && Identified(t) && Basis(s, sData) == Basis(t, tData)
            && NulFree(s.genre + TrimSpace(s.storyId)) && NulFree(t.genre + TrimSpace(t.storyId))
            ==> SameIds(s, t)
  {
    BasisForm(s, sData);
    BasisForm(t, tData);
    if && Identified(s) && Identified(t) && Basis(s, sData) == Basis(t, tData)
       && NulFree(s.genre + TrimSpace(s.storyId)) && NulFree(t.genre + TrimSpace(t.storyId)) {
      var nul := [0 as char];
      var sIds := TrimSpace(s.storyId) + nul + TrimSpace(s.eventId);
      var tIds := TrimSpace(t.storyId) + nul + TrimSpace(t.eventId);
      NulFreeParts(s.genre, TrimSpace(s.storyId));
      NulFreeParts(t.genre, TrimSpace(t.storyId));
      NulSplits(s.genre, sIds, t.genre, tIds);
      NulSplits(TrimSpace(s.storyId), TrimSpace(s.eventId), TrimSpace(t.storyId), TrimSpace(t.eventId));
    }
  }

  lemma NulFreeParts(a: string, b: string)
    requires NulFree(a + b)
    ensures NulFree(a) && NulFree(b)
  {
  }

  /** Two stories with different identifiers can share a basis: a NUL in an identifier moves its end. */
  lemma NulCollides(data: string)
    ensures var nul := [0 as char];
            var s := Story("x", "y" + nul, "", "", "g", ""); var t := Story("x" + nul + "y", "", "", "", "g", "");
            Basis(s, data) == Basis(t, data) && TrimSpace(s.storyId) != TrimSpace(t.storyId)
  {
    var nul := [0 as char];
    var s := Story("x", "y" + nul, "", "", "g", "");
    var t := Story("x" + nul + "y", "", "", "", "g", "");
    assert TrimSpace("") == "";
    TrimSpaceTrims(s.storyId);
    TrimSpaceTrims(s.eventId);
    TrimSpaceTrims(t.storyId);
    BasisForm(s, data);
    BasisForm(t, data);
    assert s.genre + nul + (s.storyId + nul + s.eventId) == t.genre + nul + (t.storyId + nul + t.eventId);
  }

  /** A story that Push fingerprints by its identifiers. */
  predicate Pushable(s: Story) {
    s.genre != "" && Normalize(s.genre) == s.genre && Identified(s)
  }

  /** Two NULs of the text cut it into a normalized genre and two trimmed identifiers, not both empty. */
  predicate Cuts(basis: string, i: nat, j: nat) {
    && i < j < |basis| && basis[i] == 0 as char && basis[j] == 0 as char
    && basis[..i] != "" && Normalize(basis[..i]) == basis[..i]
    && Trimmed(basis[i + 1..j]) && Trimmed(basis[j + 1..])
    && (basis[i + 1..j] != "" || basis[j + 1..] != "")
  }

  /** The basis of an identified story, cut at i and j. */
  predicate CutAs(basis: string, s: Story, i: nat, j: nat) {
    && i < j < |basis| && basis[..i] == s.genre
    && basis[i + 1..j] == TrimSpace(s.storyId) && basis[j + 1..] == TrimSpace(s.eventId)
  }

  lemma OwnCut(s: Story, data: string) returns (i: nat, j: nat)
    requires Pushable(s)
    ensures i == |s.genre| && j == i + 1 + |TrimSpace(s.storyId)|
    ensures Cuts(Basis(s, data), i, j) && CutAs(Basis(s, data), s, i, j)
  {
    hide Normalize, TrimSpace, Basis;
    var a, b := TrimSpace(s.storyId), TrimSpace(s.eventId);
    BasisForm(s, data);
    TrimSpaceTrims(s.storyId);
    TrimSpaceTrims(s.eventId);
    i, j := |s.genre|, |s.genre| + 1 + |a|;
    Slices(s.genre, a, b);
  }

  lemma Slices(g: string, a: string, b: string)
    ensures var nul := [0 as char]; var basis := g + nul + (a + nul + b); var i := |g|; var j := i + 1 + |a|;
            && j < |basis| && basis[i] == 0 as char && basis[j] == 0 as char
            && basis[..i] == g && basis[i + 1..j] == a && basis[j + 1..] == b
  {
    var nul := [0 as char];
    var basis := g + nul + (a + nul + b);
    assert basis[|g| + 1..] == a + nul + b;
  }

  /** Every such cut of any text belongs to a story with that basis. */
  lemma StoryOfCut(basis: string, i: nat, j: nat, data: string) returns (t: Story)
    requires Cuts(basis, i, j)
    ensures Pushable(t) && Basis(t, data) == basis && CutAs(basis, t, i, j)
  {
    hide Normalize, TrimSpace, Basis;
    var a, b := basis[i + 1..j], basis[j + 1..];
    t := Story(a, b, "", "", basis[..i], "");
    TrimSpaceTrims(a);
    TrimSpaceTrims(b);
    BasisForm(t, data);
    var nul := [0 as char];
    assert basis == basis[..i] + nul + (a + nul + b);
  }

  /** Which stories can collide: no story with other identifiers shares this one's basis if and only
      if no other pair of NULs cuts the basis into a genre and trimmed identifiers. */
  lemma UniqueIff(s: Story, data: string)
    requires Pushable(s)
    ensures (forall t: Story :: Pushable(t) && Basis(t, data) == Basis(s, data) ==> SameIds(s, t))
            <==> forall i, j :: Cuts(Basis(s, data), i, j) ==> CutAs(Basis(s, data), s, i, j)
  {
    var basis := Basis(s, data);
    if forall i, j :: Cuts(basis, i, j) ==> CutAs(basis, s, i, j) {
      forall t: Story | Pushable(t) && Basis(t, data) == basis ensures SameIds(s, t) {
        var i, j := OwnCut(t, data);
        assert Cuts(basis, i, j);
      }
    }
    if forall t: Story :: Pushable(t) && Basis(t, data) == basis ==> SameIds(s, t) {
      forall i, j | Cuts(basis, i, j) ensures CutAs(basis, s, i, j) {
        var t := StoryOfCut(basis, i, j, data);
        assert SameIds(s, t);
      }
    }
  }

  lemma BasisForm(s: Story, data: string)
    ensures var nul := [0 as char];
            var ids := TrimSpace(s.storyId) + nul + TrimSpace(s.eventId);
            Basis(s, data) == if Identified(s) then s.genre + nul + ids else data
    ensures Identified(s) ==> !NulFree(Basis(s, data))
  {
    var nul := [0 as char];
    var a, b := TrimSpace(s.storyId), TrimSpace(s.eventId);
    var basis := s.genre + nul + a + nul + b;
    assert basis == s.genre + nul + (a + nul + b);
    assert |basis| == |s.genre| + 2 + |a| + |b|;
    if a == "" && b == "" {
      assert basis == s.genre + nul + nul;
    } else {
      assert |s.genre + nul + nul| == |s.genre| + 2;
      assert basis[|s.genre|] == 0 as char;
    }
  }
}
