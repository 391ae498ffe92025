/** What Genres leaves in the database and returns, whatever the order of the set's members. */
module GenreSet {
  import opened Text
  import opened NewsStore

  predicate VisitsSpelling(order: seq<string>, genre: string) {
    exists i :: 0 <= i < |order| && Normalize(order[i]) == genre
  }

  /** Something is stored under the genre or under one of the spellings visited. */
  predicate Stocked(db: Db, order: seq<string>, genre: string) {
    List(db, genre) != [] || exists i :: 0 <= i < |order| && Normalize(order[i]) == genre && List(db, order[i]) != []
  }

  /** The queue of a genre with those of its other spellings appended in the order of visits. */
  function Collected(db: Db, order: seq<string>, genre: string): seq<Item> {
    if order == [] then List(db, genre)
    else
      var stored := order[|order| - 1];
      Collected(db, order[..|order| - 1], genre)
      + if Normalize(stored) == genre && stored != genre then List(db, stored) else []
  }

  /** Some visit merged another spelling into the genre. */
  predicate Merges(order: seq<string>, genre: string) {
    exists i :: 0 <= i < |order| && Normalize(order[i]) == genre && order[i] != genre
  }

  predicate NoRepeats(order: seq<string>) {
    forall i, j :: 0 <= i < j < |order| ==> order[i] != order[j]
  }

  /** The genre is one that normalizing leaves alone. */
  predicate Canonical(s: string) {
    Normalize(s) == s
  }

  /** The queues after a visit: a merge empties the spelling and appends to the genre, any other
      visit leaves every queue alone. */
  lemma VisitLists(db: Db, stored: string, maxStories: nat, key: string)
    requires maxStories > 0
    ensures var genre := Normalize(stored);
            List(Visit(db, stored, maxStories), key) ==
              if genre == "" || genre == stored then List(db, key)
              else if key == genre then Last(List(db, genre) + List(db, stored), maxStories)
              else if key == stored then [] else List(db, key)
  {
  }

  /** Spellings: a visited one is empty afterwards (blank ones are not touched), others keep
      what they had. */
  lemma {:induction false} SpellingsAfter(db: Db, order: seq<string>, maxStories: nat, key: string)
    requires maxStories > 0 && NoRepeats(order) && (key == "" || !Canonical(key))
    ensures List(VisitAll(db, order, maxStories), key)
            == if key in order && Normalize(key) != "" then [] else List(db, key)
    decreases |order|
  {
    if order != [] {
      var n := |order| - 1;
      var front := order[..n];
      var stored := order[n];
      SpellingsAfter(db, front, maxStories, key);
      VisitLists(VisitAll(db, front, maxStories), stored, maxStories, key);
      NormalizeIdempotent(stored);
      assert key in order <==> key in front || key == stored;
    }
  }

  /** Genres: the queue keeps the last maxStories of everything merged into it, or is untouched
      if nothing was. */
  lemma {:induction false} QueuesAfter(db: Db, order: seq<string>, maxStories: nat, genre: string)
    requires maxStories > 0 && NoRepeats(order) && genre != "" && Canonical(genre)
    ensures List(VisitAll(db, order, maxStories), genre)
            == if Merges(order, genre) then Last(Collected(db, order, genre), maxStories) else List(db, genre)
    decreases |order|
  {
    if order != [] {
      var n := |order| - 1;
      var front := order[..n];
      var stored := order[n];
      var before := VisitAll(db, front, maxStories);
      QueuesAfter(db, front, maxStories, genre);
      VisitLists(before, stored, maxStories, genre);
      MergesStep(order, genre);
      if Normalize(stored) == genre && stored != genre {
        assert stored !in front;
        SpellingsAfter(db, front, maxStories, stored);
        MergeOne(db, front, maxStories, genre, List(db, stored));
      } else {
        assert Collected(db, front, genre) + [] == Collected(db, front, genre);
      }
    }
  }

  lemma MergeOne(db: Db, front: seq<string>, maxStories: nat, genre: string, items: seq<Item>)
    ensures var collected := Collected(db, front, genre);
            var before := if Merges(front, genre) then Last(collected, maxStories) else List(db, genre);
            Last(before + items, maxStories) == Last(collected + items, maxStories)
  {
    if Merges(front, genre) {
      LastOfMore(Collected(db, front, genre), items, maxStories);
    } else {
      CollectedUnmerged(db, front, genre);
    }
  }

  lemma MergesStep(order: seq<string>, key: string)
    requires order != []
    ensures Merges(order, key) <==>
              Merges(order[..|order| - 1], key)
              || (Normalize(order[|order| - 1]) == key && order[|order| - 1] != key)
  {
    var front := order[..|order| - 1];
    if Merges(front, key) {
      var i :| 0 <= i < |front| && Normalize(front[i]) == key && front[i] != key;
      assert order[i] == front[i];
    }
    if Merges(order, key) {
      var i :| 0 <= i < |order| && Normalize(order[i]) == key && order[i] != key;
      if i < |front| {
        assert front[i] == order[i];
      }
    }
  }

  lemma {:induction false} CollectedUnmerged(db: Db, order: seq<string>, genre: string)
    requires !Merges(order, genre)
    ensures Collected(db, order, genre) == List(db, genre)
    decreases |order|
  {
    if order != [] {
      MergesStep(order, genre);
      CollectedUnmerged(db, order[..|order| - 1], genre);
    }
  }

  lemma {:induction false} CollectedStocked(db: Db, order: seq<string>, genre: string)
    ensures Collected(db, order, genre) != [] <==> Stocked(db, order, genre)
    decreases |order|
  {
    hide List;
    if order != [] {
      var front := order[..|order| - 1];
      CollectedStocked(db, front, genre);
      if Stocked(db, front, genre) && List(db, genre) == [] {
        var i :| 0 <= i < |front| && Normalize(front[i]) == genre && List(db, front[i]) != [];
        assert order[i] == front[i];
      }
      if Stocked(db, order, genre) && List(db, genre) == [] {
        var i :| 0 <= i < |order| && Normalize(order[i]) == genre && List(db, order[i]) != [];
        if i < |front| {
          assert front[i] == order[i];
        }
      }
    }
  }

  /** A genre's queue is nonempty after the visits exactly if it was stocked. */
  lemma NonemptyIffStocked(db: Db, order: seq<string>, maxStories: nat, genre: string)
    requires maxStories > 0 && NoRepeats(order) && genre != "" && Canonical(genre)
    ensures List(VisitAll(db, order, maxStories), genre) != [] <==> Stocked(db, order, genre)
  {
    QueuesAfter(db, order, maxStories, genre);
    CollectedStocked(db, order, genre);
    if !Merges(order, genre) {
      CollectedUnmerged(db, order, genre);
    }
  }

  /** A genre that was visited under some spelling and is stocked. */
  predicate Available(db: Db, order: seq<string>, genre: string) {
    genre != "" && VisitsSpelling(order, genre) && Stocked(db, order, genre)
  }

  lemma AvailableStep(db: Db, order: seq<string>, genre: string)
    requires order != []
    ensures VisitsSpelling(order, genre) <==>
              VisitsSpelling(order[..|order| - 1], genre) || Normalize(order[|order| - 1]) == genre
    ensures Stocked(db, order, genre) <==>
              Stocked(db, order[..|order| - 1], genre)
              || (Normalize(order[|order| - 1]) == genre && List(db, order[|order| - 1]) != [])
  {
    var front := order[..|order| - 1];
    forall i | 0 <= i < |front| ensures order[i] == front[i] {
    }
    if VisitsSpelling(front, genre) {
      var i :| 0 <= i < |front| && Normalize(front[i]) == genre;
      assert Normalize(order[i]) == genre;
    }
    if Stocked(db, front, genre) && List(db, genre) == [] {
      var i :| 0 <= i < |front| && Normalize(front[i]) == genre && List(db, front[i]) != [];
      assert Normalize(order[i]) == genre;
    }
  }

  /** The genres found active are the available ones, each found once. */
  lemma {:induction false} ActiveIsAvailable(db: Db, order: seq<string>, maxStories: nat)
    requires maxStories > 0 && NoRepeats(order)
    ensures forall g :: g in Active(db, order, maxStories) <==> Available(db, order, g)
    decreases |order|
  {
    if order != [] {
      var front := order[..|order| - 1];
      var stored := order[|order| - 1];
      ActiveIsAvailable(db, front, maxStories);
      forall g ensures g in Active(db, order, maxStories) <==> Available(db, order, g) {
        AvailableStep(db, order, g);
        if g == Normalize(stored) && g != "" {
          NormalizeIdempotent(stored);
          NonemptyIffStocked(db, order, maxStories, g);
        }
      }
    }
  }

  lemma AvailableIsCanonical(db: Db, order: seq<string>, genre: string)
    requires Available(db, order, genre)
    ensures Canonical(genre)
  {
    var i :| 0 <= i < |order| && Normalize(order[i]) == genre;
    NormalizeIdempotent(order[i]);
  }

  /** A stocked genre that was in the set from the beginning is never removed, and an available
      one is in the set at the end. */
  lemma {:induction false} AvailableStay(db: Db, order: seq<string>, maxStories: nat, genre: string)
    requires maxStories > 0 && NoRepeats(order) && genre != "" && Canonical(genre)
    requires forall i :: 0 <= i < |order| ==> order[i] in db.members
    requires Stocked(db, order, genre) && (genre in db.members || VisitsSpelling(order, genre))
    ensures genre in VisitAll(db, order, maxStories).members
    decreases |order|
  {
    if order != [] {
      var front := order[..|order| - 1];
      var stored := order[|order| - 1];
      AvailableStep(db, order, genre);
      if Normalize(stored) == genre {
        NonemptyIffStocked(db, order, maxStories, genre);
        VisitMembers(VisitAll(db, front, maxStories), stored, maxStories);
        if stored == genre {
          AvailableStay(db, front, maxStories, genre);
        }
      } else {
        AvailableStay(db, front, maxStories, genre);
        NormalizeIdempotent(stored);
        VisitSpares(VisitAll(db, front, maxStories), stored, maxStories, genre);
      }
    }
  }

  lemma VisitSpares(db: Db, stored: string, maxStories: nat, genre: string)
    requires genre != "" && Canonical(genre) && Normalize(stored) != genre && genre in db.members
    ensures genre in Visit(db, stored, maxStories).members
  {
  }

  /** Nothing else stays or comes: a member at the end is available or was not visited. */
  lemma {:induction false} OthersGo(db: Db, order: seq<string>, maxStories: nat, member: string)
    requires maxStories > 0 && NoRepeats(order) && member in VisitAll(db, order, maxStories).members
    ensures Available(db, order, member) || (member in db.members && member !in order)
    decreases |order|
  {
    if order != [] {
      var front := order[..|order| - 1];
      var stored := order[|order| - 1];
      var genre := Normalize(stored);
      NormalizeIdempotent(stored);
      AvailableStep(db, order, member);
      assert member in order <==> member in front || member == stored;
      if genre != "" {
        VisitMembers(VisitAll(db, front, maxStories), stored, maxStories);
        NonemptyIffStocked(db, order, maxStories, genre);
      }
      if member != genre || genre == "" {
        OthersGo(db, front, maxStories, member);
      }
    }
  }

  lemma VisitMembers(db: Db, stored: string, maxStories: nat)
    requires maxStories > 0 && Normalize(stored) != ""
    ensures var genre := Normalize(stored);
            var after := Visit(db, stored, maxStories);
            after.members == if List(after, genre) == [] then db.members - {stored, genre}
                             else if genre != stored then db.members - {stored} + {genre} else db.members
  {
  }

  /** A list of all members, as SMEMBERS returns it. */
  ghost predicate Enumerates(order: seq<string>, members: set<string>) {
    NoRepeats(order) && Elements(order) == members
  }

  /** Run alone, Genres leaves in the set exactly the genres it returns: the normalized ones with
      a story under any spelling. */
  lemma SetIsResult(db: Db, order: seq<string>, maxStories: nat)
    requires maxStories > 0 && Enumerates(order, db.members)
    ensures VisitAll(db, order, maxStories).members == Elements(Active(db, order, maxStories))
    ensures forall g :: g in Elements(Active(db, order, maxStories)) <==> Available(db, order, g)
  {
    ActiveIsAvailable(db, order, maxStories);
    forall i | 0 <= i < |order| ensures order[i] in db.members {
      assert order[i] in Elements(order);
    }
    forall g ensures g in VisitAll(db, order, maxStories).members <==> g in Elements(Active(db, order, maxStories)) {
      if Available(db, order, g) {
        AvailableIsCanonical(db, order, g);
        AvailableStay(db, order, maxStories, g);
      }
      if g in VisitAll(db, order, maxStories).members {
        OthersGo(db, order, maxStories, g);
        assert g in db.members ==> g in Elements(order);
      }
    }
  }

  lemma AvailableIgnoresOrder(db: Db, a: seq<string>, b: seq<string>, g: string)
    requires Elements(a) == Elements(b) && Available(db, a, g)
    ensures Available(db, b, g)
  {
    var i :| 0 <= i < |a| && Normalize(a[i]) == g;
    assert a[i] in Elements(b);
    var j :| 0 <= j < |b| && b[j] == a[i];
    assert Normalize(b[j]) == g;
    if List(db, g) == [] {
      var k :| 0 <= k < |a| && Normalize(a[k]) == g && List(db, a[k]) != [];
      assert a[k] in Elements(b);
      var l :| 0 <= l < |b| && b[l] == a[k];
      assert List(db, b[l]) != [];
    }
  }

  /** The result of Genres and the set it leaves do not depend on the order in which the members
      are listed. */
  lemma OrderIrrelevant(db: Db, a: seq<string>, b: seq<string>, maxStories: nat, ra: seq<string>, rb: seq<string>)
    requires maxStories > 0 && Enumerates(a, db.members) && Enumerates(b, db.members)
    requires Ascending(ra) && Elements(ra) == Elements(Active(db, a, maxStories))
    requires Ascending(rb) && Elements(rb) == Elements(Active(db, b, maxStories))
    ensures ra == rb
    ensures VisitAll(db, a, maxStories).members == VisitAll(db, b, maxStories).members
  {
    SetIsResult(db, a, maxStories);
    SetIsResult(db, b, maxStories);
    forall g ensures g in Elements(Active(db, a, maxStories)) <==> g in Elements(Active(db, b, maxStories)) {
      if Available(db, a, g) {
        AvailableIgnoresOrder(db, a, b, g);
      }
      if Available(db, b, g) {
        AvailableIgnoresOrder(db, b, a, g);
      }
    }
    assert Elements(Active(db, a, maxStories)) == Elements(Active(db, b, maxStories));
    AscendingUnique(ra, rb);
  }

  /** Genres is not atomic: if a push falls between its LLEN of an empty queue and its SREM, the
      new story's genre is dropped from the set, and no later run of Genres alone returns it. */
  lemma PushBetweenHidesGenre(db: Db, genre: string, key: string, item: Item, maxStories: nat, ttl: nat, now: int,
                              order: seq<string>)
    requires maxStories > 0 && genre != "" && Canonical(genre)
    requires List(db, genre) == [] && !Alive(db, key, now)
    requires var hidden := PushScript(db, genre, key, item, maxStories, ttl, now);
             Enumerates(order, hidden.members - {genre}) && !VisitsSpelling(order, genre)
    ensures var pushed := PushScript(db, genre, key, item, maxStories, ttl, now);
            var hidden := pushed.(members := pushed.members - {genre});
            && List(hidden, genre) == [item]
            && genre !in Elements(Active(hidden, order, maxStories))
            && genre !in VisitAll(hidden, order, maxStories).members
  {
    var pushed := PushScript(db, genre, key, item, maxStories, ttl, now);
    var hidden := pushed.(members := pushed.members - {genre});
    assert [] + [item] == [item];
    SetIsResult(hidden, order, maxStories);
  }

  /** With such a push the genre set still knows every stocked genre exactly if the push was a
      duplicate. */
  lemma PushBetweenIff(db: Db, genre: string, key: string, item: Item, maxStories: nat, ttl: nat, now: int)
    requires maxStories > 0 && List(db, genre) == []
    requires forall g :: List(db, g) != [] ==> g in db.members
    ensures var pushed := PushScript(db, genre, key, item, maxStories, ttl, now);
            var after := pushed.(members := pushed.members - {genre});
            (forall g :: List(after, g) != [] ==> g in after.members) <==> Alive(db, key, now)
  {
    var pushed := PushScript(db, genre, key, item, maxStories, ttl, now);
    var after := pushed.(members := pushed.members - {genre});
    if Alive(db, key, now) {
      assert forall g :: List(after, g) == List(db, g);
    } else {
      assert [] + [item] == [item];
      assert List(after, genre) == [item];
    }
  }
}
