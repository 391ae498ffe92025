/** The Redis news store: genre queues, the dead-letter list, the genre set and the expiring
    deduplication keys, and the operations of news.Store on them. Each Redis command and each
    Lua script is one atomic step on the database. */
module NewsStore {
  import opened Common
  import opened Text

  datatype Field = StoryId | EventId | Title | Description | Genre | Sources

  /** A decoded story; the list of sources is kept as one value. */
  datatype Story = Story(
    storyId: string, eventId: string, title: string, description: string, genre: string, sources: string) {

    function Get(f: Field): string {
      match f
      case StoryId => storyId
      case EventId => eventId
      case Title => title
      case Description => description
      case Genre => genre
      case Sources => sources
    }
  }

  const EMPTY_STORY := Story("", "", "", "", "", "")

  /** The fields that decoding a text sets. */
  datatype Fields = Fields(storyId: Option<string>, eventId: Option<string>, title: Option<string>,
                           description: Option<string>, genre: Option<string>, sources: Option<string>) {

    function Get(f: Field): Option<string> {
      match f
      case StoryId => storyId
      case EventId => eventId
      case Title => title
      case Description => description
      case Genre => genre
      case Sources => sources
    }
  }

  /** A stored list element: its text, whether decoding the text succeeds, and the fields that
      decoding sets. A text of the wrong shape fails to decode but still sets the fields that fit;
      a text that is not JSON sets none. */
  datatype Item = Item(raw: string, good: bool, fields: Fields)

  function Or(value: Option<string>, otherwise: string): string {
    if value.Some? then value.value else otherwise
  }

  /** json.Unmarshal into a variable that holds a story already. */
  function Decode(story: Story, item: Item): Story {
    var f := item.fields;
    Story(Or(f.storyId, story.storyId), Or(f.eventId, story.eventId), Or(f.title, story.title),
          Or(f.description, story.description), Or(f.genre, story.genre), Or(f.sources, story.sources))
  }

  /** The story of the item's own text. */
  function Clean(item: Item): Story {
    Decode(EMPTY_STORY, item)
  }

  /** All fields of a story, as marshalling writes them. */
  function Marshalled(s: Story): Fields {
    Fields(Some(s.storyId), Some(s.eventId), Some(s.title), Some(s.description), Some(s.genre), Some(s.sources))
  }

  lemma DecodeGets(story: Story, item: Item, f: Field)
    ensures Decode(story, item).Get(f) == Or(item.fields.Get(f), story.Get(f))
  {
  }

  lemma SameStory(s: Story, t: Story)
    requires forall f: Field :: s.Get(f) == t.Get(f)
    ensures s == t
  {
    assert s.Get(StoryId) == t.Get(StoryId) && s.Get(EventId) == t.Get(EventId) && s.Get(Title) == t.Get(Title);
    assert s.Get(Description) == t.Get(Description) && s.Get(Genre) == t.Get(Genre) && s.Get(Sources) == t.Get(Sources);
  }

  const DEAD_LETTER_LIMIT := 100

  /** A missing list is an empty list; a deduplication key carries its expiry time in seconds. */
  datatype Db = Db(lists: map<string, seq<Item>>, members: set<string>, dedupe: map<string, int>, dead: seq<Item>)

  function List(db: Db, key: string): seq<Item> {
    if key in db.lists then db.lists[key] else []
  }

  function WithList(db: Db, key: string, items: seq<Item>): Db {
    db.(lists := db.lists[key := items])
  }

  /** normalizeGenre. */
  function Normalize(genre: string): string {
    ToLower(TrimSpace(genre))
  }

  lemma NormalizeIdempotent(genre: string)
    ensures Normalize(Normalize(genre)) == Normalize(genre)
  {
    TrimSpaceTrims(genre);
    LowerKeepsTrimmed(TrimSpace(genre));
    TrimSpaceTrims(Normalize(genre));
  }

  function Take<T>(s: seq<T>, n: nat): seq<T> {
    if |s| <= n then s else s[..n]
  }

  /** LTRIM key -n -1: the last n elements. */
  function Last<T>(s: seq<T>, n: nat): seq<T> {
    if |s| <= n then s else s[|s| - n..]
  }

  lemma LastOfMore<T>(s: seq<T>, x: seq<T>, n: nat)
    ensures Last(Last(s, n) + x, n) == Last(s + x, n)
  {
    if |s| > n {
      assert s + x == s[..|s| - n] + (Last(s, n) + x);
    }
  }

  // ----- Next -----

  /** One past the position of the decodable item nearest the tail; 0 if nothing decodes. */
  function GoodEnd(q: seq<Item>): (n: nat)
    ensures n <= |q|
    ensures n > 0 ==> q[n - 1].good
    ensures forall i :: n <= i < |q| ==> !q[i].good
  {
    if q == [] then 0
    else if q[|q| - 1].good then |q|
    else
      var n := GoodEnd(q[..|q| - 1]);
      assert forall i :: n <= i < |q| - 1 ==> q[i] == q[..|q| - 1][i];
      n
  }

  /** The queue after Next: the item found goes to the head, the bad items behind it are gone. */
  function NextQueue(q: seq<Item>): seq<Item> {
    var n := GoodEnd(q);
    if n == 0 then [] else [q[n - 1]] + q[..n - 1]
  }

  /** The story variable after decoding the items from the tail down to position n. */
  function Residue(q: seq<Item>, n: nat): Story
    requires n <= |q|
    decreases |q| - n
  {
    if n == |q| then EMPTY_STORY else Decode(Residue(q, n + 1), q[n])
  }

  function NextItem(q: seq<Item>): Option<Item> {
    var n := GoodEnd(q);
    if n == 0 then None else Some(q[n - 1])
  }

  /** What Next returns: the item is decoded into the variable its predecessors were decoded into. */
  function NextStory(q: seq<Item>): Option<Story> {
    var n := GoodEnd(q);
    if n == 0 then None else Some(Residue(q, n - 1))
  }

  /** Of the items from position n on, the one nearest to it that sets the field makes it nonempty. */
  ghost predicate Stale(q: seq<Item>, n: nat, f: Field) {
    exists i :: n <= i < |q| && NearestSetter(q, n, i, f) && q[i].fields.Get(f) != Some("")
  }

  ghost predicate NearestSetter(q: seq<Item>, n: nat, i: nat, f: Field)
    requires i < |q|
  {
    n <= i && q[i].fields.Get(f).Some? && forall j :: n <= j < i ==> q[j].fields.Get(f).None?
  }

  lemma {:induction false} ResidueGets(q: seq<Item>, n: nat, f: Field)
    requires n <= |q|
    ensures Residue(q, n).Get(f) != "" <==> Stale(q, n, f)
    decreases |q| - n
  {
    if n < |q| {
      ResidueGets(q, n + 1, f);
      DecodeGets(Residue(q, n + 1), q[n], f);
      if q[n].fields.Get(f).Some? {
        assert NearestSetter(q, n, n, f);
      } else {
        forall i | n < i < |q| ensures NearestSetter(q, n, i, f) <==> NearestSetter(q, n + 1, i, f) {
        }
      }
    }
  }

  /** Next returns the story of the item's own text if and only if no field that the item leaves
      unset was made nonempty by the bad items behind it, the nearest of which decides. */
  lemma NextIsCleanIff(q: seq<Item>)
    requires GoodEnd(q) > 0
    ensures var n := GoodEnd(q);
            NextStory(q) == Some(Clean(q[n - 1]))
            <==> forall f: Field :: q[n - 1].fields.Get(f).None? ==> !Stale(q, n, f)
  {
    var n := GoodEnd(q);
    var item, story := q[n - 1], Residue(q, n - 1);
    assert story == Decode(Residue(q, n), item);
    forall f: Field
      ensures story.Get(f) == Or(item.fields.Get(f), Residue(q, n).Get(f))
      ensures Clean(item).Get(f) == Or(item.fields.Get(f), "")
      ensures Residue(q, n).Get(f) != "" <==> Stale(q, n, f)
    {
      DecodeGets(Residue(q, n), item, f);
      DecodeGets(EMPTY_STORY, item, f);
      EmptyGets(f);
      ResidueGets(q, n, f);
    }
    if forall f: Field :: story.Get(f) == Clean(item).Get(f) {
      SameStory(story, Clean(item));
    }
  }

  lemma EmptyGets(f: Field)
    ensures EMPTY_STORY.Get(f) == ""
  {
  }

  /** The input on which it does not: a story without a title behind which lies a text that sets
      one and then fails to decode is returned with that title. */
  lemma TitleIsStale(good: Item, bad: Item, title: string)
    requires good.good && good.fields.title.None? && !bad.good && bad.fields.title == Some(title)
    ensures NextStory([good, bad]).Some? && NextStory([good, bad]).value.title == title
  {
    var q := [good, bad];
    assert GoodEnd(q) == 1 by {
      assert q[..1] == [good];
    }
    assert Residue(q, 2) == EMPTY_STORY;
    assert Residue(q, 1) == Decode(EMPTY_STORY, bad);
  }

  /** The bad items join the head of the dead-letter list, which keeps its newest hundred. */
  function NextDead(q: seq<Item>, dead: seq<Item>): seq<Item> {
    var n := GoodEnd(q);
    if n == |q| then dead else Take(q[n..] + dead, DEAD_LETTER_LIMIT)
  }

  /** The dead letters after the last items of the queue joined them one by one. */
  function DeadAfter(q: seq<Item>, attempt: nat, before: seq<Item>): seq<Item>
    requires attempt <= |q|
  {
    if attempt == 0 then before else Take(q[|q| - attempt..] + before, DEAD_LETTER_LIMIT)
  }

  ghost predicate SameElsewhere(db: Db, db': Db, key: string) {
    && db'.members == db.members && db'.dedupe == db.dedupe
    && forall other :: other != key ==> List(db', other) == List(db, other)
  }

  /** What one attempt does: the item at the tail is moved to the head and decoded; a bad one goes
      on to the dead-letter list. */
  ghost predicate Attempted(db: Db, db': Db, key: string) {
    var q := List(db, key);
    && q != [] && SameElsewhere(db, db', key)
    && var item := q[|q| - 1];
       && List(db', key) == (if item.good then [item] else []) + q[..|q| - 1]
       && db'.dead == (if item.good then db.dead else Take([item] + db.dead, DEAD_LETTER_LIMIT))
  }

  /** After that many failed attempts. */
  ghost predicate Failed(db: Db, db': Db, key: string, attempt: nat, decoded: Story) {
    var q := List(db, key);
    && attempt <= |q| - GoodEnd(q) && SameElsewhere(db, db', key)
    && List(db', key) == q[..|q| - attempt]
    && decoded == Residue(q, |q| - attempt)
    && db'.dead == DeadAfter(q, attempt, db.dead)
  }

  lemma DeadStep(q: seq<Item>, attempt: nat, before: seq<Item>)
    requires attempt < |q|
    ensures Take([q[|q| - attempt - 1]] + DeadAfter(q, attempt, before), DEAD_LETTER_LIMIT)
            == DeadAfter(q, attempt + 1, before)
  {
    var item := q[|q| - attempt - 1];
    assert q[|q| - attempt - 1..] == [item] + q[|q| - attempt..];
    assert q[|q| - 0..] + before == before;
    assert [item] + (q[|q| - attempt..] + before) == q[|q| - attempt - 1..] + before;
  }

  lemma TailOfRest(q: seq<Item>, attempt: nat)
    requires attempt < |q|
    ensures var rest := q[..|q| - attempt];
            rest != [] && rest[|rest| - 1] == q[|q| - attempt - 1] && rest[..|rest| - 1] == q[..|q| - attempt - 1]
  {
  }

  /** A further attempt fails too, or ends the search as Next promises. */
  lemma AttemptFails(db: Db, db1: Db, db2: Db, key: string, attempt: nat, decoded: Story)
    requires Failed(db, db1, key, attempt, decoded) && attempt < |List(db, key)| && Attempted(db1, db2, key)
    requires var q := List(db, key); !q[|q| - attempt - 1].good
    ensures var q := List(db, key); Failed(db, db2, key, attempt + 1, Decode(decoded, q[|q| - attempt - 1]))
  {
    var q := List(db, key);
    TailOfRest(q, attempt);
    DeadStep(q, attempt, db.dead);
    assert List(db2, key) == q[..|q| - attempt - 1];
  }

  lemma AttemptSucceeds(db: Db, db1: Db, db2: Db, key: string, attempt: nat, decoded: Story)
    requires Failed(db, db1, key, attempt, decoded) && attempt < |List(db, key)| && Attempted(db1, db2, key)
    requires var q := List(db, key); q[|q| - attempt - 1].good
    ensures var q := List(db, key);
            && Some(Decode(decoded, q[|q| - attempt - 1])) == NextStory(q) && List(db2, key) == NextQueue(q)
            && db2.dead == NextDead(q, db.dead) && SameElsewhere(db, db2, key)
  {
    var q := List(db, key);
    TailOfRest(q, attempt);
    assert GoodEnd(q) == |q| - attempt;
  }

  lemma AllFailed(db: Db, db': Db, key: string, decoded: Story)
    requires Failed(db, db', key, |List(db, key)|, decoded)
    ensures var q := List(db, key);
            NextStory(q) == None && List(db', key) == NextQueue(q) && db'.dead == NextDead(q, db.dead)
  {
    var q := List(db, key);
    assert q[0..] == q && q[..0] == [];
  }

  // ----- Push -----

  datatype Pushed = Rejected(reason: string) | Duplicate | Inserted

  /** The text a fingerprint is the hash of; `data` is the marshalled story. */
  function Basis(story: Story, data: string): string {
    var nul := [0 as char];
    var basis := story.genre + nul + TrimSpace(story.storyId) + nul + TrimSpace(story.eventId);
    if basis == story.genre + nul + nul then data else basis
  }

  predicate Alive(db: Db, key: string, now: int) {
    key in db.dedupe && now < db.dedupe[key]
  }

  /** pushScript on a database at time `now`. */
  function PushScript(db: Db, genre: string, key: string, item: Item, maxStories: nat, ttl: nat, now: int): Db {
    if Alive(db, key, now) then db
    else
      var db1 := db.(dedupe := db.dedupe[key := now + ttl]);
      WithList(db1, genre, Last(List(db, genre) + [item], maxStories)).(members := db.members + {genre})
  }

  // ----- Genres -----

  /** migrateGenreScript: the items of a spelling move to the end of the normalized queue. */
  function Migrate(db: Db, stored: string, genre: string, maxStories: nat): Db {
    var items := List(db, genre) + List(db, stored);
    var db1 := WithList(WithList(db, stored, []), genre, items).(members := db.members - {stored});
    if items == [] then db1
    else WithList(db1, genre, Last(items, maxStories)).(members := db1.members + {genre})
  }

  /** What Genres does with one member of the set. */
  function Visit(db: Db, stored: string, maxStories: nat): Db {
    var genre := Normalize(stored);
    if genre == "" then db.(members := db.members - {stored})
    else
      var db1 := if genre != stored then Migrate(db, stored, genre, maxStories) else db;
      if List(db1, genre) == [] then db1.(members := db1.members - {genre}) else db1
  }

  function VisitAll(db: Db, order: seq<string>, maxStories: nat): Db {
    if order == [] then db
    else Visit(VisitAll(db, order[..|order| - 1], maxStories), order[|order| - 1], maxStories)
  }

  /** The genres found active while visiting, in the order of their first appearance. */
  function Active(db: Db, order: seq<string>, maxStories: nat): seq<string> {
    if order == [] then []
    else
      var before := Active(db, order[..|order| - 1], maxStories);
      var genre := Normalize(order[|order| - 1]);
      if genre != "" && List(VisitAll(db, order, maxStories), genre) != [] && genre !in before
      then before + [genre] else before
  }

  // ----- the code -----

  const NANOSECONDS := 1000000000

  class Store {
    const maxStories: nat
    const ttl: int
    var lists: map<string, seq<Item>>
    var members: set<string>
    var dedupe: map<string, int>
    var dead: seq<Item>

    /** NewStoreWithOptions on an existing database; the TTL is given in nanoseconds. */
    constructor (db: Db, maxStories: int, deduplicationTTL: int)
      ensures View() == db && this.maxStories > 0
      ensures this.maxStories == if maxStories > 0 then maxStories else 100
      ensures ttl == if deduplicationTTL > 0 then deduplicationTTL / NANOSECONDS else 86400
      ensures ttl >= 0
    {
      this.maxStories := if maxStories > 0 then maxStories else 100;
      ttl := (if deduplicationTTL > 0 then deduplicationTTL else 24 * 3600 * NANOSECONDS) / NANOSECONDS;
      lists, members, dedupe, dead := db.lists, db.members, db.dedupe, db.dead;
    }

    function View(): Db
      reads this
    {
      Db(lists, members, dedupe, dead)
    }

    method LLen(key: string) returns (n: nat)
      ensures n == |List(View(), key)|
    {
      n := if key in lists then |lists[key]| else 0;
    }

    /** LMOVE key key RIGHT LEFT. */
    method LMove(key: string) returns (item: Option<Item>)
      modifies this`lists
      ensures var q := List(old(View()), key);
              if q == [] then item == None && View() == old(View())
              else item == Some(q[|q| - 1]) && View() == WithList(old(View()), key, [q[|q| - 1]] + q[..|q| - 1])
    {
      if key !in lists || lists[key] == [] {
        return None;
      }
      var q := lists[key];
      item := Some(q[|q| - 1]);
      lists := lists[key := [q[|q| - 1]] + q[..|q| - 1]];
    }

    /** The transaction LREM key 1 item; LPUSH dead item; LTRIM dead 0 99, for the item at the head. */
    method Quarantine(key: string, item: Item)
      requires key in lists && lists[key] != [] && lists[key][0] == item
      modifies this`lists, this`dead
      ensures View() == WithList(old(View()), key, List(old(View()), key)[1..])
                        .(dead := Take([item] + old(dead), DEAD_LETTER_LIMIT))
    {
      lists := lists[key := lists[key][1..]];
      dead := Take([item] + dead, DEAD_LETTER_LIMIT);
    }

    method Attempt(key: string, decoded: Story) returns (good: bool, decoded': Story)
      requires List(View(), key) != []
      modifies this`lists, this`dead
      ensures Attempted(old(View()), View(), key)
      ensures var q := old(List(View(), key)); good == q[|q| - 1].good && decoded' == Decode(decoded, q[|q| - 1])
    {
      var moved := LMove(key);
      var item := moved.value;
      good, decoded' := item.good, Decode(decoded, item);
      if !good {
        Quarantine(key, item);
      }
    }

    /** Next finds the decodable item nearest the tail, moves it to the head, moves exactly the
        bad items behind it to the dead-letter list, and returns what decoding all of them into
        one variable leaves there. */
    method Next(genre: string) returns (story: Option<Story>)
      modifies this`lists, this`dead
      ensures var key := Normalize(genre); var q := old(List(View(), key));
              && story == NextStory(q)
              && List(View(), key) == NextQueue(q)
              && dead == NextDead(q, old(dead))
              && (forall other :: other != key ==> List(View(), other) == old(List(View(), other)))
    {
      var key := Normalize(genre);
      ghost var db := View();
      ghost var q := List(db, key);
      var maxAttempts := LLen(key);
      var decoded := EMPTY_STORY;
      var attempt := 0;
      while attempt < maxAttempts
        invariant 0 <= attempt <= maxAttempts
        invariant Failed(db, View(), key, attempt, decoded)
        decreases maxAttempts - attempt
      {
        ghost var db1, before := View(), decoded;
        var good;
        good, decoded := Attempt(key, decoded);
        TailOfRest(q, attempt);
        if good {
          AttemptSucceeds(db, db1, View(), key, attempt, before);
          return Some(decoded);
        }
        AttemptFails(db, db1, View(), key, attempt, before);
        attempt := attempt + 1;
      }
      AllFailed(db, View(), key, decoded);
      return None;
    }

    /** Push at time `now`; `data` is the marshalled story with its genre normalized. */
    method Push(genre: string, story: Story, data: string, now: int) returns (result: Pushed)
      requires ttl >= 0
      modifies this`lists, this`members, this`dedupe
      ensures var g := Normalize(genre); var s := story.(genre := g); var key := Basis(s, data);
              if g == "" || ttl == 0 then result.Rejected? && View() == old(View())
              else
                && View() == PushScript(old(View()), g, key, Item(data, true, Marshalled(s)), maxStories, ttl, now)
                && result == (if old(Alive(View(), key, now)) then Duplicate else Inserted)
    {
      var g := Normalize(genre);
      if g == "" {
        return Rejected("push: genre is required");
      }
      if ttl == 0 {
        return Rejected("ERR invalid expire time in 'set' command");
      }
      var s := story.(genre := g);
      var key := Basis(s, data);
      if key in dedupe && now < dedupe[key] {
        return Duplicate;
      }
      dedupe := dedupe[key := now + ttl];
      var queue := if g in lists then lists[g] else [];
      lists := lists[g := Last(queue + [Item(data, true, Marshalled(s))], maxStories)];
      members := members + {g};
      return Inserted;
    }

    method RunMigrate(stored: string, genre: string)
      requires stored != genre
      modifies this`lists, this`members
      ensures View() == Migrate(old(View()), stored, genre, maxStories)
    {
      var items := if stored in lists then lists[stored] else [];
      var queue := if genre in lists then lists[genre] else [];
      lists := lists[stored := []];
      lists := lists[genre := queue + items];
      members := members - {stored};
      if |lists[genre]| > 0 {
        lists := lists[genre := Last(lists[genre], maxStories)];
        members := members + {genre};
      }
    }

    /** Genres; `order` is the order in which SMEMBERS lists the set. */
    method Genres(order: seq<string>) returns (active: seq<string>)
      modifies this`lists, this`members
      ensures View() == VisitAll(old(View()), order, maxStories)
      ensures Ascending(active) && Elements(active) == Elements(Active(old(View()), order, maxStories))
    {
      var found := [];
      ghost var db := View();
      for i := 0 to |order|
        invariant View() == VisitAll(db, order[..i], maxStories)
        invariant found == Active(db, order[..i], maxStories)
      {
        assert order[..i + 1][..i] == order[..i];
        var stored := order[i];
        var genre := Normalize(stored);
        if genre == "" {
          members := members - {stored};
          continue;
        }
        if genre != stored {
          RunMigrate(stored, genre);
        }
        var n := LLen(genre);
        if n == 0 {
          members := members - {genre};
        } else if genre !in found {
          found := found + [genre];
        }
      }
      assert order[..|order|] == order;
      active := Sort(found);
    }
  }
}
