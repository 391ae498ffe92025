/** The cache of prepared story images: a map, an order of keys and a byte counter that
    together behave as a least-recently-used cache with two budgets. */
module PreparedImages {
  import opened Common

  newtype byte = x: int | 0 <= x < 256

  type Image = seq<byte>

  const MAX_IMAGES := 128
  const MAX_BYTES := 67108864

  // ----- the abstract cache -----

  datatype Entry = Entry(key: string, image: Image)

  /** The cached images, least recently used first. */
  type Cache = seq<Entry>

  predicate Has(c: Cache, key: string) {
    exists i :: 0 <= i < |c| && c[i].key == key
  }

  function Bytes(c: Cache): nat {
    if c == [] then 0 else Bytes(c[..|c| - 1]) + |c[|c| - 1].image|
  }

  predicate NoDuplicates(c: Cache) {
    forall i, j :: 0 <= i < j < |c| ==> c[i].key != c[j].key
  }

  predicate WellFormed(c: Cache) {
    NoDuplicates(c) && |c| <= MAX_IMAGES && Bytes(c) <= MAX_BYTES
  }

  /** There is room for one more image without exceeding either budget. */
  predicate Fits(c: Cache, image: Image) {
    |c| < MAX_IMAGES && Bytes(c) + |image| <= MAX_BYTES
  }

  function Position(c: Cache, key: string): (i: nat)
    requires Has(c, key)
    ensures i < |c| && c[i].key == key && forall j :: 0 <= j < i ==> c[j].key != key
  {
    if c[0].key == key then 0
    else
      assert exists i :: 0 <= i < |c[1..]| && c[1..][i].key == key by {
        var i :| 0 <= i < |c| && c[i].key == key;
        assert c[1..][i - 1].key == key;
      }
      var p := Position(c[1..], key);
      assert forall j :: 0 < j < p + 1 ==> c[j].key != key by {
        forall j | 0 < j < p + 1 ensures c[j].key != key {
          assert c[j] == c[1..][j - 1];
        }
      }
      p + 1
  }

  /** The element at i goes to the end. */
  function Moved<T>(s: seq<T>, i: nat): seq<T>
    requires i < |s|
  {
    s[..i] + s[i + 1..] + [s[i]]
  }

  function Touched(c: Cache, key: string): Cache {
    if !Has(c, key) then c else Moved(c, Position(c, key))
  }

  function Looked(c: Cache, key: string): Option<Image> {
    if Has(c, key) then Some(c[Position(c, key)].image) else None
  }

  function Evicted(c: Cache, image: Image): Cache {
    if c == [] || Fits(c, image) then c else Evicted(c[1..], image)
  }

  function Added(c: Cache, key: string, image: Image): Cache {
    if Has(c, key) || |image| > MAX_BYTES then c else Evicted(c, image) + [Entry(key, image)]
  }

  // ----- what it keeps -----

  lemma {:induction false} BytesSplit(a: Cache, b: Cache)
    ensures Bytes(a + b) == Bytes(a) + Bytes(b)
    decreases |b|
  {
    if b == [] {
      assert a + b == a;
    } else {
      assert (a + b)[..|a + b| - 1] == a + b[..|b| - 1];
      BytesSplit(a, b[..|b| - 1]);
    }
  }

  lemma BytesDropFirst(c: Cache)
    requires c != []
    ensures Bytes(c) == |c[0].image| + Bytes(c[1..])
  {
    assert c == [c[0]] + c[1..];
    BytesSplit([c[0]], c[1..]);
    assert [c[0]][..0] == [];
    assert Bytes([]) == 0;
  }

  /** Eviction removes the shortest prefix of least recently used images that makes room. */
  lemma {:induction false} EvictsShortestPrefix(c: Cache, image: Image) returns (k: nat)
    requires |image| <= MAX_BYTES
    ensures k <= |c| && Evicted(c, image) == c[k..]
    ensures Fits(c[k..], image)
    ensures forall j :: 0 <= j < k ==> !Fits(c[j..], image)
    decreases |c|
  {
    if c == [] || Fits(c, image) {
      k := 0;
      assert c[0..] == c;
    } else {
      var m := EvictsShortestPrefix(c[1..], image);
      k := m + 1;
      assert c[1..][m..] == c[k..];
      forall j | 0 <= j < k ensures !Fits(c[j..], image) {
        if j > 0 {
          assert c[1..][j - 1..] == c[j..];
        } else {
          assert c[0..] == c;
        }
      }
    }
  }

  /** An image loses its place exactly if it and everything used after it leave no room. */
  lemma EvictedIff(c: Cache, p: nat, key: string, image: Image)
    requires WellFormed(c) && p < |c| && !Has(c, key) && |image| <= MAX_BYTES
    ensures Has(Added(c, key, image), c[p].key) <==> Fits(c[p..], image)
  {
    hide Bytes;
    var k := EvictsShortestPrefix(c, image);
    var c' := Added(c, key, image);
    if k <= p {
      assert c'[p - k] == c[p];
      FitsMonotone(c[k..], p - k, image);
      assert c[k..][p - k..] == c[p..];
    } else {
      assert !Fits(c[p..], image);
      forall i | 0 <= i < |c'| ensures c'[i].key != c[p].key {
        if i < |c| - k {
          assert c'[i] == c[k + i];
        }
      }
    }
  }

  lemma FitsMonotone(c: Cache, j: nat, image: Image)
    requires j <= |c| && Fits(c, image)
    ensures Fits(c[j..], image)
  {
    assert c == c[..j] + c[j..];
    BytesSplit(c[..j], c[j..]);
  }

  /** Adding keeps both budgets and the absence of duplicates; the new image is the most
      recent one, and what was cached before is kept or cut off at the old end only. */
  lemma AddKeeps(c: Cache, key: string, image: Image)
    requires WellFormed(c)
    ensures WellFormed(Added(c, key, image))
    ensures !Has(c, key) && |image| <= MAX_BYTES ==>
              var c' := Added(c, key, image);
              c' != [] && c'[|c'| - 1] == Entry(key, image) && exists k :: 0 <= k <= |c| && c'[..|c'| - 1] == c[k..]
  {
    if !Has(c, key) && |image| <= MAX_BYTES {
      var k := EvictsShortestPrefix(c, image);
      var c' := Added(c, key, image);
      assert c'[..|c'| - 1] == c[k..];
      BytesSplit(c[k..], [Entry(key, image)]);
      assert [Entry(key, image)][..0] == [];
      assert Bytes([]) == 0;
    }
  }

  lemma MovedAt<T>(s: seq<T>, i: nat)
    requires i < |s|
    ensures |Moved(s, i)| == |s|
    ensures forall j :: 0 <= j < |s| ==>
              Moved(s, i)[j] == (if j < i then s[j] else if j < |s| - 1 then s[j + 1] else s[i])
  {
  }

  lemma MovedKeepsElements<T>(s: seq<T>, i: nat)
    requires i < |s|
    ensures multiset(Moved(s, i)) == multiset(s)
    ensures forall x :: x in s <==> x in Moved(s, i)
  {
    assert s == s[..i] + [s[i]] + s[i + 1..];
    forall x ensures x in s <==> x in Moved(s, i) {
      assert x in s <==> x in multiset(s);
      assert x in Moved(s, i) <==> x in multiset(Moved(s, i));
    }
  }

  lemma BytesRotate(a: Cache, x: Cache, b: Cache)
    ensures Bytes(a + b + x) == Bytes(a + x + b)
  {
    BytesSplit(a + b, x);
    BytesSplit(a, b);
    BytesSplit(a + x, b);
    BytesSplit(a, x);
  }

  lemma Reassembled<T>(s: seq<T>, i: nat)
    requires i < |s|
    ensures s[..i] + [s[i]] + s[i + 1..] == s
  {
  }

  lemma MovedBytes(c: Cache, i: nat)
    requires i < |c|
    ensures Bytes(Moved(c, i)) == Bytes(c)
  {
    Reassembled(c, i);
    BytesRotate(c[..i], [c[i]], c[i + 1..]);
  }

  lemma MovedNoDuplicates(c: Cache, i: nat)
    requires i < |c| && NoDuplicates(c)
    ensures NoDuplicates(Moved(c, i))
  {
    MovedAt(c, i);
  }

  /** A hit only moves its image to the recent end. */
  lemma TouchKeeps(c: Cache, key: string)
    requires WellFormed(c)
    ensures WellFormed(Touched(c, key))
    ensures Has(c, key) ==> var t := Touched(c, key);
              t != [] && t[|t| - 1] == c[Position(c, key)] && multiset(t) == multiset(c)
  {
    if Has(c, key) {
      var i := Position(c, key);
      MovedAt(c, i);
      MovedKeepsElements(c, i);
      MovedBytes(c, i);
      MovedNoDuplicates(c, i);
    }
  }

  // ----- whole histories -----

  datatype Op = Get(key: string) | Put(key: string, image: Image)

  function After(ops: seq<Op>): Cache {
    if ops == [] then []
    else
      var c := After(ops[..|ops| - 1]);
      match ops[|ops| - 1]
      case Get(key) => Touched(c, key)
      case Put(key, image) => Added(c, key, image)
  }

  /** The i-th operation found or inserted the key. */
  ghost predicate Uses(ops: seq<Op>, i: nat, key: string)
    requires i < |ops|
  {
    && ops[i].key == key
    && Has(After(ops[..i]), key) == ops[i].Get?
    && (ops[i].Put? ==> |ops[i].image| <= MAX_BYTES)
  }

  /** The time of the last use of a key, or -1. */
  ghost function LastUse(ops: seq<Op>, key: string): int {
    if ops == [] then -1
    else if Uses(ops, |ops| - 1, key) then |ops| - 1
    else LastUse(ops[..|ops| - 1], key)
  }

  /** The cache is ordered by the time of last use. */
  ghost predicate Ordered(ops: seq<Op>, c: Cache) {
    && (forall i, j :: 0 <= i < j < |c| ==> LastUse(ops, c[i].key) < LastUse(ops, c[j].key))
    && (forall i :: 0 <= i < |c| ==> 0 <= LastUse(ops, c[i].key))
  }

  /** The last operation changes only its own key's time of last use. */
  lemma LastUseStep(ops: seq<Op>)
    requires ops != []
    ensures var n := |ops| - 1;
            && (forall key :: key != ops[n].key ==> LastUse(ops, key) == LastUse(ops[..n], key))
            && LastUse(ops, ops[n].key) == (if Uses(ops, n, ops[n].key) then n else LastUse(ops[..n], ops[n].key))
            && (forall key :: LastUse(ops[..n], key) < n)
  {
    var n := |ops| - 1;
    LastUseBefore(ops[..n]);
    forall key | key != ops[n].key ensures LastUse(ops, key) == LastUse(ops[..n], key) {
      assert !Uses(ops, n, key);
    }
  }

  lemma MovedOrdered(ops: seq<Op>, c: Cache, i: nat)
    requires ops != [] && i < |c| && NoDuplicates(c) && Ordered(ops[..|ops| - 1], c)
    requires ops[|ops| - 1].key == c[i].key && Uses(ops, |ops| - 1, c[i].key)
    ensures Ordered(ops, Moved(c, i))
  {
    LastUseStep(ops);
    MovedAt(c, i);
    var before := ops[..|ops| - 1];
    forall j | 0 <= j < |c| && j != i ensures LastUse(ops, c[j].key) == LastUse(before, c[j].key) {
    }
  }

  lemma GetOrdered(ops: seq<Op>, c: Cache)
    requires ops != [] && ops[|ops| - 1].Get? && c == After(ops[..|ops| - 1])
    requires WellFormed(c) && Ordered(ops[..|ops| - 1], c)
    ensures Ordered(ops, Touched(c, ops[|ops| - 1].key))
  {
    var n := |ops| - 1;
    var key := ops[n].key;
    LastUseStep(ops);
    if Has(c, key) {
      assert Uses(ops, n, key);
      MovedOrdered(ops, c, Position(c, key));
    } else {
      assert !Uses(ops, n, key);
    }
  }

  /** A suffix of an ordered cache, followed by an entry just put, is ordered. */
  lemma AppendOrdered(ops: seq<Op>, c: Cache, k: nat, e: Entry)
    requires ops != [] && k <= |c| && Ordered(ops[..|ops| - 1], c) && !Has(c, e.key)
    requires ops[|ops| - 1].key == e.key && Uses(ops, |ops| - 1, e.key)
    ensures Ordered(ops, c[k..] + [e])
  {
    LastUseStep(ops);
    var a := c[k..] + [e];
    forall j | 0 <= j < |c| - k
      ensures a[j] == c[k + j] && LastUse(ops, a[j].key) == LastUse(ops[..|ops| - 1], c[k + j].key)
    {
    }
  }

  lemma PutOrdered(ops: seq<Op>, c: Cache)
    requires ops != [] && ops[|ops| - 1].Put? && c == After(ops[..|ops| - 1])
    requires WellFormed(c) && Ordered(ops[..|ops| - 1], c)
    ensures Ordered(ops, Added(c, ops[|ops| - 1].key, ops[|ops| - 1].image))
  {
    var n := |ops| - 1;
    var key, image := ops[n].key, ops[n].image;
    if !Has(c, key) && |image| <= MAX_BYTES {
      assert Uses(ops, n, key);
      var k := EvictsShortestPrefix(c, image);
      AppendOrdered(ops, c, k, Entry(key, image));
    } else {
      LastUseStep(ops);
      assert !Uses(ops, n, key);
    }
  }

  /** After every history the cache is well formed and ordered by the time of last use, so
      eviction really removes the least recently used images. */
  lemma {:induction false} OrderedByLastUse(ops: seq<Op>)
    ensures WellFormed(After(ops)) && Ordered(ops, After(ops))
    decreases |ops|
  {
    if ops != [] {
      var n := |ops| - 1;
      var c := After(ops[..n]);
      OrderedByLastUse(ops[..n]);
      match ops[n]
      case Get(key) => TouchKeeps(c, key); GetOrdered(ops, c);
      case Put(key, image) => AddKeeps(c, key, image); PutOrdered(ops, c);
    }
  }

  lemma {:induction false} LastUseBefore(ops: seq<Op>)
    ensures forall key :: LastUse(ops, key) < |ops|
    decreases |ops|
  {
    if ops != [] {
      LastUseBefore(ops[..|ops| - 1]);
    }
  }

  /** The i-th operation is the insertion that put this image there; since then the key was
      only read. */
  ghost predicate InsertedAt(ops: seq<Op>, i: nat, key: string, image: Image) {
    && i < |ops| && ops[i] == Put(key, image) && Uses(ops, i, key)
    && forall j :: i < j < |ops| && Uses(ops, j, key) ==> ops[j].Get?
  }

  lemma InsertionStays(ops: seq<Op>, i: nat, key: string, image: Image)
    requires ops != [] && InsertedAt(ops[..|ops| - 1], i, key, image)
    requires Uses(ops, |ops| - 1, key) ==> ops[|ops| - 1].Get?
    ensures InsertedAt(ops, i, key, image)
  {
    var before := ops[..|ops| - 1];
    forall j | 0 <= j < |before| ensures Uses(ops, j, key) == Uses(before, j, key) {
      assert ops[..j] == before[..j];
    }
    assert ops[i] == before[i];
  }

  lemma EntriesComeFromBefore(c: Cache, op: Op, e: Entry)
    requires WellFormed(c)
    requires e in (if op.Get? then Touched(c, op.key) else Added(c, op.key, op.image))
    ensures e in c || (op.Put? && !Has(c, op.key) && |op.image| <= MAX_BYTES && e == Entry(op.key, op.image))
  {
    if op.Get? {
      TouchKeeps(c, op.key);
      assert e in multiset(Touched(c, op.key));
    } else {
      AddKeeps(c, op.key, op.image);
    }
  }

  /** Whatever is cached is what the latest insertion under its key put there: a hit returns
      the bytes that were stored. */
  lemma {:induction false} HitsReturnWhatWasPut(ops: seq<Op>, e: Entry)
    requires e in After(ops)
    ensures exists i :: InsertedAt(ops, i, e.key, e.image)
    decreases |ops|
  {
    var n := |ops| - 1;
    var before := ops[..n];
    var c := After(before);
    OrderedByLastUse(before);
    EntriesComeFromBefore(c, ops[n], e);
    if e in c {
      HitsReturnWhatWasPut(before, e);
      var i :| InsertedAt(before, i, e.key, e.image);
      assert Has(c, e.key);
      InsertionStays(ops, i, e.key, e.image);
    } else {
      assert InsertedAt(ops, n, e.key, e.image);
    }
  }

  // ----- the code -----

  /** Every ordered key is stored, and nothing else. */
  ghost predicate Agree(order: seq<string>, images: map<string, Image>) {
    && (forall i :: 0 <= i < |order| ==> order[i] in images)
    && (forall key :: key in images ==> key in order)
  }

  ghost function Entries(order: seq<string>, images: map<string, Image>): (c: Cache)
    requires Agree(order, images)
    ensures |c| == |order| && forall i :: 0 <= i < |c| ==> c[i] == Entry(order[i], images[order[i]])
  {
    seq(|order|, i requires 0 <= i < |order| => Entry(order[i], images[order[i]]))
  }

  lemma EntriesHave(order: seq<string>, images: map<string, Image>, key: string)
    requires Agree(order, images)
    ensures Has(Entries(order, images), key) <==> key in images
  {
    var c := Entries(order, images);
    if key in images {
      var j :| 0 <= j < |order| && order[j] == key;
      assert c[j].key == key;
    }
  }

  lemma MovedHas<T>(s: seq<T>, i: nat, x: T)
    requires i < |s| && x in s
    ensures x in Moved(s, i)
  {
    var j :| 0 <= j < |s| && s[j] == x;
    assert Moved(s, i)[if j < i then j else if j == i then |s| - 1 else j - 1] == x;
  }

  lemma MovedAgrees(order: seq<string>, images: map<string, Image>, i: nat)
    requires Agree(order, images) && i < |order|
    ensures Agree(Moved(order, i), images)
  {
    MovedAt(order, i);
    forall key | key in images ensures key in Moved(order, i) {
      MovedHas(order, i, key);
    }
  }

  lemma EntriesMoved(order: seq<string>, images: map<string, Image>, i: nat)
    requires Agree(order, images) && i < |order|
    ensures Agree(Moved(order, i), images)
    ensures Entries(Moved(order, i), images) == Moved(Entries(order, images), i)
  {
    MovedAgrees(order, images, i);
    MovedAt(order, i);
    MovedAt(Entries(order, images), i);
  }

  lemma EntriesDropped(order: seq<string>, images: map<string, Image>)
    requires Agree(order, images) && order != [] && NoDuplicates(Entries(order, images))
    ensures Agree(order[1..], images - {order[0]})
    ensures Entries(order[1..], images - {order[0]}) == Entries(order, images)[1..]
    ensures (images - {order[0]}).Keys < images.Keys
  {
    var c := Entries(order, images);
    var rest := images - {order[0]};
    assert order[0] in images.Keys;
    forall key | key in rest ensures key in order[1..] {
      var j :| 0 <= j < |order| && order[j] == key;
      assert key == order[1..][j - 1];
    }
    forall j | 0 <= j < |order[1..]| ensures order[1..][j] in rest {
      assert c[0].key != c[j + 1].key;
    }
  }

  lemma EntryFits(c: Cache, e: Entry)
    requires WellFormed(c) && !Has(c, e.key) && Fits(c, e.image)
    ensures WellFormed(c + [e]) && Bytes(c + [e]) == Bytes(c) + |e.image|
  {
    BytesSplit(c, [e]);
    assert [e][..0] == [];
    assert Bytes([]) == 0;
  }

  lemma EntriesAppended(order: seq<string>, images: map<string, Image>, key: string, image: Image)
    requires Agree(order, images) && key !in images
    ensures Agree(order + [key], images[key := image])
    ensures Entries(order + [key], images[key := image]) == Entries(order, images) + [Entry(key, image)]
  {
    var longer := order + [key];
    assert longer[|order|] == key;
    forall k | k in images[key := image] ensures k in longer {
      if k != key {
        assert k in order;
      }
    }
  }

  class Device {
    var preparedImages: map<string, Image>
    var preparedImageOrder: seq<string>
    var preparedImageBytes: int

    ghost predicate Consistent()
      reads this
    {
      Agree(preparedImageOrder, preparedImages)
    }

    ghost function View(): Cache
      reads this
      requires Consistent()
    {
      Entries(preparedImageOrder, preparedImages)
    }

    /** The fields agree with each other, and both budgets hold. */
    ghost predicate Valid()
      reads this
    {
      Consistent() && WellFormed(View()) && preparedImageBytes == Bytes(View())
    }

    constructor ()
      ensures Valid() && View() == []
    {
      preparedImages, preparedImageOrder, preparedImageBytes := map[], [], 0;
    }

    method GetPreparedImage(key: string) returns (found: Option<Image>)
      requires Valid()
      modifies this`preparedImageOrder
      ensures Valid()
      ensures found == Looked(old(View()), key)
      ensures View() == Touched(old(View()), key)
    {
      ghost var c := View();
      EntriesHave(preparedImageOrder, preparedImages, key);
      if key !in preparedImages {
        return None;
      }
      var i := 0;
      while preparedImageOrder[i] != key
        invariant 0 <= i <= Position(c, key)
        decreases |preparedImageOrder| - i
      {
        assert c[i].key != key;
        i := i + 1;
      }
      assert c[i].key == key && i == Position(c, key);
      found := Some(preparedImages[key]);
      Promote(i);
    }

    /** Shifts the keys after position i down by one and puts the i-th key last. */
    method Promote(i: nat)
      requires Valid() && i < |preparedImageOrder|
      modifies this`preparedImageOrder
      ensures Valid() && View() == Moved(old(View()), i)
    {
      ghost var c := View();
      EntriesMoved(preparedImageOrder, preparedImages, i);
      preparedImageOrder := preparedImageOrder[..i] + preparedImageOrder[i + 1..] + [preparedImageOrder[i]];
      MovedNoDuplicates(c, i);
      MovedBytes(c, i);
    }

    /** Removes the least recently used image. */
    method EvictOldest()
      requires Valid() && preparedImageOrder != []
      modifies this
      ensures Valid() && View() == old(View())[1..]
      ensures preparedImages.Keys < old(preparedImages.Keys)
    {
      var oldest := preparedImageOrder[0];
      BytesDropFirst(View());
      EntriesDropped(preparedImageOrder, preparedImages);
      preparedImageOrder := preparedImageOrder[1..];
      preparedImageBytes := preparedImageBytes - |preparedImages[oldest]|;
      preparedImages := preparedImages - {oldest};
    }

    method PutPreparedImage(key: string, image: Image)
      requires Valid()
      modifies this
      ensures Valid()
      ensures View() == Added(old(View()), key, image)
    {
      ghost var c := View();
      EntriesHave(preparedImageOrder, preparedImages, key);
      if key in preparedImages {
        return;
      }
      if |image| > MAX_BYTES {
        return;
      }
      AddKeeps(c, key, image);
      while |preparedImageOrder| > 0
            && (|preparedImageOrder| >= MAX_IMAGES || preparedImageBytes + |image| > MAX_BYTES)
        invariant Valid() && key !in preparedImages
        invariant Evicted(View(), image) == Evicted(c, image)
        decreases |preparedImageOrder|
      {
        EvictOldest();
      }
      ghost var k := EvictsShortestPrefix(c, image);
      Append(key, image);
    }

    /** Stores an image there is room for. */
    method Append(key: string, image: Image)
      requires Valid() && key !in preparedImages && Fits(View(), image)
      modifies this
      ensures Valid() && View() == old(View()) + [Entry(key, image)]
    {
      hide Bytes, NoDuplicates, Agree, Entries;
      EntriesHave(preparedImageOrder, preparedImages, key);
      EntriesAppended(preparedImageOrder, preparedImages, key, image);
      EntryFits(View(), Entry(key, image));
      preparedImages := preparedImages[key := image];
      preparedImageBytes := preparedImageBytes + |image|;
      preparedImageOrder := preparedImageOrder + [key];
    }
  }
}
