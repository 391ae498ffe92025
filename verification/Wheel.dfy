/** Sequences as wheels: turning the last element to the front again and again. */
module Wheel {

  // ----- repeated application -----

  function Times<T>(f: T -> T, x: T, n: nat): T {
    if n == 0 then x else f(Times(f, x, n - 1))
  }

  lemma {:induction false} TimesCompose<T>(f: T -> T, x: T, a: nat, b: nat)
    ensures Times(f, Times(f, x, a), b) == Times(f, x, a + b)
    decreases b
  {
    if b > 0 {
      TimesCompose(f, x, a, b - 1);
    }
  }

  lemma {:induction false} TimesFixed<T>(f: T -> T, x: T, n: nat)
    requires f(x) == x
    ensures Times(f, x, n) == x
    decreases n
  {
    if n > 0 {
      TimesFixed(f, x, n - 1);
    }
  }

  /** What f keeps, many applications of f keep. */
  lemma {:induction false} TimesKeeps<T(!new)>(f: T -> T, kept: T -> bool, x: T, n: nat)
    requires kept(x) && forall y :: kept(y) ==> kept(f(y))
    ensures kept(Times(f, x, n))
    decreases n
  {
    if n > 0 {
      TimesKeeps(f, kept, x, n - 1);
    }
  }

  lemma {:induction false} TimesCommute<T(!new), U>(f: T -> T, g: U -> U, h: T -> U, x: T, n: nat)
    requires forall y :: h(f(y)) == g(h(y))
    ensures h(Times(f, x, n)) == Times(g, h(x), n)
    decreases n
  {
    if n > 0 {
      TimesCommute(f, g, h, x, n - 1);
    }
  }

  /** Rounds of applications of f, each as long as `length` says of what it finds. */
  function Rounds<T>(f: T -> T, length: T -> nat, x: T, rounds: nat): T {
    if rounds == 0 then x
    else
      var before := Rounds(f, length, x, rounds - 1);
      Times(f, before, length(before))
  }

  function Applications<T>(f: T -> T, length: T -> nat, x: T, rounds: nat): nat {
    if rounds == 0 then 0 else Applications(f, length, x, rounds - 1) + length(Rounds(f, length, x, rounds - 1))
  }

  lemma {:induction false} RoundsAreTimes<T>(f: T -> T, length: T -> nat, x: T, rounds: nat)
    ensures Rounds(f, length, x, rounds) == Times(f, x, Applications(f, length, x, rounds))
    decreases rounds
  {
    if rounds > 0 {
      RoundsAreTimes(f, length, x, rounds - 1);
      TimesCompose(f, x, Applications(f, length, x, rounds - 1), length(Rounds(f, length, x, rounds - 1)));
    }
  }

  // ----- turning -----

  /** The last element goes to the front. */
  function Turned<T>(s: seq<T>): seq<T> {
    if s == [] then [] else [s[|s| - 1]] + s[..|s| - 1]
  }

  function TurnedTimes<T>(s: seq<T>, n: nat): seq<T> {
    Times(Turned, s, n)
  }

  function Tail<T>(s: seq<T>): seq<T> {
    if s == [] then [] else [s[|s| - 1]]
  }

  /** The elements that came to the front in n turns. */
  function Shown<T>(wheel: seq<T>, n: nat): seq<T> {
    if n == 0 then [] else Shown(wheel, n - 1) + Tail(TurnedTimes(wheel, n - 1))
  }

  lemma ShownStep<T>(s: seq<T>, n: nat)
    ensures Shown(s, n + 1) == Shown(s, n) + Tail(TurnedTimes(s, n))
  {
  }

  lemma TurnedStep<T>(s: seq<T>, n: nat)
    ensures TurnedTimes(s, n + 1) == Turned(TurnedTimes(s, n))
  {
  }

  lemma TurnedLength<T(!new)>(s: seq<T>, n: nat)
    ensures |TurnedTimes(s, n)| == |s|
  {
    ghost var kept := (t: seq<T>) => |t| == |s|;
    TimesKeeps(Turned, kept, s, n);
  }

  lemma TurnedHolds<T(!new)>(s: seq<T>, n: nat, x: T)
    requires x in TurnedTimes(s, n)
    ensures x in s
  {
    ghost var kept := (t: seq<T>) => forall y :: y in t ==> y in s;
    TimesKeeps(Turned, kept, s, n);
  }

  lemma TurnedEnd<T>(s: seq<T>, x: T)
    ensures Turned(s + [x]) == [x] + s
  {
    assert (s + [x])[..|s|] == s;
  }

  /** s with everything before position m moved behind the rest. */
  function Cut<T>(s: seq<T>, m: nat): seq<T>
    requires m <= |s|
  {
    s[m..] + s[..m]
  }

  lemma CutStep<T>(s: seq<T>, m: nat)
    requires m < |s|
    ensures Turned(Cut(s, m + 1)) == Cut(s, m)
    ensures Tail(Cut(s, m + 1)) == [s[m]]
  {
    var t := s[m + 1..] + s[..m];
    assert s[..m + 1] == s[..m] + [s[m]];
    assert Cut(s, m + 1) == t + [s[m]];
    assert s[m..] == [s[m]] + s[m + 1..];
    assert Cut(s, m) == [s[m]] + t;
    TurnedEnd(t, s[m]);
  }

  lemma CutAll<T>(s: seq<T>)
    ensures Cut(s, |s|) == s && Cut(s, 0) == s
  {
  }

  lemma {:induction false} TurnsWithin<T>(s: seq<T>, n: nat)
    requires n <= |s|
    ensures TurnedTimes(s, n) == Cut(s, |s| - n)
    decreases n
  {
    if n == 0 {
      CutAll(s);
    } else {
      TurnsWithin(s, n - 1);
      TurnedStep(s, n - 1);
      CutStep(s, |s| - n);
    }
  }

  lemma NextShown<T>(s: seq<T>, n: nat)
    requires 0 < n <= |s|
    ensures Shown(s, n) == Shown(s, n - 1) + [s[|s| - n]]
  {
    ShownStep(s, n - 1);
    TurnsWithin(s, n - 1);
    CutStep(s, |s| - n);
  }

  /** Up to one full turn the elements come to the front last to first. */
  lemma {:induction false} WithinOneTurn<T>(s: seq<T>, n: nat)
    requires n <= |s|
    ensures |Shown(s, n)| == n
    ensures forall i :: 0 <= i < n ==> Shown(s, n)[i] == s[|s| - 1 - i]
    decreases n
  {
    if n > 0 {
      WithinOneTurn(s, n - 1);
      NextShown(s, n);
    }
  }

  lemma Regrouped<T>(a: seq<T>, b: seq<T>, c: seq<T>)
    ensures a + (b + c) == a + b + c
  {
  }

  lemma TurnsCompose<T>(s: seq<T>, a: nat, b: nat)
    ensures TurnedTimes(TurnedTimes(s, a), b) == TurnedTimes(s, a + b)
  {
    TimesCompose(Turned, s, a, b);
  }

  lemma {:induction false} ShownCompose<T>(s: seq<T>, a: nat, b: nat)
    ensures Shown(s, a) + Shown(TurnedTimes(s, a), b) == Shown(s, a + b)
    decreases b
  {
    if b == 0 {
      assert Shown(s, a) + [] == Shown(s, a);
    } else {
      var c, t := b - 1, TurnedTimes(s, a);
      calc {
        Shown(s, a) + Shown(t, b);
        { ShownStep(t, c); }
        Shown(s, a) + (Shown(t, c) + Tail(TurnedTimes(t, c)));
        { Regrouped(Shown(s, a), Shown(t, c), Tail(TurnedTimes(t, c))); }
        Shown(s, a) + Shown(t, c) + Tail(TurnedTimes(t, c));
        { ShownCompose(s, a, c); TurnsCompose(s, a, c); }
        Shown(s, a + c) + Tail(TurnedTimes(s, a + c));
        { ShownStep(s, a + c); }
        Shown(s, a + b);
      }
    }
  }

  /** A full turn restores the wheel, and after it the same elements come again. */
  lemma TurnsRepeat<T>(s: seq<T>, n: nat)
    ensures TurnedTimes(s, |s|) == s
    ensures Shown(s, |s| + n) == Shown(s, |s|) + Shown(s, n)
  {
    TurnsWithin(s, |s|);
    CutAll(s);
    ShownCompose(s, |s|, n);
  }

  lemma ShownCovers<T>(s: seq<T>, n: nat, i: nat)
    requires n >= |s| && i < |s|
    ensures s[i] in Shown(s, n)
  {
    WithinOneTurn(s, |s|);
    TurnsRepeat(s, n - |s|);
    assert Shown(s, |s|)[|s| - 1 - i] == s[i];
  }

  /** Whatever comes to the front is on the wheel. */
  lemma {:induction false} ShownHolds<T(!new)>(s: seq<T>, n: nat, x: T)
    requires x in Shown(s, n)
    ensures x in s
    decreases n
  {
    if x in Tail(TurnedTimes(s, n - 1)) {
      TurnedHolds(s, n - 1, x);
    } else {
      ShownHolds(s, n - 1, x);
    }
  }

  // ----- how often elements come to the front -----

  predicate Distinct<T(==)>(s: seq<T>) {
    forall i, j :: 0 <= i < j < |s| ==> s[i] != s[j]
  }

  lemma {:induction false} ShowsNothing<T(!new)>(s: seq<T>, n: nat)
    requires s == []
    ensures Shown(s, n) == []
    decreases n
  {
    if n > 0 {
      ShowsNothing(s, n - 1);
      TurnedLength(s, n - 1);
    }
  }

  lemma {:induction false} ShowsFirst<T(!new)>(s: seq<T>, n: nat)
    requires s != [] && n > 0
    ensures |Shown(s, n)| == n && Shown(s, n)[0] == s[|s| - 1]
    decreases n
  {
    TurnedLength(s, n - 1);
    if n > 1 {
      ShowsFirst(s, n - 1);
    }
  }

  /** Distinct elements come to the front at most once each exactly within one full turn. */
  lemma ShownDistinctIff<T(!new)>(s: seq<T>, n: nat)
    requires Distinct(s)
    ensures Distinct(Shown(s, n)) <==> n <= |s| || s == []
  {
    if s == [] {
      ShowsNothing(s, n);
    } else if n <= |s| {
      ShownDistinct(s, n);
    } else {
      ShownAgain(s, n - |s|);
    }
  }

  lemma ShownDistinct<T>(s: seq<T>, n: nat)
    requires Distinct(s) && n <= |s|
    ensures Distinct(Shown(s, n))
  {
    WithinOneTurn(s, n);
  }

  lemma ShownAgain<T(!new)>(s: seq<T>, more: nat)
    requires s != [] && more > 0
    ensures !Distinct(Shown(s, |s| + more))
  {
    TurnsRepeat(s, more);
    ShowsFirst(s, |s|);
    ShowsFirst(s, more);
    var shown := Shown(s, |s| + more);
    assert shown[0] == shown[|s|];
  }

  lemma ShownNone<T>(s: seq<T>)
    ensures Shown(s, 0) == []
  {
  }

  /** Every element comes to the front as often as it is on the wheel exactly in one full turn. */
  lemma ShownAllIff<T(!new)>(s: seq<T>, n: nat)
    ensures multiset(Shown(s, n)) == multiset(s) <==> n == |s| || s == []
  {
    hide Shown;
    if s == [] {
      ShowsNothing(s, n);
    } else {
      if n == 0 {
        ShownNone(s);
      } else {
        ShowsFirst(s, n);
      }
      assert |multiset(Shown(s, n))| == n && |multiset(s)| == |s|;
      if n == |s| {
        ShownFrom(s, 0);
      }
    }
  }

  lemma {:induction false} ShownFrom<T>(s: seq<T>, m: nat)
    requires m <= |s|
    ensures multiset(Shown(s, |s| - m)) == multiset(s[m..])
    decreases |s| - m
  {
    hide Shown;
    if m == |s| {
      assert s[m..] == [];
      ShownNone(s);
    } else {
      ShownFrom(s, m + 1);
      NextShown(s, |s| - m);
      SameElements(Shown(s, |s| - m - 1), s[m + 1..], s[m]);
      FirstOfRest(s, m);
    }
  }

  lemma SameElements<T>(a: seq<T>, b: seq<T>, x: T)
    requires multiset(a) == multiset(b)
    ensures multiset(a + [x]) == multiset([x] + b)
  {
  }

  lemma FirstOfRest<T>(s: seq<T>, m: nat)
    requires m < |s|
    ensures s[m..] == [s[m]] + s[m + 1..]
  {
  }

  // ----- wheels of images -----

  function Map<T, U>(f: T -> U, s: seq<T>): seq<U> {
    seq(|s|, i requires 0 <= i < |s| => f(s[i]))
  }

  lemma MapConcat<T, U>(f: T -> U, a: seq<T>, b: seq<T>)
    ensures Map(f, a + b) == Map(f, a) + Map(f, b)
  {
  }

  lemma MapTail<T, U>(f: T -> U, s: seq<T>)
    ensures Map(f, Tail(s)) == Tail(Map(f, s))
    ensures Map(f, Turned(s)) == Turned(Map(f, s))
  {
  }

  lemma MapTurned<T(!new), U>(f: T -> U, s: seq<T>, n: nat)
    ensures Map(f, TurnedTimes(s, n)) == TurnedTimes(Map(f, s), n)
  {
    ghost var image := (t: seq<T>) => Map(f, t);
    forall t: seq<T> ensures image(Turned(t)) == Turned(image(t)) {
      MapTail(f, t);
    }
    TimesCommute(Turned, Turned, image, s, n);
  }

  lemma {:induction false} MapShown<T(!new), U>(f: T -> U, s: seq<T>, n: nat)
    ensures Map(f, Shown(s, n)) == Shown(Map(f, s), n)
    decreases n
  {
    if n == 0 {
      assert Map(f, Shown(s, 0)) == [];
    } else {
      var c, u := n - 1, Map(f, s);
      MapShown(f, s, c);
      MapTurned(f, s, c);
      MapMore(f, s, c);
      ShownStep(u, c);
      assert n == c + 1;
    }
  }

  lemma MapMore<T, U>(f: T -> U, s: seq<T>, n: nat)
    ensures Map(f, Shown(s, n + 1)) == Map(f, Shown(s, n)) + Tail(Map(f, TurnedTimes(s, n)))
  {
    ShownStep(s, n);
    MapConcat(f, Shown(s, n), Tail(TurnedTimes(s, n)));
    MapTail(f, TurnedTimes(s, n));
  }
}
