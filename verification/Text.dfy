/** Trimming, lower case and the order of strings, for the ASCII letters and the Latin-1 white space. */
module Text {

  predicate IsSpace(c: char) {
    c == ' ' || '\t' <= c <= '\r' || c == 0x85 as char || c == 0xA0 as char
  }

  function TrimLeft(s: string): string {
    if s != "" && IsSpace(s[0]) then TrimLeft(s[1..]) else s
  }

  function TrimRight(s: string): string {
    if s != "" && IsSpace(s[|s| - 1]) then TrimRight(s[..|s| - 1]) else s
  }

  /** strings.TrimSpace. */
  function TrimSpace(s: string): string {
    TrimRight(TrimLeft(s))
  }

  function LowerChar(c: char): char {
    if 'A' <= c <= 'Z' then c - 'A' + 'a' else c
  }

  /** strings.ToLower. */
  function ToLower(s: string): string {
    seq(|s|, i requires 0 <= i < |s| => LowerChar(s[i]))
  }

  predicate Trimmed(s: string) {
    s == "" || (!IsSpace(s[0]) && !IsSpace(s[|s| - 1]))
  }

  lemma {:induction false} TrimLeftTrims(s: string)
    ensures var t := TrimLeft(s); t == "" || !IsSpace(t[0])
    decreases |s|
  {
    if s != "" && IsSpace(s[0]) {
      TrimLeftTrims(s[1..]);
    }
  }

  lemma {:induction false} TrimRightTrims(s: string)
    requires s == "" || !IsSpace(s[0])
    ensures Trimmed(TrimRight(s))
    decreases |s|
  {
    if s != "" && IsSpace(s[|s| - 1]) {
      TrimRightTrims(s[..|s| - 1]);
    }
  }

  lemma TrimSpaceTrims(s: string)
    ensures Trimmed(TrimSpace(s))
    ensures Trimmed(s) ==> TrimSpace(s) == s
  {
    TrimLeftTrims(s);
    TrimRightTrims(TrimLeft(s));
  }

  lemma LowerKeepsTrimmed(s: string)
    requires Trimmed(s)
    ensures Trimmed(ToLower(s)) && ToLower(ToLower(s)) == ToLower(s)
  {
  }

  // ----- the order of strings -----

  predicate Less(a: string, b: string) {
    if b == "" then false
    else if a == "" then true
    else a[0] < b[0] || (a[0] == b[0] && Less(a[1..], b[1..]))
  }

  lemma {:induction false} LessTotal(a: string, b: string)
    ensures a == b || Less(a, b) || Less(b, a)
    ensures !(Less(a, b) && Less(b, a)) && (a == b ==> !Less(a, b))
    decreases |a|
  {
    if a != "" && b != "" {
      LessTotal(a[1..], b[1..]);
      if a[0] == b[0] && a[1..] == b[1..] {
        assert a == [a[0]] + a[1..] && b == [b[0]] + b[1..];
      }
    }
  }

  lemma {:induction false} LessTransitive(a: string, b: string, c: string)
    requires Less(a, b) && Less(b, c)
    ensures Less(a, c)
    decreases |a|
  {
    if a != "" && a[0] == b[0] && b[0] == c[0] {
      LessTransitive(a[1..], b[1..], c[1..]);
    }
  }

  /** Sorted without repetitions. */
  predicate Ascending(s: seq<string>) {
    forall i, j :: 0 <= i < j < |s| ==> Less(s[i], s[j])
  }

  ghost function Elements(s: seq<string>): set<string> {
    set x | x in s
  }

  lemma NoElements(s: seq<string>)
    ensures s == [] <==> Elements(s) == {}
  {
    if s != [] {
      assert s[0] in Elements(s);
    }
  }

  /** A set has only one ascending enumeration. */
  lemma {:induction false} AscendingUnique(a: seq<string>, b: seq<string>)
    requires Ascending(a) && Ascending(b) && Elements(a) == Elements(b)
    ensures a == b
    decreases |a|
  {
    NoElements(a);
    NoElements(b);
    if a != [] {
      assert a[0] in Elements(b);
      assert b != [];
      FirstIsLeast(a, b[0]);
      FirstIsLeast(b, a[0]);
      LessTotal(a[0], b[0]);
      assert a[0] == b[0];
      TailElements(a);
      TailElements(b);
      AscendingUnique(a[1..], b[1..]);
      assert a == [a[0]] + a[1..] && b == [b[0]] + b[1..];
    }
  }

  lemma FirstIsLeast(a: seq<string>, x: string)
    requires Ascending(a) && a != [] && x in Elements(a)
    ensures x == a[0] || Less(a[0], x)
  {
  }

  lemma TailElements(a: seq<string>)
    requires Ascending(a) && a != []
    ensures Elements(a[1..]) == Elements(a) - {a[0]}
  {
    LessTotal(a[0], a[0]);
    forall x ensures x in Elements(a[1..]) <==> x in Elements(a) - {a[0]} {
      if x in a[1..] {
        var i :| 0 <= i < |a[1..]| && a[1..][i] == x;
        assert Less(a[0], a[i + 1]);
        LessTotal(a[0], x);
      }
    }
  }

  /** Inserts into an ascending sequence. */
  function Inserted(s: seq<string>, x: string): seq<string> {
    if s == [] then [x]
    else if x == s[0] then s
    else if Less(x, s[0]) then [x] + s
    else [s[0]] + Inserted(s[1..], x)
  }

  lemma {:induction false} InsertedAscends(s: seq<string>, x: string)
    requires Ascending(s)
    ensures Ascending(Inserted(s, x)) && Elements(Inserted(s, x)) == Elements(s) + {x}
    decreases |s|
  {
    if s != [] {
      LessTotal(x, s[0]);
      if x == s[0] {
      } else if Less(x, s[0]) {
        var t := [x] + s;
        forall i, j | 0 <= i < j < |t| ensures Less(t[i], t[j]) {
          if i == 0 && j > 1 {
            LessTransitive(x, s[0], s[j - 1]);
          }
        }
        assert forall y :: y in t <==> y == x || y in s;
        assert Elements(t) == Elements(s) + {x};
      } else {
        var rest := Inserted(s[1..], x);
        InsertedAscends(s[1..], x);
        var t := [s[0]] + rest;
        assert s == [s[0]] + s[1..];
        forall i, j | 0 <= i < j < |t| ensures Less(t[i], t[j]) {
          assert t[j] in Elements(rest);
        }
        assert forall y :: y in s <==> y == s[0] || y in s[1..];
        assert forall y :: y in t <==> y == s[0] || y in rest;
        assert forall y :: y in rest <==> y in Elements(rest);
        assert forall y :: y in s[1..] <==> y in Elements(s[1..]);
        assert Elements(t) == Elements(s) + {x};
      }
    }
  }

  /** sort.Strings on a list without repetitions. */
  method Sort(s: seq<string>) returns (r: seq<string>)
    ensures Ascending(r) && Elements(r) == Elements(s)
  {
    r := [];
    for i := 0 to |s|
      invariant Ascending(r) && Elements(r) == Elements(s[..i])
    {
      InsertedAscends(r, s[i]);
      r := Inserted(r, s[i]);
      assert s[..i + 1] == s[..i] + [s[i]];
    }
    assert s[..|s|] == s;
  }
}
