/** Byte strings as the controller uses them: the order sort.Strings sorts by, the canonical
    sorted and duplicate-free list of a set, and the normal form addresses are compared in. */
module Strings {

  /** Lexicographic order, the one sort.Strings uses. */
  predicate Below(a: string, b: string) {
    a == "" || (b != "" && (a[0] < b[0] || (a[0] == b[0] && Below(a[1..], b[1..]))))
  }

  /** The first place where they differ, and the smaller character is here. */
  predicate SmallerAt(a: string, b: string, i: nat) {
    i < |a| && i < |b| && a[..i] == b[..i] && a[i] < b[i]
  }

  lemma SmallerShifts(a: string, b: string, i: nat)
    requires a != "" && b != ""
    ensures SmallerAt(a, b, i + 1) <==> a[0] == b[0] && SmallerAt(a[1..], b[1..], i)
  {
    if i < |a[1..]| && i < |b[1..]| {
      assert a[..i + 1] == [a[0]] + a[1..][..i] && b[..i + 1] == [b[0]] + b[1..][..i];
      if a[..i + 1] == b[..i + 1] { assert a[..i + 1][1..] == a[1..][..i] && b[..i + 1][1..] == b[1..][..i]; }
    }
  }

  /** That is: a prefix of the other, or smaller at the first place where they differ. */
  lemma {:induction false} BelowIsLexicographic(a: string, b: string)
    ensures Below(a, b) <==> a <= b || exists i: nat :: SmallerAt(a, b, i)
  {
    if a != "" && b != "" {
      BelowIsLexicographic(a[1..], b[1..]);
      assert a == [a[0]] + a[1..] && b == [b[0]] + b[1..];
      if i: nat :| SmallerAt(a, b, i) {
        if i > 0 { SmallerShifts(a, b, i - 1); }
      }
      if a[0] == b[0] {
        if i: nat :| SmallerAt(a[1..], b[1..], i) { SmallerShifts(a, b, i); }
      } else if a[0] < b[0] {
        assert SmallerAt(a, b, 0);
      }
    }
  }

  lemma {:induction false} BelowTotal(a: string, b: string)
    ensures Below(a, b) || Below(b, a)
  {
    if a != "" && b != "" {
      BelowTotal(a[1..], b[1..]);
    }
  }

  lemma {:induction false} BelowAntisymmetric(a: string, b: string)
    requires Below(a, b) && Below(b, a)
    ensures a == b
  {
    if a != "" {
      BelowAntisymmetric(a[1..], b[1..]);
      assert a == [a[0]] + a[1..] && b == [b[0]] + b[1..];
    }
  }

  lemma {:induction false} BelowTransitive(a: string, b: string, c: string)
    requires Below(a, b) && Below(b, c)
    ensures Below(a, c)
  {
    if a != "" && a[0] == b[0] == c[0] {
      BelowTransitive(a[1..], b[1..], c[1..]);
    }
  }

  /** Whether a list is in non-decreasing order. */
  predicate Sorted(list: seq<string>) {
    forall i, j :: 0 <= i < j < |list| ==> Below(list[i], list[j])
  }

  predicate Distinct(list: seq<string>) {
    forall i, j :: 0 <= i < j < |list| ==> list[i] != list[j]
  }

  function Elements(list: seq<string>): set<string> {
    set x | x in list
  }

  function Occurrences(list: seq<string>, x: string): nat {
    if list == [] then 0 else (if list[0] == x then 1 else 0) + Occurrences(list[1..], x)
  }

  lemma {:induction false} OccurrencesCount(list: seq<string>, x: string)
    ensures multiset(list)[x] == Occurrences(list, x)
  {
    if list != [] {
      OccurrencesCount(list[1..], x);
      assert list == [list[0]] + list[1..];
    }
  }

  function Insert(x: string, list: seq<string>): seq<string> {
    if list == [] || Below(x, list[0]) then [x] + list else [list[0]] + Insert(x, list[1..])
  }

  /** sort.Strings, on a value. */
  function Sort(list: seq<string>): seq<string> {
    if list == [] then [] else Insert(list[0], Sort(list[1..]))
  }

  lemma {:induction false} InsertAdds(x: string, list: seq<string>)
    ensures multiset(Insert(x, list)) == multiset{x} + multiset(list)
    ensures forall y :: y in Insert(x, list) <==> y == x || y in list
  {
    if list != [] && !Below(x, list[0]) {
      assert list == [list[0]] + list[1..];
      InsertAdds(x, list[1..]);
    }
  }

  lemma {:induction false} InsertSorts(x: string, list: seq<string>)
    requires Sorted(list)
    ensures Sorted(Insert(x, list))
  {
    if list == [] {
    } else if Below(x, list[0]) {
      forall j | 0 <= j < |list| ensures Below(x, list[j]) {
        if j > 0 { BelowTransitive(x, list[0], list[j]); }
      }
    } else {
      BelowTotal(x, list[0]);
      assert list == [list[0]] + list[1..];
      InsertSorts(x, list[1..]);
      InsertAdds(x, list[1..]);
      var rest := Insert(x, list[1..]);
      forall j | 0 <= j < |rest| ensures Below(list[0], rest[j]) {
        assert rest[j] in rest;
        if rest[j] != x {
          var k :| 0 <= k < |list[1..]| && list[1..][k] == rest[j];
          assert list[k + 1] == rest[j];
        }
      }
    }
  }

  lemma {:induction false} SortSorts(list: seq<string>)
    ensures Sorted(Sort(list)) && multiset(Sort(list)) == multiset(list)
    ensures Elements(Sort(list)) == Elements(list)
  {
    if list != [] {
      SortSorts(list[1..]);
      InsertSorts(list[0], Sort(list[1..]));
      InsertAdds(list[0], Sort(list[1..]));
      assert list == [list[0]] + list[1..];
      forall y ensures y in Sort(list) <==> y in list {
        assert y in Sort(list[1..]) <==> y in Elements(Sort(list[1..]));
        assert y in list[1..] <==> y in Elements(list[1..]);
      }
    }
  }

  /** The one sorted list that holds every string of a set once. */
  predicate Canonical(list: seq<string>) {
    Sorted(list) && Distinct(list)
  }

  lemma {:induction false} InsertKeepsDistinct(x: string, list: seq<string>)
    requires Distinct(list) && x !in list
    ensures Distinct(Insert(x, list)) && Elements(Insert(x, list)) == {x} + Elements(list)
  {
    if list != [] && !Below(x, list[0]) {
      var rest := list[1..];
      InsertKeepsDistinct(x, rest);
      assert list == [list[0]] + rest;
      assert list[0] !in Elements(rest) && list[0] !in Elements(Insert(x, rest));
      assert forall y :: y in Insert(x, rest) ==> y in Elements(Insert(x, rest));
    }
  }

  lemma {:induction false} SortKeepsDistinct(list: seq<string>)
    requires Distinct(list)
    ensures Canonical(Sort(list)) && Elements(Sort(list)) == Elements(list)
  {
    SortSorts(list);
    if list != [] {
      var rest := list[1..];
      SortKeepsDistinct(rest);
      assert list == [list[0]] + rest && list[0] !in rest;
      assert list[0] !in Elements(Sort(rest));
      InsertKeepsDistinct(list[0], Sort(rest));
    }
  }

  lemma NonemptyElements(list: seq<string>)
    ensures list != [] ==> Elements(list) != {}
  {
    if list != [] { assert list[0] in Elements(list); }
  }

  /** A canonical list is determined by its elements. */
  lemma {:induction false} CanonicalUnique(a: seq<string>, b: seq<string>)
    requires Canonical(a) && Canonical(b) && Elements(a) == Elements(b)
    ensures a == b
  {
    if a == [] {
      NonemptyElements(b);
    } else {
      assert a[0] in Elements(b) && a[0] in b;
      assert b[0] in Elements(a) && b[0] in a;
      var i :| 0 <= i < |b| && b[i] == a[0];
      var j :| 0 <= j < |a| && a[j] == b[0];
      if i > 0 && j > 0 { BelowAntisymmetric(a[0], b[0]); }
      assert a == [a[0]] + a[1..] && b == [b[0]] + b[1..];
      assert Elements(a[1..]) == Elements(a) - {a[0]};
      assert Elements(b[1..]) == Elements(b) - {b[0]};
      CanonicalUnique(a[1..], b[1..]);
    }
  }

  // ---- Address normal form: strings.ToLower(strings.TrimSpace(address)), for ASCII ----

  predicate IsSpace(c: char) {
    c == ' ' || c == '\t' || c == '\n' || c == '\r' || c == 11 as char || c == 12 as char
  }

  function TrimLeft(s: string): string {
    if s != "" && IsSpace(s[0]) then TrimLeft(s[1..]) else s
  }

  function TrimRight(s: string): string {
    if s != "" && IsSpace(s[|s| - 1]) then TrimRight(s[..|s| - 1]) else s
  }

  function LowerChar(c: char): char {
    if 'A' <= c <= 'Z' then (c as int + 32) as char else c
  }

  function Lower(s: string): string {
    seq(|s|, i requires 0 <= i < |s| => LowerChar(s[i]))
  }

  function Normalize(address: string): string {
    Lower(TrimRight(TrimLeft(address)))
  }

  // ---- What the normal form forgets ----

  /** Only blanks, horizontal or vertical. */
  predicate Blank(s: string) { forall c :: c in s ==> c in " \t\n\r\U{B}\U{C}" }

  predicate Surrounds(s: string, left: string, core: string, right: string) {
    s == left + core + right && Blank(left) && Blank(right)
  }

  /** What is left without the blanks at either end. */
  ghost predicate IsCore(s: string, core: string) {
    && (exists left, right :: Surrounds(s, left, core, right))
    && (core != "" ==> !Blank([core[0]]) && !Blank([core[|core| - 1]]))
  }

  /** The same letter, in either case. */
  predicate SameLetter(x: char, y: char) {
    x == y || ('A' <= x <= 'Z' && y as int == x as int + 32) || ('A' <= y <= 'Z' && x as int == y as int + 32)
  }

  /** The same text, but for blanks at the ends and letter case. */
  ghost predicate SameAddress(a: string, b: string) {
    exists x, y :: IsCore(a, x) && IsCore(b, y) && SameLetters(x, y)
  }

  predicate SameLetters(x: string, y: string) {
    |x| == |y| && forall k :: 0 <= k < |x| ==> SameLetter(x[k], y[k])
  }

  lemma {:induction false} TrimLeftDrops(left: string, rest: string)
    requires Blank(left)
    ensures TrimLeft(left + rest) == TrimLeft(rest)
  {
    if left == "" {
      assert left + rest == rest;
    } else {
      assert (left + rest)[1..] == left[1..] + rest;
      assert left[0] in left;
      TrimLeftDrops(left[1..], rest);
    }
  }

  lemma {:induction false} TrimRightDrops(rest: string, right: string)
    requires Blank(right)
    ensures TrimRight(rest + right) == TrimRight(rest)
  {
    if right == "" {
      assert rest + right == rest;
    } else {
      var n := |right| - 1;
      assert (rest + right)[..|rest + right| - 1] == rest + right[..n];
      assert right[n] in right;
      TrimRightDrops(rest, right[..n]);
    }
  }

  lemma {:induction false} TrimLeftSplits(s: string) returns (left: string)
    ensures s == left + TrimLeft(s) && Blank(left)
    ensures TrimLeft(s) != "" ==> !Blank([TrimLeft(s)[0]])
  {
    left := "";
    if s != "" && IsSpace(s[0]) {
      left := TrimLeftSplits(s[1..]);
      left := [s[0]] + left;
    } else if s != "" {
      assert s[0] in [s[0]];
    }
  }

  lemma {:induction false} TrimRightSplits(s: string) returns (right: string)
    ensures s == TrimRight(s) + right && Blank(right)
    ensures TrimRight(s) != "" ==> !Blank([TrimRight(s)[|TrimRight(s)| - 1]])
  {
    right := "";
    if s != "" {
      var n := |s| - 1;
      if IsSpace(s[n]) {
        right := TrimRightSplits(s[..n]);
        right := right + [s[n]];
      } else {
        assert s[n] in [s[n]];
      }
    }
  }

  /** Trimming finds the one core. */
  lemma CoreIsTrimmed(s: string, core: string)
    ensures IsCore(s, core) <==> core == TrimRight(TrimLeft(s))
  {
    var left := TrimLeftSplits(s);
    var right := TrimRightSplits(TrimLeft(s));
    var trimmed := TrimRight(TrimLeft(s));
    assert Surrounds(s, left, trimmed, right);
    if trimmed != "" { assert trimmed[0] == TrimLeft(s)[0]; }
    assert IsCore(s, trimmed);
    if IsCore(s, core) { CoreIsUnique(s, core); }
  }

  lemma CoreIsUnique(s: string, core: string)
    requires IsCore(s, core)
    ensures core == TrimRight(TrimLeft(s))
  {
    var left, right :| Surrounds(s, left, core, right);
    assert s == left + (core + right);
    TrimLeftDrops(left, core + right);
    if core == "" {
      assert core + right == right && right == right + "";
      TrimLeftDrops(right, "");
    } else {
      assert core[0] in [core[0]] && !IsSpace(core[0]);
      assert TrimLeft(core + right) == core + right;
      TrimRightDrops(core, right);
      assert core[|core| - 1] in [core[|core| - 1]] && !IsSpace(core[|core| - 1]);
    }
  }

  /** Two addresses have the same normal form exactly if they are the same text, but for blanks at the
      ends and letter case. */
  lemma NormalizeForgets(a: string, b: string)
    ensures Normalize(a) == Normalize(b) <==> SameAddress(a, b)
  {
    var x, y := TrimRight(TrimLeft(a)), TrimRight(TrimLeft(b));
    CoreIsTrimmed(a, x);
    CoreIsTrimmed(b, y);
    LowerForgets(x, y);
    if SameAddress(a, b) {
      var p, q :| IsCore(a, p) && IsCore(b, q) && SameLetters(p, q);
      CoreIsTrimmed(a, p);
      CoreIsTrimmed(b, q);
    }
  }

  lemma LowerForgets(x: string, y: string)
    ensures Lower(x) == Lower(y) <==> SameLetters(x, y)
  {
    if Lower(x) == Lower(y) {
      assert |x| == |Lower(x)| && |y| == |Lower(y)|;
      forall k | 0 <= k < |x| ensures SameLetter(x[k], y[k]) {
        assert Lower(x)[k] == LowerChar(x[k]) && Lower(y)[k] == LowerChar(y[k]);
      }
    }
  }
}
