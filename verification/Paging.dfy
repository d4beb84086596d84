/** Token-paged listings. The platform cuts a listing into pages and hands out the token of the
    next page; an empty token ends it. A lookup walks the pages. */
module Paging {

  datatype Option<+T> = None | Some(value: T)

  datatype Page<T> = Page(token: string, items: seq<T>)

  function Concat<T>(pages: seq<Page<T>>): seq<T> {
    if pages == [] then [] else pages[0].items + Concat(pages[1..])
  }

  lemma {:induction false} ConcatSnoc<T>(pages: seq<Page<T>>, i: nat)
    requires i < |pages|
    ensures Concat(pages[..i + 1]) == Concat(pages[..i]) + pages[i].items
  {
    if i == 0 {
      assert pages[..1] == [pages[0]];
      assert Concat(pages[..1]) == pages[0].items + Concat<T>([]);
    } else {
      ConcatSnoc(pages[1..], i - 1);
      assert pages[..i + 1][1..] == pages[1..][..i] && pages[..i][1..] == pages[1..][..i - 1];
    }
  }

  lemma {:induction false} ConcatSplit<T>(pages: seq<Page<T>>, i: nat)
    requires i <= |pages|
    ensures Concat(pages) == Concat(pages[..i]) + Concat(pages[i..])
  {
    if i == 0 {
      assert pages[0..] == pages;
    } else {
      ConcatSplit(pages[1..], i - 1);
      assert pages[..i][1..] == pages[1..][..i - 1] && pages[i..] == pages[1..][i - 1..];
    }
  }

  function FirstOf<T>(items: seq<T>, wanted: T -> bool): Option<T> {
    if items == [] then None else if wanted(items[0]) then Some(items[0]) else FirstOf(items[1..], wanted)
  }

  /** The first item that is wanted, if any is. */
  ghost predicate IsFirst<T>(items: seq<T>, wanted: T -> bool, found: Option<T>) {
    if found.None? then forall i :: 0 <= i < |items| ==> !wanted(items[i])
    else exists i :: 0 <= i < |items| && items[i] == found.value && wanted(items[i]) &&
                     forall j :: 0 <= j < i ==> !wanted(items[j])
  }

  lemma {:induction false} FirstOfIsFirst<T>(items: seq<T>, wanted: T -> bool)
    ensures IsFirst(items, wanted, FirstOf(items, wanted))
  {
    if items != [] && !wanted(items[0]) {
      FirstOfIsFirst(items[1..], wanted);
      var found := FirstOf(items[1..], wanted);
      if found.Some? {
        var i :| 0 <= i < |items[1..]| && items[1..][i] == found.value && wanted(items[1..][i]) &&
                 forall j :: 0 <= j < i ==> !wanted(items[1..][j]);
        assert items[i + 1] == found.value;
        forall j | 0 <= j < i + 1 ensures !wanted(items[j]) { if j > 0 { assert items[j] == items[1..][j - 1]; } }
      } else {
        forall i | 0 <= i < |items| ensures !wanted(items[i]) { if i > 0 { assert items[i] == items[1..][i - 1]; } }
      }
    }
  }

  lemma {:induction false} FirstOfConcat<T>(a: seq<T>, b: seq<T>, wanted: T -> bool)
    ensures FirstOf(a + b, wanted) == if FirstOf(a, wanted).Some? then FirstOf(a, wanted) else FirstOf(b, wanted)
  {
    if a == [] {
      assert a + b == b;
    } else {
      FirstOfConcat(a[1..], b, wanted);
      assert (a + b)[1..] == a[1..] + b;
    }
  }

  function Filter<T>(items: seq<T>, wanted: T -> bool): seq<T> {
    if items == [] then []
    else if wanted(items[0]) then [items[0]] + Filter(items[1..], wanted)
    else Filter(items[1..], wanted)
  }

  lemma {:induction false} FilterConcat<T>(a: seq<T>, b: seq<T>, wanted: T -> bool)
    ensures Filter(a + b, wanted) == Filter(a, wanted) + Filter(b, wanted)
  {
    if a == [] {
      assert a + b == b;
    } else {
      FilterConcat(a[1..], b, wanted);
      assert (a + b)[1..] == a[1..] + b;
    }
  }

  /** A stable listing as the platform serves it during one lookup. `broken` are the tokens whose
      request fails; a lookup asks for each page at most once, so this covers every pattern of
      failures. */
  class Listing<T> {
    const pages: seq<Page<T>>
    const broken: set<string>

    constructor (pages: seq<Page<T>>, broken: set<string>)
      requires WellTokened(pages)
      ensures this.pages == pages && this.broken == broken
    {
      this.pages, this.broken := pages, broken;
    }

    /** One List request. */
    method List(token: string) returns (failed: bool, items: seq<T>, next: string)
      requires WellTokened(pages) && exists i :: 0 <= i < |pages| && pages[i].token == token
      ensures failed <==> token in broken
      ensures forall i :: 0 <= i < |pages| && pages[i].token == token ==>
                items == pages[i].items && next == NextToken(i)
    {
      failed := token in broken;
      var i := 0;
      while pages[i].token != token
        invariant 0 <= i < |pages|
        invariant forall j :: 0 <= j < i ==> pages[j].token != token
        decreases |pages| - i
      {
        i := i + 1;
      }
      items, next := pages[i].items, NextToken(i);
    }

    function NextToken(i: nat): string {
      if i + 1 < |pages| then pages[i + 1].token else ""
    }

    /** Some page is reached and its request fails: no earlier page fails or holds a match. */
    ghost predicate Breaks(wanted: T -> bool) {
      exists i :: 0 <= i < |pages| && pages[i].token in broken && FirstOf(Concat(pages[..i]), wanted).None?
    }

    /** findBySlug and both findByName: the first match, page by page. The lookup fails exactly when
        a request fails before a match; otherwise it agrees with a search of the whole list. */
    method FindFirst(wanted: T -> bool) returns (failed: bool, found: Option<T>)
      requires WellTokened(pages)
      ensures failed <==> Breaks(wanted)
      ensures !failed ==> found == FirstOf(Concat(pages), wanted) && IsFirst(Concat(pages), wanted, found)
    {
      FirstOfIsFirst(Concat(pages), wanted);
      var token := "";
      ghost var i := 0;
      found := None;
      while true
        invariant 0 <= i < |pages| && pages[i].token == token
        invariant FirstOf(Concat(pages[..i]), wanted).None? && found == None
        invariant forall j :: 0 <= j < i ==> pages[j].token !in broken
        decreases |pages| - i
      {
        var down, items, next := List(token);
        assert pages[i].token == token && items == pages[i].items;
        assert next == NextToken(i);
        if down {
          return true, None;
        }
        found := Scan(items, wanted);
        ConcatSnoc(pages, i);
        FirstOfConcat(Concat(pages[..i]), items, wanted);
        if found.Some? {
          NoLaterBreak(wanted, i);
          ConcatSplit(pages, i + 1);
          FirstOfConcat(Concat(pages[..i + 1]), Concat(pages[i + 1..]), wanted);
          return false, found;
        }
        token := next;
        if token == "" {
          assert i + 1 == |pages| && pages[..i + 1] == pages;
          return false, None;
        }
        i := i + 1;
      }
    }

    /** The page loop of findByAddress: every match, page by page. It fails exactly when some page
        fails, and otherwise agrees with a filter of the whole list. */
    method FindAll(wanted: T -> bool) returns (failed: bool, found: seq<T>)
      requires WellTokened(pages)
      ensures failed <==> exists i :: 0 <= i < |pages| && pages[i].token in broken
      ensures !failed ==> found == Filter(Concat(pages), wanted)
    {
      var token := "";
      ghost var i := 0;
      found := [];
      while true
        invariant 0 <= i < |pages| && pages[i].token == token
        invariant found == Filter(Concat(pages[..i]), wanted)
        invariant forall j :: 0 <= j < i ==> pages[j].token !in broken
        decreases |pages| - i
      {
        var down, items, next := List(token);
        assert pages[i].token == token && items == pages[i].items;
        assert next == NextToken(i);
        if down {
          return true, [];
        }
        ConcatSnoc(pages, i);
        FilterConcat(Concat(pages[..i]), items, wanted);
        var matching := Sift(items, wanted);
        found := found + matching;
        token := next;
        if token == "" {
          assert i + 1 == |pages| && pages[..i + 1] == pages;
          return false, found;
        }
        i := i + 1;
      }
    }

    lemma NoLaterBreak(wanted: T -> bool, i: nat)
      requires i < |pages| && FirstOf(Concat(pages[..i + 1]), wanted).Some?
      requires forall j :: 0 <= j <= i ==> pages[j].token !in broken
      ensures !Breaks(wanted)
    {
      forall k | i < k < |pages| ensures FirstOf(Concat(pages[..k]), wanted).Some? {
        ConcatSplit(pages[..k], i + 1);
        assert pages[..k][..i + 1] == pages[..i + 1];
        FirstOfConcat(Concat(pages[..i + 1]), Concat(pages[..k][i + 1..]), wanted);
      }
    }
  }

  /** The first page is asked for with the empty token; every later one has its own. */
  predicate WellTokened<T>(pages: seq<Page<T>>) {
    && |pages| > 0 && pages[0].token == ""
    && (forall i :: 0 < i < |pages| ==> pages[i].token != "")
    && (forall i, j :: 0 <= i < j < |pages| ==> pages[i].token != pages[j].token)
  }

  method Scan<T>(items: seq<T>, wanted: T -> bool) returns (found: Option<T>)
    ensures found == FirstOf(items, wanted)
  {
    for i := 0 to |items|
      invariant FirstOf(items[..i], wanted).None?
    {
      assert items[..i + 1] == items[..i] + [items[i]];
      FirstOfConcat(items[..i], [items[i]], wanted);
      if wanted(items[i]) {
        assert items == items[..i + 1] + items[i + 1..];
        FirstOfConcat(items[..i + 1], items[i + 1..], wanted);
        return Some(items[i]);
      }
    }
    assert items[..|items|] == items;
    return None;
  }

  method Sift<T>(items: seq<T>, wanted: T -> bool) returns (found: seq<T>)
    ensures found == Filter(items, wanted)
  {
    found := [];
    for i := 0 to |items|
      invariant found == Filter(items[..i], wanted)
    {
      assert items[..i + 1] == items[..i] + [items[i]];
      FilterConcat(items[..i], [items[i]], wanted);
      if wanted(items[i]) {
        found := found + [items[i]];
      }
    }
    assert items[..|items|] == items;
  }
}
