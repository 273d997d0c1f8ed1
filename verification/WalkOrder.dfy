/** The order of the files a parallel walk finds (crates/senpi-grep/src/walk.rs:11-16 and 104-110). */
module WalkOrder {
  /** `path` is the canonical identity, `display` the bytes of the path shown. */
  datatype Candidate = Candidate(path: string, display: seq<nat>)

  /** Bytes in lexicographic order. */
  predicate AtMost(a: seq<nat>, b: seq<nat>) {
    if a == [] then true
    else if b == [] then false
    else if a[0] == b[0] then AtMost(a[1..], b[1..])
    else a[0] < b[0]
  }

  /** One display is at most another when it is a prefix of it, or has the smaller byte where they first differ. */
  lemma {:induction false} FirstDifferenceDecides(a: seq<nat>, b: seq<nat>)
    ensures AtMost(a, b) <==>
      a <= b
        || exists k: nat :: k < |a| && k < |b| && a[..k] == b[..k] && a[k] < b[k]
    decreases |a|
  {
    if a != [] && b != [] {
      if a[0] == b[0] {
        FirstDifferenceDecides(a[1..], b[1..]);
        assert a == [a[0]] + a[1..] && b == [b[0]] + b[1..];
        forall k: nat | k < |a| && k < |b|
          ensures k > 0 ==> (a[..k] == b[..k] <==> a[1..][..k - 1] == b[1..][..k - 1])
        {
          if k > 0 {
            assert a[..k] == [a[0]] + a[1..][..k - 1] && b[..k] == [b[0]] + b[1..][..k - 1];
          }
        }
        forall k: nat | k < |a[1..]| && k < |b[1..]| && a[1..][..k] == b[1..][..k] && a[1..][k] < b[1..][k]
          ensures a[..k + 1] == b[..k + 1] && a[k + 1] < b[k + 1]
        {}
      } else {
        assert a[..0] == b[..0];
        forall k: nat | 0 < k < |a| && k < |b|
          ensures a[..k] != b[..k]
        {
          assert a[..k][0] == a[0] && b[..k][0] == b[0];
        }
      }
    }
  }

  lemma {:induction false} AtMostIsTotalOrder(a: seq<nat>, b: seq<nat>, c: seq<nat>)
    ensures AtMost(a, a) && (AtMost(a, b) || AtMost(b, a))
    ensures AtMost(a, b) && AtMost(b, a) ==> a == b
    ensures AtMost(a, b) && AtMost(b, c) ==> AtMost(a, c)
    decreases |a| + |b| + |c|
  {
    var tail := (s: seq<nat>) => if s == [] then s else s[1..];
    if a != [] {
      AtMostIsTotalOrder(a[1..], tail(b), tail(c));
      if b != [] && a[0] == b[0] {
        assert a == [a[0]] + a[1..] && b == [b[0]] + b[1..];
      }
    }
  }

  // ---------------------------------------------------------------- the sort, then the filter

  /** Puts a candidate before the first that is not smaller, so candidates shown alike keep their order. */
  function Insert(c: Candidate, sorted: seq<Candidate>): seq<Candidate> {
    if sorted == [] || AtMost(c.display, sorted[0].display) then [c] + sorted
    else [sorted[0]] + Insert(c, sorted[1..])
  }

  /** `sort_by` is a stable sort. */
  function StableSort(files: seq<Candidate>): seq<Candidate> {
    if files == [] then [] else Insert(files[0], StableSort(files[1..]))
  }

  /** Keeps the first candidate of each path not seen yet. */
  function Retain(files: seq<Candidate>, seen: set<string>): seq<Candidate>
    decreases |files|
  {
    if files == [] then []
    else if files[0].path in seen then Retain(files[1..], seen)
    else [files[0]] + Retain(files[1..], seen + {files[0].path})
  }

  function Ordered(files: seq<Candidate>): seq<Candidate> {
    Retain(StableSort(files), {})
  }

  method OrderCandidates(files: seq<Candidate>) returns (ordered: seq<Candidate>)
    ensures ordered == Ordered(files)
  {
    var sorted := StableSort(files);
    var seen: set<string> := {};
    ordered := [];
    for i := 0 to |sorted|
      invariant ordered + Retain(sorted[i..], seen) == Retain(sorted, {})
    {
      var file := sorted[i];
      assert sorted[i..][1..] == sorted[i + 1..];
      if file.path !in seen {
        assert ordered + ([file] + Retain(sorted[i + 1..], seen + {file.path}))
            == ordered + [file] + Retain(sorted[i + 1..], seen + {file.path});
        seen := seen + {file.path};
        ordered := ordered + [file];
      }
    }
    assert ordered + [] == ordered;
  }

  // ---------------------------------------------------------------- what comes out

  ghost predicate Sorted(files: seq<Candidate>) {
    forall i, j :: 0 <= i < j < |files| ==> AtMost(files[i].display, files[j].display)
  }

  /** A candidate shown by the smallest display of its path. */
  ghost predicate Smallest(files: seq<Candidate>, c: Candidate) {
    c in files && forall d :: d in files && d.path == c.path ==> AtMost(c.display, d.display)
  }

  lemma {:induction false} InsertSorts(c: Candidate, sorted: seq<Candidate>)
    requires Sorted(sorted)
    ensures Sorted(Insert(c, sorted))
    ensures forall d :: d in Insert(c, sorted) <==> d == c || d in sorted
    decreases |sorted|
  {
    if sorted == [] {
    } else if AtMost(c.display, sorted[0].display) {
      forall j | 0 <= j < |sorted|
        ensures AtMost(c.display, sorted[j].display)
      {
        AtMostIsTotalOrder(c.display, sorted[0].display, sorted[j].display);
      }
    } else {
      InsertSorts(c, sorted[1..]);
      AtMostIsTotalOrder(sorted[0].display, c.display, c.display);
      var rest := Insert(c, sorted[1..]);
      forall j | 0 <= j < |rest|
        ensures AtMost(sorted[0].display, rest[j].display)
      {
        assert rest[j] in rest;
      }
    }
  }

  lemma {:induction false} StableSortSorts(files: seq<Candidate>)
    ensures Sorted(StableSort(files))
    ensures forall c :: c in StableSort(files) <==> c in files
    decreases |files|
  {
    if files != [] {
      StableSortSorts(files[1..]);
      InsertSorts(files[0], StableSort(files[1..]));
    }
  }

  ghost predicate OnePerPath(files: seq<Candidate>) {
    forall i, j :: 0 <= i < j < |files| ==> files[i].path != files[j].path
  }

  lemma {:induction false} RetainKeepsFirsts(files: seq<Candidate>, seen: set<string>)
    requires Sorted(files)
    ensures var kept := Retain(files, seen);
      && Sorted(kept) && OnePerPath(kept)
      && forall c :: c in kept <==> Smallest(files, c) && c.path !in seen
    decreases |files|
  {
    if files != [] {
      var first, rest := files[0], files[1..];
      assert files == [first] + rest;
      var seen' := if first.path in seen then seen else seen + {first.path};
      RetainKeepsFirsts(rest, seen');
      forall c
        ensures c in Retain(files, seen) <==> Smallest(files, c) && c.path !in seen
      {
        KeptBy(files, seen, c);
      }
      var kept := Retain(rest, seen');
      assert forall c :: c in kept ==> c in rest && c.path !in seen';
      assert Retain(files, seen) == if first.path in seen then kept else [first] + kept;
      hide Retain, Smallest, Sorted;
      if first.path !in seen { FirstOfSorted(first, rest, kept); }
    }
  }

  lemma FirstOfSorted(first: Candidate, rest: seq<Candidate>, kept: seq<Candidate>)
    requires Sorted([first] + rest) && Sorted(kept) && OnePerPath(kept)
    requires forall c :: c in kept ==> c in rest && c.path != first.path
    ensures Sorted([first] + kept) && OnePerPath([first] + kept)
  {
    forall j | 0 <= j < |kept|
      ensures AtMost(first.display, kept[j].display)
    {
      assert kept[j] in rest;
      var k :| 0 <= k < |rest| && rest[k] == kept[j];
      assert AtMost(([first] + rest)[0].display, ([first] + rest)[k + 1].display);
    }
  }

  lemma KeptBy(files: seq<Candidate>, seen: set<string>, c: Candidate)
    requires Sorted(files) && files != []
    requires var seen' := if files[0].path in seen then seen else seen + {files[0].path};
      c in Retain(files[1..], seen') <==> Smallest(files[1..], c) && c.path !in seen'
    ensures c in Retain(files, seen) <==> Smallest(files, c) && c.path !in seen
  {
    var first, rest := files[0], files[1..];
    assert forall d :: d in files <==> d == first || d in rest;
    forall d | d in rest
      ensures AtMost(first.display, d.display)
    {}
    if c in files && c.path == first.path {
      AtMostIsTotalOrder(c.display, first.display, first.display);
    }
  }

  lemma {:induction false} SmallestOf(files: seq<Candidate>, c: Candidate) returns (d: Candidate)
    requires c in files
    ensures Smallest(files, d) && d.path == c.path
    decreases |files|
  {
    var first, rest := files[0], files[1..];
    assert forall e :: e in files <==> e == first || e in rest;
    if e :| e in rest && e.path == c.path {
      d := SmallestOf(rest, e);
      AtMostIsTotalOrder(d.display, first.display, d.display);
      if first.path == c.path && AtMost(first.display, d.display) {
        forall e | e in rest && e.path == c.path
          ensures AtMost(first.display, e.display)
        {
          AtMostIsTotalOrder(first.display, d.display, e.display);
        }
        AtMostIsTotalOrder(first.display, d.display, first.display);
        d := first;
      }
    } else {
      AtMostIsTotalOrder(first.display, first.display, first.display);
      d := first;
    }
  }

  /** The result: sorted by display, one entry per canonical path, each with its smallest display, and no path missing. */
  lemma {:induction false} OrderedIsSmallestPerPath(files: seq<Candidate>, c: Candidate)
    ensures var ordered := Ordered(files);
      && Sorted(ordered) && OnePerPath(ordered)
      && (c in ordered <==> Smallest(files, c))
      && (c in files ==> exists d :: d in ordered && d.path == c.path)
  {
    StableSortSorts(files);
    RetainKeepsFirsts(StableSort(files), {});
    hide StableSort, Retain, Sorted, OnePerPath;
    assert forall d :: Smallest(files, d) <==> Smallest(StableSort(files), d);
    if c in files {
      var d := SmallestOf(files, c);
      assert d in Retain(StableSort(files), {});
    }
  }

  // ---------------------------------------------------------------- independence of the visit order

  /** No two candidates of different paths, each the smallest of its path, are shown alike. */
  ghost predicate NoTies(files: seq<Candidate>) {
    forall c, d :: Smallest(files, c) && Smallest(files, d) && c.display == d.display ==> c.path == d.path
  }

  lemma SameEmptiness(a: seq<Candidate>, b: seq<Candidate>)
    requires forall c :: c in a ==> c in b
    ensures a != [] ==> b != []
  {
    if a != [] { assert a[0] in b; }
  }

  /** Sorted lists of the same candidates, no two of them shown alike, are the same list. */
  lemma {:induction false} SortedIsUnique(a: seq<Candidate>, b: seq<Candidate>)
    requires Sorted(a) && Sorted(b) && OnePerPath(a) && OnePerPath(b)
    requires forall c :: c in a <==> c in b
    requires forall c, d :: c in a && d in a && c.display == d.display ==> c == d
    ensures a == b
    decreases |a|
  {
    SameEmptiness(a, b);
    SameEmptiness(b, a);
    if a != [] {
      assert a[0] in b && b[0] in a;
      AtMostIsTotalOrder(a[0].display, b[0].display, a[0].display);
      assert AtMost(a[0].display, b[0].display) && AtMost(b[0].display, a[0].display);
      assert a[0] == b[0];
      forall c
        ensures c in a[1..] <==> c in b[1..]
      {
        if c in a[1..] { assert c in b && c != b[0]; }
        if c in b[1..] { assert c in a && c != a[0]; }
      }
      SortedIsUnique(a[1..], b[1..]);
      assert a == [a[0]] + a[1..] && b == [b[0]] + b[1..];
    }
  }

  /**
   * Whatever order, and however often, the candidates are visited, the result is the same, unless two different files
   * would be shown alike.
   */
  lemma {:induction false} VisitOrderDoesNotMatter(a: seq<Candidate>, b: seq<Candidate>)
    requires NoTies(a) && forall c :: c in a <==> c in b
    ensures Ordered(a) == Ordered(b)
  {
    var x, y := Retain(StableSort(a), {}), Retain(StableSort(b), {});
    forall c
      ensures (c in x <==> Smallest(a, c)) && (c in y <==> Smallest(a, c))
    {
      OrderedIsSmallestPerPath(a, c);
      OrderedIsSmallestPerPath(b, c);
    }
    StableSortSorts(a);
    StableSortSorts(b);
    RetainKeepsFirsts(StableSort(a), {});
    RetainKeepsFirsts(StableSort(b), {});
    hide StableSort, Retain, Smallest;
    forall c, d | c in x && d in x && c.display == d.display
      ensures c == d
    {
      assert Smallest(a, c) && Smallest(a, d);
    }
    SortedIsUnique(x, y);
  }

  lemma DisplayDeterminesPath(files: seq<Candidate>)
    requires forall c, d :: c in files && d in files && c.display == d.display ==> c.path == d.path
    ensures NoTies(files)
  {}

  // ---------------------------------------------------------------- the exception

  /** The candidates shown as `x`, in order. */
  function ShownAs(files: seq<Candidate>, x: seq<nat>): seq<Candidate> {
    if files == [] then []
    else (if files[0].display == x then [files[0]] else []) + ShownAs(files[1..], x)
  }

  lemma {:induction false} InsertIsStable(c: Candidate, sorted: seq<Candidate>, x: seq<nat>)
    ensures ShownAs(Insert(c, sorted), x) == (if c.display == x then [c] else []) + ShownAs(sorted, x)
    decreases |sorted|
  {
    if sorted == [] || AtMost(c.display, sorted[0].display) {
      assert ([c] + sorted)[1..] == sorted;
    } else {
      var rest := Insert(c, sorted[1..]);
      assert ([sorted[0]] + rest)[1..] == rest;
      InsertIsStable(c, sorted[1..], x);
      AtMostIsTotalOrder(c.display, c.display, c.display);
    }
  }

  lemma {:induction false} StableSortIsStable(files: seq<Candidate>, x: seq<nat>)
    ensures ShownAs(StableSort(files), x) == ShownAs(files, x)
    decreases |files|
  {
    if files != [] {
      StableSortIsStable(files[1..], x);
      InsertIsStable(files[0], StableSort(files[1..]), x);
    }
  }

  /** The first candidate shown as `x` stays the first, if it is the smallest of its path. */
  lemma {:induction false} RetainKeepsFirstShown(files: seq<Candidate>, seen: set<string>, x: seq<nat>, c: Candidate)
    requires Sorted(files) && ShownAs(files, x) != [] && ShownAs(files, x)[0] == c
    requires Smallest(files, c) && c.path !in seen && c.display == x
    ensures ShownAs(Retain(files, seen), x) != [] && ShownAs(Retain(files, seen), x)[0] == c
    decreases |files|
  {
    var first, rest := files[0], files[1..];
    assert files == [first] + rest;
    if first.display == x {
      assert Retain(files, seen)[0] == c;
    } else {
      assert forall e :: e in files <==> e == first || e in rest;
      AtMostIsTotalOrder(first.display, x, first.display);
      assert c in rest;
      var seen' := if first.path in seen then seen else seen + {first.path};
      RetainKeepsFirstShown(rest, seen', x, c);
      assert ([first] + Retain(rest, seen'))[1..] == Retain(rest, seen');
    }
  }

  lemma FirstShownFirst(c: Candidate, files: seq<Candidate>)
    requires files != [] && files[0] == c && Smallest(files, c)
    ensures var ordered := Ordered(files);
      ShownAs(ordered, c.display) != [] && ShownAs(ordered, c.display)[0] == c
  {
    StableSortSorts(files);
    StableSortIsStable(files, c.display);
    RetainKeepsFirstShown(StableSort(files), {}, c.display, c);
  }

  /** The exception is exactly that: two such files come out in the order in which they were visited. */
  lemma {:induction false} TiesDependOnVisitOrder(c: Candidate, d: Candidate, rest: seq<Candidate>)
    requires Smallest([c, d] + rest, c) && Smallest([c, d] + rest, d) && c.display == d.display && c.path != d.path
    ensures Ordered([c, d] + rest) != Ordered([d, c] + rest)
  {
    assert forall e :: e in [d, c] + rest <==> e in [c, d] + rest;
    FirstShownFirst(c, [c, d] + rest);
    FirstShownFirst(d, [d, c] + rest);
  }

  lemma TakeOut(files: seq<Candidate>, c: Candidate) returns (rest: seq<Candidate>)
    requires c in files
    ensures multiset(files) == multiset([c] + rest)
    ensures forall e :: e in files <==> e == c || e in rest
  {
    var i :| 0 <= i < |files| && files[i] == c;
    rest := files[..i] + files[i + 1..];
    assert files == files[..i] + [c] + files[i + 1..];
  }

  /** The result is the same for every order of visiting if and only if no two different files would be shown alike. */
  lemma {:induction false} ResultIsUniqueIffNoTies(files: seq<Candidate>)
    ensures NoTies(files) <==> forall other :: multiset(other) == multiset(files) ==> Ordered(other) == Ordered(files)
  {
    if NoTies(files) {
      forall other | multiset(other) == multiset(files)
        ensures Ordered(other) == Ordered(files)
      {
        assert forall c :: c in other <==> c in multiset(other);
        assert forall c :: c in files <==> c in multiset(files);
        VisitOrderDoesNotMatter(files, other);
      }
    } else {
      var c, d :| Smallest(files, c) && Smallest(files, d) && c.display == d.display && c.path != d.path;
      TiedFilesSwap(files, c, d);
    }
  }

  lemma TiedFilesSwap(files: seq<Candidate>, c: Candidate, d: Candidate)
    requires Smallest(files, c) && Smallest(files, d) && c.display == d.display && c.path != d.path
    ensures exists other :: multiset(other) == multiset(files) && Ordered(other) != Ordered(files)
  {
    hide Ordered;
    var some := TakeOut(files, c);
    var rest := TakeOut(some, d);
    var first, second := [c, d] + rest, [d, c] + rest;
    assert first == [c] + ([d] + rest);
    assert multiset(first) == multiset(files) && multiset(second) == multiset(files);
    SmallestOfSame(files, first, c);
    SmallestOfSame(files, first, d);
    TiesDependOnVisitOrder(c, d, rest);
    assert Ordered(first) != Ordered(files) || Ordered(second) != Ordered(files);
  }

  lemma SmallestOfSame(a: seq<Candidate>, b: seq<Candidate>, c: Candidate)
    requires multiset(a) == multiset(b) && Smallest(a, c)
    ensures Smallest(b, c)
  {
    assert forall e :: e in b ==> e in multiset(b);
    assert c in multiset(a);
  }
}
