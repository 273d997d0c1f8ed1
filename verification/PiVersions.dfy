/** The order of Pi versions (scripts/model-catalog-protocol.ts:221-260). */
module PiVersions {
  import opened Text

  const MAX_SAFE_INTEGER: nat := 0x1F_FFFF_FFFF_FFFF

  /** A parsed version; an empty `prerelease` is none. */
  datatype Version = Version(major: nat, minor: nat, patch: nat, prerelease: string)

  /** What the runtime does: the number nearest to a decimal, and the comparison of two strings in its locale. */
  datatype Runtime = Runtime(number: nat -> int, localeCompare: (string, string) -> int)

  /** Safe integers are represented exactly, and the locale's order is a total order. */
  ghost predicate Sound(run: Runtime) {
    && (forall n :: 0 <= n <= MAX_SAFE_INTEGER ==> run.number(n) == n)
    && (forall a, b :: run.localeCompare(a, b) == 0 <==> a == b)
    && (forall a, b :: run.localeCompare(a, b) < 0 <==> run.localeCompare(b, a) > 0)
    && (forall a, b, c :: run.localeCompare(a, b) < 0 && run.localeCompare(b, c) < 0 ==> run.localeCompare(a, c) < 0)
  }

  predicate IsDigit(c: char) {
    '0' <= c <= '9'
  }

  predicate AllDigits(s: string) {
    forall i :: 0 <= i < |s| ==> IsDigit(s[i])
  }

  predicate IsNumeric(part: string) {
    part != "" && AllDigits(part)
  }

  function Decimal(s: string): nat
    requires AllDigits(s)
  {
    if s == [] then 0 else Decimal(s[..|s| - 1]) * 10 + (s[|s| - 1] as int - '0' as int)
  }

  // ---------------------------------------------------------------- precedence

  /** Section 11 of SemVer 2.0.0: numbers by value, numbers before words, words in the locale's order. */
  predicate PartBefore(p: string, q: string, run: Runtime) {
    if IsNumeric(p) && IsNumeric(q) then run.number(Decimal(p)) < run.number(Decimal(q))
    else if IsNumeric(p) then true
    else if IsNumeric(q) then false
    else run.localeCompare(p, q) < 0
  }

  /** The first identifier that differs decides; of two lists, one a beginning of the other, the shorter comes first. */
  predicate PartsBefore(p: seq<string>, q: seq<string>, run: Runtime)
    decreases |p|
  {
    if q == [] then false
    else if p == [] then true
    else if p[0] == q[0] then PartsBefore(p[1..], q[1..], run)
    else PartBefore(p[0], q[0], run)
  }

  /** A version with a prerelease comes before the one without. */
  predicate PrereleaseBefore(p: string, q: string, run: Runtime) {
    if p == "" then false
    else if q == "" then true
    else PartsBefore(Split(p, '.'), Split(q, '.'), run)
  }

  function Core(v: Version): seq<nat> {
    [v.major, v.minor, v.patch]
  }

  predicate Precedes(l: Version, r: Version, run: Runtime) {
    || l.major < r.major
    || (l.major == r.major && l.minor < r.minor)
    || (l.major == r.major && l.minor == r.minor && l.patch < r.patch)
    || (Core(l) == Core(r) && PrereleaseBefore(l.prerelease, r.prerelease, run))
  }

  // ---------------------------------------------------------------- the comparison

  method CompareParts(p: string, q: string, run: Runtime) returns (r: int)
    requires Sound(run) && p != q
    ensures r < 0 <==> PartBefore(p, q, run)
    ensures r > 0 <==> PartBefore(q, p, run)
  {
    var leftNumeric, rightNumeric := IsNumeric(p), IsNumeric(q);
    if leftNumeric && rightNumeric {
      return run.number(Decimal(p)) - run.number(Decimal(q));
    }
    if leftNumeric {
      return -1;
    }
    if rightNumeric {
      return 1;
    }
    r := run.localeCompare(p, q);
  }

  method ComparePiVersions(left: Version, right: Version, run: Runtime) returns (r: int)
    requires Sound(run)
    ensures r < 0 <==> Precedes(left, right, run)
    ensures r > 0 <==> Precedes(right, left, run)
  {
    for i := 0 to 3
      invariant Core(left)[..i] == Core(right)[..i]
    {
      var difference: int := Core(left)[i] as int - Core(right)[i];
      if difference != 0 {
        assert Core(left)[0] == Core(right)[0] || i == 0;
        assert Core(left)[1] == Core(right)[1] || i <= 1;
        return difference;
      }
    }
    assert Core(left) == Core(right);
    var leftParts, rightParts := Split(left.prerelease, '.'), Split(right.prerelease, '.');
    if left.prerelease == right.prerelease {
      NeverBeforeItself(leftParts, run);
      return 0;
    }
    if left.prerelease == "" {
      return 1;
    }
    if right.prerelease == "" {
      return -1;
    }
    var i := 0;
    while i < |leftParts| || i < |rightParts|
      invariant 0 <= i <= |leftParts| && i <= |rightParts|
      invariant PartsBefore(leftParts, rightParts, run) == PartsBefore(leftParts[i..], rightParts[i..], run)
      invariant PartsBefore(rightParts, leftParts, run) == PartsBefore(rightParts[i..], leftParts[i..], run)
      decreases |leftParts| - i
    {
      if i == |leftParts| {
        return -1;
      }
      if i == |rightParts| {
        return 1;
      }
      if leftParts[i] != rightParts[i] {
        r := CompareParts(leftParts[i], rightParts[i], run);
        return;
      }
      i := i + 1;
    }
    r := 0;
  }

  lemma {:induction false} NeverBeforeItself(p: seq<string>, run: Runtime)
    ensures !PartsBefore(p, p, run)
    decreases |p|
  {
    if p != [] { NeverBeforeItself(p[1..], run); }
  }

  // ---------------------------------------------------------------- it is an order

  lemma PartTransitive(a: string, b: string, c: string, run: Runtime)
    requires Sound(run) && PartBefore(a, b, run) && PartBefore(b, c, run)
    ensures PartBefore(a, c, run) && a != c
  {}

  lemma {:induction false} PartsTransitive(a: seq<string>, b: seq<string>, c: seq<string>, run: Runtime)
    requires Sound(run) && PartsBefore(a, b, run) && PartsBefore(b, c, run)
    ensures PartsBefore(a, c, run)
    decreases |b|
  {
    if a != [] {
      if a[0] == b[0] == c[0] {
        PartsTransitive(a[1..], b[1..], c[1..], run);
      } else if a[0] != b[0] && b[0] != c[0] {
        PartTransitive(a[0], b[0], c[0], run);
      }
    }
  }

  /** Precedence is a strict partial order on all versions, whatever their identifiers. */
  lemma {:induction false} PrecedenceIsTransitive(a: Version, b: Version, c: Version, run: Runtime)
    requires Sound(run) && Precedes(a, b, run) && Precedes(b, c, run)
    ensures Precedes(a, c, run) && !Precedes(b, a, run)
  {
    if Core(a) == Core(b) == Core(c) && c.prerelease != "" {
      PartsTransitive(Split(a.prerelease, '.'), Split(b.prerelease, '.'), Split(c.prerelease, '.'), run);
    }
    if Precedes(b, a, run) {
      if a.prerelease != "" && b.prerelease != "" && Core(a) == Core(b) {
        PartsTransitive(Split(a.prerelease, '.'), Split(b.prerelease, '.'), Split(a.prerelease, '.'), run);
        NeverBeforeItself(Split(a.prerelease, '.'), run);
      }
    }
  }

  // ---------------------------------------------------------------- it is total

  /** Section 9 of SemVer 2.0.0: no leading zeros; and small enough to be exact. */
  predicate CanonicalPart(part: string) {
    IsNumeric(part) ==> (part[0] != '0' || |part| == 1) && Decimal(part) <= MAX_SAFE_INTEGER
  }

  predicate Canonical(v: Version) {
    forall i :: 0 <= i < |Split(v.prerelease, '.')| ==> CanonicalPart(Split(v.prerelease, '.')[i])
  }

  lemma {:induction false} LeadingDigitCounts(s: string)
    requires IsNumeric(s) && s[0] != '0'
    ensures Decimal(s) >= 1
    decreases |s|
  {
    if |s| > 1 { LeadingDigitCounts(s[..|s| - 1]); }
  }

  /** Without leading zeros a number is written in one way only. */
  lemma {:induction false} DecimalIsInjective(a: string, b: string)
    requires IsNumeric(a) && IsNumeric(b) && Decimal(a) == Decimal(b)
    requires a[0] != '0' || |a| == 1
    requires b[0] != '0' || |b| == 1
    ensures a == b
    decreases |a|
  {
    var a', b' := a[..|a| - 1], b[..|b| - 1];
    var last, last' := a[|a| - 1], b[|b| - 1];
    LastDigit(Decimal(a'), last as int - '0' as int, Decimal(b'), last' as int - '0' as int);
    hide Decimal;
    assert a == a' + [last] && b == b' + [last'];
    if a' == [] && b' != [] {
      NothingIsZero();
      LeadingDigitCounts(b');
    } else if a' != [] && b' == [] {
      NothingIsZero();
      LeadingDigitCounts(a');
    } else if a' != [] {
      DecimalIsInjective(a', b');
    }
  }

  lemma NothingIsZero()
    ensures Decimal("") == 0
  {}

  /** A number determines its last digit and what stands before it. */
  lemma LastDigit(x: int, d: int, y: int, e: int)
    requires 0 <= d < 10 && 0 <= e < 10 && x * 10 + d == y * 10 + e
    ensures x == y && d == e
  {
    assert 10 * (x - y) == e - d;
  }

  lemma {:induction false} PartsAreTotal(p: seq<string>, q: seq<string>, run: Runtime)
    requires Sound(run) && p != q
    requires (forall i :: 0 <= i < |p| ==> CanonicalPart(p[i])) && (forall i :: 0 <= i < |q| ==> CanonicalPart(q[i]))
    ensures PartsBefore(p, q, run) || PartsBefore(q, p, run)
    decreases |p|
  {
    if p != [] && q != [] {
      if p[0] == q[0] {
        assert p == [p[0]] + p[1..] && q == [q[0]] + q[1..];
        PartsAreTotal(p[1..], q[1..], run);
      } else if IsNumeric(p[0]) && IsNumeric(q[0]) && Decimal(p[0]) == Decimal(q[0]) {
        DecimalIsInjective(p[0], q[0]);
      }
    }
  }

  /** On versions whose numeric identifiers are canonical, exactly one of before, equal and after holds. */
  lemma {:induction false} PrecedenceIsTotal(a: Version, b: Version, run: Runtime)
    requires Sound(run) && Canonical(a) && Canonical(b)
    ensures a == b || Precedes(a, b, run) || Precedes(b, a, run)
    ensures !(Precedes(a, b, run) && Precedes(b, a, run)) && !Precedes(a, a, run)
  {
    var p, q := Split(a.prerelease, '.'), Split(b.prerelease, '.');
    NeverBeforeItself(p, run);
    if Core(a) == Core(b) && a.prerelease != b.prerelease {
      JoinOfSplit(a.prerelease, '.');
      JoinOfSplit(b.prerelease, '.');
      PartsAreTotal(p, q, run);
    }
    if Precedes(a, b, run) && Precedes(b, a, run) { PrecedenceIsTransitive(a, b, a, run); }
    assert Core(a) == Core(b) ==> a.major == b.major && a.minor == b.minor && a.patch == b.patch;
  }

  /** The first identifier in which two prereleases of one core differ, if both still have one there. */
  predicate Collide(p: seq<string>, q: seq<string>, run: Runtime)
    decreases |p|
  {
    if p == [] || q == [] then false
    else if p[0] == q[0] then Collide(p[1..], q[1..], run)
    else IsNumeric(p[0]) && IsNumeric(q[0]) && run.number(Decimal(p[0])) == run.number(Decimal(q[0]))
  }

  lemma {:induction false} PartsUnordered(p: seq<string>, q: seq<string>, run: Runtime)
    requires Sound(run) && p != q
    ensures !PartsBefore(p, q, run) && !PartsBefore(q, p, run) <==> Collide(p, q, run)
    decreases |p|
  {
    if p != [] && q != [] && p[0] == q[0] {
      assert p == [p[0]] + p[1..] && q == [q[0]] + q[1..];
      PartsUnordered(p[1..], q[1..], run);
    }
  }

  /**
   * Without that condition: two different versions compare as equal exactly when the first identifiers in which their
   * prereleases differ are two numerals for one number, whatever follows them.
   */
  lemma {:induction false} UnequalVersionsTieExactlyOnNumerals(a: Version, b: Version, run: Runtime)
    requires Sound(run) && a != b
    ensures !Precedes(a, b, run) && !Precedes(b, a, run) <==>
      Core(a) == Core(b) && a.prerelease != "" && b.prerelease != ""
      && Collide(Split(a.prerelease, '.'), Split(b.prerelease, '.'), run)
  {
    if Core(a) == Core(b) {
      assert a.major == Core(a)[0] && a.minor == Core(a)[1] && a.patch == Core(a)[2];
      JoinOfSplit(a.prerelease, '.');
      JoinOfSplit(b.prerelease, '.');
      PartsUnordered(Split(a.prerelease, '.'), Split(b.prerelease, '.'), run);
    }
  }

  lemma NumeralsForOne()
    ensures IsNumeric("1") && IsNumeric("01") && Decimal("1") == Decimal("01") == 1
    ensures !IsNumeric("a") && !IsNumeric("b")
  {
    assert "1"[..0] == "" && "01"[..1] == "0" && "0"[..0] == "";
    assert !IsDigit("a"[0]) && !IsDigit("b"[0]);
  }

  lemma PartsOfOne(run: Runtime)
    requires Sound(run) && run.localeCompare("a", "b") < 0
    ensures !PartsBefore(["01", "a"], ["1"], run) && !PartsBefore(["1"], ["01", "a"], run)
    ensures !PartsBefore(["01", "b"], ["1"], run) && !PartsBefore(["1"], ["01", "b"], run)
    ensures PartsBefore(["01", "a"], ["01", "b"], run)
  {
    NumeralsForOne();
    hide IsNumeric, Decimal;
    assert ["01", "a"][1..] == ["a"] && ["01", "b"][1..] == ["b"];
    assert PartsBefore(["a"], ["b"], run);
  }

  /** Such ties are not transitive: `1.0.0-01.a` and `1.0.0-01.b` both tie with `1.0.0-1`, and yet one precedes the other. */
  lemma LeadingZerosBreakTies(run: Runtime)
    requires Sound(run) && run.localeCompare("a", "b") < 0
    ensures var a, b, c := Version(1, 0, 0, "01.a"), Version(1, 0, 0, "1"), Version(1, 0, 0, "01.b");
      && !Precedes(a, b, run) && !Precedes(b, a, run) && !Precedes(b, c, run) && !Precedes(c, b, run)
      && Precedes(a, c, run)
  {
    hide Split, PartsBefore;
    SplitAtFirstSeparator("01", "a", '.');
    SplitAtFirstSeparator("01", "b", '.');
    SplitAtFirstSeparator("1", "", '.');
    SplitAtFirstSeparator("a", "", '.');
    SplitAtFirstSeparator("b", "", '.');
    assert "01" + "." + "a" == "01.a" && "01" + "." + "b" == "01.b";
    assert Split("01.a", '.') == ["01"] + ["a"] == ["01", "a"] && Split("01.b", '.') == ["01"] + ["b"] == ["01", "b"];
    PartsOfOne(run);
  }

  // ---------------------------------------------------------------- the structure of precedence

  lemma {:induction false} CommonPartsDecideNothing(common: seq<string>, p: seq<string>, q: seq<string>, run: Runtime)
    ensures PartsBefore(common + p, common + q, run) <==> PartsBefore(p, q, run)
    decreases |common|
  {
    if common == [] {
      assert common + p == p && common + q == q;
    } else {
      assert (common + p)[1..] == common[1..] + p && (common + q)[1..] == common[1..] + q;
      CommonPartsDecideNothing(common[1..], p, q, run);
    }
  }

  /**
   * Section 11.4 of SemVer 2.0.0: with equal numbers and two prereleases, the first identifiers that differ decide. Two
   * numerals compare by value, a numeral comes before a word, and two words compare in the locale's order.
   */
  lemma {:induction false} FirstDifferenceDecides(l: Version, r: Version, common: seq<string>, p: string, q: string,
                                                  later: seq<string>, later': seq<string>, run: Runtime)
    requires l.major == r.major && l.minor == r.minor && l.patch == r.patch && l.prerelease != "" && r.prerelease != ""
    requires Split(l.prerelease, '.') == common + [p] + later && Split(r.prerelease, '.') == common + [q] + later'
    requires p != q
    ensures var numeral := (s: string) => s != "" && forall i :: 0 <= i < |s| ==> '0' <= s[i] <= '9';
      && (numeral(p) && !numeral(q) ==> Precedes(l, r, run) && !Precedes(r, l, run))
      && (numeral(p) && numeral(q) ==>
            (Precedes(l, r, run) <==> AllDigits(p) && AllDigits(q) && run.number(Decimal(p)) < run.number(Decimal(q))))
      && (!numeral(p) && !numeral(q) ==> (Precedes(l, r, run) <==> run.localeCompare(p, q) < 0))
  {
    CommonPartsDecideNothing(common, [p] + later, [q] + later', run);
    CommonPartsDecideNothing(common, [q] + later', [p] + later, run);
    assert common + [p] + later == common + ([p] + later) && common + [q] + later' == common + ([q] + later');
  }

  /** A longer list of identifiers comes after its beginning, and a release after all of its prereleases. */
  lemma {:induction false} LongerAndReleaseComeAfter(l: Version, r: Version, more: seq<string>, run: Runtime)
    requires l.major == r.major && l.minor == r.minor && l.patch == r.patch && l.prerelease != ""
    ensures r.prerelease == "" ==> Precedes(l, r, run) && !Precedes(r, l, run)
    ensures r.prerelease != "" && more != [] && Split(r.prerelease, '.') == Split(l.prerelease, '.') + more ==>
      Precedes(l, r, run) && !Precedes(r, l, run)
  {
    if r.prerelease != "" && more != [] && Split(r.prerelease, '.') == Split(l.prerelease, '.') + more {
      var common := Split(l.prerelease, '.');
      CommonPartsDecideNothing(common, [], more, run);
      CommonPartsDecideNothing(common, more, [], run);
      assert common + [] == common;
    }
  }
}
