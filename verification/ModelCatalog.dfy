/** Parsing Pi versions and selecting a catalog for one (scripts/model-catalog-protocol.ts:33, 127-158 and 201-219). */
module ModelCatalog {
  import opened Options
  import opened PiVersions

  // ---------------------------------------------------------------- the written form of a version

  predicate IsTagChar(c: char) {
    IsDigit(c) || 'A' <= c <= 'Z' || 'a' <= c <= 'z' || c == '.' || c == '-'
  }

  /** The parts of the version pattern; `prerelease` and `build` are without their leading `-` and `+`. */
  datatype Parts = Parts(v: bool, major: string, minor: string, patch: string,
                         prerelease: Option<string>, build: Option<string>)

  predicate IsTag(tag: Option<string>) {
    tag.Some? ==> tag.value != "" && forall i :: 0 <= i < |tag.value| ==> IsTagChar(tag.value[i])
  }

  predicate WellFormed(p: Parts) {
    IsNumeric(p.major) && IsNumeric(p.minor) && IsNumeric(p.patch) && IsTag(p.prerelease) && IsTag(p.build)
  }

  function Marked(mark: char, tag: Option<string>): string {
    if tag.Some? then [mark] + tag.value else ""
  }

  function Written(p: Parts): string {
    (if p.v then "v" else "") + (p.major + ("." + (p.minor + ("." + (p.patch + (Marked('-', p.prerelease)
    + Marked('+', p.build)))))))
  }

  /** How many characters at the start satisfy `f`. */
  function RunLength(s: string, f: char -> bool): (n: nat)
    ensures n <= |s| && (forall i :: 0 <= i < n ==> f(s[i])) && (n < |s| ==> !f(s[n]))
    decreases |s|
  {
    if s == "" || !f(s[0]) then 0 else 1 + RunLength(s[1..], f)
  }

  lemma {:induction false} RunStops(a: string, rest: string, f: char -> bool)
    requires forall i :: 0 <= i < |a| ==> f(a[i])
    requires rest == "" || !f(rest[0])
    ensures RunLength(a + rest, f) == |a| && (a + rest)[..|a|] == a && (a + rest)[|a|..] == rest
    decreases |a|
  {
    if a == "" {
      assert a + rest == rest;
    } else {
      assert (a + rest)[1..] == a[1..] + rest;
      RunStops(a[1..], rest, f);
    }
  }

  /** A number at the start, and what follows it. */
  function ScanNumber(s: string): Option<(string, string)> {
    var n := RunLength(s, IsDigit);
    if n == 0 then None else Some((s[..n], s[n..]))
  }

  /** A number followed by a dot. */
  function ScanDotted(s: string): Option<(string, string)> {
    match ScanNumber(s)
    case None => None
    case Some((digits, rest)) => if rest != "" && rest[0] == '.' then Some((digits, rest[1..])) else None
  }

  /** A tag after its mark; without the mark there is no tag, and a mark without a tag does not match. */
  function ScanTag(mark: char, s: string): Option<(Option<string>, string)> {
    if s == "" || s[0] != mark then Some((None, s))
    else
      var n := RunLength(s[1..], IsTagChar);
      if n == 0 then None else Some((Some(s[1..][..n]), s[1..][n..]))
  }

  /** Matches text, already trimmed, against the version pattern. */
  function Scan(text: string): Option<Parts> {
    var v := text != "" && text[0] == 'v';
    match ScanDotted(if v then text[1..] else text)
    case None => None
    case Some((major, rest1)) =>
      match ScanDotted(rest1)
      case None => None
      case Some((minor, rest2)) =>
        match ScanNumber(rest2)
        case None => None
        case Some((patch, rest3)) =>
          match ScanTag('-', rest3)
          case None => None
          case Some((prerelease, rest4)) =>
            match ScanTag('+', rest4)
            case None => None
            case Some((build, rest5)) =>
              if rest5 == "" then Some(Parts(v, major, minor, patch, prerelease, build)) else None
  }

  lemma NumberScans(digits: string, rest: string)
    requires IsNumeric(digits) && (rest == "" || !IsDigit(rest[0]))
    ensures ScanNumber(digits + rest) == Some((digits, rest))
  {
    RunStops(digits, rest, IsDigit);
  }

  lemma DottedScans(digits: string, rest: string)
    requires IsNumeric(digits)
    ensures ScanDotted(digits + ("." + rest)) == Some((digits, rest))
  {
    NumberScans(digits, "." + rest);
    assert ("." + rest)[1..] == rest;
  }

  lemma TagScans(mark: char, tag: Option<string>, rest: string)
    requires IsTag(tag) && (rest == "" || (!IsTagChar(rest[0]) && rest[0] != mark))
    ensures ScanTag(mark, Marked(mark, tag) + rest) == Some((tag, rest))
  {
    if tag.Some? {
      RunStops(tag.value, rest, IsTagChar);
      assert (Marked(mark, tag) + rest)[1..] == tag.value + rest;
    } else {
      assert Marked(mark, tag) + rest == rest;
    }
  }

  lemma NumberIsScanned(s: string)
    requires ScanNumber(s).Some?
    ensures var (digits, rest) := ScanNumber(s).value;
      IsNumeric(digits) && s == digits + rest && (rest == "" || !IsDigit(rest[0]))
  {}

  lemma DottedIsScanned(s: string)
    requires ScanDotted(s).Some?
    ensures var (digits, rest) := ScanDotted(s).value; IsNumeric(digits) && s == digits + ("." + rest)
  {
    NumberIsScanned(s);
    var (digits, rest) := ScanNumber(s).value;
    assert rest == "." + rest[1..];
  }

  lemma TagIsScanned(mark: char, s: string)
    requires ScanTag(mark, s).Some?
    ensures var (tag, rest) := ScanTag(mark, s).value; IsTag(tag) && s == Marked(mark, tag) + rest
  {
    if s != "" && s[0] == mark {
      assert s == [mark] + s[1..];
    }
  }

  /** Text scans to its parts exactly when it is those parts written out. */
  lemma {:induction false} ScanIsThePattern(text: string, p: Parts)
    ensures Scan(text) == Some(p) <==> WellFormed(p) && text == Written(p)
  {
    if WellFormed(p) && text == Written(p) { WrittenScans(p); }
    if Scan(text) == Some(p) { ScannedIsWritten(text); }
  }

  /** The two tags, as they follow the numbers. */
  lemma TagsScan(prerelease: Option<string>, build: Option<string>)
    requires IsTag(prerelease) && IsTag(build)
    ensures var rest := Marked('+', build);
      var tags := Marked('-', prerelease) + rest;
      && ScanTag('+', rest) == Some((build, "")) && ScanTag('-', tags) == Some((prerelease, rest))
      && (tags == "" || !IsDigit(tags[0]))
  {
    var rest := Marked('+', build);
    TagScans('+', build, "");
    assert rest + "" == rest;
    TagScans('-', prerelease, rest);
  }

  lemma WrittenScans(p: Parts)
    requires WellFormed(p)
    ensures Scan(Written(p)) == Some(p)
  {
    hide ScanDotted, ScanNumber, ScanTag, Marked;
    TagsScan(p.prerelease, p.build);
    var rest3 := Marked('-', p.prerelease) + Marked('+', p.build);
    NumberScans(p.patch, rest3);
    var rest2 := p.patch + rest3;
    DottedScans(p.minor, rest2);
    var rest1 := p.minor + ("." + rest2);
    DottedScans(p.major, rest1);
    var rest := p.major + ("." + rest1);
    assert rest[0] == p.major[0] && IsDigit(p.major[0]);
    assert Written(p) == (if p.v then "v" else "") + rest;
    assert p.v ==> Written(p)[1..] == rest;
    assert !p.v ==> Written(p) == rest;
  }

  lemma ScannedIsWritten(text: string)
    requires Scan(text).Some?
    ensures WellFormed(Scan(text).value) && text == Written(Scan(text).value)
  {
    hide ScanDotted, ScanNumber, ScanTag, Marked;
    var p := Scan(text).value;
    var s := if p.v then text[1..] else text;
    DottedIsScanned(s);
    var (major, rest1) := ScanDotted(s).value;
    DottedIsScanned(rest1);
    var (minor, rest2) := ScanDotted(rest1).value;
    NumberIsScanned(rest2);
    var (patch, rest3) := ScanNumber(rest2).value;
    TagIsScanned('-', rest3);
    var (prerelease, rest4) := ScanTag('-', rest3).value;
    TagIsScanned('+', rest4);
    assert Marked('+', p.build) + "" == Marked('+', p.build);
    assert text == (if p.v then "v" else "") + s;
  }

  /** Numbers beyond the safe integers are not versions; neither the leading `v` nor the build matters. */
  function ParsePiVersion(text: string): Option<Version> {
    match Scan(text)
    case None => None
    case Some(p) =>
      if !AllDigits(p.major) || !AllDigits(p.minor) || !AllDigits(p.patch) then None
      else
        var major, minor, patch := Decimal(p.major), Decimal(p.minor), Decimal(p.patch);
        if major > MAX_SAFE_INTEGER || minor > MAX_SAFE_INTEGER || patch > MAX_SAFE_INTEGER then None
        else Some(Version(major, minor, patch, if p.prerelease.Some? then p.prerelease.value else ""))
  }

  /**
   * Text is a version exactly when it is three numbers with dots, an optional `v` before them and tags after them, and the
   * numbers are safe integers; they are its major, minor and patch number in this order, and the prerelease its first tag.
   */
  lemma {:induction false} ParsedInOrder(text: string, version: Version)
    ensures ParsePiVersion(text) == Some(version) <==>
      exists p :: WellFormed(p) && text == Written(p) && InOrderOf(p, version)
  {
    hide Scan, WellFormed, Written;
    if ParsePiVersion(text) == Some(version) {
      var p := Scan(text).value;
      ScanIsThePattern(text, p);
      assert InOrderOf(p, version);
    }
    if exists p :: WellFormed(p) && text == Written(p) && InOrderOf(p, version) {
      var p :| WellFormed(p) && text == Written(p) && InOrderOf(p, version);
      ScanIsThePattern(text, p);
    }
  }

  ghost predicate InOrderOf(p: Parts, version: Version) {
    && AllDigits(p.major) && AllDigits(p.minor) && AllDigits(p.patch)
    && version.major == Decimal(p.major) <= MAX_SAFE_INTEGER
    && version.minor == Decimal(p.minor) <= MAX_SAFE_INTEGER
    && version.patch == Decimal(p.patch) <= MAX_SAFE_INTEGER
    && version.prerelease == match p.prerelease case None => "" case Some(tag) => tag
  }

  // ---------------------------------------------------------------- selection

  datatype Entry = Entry(minimumPiVersion: string, revision: string)

  datatype Index = Index(defaultRevision: string, catalogs: seq<Entry>)

  datatype Selection = Selected(at: nat) | NoCatalog | InvalidMinimum(version: string)

  /** The minimum versions of the entries, when all of them are versions. */
  ghost predicate AreMinimums(catalogs: seq<Entry>, minimums: seq<Version>) {
    |minimums| == |catalogs|
    && forall i :: 0 <= i < |catalogs| ==> ParsePiVersion(catalogs[i].minimumPiVersion) == Some(minimums[i])
  }

  ghost predicate Compatible(minimum: Version, requested: Version, run: Runtime) {
    !Precedes(requested, minimum, run)
  }

  /** A compatible entry that no compatible one surpasses, and the first with its minimum. */
  ghost predicate Best(minimums: seq<Version>, at: nat, requested: Version, run: Runtime) {
    && at < |minimums| && Compatible(minimums[at], requested, run)
    && (forall i :: 0 <= i < |minimums| && Compatible(minimums[i], requested, run) ==>
          !Precedes(minimums[at], minimums[i], run))
    && (forall i :: 0 <= i < at && Compatible(minimums[i], requested, run) ==> minimums[i] != minimums[at])
  }

  /** An entry that surpasses the best of those before it becomes the best; any other leaves it so. */
  lemma OneMoreEntry(before: seq<Version>, m: Version, at: nat, requested: Version, run: Runtime)
    requires Sound(run) && Best(before, at, requested, run)
    ensures Compatible(m, requested, run) && Precedes(before[at], m, run) ==>
      Best(before + [m], |before|, requested, run)
    ensures !(Compatible(m, requested, run) && Precedes(before[at], m, run)) ==> Best(before + [m], at, requested, run)
  {
    NotBeforeItself(m, run);
    if Precedes(before[at], m, run) {
      forall i | 0 <= i < |before| && Compatible(before[i], requested, run)
        ensures !Precedes(m, before[i], run) && m != before[i]
      {
        if Precedes(m, before[i], run) { PrecedenceIsTransitive(before[at], m, before[i], run); }
      }
    }
  }

  lemma NotBeforeItself(m: Version, run: Runtime)
    requires Sound(run)
    ensures !Precedes(m, m, run)
  {
    if Precedes(m, m, run) { PrecedenceIsTransitive(m, m, m, run); }
  }

  method FindDefault(index: Index) returns (r: Selection)
    ensures r.Selected? ==>
      r.at < |index.catalogs| && index.catalogs[r.at].revision == index.defaultRevision
      && forall i :: 0 <= i < r.at ==> index.catalogs[i].revision != index.defaultRevision
    ensures !r.Selected? ==>
      r == NoCatalog && forall i :: 0 <= i < |index.catalogs| ==> index.catalogs[i].revision != index.defaultRevision
  {
    for i := 0 to |index.catalogs|
      invariant forall j :: 0 <= j < i ==> index.catalogs[j].revision != index.defaultRevision
    {
      if index.catalogs[i].revision == index.defaultRevision {
        return Selected(i);
      }
    }
    r := NoCatalog;
  }

  /**
   * Selects the entry for a requested version. An entry whose minimum is not a version makes it fail; otherwise it finds
   * the best compatible entry, and none exactly when none is compatible.
   */
  method SelectModelCatalog(index: Index, piVersion: Option<string>, run: Runtime)
    returns (r: Selection, ghost minimums: seq<Version>)
    requires Sound(run)
    ensures piVersion == None && r.Selected? ==>
      r.at < |index.catalogs| && index.catalogs[r.at].revision == index.defaultRevision
    ensures piVersion == None && !r.Selected? ==>
      r == NoCatalog && forall i :: 0 <= i < |index.catalogs| ==> index.catalogs[i].revision != index.defaultRevision
    ensures piVersion.Some? && ParsePiVersion(piVersion.value) == None ==> r == NoCatalog
    ensures piVersion.Some? && ParsePiVersion(piVersion.value).Some? ==>
      var requested := ParsePiVersion(piVersion.value).value;
      && (r.InvalidMinimum? ==>
            exists i :: 0 <= i < |index.catalogs| && index.catalogs[i].minimumPiVersion == r.version
                        && ParsePiVersion(r.version) == None)
      && (!r.InvalidMinimum? ==> AreMinimums(index.catalogs, minimums))
      && (r.Selected? ==> Best(minimums, r.at, requested, run))
      && (r.NoCatalog? ==> forall i :: 0 <= i < |minimums| ==> !Compatible(minimums[i], requested, run))
  {
    hide Precedes, ParsePiVersion, Scan;
    minimums := [];
    if piVersion == None {
      r := FindDefault(index);
      return;
    }
    var parsed := ParsePiVersion(piVersion.value);
    if parsed == None {
      return NoCatalog, minimums;
    }
    var requested := parsed.value;
    var selected: Option<(nat, Version)> := None;
    for i := 0 to |index.catalogs|
      invariant AreMinimums(index.catalogs[..i], minimums)
      invariant selected.Some? ==>
        Best(minimums, selected.value.0, requested, run) && minimums[selected.value.0] == selected.value.1
      invariant selected == None ==> forall j :: 0 <= j < i ==> !Compatible(minimums[j], requested, run)
    {
      var minimum := ParsePiVersion(index.catalogs[i].minimumPiVersion);
      if minimum == None {
        return InvalidMinimum(index.catalogs[i].minimumPiVersion), minimums;
      }
      var toRequested := ComparePiVersions(minimum.value, requested, run);
      var toSelected := 1;
      if selected.Some? {
        toSelected := ComparePiVersions(minimum.value, selected.value.1, run);
        OneMoreEntry(minimums, minimum.value, selected.value.0, requested, run);
      } else {
        NotBeforeItself(minimum.value, run);
      }
      if toRequested <= 0 && toSelected > 0 {
        selected := Some((i, minimum.value));
      }
      minimums := minimums + [minimum.value];
    }
    r := if selected.Some? then Selected(selected.value.0) else NoCatalog;
  }

  ghost predicate AllCanonical(minimums: seq<Version>) {
    forall i :: 0 <= i < |minimums| ==> Canonical(minimums[i])
  }

  /** With canonical identifiers the selected entry's minimum is the greatest that does not exceed the request. */
  lemma {:induction false} BestIsGreatest(minimums: seq<Version>, at: nat, requested: Version, run: Runtime)
    requires Sound(run) && AllCanonical(minimums) && Canonical(requested) && Best(minimums, at, requested, run)
    ensures minimums[at] == requested || Precedes(minimums[at], requested, run)
    ensures forall i :: 0 <= i < |minimums| && (minimums[i] == requested || Precedes(minimums[i], requested, run)) ==>
      minimums[i] == minimums[at] || Precedes(minimums[i], minimums[at], run)
  {
    hide Precedes, Canonical;
    PrecedenceIsTotal(minimums[at], requested, run);
    forall i | 0 <= i < |minimums| && (minimums[i] == requested || Precedes(minimums[i], requested, run))
      ensures minimums[i] == minimums[at] || Precedes(minimums[i], minimums[at], run)
    {
      PrecedenceIsTotal(minimums[i], requested, run);
      PrecedenceIsTotal(minimums[i], minimums[at], run);
    }
  }

  /** A later request never gets less: it finds an entry when an earlier one does, and one with no smaller minimum. */
  lemma {:induction false} SelectionIsMonotone(minimums: seq<Version>, earlier: Version, later: Version, at: nat,
                                               at': nat, run: Runtime)
    requires Sound(run) && AllCanonical(minimums) && Canonical(earlier) && Canonical(later)
    requires earlier == later || Precedes(earlier, later, run)
    requires Best(minimums, at, earlier, run)
    ensures Compatible(minimums[at], later, run)
    ensures Best(minimums, at', later, run) ==>
      minimums[at] == minimums[at'] || Precedes(minimums[at], minimums[at'], run)
  {
    hide Precedes, Canonical;
    if Precedes(earlier, later, run) && Precedes(later, minimums[at], run) {
      PrecedenceIsTransitive(earlier, later, minimums[at], run);
    }
    if Best(minimums, at', later, run) { PrecedenceIsTotal(minimums[at], minimums[at'], run); }
  }
}
