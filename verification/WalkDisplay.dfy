/** Paths shown relative to the working directory, by components (crates/senpi-grep/src/walk.rs:83-102). */
module WalkDisplay {
  import opened Numbers

  /** What `Path::components` yields; a prefix is a Windows drive or share. */
  datatype Component = Prefix(name: string) | RootDir | ParentDir | Normal(name: string)

  type Path = seq<Component>

  predicate Inner(c: Component) {
    c.ParentDir? || c.Normal?
  }

  /** How many components anchor an absolute path. */
  function AnchorLength(p: Path): nat {
    if p != [] && p[0].Prefix? then 2 else 1
  }

  predicate Absolute(p: Path) {
    && |p| >= AnchorLength(p) && p[AnchorLength(p) - 1].RootDir?
    && forall i :: AnchorLength(p) <= i < |p| ==> Inner(p[i])
  }

  predicate Relative(p: Path) {
    forall i :: 0 <= i < |p| ==> Inner(p[i])
  }

  // ---------------------------------------------------------------- showing a path

  /** The length of the longest common beginning. */
  function Common(a: Path, b: Path): (n: nat)
    ensures n <= |a| && n <= |b| && a[..n] == b[..n]
    ensures n < |a| && n < |b| ==> a[n] != b[n]
    decreases |a|
  {
    if a == [] || b == [] || a[0] != b[0] then 0 else 1 + Common(a[1..], b[1..])
  }

  function Parents(n: nat): (p: Path)
    ensures |p| == n && forall i :: 0 <= i < n ==> p[i] == ParentDir
  {
    seq(n, i => ParentDir)
  }

  /** A path that shares nothing with the working directory is shown whole. */
  function DisplayPath(path: Path, cwd: Path): Path {
    var common := Common(path, cwd);
    if common == 0 then path else Parents(|cwd| - common) + path[common..]
  }

  method CountCommon(path: Path, cwd: Path) returns (common: nat)
    ensures common == Common(path, cwd)
  {
    common := 0;
    while common < |path| && common < |cwd| && path[common] == cwd[common]
      invariant 0 <= common <= |path| && common <= |cwd|
      invariant common + Common(path[common..], cwd[common..]) == Common(path, cwd)
    {
      assert path[common..][1..] == path[common + 1..] && cwd[common..][1..] == cwd[common + 1..];
      common := common + 1;
    }
  }

  method ShowPath(path: Path, cwd: Path) returns (shown: Path)
    ensures shown == DisplayPath(path, cwd)
  {
    hide Common;
    var common := CountCommon(path, cwd);
    if common == 0 {
      return path;
    }
    shown := [];
    for i := common to |cwd|
      invariant shown == Parents(i - common)
    {
      shown := shown + [ParentDir];
    }
    for i := common to |path|
      invariant shown == Parents(|cwd| - common) + path[common..i]
    {
      assert path[common..i + 1] == path[common..i] + [path[i]];
      shown := shown + [path[i]];
    }
    assert path[common..|path|] == path[common..];
  }

  // ---------------------------------------------------------------- where a path leads

  /** Goes on from a directory: `..` takes its last component away, except that at the anchor it stays there. */
  function Follow(anchor: nat, at: Path, rest: Path): Path
    decreases |rest|
  {
    if rest == [] then at
    else
      var last := rest[|rest| - 1];
      var here := Follow(anchor, at, rest[..|rest| - 1]);
      if !last.ParentDir? then here + [last]
      else if |here| > anchor then here[..|here| - 1]
      else here
  }

  /** The place an absolute path names, written without `..`. */
  function Normalize(p: Path): Path
    requires Absolute(p)
  {
    Follow(AnchorLength(p), p[..AnchorLength(p)], p[AnchorLength(p)..])
  }

  /** What is shown names an absolute path, or one from the working directory. */
  function Resolve(cwd: Path, shown: Path): Path
    requires Absolute(cwd) && (Relative(shown) || Absolute(shown))
  {
    if Relative(shown) then Normalize(cwd + shown) else Normalize(shown)
  }

  /** Without `..` nothing is taken away. */
  predicate Plain(p: Path) {
    forall i :: 0 <= i < |p| ==> !p[i].ParentDir?
  }

  /** What a relative path comes to: how many components it takes from where it starts, and what it adds after that. */
  datatype Move = Move(climbs: nat, below: Path)

  function Then(m: Move, c: Component): Move {
    if !c.ParentDir? then Move(m.climbs, m.below + [c])
    else if m.below != [] then Move(m.climbs, m.below[..|m.below| - 1])
    else Move(m.climbs + 1, [])
  }

  function Net(rest: Path): Move
    decreases |rest|
  {
    if rest == [] then Move(0, []) else Then(Net(rest[..|rest| - 1]), rest[|rest| - 1])
  }

  /** One component more, on either side. */
  lemma StepIsNet(anchor: nat, at: Path, m: Move, c: Component)
    requires anchor <= |at|
    ensures var here := at[..Max(anchor, |at| - m.climbs)] + m.below;
      at[..Max(anchor, |at| - Then(m, c).climbs)] + Then(m, c).below
      == if !c.ParentDir? then here + [c] else if |here| > anchor then here[..|here| - 1] else here
  {
    var kept := Max(anchor, |at| - m.climbs);
    var here := at[..kept] + m.below;
    if c.ParentDir? && m.below != [] {
      assert here[..|here| - 1] == at[..kept] + m.below[..|m.below| - 1];
    } else if c.ParentDir? && kept > anchor {
      assert here[..|here| - 1] == at[..kept - 1];
    }
  }

  lemma {:induction false} FollowIsNet(anchor: nat, at: Path, rest: Path)
    requires anchor <= |at|
    ensures Follow(anchor, at, rest) == at[..Max(anchor, |at| - Net(rest).climbs)] + Net(rest).below
    decreases |rest|
  {
    hide Then;
    if rest != [] {
      FollowIsNet(anchor, at, rest[..|rest| - 1]);
      StepIsNet(anchor, at, Net(rest[..|rest| - 1]), rest[|rest| - 1]);
    }
  }

  lemma {:induction false} FollowConcat(anchor: nat, at: Path, a: Path, b: Path)
    ensures Follow(anchor, at, a + b) == Follow(anchor, Follow(anchor, at, a), b)
    decreases |b|
  {
    if b == [] {
      assert a + b == a;
    } else {
      assert (a + b)[..|a + b| - 1] == a + b[..|b| - 1];
      FollowConcat(anchor, at, a, b[..|b| - 1]);
    }
  }

  lemma PlainInTwo(a: Path, b: Path)
    ensures Plain(a + b) <==> Plain(a) && Plain(b)
  {
    assert forall i :: 0 <= i < |a| ==> (a + b)[i] == a[i];
    assert forall i :: 0 <= i < |b| ==> (a + b)[|a| + i] == b[i];
  }

  lemma PlainBeginning(p: Path, n: nat)
    requires n <= |p| && Plain(p)
    ensures Plain(p[..n]) && Plain(p[n..])
  {}

  lemma OneMoreComponent(m: Move, c: Component)
    requires Plain(m.below)
    ensures Plain(Then(m, c).below)
    ensures |Then(m, c).below| == |m.below| + 1 <==> !c.ParentDir?
    ensures |Then(m, c).below| <= |m.below| + 1
    ensures !c.ParentDir? ==> Then(m, c) == Move(m.climbs, m.below + [c])
  {
    PlainInTwo(m.below, [c]);
    if m.below != [] { PlainBeginning(m.below, |m.below| - 1); }
  }

  lemma NetGrows(front: Path, last: Component)
    ensures Net(front + [last]) == Then(Net(front), last)
  {
    assert (front + [last])[..|front|] == front;
  }

  lemma PlainGrows(front: Path, last: Component)
    ensures Plain(front + [last]) <==> Plain(front) && !last.ParentDir?
  {
    PlainInTwo(front, [last]);
    assert [last][0] == last;
  }

  /** Whether a path is plain shows in what it adds. */
  predicate AsPlain(rest: Path, net: Move) {
    && |net.below| <= |rest| && Plain(net.below)
    && (Plain(rest) ==> net == Move(0, rest))
    && (!Plain(rest) ==> |net.below| < |rest|)
  }

  lemma AsPlainGrows(front: Path, net: Move, last: Component)
    requires AsPlain(front, net)
    ensures AsPlain(front + [last], Then(net, last))
  {
    PlainGrows(front, last);
    OneMoreComponent(net, last);
    hide Plain, Then;
  }

  lemma {:induction false} NetOfPlain(rest: Path)
    ensures AsPlain(rest, Net(rest))
    decreases |rest|
  {
    if rest != [] {
      var front, last := rest[..|rest| - 1], rest[|rest| - 1];
      NetOfPlain(front);
      assert rest == front + [last];
      hide *;
      AsPlainGrows(front, Net(front), last);
      NetGrows(front, last);
    }
  }

  lemma {:induction false} NetOfParents(rest: Path, n: nat)
    ensures var (climbs, below) := (Net(rest).climbs, Net(rest).below);
      Net(rest + Parents(n)) ==
        if n <= |below| then Move(climbs, below[..|below| - n]) else Move(climbs + n - |below|, [])
    decreases n
  {
    if n == 0 {
      assert rest + Parents(0) == rest;
    } else {
      assert (rest + Parents(n))[..|rest| + n - 1] == rest + Parents(n - 1);
      NetOfParents(rest, n - 1);
    }
  }

  /** Going into a directory and up as many components as were named stays there exactly if none of them was a `..`. */
  lemma {:induction false} ThereAndBack(anchor: nat, at: Path, rest: Path)
    requires anchor <= |at|
    ensures var back := Follow(anchor, at, rest + Parents(|rest|));
      && anchor <= |back| <= |at| && back == at[..|back|]
      && (back == at <==> Plain(rest) || |at| == anchor)
  {
    NetOfPlain(rest);
    NetOfParents(rest, |rest|);
    FollowIsNet(anchor, at, rest + Parents(|rest|));
  }

  /** From a directory and from one above it a path leads to the same place only if it goes up to the anchor anyway. */
  lemma {:induction false} FollowFromAbove(anchor: nat, at: Path, above: Path, rest: Path)
    requires anchor <= |above| <= |at| && above == at[..|above|]
    ensures Follow(anchor, above, rest) == Follow(anchor, at, rest) <==>
      above == at || |at| - anchor <= Net(rest).climbs
  {
    FollowIsNet(anchor, at, rest);
    FollowIsNet(anchor, above, rest);
    hide Follow, Net;
    var climbs := Net(rest).climbs;
    assert |Follow(anchor, at, rest)| == Max(anchor, |at| - climbs) + |Net(rest).below|;
    assert |Follow(anchor, above, rest)| == Max(anchor, |above| - climbs) + |Net(rest).below|;
    assert above[..Max(anchor, |above| - climbs)] == at[..Max(anchor, |above| - climbs)];
  }

  // ---------------------------------------------------------------- resolving what is shown

  /** Two absolute paths that share a component share their whole anchor. */
  lemma AnchorIsShared(path: Path, cwd: Path)
    requires Absolute(path) && Absolute(cwd) && Common(path, cwd) > 0
    ensures AnchorLength(path) == AnchorLength(cwd) <= Common(path, cwd)
  {
    assert path[0] == path[..Common(path, cwd)][0] == cwd[..Common(path, cwd)][0] == cwd[0];
  }

  lemma NormalizeInTwo(p: Path, n: nat)
    requires Absolute(p) && AnchorLength(p) <= n <= |p|
    ensures Absolute(p[..n]) && AnchorLength(p[..n]) == AnchorLength(p) <= |Normalize(p[..n])|
    ensures Normalize(p) == Follow(AnchorLength(p), Normalize(p[..n]), p[n..])
  {
    hide Follow, Net;
    var anchor := AnchorLength(p);
    assert AnchorLength(p[..n]) == anchor;
    assert p[..n][..anchor] == p[..anchor] && p[..n][anchor..] == p[anchor..n];
    assert p[anchor..] == p[anchor..n] + p[n..];
    FollowConcat(anchor, p[..anchor], p[anchor..n], p[n..]);
    FollowIsNet(anchor, p[..anchor], p[anchor..n]);
  }

  lemma ShownIsRelative(path: Path, cwd: Path)
    requires Absolute(path) && Absolute(cwd)
    ensures var shown := DisplayPath(path, cwd);
      if Common(path, cwd) == 0 then shown == path && !Relative(shown) else Relative(shown)
  {
    if Common(path, cwd) == 0 {
      assert !Inner(path[0]);
    } else {
      AnchorIsShared(path, cwd);
    }
  }

  /** The directory the two paths share, as a place. */
  function Shared(path: Path, cwd: Path): Path
    requires Absolute(path) && Absolute(cwd) && Common(path, cwd) > 0
  {
    AnchorIsShared(path, cwd);
    NormalizeInTwo(path, Common(path, cwd));
    Normalize(path[..Common(path, cwd)])
  }

  lemma ShownFromShared(path: Path, cwd: Path)
    requires Absolute(path) && Absolute(cwd) && Common(path, cwd) > 0
    requires Relative(DisplayPath(path, cwd))
    ensures var common, whole := Common(path, cwd), cwd + DisplayPath(path, cwd);
      && Absolute(whole) && AnchorLength(whole) == AnchorLength(cwd) <= common
      && whole[..common] == path[..common]
      && whole[common..] == cwd[common..] + Parents(|cwd| - common) + path[common..]
  {
    AnchorIsShared(path, cwd);
    hide Common;
    var whole := cwd + DisplayPath(path, cwd);
    assert AnchorLength(whole) == AnchorLength(cwd);
  }

  /** Resolving what is shown goes into the working directory, up again, and on to the path. */
  lemma ShownIsFollowed(path: Path, cwd: Path)
    requires Absolute(path) && Absolute(cwd) && Common(path, cwd) > 0
    requires Relative(DisplayPath(path, cwd))
    ensures var common, anchor := Common(path, cwd), AnchorLength(cwd);
      var away := cwd[common..];
      && anchor <= |Shared(path, cwd)|
      && Normalize(path) == Follow(anchor, Shared(path, cwd), path[common..])
      && Resolve(cwd, DisplayPath(path, cwd))
           == Follow(anchor, Follow(anchor, Shared(path, cwd), away + Parents(|away|)), path[common..])
  {
    AnchorIsShared(path, cwd);
    ShownFromShared(path, cwd);
    hide Common, Follow, DisplayPath, Absolute, AnchorLength, Normalize;
    var common := Common(path, cwd);
    var away, rest := cwd[common..], path[common..];
    NormalizeInTwo(path, common);
    NormalizeInTwo(cwd + DisplayPath(path, cwd), common);
    FollowConcat(AnchorLength(cwd), Shared(path, cwd), away + Parents(|away|), rest);
  }

  /**
   * What is shown names the same place as the path if and only if the two share nothing, or the working directory does not
   * go up after leaving what they share, or the path goes up from there to the anchor anyway.
   */
  lemma {:induction false} ShownNamesThePlace(path: Path, cwd: Path)
    requires Absolute(path) && Absolute(cwd)
    ensures Relative(DisplayPath(path, cwd)) || Absolute(DisplayPath(path, cwd))
    ensures Resolve(cwd, DisplayPath(path, cwd)) == Normalize(path) <==>
      || Common(path, cwd) == 0
      || Plain(cwd[Common(path, cwd)..])
      || |Shared(path, cwd)| - AnchorLength(cwd) <= Net(path[Common(path, cwd)..]).climbs
  {
    ShownIsRelative(path, cwd);
    if Common(path, cwd) > 0 {
      ShownIsFollowed(path, cwd);
      hide Follow, Net, Normalize, Resolve, DisplayPath, Shared;
      var anchor, shared, away := AnchorLength(cwd), Shared(path, cwd), cwd[Common(path, cwd)..];
      ThereAndBack(anchor, shared, away);
      FollowFromAbove(anchor, shared, Follow(anchor, shared, away + Parents(|away|)), path[Common(path, cwd)..]);
    }
  }

  lemma AnchorIsPlain(p: Path)
    requires Absolute(p)
    ensures AnchorLength(p) <= |p| && Plain(p[..AnchorLength(p)])
  {
    if AnchorLength(p) == 2 { assert !p[0].ParentDir? && !p[1].ParentDir?; }
  }

  lemma NormalizedIsPlain(p: Path)
    requires Absolute(p)
    ensures Plain(Normalize(p)) && (Normalize(p) == p <==> Plain(p))
  {
    hide Plain, Follow, Net, Absolute;
    AnchorIsPlain(p);
    var front, rest := p[..AnchorLength(p)], p[AnchorLength(p)..];
    NetOfPlain(rest);
    FollowIsNet(|front|, front, rest);
    assert p == front + rest && front[..|front|] == front;
    PlainInTwo(front, rest);
    PlainInTwo(front, Net(rest).below);
  }

  /**
   * Resolving what is shown gives the path back, component by component, if and only if the path has no `..` and the
   * working directory does not go up after leaving what they share (or they share the anchor only).
   */
  lemma {:induction false} ShownResolvesBack(path: Path, cwd: Path)
    requires Absolute(path) && Absolute(cwd)
    ensures Relative(DisplayPath(path, cwd)) || Absolute(DisplayPath(path, cwd))
    ensures Resolve(cwd, DisplayPath(path, cwd)) == path <==>
      Plain(path)
      && (Common(path, cwd) <= AnchorLength(cwd) || Plain(cwd[Common(path, cwd)..]))
  {
    hide *;
    ShownNamesThePlace(path, cwd);
    NormalizedIsPlain(path);
    ResolvedIsPlain(path, cwd);
    if Plain(path) && Common(path, cwd) > 0 { SharedOfPlain(path, cwd); }
    AnchorIsNotEmpty(cwd);
  }

  lemma AnchorIsNotEmpty(cwd: Path)
    ensures AnchorLength(cwd) >= 1
  {}

  /** A path without `..` never goes up, and shares with the working directory the components it shares. */
  lemma SharedOfPlain(path: Path, cwd: Path)
    requires Absolute(path) && Absolute(cwd) && Common(path, cwd) > 0 && Plain(path)
    ensures |Shared(path, cwd)| == Common(path, cwd) >= AnchorLength(cwd) && Net(path[Common(path, cwd)..]).climbs == 0
  {
    var common := Common(path, cwd);
    AnchorIsShared(path, cwd);
    NormalizeInTwo(path, common);
    PlainBeginning(path, common);
    NormalizedIsPlain(path[..common]);
    NetOfPlain(path[common..]);
  }

  lemma ResolvedIsPlain(path: Path, cwd: Path)
    requires Absolute(path) && Absolute(cwd)
    requires Relative(DisplayPath(path, cwd)) || Absolute(DisplayPath(path, cwd))
    ensures Plain(Resolve(cwd, DisplayPath(path, cwd)))
  {
    var shown := DisplayPath(path, cwd);
    if Relative(shown) {
      assert AnchorLength(cwd + shown) == AnchorLength(cwd);
      NormalizedIsPlain(cwd + shown);
    } else {
      NormalizedIsPlain(shown);
    }
  }

  /** The working directory `/x/..` is such a case: `/x/y` is shown as `../y`, which names `/y` there. */
  lemma WorkingDirectoryGoesUp()
    ensures var path, cwd := [RootDir, Normal("x"), Normal("y")], [RootDir, Normal("x"), ParentDir];
      && Absolute(path) && Absolute(cwd) && Plain(path) && DisplayPath(path, cwd) == [ParentDir, Normal("y")]
      && Resolve(cwd, DisplayPath(path, cwd)) != path
  {
    var path, cwd := [RootDir, Normal("x"), Normal("y")], [RootDir, Normal("x"), ParentDir];
    assert Common(path, cwd) == 2;
    assert DisplayPath(path, cwd) == [ParentDir, Normal("y")];
    assert cwd[2..][0].ParentDir?;
    ShownResolvesBack(path, cwd);
  }

  /** How a relative display begins: with as many `..` as the working directory has components of its own. */
  lemma LeadingParents(n: nat, a: Path, m: nat, b: Path)
    requires Plain(a) && Plain(b) && Parents(n) + a == Parents(m) + b
    ensures n == m && a == b
  {
    var s := Parents(n) + a;
    assert forall i :: 0 <= i < n || 0 <= i < m ==> s[i].ParentDir?;
    assert (n < |s| ==> s[n] == a[0]) && (m < |s| ==> s[m] == b[0]);
    assert a == s[n..] && b == s[m..];
  }

  /** From any working directory, no two paths without `..` are shown alike. */
  lemma {:induction false} ShownIsInjective(a: Path, b: Path, cwd: Path)
    requires Absolute(a) && Absolute(b) && Absolute(cwd) && Plain(a) && Plain(b)
    requires DisplayPath(a, cwd) == DisplayPath(b, cwd)
    ensures a == b
  {
    ShownIsRelative(a, cwd);
    ShownIsRelative(b, cwd);
    var m, n := Common(a, cwd), Common(b, cwd);
    if m > 0 && n > 0 {
      LeadingParents(|cwd| - m, a[m..], |cwd| - n, b[n..]);
      assert a == a[..m] + a[m..] && b == b[..n] + b[n..];
    }
  }

  /** With `..` in a path two paths may be shown alike: `/a/../c` and `/c`, seen from `/a`. */
  lemma ParentsAreShownAlike()
    ensures var a, b, cwd := [RootDir, Normal("a"), ParentDir, Normal("c")], [RootDir, Normal("c")],
                             [RootDir, Normal("a")];
      Absolute(a) && Absolute(b) && Absolute(cwd) && a != b && DisplayPath(a, cwd) == DisplayPath(b, cwd)
  {
    var a, b, cwd := [RootDir, Normal("a"), ParentDir, Normal("c")], [RootDir, Normal("c")], [RootDir, Normal("a")];
    assert "a"[0] != "c"[0];
    assert Common(a, cwd) == 2 && Common(b, cwd) == 1;
    assert DisplayPath(a, cwd) == [ParentDir, Normal("c")] == DisplayPath(b, cwd);
  }
}
