/** Splitting text at a separator character. */
module Text {
  type Pieces = p: seq<string> | |p| >= 1 witness [[]]

  /** One more character in front. */
  function Prefixed(c: char, parts: Pieces, sep: char): Pieces {
    if c == sep then [[]] + parts else [[c] + parts[0]] + parts[1..]
  }

  /** The pieces between separators; always at least one. */
  function Split(s: string, sep: char): Pieces
    decreases |s|
  {
    if s == [] then [[]] else Prefixed(s[0], Split(s[1..], sep), sep)
  }

  /** The last of the first pieces goes on in the first of the others. */
  function Glue(p: Pieces, q: Pieces): Pieces {
    p[..|p| - 1] + [p[|p| - 1] + q[0]] + q[1..]
  }

  function Join(parts: Pieces, sep: char): string
    decreases |parts|
  {
    if |parts| == 1 then parts[0] else parts[0] + [sep] + Join(parts[1..], sep)
  }

  lemma {:induction false} JoinOfSplit(s: string, sep: char)
    ensures Join(Split(s, sep), sep) == s
    decreases |s|
  {
    if s != [] {
      JoinOfSplit(s[1..], sep);
      var parts := Split(s[1..], sep);
      if s[0] == sep {
        assert ([[]] + parts)[1..] == parts;
        assert Join(Split(s, sep), sep) == [] + [sep] + s[1..];
      } else {
        assert ([[s[0]] + parts[0]] + parts[1..])[1..] == parts[1..];
        assert s == [s[0]] + s[1..];
        if |parts| > 1 {
          assert Join(Split(s, sep), sep) == [s[0]] + parts[0] + [sep] + Join(parts[1..], sep);
          assert Join(parts, sep) == parts[0] + [sep] + Join(parts[1..], sep);
          assert [s[0]] + parts[0] + [sep] + Join(parts[1..], sep) == [s[0]] + (parts[0] + [sep] + Join(parts[1..], sep));
        }
      }
    }
  }

  lemma GlueOfPrefixed(c: char, p: Pieces, q: Pieces, sep: char)
    ensures Glue(Prefixed(c, p, sep), q) == Prefixed(c, Glue(p, q), sep)
  {
    var left, right := Glue(Prefixed(c, p, sep), q), Prefixed(c, Glue(p, q), sep);
    assert |left| == |right|;
    forall i | 0 <= i < |left|
      ensures left[i] == right[i]
    {
      if i == 0 && c != sep && |p| == 1 { assert [c] + p[0] + q[0] == [c] + (p[0] + q[0]); }
    }
  }

  /** Cutting text anywhere cuts one piece in two and leaves the others as they are. */
  lemma {:induction false} SplitOfConcat(a: string, b: string, sep: char)
    ensures Split(a + b, sep) == Glue(Split(a, sep), Split(b, sep))
    decreases |a|
  {
    if a == [] {
      assert a + b == b;
      var q := Split(b, sep);
      assert [] + q[0] == q[0];
      assert Glue([[]], q) == [q[0]] + q[1..] == q;
    } else {
      assert (a + b)[1..] == a[1..] + b && (a + b)[0] == a[0];
      SplitOfConcat(a[1..], b, sep);
      GlueOfPrefixed(a[0], Split(a[1..], sep), Split(b, sep), sep);
    }
  }

  lemma {:induction false} PiecesHaveNoSeparator(s: string, sep: char)
    ensures forall i :: 0 <= i < |Split(s, sep)| ==> sep !in Split(s, sep)[i]
    decreases |s|
  {
    if s != [] { PiecesHaveNoSeparator(s[1..], sep); }
  }

  lemma {:induction false} SplitAtFirstSeparator(p: string, q: string, sep: char)
    requires sep !in p
    ensures Split(p, sep) == [p]
    ensures Split(p + [sep] + q, sep) == [p] + Split(q, sep)
    decreases |p|
  {
    var s := p + [sep] + q;
    if p == [] {
      assert s[1..] == q;
    } else {
      assert s[1..] == p[1..] + [sep] + q && p == [p[0]] + p[1..];
      SplitAtFirstSeparator(p[1..], q, sep);
      var parts := Split(s[1..], sep);
      assert parts[1..] == Split(q, sep);
      assert [[p[0]] + p[1..]] + [p[1..]][1..] == [p];
    }
  }
}
