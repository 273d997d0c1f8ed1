/** The whole archive before compression (packages/agent/scripts/deterministic-tar-gz.ts:39-51), and reading it back. */
module UstarArchive {
  import opened Options
  import opened Sequences
  import opened UstarHeader

  // ---------------------------------------------------------------- the order of paths

  /** JavaScript's order of strings: by code units. */
  predicate Less(a: string, b: string) {
    if b == "" then false
    else if a == "" then true
    else if a[0] == b[0] then Less(a[1..], b[1..])
    else a[0] < b[0]
  }

  /** One path is before another when it is a proper prefix of it, or has the smaller character where they first differ. */
  lemma {:induction false} FirstDifferenceDecides(a: string, b: string)
    ensures Less(a, b) <==>
      (a < b)
        || exists k: nat :: k < |a| && k < |b| && a[..k] == b[..k] && a[k] < b[k]
    decreases |a|
  {
    if a != [] && b != [] {
      if a[0] == b[0] {
        FirstDifferenceDecides(a[1..], b[1..]);
        assert a == [a[0]] + a[1..] && b == [b[0]] + b[1..];
        forall k: nat | k < |a| && k < |b|
          ensures k > 0 ==> (a[..k] == b[..k] <==> a[1..][..k - 1] == b[1..][..k - 1])
        {
          if k > 0 {
            assert a[..k] == [a[0]] + a[1..][..k - 1] && b[..k] == [b[0]] + b[1..][..k - 1];
          }
        }
        forall k: nat | k < |a[1..]| && k < |b[1..]| && a[1..][..k] == b[1..][..k] && a[1..][k] < b[1..][k]
          ensures a[..k + 1] == b[..k + 1] && a[k + 1] < b[k + 1]
        {}
      } else {
        assert a[..0] == b[..0];
        forall k: nat | 0 < k < |a| && k < |b|
          ensures a[..k] != b[..k]
        {
          assert a[..k][0] == a[0] && b[..k][0] == b[0];
        }
      }
    }
  }

  lemma {:induction false} LessIsAsymmetric(a: string, b: string)
    ensures !(Less(a, b) && Less(b, a))
    decreases |a|
  {
    if a != "" && b != "" && a[0] == b[0] { LessIsAsymmetric(a[1..], b[1..]); }
  }

  ghost predicate Sorted(paths: seq<string>) {
    forall i, j :: 0 <= i < j < |paths| ==> Less(paths[i], paths[j])
  }

  /** The keys of the files, in sorted order. */
  ghost predicate SortedKeys(paths: seq<string>, files: map<string, Bytes>) {
    Sorted(paths) && forall p :: p in paths <==> p in files
  }

  lemma SameEmptiness(a: seq<string>, b: seq<string>)
    requires forall p :: p in a ==> p in b
    ensures a != [] ==> b != []
  {
    if a != [] { assert a[0] in b; }
  }

  /** There is only one such list, so the archive depends only on the files. */
  lemma {:induction false} SortedKeysAreUnique(a: seq<string>, b: seq<string>)
    requires Sorted(a) && Sorted(b) && forall p :: p in a <==> p in b
    ensures a == b
    decreases |a|
  {
    SameEmptiness(a, b);
    SameEmptiness(b, a);
    if a != [] {
      assert a[0] in b && b[0] in a;
      LessIsAsymmetric(a[0], b[0]);
      forall p
        ensures p in a[1..] <==> p in b[1..]
      {
        LessIsAsymmetric(a[0], a[0]);
        if p in a[1..] { assert p in b && p != b[0]; }
        if p in b[1..] { assert p in a && p != a[0]; }
      }
      SortedKeysAreUnique(a[1..], b[1..]);
      assert a == [a[0]] + a[1..] && b == [b[0]] + b[1..];
    }
  }

  // ---------------------------------------------------------------- entries

  datatype Entry = Entry(halves: Halves, data: Bytes)

  /** A whole number of blocks. */
  predicate Aligned(n: nat) {
    n % BLOCK == 0
  }

  function Padding(size: nat): (n: nat)
    ensures n < BLOCK && Aligned(size + n)
  {
    (BLOCK - size % BLOCK) % BLOCK
  }

  predicate Storable(e: Entry) {
    Fillable(e.halves, |e.data|) && |e.data| < Pow8(11)
  }

  /** A header, the data and NULs up to the next block. */
  function EntryBytes(e: Entry): (bytes: Bytes)
    requires Fillable(e.halves, |e.data|)
    ensures |bytes| == BLOCK + |e.data| + Padding(|e.data|)
  {
    HeaderBytes(e.halves, |e.data|) + e.data + Zeros(Padding(|e.data|))
  }

  ghost predicate AllFillable(entries: seq<Entry>) {
    forall i :: 0 <= i < |entries| ==> Fillable(entries[i].halves, |entries[i].data|)
  }

  ghost function EntriesBytes(entries: seq<Entry>): Bytes
    requires AllFillable(entries)
  {
    if entries == [] then []
    else EntriesBytes(entries[..|entries| - 1]) + EntryBytes(entries[|entries| - 1])
  }

  lemma SumsAreAligned(a: nat, b: nat)
    requires Aligned(a) && Aligned(b)
    ensures Aligned(a + b)
  {}

  lemma BlocksAreAligned()
    ensures Aligned(BLOCK) && Aligned(2 * BLOCK) && Aligned(0)
  {}

  lemma EntryIsAligned(e: Entry)
    requires Fillable(e.halves, |e.data|)
    ensures Aligned(|EntryBytes(e)|)
  {
    hide *;
    BlocksAreAligned();
    SumsAreAligned(BLOCK, |e.data| + Padding(|e.data|));
  }

  lemma LengthOfEntries(entries: seq<Entry>)
    requires AllFillable(entries) && entries != []
    ensures var before, last := entries[..|entries| - 1], entries[|entries| - 1];
      |EntriesBytes(entries)| == |EntriesBytes(before)| + |EntryBytes(last)|
  {
    hide Fillable, EntryBytes;
  }

  /** Every entry begins and ends on a block boundary. */
  lemma {:induction false} EntriesAreAligned(entries: seq<Entry>)
    requires AllFillable(entries)
    ensures Aligned(|EntriesBytes(entries)|)
    ensures entries != [] ==> Aligned(|EntryBytes(entries[|entries| - 1])|)
    decreases |entries|
  {
    hide Fillable, EntryBytes, EntriesBytes, Aligned, Padding;
    if entries == [] {
      NoEntries(map[]);
      BlocksAreAligned();
    } else {
      var before, last := entries[..|entries| - 1], entries[|entries| - 1];
      EntriesAreAligned(before);
      EntryIsAligned(last);
      LengthOfEntries(entries);
      SumsAreAligned(|EntriesBytes(before)|, |EntryBytes(last)|);
    }
  }

  datatype File = File(path: string, data: Bytes)

  function FileOf(e: Entry): File {
    File(Joined(e.halves), e.data)
  }

  function FilesOf(entries: seq<Entry>): seq<File> {
    if entries == [] then []
    else FilesOf(entries[..|entries| - 1]) + [FileOf(entries[|entries| - 1])]
  }

  // ---------------------------------------------------------------- reading

  /** Reads entries up to the two blocks of NULs that end an archive. */
  function ReadArchive(bytes: Bytes): Option<seq<File>>
    decreases |bytes|
  {
    if |bytes| < BLOCK then None
    else if bytes[..BLOCK] == Zeros(BLOCK) then
      if |bytes| >= 2 * BLOCK && bytes[BLOCK..2 * BLOCK] == Zeros(BLOCK) then Some([]) else None
    else
      var header := ReadHeader(bytes[..BLOCK]);
      if header == None || header.value.1 < 0 then None
      else
        var size: nat := header.value.1;
        var length := BLOCK + size + Padding(size);
        if |bytes| < length then None
        else
          var rest := ReadArchive(bytes[length..]);
          if rest == None then None
          else Some([File(header.value.0, bytes[BLOCK..BLOCK + size])] + rest.value)
  }

  lemma EntryIsRead(e: Entry, tail: Bytes)
    requires Storable(e) && ReadArchive(tail).Some?
    ensures ReadArchive(EntryBytes(e) + tail) == Some([FileOf(e)] + ReadArchive(tail).value)
  {
    hide HeaderBytes, ReadHeader, Fillable, Pow8, Joined;
    HeaderRoundTrip(e.halves, |e.data|);
    var header, padding := HeaderBytes(e.halves, |e.data|), Zeros(Padding(|e.data|));
    assert header != Zeros(BLOCK) by { assert Zeros(BLOCK)[156] == 0; }
    FourParts(header, e.data, padding, tail);
  }

  lemma FourParts(header: Bytes, data: Bytes, padding: Bytes, tail: Bytes)
    ensures var bytes := header + data + padding + tail;
      && bytes[..|header|] == header && bytes[|header|..|header| + |data|] == data
      && bytes[|header| + |data| + |padding|..] == tail
  {}

  /** Reading what was written gives back every file, in the order written. */
  lemma {:induction false} EntriesAreRead(entries: seq<Entry>, tail: Bytes)
    requires AllFillable(entries) && (forall i :: 0 <= i < |entries| ==> Storable(entries[i]))
    requires ReadArchive(tail).Some?
    ensures ReadArchive(EntriesBytes(entries) + tail) == Some(FilesOf(entries) + ReadArchive(tail).value)
    decreases |entries|
  {
    if entries == [] {
      assert [] + tail == tail && [] + ReadArchive(tail).value == ReadArchive(tail).value;
    } else {
      var before, last := entries[..|entries| - 1], entries[|entries| - 1];
      EntryIsRead(last, tail);
      EntriesAreRead(before, EntryBytes(last) + tail);
      hide ReadArchive, EntryBytes, Fillable;
      assert EntriesBytes(entries) == EntriesBytes(before) + EntryBytes(last);
      AssociativeBytes(EntriesBytes(before), EntryBytes(last), tail);
      AssociativeFiles(FilesOf(before), [FileOf(last)], ReadArchive(tail).value);
    }
  }

  lemma AssociativeBytes(a: Bytes, b: Bytes, c: Bytes)
    ensures a + b + c == a + (b + c)
  {}

  lemma AssociativeFiles(a: seq<File>, b: seq<File>, c: seq<File>)
    ensures a + b + c == a + (b + c)
  {}

  lemma EndIsRead()
    ensures ReadArchive(Zeros(2 * BLOCK)) == Some([])
  {
    var end := Zeros(2 * BLOCK);
    assert end[..BLOCK] == Zeros(BLOCK) && end[BLOCK..2 * BLOCK] == Zeros(BLOCK);
  }

  // ---------------------------------------------------------------- writing

  lemma PartsAppended(parts: seq<Bytes>, a: Bytes, b: Bytes, c: Bytes)
    ensures Concat(parts + [a, b, c]) == Concat(parts) + (a + b + c)
  {
    var p1, p2, p3 := parts + [a], parts + [a, b], parts + [a, b, c];
    assert p1[..|p1| - 1] == parts && Concat(p1) == Concat(parts) + a;
    assert p2[..|p2| - 1] == p1 && Concat(p2) == Concat(p1) + b;
    assert p3[..|p3| - 1] == p2 && Concat(p3) == Concat(p2) + c;
    AssociativeBytes(Concat(parts), a, b);
    AssociativeBytes(Concat(parts), a + b, c);
  }

  /** The files at some of the paths. */
  function FilesAt(paths: seq<string>, files: map<string, Bytes>): seq<File>
    requires forall p :: p in paths ==> p in files
  {
    if paths == [] then []
    else
      var last := paths[|paths| - 1];
      FilesAt(paths[..|paths| - 1], files) + [File(last, files[last])]
  }

  /**
   * Writes the archive, which exists exactly when every path fits; reading it back gives exactly the files, in sorted path
   * order. `paths` is what `Object.keys(files).sort()` gives.
   */
  method DeterministicTar(files: map<string, Bytes>, paths: seq<string>) returns (r: Option<Bytes>)
    requires SortedKeys(paths, files) && forall p :: p in files ==> |files[p]| < Pow8(18)
    ensures r.Some? <==> forall p :: p in files ==> Fits(p)
    ensures r.Some? ==> Aligned(|r.value|)
    ensures r.Some? && (forall p :: p in files ==> |files[p]| < Pow8(11)) ==>
      ReadArchive(r.value) == Some(FilesAt(paths, files))
  {
    hide Fits, Pow8, ReadArchive;
    ghost var entries: seq<Entry>;
    var parts: Option<seq<Bytes>>;
    parts, entries := WriteEntries(files, paths);
    if parts == None {
      return None;
    }
    var all := parts.value + [Zeros(2 * BLOCK)];
    assert all[..|all| - 1] == parts.value;
    r := Some(Concat(all));
    ArchiveIsAligned(entries);
    if forall p :: p in files ==> |files[p]| < Pow8(11) {
      assert forall i :: 0 <= i < |entries| ==> paths[i] in paths;
      ArchiveReads(entries);
    }
  }

  /** The parts of all files, one after another. */
  method WriteEntries(files: map<string, Bytes>, paths: seq<string>)
    returns (parts: Option<seq<Bytes>>, ghost entries: seq<Entry>)
    requires SortedKeys(paths, files) && forall p :: p in files ==> |files[p]| < Pow8(18)
    ensures parts.Some? <==> forall p :: p in files ==> Fits(p)
    ensures parts.Some? ==>
      AllFillable(entries) && Concat(parts.value) == EntriesBytes(entries) && FilesOf(entries) == FilesAt(paths, files)
      && |entries| == |paths| && forall i :: 0 <= i < |paths| ==> entries[i].data == files[paths[i]]
  {
    hide Fits, Pow8, Fillable, EntriesBytes, Sorted, FilesOf, FilesAt, Concat, Joined, HeaderBytes;
    var written: seq<Bytes> := [];
    entries := [];
    NoEntries(files);
    for i := 0 to |paths|
      invariant forall j :: 0 <= j < i ==> Fits(paths[j])
      invariant |entries| == i && AllFillable(entries) && Concat(written) == EntriesBytes(entries)
      invariant FilesOf(entries) == FilesAt(paths[..i], files)
      invariant forall j :: 0 <= j < i ==> entries[j].data == files[paths[j]]
    {
      var path := paths[i];
      assert path in paths;
      var data := files[path];
      var block, halves := Header(path, |data|);
      if block == None {
        return None, entries;
      }
      OneMoreEntry(written, entries, halves, data);
      written := written + [block.value[..], data, Zeros(Padding(|data|))];
      entries := entries + [Entry(halves, data)];
      FilesAtNext(paths, i, files);
    }
    assert paths[..|paths|] == paths;
    parts := Some(written);
  }

  lemma NoEntries(files: map<string, Bytes>)
    ensures EntriesBytes([]) == Concat<Byte>([]) == [] && FilesOf([]) == [] && FilesAt([], files) == []
  {}

  lemma FilesAtNext(paths: seq<string>, i: nat, files: map<string, Bytes>)
    requires i < |paths| && forall p :: p in paths ==> p in files
    ensures FilesAt(paths[..i + 1], files) == FilesAt(paths[..i], files) + [File(paths[i], files[paths[i]])]
  {
    assert paths[..i + 1][..i] == paths[..i] && paths[i] in paths;
  }

  lemma ArchiveIsAligned(entries: seq<Entry>)
    requires AllFillable(entries)
    ensures Aligned(|EntriesBytes(entries) + Zeros(2 * BLOCK)|)
  {
    hide Fillable, EntriesBytes, EntryBytes, Aligned;
    BlocksAreAligned();
    EntriesAreAligned(entries);
    SumsAreAligned(|EntriesBytes(entries)|, 2 * BLOCK);
  }

  lemma ArchiveReads(entries: seq<Entry>)
    requires AllFillable(entries) && forall i :: 0 <= i < |entries| ==> |entries[i].data| < Pow8(11)
    ensures ReadArchive(EntriesBytes(entries) + Zeros(2 * BLOCK)) == Some(FilesOf(entries))
  {
    hide Pow8, Fillable, ReadArchive, EntriesBytes, FilesOf;
    EndIsRead();
    EntriesAreRead(entries, Zeros(2 * BLOCK));
    assert FilesOf(entries) + [] == FilesOf(entries);
  }

  /** The parts of one more file. */
  lemma OneMoreEntry(parts: seq<Bytes>, entries: seq<Entry>, halves: Halves, data: Bytes)
    requires AllFillable(entries) && Concat(parts) == EntriesBytes(entries) && Fillable(halves, |data|)
    ensures var longer := entries + [Entry(halves, data)];
      && AllFillable(longer)
      && Concat(parts + [HeaderBytes(halves, |data|), data, Zeros(Padding(|data|))]) == EntriesBytes(longer)
      && FilesOf(longer) == FilesOf(entries) + [File(Joined(halves), data)]
  {
    PartsAppended(parts, HeaderBytes(halves, |data|), data, Zeros(Padding(|data|)));
    assert (entries + [Entry(halves, data)])[..|entries|] == entries;
  }
}
