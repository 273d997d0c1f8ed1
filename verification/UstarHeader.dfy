/** One ustar header block (packages/agent/scripts/deterministic-tar-gz.ts:3-37). */
module UstarHeader {
  import opened Numbers
  import opened Options

  type Byte = b: int | 0 <= b < 256

  type Bytes = seq<Byte>

  const BLOCK: nat := 512
  const NAME_MAX: nat := 100
  const PREFIX_MAX: nat := 155

  // ---------------------------------------------------------------- splitting a path

  predicate Printable(s: string) {
    forall i :: 0 <= i < |s| ==> 0x20 <= s[i] as int <= 0x7e
  }

  /** A slash at which the path can be cut so that both sides fit their fields. */
  predicate FitsAt(path: string, slash: int) {
    0 < slash < |path| && path[slash] == '/' && slash <= PREFIX_MAX && |path| - slash - 1 <= NAME_MAX
  }

  /** A path a ustar header can hold. */
  ghost predicate Fits(path: string) {
    path != "" && Printable(path) && (|path| <= NAME_MAX || exists slash :: FitsAt(path, slash))
  }

  datatype Halves = Halves(name: string, prefix: string)

  /** The halves as a reader puts them together again. */
  function Joined(h: Halves): string {
    if h.prefix == "" then h.name else h.prefix + "/" + h.name
  }

  /** `String.prototype.lastIndexOf` for a slash. */
  method LastSlash(path: string, from: int) returns (at: int)
    ensures -1 <= at < |path| && at <= Max(-1, from)
    ensures at >= 0 ==> path[at] == '/'
    ensures forall i :: at < i < |path| && i <= from ==> path[i] != '/'
  {
    at := if from < |path| then Max(-1, from) else |path| - 1;
    while at >= 0 && path[at] != '/'
      invariant -1 <= at < |path| && at <= Max(-1, from)
      invariant forall i :: at < i < |path| && i <= from ==> path[i] != '/'
    {
      at := at - 1;
    }
  }

  /**
   * Splits a path exactly when it fits, and the halves fit their fields and make up the path again. A path that fits the
   * name field is not split; any other is split at the last slash that will do.
   */
  method SplitPath(path: string) returns (r: Option<Halves>)
    ensures r.Some? <==> Fits(path)
    ensures r.Some? ==>
      Joined(r.value) == path && |r.value.name| <= NAME_MAX && |r.value.prefix| <= PREFIX_MAX
      && Printable(r.value.name) && Printable(r.value.prefix)
      && (r.value.prefix == "" <==> |path| <= NAME_MAX)
      && (|path| > NAME_MAX ==> forall slash :: FitsAt(path, slash) ==> slash <= |r.value.prefix|)
  {
    if path == "" || !Printable(path) {
      return None;
    }
    if |path| <= NAME_MAX {
      return Some(Halves(path, ""));
    }
    var slash := LastSlash(path, PREFIX_MAX);
    while slash > 0
      invariant -1 <= slash < |path| && slash <= PREFIX_MAX && (slash >= 0 ==> path[slash] == '/')
      invariant forall s :: FitsAt(path, s) ==> s <= slash
    {
      if |path| - slash - 1 <= NAME_MAX {
        assert FitsAt(path, slash) && path == path[..slash] + "/" + path[slash + 1..];
        return Some(Halves(path[slash + 1..], path[..slash]));
      }
      slash := LastSlash(path, slash - 1);
    }
    r := None;
  }

  /** What fits: up to 100 characters, or up to 155 and up to 100 on the two sides of a slash that is not the first. */
  lemma {:induction false} FitsInTwoFields(path: string)
    ensures Fits(path) <==>
      && path != "" && (forall c :: c in path ==> ' ' <= c <= '~')
      && (|path| <= 100
          || exists prefix: string, name: string ::
               path == prefix + "/" + name && 1 <= |prefix| <= 155 && |name| <= 100)
  {
    hide FitsAt, Printable;
    PrintableCharacters(path);
    if exists slash :: FitsAt(path, slash) {
      var slash :| FitsAt(path, slash);
      CutAt(path, slash);
    }
    forall prefix: string, name: string | path == prefix + "/" + name && 1 <= |prefix| <= 155 && |name| <= 100
      ensures FitsAt(path, |prefix|)
    {
      JoinedAt(path, prefix, name);
    }
  }

  lemma PrintableCharacters(path: string)
    ensures Printable(path) <==> forall c :: c in path ==> ' ' <= c <= '~'
  {
    assert forall i :: 0 <= i < |path| ==> path[i] in path;
    assert ' ' as int == 0x20 && '~' as int == 0x7e;
  }

  lemma CutAt(path: string, slash: int)
    requires FitsAt(path, slash)
    ensures 1 <= slash <= 155 && slash < |path| && |path[slash + 1..]| <= 100
    ensures path == path[..slash] + "/" + path[slash + 1..]
  {}

  lemma JoinedAt(path: string, prefix: string, name: string)
    requires path == prefix + "/" + name && 1 <= |prefix| <= 155 && |name| <= 100
    ensures FitsAt(path, |prefix|)
  {}

  // ---------------------------------------------------------------- octal fields

  function Pow8(n: nat): (r: nat)
    ensures r >= 1
  {
    if n == 0 then 1 else 8 * Pow8(n - 1)
  }

  /** `Number.prototype.toString(8)`, as bytes. */
  function Octal(value: nat): (digits: Bytes)
    ensures |digits| >= 1 && forall i :: 0 <= i < |digits| ==> 0x30 <= digits[i] <= 0x37
  {
    if value < 8 then [0x30 + value] else Octal(value / 8) + [0x30 + value % 8]
  }

  function Zeros(n: nat): (zeros: Bytes)
    ensures |zeros| == n && forall i :: 0 <= i < n ==> zeros[i] == 0
  {
    seq(n, i => 0)
  }

  /** `padStart(width, "0")` */
  function PadStart(digits: Bytes, width: nat): Bytes {
    if |digits| >= width then digits else seq(width - |digits|, i => 0x30) + digits
  }

  /** The value of octal digits. */
  function OctalValue(digits: Bytes): int {
    if digits == [] then 0
    else
      var last: int := digits[|digits| - 1];
      OctalValue(digits[..|digits| - 1]) * 8 + (last - 0x30)
  }

  lemma {:induction false} OctalFits(value: nat, width: nat)
    requires width >= 1
    ensures |Octal(value)| <= width <==> value < Pow8(width)
    decreases width
  {
    assert Pow8(1) == 8;
    if width == 1 {
    } else if value < 8 {
    } else {
      OctalFits(value / 8, width - 1);
    }
  }

  lemma {:induction false} OctalDecodes(value: nat, padding: nat)
    ensures OctalValue(seq(padding, i => 0x30) + Octal(value)) == value
    decreases value
  {
    var zeros: Bytes := seq(padding, i => 0x30);
    if value < 8 {
      assert (zeros + Octal(value))[..padding] == zeros;
      PaddingIsZero(padding);
    } else {
      var rest := Octal(value / 8);
      assert zeros + Octal(value) == (zeros + rest) + [0x30 + value % 8];
      assert ((zeros + rest) + [0x30 + value % 8])[..|zeros + rest|] == zeros + rest;
      OctalDecodes(value / 8, padding);
    }
  }

  lemma {:induction false} PaddingIsZero(padding: nat)
    ensures OctalValue(seq(padding, i => 0x30)) == 0
  {
    if padding > 0 {
      PaddingIsZero(padding - 1);
      assert seq(padding, i => 0x30)[..padding - 1] == seq(padding - 1, i => 0x30);
    }
  }

  /** A value below 8^width, written in a field of that many digits, reads back as itself. */
  lemma {:induction false} OctalFieldRoundTrip(value: nat, width: nat)
    requires width >= 1 && value < Pow8(width)
    ensures |PadStart(Octal(value), width)| == width && OctalValue(PadStart(Octal(value), width)) == value
  {
    OctalFits(value, width);
    OctalDecodes(value, width - |Octal(value)|);
    assert |Octal(value)| == width ==> seq(0, i => 0x30) + Octal(value) == Octal(value);
  }

  // ---------------------------------------------------------------- the block

  /** `block.set(bytes, offset)` */
  function Put(block: Bytes, offset: nat, bytes: Bytes): (r: Bytes)
    requires offset + |bytes| <= |block|
    ensures |r| == |block|
  {
    block[..offset] + bytes + block[offset + |bytes|..]
  }

  datatype Write = Write(offset: nat, bytes: Bytes)

  function WriteAll(block: Bytes, writes: seq<Write>): (r: Bytes)
    requires forall w :: w in writes ==> w.offset + |w.bytes| <= |block|
    ensures |r| == |block|
  {
    if writes == [] then block
    else
      var n := |writes| - 1;
      Put(WriteAll(block, writes[..n]), writes[n].offset, writes[n].bytes)
  }

  function Ascii(s: string): (bytes: Bytes)
    requires Printable(s)
    ensures |bytes| == |s| && forall i :: 0 <= i < |s| ==> bytes[i] == s[i] as int
  {
    seq(|s|, i requires 0 <= i < |s| => s[i] as int)
  }

  /** An octal field: digits padded to one less than the width, then a NUL. */
  function OctalField(value: nat, width: nat): Bytes
    requires width >= 1
  {
    PadStart(Octal(value), width - 1) + [0]
  }

  const SPACES: Bytes := [0x20, 0x20, 0x20, 0x20, 0x20, 0x20, 0x20, 0x20]
  const MAGIC: Bytes := [0x75, 0x73, 0x74, 0x61, 0x72, 0]
  const VERSION: Bytes := [0x30, 0x30]
  const REGULAR: Bytes := [0x30]

  /** The fields in the order they are written. */
  function Fields(h: Halves, size: nat): seq<Write>
    requires Printable(h.name) && Printable(h.prefix)
  {
    [ Write(0, Ascii(h.name)),
      Write(100, OctalField(0x1a4, 8)),
      Write(108, OctalField(0, 8)),
      Write(116, OctalField(0, 8)),
      Write(124, OctalField(size, 12)),
      Write(136, OctalField(0, 12)),
      Write(148, SPACES),
      Write(156, REGULAR),
      Write(257, MAGIC),
      Write(263, VERSION),
      Write(345, Ascii(h.prefix)) ]
  }

  function Sum(bytes: Bytes): nat {
    if bytes == [] then 0 else Sum(bytes[..|bytes| - 1]) + bytes[|bytes| - 1]
  }

  function ChecksumField(sum: nat): Bytes {
    PadStart(Octal(sum), 6) + [0, 0x20]
  }

  predicate Fillable(h: Halves, size: nat) {
    |h.name| <= NAME_MAX && |h.prefix| <= PREFIX_MAX && Printable(h.name) && Printable(h.prefix) && size < Pow8(18)
  }

  ghost predicate AllInside(writes: seq<Write>) {
    forall w :: w in writes ==> w.offset + |w.bytes| <= BLOCK
  }

  lemma OctalFieldLengths(size: nat)
    requires size < Pow8(18)
    ensures |OctalField(0x1a4, 8)| == |OctalField(0, 8)| == 8 && |OctalField(0, 12)| == 12
    ensures |OctalField(size, 12)| <= 19
  {
    OctalFits(size, 18);
    OctalFits(0, 1);
    assert Pow8(1) == 8 && Pow8(2) == 64 && Pow8(3) == 512;
    OctalFits(0x1a4, 3);
  }

  lemma FieldsFit(h: Halves, size: nat)
    requires Fillable(h, size)
    ensures AllInside(Fields(h, size))
  {
    OctalFieldLengths(size);
    hide OctalField, Pow8;
    var ws := Fields(h, size);
    assert forall i :: 0 <= i < |ws| ==> ws[i].offset + |ws[i].bytes| <= BLOCK;
  }

  function Filled(h: Halves, size: nat): (block: Bytes)
    requires Fillable(h, size)
    ensures |block| == BLOCK
  {
    FieldsFit(h, size);
    WriteAll(Zeros(BLOCK), Fields(h, size))
  }

  lemma {:induction false} SumIsBounded(bytes: Bytes)
    ensures Sum(bytes) <= 255 * |bytes|
    decreases |bytes|
  {
    if bytes != [] { SumIsBounded(bytes[..|bytes| - 1]); }
  }

  /** The checksum of a block never needs more than its six digits. */
  lemma {:induction false} ChecksumFits(block: Bytes)
    requires |block| == BLOCK
    ensures Sum(block) < Pow8(6) && |ChecksumField(Sum(block))| == 8
    ensures OctalValue(ChecksumField(Sum(block))[..6]) == Sum(block)
  {
    SumIsBounded(block);
    assert Pow8(6) == 8 * Pow8(5) == 64 * Pow8(4) == 512 * Pow8(3) == 4096 * Pow8(2) == 32768 * Pow8(1) == 262144;
    OctalFieldRoundTrip(Sum(block), 6);
  }

  function HeaderBytes(h: Halves, size: nat): (block: Bytes)
    requires Fillable(h, size)
    ensures |block| == BLOCK
  {
    ChecksumFits(Filled(h, size));
    Put(Filled(h, size), 148, ChecksumField(Sum(Filled(h, size))))
  }

  // ---------------------------------------------------------------- writing it in place

  method WriteBytes(block: array<Byte>, offset: nat, bytes: Bytes)
    requires offset + |bytes| <= block.Length
    modifies block
    ensures block[..] == Put(old(block[..]), offset, bytes)
  {
    ghost var was := block[..];
    for i := 0 to |bytes|
      invariant block[..] == was[..offset] + bytes[..i] + was[offset + i..]
    {
      block[offset + i] := bytes[i];
    }
    assert bytes[..|bytes|] == bytes;
  }

  method SumOf(block: array<Byte>) returns (sum: nat)
    ensures sum == Sum(block[..])
  {
    sum := 0;
    for i := 0 to block.Length
      invariant sum == Sum(block[..i])
    {
      sum := sum + block[i];
      assert block[..i + 1][..i] == block[..i];
    }
    assert block[..block.Length] == block[..];
  }

  method WriteFields(block: array<Byte>, fields: seq<Write>)
    requires block.Length == BLOCK && AllInside(fields)
    modifies block
    ensures block[..] == WriteAll(old(block[..]), fields)
  {
    for i := 0 to |fields|
      invariant AllInside(fields[..i]) && block[..] == WriteAll(old(block[..]), fields[..i])
    {
      assert fields[..i + 1][..i] == fields[..i];
      WriteBytes(block, fields[i].offset, fields[i].bytes);
    }
    assert fields[..|fields|] == fields;
  }

  /** Fills a fresh block: the fields, then the checksum over them. */
  method FillHeader(block: array<Byte>, halves: Halves, size: nat)
    requires block.Length == BLOCK && block[..] == Zeros(BLOCK) && Fillable(halves, size)
    modifies block
    ensures block[..] == HeaderBytes(halves, size)
  {
    FieldsFit(halves, size);
    hide Fields, Put, WriteAll, AllInside, Fillable;
    WriteFields(block, Fields(halves, size));
    ChecksumFits(block[..]);
    var checksum := SumOf(block);
    WriteBytes(block, 148, ChecksumField(checksum));
  }

  /** The header of a file, or nothing when its path does not fit. */
  method Header(path: string, size: nat) returns (r: Option<array<Byte>>, halves: Halves)
    requires size < Pow8(18)
    ensures r.Some? <==> Fits(path)
    ensures r.Some? ==>
      fresh(r.value) && Fillable(halves, size) && Joined(halves) == path && r.value[..] == HeaderBytes(halves, size)
  {
    hide HeaderBytes, Fits, Joined, Pow8;
    var block := new Byte[BLOCK](i => 0);
    var split := SplitPath(path);
    if split == None {
      return None, Halves("", "");
    }
    halves := split.value;
    assert block[..] == Zeros(BLOCK);
    FillHeader(block, halves, size);
    r := Some(block);
  }

  // ---------------------------------------------------------------- reading it back

  /** Each write ends before the next begins, and all are inside the block. */
  ghost predicate InOrder(writes: seq<Write>) {
    && (forall i :: 0 <= i < |writes| ==> writes[i].offset + |writes[i].bytes| <= BLOCK)
    && (forall i, j :: 0 <= i < j < |writes| ==> writes[i].offset + |writes[i].bytes| <= writes[j].offset)
  }

  /** The last write leaves everything apart from it as the earlier ones made it. */
  lemma LastWrite(block: Bytes, writes: seq<Write>, from: nat, to: nat)
    requires |block| == BLOCK && writes != [] && AllInside(writes) && AllInside(writes[..|writes| - 1])
    requires from <= to <= BLOCK
    requires var w := writes[|writes| - 1]; w.offset + |w.bytes| <= from || to <= w.offset
    ensures WriteAll(block, writes)[from..to] == WriteAll(block, writes[..|writes| - 1])[from..to]
  {
    var w := writes[|writes| - 1];
    PutElsewhere(WriteAll(block, writes[..|writes| - 1]), w.offset, w.bytes, from, to);
  }

  /** Bytes that no write touches stay as they were. */
  lemma {:induction false} UntouchedBytes(block: Bytes, writes: seq<Write>, from: nat, to: nat)
    requires |block| == BLOCK && from <= to <= BLOCK && AllInside(writes)
    requires forall i :: 0 <= i < |writes| ==>
      writes[i].offset + |writes[i].bytes| <= from || to <= writes[i].offset
    ensures WriteAll(block, writes)[from..to] == block[from..to]
    decreases |writes|
  {
    if writes != [] {
      var n := |writes| - 1;
      UntouchedBytes(block, writes[..n], from, to);
      hide WriteAll;
      LastWrite(block, writes, from, to);
    }
  }

  /** The gap after field `k`, up to the next field or the end of the block. */
  lemma GapStands(block: Bytes, writes: seq<Write>, k: nat, to: nat)
    requires |block| == BLOCK && InOrder(writes) && k < |writes|
    requires writes[k].offset + |writes[k].bytes| <= to <= BLOCK
    requires k + 1 < |writes| ==> to <= writes[k + 1].offset
    requires AllInside(writes)
    ensures var from := writes[k].offset + |writes[k].bytes|; WriteAll(block, writes)[from..to] == block[from..to]
  {
    UntouchedBytes(block, writes, writes[k].offset + |writes[k].bytes|, to);
  }

  lemma PutElsewhere(block: Bytes, offset: nat, bytes: Bytes, from: nat, to: nat)
    requires offset + |bytes| <= |block| && from <= to <= |block|
    requires offset + |bytes| <= from || to <= offset
    ensures Put(block, offset, bytes)[from..to] == block[from..to]
  {}

  /** A field reads back. */
  lemma FirstInOrder(writes: seq<Write>)
    requires writes != [] && InOrder(writes) && AllInside(writes)
    ensures InOrder(writes[..|writes| - 1]) && AllInside(writes[..|writes| - 1])
    ensures forall k :: 0 <= k < |writes| - 1 ==>
      writes[k].offset + |writes[k].bytes| <= writes[|writes| - 1].offset
    ensures forall k :: 0 <= k < |writes| ==> writes[k].offset + |writes[k].bytes| <= BLOCK
  {}

  lemma LastWriteStands(block: Bytes, writes: seq<Write>)
    requires |block| == BLOCK && writes != [] && AllInside(writes)
    ensures var w := writes[|writes| - 1]; WriteAll(block, writes)[w.offset..w.offset + |w.bytes|] == w.bytes
  {
    var w := writes[|writes| - 1];
    PutStands(WriteAll(block, writes[..|writes| - 1]), w.offset, w.bytes);
  }

  lemma PutStands(block: Bytes, offset: nat, bytes: Bytes)
    requires offset + |bytes| <= |block|
    ensures Put(block, offset, bytes)[offset..offset + |bytes|] == bytes
  {}

  lemma {:induction false} FieldStands(block: Bytes, writes: seq<Write>, k: nat)
    requires |block| == BLOCK && InOrder(writes) && k < |writes|
    requires AllInside(writes)
    ensures WriteAll(block, writes)[writes[k].offset..writes[k].offset + |writes[k].bytes|] == writes[k].bytes
    decreases |writes|
  {
    var n := |writes| - 1;
    var before := writes[..n];
    FirstInOrder(writes);
    if k == n {
      LastWriteStands(block, writes);
    } else {
      hide WriteAll, Put, InOrder, AllInside;
      FieldStands(block, before, k);
      LastWrite(block, writes, writes[k].offset, writes[k].offset + |writes[k].bytes|);
    }
  }

  /** The bytes up to the first NUL. */
  function UntilNul(field: Bytes): Bytes {
    if field == [] || field[0] == 0 then [] else [field[0]] + UntilNul(field[1..])
  }

  lemma {:induction false} UntilNulOfPadded(text: Bytes, padding: nat)
    requires 0 !in text
    ensures UntilNul(text + Zeros(padding)) == text
    decreases |text|
  {
    if text == [] {
      assert text + Zeros(padding) == Zeros(padding);
    } else {
      assert (text + Zeros(padding))[1..] == text[1..] + Zeros(padding);
      UntilNulOfPadded(text[1..], padding);
    }
  }

  function TextOf(bytes: Bytes): string {
    seq(|bytes|, i requires 0 <= i < |bytes| => bytes[i] as char)
  }

  /** What a reader of the ustar interchange format takes from a header, if its checksum is right. */
  function ReadHeader(block: Bytes): Option<(string, int)>
    requires |block| == BLOCK
  {
    if OctalValue(block[148..154]) != Sum(Put(block, 148, SPACES)) then None
    else
      var halves := Halves(TextOf(UntilNul(block[0..100])), TextOf(UntilNul(block[345..500])));
      Some((Joined(halves), OctalValue(block[124..135])))
  }

  lemma FieldLengths(size: nat)
    requires size < Pow8(11)
    ensures |OctalField(0x1a4, 8)| == |OctalField(0, 8)| == 8
    ensures |OctalField(0, 12)| == |OctalField(size, 12)| == 12
    ensures OctalField(size, 12)[..11] == PadStart(Octal(size), 11)
  {
    OctalFieldRoundTrip(size, 11);
    OctalFits(0, 1);
    assert Pow8(1) == 8 && Pow8(2) == 64 && Pow8(3) == 512;
    OctalFits(0x1a4, 3);
  }

  lemma FieldsAreInOrder(h: Halves, size: nat)
    requires Fillable(h, size) && size < Pow8(11)
    ensures InOrder(Fields(h, size))
  {
    FieldLengths(size);
    hide OctalField, Pow8;
  }

  /** A field that is shorter than the space before the next one is padded with NULs. */
  lemma PaddedFieldStands(ws: seq<Write>, k: nat, width: nat)
    requires InOrder(ws) && AllInside(ws) && k < |ws| && |ws[k].bytes| <= width && ws[k].offset + width <= BLOCK
    requires k + 1 < |ws| ==> ws[k].offset + width <= ws[k + 1].offset
    ensures WriteAll(Zeros(BLOCK), ws)[ws[k].offset..ws[k].offset + width]
         == ws[k].bytes + Zeros(width - |ws[k].bytes|)
  {
    hide WriteAll;
    var from, to := ws[k].offset, ws[k].offset + width;
    FieldStands(Zeros(BLOCK), ws, k);
    GapStands(Zeros(BLOCK), ws, k, to);
    hide InOrder, AllInside;
    TextThenZeros(WriteAll(Zeros(BLOCK), ws), ws[k].bytes, from, to);
  }

  lemma TextThenZeros(block: Bytes, bytes: Bytes, from: nat, to: nat)
    requires |block| == BLOCK && from + |bytes| <= to <= BLOCK
    requires block[from..from + |bytes|] == bytes && block[from + |bytes|..to] == Zeros(BLOCK)[from + |bytes|..to]
    ensures block[from..to] == bytes + Zeros(to - from - |bytes|)
  {
    assert block[from..to] == block[from..from + |bytes|] + block[from + |bytes|..to];
    assert Zeros(BLOCK)[from + |bytes|..to] == Zeros(to - from - |bytes|);
  }

  /** The fields a reader needs, as they stand in the block before the checksum. */
  lemma FieldsOfOrdered(ws: seq<Write>, size: Bytes)
    requires InOrder(ws) && AllInside(ws) && |ws| == 11
    requires ws[0].offset == 0 && |ws[0].bytes| <= 100 && ws[1].offset == 100
    requires ws[4].offset == 124 && |ws[4].bytes| == 12 && ws[4].bytes[..11] == size
    requires ws[6] == Write(148, SPACES) && ws[7] == Write(156, REGULAR)
    requires ws[10].offset == 345 && |ws[10].bytes| <= 155
    ensures var block := WriteAll(Zeros(BLOCK), ws);
      && block[0..100] == ws[0].bytes + Zeros(100 - |ws[0].bytes|)
      && block[345..500] == ws[10].bytes + Zeros(155 - |ws[10].bytes|)
      && block[124..135] == size && block[148..156] == SPACES && block[156..157] == REGULAR
  {
    PaddedFieldStands(ws, 0, 100);
    PaddedFieldStands(ws, 10, 155);
    FieldStands(Zeros(BLOCK), ws, 4);
    FieldStands(Zeros(BLOCK), ws, 6);
    FieldStands(Zeros(BLOCK), ws, 7);
    hide WriteAll, InOrder;
    var block := WriteAll(Zeros(BLOCK), ws);
    assert block[124..135] == block[124..136][..11];
  }

  lemma FieldsAt(h: Halves, size: nat)
    requires Fillable(h, size)
    ensures var ws := Fields(h, size);
      && |ws| == 11 && ws[0] == Write(0, Ascii(h.name)) && ws[1].offset == 100
      && ws[4] == Write(124, OctalField(size, 12)) && ws[6] == Write(148, SPACES) && ws[7] == Write(156, REGULAR)
      && ws[10] == Write(345, Ascii(h.prefix))
  {
    hide OctalField, Pow8;
  }

  lemma FieldsOfFilled(h: Halves, size: nat)
    requires Fillable(h, size) && size < Pow8(11)
    ensures var block := Filled(h, size);
      && block[0..100] == Ascii(h.name) + Zeros(100 - |h.name|)
      && block[345..500] == Ascii(h.prefix) + Zeros(155 - |h.prefix|)
      && block[124..135] == PadStart(Octal(size), 11)
      && block[148..156] == SPACES && block[156..157] == REGULAR
  {
    hide WriteAll, InOrder, AllInside, OctalField, PadStart, Octal, Fields, Pow8;
    FieldsFit(h, size);
    FieldLengths(size);
    FieldsAreInOrder(h, size);
    FieldsAt(h, size);
    FieldsOfOrdered(Fields(h, size), PadStart(Octal(size), 11));
  }

  /** The checksum goes over the spaces that stand in its place, and nothing else changes. */
  lemma ChecksumIsRight(block: Bytes)
    requires |block| == BLOCK && block[148..156] == SPACES
    ensures |ChecksumField(Sum(block))| == 8
    ensures var sealed := Put(block, 148, ChecksumField(Sum(block)));
      && Put(sealed, 148, SPACES) == block && OctalValue(sealed[148..154]) == Sum(block)
      && sealed[0..100] == block[0..100] && sealed[345..500] == block[345..500]
      && sealed[124..135] == block[124..135] && sealed[156..157] == block[156..157]
  {
    ChecksumFits(block);
    var field := ChecksumField(Sum(block));
    var sealed := Put(block, 148, field);
    hide ChecksumField, Sum;
    PutElsewhere(block, 148, field, 0, 100);
    PutElsewhere(block, 148, field, 345, 500);
    PutElsewhere(block, 148, field, 124, 135);
    PutElsewhere(block, 148, field, 156, 157);
    PutBack(block, 148, field);
  }

  /** What was put somewhere reads back from there, and putting the old bytes back restores the block. */
  lemma PutBack(block: Bytes, offset: nat, bytes: Bytes)
    requires offset + |bytes| <= |block|
    ensures Put(Put(block, offset, bytes), offset, block[offset..offset + |bytes|]) == block
    ensures forall n :: 0 <= n <= |bytes| ==> Put(block, offset, bytes)[offset..offset + n] == bytes[..n]
  {}

  lemma ReadsBack(sealed: Bytes, block: Bytes, h: Halves, size: nat)
    requires |sealed| == BLOCK && Fillable(h, size) && size < Pow8(11)
    requires Put(sealed, 148, SPACES) == block && OctalValue(sealed[148..154]) == Sum(block)
    requires sealed[0..100] == Ascii(h.name) + Zeros(100 - |h.name|)
    requires sealed[345..500] == Ascii(h.prefix) + Zeros(155 - |h.prefix|)
    requires sealed[124..135] == PadStart(Octal(size), 11)
    ensures ReadHeader(sealed) == Some((Joined(h), size))
  {
    hide Put, Sum, OctalValue, PadStart, Octal, Pow8, Joined, UntilNul;
    UntilNulOfPadded(Ascii(h.name), 100 - |h.name|);
    UntilNulOfPadded(Ascii(h.prefix), 155 - |h.prefix|);
    OctalFieldRoundTrip(size, 11);
    assert TextOf(Ascii(h.name)) == h.name && TextOf(Ascii(h.prefix)) == h.prefix;
  }

  /** A header reads back as the path and the size it was written for. */
  lemma {:induction false} HeaderRoundTrip(h: Halves, size: nat)
    requires Fillable(h, size) && size < Pow8(11)
    ensures ReadHeader(HeaderBytes(h, size)) == Some((Joined(h), size))
    ensures HeaderBytes(h, size)[156] == 0x30
  {
    FieldsOfFilled(h, size);
    ChecksumIsRight(Filled(h, size));
    hide ReadHeader, Filled, Put, Sum, OctalValue, PadStart, Octal, ChecksumField, Pow8, Joined;
    var sealed := HeaderBytes(h, size);
    ReadsBack(sealed, Filled(h, size), h, size);
    assert sealed[156] == sealed[156..157][0];
  }

  // ---------------------------------------------------------------- the other fields

  lemma OtherFieldsAt(h: Halves, size: nat)
    requires Fillable(h, size)
    ensures var ws := Fields(h, size);
      && |ws| == 11
      && ws[1] == Write(100, OctalField(420, 8)) && ws[2] == Write(108, OctalField(0, 8))
      && ws[3] == Write(116, OctalField(0, 8)) && ws[5] == Write(136, OctalField(0, 12))
      && ws[7].offset == 156 && |ws[7].bytes| == 1 && ws[8] == Write(257, [117, 115, 116, 97, 114, 0])
      && ws[9] == Write(263, [48, 48]) && ws[10] == Write(345, Ascii(h.prefix))
  {
    hide OctalField, Pow8;
  }

  lemma OtherFieldsOfOrdered(ws: seq<Write>, prefix: nat)
    requires InOrder(ws) && AllInside(ws) && |ws| == 11
    requires ws[1].offset == 100 && |ws[1].bytes| == 8 && ws[2].offset == 108 && |ws[2].bytes| == 8
    requires ws[3].offset == 116 && |ws[3].bytes| == 8 && ws[5].offset == 136 && |ws[5].bytes| == 12
    requires ws[7].offset == 156 && |ws[7].bytes| == 1 && ws[8].offset == 257 && |ws[8].bytes| == 6
    requires ws[9].offset == 263 && |ws[9].bytes| == 2 && ws[10].offset == 345 && |ws[10].bytes| <= 155
    ensures var block := WriteAll(Zeros(BLOCK), ws);
      && block[100..108] == ws[1].bytes && block[108..116] == ws[2].bytes && block[116..124] == ws[3].bytes
      && block[136..148] == ws[5].bytes && block[257..263] == ws[8].bytes && block[263..265] == ws[9].bytes
      && block[157..257] == Zeros(BLOCK)[157..257] && block[265..345] == Zeros(BLOCK)[265..345]
      && block[500..512] == Zeros(BLOCK)[500..512]
  {
    FieldStands(Zeros(BLOCK), ws, 1);
    FieldStands(Zeros(BLOCK), ws, 2);
    FieldStands(Zeros(BLOCK), ws, 3);
    FieldStands(Zeros(BLOCK), ws, 5);
    FieldStands(Zeros(BLOCK), ws, 8);
    FieldStands(Zeros(BLOCK), ws, 9);
    GapStands(Zeros(BLOCK), ws, 7, 257);
    GapStands(Zeros(BLOCK), ws, 9, 345);
    UntouchedBytes(Zeros(BLOCK), ws, 500, 512);
  }

  /**
   * The remaining fields as the ustar interchange format lays them out: mode 0644, owner and group 0, modification time 0, a
   * regular file, the magic text `ustar` with its NUL, version `00`, and no link name, owner names or device.
   */
  lemma {:induction false} OtherFieldsAreStandard(h: Halves, size: nat)
    requires Fillable(h, size) && size < Pow8(11)
    ensures var block := HeaderBytes(h, size);
      && OctalValue(block[100..107]) == 420 && OctalValue(block[108..115]) == 0 && OctalValue(block[116..123]) == 0
      && OctalValue(block[136..147]) == 0 && block[156] == '0' as Byte
      && block[257..263] == ['u' as Byte, 's' as Byte, 't' as Byte, 'a' as Byte, 'r' as Byte, 0]
      && block[263..265] == ['0' as Byte, '0' as Byte]
      && (forall i :: 157 <= i < 257 || 265 <= i < 345 || 500 <= i < 512 ==> block[i] == 0)
  {
    hide WriteAll, InOrder, AllInside, Fields, Put, Sum, OctalValue, PadStart, Octal, ChecksumField;
    HeaderRoundTrip(h, size);
    FieldsFit(h, size);
    FieldLengths(size);
    FieldsAreInOrder(h, size);
    OtherFieldsAt(h, size);
    FieldsAt(h, size);
    OtherFieldsOfOrdered(Fields(h, size), |h.prefix|);
    ChecksumFits(Filled(h, size));
    var filled, checksum := Filled(h, size), ChecksumField(Sum(Filled(h, size)));
    PutElsewhere(filled, 148, checksum, 100, 108);
    PutElsewhere(filled, 148, checksum, 108, 116);
    PutElsewhere(filled, 148, checksum, 116, 124);
    PutElsewhere(filled, 148, checksum, 136, 148);
    PutElsewhere(filled, 148, checksum, 257, 263);
    PutElsewhere(filled, 148, checksum, 263, 265);
    PutElsewhere(filled, 148, checksum, 157, 257);
    PutElsewhere(filled, 148, checksum, 265, 345);
    PutElsewhere(filled, 148, checksum, 500, 512);
    hide Filled, HeaderBytes;
    StandardNumbers();
    var block := Put(filled, 148, checksum);
    assert block[100..107] == block[100..108][..7] && block[108..115] == block[108..116][..7];
    assert block[116..123] == block[116..124][..7] && block[136..147] == block[136..148][..11];
    forall i | 157 <= i < 257 || 265 <= i < 345 || 500 <= i < 512
      ensures block[i] == 0
    {
      if i < 257 {
        assert block[i] == block[157..257][i - 157];
      } else if i < 345 {
        assert block[i] == block[265..345][i - 265];
      } else {
        assert block[i] == block[500..512][i - 500];
      }
    }
  }

  lemma StandardNumbers()
    ensures |OctalField(420, 8)| == |OctalField(0, 8)| == 8 && |OctalField(0, 12)| == 12
    ensures OctalValue(OctalField(420, 8)[..7]) == 420 && OctalValue(OctalField(0, 8)[..7]) == 0
    ensures OctalValue(OctalField(0, 12)[..11]) == 0
  {
    assert Pow8(1) == 8 && Pow8(2) == 64 && Pow8(3) == 512 && Pow8(4) == 4096 && Pow8(5) == 32768;
    assert Pow8(6) == 262144 && Pow8(7) == 2097152;
    OctalFieldRoundTrip(420, 7);
    OctalFieldRoundTrip(0, 7);
    assert 0 < Pow8(11);
    OctalFieldRoundTrip(0, 11);
    hide OctalValue, PadStart, Octal, Pow8;
    assert OctalField(420, 8)[..7] == PadStart(Octal(420), 7);
    assert OctalField(0, 8)[..7] == PadStart(Octal(0), 7);
    assert OctalField(0, 12)[..11] == PadStart(Octal(0), 11);
  }

  // ---------------------------------------------------------------- sizes that do not fit

  lemma {:induction false} OctalValueIsBounded(digits: Bytes)
    requires forall i :: 0 <= i < |digits| ==> 0x30 <= digits[i] <= 0x37
    ensures 0 <= OctalValue(digits) < Pow8(|digits|)
    decreases |digits|
  {
    if digits != [] { OctalValueIsBounded(digits[..|digits| - 1]); }
  }

  /** Later writes that stay clear of some bytes leave them as the earlier ones made them. */
  lemma {:induction false} LaterWrites(block: Bytes, writes: seq<Write>, k: nat, from: nat, to: nat)
    requires |block| == BLOCK && k <= |writes| && from <= to <= BLOCK && AllInside(writes) && AllInside(writes[..k])
    requires forall i :: k <= i < |writes| ==> writes[i].offset + |writes[i].bytes| <= from || to <= writes[i].offset
    ensures WriteAll(block, writes)[from..to] == WriteAll(block, writes[..k])[from..to]
    decreases |writes|
  {
    if k == |writes| {
      assert writes[..k] == writes;
    } else {
      var n := |writes| - 1;
      assert writes[..n][..k] == writes[..k];
      hide WriteAll;
      LaterWrites(block, writes[..n], k, from, to);
      LastWrite(block, writes, from, to);
    }
  }

  lemma LongSizeIsCut(ws: seq<Write>)
    requires AllInside(ws) && |ws| == 11 && ws[4].offset == 124 && |ws[4].bytes| >= 11
    requires forall i :: 5 <= i < 11 ==> ws[i].offset >= 136
    ensures WriteAll(Zeros(BLOCK), ws)[124..135] == ws[4].bytes[..11]
  {
    var first := ws[..5];
    assert first[..4] == ws[..4] && first[4] == ws[4];
    LaterWrites(Zeros(BLOCK), ws, 5, 124, 135);
    assert WriteAll(Zeros(BLOCK), first) == Put(WriteAll(Zeros(BLOCK), first[..4]), 124, ws[4].bytes);
  }

  /** A longer size loses its last digits. */
  lemma LongSizeInFilled(h: Halves, size: nat)
    requires Fillable(h, size) && size >= Pow8(11)
    ensures |Octal(size)| > 11 && Filled(h, size)[124..135] == Octal(size)[..11]
  {
    hide OctalValue, Pow8, AllInside, InOrder, WriteAll;
    OctalFits(size, 11);
    FieldsFit(h, size);
    FieldsAt(h, size);
    LongSizeIsCut(Fields(h, size));
  }

  lemma SizeInFilled(h: Halves, size: nat)
    requires Fillable(h, size)
    ensures OctalValue(Filled(h, size)[124..135]) == size <==> size < Pow8(11)
  {
    hide Fillable, Filled, Octal, OctalValue, Pow8;
    if size < Pow8(11) {
      FieldsOfFilled(h, size);
      OctalFieldRoundTrip(size, 11);
    } else {
      LongSizeInFilled(h, size);
      OctalValueIsBounded(Octal(size)[..11]);
    }
  }

  /** The size field of a header reads back as the size if and only if the size has at most eleven octal digits. */
  lemma {:induction false} SizeReadsBackIffItFits(h: Halves, size: nat)
    requires Fillable(h, size)
    ensures OctalValue(HeaderBytes(h, size)[124..135]) == size <==> size < Pow8(11)
  {
    hide Fillable, Filled, OctalValue, ChecksumField, Sum, Pow8;
    SizeInFilled(h, size);
    ChecksumFits(Filled(h, size));
    PutElsewhere(Filled(h, size), 148, ChecksumField(Sum(Filled(h, size))), 124, 135);
  }
}
