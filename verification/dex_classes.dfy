/** The class-table reader that checks built Android archives: it follows untrusted offsets through
    the string, type and class tables of a DEX file. */
module DexClasses {

  type byte = n: int | 0 <= n < 256

  datatype DexError =
    | InvalidHeader | UnsupportedByteOrder | TruncatedTable | InvalidClassIndex | InvalidTypeIndex
    | TruncatedString | InvalidStringLength | UnterminatedString

  datatype Result<+T> = Ok(value: T) | ValueError(error: DexError)

  /** `bytes.decode("utf-8", errors="replace")`: total, and otherwise left open. */
  type Decode = seq<byte> -> string

  datatype Table = Table(size: nat, offset: nat)

  // The reader as a function of the bytes.

  /** Little-endian 32-bit word. */
  function U32(data: seq<byte>, at: nat): (n: nat)
    requires at + 4 <= |data|
    ensures n < 0x1_0000_0000
  {
    var b0: int, b1: int, b2: int, b3: int := data[at], data[at + 1], data[at + 2], data[at + 3];
    b0 + b1 * 0x100 + b2 * 0x1_0000 + b3 * 0x100_0000
  }

  predicate ValidHeader(data: seq<byte>) {
    |data| >= 112 && data[..4] == [100, 101, 120, 10] && data[7] == 0
  }

  predicate Fits(data: seq<byte>, t: Table, width: nat) {
    t.offset + t.size * width <= |data|
  }

  function ReadTable(data: seq<byte>, header: nat): Table
    requires header + 8 <= |data|
  {
    Table(U32(data, header), U32(data, header + 4))
  }

  /** End of the ULEB128 length at `at`, read in at most `tries` bytes. */
  function SkipLength(data: seq<byte>, at: nat, tries: nat): Result<nat>
    decreases tries
  {
    if tries == 0 then ValueError(InvalidStringLength)
    else if at >= |data| then ValueError(TruncatedString)
    else if data[at] < 0x80 then Ok(at + 1)
    else SkipLength(data, at + 1, tries - 1)
  }

  /** Index of the first NUL at or after `at`. */
  function FindNul(data: seq<byte>, at: nat): (end: Result<nat>)
    ensures end.Ok? ==> at <= end.value < |data| && data[end.value] == 0 && 0 !in data[at..end.value]
    ensures end.ValueError? ==> end.error == UnterminatedString && (at <= |data| ==> 0 !in data[at..])
    decreases |data| - at
  {
    if at >= |data| then ValueError(UnterminatedString)
    else if data[at] == 0 then Ok(at)
    else
      var end := FindNul(data, at + 1);
      assert end.Ok? ==> data[at..end.value] == [data[at]] + data[at + 1..end.value];
      assert data[at..] == [data[at]] + data[at + 1..];
      end
  }

  function ReadString(data: seq<byte>, at: nat): Result<seq<byte>> {
    match SkipLength(data, at, 5)
    case ValueError(e) => ValueError(e)
    case Ok(start) =>
      match FindNul(data, start)
      case ValueError(e) => ValueError(e)
      case Ok(end) => Ok(data[start..end])
  }

  lemma EntryFits(data: seq<byte>, t: Table, width: nat, i: nat)
    requires Fits(data, t, width) && i < t.size && width >= 4
    ensures t.offset + i * width + 4 <= |data|
  {
    assert (i + 1) * width <= t.size * width;
    assert (i + 1) * width == i * width + width;
  }

  /** The descriptor of one class, through its type and string entries. */
  function ReadClass(data: seq<byte>, strings: Table, types: Table, classes: Table, i: nat): Result<seq<byte>>
    requires Fits(data, strings, 4) && Fits(data, types, 4) && Fits(data, classes, 32) && i < classes.size
  {
    EntryFits(data, classes, 32, i);
    var typeIndex := U32(data, classes.offset + i * 32);
    if typeIndex >= types.size then ValueError(InvalidClassIndex)
    else
      EntryFits(data, types, 4, typeIndex);
      var stringIndex := U32(data, types.offset + typeIndex * 4);
      if stringIndex >= strings.size then ValueError(InvalidTypeIndex)
      else
        EntryFits(data, strings, 4, stringIndex);
        ReadString(data, U32(data, strings.offset + stringIndex * 4))
  }

  /** The descriptors of the first `n` classes, or the first error among them. */
  function ReadClasses(decode: Decode, data: seq<byte>, strings: Table, types: Table, classes: Table, n: nat): Result<set<string>>
    requires Fits(data, strings, 4) && Fits(data, types, 4) && Fits(data, classes, 32) && n <= classes.size
  {
    if n == 0 then Ok({})
    else match ReadClasses(decode, data, strings, types, classes, n - 1)
      case ValueError(e) => ValueError(e)
      case Ok(names) =>
        match ReadClass(data, strings, types, classes, n - 1)
        case ValueError(e) => ValueError(e)
        case Ok(name) => Ok(names + {decode(name)})
  }

  function ClassDefinitions(decode: Decode, data: seq<byte>): Result<set<string>> {
    if !ValidHeader(data) then ValueError(InvalidHeader)
    else if U32(data, 40) != 0x12345678 then ValueError(UnsupportedByteOrder)
    else
      var strings, types, classes := ReadTable(data, 56), ReadTable(data, 64), ReadTable(data, 96);
      if !Fits(data, strings, 4) || !Fits(data, types, 4) || !Fits(data, classes, 32) then ValueError(TruncatedTable)
      else ReadClasses(decode, data, strings, types, classes, classes.size)
  }

  // The reader as the script runs it. That it verifies is totality: whatever the bytes are, every
  // read is in bounds and the run ends with a set of names or one of the named errors.

  method ReadStringAt(data: seq<byte>, start: nat) returns (r: Result<seq<byte>>)
    ensures r == ReadString(data, start)
  {
    var offset: nat := start;
    var tries: nat := 0;
    while true
      invariant tries <= 5 && SkipLength(data, offset, 5 - tries) == SkipLength(data, start, 5)
      decreases 5 - tries
    {
      if tries == 5 { return ValueError(InvalidStringLength); }
      if offset >= |data| { return ValueError(TruncatedString); }
      var b := data[offset];
      offset := offset + 1;
      tries := tries + 1;
      if b < 0x80 { break; }
    }
    var end: nat := offset;
    while end < |data| && data[end] != 0
      invariant offset <= end
      invariant end <= |data| || end == offset
      invariant FindNul(data, end) == FindNul(data, offset)
      decreases |data| - end
    {
      end := end + 1;
    }
    if end >= |data| { return ValueError(UnterminatedString); }
    return Ok(data[offset..end]);
  }

  /** One iteration of the class loop. */
  method ReadClassAt(data: seq<byte>, strings: Table, types: Table, classes: Table, index: nat)
      returns (r: Result<seq<byte>>)
    requires Fits(data, strings, 4) && Fits(data, types, 4) && Fits(data, classes, 32) && index < classes.size
    ensures r == ReadClass(data, strings, types, classes, index)
  {
    hide ReadString, U32;
    EntryFits(data, classes, 32, index);
    var typeIndex := U32(data, classes.offset + index * 32);
    if typeIndex >= types.size { return ValueError(InvalidClassIndex); }
    EntryFits(data, types, 4, typeIndex);
    var stringIndex := U32(data, types.offset + typeIndex * 4);
    if stringIndex >= strings.size { return ValueError(InvalidTypeIndex); }
    EntryFits(data, strings, 4, stringIndex);
    r := ReadStringAt(data, U32(data, strings.offset + stringIndex * 4));
  }

  method ReadClassDefinitions(decode: Decode, data: seq<byte>) returns (r: Result<set<string>>)
    ensures r == ClassDefinitions(decode, data)
  {
    hide ReadClass, U32;
    if |data| < 112 || data[..4] != [100, 101, 120, 10] || data[7] != 0 { return ValueError(InvalidHeader); }
    if U32(data, 40) != 0x12345678 { return ValueError(UnsupportedByteOrder); }
    var strings, types, classes := ReadTable(data, 56), ReadTable(data, 64), ReadTable(data, 96);
    if strings.offset + strings.size * 4 > |data| { return ValueError(TruncatedTable); }
    if types.offset + types.size * 4 > |data| { return ValueError(TruncatedTable); }
    if classes.offset + classes.size * 32 > |data| { return ValueError(TruncatedTable); }
    var result: set<string> := {};
    for index := 0 to classes.size
      invariant ReadClasses(decode, data, strings, types, classes, index) == Ok(result)
    {
      FirstErrorStays(decode, data, strings, types, classes, index + 1);
      var name := ReadClassAt(data, strings, types, classes, index);
      if name.ValueError? { return ValueError(name.error); }
      result := result + {decode(name.value)};
    }
    return Ok(result);
  }

  lemma {:induction false} FirstErrorStays(decode: Decode, data: seq<byte>, strings: Table, types: Table, classes: Table, n: nat)
    requires Fits(data, strings, 4) && Fits(data, types, 4) && Fits(data, classes, 32) && n <= classes.size
    ensures ReadClasses(decode, data, strings, types, classes, n).ValueError? ==>
      ReadClasses(decode, data, strings, types, classes, classes.size) == ReadClasses(decode, data, strings, types, classes, n)
    decreases classes.size - n
  {
    hide ReadClass;
    if n < classes.size {
      FirstErrorStays(decode, data, strings, types, classes, n + 1);
    }
  }

  // What a well-formed file contains.

  /** A class descriptor as stored: its bytes and its length in UTF-16 units. */
  datatype Descriptor = Descriptor(name: seq<byte>, utf16Size: nat)

  predicate Storable(d: Descriptor) {
    0 !in d.name && d.utf16Size < 0x1_0000_0000
  }

  /** Unsigned LEB128. */
  function Uleb128(n: nat): seq<byte> {
    if n < 0x80 then [n] else [n % 0x80 + 0x80] + Uleb128(n / 0x80)
  }

  /** A `string_data_item`: length, bytes, NUL. */
  function StringItem(d: Descriptor): seq<byte> {
    Uleb128(d.utf16Size) + d.name + [0]
  }

  predicate ItemAt(data: seq<byte>, at: nat, d: Descriptor) {
    var item := StringItem(d);
    at + |item| <= |data| && data[at..at + |item|] == item
  }

  /** `data` is a DEX file whose i-th class has descriptor `ds[i]`, wherever its tables and strings are. */
  ghost predicate LaidOut(data: seq<byte>, ds: seq<Descriptor>) {
    && ValidHeader(data) && U32(data, 40) == 0x12345678
    && var strings, types, classes := ReadTable(data, 56), ReadTable(data, 64), ReadTable(data, 96);
       Fits(data, strings, 4) && Fits(data, types, 4) && Fits(data, classes, 32) && classes.size == |ds|
       && forall i :: 0 <= i < |ds| ==> ClassAt(data, strings, types, classes, i, ds[i])
  }

  predicate ClassAt(data: seq<byte>, strings: Table, types: Table, classes: Table, i: nat, d: Descriptor) {
    var entry := classes.offset + i * 32;
    entry + 4 <= |data| && U32(data, entry) < types.size
    && var typeEntry := types.offset + U32(data, entry) * 4;
       typeEntry + 4 <= |data| && U32(data, typeEntry) < strings.size
       && var stringEntry := strings.offset + U32(data, typeEntry) * 4;
          stringEntry + 4 <= |data| && ItemAt(data, U32(data, stringEntry), d)
  }

  lemma {:induction false} UlebSize(n: nat, k: nat)
    requires k > 0 && n < Pow128(k)
    ensures 1 <= |Uleb128(n)| <= k
  {
    if n >= 0x80 {
      assert n / 0x80 < Pow128(k - 1);
      UlebSize(n / 0x80, k - 1);
    }
  }

  function Pow128(k: nat): nat {
    if k == 0 then 1 else 0x80 * Pow128(k - 1)
  }

  lemma {:induction false} SkipUleb(data: seq<byte>, at: nat, n: nat, tries: nat)
    requires at + |Uleb128(n)| <= |data| && data[at..at + |Uleb128(n)|] == Uleb128(n) && |Uleb128(n)| <= tries
    ensures SkipLength(data, at, tries) == Ok(at + |Uleb128(n)|)
    decreases tries
  {
    assert data[at] == Uleb128(n)[0] by { assert data[at..at + |Uleb128(n)|][0] == data[at]; }
    if n >= 0x80 {
      assert data[at + 1..at + |Uleb128(n)|] == Uleb128(n)[1..];
      assert Uleb128(n)[1..] == Uleb128(n / 0x80);
      SkipUleb(data, at + 1, n / 0x80, tries - 1);
    }
  }

  lemma {:induction false} FindNulAfter(data: seq<byte>, at: nat, end: nat)
    requires at <= end < |data| && 0 !in data[at..end] && data[end] == 0
    ensures FindNul(data, at) == Ok(end)
    decreases end - at
  {
    if at < end {
      assert data[at..end][0] == data[at] && data[at..end][1..] == data[at + 1..end];
      FindNulAfter(data, at + 1, end);
    }
  }

  lemma SliceOfSlice(data: seq<byte>, at: nat, size: nat, from: nat, to: nat)
    requires at + size <= |data| && from <= to <= size
    ensures data[at..at + size][from..to] == data[at + from..at + to]
  {
    var part := data[at..at + size];
    assert forall k :: 0 <= k < to - from ==> part[from..to][k] == data[at + from + k];
  }

  /** Reading a stored string gives its bytes back. */
  lemma {:induction false} ReadStoredString(data: seq<byte>, at: nat, d: Descriptor)
    requires Storable(d) && ItemAt(data, at, d)
    ensures ReadString(data, at) == Ok(d.name)
  {
    hide SkipLength, FindNul;
    var length := Uleb128(d.utf16Size);
    var item := StringItem(d);
    assert Pow128(5) == 0x8_0000_0000;
    UlebSize(d.utf16Size, 5);
    var start, end := at + |length|, at + |length| + |d.name|;
    assert data[at..start] == length by { assert item[..|length|] == length; SliceOfSlice(data, at, |item|, 0, |length|); }
    assert data[start..end] == d.name by {
      assert item[|length|..|length| + |d.name|] == d.name;
      SliceOfSlice(data, at, |item|, |length|, |length| + |d.name|);
    }
    assert data[end] == 0 by { assert data[at..at + |item|][|item| - 1] == data[end]; }
    SkipUleb(data, at, d.utf16Size, 5);
    FindNulAfter(data, start, end);
  }

  function Names(decode: Decode, ds: seq<Descriptor>): set<string> {
    set d <- ds :: decode(d.name)
  }

  lemma ReadClassThere(data: seq<byte>, strings: Table, types: Table, classes: Table, i: nat, d: Descriptor)
    requires Fits(data, strings, 4) && Fits(data, types, 4) && Fits(data, classes, 32) && i < classes.size
    requires ClassAt(data, strings, types, classes, i, d) && Storable(d)
    ensures ReadClass(data, strings, types, classes, i) == Ok(d.name)
  {
    hide U32, ReadString, ItemAt, Storable;
    var stringEntry := strings.offset + U32(data, types.offset + U32(data, classes.offset + i * 32) * 4) * 4;
    ReadStoredString(data, U32(data, stringEntry), d);
  }

  lemma {:induction false} ReadLaidOut(decode: Decode, data: seq<byte>, ds: seq<Descriptor>, n: nat)
    requires LaidOut(data, ds) && n <= |ds| && forall d <- ds :: Storable(d)
    ensures ReadClasses(decode, data, ReadTable(data, 56), ReadTable(data, 64), ReadTable(data, 96), n) == Ok(Names(decode, ds[..n]))
  {
    hide ClassAt, ReadClass, U32, Storable, ReadString;
    if n == 0 {
      assert Names(decode, ds[..0]) == {};
    } else {
      var strings, types, classes := ReadTable(data, 56), ReadTable(data, 64), ReadTable(data, 96);
      ReadLaidOut(decode, data, ds, n - 1);
      ReadClassThere(data, strings, types, classes, n - 1, ds[n - 1]);
      assert ds[..n] == ds[..n - 1] + [ds[n - 1]];
      assert Names(decode, ds[..n]) == Names(decode, ds[..n - 1]) + {decode(ds[n - 1].name)};
    }
  }

  /** Inverse. From every file laid out with NUL-free descriptors the reader returns exactly their set. */
  lemma {:induction false} ClassDefinitionsInverse(decode: Decode, data: seq<byte>, ds: seq<Descriptor>)
    requires LaidOut(data, ds) && forall d <- ds :: Storable(d)
    ensures ClassDefinitions(decode, data) == Ok(Names(decode, ds))
  {
    ReadLaidOut(decode, data, ds, |ds|);
    assert ds[..|ds|] == ds;
  }

  // A writer.

  function Word(n: nat): (w: seq<byte>)
    requires n < 0x1_0000_0000
    ensures |w| == 4
  {
    var high := n / 0x100;
    var higher := high / 0x100;
    [n % 0x100, high % 0x100, higher % 0x100, higher / 0x100]
  }

  lemma ReadWord(before: seq<byte>, n: nat, after: seq<byte>)
    requires n < 0x1_0000_0000
    ensures U32(before + Word(n) + after, |before|) == n
  {
    var data := before + Word(n) + after;
    assert data[|before|] == Word(n)[0] && data[|before| + 1] == Word(n)[1];
    assert data[|before| + 2] == Word(n)[2] && data[|before| + 3] == Word(n)[3];
  }

  function Zeros(n: nat): (z: seq<byte>)
    ensures |z| == n
  {
    seq(n, _ => 0)
  }

  /** One fixed-width table entry: a word and padding. */
  function Entry(n: nat, width: nat): (e: seq<byte>)
    requires n < 0x1_0000_0000 && width >= 4
    ensures |e| == width
  {
    Word(n) + Zeros(width - 4)
  }

  predicate Words(ns: seq<nat>) {
    forall i :: 0 <= i < |ns| ==> ns[i] < 0x1_0000_0000
  }

  function Entries(ns: seq<nat>, width: nat): (t: seq<byte>)
    requires width >= 4 && Words(ns)
    ensures |t| == |ns| * width
  {
    if ns == [] then [] else Entries(ns[..|ns| - 1], width) + Entry(ns[|ns| - 1], width)
  }

  lemma {:induction false} ReadEntry(before: seq<byte>, ns: seq<nat>, width: nat, after: seq<byte>, i: nat)
    requires width >= 4 && i < |ns| && Words(ns)
    ensures |before| + i * width + 4 <= |before + Entries(ns, width) + after|
    ensures U32(before + Entries(ns, width) + after, |before| + i * width) == ns[i]
  {
    var init, last := ns[..|ns| - 1], ns[|ns| - 1];
    var data := before + Entries(ns, width) + after;
    assert (i + 1) * width <= |ns| * width;
    assert (i + 1) * width == i * width + width;
    if i == |ns| - 1 {
      assert data == (before + Entries(init, width)) + Word(last) + (Zeros(width - 4) + after);
      ReadWord(before + Entries(init, width), last, Zeros(width - 4) + after);
    } else {
      assert data == before + Entries(init, width) + (Entry(last, width) + after);
      ReadEntry(before, init, width, Entry(last, width) + after, i);
    }
  }

  /** All string items, one after another. */
  function Items(ds: seq<Descriptor>): seq<byte> {
    if ds == [] then [] else Items(ds[..|ds| - 1]) + StringItem(ds[|ds| - 1])
  }

  lemma {:induction false} ItemPlaced(before: seq<byte>, ds: seq<Descriptor>, after: seq<byte>, i: nat)
    requires i < |ds|
    ensures ItemAt(before + Items(ds) + after, |before| + |Items(ds[..i])|, ds[i])
  {
    hide StringItem;
    var init, last := ds[..|ds| - 1], ds[|ds| - 1];
    var data := before + Items(ds) + after;
    if i == |ds| - 1 {
      var at := |before + Items(init)|;
      assert data == (before + Items(init)) + StringItem(last) + after;
      assert data[at..at + |StringItem(last)|] == StringItem(last);
    } else {
      assert data == before + Items(init) + (StringItem(last) + after);
      assert init[..i] == ds[..i];
      ItemPlaced(before, init, StringItem(last) + after, i);
    }
  }

  const HEADER_SIZE: nat := 112

  /** Start of the string data in a file with `n` classes. */
  function DataStart(n: nat): nat { HEADER_SIZE + 4 * n + 4 * n + 32 * n }

  function StringOffset(ds: seq<Descriptor>, i: nat): nat
    requires i <= |ds|
  {
    DataStart(|ds|) + |Items(ds[..i])|
  }

  function StringOffsets(ds: seq<Descriptor>): (offsets: seq<nat>)
    ensures |offsets| == |ds| && forall i :: 0 <= i < |ds| ==> offsets[i] == StringOffset(ds, i)
  {
    seq(|ds|, i requires 0 <= i < |ds| => StringOffset(ds, i))
  }

  function Indices(n: nat): (s: seq<nat>)
    ensures |s| == n && forall i :: 0 <= i < n ==> s[i] == i
  {
    seq(n, i => i)
  }

  /** The file is small enough for 32-bit offsets. */
  predicate Addressable(ds: seq<Descriptor>) {
    DataStart(|ds|) + |Items(ds)| < 0x1_0000_0000
  }

  lemma {:induction false} OffsetsAddressable(ds: seq<Descriptor>, i: nat)
    requires i <= |ds|
    ensures |Items(ds[..i])| <= |Items(ds)|
    decreases |ds| - i
  {
    assert ds[..|ds|] == ds;
    if i < |ds| {
      assert ds[..i + 1][..i] == ds[..i];
      OffsetsAddressable(ds, i + 1);
    }
  }

  function Header(n: nat): (h: seq<byte>)
    requires DataStart(n) < 0x1_0000_0000
    ensures |h| == HEADER_SIZE
  {
    [100, 101, 120, 10, 48, 51, 53, 0] + Zeros(32) + Word(0x12345678) + Zeros(12)
    + Word(n) + Word(HEADER_SIZE) + Word(n) + Word(HEADER_SIZE + 4 * n) + Zeros(24)
    + Word(n) + Word(HEADER_SIZE + 8 * n) + Zeros(8)
  }

  lemma AllOffsetsAddressable(ds: seq<Descriptor>)
    requires Addressable(ds)
    ensures Words(StringOffsets(ds)) && Words(Indices(|ds|))
  {
    forall i | 0 <= i < |ds| ensures StringOffset(ds, i) < 0x1_0000_0000 {
      OffsetsAddressable(ds, i);
    }
  }

  /** A DEX file with one string, one type and one class per descriptor. */
  function Layout(ds: seq<Descriptor>): seq<byte>
    requires Addressable(ds)
  {
    AllOffsetsAddressable(ds);
    Header(|ds|) + Entries(StringOffsets(ds), 4) + Entries(Indices(|ds|), 4) + Entries(Indices(|ds|), 32) + Items(ds)
  }

  lemma HeaderReads(n: nat, rest: seq<byte>)
    requires DataStart(n) < 0x1_0000_0000
    ensures var data := Header(n) + rest;
      && ValidHeader(data) && U32(data, 40) == 0x12345678
      && ReadTable(data, 56) == Table(n, HEADER_SIZE)
      && ReadTable(data, 64) == Table(n, HEADER_SIZE + 4 * n)
      && ReadTable(data, 96) == Table(n, HEADER_SIZE + 8 * n)
  {
    hide U32, Word;
    var data := Header(n) + rest;
    assert data[..4] == [100, 101, 120, 10];
    HeaderWord(data, 40, 0x12345678);
    HeaderWord(data, 56, n);
    HeaderWord(data, 60, HEADER_SIZE);
    HeaderWord(data, 64, n);
    HeaderWord(data, 68, HEADER_SIZE + 4 * n);
    HeaderWord(data, 96, n);
    HeaderWord(data, 100, HEADER_SIZE + 8 * n);
  }

  lemma HeaderWord(data: seq<byte>, at: nat, n: nat)
    requires n < 0x1_0000_0000 && at + 4 <= |data| && data[at..at + 4] == Word(n)
    ensures U32(data, at) == n
  {
    assert data == data[..at] + Word(n) + data[at + 4..];
    ReadWord(data[..at], n, data[at + 4..]);
  }

  /** The four parts of a layout that follow the header, and where each word and item of class `i` is. */
  lemma LayoutParts(ds: seq<Descriptor>, i: nat)
    requires Addressable(ds) && i < |ds|
    ensures var data, n := Layout(ds), |ds|;
      && DataStart(n) + |Items(ds)| == |data|
      && U32(data, HEADER_SIZE + i * 4) == StringOffset(ds, i)
      && U32(data, HEADER_SIZE + 4 * n + i * 4) == i
      && U32(data, HEADER_SIZE + 8 * n + i * 32) == i
      && ItemAt(data, StringOffset(ds, i), ds[i])
  {
    hide U32, ItemAt, Header, Entries, Items, Words;
    AllOffsetsAddressable(ds);
    var n, data := |ds|, Layout(ds);
    var header, strings, types, classes, items :=
      Header(n), Entries(StringOffsets(ds), 4), Entries(Indices(n), 4), Entries(Indices(n), 32), Items(ds);
    Regroup(header, strings, types, classes, items);
    ReadEntry(header, StringOffsets(ds), 4, types + classes + items, i);
    ReadEntry(header + strings, Indices(n), 4, classes + items, i);
    ReadEntry(header + strings + types, Indices(n), 32, items, i);
    ItemPlaced(header + strings + types + classes, ds, [], i);
    assert StringOffset(ds, i) == |header + strings + types + classes| + |Items(ds[..i])|;
  }

  lemma Regroup(a: seq<byte>, b: seq<byte>, c: seq<byte>, d: seq<byte>, e: seq<byte>)
    ensures a + b + c + d + e == a + b + (c + d + e) == (a + b) + c + (d + e) == (a + b + c + d) + e + []
  {
  }

  lemma LayoutClassAt(ds: seq<Descriptor>, i: nat)
    requires Addressable(ds) && i < |ds|
    ensures ClassAt(Layout(ds), Table(|ds|, HEADER_SIZE), Table(|ds|, HEADER_SIZE + 4 * |ds|),
                    Table(|ds|, HEADER_SIZE + 8 * |ds|), i, ds[i])
  {
    hide U32, ItemAt, Items, Layout;
    LayoutParts(ds, i);
  }

  /** The writer lays its descriptors out. */
  lemma LayoutIsLaidOut(ds: seq<Descriptor>)
    requires Addressable(ds)
    ensures LaidOut(Layout(ds), ds)
  {
    hide U32, ItemAt, Items, Entries, Header, ClassAt, ValidHeader, Words;
    AllOffsetsAddressable(ds);
    var n := |ds|;
    var strings, types, classes, items := Entries(StringOffsets(ds), 4), Entries(Indices(n), 4), Entries(Indices(n), 32), Items(ds);
    Regroup(Header(n), strings, types, classes, items);
    HeaderReads(n, strings + types + classes + items);
    assert Layout(ds) == Header(n) + (strings + types + classes + items);
    forall i | 0 <= i < n
      ensures ClassAt(Layout(ds), ReadTable(Layout(ds), 56), ReadTable(Layout(ds), 64), ReadTable(Layout(ds), 96), i, ds[i])
    {
      LayoutClassAt(ds, i);
    }
  }

  /** Writing a list of NUL-free descriptors and reading the file back gives exactly their set. */
  lemma {:induction false} LayoutRoundTrip(decode: Decode, ds: seq<Descriptor>)
    requires Addressable(ds) && forall d <- ds :: Storable(d)
    ensures ClassDefinitions(decode, Layout(ds)) == Ok(Names(decode, ds))
  {
    LayoutIsLaidOut(ds);
    ClassDefinitionsInverse(decode, Layout(ds), ds);
  }
}
