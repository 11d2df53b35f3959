/** What the class-table reader accepts, told from the bytes alone. */
module DexReading {
  import opened PyText
  import opened DexClasses

  // Strings.

  /** The length at `at` is continued over its first `k` bytes. */
  predicate Continued(data: seq<byte>, at: nat, k: nat) {
    at + k <= |data| && forall j :: at <= j < at + k ==> data[j] >= 0x80
  }

  /** The length takes `k + 1` bytes, at most five. */
  predicate LengthOf(data: seq<byte>, at: nat, k: nat) {
    k < 5 && Continued(data, at, k) && at + k < |data| && data[at + k] < 0x80
  }

  predicate EndsAt(data: seq<byte>, start: nat, end: nat) {
    start <= end < |data| && data[end] == 0 && 0 !in data[start..end]
  }

  ghost predicate NamedAt(data: seq<byte>, start: nat, name: seq<byte>) {
    exists end: nat :: EndsAt(data, start, end) && name == data[start..end]
  }

  /** A string of this name starts at `at`: a length of at most five bytes, the name and a NUL. */
  ghost predicate StringAt(data: seq<byte>, at: nat, name: seq<byte>) {
    exists k :: LengthOf(data, at, k) && NamedAt(data, at + k + 1, name)
  }

  lemma {:induction false} SkipFrom(data: seq<byte>, at: nat, k: nat, tries: nat)
    requires k <= tries && Continued(data, at, k)
    ensures SkipLength(data, at, tries) == SkipLength(data, at + k, tries - k)
    decreases k
  {
    if k > 0 { SkipFrom(data, at + 1, k - 1, tries - 1); }
  }

  lemma {:induction false} SkipWhere(data: seq<byte>, at: nat, tries: nat) returns (k: nat)
    ensures k <= tries && (k > 0 ==> Continued(data, at, k))
    ensures k == tries || at + k >= |data| || data[at + k] < 0x80
    decreases tries
  {
    k := 0;
    if tries > 0 && at < |data| && data[at] >= 0x80 {
      k := SkipWhere(data, at + 1, tries - 1);
      k := k + 1;
    }
  }

  /** The three outcomes of reading a length. */
  lemma {:induction false} LengthExactly(data: seq<byte>, at: nat)
    ensures var r := SkipLength(data, at, 5);
      && (r.ValueError? <==> forall k :: !LengthOf(data, at, k))
      && (forall end :: r == Ok(end) <==> exists k :: LengthOf(data, at, k) && end == at + k + 1)
      && (r == ValueError(InvalidStringLength) <==> Continued(data, at, 5))
      && (r == ValueError(TruncatedString) <==>
            at >= |data| || exists k :: 0 < k < 5 && Continued(data, at, k) && at + k == |data|)
      && (r.Ok? || r == ValueError(InvalidStringLength) || r == ValueError(TruncatedString))
  {
    var k := SkipWhere(data, at, 5);
    if k > 0 { SkipFrom(data, at, k, 5); }
    if k < 5 && at + k < |data| { assert LengthOf(data, at, k); }
    if l: nat :| LengthOf(data, at, l) { assert l == k; }
  }

  /** Reading a string succeeds exactly where one is stored; otherwise the first thing wrong is named:
      a length of more than five bytes, one cut off by the end of the file, or no NUL after it. */
  lemma {:induction false} StringExactly(data: seq<byte>, at: nat)
    ensures var r := ReadString(data, at);
      && (forall name :: r == Ok(name) <==> StringAt(data, at, name))
      && (r == ValueError(InvalidStringLength) <==> Continued(data, at, 5))
      && (r == ValueError(TruncatedString) <==>
            at >= |data| || exists k :: 0 < k < 5 && Continued(data, at, k) && at + k == |data|)
      && (r == ValueError(UnterminatedString) <==> exists k :: LengthOf(data, at, k) && 0 !in data[at + k + 1..])
      && (r.ValueError? ==> r.error in {InvalidStringLength, TruncatedString, UnterminatedString})
  {
    hide SkipLength, FindNul, LengthOf, Continued, EndsAt;
    LengthExactly(data, at);
    match SkipLength(data, at, 5) {
      case ValueError(_) => NoLength(data, at);
      case Ok(start) =>
        var k: nat :| LengthOf(data, at, k) && start == at + k + 1;
        OnlyLength(data, at, k);
        NulExactly(data, start);
        forall name ensures StringAt(data, at, name) <==> NamedAt(data, start, name) { }
    }
  }

  lemma NoLength(data: seq<byte>, at: nat)
    requires forall k :: !LengthOf(data, at, k)
    ensures forall name :: !StringAt(data, at, name)
  {
  }

  lemma OnlyLength(data: seq<byte>, at: nat, k: nat)
    requires LengthOf(data, at, k)
    ensures at + k < |data| && !Continued(data, at, 5)
    ensures forall l :: LengthOf(data, at, l) ==> l == k
  {
  }

  lemma NulExactly(data: seq<byte>, start: nat)
    requires start <= |data|
    ensures FindNul(data, start).ValueError? <==> 0 !in data[start..]
    ensures forall end: nat :: FindNul(data, start) == Ok(end) <==> EndsAt(data, start, end)
  {
    hide FindNul;
    forall end: nat | EndsAt(data, start, end) ensures FindNul(data, start) == Ok(end) && 0 in data[start..] {
      FindNulAfter(data, start, end);
      assert data[start..][end - start] == 0;
    }
    if FindNul(data, start).Ok? { assert EndsAt(data, start, FindNul(data, start).value); }
  }

  // Tables.

  /** The little-endian number in these bytes. */
  function LittleEndian(bytes: seq<byte>): nat {
    if bytes == [] then 0 else bytes[0] + 256 * LittleEndian(bytes[1..])
  }

  /** The word at `at`, if the file is long enough. */
  function WordAt(data: seq<byte>, at: nat): Option<nat> {
    if at + 4 <= |data| then Some(LittleEndian(data[at..at + 4])) else None
  }

  lemma WordExactly(data: seq<byte>, at: nat)
    requires at + 4 <= |data|
    ensures WordAt(data, at) == Some(U32(data, at))
  {
    var bytes := data[at..at + 4];
    assert LittleEndian(bytes[1..]) == bytes[1] + 256 * LittleEndian(bytes[1..][1..]);
    assert bytes[1..][1..] == [bytes[2], bytes[3]];
    assert LittleEndian([bytes[2], bytes[3]]) == bytes[2] + 256 * LittleEndian([bytes[3]]);
    assert LittleEndian([bytes[3]]) == bytes[3] as int;
  }

  /** The i-th word of a table whose entries are `width` bytes wide. */
  function EntryOf(data: seq<byte>, t: Table, width: nat, i: nat): Option<nat> {
    if i < t.size then WordAt(data, t.offset + i * width) else None
  }

  function TypeOf(data: seq<byte>, classes: Table, i: nat): Option<nat> {
    EntryOf(data, classes, 32, i)
  }

  /** The string the type of the i-th class names. */
  function StringOf(data: seq<byte>, types: Table, classes: Table, i: nat): Option<nat> {
    match TypeOf(data, classes, i)
    case Some(t) => EntryOf(data, types, 4, t)
    case None => None
  }

  /** Following class, type and string entry leads to this name. */
  ghost predicate ClassNamed(data: seq<byte>, strings: Table, types: Table, classes: Table, i: nat, name: seq<byte>) {
    match StringOf(data, types, classes, i)
    case None => false
    case Some(s) => EntryOf(data, strings, 4, s).Some? && StringAt(data, EntryOf(data, strings, 4, s).value, name)
  }

  lemma EntryExactly(data: seq<byte>, t: Table, width: nat, i: nat)
    requires Fits(data, t, width) && i < t.size && width >= 4
    ensures t.offset + i * width + 4 <= |data| && EntryOf(data, t, width, i) == Some(U32(data, t.offset + i * width))
  {
    hide U32, WordAt;
    EntryFits(data, t, width, i);
    WordExactly(data, t.offset + i * width);
  }

  /** A class is read exactly when its entries lead to a name, and as that name. A type and then a string
      out of range is the error before the string is looked at. */
  lemma {:induction false} ClassExactly(data: seq<byte>, strings: Table, types: Table, classes: Table, i: nat)
    requires Fits(data, strings, 4) && Fits(data, types, 4) && Fits(data, classes, 32) && i < classes.size
    ensures var r := ReadClass(data, strings, types, classes, i);
      && (forall name :: r == Ok(name) <==> ClassNamed(data, strings, types, classes, i, name))
      && (r == ValueError(InvalidClassIndex) <==> TypeOf(data, classes, i).value >= types.size)
      && (r == ValueError(InvalidTypeIndex) <==>
            StringOf(data, types, classes, i).Some? && StringOf(data, types, classes, i).value >= strings.size)
  {
    hide Fits, U32, ReadString, StringAt, WordAt, Continued, LengthOf;
    EntryExactly(data, classes, 32, i);
    var t := U32(data, classes.offset + i * 32);
    if t < types.size {
      EntryExactly(data, types, 4, t);
      var s := U32(data, types.offset + t * 4);
      if s < strings.size {
        EntryExactly(data, strings, 4, s);
        StringExactly(data, U32(data, strings.offset + s * 4));
      }
    }
  }

  ghost predicate HasName(data: seq<byte>, strings: Table, types: Table, classes: Table, i: nat) {
    exists name :: ClassNamed(data, strings, types, classes, i, name)
  }

  /** The first `n` classes all have a name, and `names` are these, decoded. */
  ghost predicate NamesOfFirst(decode: Decode, data: seq<byte>, strings: Table, types: Table, classes: Table, n: nat, names: set<string>) {
    && (forall i: nat :: i < n ==> HasName(data, strings, types, classes, i))
    && (forall i: nat, name :: i < n && ClassNamed(data, strings, types, classes, i, name) ==> decode(name) in names)
    && (forall s <- names :: exists i: nat, name :: i < n && ClassNamed(data, strings, types, classes, i, name) && s == decode(name))
  }

  /** The i-th class is the first without a name, for this reason. */
  ghost predicate FirstUnnamed(data: seq<byte>, strings: Table, types: Table, classes: Table, i: nat, error: DexError)
    requires Fits(data, strings, 4) && Fits(data, types, 4) && Fits(data, classes, 32)
  {
    && i < classes.size && !HasName(data, strings, types, classes, i)
    && (forall k: nat :: k < i ==> HasName(data, strings, types, classes, k))
    && ReadClass(data, strings, types, classes, i) == ValueError(error)
  }

  lemma {:induction false} ClassesExactly(decode: Decode, data: seq<byte>, strings: Table, types: Table, classes: Table, n: nat)
    requires Fits(data, strings, 4) && Fits(data, types, 4) && Fits(data, classes, 32) && n <= classes.size
    ensures var r := ReadClasses(decode, data, strings, types, classes, n);
      && (r.Ok? ==> NamesOfFirst(decode, data, strings, types, classes, n, r.value))
      && (r.ValueError? ==> exists i: nat :: i < n && FirstUnnamed(data, strings, types, classes, i, r.error))
  {
    hide Fits, ReadClass, ClassNamed, EntryOf;
    if n > 0 {
      ClassesExactly(decode, data, strings, types, classes, n - 1);
      ClassExactly(data, strings, types, classes, n - 1);
      var last := ReadClass(data, strings, types, classes, n - 1);
      if last.Ok? { assert ClassNamed(data, strings, types, classes, n - 1, last.value); }
      if last.ValueError? && ReadClasses(decode, data, strings, types, classes, n - 1).Ok? {
        assert FirstUnnamed(data, strings, types, classes, n - 1, last.error);
      }
    }
  }

  /** A DEX file in little-endian order with these tables, all within the file. */
  predicate Tabled(data: seq<byte>, strings: Table, types: Table, classes: Table) {
    && |data| >= 112 && data[0] == 0x64 && data[1] == 0x65 && data[2] == 0x78 && data[3] == 0x0A && data[7] == 0
    && WordAt(data, 40) == Some(0x12345678)
    && Some(strings.size) == WordAt(data, 56) && Some(strings.offset) == WordAt(data, 60)
    && Some(types.size) == WordAt(data, 64) && Some(types.offset) == WordAt(data, 68)
    && Some(classes.size) == WordAt(data, 96) && Some(classes.offset) == WordAt(data, 100)
    && strings.offset + 4 * strings.size <= |data| && types.offset + 4 * types.size <= |data|
    && classes.offset + 32 * classes.size <= |data|
  }

  lemma TablesExactly(data: seq<byte>)
    requires |data| >= 112
    ensures ValidHeader(data) <==> data[0] == 0x64 && data[1] == 0x65 && data[2] == 0x78 && data[3] == 0x0A && data[7] == 0
    ensures U32(data, 40) == 0x12345678 <==> WordAt(data, 40) == Some(0x12345678)
    ensures WordAt(data, 56) == Some(ReadTable(data, 56).size) && WordAt(data, 60) == Some(ReadTable(data, 56).offset)
    ensures WordAt(data, 64) == Some(ReadTable(data, 64).size) && WordAt(data, 68) == Some(ReadTable(data, 64).offset)
    ensures WordAt(data, 96) == Some(ReadTable(data, 96).size) && WordAt(data, 100) == Some(ReadTable(data, 96).offset)
  {
    hide U32, WordAt;
    assert data[..4] == [data[0], data[1], data[2], data[3]];
    forall at | at in {40, 56, 60, 64, 68, 96, 100} ensures WordAt(data, at) == Some(U32(data, at)) {
      WordExactly(data, at);
    }
  }

  /** The reader succeeds exactly on files that start like a DEX file in little-endian order, whose three
      tables are within the file and whose classes all have a name; its result is the set of these names. */
  lemma {:induction false} ReaderExactly(decode: Decode, data: seq<byte>, strings: Table, types: Table, classes: Table)
    ensures Tabled(data, strings, types, classes) ==>
      (ClassDefinitions(decode, data).Ok? <==> forall i: nat :: i < classes.size ==> HasName(data, strings, types, classes, i))
    ensures ClassDefinitions(decode, data).Ok? ==>
      exists strings, types, classes :: Tabled(data, strings, types, classes)
        && NamesOfFirst(decode, data, strings, types, classes, classes.size, ClassDefinitions(decode, data).value)
  {
    hide U32, WordAt, ReadClasses, HasName, ReadTable, ValidHeader;
    if |data| >= 112 {
      TablesExactly(data);
      var a, b, c := ReadTable(data, 56), ReadTable(data, 64), ReadTable(data, 96);
      if Fits(data, a, 4) && Fits(data, b, 4) && Fits(data, c, 32) { ClassesExactly(decode, data, a, b, c, c.size); }
      assert Tabled(data, strings, types, classes) ==> strings == a && types == b && classes == c;
      assert ClassDefinitions(decode, data).Ok? ==> Tabled(data, a, b, c);
    } else {
      assert !ValidHeader(data) by { TooShort(data); }
    }
  }

  /** A file that is no such file is refused for the first of these reasons. */
  lemma {:induction false} RefusedExactly(decode: Decode, data: seq<byte>)
    ensures var r := ClassDefinitions(decode, data);
      var header := |data| >= 112 && data[0] == 0x64 && data[1] == 0x65 && data[2] == 0x78 && data[3] == 0x0A && data[7] == 0;
      && (!header ==> r == ValueError(InvalidHeader))
      && (header && WordAt(data, 40) != Some(0x12345678) ==> r == ValueError(UnsupportedByteOrder))
      && (header && WordAt(data, 40) == Some(0x12345678) && (forall a, b, c :: !Tabled(data, a, b, c)) ==> r == ValueError(TruncatedTable))
  {
    hide U32, WordAt, ReadClasses, ReadTable;
    if |data| >= 112 {
      TablesExactly(data);
      var fits := Tabled(data, ReadTable(data, 56), ReadTable(data, 64), ReadTable(data, 96));
    }
  }

  lemma TooShort(data: seq<byte>)
    requires |data| < 112
    ensures !ValidHeader(data)
  {
  }
}
