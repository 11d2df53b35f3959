/** The Python string operations the modelled code relies on: `strip`, `partition`,
    `rpartition`, `int(text)`, decimal printing and UTF-8 length. */
module PyText {

  datatype Option<+T> = None | Some(value: T)

  /** `str.isspace` for one character (the whitespace that `strip` removes). */
  predicate IsSpace(c: char) {
    || '\t' <= c <= '\r' || '\U{1C}' <= c <= ' ' || c == '\U{85}' || c == '\U{A0}' || c == '\U{1680}'
    || '\U{2000}' <= c <= '\U{200A}' || c == '\U{2028}' || c == '\U{2029}' || c == '\U{202F}'
    || c == '\U{205F}' || c == '\U{3000}'
  }

  predicate AllSpace(s: string) {
    forall i :: 0 <= i < |s| ==> IsSpace(s[i])
  }

  /** Non-empty, and neither the first nor the last character is whitespace. */
  predicate Trimmed(s: string) {
    s != "" && !IsSpace(s[0]) && !IsSpace(s[|s| - 1])
  }

  function LStrip(s: string): string {
    if s != "" && IsSpace(s[0]) then LStrip(s[1..]) else s
  }

  function RStrip(s: string): string {
    if s != "" && IsSpace(s[|s| - 1]) then RStrip(s[..|s| - 1]) else s
  }

  function Strip(s: string): string {
    RStrip(LStrip(s))
  }

  lemma {:induction false} StripPadded(left: string, core: string, right: string)
    requires AllSpace(left) && AllSpace(right) && Trimmed(core)
    ensures LStrip(left + core + right) == core + right
    ensures Strip(left + core + right) == core
  {
    LStripPad(left, core + right);
    assert left + core + right == left + (core + right);
    assert LStrip(core + right) == core + right;
    RStripPad(core, right);
  }

  lemma {:induction false} LStripPad(left: string, rest: string)
    requires AllSpace(left)
    ensures LStrip(left + rest) == LStrip(rest)
  {
    if left == "" {
      assert left + rest == rest;
    } else {
      assert (left + rest)[1..] == left[1..] + rest;
      LStripPad(left[1..], rest);
    }
  }

  lemma {:induction false} RStripPad(core: string, right: string)
    requires AllSpace(right) && Trimmed(core)
    ensures RStrip(core + right) == core
  {
    if right == "" {
      assert core + right == core;
    } else {
      var n := |core + right|;
      assert (core + right)[n - 1] == right[|right| - 1];
      assert (core + right)[..n - 1] == core + right[..|right| - 1];
      RStripPad(core, right[..|right| - 1]);
    }
  }

  lemma {:induction false} LStripEdge(s: string)
    ensures LStrip(s) == "" || (!IsSpace(LStrip(s)[0]) && LStrip(s)[|LStrip(s)| - 1] == s[|s| - 1])
  {
    if s != "" && IsSpace(s[0]) {
      LStripEdge(s[1..]);
    }
  }

  lemma {:induction false} RStripEdge(s: string)
    ensures RStrip(s) == "" || (!IsSpace(RStrip(s)[|RStrip(s)| - 1]) && RStrip(s)[0] == s[0])
  {
    if s != "" && IsSpace(s[|s| - 1]) {
      RStripEdge(s[..|s| - 1]);
    }
  }

  /** Stripping leaves nothing, or a text that stripping leaves as it is. */
  lemma StripTwice(s: string)
    ensures Strip(s) == "" || Trimmed(Strip(s))
    ensures Strip(Strip(s)) == Strip(s)
  {
    LStripEdge(s);
    RStripEdge(LStrip(s));
  }

  /** A line of nothing but whitespace strips to the empty string. */
  lemma {:induction false} StripBlank(s: string)
    requires AllSpace(s)
    ensures LStrip(s) == "" && Strip(s) == ""
  {
    if s != "" {
      StripBlank(s[1..]);
    }
  }

  /** Index of the first `c` in `s`, or `|s|`: the split point of `partition`. */
  function FirstIndex(s: string, c: char): (i: nat)
    ensures i <= |s|
    ensures forall k :: 0 <= k < i ==> s[k] != c
    ensures i < |s| ==> s[i] == c
  {
    if s == "" || s[0] == c then 0 else 1 + FirstIndex(s[1..], c)
  }

  lemma FirstIndexAt(head: string, c: char, tail: string)
    requires c !in head
    ensures FirstIndex(head + [c] + tail, c) == |head|
  {
    var s := head + [c] + tail;
    assert s[|head|] == c;
    assert forall k :: 0 <= k < |head| ==> s[k] == head[k];
  }

  /** Index of the last `c` in `s`, or `-1`: the split point of `rpartition`. */
  function LastIndex(s: string, c: char): (i: int)
    ensures -1 <= i < |s|
    ensures forall k :: i < k < |s| ==> s[k] != c
    ensures i >= 0 ==> s[i] == c
  {
    if s == "" then -1 else if s[|s| - 1] == c then |s| - 1 else LastIndex(s[..|s| - 1], c)
  }

  lemma {:induction false} LastIndexAt(head: string, c: char, tail: string)
    requires c !in tail
    ensures LastIndex(head + [c] + tail, c) == |head|
  {
    var s := head + [c] + tail;
    if tail != "" {
      var shorter := tail[..|tail| - 1];
      assert s[..|s| - 1] == head + [c] + shorter;
      assert s[|s| - 1] == tail[|tail| - 1];
      LastIndexAt(head, c, shorter);
    }
  }

  predicate StartsWith(s: string, prefix: string) {
    |prefix| <= |s| && s[..|prefix|] == prefix
  }

  predicate EndsWith(s: string, suffix: string) {
    |suffix| <= |s| && s[|s| - |suffix|..] == suffix
  }

  function LowerAscii(s: string): (r: string)
    ensures |r| == |s|
    ensures forall i :: 0 <= i < |s| ==> r[i] == if 'A' <= s[i] <= 'Z' then s[i] - 'A' + 'a' else s[i]
  {
    seq(|s|, i requires 0 <= i < |s| => if 'A' <= s[i] <= 'Z' then s[i] - 'A' + 'a' else s[i])
  }

  // Decimal numbers.

  predicate IsDigit(c: char) { '0' <= c <= '9' }

  function DigitValue(c: char): nat
    requires IsDigit(c)
  {
    (c - '0') as int
  }

  function DigitChar(d: nat): (c: char)
    requires d < 10
    ensures IsDigit(c) && DigitValue(c) == d
  {
    '0' + d as char
  }

  /** `str(n)` for a natural number. */
  function PrintNat(n: nat): (s: string)
    ensures s != "" && forall i :: 0 <= i < |s| ==> IsDigit(s[i])
  {
    if n < 10 then [DigitChar(n)] else PrintNat(n / 10) + [DigitChar(n % 10)]
  }

  /** `str(n)` for any integer. */
  function PrintInt(n: int): string {
    if n < 0 then "-" + PrintNat(-n) else PrintNat(n)
  }

  /** Python's integer literal body: digits, single underscores only between digits. */
  predicate IsDigitGroup(s: string) {
    && s != "" && IsDigit(s[0]) && IsDigit(s[|s| - 1])
    && (forall i :: 0 <= i < |s| ==> IsDigit(s[i]) || s[i] == '_')
    && (forall i :: 0 <= i < |s| - 1 ==> s[i] == '_' ==> s[i + 1] != '_')
  }

  function DigitGroupValue(s: string): nat
    requires forall i :: 0 <= i < |s| ==> IsDigit(s[i]) || s[i] == '_'
  {
    if s == "" then 0
    else if s[|s| - 1] == '_' then DigitGroupValue(s[..|s| - 1])
    else DigitGroupValue(s[..|s| - 1]) * 10 + DigitValue(s[|s| - 1])
  }

  /** `int(text)`; `None` stands for `ValueError`. */
  function ParseInt(text: string): Option<int> {
    var s := Strip(text);
    var negative := s != "" && s[0] == '-';
    var body := if s != "" && (s[0] == '-' || s[0] == '+') then s[1..] else s;
    if !IsDigitGroup(body) then None
    else
      var magnitude: int := DigitGroupValue(body);
      Some(if negative then -magnitude else magnitude)
  }

  lemma {:induction false} PrintNatValue(n: nat)
    ensures DigitGroupValue(PrintNat(n)) == n
  {
    var s := PrintNat(n);
    if n < 10 {
      assert s[..0] == "";
    } else {
      PrintNatValue(n / 10);
      assert s[..|s| - 1] == PrintNat(n / 10);
    }
  }

  /** Decimal printing and parsing are inverse, also when the text is padded with whitespace. */
  lemma ParsePrinted(left: string, n: nat, right: string)
    requires AllSpace(left) && AllSpace(right)
    ensures ParseInt(left + PrintNat(n) + right) == Some(n)
  {
    var s := PrintNat(n);
    assert Trimmed(s);
    StripPadded(left, s, right);
    PrintNatValue(n);
  }

  lemma ParsePrintedPlain(n: nat)
    ensures ParseInt(PrintNat(n)) == Some(n)
  {
    ParsePrinted("", n, "");
    assert "" + PrintNat(n) + "" == PrintNat(n);
  }

  /** A signed number parses to its value. */
  lemma ParseSigned(left: string, n: nat, right: string)
    requires AllSpace(left) && AllSpace(right)
    ensures var m: int := n; ParseInt(left + ("-" + PrintNat(n)) + right) == Some(-m)
    ensures ParseInt(left + ("+" + PrintNat(n)) + right) == Some(n)
  {
    hide Strip, PrintNat, DigitGroupValue, AllSpace, IsDigitGroup, Trimmed;
    StripSigned(left, '-', n, right);
    StripSigned(left, '+', n, right);
    assert ("-" + PrintNat(n))[1..] == PrintNat(n) && ("+" + PrintNat(n))[1..] == PrintNat(n);
    PrintedIsGroup(n);
    PrintNatValue(n);
  }

  lemma StripSigned(left: string, sign: char, n: nat, right: string)
    requires AllSpace(left) && AllSpace(right) && (sign == '-' || sign == '+')
    ensures Strip(left + ([sign] + PrintNat(n)) + right) == [sign] + PrintNat(n)
  {
    hide Strip, PrintNat, AllSpace;
    assert Trimmed([sign] + PrintNat(n));
    StripPadded(left, [sign] + PrintNat(n), right);
  }

  lemma PrintedIsGroup(n: nat)
    ensures IsDigitGroup(PrintNat(n))
  {
    hide PrintNat;
  }

  // UTF-8.

  /** Number of bytes of one character in UTF-8 (RFC 3629, section 3). */
  function Utf8Size(c: char): (n: nat)
    ensures 1 <= n <= 4
  {
    if c as int < 0x80 then 1 else if c as int < 0x800 then 2 else if c as int < 0x10000 then 3 else 4
  }

  /** Number of bytes of a text in UTF-8. */
  function Utf8Length(s: string): (n: nat)
    ensures n >= |s|
  {
    if s == "" then 0 else Utf8Length(s[..|s| - 1]) + Utf8Size(s[|s| - 1])
  }

  lemma {:induction false} Utf8LengthAppend(a: string, b: string)
    ensures Utf8Length(a + b) == Utf8Length(a) + Utf8Length(b)
  {
    if b == "" {
      assert a + b == a;
    } else {
      var n := |a + b|;
      assert (a + b)[..n - 1] == a + b[..|b| - 1];
      Utf8LengthAppend(a, b[..|b| - 1]);
    }
  }

  /** The bytes of one character (RFC 3629, section 3): its bits in groups of six behind a lead byte that
      tells how many groups follow. */
  function Utf8Bytes(c: char): seq<int> {
    var n := c as int;
    if n < 0x80 then [n]
    else if n < 0x800 then [0xC0 + n / 0x40, 0x80 + n % 0x40]
    else if n < 0x1_0000 then [0xE0 + n / 0x1000, 0x80 + n / 0x40 % 0x40, 0x80 + n % 0x40]
    else [0xF0 + n / 0x4_0000, 0x80 + n / 0x1000 % 0x40, 0x80 + n / 0x40 % 0x40, 0x80 + n % 0x40]
  }

  function Utf8Text(s: string): seq<int> {
    if s == "" then [] else Utf8Text(s[..|s| - 1]) + Utf8Bytes(s[|s| - 1])
  }

  /** The length is that of the encoded text. */
  lemma {:induction false} Utf8LengthExactly(s: string)
    ensures Utf8Length(s) == |Utf8Text(s)|
  {
    if s != "" { Utf8LengthExactly(s[..|s| - 1]); }
  }

  /** The number of bytes a lead byte announces. */
  function Announces(lead: int): nat {
    if lead < 0x80 then 1 else if lead < 0xE0 then 2 else if lead < 0xF0 then 3 else 4
  }

  /** The bytes of a character are bytes, and the first announces their number. */
  lemma {:induction false} Utf8BytesAnnounced(c: char)
    ensures var bytes := Utf8Bytes(c);
      && (forall b <- bytes :: 0 <= b < 0x100) && |bytes| == Announces(bytes[0])
      && (forall k :: 1 <= k < |bytes| ==> 0x80 <= bytes[k] < 0xC0)
  {
    LeadByte(c as int);
  }

  /** Together they spell the character. */
  lemma {:induction false} Utf8BytesSpell(c: char)
    ensures var bytes := Utf8Bytes(c);
      c as int == (match |bytes|
                   case 1 => bytes[0]
                   case 2 => bytes[0] % 0x20 * 0x40 + bytes[1] % 0x40
                   case 3 => bytes[0] % 0x10 * 0x1000 + bytes[1] % 0x40 * 0x40 + bytes[2] % 0x40
                   case _ => bytes[0] % 8 * 0x4_0000 + bytes[1] % 0x40 * 0x1000 + bytes[2] % 0x40 * 0x40 + bytes[3] % 0x40)
  {
    Sextets(c as int);
    LeadByte(c as int);
  }

  /** A number in groups of six bits. */
  lemma Sextets(n: nat)
    ensures n == n / 0x40 * 0x40 + n % 0x40
    ensures n / 0x40 == n / 0x1000 * 0x40 + n / 0x40 % 0x40
    ensures n / 0x1000 == n / 0x4_0000 * 0x40 + n / 0x1000 % 0x40
  {
  }

  lemma LeadByte(n: nat)
    requires n < 0x20_0000
    ensures n < 0x800 ==> n / 0x40 < 0x20 && (0xC0 + n / 0x40) % 0x20 == n / 0x40
    ensures n < 0x1_0000 ==> n / 0x1000 < 0x10 && (0xE0 + n / 0x1000) % 0x10 == n / 0x1000
    ensures n / 0x4_0000 < 8 && (0xF0 + n / 0x4_0000) % 8 == n / 0x4_0000
    ensures forall k: nat :: (0x80 + k % 0x40) % 0x40 == k % 0x40
  {
  }
}
