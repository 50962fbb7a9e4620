/** Reading /proc/<pid>/mountinfo, and picking mounts out of it. A string is a sequence of bytes here:
    a character stands for the byte of the same number. */
module MountInfo {
  import opened Strings

  // ---- pieces of the Go library ------------------------------------------------------------------

  /** The three-byte encodings of white space in UTF-8. */
  predicate IsWideSpace(a: int, b: int, c: int) {
    || (a == 0xE1 && b == 0x9A && c == 0x80)
    || (a == 0xE2 && b == 0x80 && (0x80 <= c <= 0x8A || c in {0xA8, 0xA9, 0xAF}))
    || (a == 0xE2 && b == 0x81 && c == 0x9F)
    || (a == 0xE3 && b == 0x80 && c == 0x80)
  }

  /** The byte at a position, or -1 past the end. */
  function At(s: string, i: nat): int {
    if i < |s| then s[i] as int else -1
  }

  function WidthOf(a: int, b: int, c: int): nat {
    if a in {0x20, 0x09, 0x0A, 0x0B, 0x0C, 0x0D} then 1
    else if a == 0xC2 && b in {0x85, 0xA0} then 2
    else if IsWideSpace(a, b, c) then 3
    else 0
  }

  /** How many bytes of white space, in the sense of unicode.IsSpace, `s` begins with. The first byte of
      an encoding is never inside another one, so decoding cannot step over it. */
  function SpaceWidth(s: string): (n: nat)
    ensures n <= |s|
  {
    WidthOf(At(s, 0), At(s, 1), At(s, 2))
  }

  /** Unicode's property White_Space, as unicode.IsSpace has it. */
  predicate IsSpaceRune(r: int) {
    || 0x09 <= r <= 0x0D || 0x2000 <= r <= 0x200A
    || r in {0x20, 0x85, 0xA0, 0x1680, 0x2028, 0x2029, 0x202F, 0x205F, 0x3000}
  }

  /** The bytes of a code point, as section 3 of RFC 3629 has them. */
  function Utf8(r: int): seq<int>
    requires 0 <= r < 0x11_0000
  {
    if r < 0x80 then [r]
    else if r < 0x800 then [0xC0 + r / 0x40, 0x80 + r % 0x40]
    else if r < 0x1_0000 then [0xE0 + r / 0x1000, 0x80 + r / 0x40 % 0x40, 0x80 + r % 0x40]
    else [0xF0 + r / 0x4_0000, 0x80 + r / 0x1000 % 0x40, 0x80 + r / 0x40 % 0x40, 0x80 + r % 0x40]
  }

  lemma TwoBytes(r: int)
    requires 0x80 <= r < 0x800
    ensures var a, b := 0xC0 + r / 0x40, 0x80 + r % 0x40;
            (a == 0xC2 && b in {0x85, 0xA0}) <==> IsSpaceRune(r)
  {
    var h, l := r / 0x40, r % 0x40;
    assert r == 0x40 * h + l && 0 <= l < 0x40;
  }

  lemma ThreeBytes(r: int)
    requires 0x800 <= r < 0x1_0000
    ensures IsWideSpace(0xE0 + r / 0x1000, 0x80 + r / 0x40 % 0x40, 0x80 + r % 0x40) <==> IsSpaceRune(r)
    ensures 0xE0 + r / 0x1000 <= 0xEF
  {
    var h, m, l := r / 0x1000, r / 0x40 % 0x40, r % 0x40;
    assert r / 0x40 == 0x40 * h + m && 0 <= m < 0x40;
    assert r == 0x40 * (r / 0x40) + l && 0 <= l < 0x40;
  }

  /** The bytes of white space are recognised, and those of no other code point, whatever comes next. */
  lemma SpaceIff(s: string, r: int)
    requires 0 <= r < 0x11_0000 && |Utf8(r)| <= |s| && forall i :: 0 <= i < |Utf8(r)| ==> s[i] as int == Utf8(r)[i]
    ensures SpaceWidth(s) == if IsSpaceRune(r) then |Utf8(r)| else 0
  {
    assert At(s, 0) == Utf8(r)[0];
    if 0x80 <= r < 0x800 {
      TwoBytes(r);
      assert At(s, 1) == Utf8(r)[1];
    } else if 0x800 <= r < 0x1_0000 {
      ThreeBytes(r);
      assert At(s, 1) == Utf8(r)[1] && At(s, 2) == Utf8(r)[2];
    }
  }

  /** No white space at all. */
  predicate Solid(s: string) {
    s == "" || (SpaceWidth(s) == 0 && Solid(s[1..]))
  }

  function WordLength(s: string): (n: nat)
    ensures n <= |s| && (s != "" && SpaceWidth(s) == 0 ==> n > 0)
  {
    if s == "" || SpaceWidth(s) > 0 then 0 else 1 + WordLength(s[1..])
  }

  /** strings.Fields */
  function Fields(s: string): seq<string> {
    if s == "" then []
    else if SpaceWidth(s) > 0 then Fields(s[SpaceWidth(s)..])
    else [s[..WordLength(s)]] + Fields(s[WordLength(s)..])
  }

  lemma {:induction false} SolidHasNoNewline(s: string)
    requires Solid(s)
    ensures '\n' !in s && '\r' !in s
  {
    if s != "" {
      SolidHasNoNewline(s[1..]);
      assert s == [s[0]] + s[1..];
    }
  }

  lemma {:induction false} SolidAppend(a: string, b: string)
    requires Solid(a) && Solid(b) && (b == "" || b[0] as int < 0x80)
    ensures Solid(a + b)
  {
    if a == "" {
      assert a + b == b;
    } else {
      SolidAppend(a[1..], b);
      assert (a + b)[1..] == a[1..] + b;
      assert |a| >= 2 ==> (a + b)[1] == a[1];
      assert |a| >= 3 ==> (a + b)[2] == a[2];
    }
  }

  lemma {:induction false} WordLengthOf(w: string, t: string)
    requires Solid(w) && (t == "" || t[0] == ' ')
    ensures WordLength(w + t) == |w|
  {
    if w == "" {
      assert w + t == t;
    } else {
      WordLengthOf(w[1..], t);
      assert (w + t)[1..] == w[1..] + t;
    }
  }

  /** A word followed by a blank is a field of its own. */
  lemma FieldsOfWord(w: string, t: string)
    requires w != "" && Solid(w) && (t == "" || t[0] == ' ')
    ensures Fields(w + t) == [w] + Fields(t)
  {
    WordLengthOf(w, t);
    assert (w + t)[..|w|] == w && (w + t)[|w|..] == t;
    assert SpaceWidth(w + t) == 0;
  }

  lemma {:induction false} WordIsSolid(s: string)
    ensures Solid(s[..WordLength(s)])
  {
    if s != "" && SpaceWidth(s) == 0 {
      WordIsSolid(s[1..]);
      var n := WordLength(s);
      assert s[..n][1..] == s[1..][..n - 1];
      assert n >= 2 ==> s[..n][1] == s[1];
      assert n >= 3 ==> s[..n][2] == s[2];
    }
  }

  lemma {:induction false} FieldsAreSolid(s: string)
    ensures forall i :: 0 <= i < |Fields(s)| ==> Solid(Fields(s)[i]) && Fields(s)[i] != ""
    decreases |s|
  {
    if s == "" {
    } else if SpaceWidth(s) > 0 {
      FieldsAreSolid(s[SpaceWidth(s)..]);
    } else {
      WordIsSolid(s);
      FieldsAreSolid(s[WordLength(s)..]);
    }
  }

  // ---- octal escapes -----------------------------------------------------------------------------

  predicate IsOctalDigit(c: char) {
    '0' <= c <= '7'
  }

  /** Three octal digits as a byte: the leading one is shifted in byte arithmetic and loses a bit. */
  function OctalByte(a: char, b: char, c: char): char
    requires IsOctalDigit(a) && IsOctalDigit(b) && IsOctalDigit(c)
  {
    ((a as int - '0' as int) % 4 * 64 + (b as int - '0' as int) * 8 + (c as int - '0' as int)) as char
  }

  predicate EscapeAt(s: string, i: nat) {
    i + 3 < |s| && s[i] == '\\' && IsOctalDigit(s[i + 1]) && IsOctalDigit(s[i + 2]) && IsOctalDigit(s[i + 3])
  }

  function Unescape(s: string): string {
    if s == "" then ""
    else if EscapeAt(s, 0) then [OctalByte(s[1], s[2], s[3])] + Unescape(s[4..])
    else [s[0]] + Unescape(s[1..])
  }

  lemma {:induction false} NothingToUnescape(s: string)
    requires '\\' !in s
    ensures Unescape(s) == s
  {
    if s != "" {
      NothingToUnescape(s[1..]);
    }
  }

  function OctalDigit(d: nat): char
    requires d < 8
  {
    (d + '0' as int) as char
  }

  /** A backslash and the three octal digits of a byte stand for the byte. */
  lemma UnescapeOctal(byte: nat, t: string)
    requires byte < 0x100
    ensures Unescape(['\\', OctalDigit(byte / 64), OctalDigit(byte / 8 % 8), OctalDigit(byte % 8)] + t) == [byte as char] + Unescape(t)
  {
    var e := ['\\', OctalDigit(byte / 64), OctalDigit(byte / 8 % 8), OctalDigit(byte % 8)];
    var s := e + t;
    assert s[0] == e[0] && s[1] == e[1] && s[2] == e[2] && s[3] == e[3] && s[4..] == t;
    assert byte == 64 * (byte / 64) + 8 * (byte / 8 % 8) + byte % 8;
  }

  lemma UnescapeFrom(s: string, i: nat)
    requires i < |s|
    ensures Unescape(s[i..]) == if EscapeAt(s, i) then [OctalByte(s[i + 1], s[i + 2], s[i + 3])] + Unescape(s[i + 4..])
                                else [s[i]] + Unescape(s[i + 1..])
  {
    if EscapeAt(s, i) {
      assert s[i..][4..] == s[i + 4..];
    } else {
      assert s[i..][1..] == s[i + 1..];
    }
  }

  lemma Push(r: string, c: char, t: string)
    ensures (r + [c]) + t == r + ([c] + t)
  {
  }

  method UnescapeMountField(s: string) returns (r: string)
    ensures r == Unescape(s)
  {
    if '\\' !in s {
      NothingToUnescape(s);
      return s;
    }
    r := "";
    var i := 0;
    while i < |s|
      invariant 0 <= i <= |s| && r + Unescape(s[i..]) == Unescape(s)
    {
      UnescapeFrom(s, i);
      if EscapeAt(s, i) {
        var c := OctalByte(s[i + 1], s[i + 2], s[i + 3]);
        Push(r, c, Unescape(s[i + 4..]));
        r := r + [c];
        i := i + 4;
      } else {
        Push(r, s[i], Unescape(s[i + 1..]));
        r := r + [s[i]];
        i := i + 1;
      }
    }
  }

  /** What the kernel writes for one byte of a root or a mount point. */
  function EscapeChar(c: char): (r: string)
    ensures r != "" && (r == [c] || (|r| == 4 && r[0] == '\\' && c in " \t\n\\"))
  {
    if c == ' ' then "\\040" else if c == '\t' then "\\011" else if c == '\n' then "\\012" else if c == '\\' then "\\134" else [c]
  }

  function Escape(s: string): (r: string)
    ensures |r| >= |s|
  {
    if s == "" then "" else EscapeChar(s[0]) + Escape(s[1..])
  }

  lemma UnescapeOne(c: char, t: string)
    ensures Unescape(EscapeChar(c) + t) == [c] + Unescape(t)
  {
    var e := EscapeChar(c);
    var s := e + t;
    assert s[0] == e[0] && s[|e|..] == t;
    if |e| == 4 {
      assert s[1] == e[1] && s[2] == e[2] && s[3] == e[3];
      assert OctalByte(e[1], e[2], e[3]) == c;
    }
  }

  /** Unescaping inverts the escaping, whatever the bytes. */
  lemma {:induction false} UnescapeEscape(s: string)
    ensures Unescape(Escape(s)) == s
  {
    if s != "" {
      UnescapeEscape(s[1..]);
      UnescapeOne(s[0], Escape(s[1..]));
    }
  }

  /** The only white space is space, tab and newline. */
  predicate Clean(s: string) {
    s == "" || ((SpaceWidth(s) == 0 || s[0] in " \t\n") && Clean(s[1..]))
  }

  /** Escaping changes the first byte to a backslash, or not at all. */
  lemma FirstOfEscape(s: string)
    ensures At(Escape(s), 0) == if s != "" && s[0] in " \t\n" then '\\' as int else At(s, 0)
  {
  }

  predicate IsPlain(s: string) {
    s != "" && s[0] !in " \\\t\n"
  }

  lemma AfterPlain(s: string)
    requires IsPlain(s)
    ensures At(Escape(s), 0) == At(s, 0) && At(Escape(s), 1) == At(Escape(s[1..]), 0) && At(Escape(s), 2) == At(Escape(s[1..]), 1)
  {
    assert Escape(s) == [s[0]] + Escape(s[1..]);
  }

  lemma SpaceWidthOfEscape(s: string)
    requires IsPlain(s)
    ensures SpaceWidth(Escape(s)) == SpaceWidth(s)
  {
    var t := s[1..];
    var u := if t != "" then t[1..] else "";
    assert At(s, 1) == At(t, 0) && At(s, 2) == At(t, 1) == At(u, 0);
    AfterPlain(s);
    FirstOfEscape(t);
    if IsPlain(t) {
      AfterPlain(t);
      FirstOfEscape(u);
    }
  }

  lemma SolidAfterPlain(c: char, t: string)
    requires 0x21 <= c as int < 0x80
    ensures Solid([c] + t) <==> Solid(t)
  {
    assert ([c] + t)[1..] == t;
  }

  lemma {:induction false} SolidAfterEscape(e: string, t: string)
    requires forall i :: 0 <= i < |e| ==> 0x21 <= e[i] as int < 0x80
    ensures Solid(e + t) <==> Solid(t)
  {
    if e == "" {
      assert e + t == t;
    } else {
      SolidAfterEscape(e[1..], t);
      assert (e + t)[1..] == e[1..] + t;
    }
  }

  /** Escaping hides space, tab, newline, and no other white space. */
  lemma {:induction false} SolidEscape(s: string)
    ensures Solid(Escape(s)) <==> Clean(s)
  {
    if s != "" {
      SolidEscape(s[1..]);
      var e, t := EscapeChar(s[0]), Escape(s[1..]);
      if |e| == 4 {
        SolidAfterEscape(e, t);
      } else {
        SpaceWidthOfEscape(s);
        assert Escape(s)[1..] == t;
      }
    }
  }

  /** A root or mount point is read back as one field exactly if its only white space is space, tab
      and newline. */
  lemma OneFieldIffClean(name: string)
    ensures Fields(Escape(name)) == [Escape(name)] <==> name != "" && Clean(name)
  {
    SolidEscape(name);
    var e := Escape(name);
    if name != "" && Clean(name) {
      FieldsOfWord(e, "");
      assert e + "" == e;
    }
    if Fields(e) == [e] {
      FieldsAreSolid(e);
      assert Solid(Fields(e)[0]);
    }
  }

  // ---- the table as the kernel prints it ---------------------------------------------------------

  /** One mount as section 3.5 of Documentation/filesystems/proc.rst has it. `tail` is everything after
      the type: the source and the options of the superblock. */
  datatype KernelMount = KernelMount(id: string, parent: string, device: string, root: string, mountPoint: string,
                                     options: seq<string>, optional: seq<string>, fstype: string, tail: string)

  predicate IsWord(s: string) {
    s != "" && Solid(s)
  }

  predicate WellFormed(e: KernelMount) {
    && IsWord(e.id) && IsWord(e.parent) && IsWord(e.device) && IsWord(e.fstype)
    && e.root != "" && Clean(e.root) && e.mountPoint != "" && Clean(e.mountPoint)
    && e.options != [] && (forall i :: 0 <= i < |e.options| ==> IsWord(e.options[i]) && ',' !in e.options[i])
    && (forall i :: 0 <= i < |e.optional| ==> IsWord(e.optional[i]) && e.optional[i] != "-")
    && '\n' !in e.tail
  }

  /** Words, each with a blank after it. */
  function Words(ws: seq<string>): string {
    if ws == [] then "" else ws[0] + " " + Words(ws[1..])
  }

  function Columns(e: KernelMount): (ws: seq<string>)
    ensures |ws| == 8 + |e.optional|
  {
    [e.id, e.parent, e.device, Escape(e.root), Escape(e.mountPoint), Join(e.options, ',')] + e.optional + ["-", e.fstype]
  }

  function Line(e: KernelMount): string {
    Words(Columns(e)) + e.tail
  }

  function Print(table: seq<KernelMount>): string {
    if table == [] then "" else Line(table[0]) + "\n" + Print(table[1..])
  }

  // ---- bufio.Scanner -----------------------------------------------------------------------------

  datatype Scanned = Scanned(lines: seq<string>, tooLong: bool)

  const MAX_SCAN_TOKEN_SIZE := 65536

  function DropCR(line: string): string {
    if line != "" && line[|line| - 1] == '\r' then line[..|line| - 1] else line
  }

  /** The lines of `s`, up to the first one that does not fit into the buffer. */
  function Scan(s: string): Scanned {
    var n := Find(s, '\n');
    if s == "" then Scanned([], false)
    else if n >= MAX_SCAN_TOKEN_SIZE then Scanned([], true)
    else if n == |s| then Scanned([DropCR(s)], false)
    else
      var rest := Scan(s[n + 1..]);
      Scanned([DropCR(s[..n])] + rest.lines, rest.tooLong)
  }

  // ---- the parser --------------------------------------------------------------------------------

  datatype MountInfoEntry = MountInfoEntry(device: string, root: string, mountPoint: string, fstype: string, readOnly: bool)

  /** The word after the first "-" from index `i` on. */
  function FsType(fields: seq<string>, i: nat): string
    decreases |fields| - i
  {
    if i >= |fields| then ""
    else if fields[i] == "-" then (if i + 1 < |fields| then fields[i + 1] else "")
    else FsType(fields, i + 1)
  }

  /** A line with fewer than seven fields says nothing. */
  function Parsed(f: seq<string>): seq<MountInfoEntry> {
    if |f| < 7 then []
    else [MountInfoEntry(f[2], Unescape(f[3]), Unescape(f[4]), FsType(f, 6), "ro" in Split(f[5], ','))]
  }

  function ParseLines(lines: seq<string>): seq<MountInfoEntry> {
    if lines == [] then [] else Parsed(Fields(lines[0])) + ParseLines(lines[1..])
  }

  method HasReadOnly(options: seq<string>) returns (readOnly: bool)
    ensures readOnly == ("ro" in options)
  {
    readOnly := false;
    for i := 0 to |options|
      invariant !readOnly && "ro" !in options[..i]
    {
      if options[i] == "ro" {
        return true;
      }
    }
    assert options[..|options|] == options;
  }

  method FindFsType(fields: seq<string>) returns (fstype: string)
    requires |fields| >= 7
    ensures fstype == FsType(fields, 6)
  {
    var sepIdx := -1;
    var i := 6;
    while i < |fields|
      invariant 6 <= i <= |fields| && sepIdx == -1
      invariant FsType(fields, 6) == FsType(fields, i)
    {
      if fields[i] == "-" {
        sepIdx := i;
        break;
      }
      i := i + 1;
    }
    fstype := if sepIdx >= 0 && sepIdx + 1 < |fields| then fields[sepIdx + 1] else "";
  }

  lemma ParseLinesFrom(lines: seq<string>, k: nat, entries: seq<MountInfoEntry>)
    requires k < |lines|
    ensures (entries + Parsed(Fields(lines[k]))) + ParseLines(lines[k + 1..]) == entries + ParseLines(lines[k..])
  {
    assert lines[k..][0] == lines[k] && lines[k..][1..] == lines[k + 1..];
  }

  method ParseMountInfo(content: string) returns (entries: seq<MountInfoEntry>, tooLong: bool)
    ensures entries == ParseLines(Scan(content).lines) && tooLong == Scan(content).tooLong
  {
    var lines := Scan(content).lines;
    entries := [];
    var k := 0;
    while k < |lines|
      invariant 0 <= k <= |lines| && entries + ParseLines(lines[k..]) == ParseLines(lines)
    {
      var found := ParseFields(Fields(lines[k]));
      ParseLinesFrom(lines, k, entries);
      entries := entries + found;
      k := k + 1;
    }
    tooLong := Scan(content).tooLong;
  }

  method ParseFields(fields: seq<string>) returns (entries: seq<MountInfoEntry>)
    ensures entries == Parsed(fields)
  {
    if |fields| < 7 {
      return [];
    }
    var root := UnescapeMountField(fields[3]);
    var mountPoint := UnescapeMountField(fields[4]);
    var readOnly := HasReadOnly(Split(fields[5], ','));
    var fstype := FindFsType(fields);
    entries := [MountInfoEntry(fields[2], root, mountPoint, fstype, readOnly)];
  }

  // ---- printing and parsing ----------------------------------------------------------------------

  function Visible(e: KernelMount): MountInfoEntry {
    MountInfoEntry(e.device, e.root, e.mountPoint, e.fstype, "ro" in e.options)
  }

  lemma FieldsOfWordAndBlank(w: string, t: string)
    requires IsWord(w)
    ensures Fields(w + " " + t) == [w] + Fields(t)
  {
    FieldsOfWord(w, " " + t);
    assert w + (" " + t) == w + " " + t;
    assert (" " + t)[1..] == t;
  }

  lemma {:induction false} FieldsOfWords(ws: seq<string>, t: string)
    requires forall i :: 0 <= i < |ws| ==> IsWord(ws[i])
    ensures Fields(Words(ws) + t) == ws + Fields(t)
  {
    if ws == [] {
      assert Words(ws) + t == t;
    } else {
      var w, rest := ws[0], ws[1..];
      FieldsOfWords(rest, t);
      FieldsOfWordAndBlank(w, Words(rest) + t);
      Associative(w + " ", Words(rest), t);
      Associative([w], rest, Fields(t));
      assert ws == [w] + rest;
    }
  }

  lemma {:induction false} JoinIsWord(parts: seq<string>)
    requires parts != [] && forall i :: 0 <= i < |parts| ==> IsWord(parts[i])
    ensures IsWord(Join(parts, ','))
  {
    if |parts| > 1 {
      JoinIsWord(parts[1..]);
      var rest := Join(parts[1..], ',');
      SolidAfterPlain(',', rest);
      SolidAppend(parts[0], "," + rest);
      assert Join(parts, ',') == parts[0] + ("," + rest);
    }
  }

  lemma ColumnsAreWords(e: KernelMount)
    requires WellFormed(e)
    ensures forall i :: 0 <= i < |Columns(e)| ==> IsWord(Columns(e)[i])
  {
    SolidEscape(e.root);
    SolidEscape(e.mountPoint);
    JoinIsWord(e.options);
    SolidAfterPlain('-', "");
    assert "-" == ['-'] + "";
  }

  lemma {:induction false} FsTypeAt(fields: seq<string>, i: nat, j: nat)
    requires i <= j < |fields| - 1 && fields[j] == "-" && forall k :: i <= k < j ==> fields[k] != "-"
    ensures FsType(fields, i) == fields[j + 1]
    decreases j - i
  {
    if i < j {
      FsTypeAt(fields, i + 1, j);
    }
  }

  /** Without a separator, or with nothing after it, there is no type. */
  lemma {:induction false} NoFsType(fields: seq<string>, i: nat)
    requires forall k :: i <= k < |fields| - 1 ==> fields[k] != "-"
    ensures FsType(fields, i) == ""
    decreases |fields| - i
  {
    if i < |fields| {
      NoFsType(fields, i + 1);
    }
  }

  lemma ParsePrintedFields(e: KernelMount, more: seq<string>)
    requires WellFormed(e)
    ensures Parsed(Columns(e) + more) == [Visible(e)]
  {
    var f := Columns(e) + more;
    UnescapeEscape(e.root);
    UnescapeEscape(e.mountPoint);
    SplitJoin(e.options, ',');
    FsTypeAt(f, 6, 6 + |e.optional|);
  }

  lemma ParsePrintedLine(e: KernelMount, tail: string)
    requires WellFormed(e)
    ensures Parsed(Fields(Words(Columns(e)) + tail)) == [Visible(e)]
  {
    ColumnsAreWords(e);
    FieldsOfWords(Columns(e), tail);
    ParsePrintedFields(e, Fields(tail));
  }

  lemma {:induction false} WordsHaveNoNewline(ws: seq<string>)
    requires forall i :: 0 <= i < |ws| ==> IsWord(ws[i])
    ensures '\n' !in Words(ws) && (ws != [] ==> Words(ws) != "" && Words(ws)[|Words(ws)| - 1] == ' ')
  {
    if ws != [] {
      SolidHasNoNewline(ws[0]);
      WordsHaveNoNewline(ws[1..]);
    }
  }

  lemma ScanOneLine(line: string, rest: string)
    requires '\n' !in line && |line| < MAX_SCAN_TOKEN_SIZE
    ensures Scan(line + "\n" + rest) == Scanned([DropCR(line)] + Scan(rest).lines, Scan(rest).tooLong)
  {
    var s := line + "\n" + rest;
    FindFirst(line, '\n', rest);
    assert s[..|line|] == line && s[|line| + 1..] == rest;
  }

  lemma PrintedLine(e: KernelMount)
    requires WellFormed(e)
    ensures '\n' !in Line(e) && Parsed(Fields(DropCR(Line(e)))) == [Visible(e)]
  {
    ColumnsAreWords(e);
    WordsHaveNoNewline(Columns(e));
    DropCRFromTail(Words(Columns(e)), e.tail);
    ParsePrintedLine(e, DropCR(e.tail));
  }

  function VisibleAll(table: seq<KernelMount>): seq<MountInfoEntry> {
    if table == [] then [] else [Visible(table[0])] + VisibleAll(table[1..])
  }

  /** A table that has been printed is parsed back, whatever bytes the roots and the mount points hold,
      as long as their only white space is space, tab and newline, and no line overflows the scanner. */
  lemma {:induction false} ParsePrint(table: seq<KernelMount>)
    requires forall i :: 0 <= i < |table| ==> WellFormed(table[i]) && |Line(table[i])| < MAX_SCAN_TOKEN_SIZE
    ensures !Scan(Print(table)).tooLong && ParseLines(Scan(Print(table)).lines) == VisibleAll(table)
  {
    if table != [] {
      var line, rest := Line(table[0]), Print(table[1..]);
      PrintedLine(table[0]);
      ScanOneLine(line, rest);
      ParsePrint(table[1..]);
      var lines := Scan(rest).lines;
      assert ([DropCR(line)] + lines)[1..] == lines;
    }
  }

  /** One line of 64 KiB or more and the rest of the table is lost. */
  lemma {:induction false} TooLongIff(table: seq<KernelMount>)
    requires forall i :: 0 <= i < |table| ==> WellFormed(table[i])
    ensures Scan(Print(table)).tooLong <==> exists i :: 0 <= i < |table| && |Line(table[i])| >= 65536
  {
    if table != [] {
      var line, rest := Line(table[0]), Print(table[1..]);
      PrintedLine(table[0]);
      TooLongIff(table[1..]);
      if |line| < MAX_SCAN_TOKEN_SIZE {
        ScanOneLine(line, rest);
      } else {
        FindFirst(line, '\n', rest);
      }
    }
  }

  lemma DropCRFromTail(words: string, tail: string)
    requires words != "" && words[|words| - 1] == ' '
    ensures DropCR(words + tail) == words + DropCR(tail)
  {
    if tail == "" {
      assert words + tail == words;
    } else {
      assert (words + tail)[..|words + tail| - 1] == words + tail[..|tail| - 1];
    }
  }
}
