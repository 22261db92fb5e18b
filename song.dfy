/**
 * Song records, their identity, the deterministic id derived from the file
 * name (djb2 hash, 64-bit bit reversal, hex, UUID layout) and the metadata
 * reading of `Song.fromURL`, with the media asset given as plain input.
 */
module Songs {
  import opened Wrappers
  import opened Text
  import opened Seqs

  /** A UUID, by its 128-bit value. */
  datatype Uuid = Uuid(value: nat)

  /** A file URL: its directory components and its last path component. */
  datatype Url = Url(dir: seq<string>, name: string)

  datatype Song = Song(
    id: Uuid,
    url: Url,
    title: string,
    artist: string,
    album: string,
    albumArtist: Option<string>,
    duration: real,
    artworkData: Option<seq<Byte>>,
    genre: Option<string>,
    year: Option<int>,
    trackNumber: Option<int>,
    discNumber: Option<int>)

  /** Song's `==`: two songs are the same song exactly when their ids agree. */
  predicate SameSong(a: Song, b: Song) {
    a.id == b.id
  }

  /** The tests `firstIndex(of:)`, `contains` and `filter` apply: same id as `id`, or not. */
  function HasId(id: Uuid): Song -> bool {
    (s: Song) => s.id == id
  }

  function LacksId(id: Uuid): Song -> bool {
    (s: Song) => s.id != id
  }

  /** `==` on songs is an equivalence that looks at the id and at nothing else. */
  lemma SameSongIsIdentity(a: Song, b: Song, c: Song, title: string, album: string)
    ensures SameSong(a, b) <==> a.id == b.id
    ensures SameSong(a, a)
    ensures SameSong(a, b) ==> SameSong(b, a)
    ensures SameSong(a, b) && SameSong(b, c) ==> SameSong(a, c)
    ensures SameSong(a, a.(title := title, album := album, trackNumber := None))
  {
  }

  // ------------------------------------------------------ file names

  /** Index of the last '.' in `s`, if any. */
  function LastDot(s: string): (r: Option<nat>)
    ensures r.Some? ==> r.value < |s| && s[r.value] == '.' && '.' !in s[r.value + 1..]
    ensures r.None? ==> '.' !in s
  {
    if s == [] then None
    else if Last(s) == '.' then Some(|s| - 1)
    else
      var r := LastDot(Init(s));
      assert s == Init(s) + [Last(s)];
      if r.Some? then
        assert s[r.value + 1..] == Init(s)[r.value + 1..] + [Last(s)];
        r
      else r
  }

  /** `pathExtension` of a last path component: what follows its last '.', unless that dot starts the name. */
  function PathExtension(name: string): string {
    match LastDot(name)
    case Some(k) => if k > 0 then name[k + 1..] else ""
    case None => ""
  }

  /** `deletingPathExtension().lastPathComponent`. */
  function Stem(name: string): string {
    match LastDot(name)
    case Some(k) => if k > 0 then name[..k] else name
    case None => name
  }

  /** The stem and the extension put back together give the name. */
  lemma StemAndExtension(name: string)
    ensures PathExtension(name) != "" ==> name == Stem(name) + "." + PathExtension(name)
    ensures '.' !in PathExtension(name)
  {
    match LastDot(name)
    case Some(k) =>
      if k > 0 {
        assert name == name[..k] + [name[k]] + name[k + 1..];
      }
    case None =>
  }

  /** The import and rescan extension test: `pathExtension.lowercased() == "mp3"`. */
  predicate IsMp3(u: Url) {
    Lower(PathExtension(u.name)) == "mp3"
  }

  // ------------------------------------------------------ hashing

  const Two64: nat := 0x1_0000_0000_0000_0000

  /** djb2 over bytes with 64-bit wrap-around: start at 5381, then h := h * 33 + byte. */
  function Djb2(bytes: seq<Byte>): (h: nat)
    ensures h < Two64
  {
    if bytes == [] then 5381 else (Djb2(Init(bytes)) * 33 + Last(bytes)) % Two64
  }

  /** `(h << 5) &+ h &+ byte` is `h * 33 + byte` modulo 2^64. */
  lemma ShiftAddStep(h: nat, b: Byte)
    requires h < Two64
    ensures (((h * 32) % Two64 + h) % Two64 + b) % Two64 == (h * 33 + b) % Two64
  {
    var q := (h * 32) / Two64;
    assert h * 32 == q * Two64 + (h * 32) % Two64;
    var x := (h * 32) % Two64 + h;
    var q2 := x / Two64;
    assert x == q2 * Two64 + x % Two64;
    var y := x % Two64 + b;
    assert h * 33 + b == y + (q + q2) * Two64;
  }

  /** Bit `i` of `v`, counting from the least significant. */
  predicate BitSet(v: bv64, i: bv64)
    requires i < 64
  {
    (v >> i) & 1 == 1
  }

  /** `UInt64.reversed()`: six steps, each swapping adjacent blocks of 1, 2, 4, 8, 16 and 32 bits. */
  function Reverse64(v: bv64): bv64
  {
    var v1 := ((v >> 1) & 0x5555555555555555) | ((v & 0x5555555555555555) << 1);
    var v2 := ((v1 >> 2) & 0x3333333333333333) | ((v1 & 0x3333333333333333) << 2);
    var v3 := ((v2 >> 4) & 0x0F0F0F0F0F0F0F0F) | ((v2 & 0x0F0F0F0F0F0F0F0F) << 4);
    var v4 := ((v3 >> 8) & 0x00FF00FF00FF00FF) | ((v3 & 0x00FF00FF00FF00FF) << 8);
    var v5 := ((v4 >> 16) & 0x0000FFFF0000FFFF) | ((v4 & 0x0000FFFF0000FFFF) << 16);
    (v5 >> 32) | (v5 << 32)
  }

  /** Bit reversal: bit i of the result is bit 63 - i of the input. */
  lemma Reverse64MovesBits(v: bv64, i: bv64)
    requires i < 64
    ensures BitSet(Reverse64(v), i) == BitSet(v, 63 - i)
  {
  }

  /** Reversing twice gives the input back. */
  lemma Reverse64Involution(v: bv64)
    ensures Reverse64(Reverse64(v)) == v
  {
  }

  // ------------------------------------------------------ hex text

  function Pow16(n: nat): (p: nat)
    ensures p >= 1
  {
    if n == 0 then 1 else 16 * Pow16(n - 1)
  }

  function HexDigit(d: nat): char
    requires d < 16
  {
    "0123456789abcdef"[d]
  }

  predicate IsHexDigit(c: char) {
    '0' <= c <= '9' || 'a' <= c <= 'f' || 'A' <= c <= 'F'
  }

  predicate IsLowerHex(s: string) {
    forall i :: 0 <= i < |s| ==> '0' <= s[i] <= '9' || 'a' <= s[i] <= 'f'
  }

  predicate AllHex(s: string) {
    forall i :: 0 <= i < |s| ==> IsHexDigit(s[i])
  }

  function DigitValue(c: char): (d: nat)
    requires IsHexDigit(c)
    ensures d < 16
  {
    if '0' <= c <= '9' then c as int - '0' as int
    else if 'a' <= c <= 'f' then c as int - 'a' as int + 10
    else c as int - 'A' as int + 10
  }

  /** The value of a hex numeral, either case. */
  function HexValue(s: string): nat
    requires AllHex(s)
  {
    if s == [] then 0 else HexValue(Init(s)) * 16 + DigitValue(Last(s))
  }

  /** `%0<width>llx`: `n` in lower-case hex, zero-padded to `width` digits. */
  function Hex(n: nat, width: nat): (r: string)
    ensures |r| == width && IsLowerHex(r)
  {
    if width == 0 then [] else Hex(n / 16, width - 1) + [HexDigit(n % 16)]
  }

  lemma {:induction false} HexRoundTrip(n: nat, width: nat)
    requires n < Pow16(width)
    ensures HexValue(Hex(n, width)) == n
  {
    if width > 0 {
      var r := Hex(n, width);
      HexRoundTrip(n / 16, width - 1);
      assert Init(r) == Hex(n / 16, width - 1);
      assert DigitValue(HexDigit(n % 16)) == n % 16;
    }
  }

  lemma {:induction false} HexValueAppend(a: string, b: string)
    requires AllHex(a) && AllHex(b)
    ensures HexValue(a + b) == HexValue(a) * Pow16(|b|) + HexValue(b)
  {
    if b != [] {
      assert Init(a + b) == a + Init(b) && Last(a + b) == Last(b);
      HexValueAppend(a, Init(b));
      var va, p, vi, d := HexValue(a), Pow16(|b| - 1), HexValue(Init(b)), DigitValue(Last(b));
      assert HexValue(a + b) == (va * p + vi) * 16 + d;
      MulSixteen(va, p);
      assert HexValue(b) == vi * 16 + d;
    } else {
      assert a + b == a;
    }
  }

  lemma MulSixteen(x: nat, p: nat)
    ensures x * p * 16 == x * (16 * p)
  {
  }

  lemma Pow16Is2To64()
    ensures Pow16(16) == Two64
  {
    assert Pow16(2) == 0x100;
    assert Pow16(4) == 0x1_0000;
    assert Pow16(6) == 0x100_0000;
    assert Pow16(8) == 0x1_0000_0000;
    assert Pow16(10) == 0x100_0000_0000;
    assert Pow16(12) == 0x1_0000_0000_0000;
    assert Pow16(14) == 0x100_0000_0000_0000;
  }

  /** The 32 hex digits of `hashString()`: the djb2 hash, then its bit reversal. */
  function HashText(s: string): string {
    HexPair(Djb2(Utf8(s)))
  }

  /** `String(format: "%016llx%016llx", h, h.reversed())`. */
  function HexPair(h: nat): string
    requires h < Two64
  {
    Hex(h, 16) + Hex(Reversed(h), 16)
  }

  /** `h.reversed()` on a 64-bit value held as a number. */
  function Reversed(h: nat): (r: nat)
    requires h < Two64
    ensures r < Two64
  {
    Reverse64(h as bv64) as int
  }

  /**
   * `hashString()`: 32 lower-case hex digits; the first 16 read back as the
   * djb2 hash of the UTF-8 bytes, the last 16 as its bit reversal.
   */
  lemma HashTextDigits(s: string)
    ensures |HashText(s)| == 32 && IsLowerHex(HashText(s))
    ensures HexValue(HashText(s)[..16]) == Djb2(Utf8(s))
    ensures HexValue(HashText(s)[16..]) == Reversed(Djb2(Utf8(s)))
  {
    HexPairDigits(Djb2(Utf8(s)));
  }

  lemma HexPairDigits(h: nat)
    requires h < Two64
    ensures |HexPair(h)| == 32 && IsLowerHex(HexPair(h))
    ensures HexValue(HexPair(h)[..16]) == h
    ensures HexValue(HexPair(h)[16..]) == Reversed(h)
  {
    HexHalves(h, Reversed(h));
  }

  /** Two 16-digit hex numerals side by side: each half reads back as its number. */
  lemma HexHalves(h: nat, r: nat)
    requires h < Two64 && r < Two64
    ensures |Hex(h, 16) + Hex(r, 16)| == 32 && IsLowerHex(Hex(h, 16) + Hex(r, 16))
    ensures HexValue((Hex(h, 16) + Hex(r, 16))[..16]) == h
    ensures HexValue((Hex(h, 16) + Hex(r, 16))[16..]) == r
  {
    var a, b := Hex(h, 16), Hex(r, 16);
    assert (a + b)[..16] == a && (a + b)[16..] == b;
    Pow16Is2To64();
    HexRoundTrip(h, 16);
    HexRoundTrip(r, 16);
  }

  /** `String.hashString()`: the djb2 loop over the UTF-8 bytes with wrapping shift-and-add. */
  method HashString(s: string) returns (hex: string)
    ensures hex == HashText(s)
  {
    var data := Utf8(s);
    var h: nat := 5381;
    for i := 0 to |data|
      invariant h == Djb2(data[..i])
    {
      assert Init(data[..i + 1]) == data[..i] && Last(data[..i + 1]) == data[i];
      ShiftAddStep(h, data[i]);
      h := ((h * 32) % Two64 + h) % Two64;
      h := (h + data[i]) % Two64;
    }
    assert data[..|data|] == data;
    hex := HexPair(h);
  }

  // ------------------------------------------------------ UUID text

  /** `padding(toLength: n, withPad: "0", startingAt: 0)`. */
  function PadRight(s: string, n: nat): (r: string)
    ensures |r| == n
    ensures |s| >= n ==> r == s[..n]
  {
    if |s| >= n then s[..n] else s + seq(n - |s|, _ => '0')
  }

  /** Splits 32 characters into the 8-4-4-4-12 groups joined by '-'. */
  function UuidLayout(h: string): string
    requires |h| == 32
  {
    h[..8] + "-" + h[8..12] + "-" + h[12..16] + "-" + h[16..20] + "-" + h[20..]
  }

  /** `String.padTo32()`. */
  function PadTo32(s: string): string {
    UuidLayout(PadRight(HashText(s), 32))
  }

  predicate WellFormedUuid(t: string) {
    |t| == 36 &&
    (forall i :: 0 <= i < 36 ==> if i in {8, 13, 18, 23} then t[i] == '-' else IsHexDigit(t[i]))
  }

  /** The 32 digits of a well-formed UUID text. */
  function Dashless(t: string): string
    requires |t| == 36
  {
    t[..8] + t[9..13] + t[14..18] + t[19..23] + t[24..]
  }

  /** `UUID(uuidString:)`: nil unless the text is 8-4-4-4-12 hex digits (either case). */
  function ParseUuid(t: string): Option<Uuid> {
    if WellFormedUuid(t) then
      var d := Dashless(t);
      assert AllHex(d) by {
        forall i | 0 <= i < 32 ensures IsHexDigit(d[i]) {
          var j := if i < 8 then i else if i < 12 then i + 1 else if i < 16 then i + 2
                   else if i < 20 then i + 3 else i + 4;
          assert d[i] == t[j];
        }
      }
      Some(Uuid(HexValue(d)))
    else None
  }

  /** The 8-4-4-4-12 layout of 32 hex digits is a well-formed UUID text holding those digits in order. */
  lemma {:induction false} LayoutIsUuid(h: string)
    requires |h| == 32 && IsLowerHex(h)
    ensures WellFormedUuid(UuidLayout(h))
    ensures Dashless(UuidLayout(h)) == h
  {
    var t := UuidLayout(h);
    assert t[..8] == h[..8];
    assert t[9..13] == h[8..12];
    assert t[14..18] == h[12..16];
    assert t[19..23] == h[16..20];
    assert t[24..] == h[20..];
    assert h == h[..8] + h[8..12] + h[12..16] + h[16..20] + h[20..];
    forall i | 0 <= i < 36 && i !in {8, 13, 18, 23} ensures IsHexDigit(t[i]) {
      var j := if i < 8 then i else if i < 13 then i - 1 else if i < 18 then i - 2
               else if i < 23 then i - 3 else i - 4;
      assert t[i] == h[j];
    }
  }

  /**
   * `padTo32()` lays the 32 hash digits out as a well-formed UUID text whose
   * digits, in order, are the hash; so `UUID(uuidString:)` never fails on it.
   */
  lemma PadTo32Layout(s: string)
    ensures |PadTo32(s)| == 36 && WellFormedUuid(PadTo32(s))
    ensures Dashless(PadTo32(s)) == HashText(s)
    ensures ParseUuid(PadTo32(s)) == Some(Uuid(HexValue(HashText(s))))
  {
    var h := HashText(s);
    HashTextDigits(s);
    assert PadRight(h, 32) == h;
    LayoutIsUuid(h);
  }

  /**
   * The id `fromURL` gives a file: the UUID parsed from `padTo32()` of the
   * file name, or the random `fallback` if that parse failed.
   */
  function IdFor(fileName: string, fallback: Uuid): Uuid {
    ParseUuid(PadTo32(fileName)).GetOr(fallback)
  }

  /**
   * The stable id depends on the file name only (never on the random
   * fallback), and its 128-bit value is the djb2 hash in the high half and
   * the hash's bit reversal in the low half.
   */
  lemma StableIdValue(fileName: string, fallback1: Uuid, fallback2: Uuid)
    ensures IdFor(fileName, fallback1) == IdFor(fileName, fallback2)
    ensures var h := Djb2(Utf8(fileName));
            IdFor(fileName, fallback1).value == h * Two64 + Reversed(h)
  {
    var h := Djb2(Utf8(fileName));
    var text := HashText(fileName);
    PadTo32Layout(fileName);
    HashTextDigits(fileName);
    assert text == text[..16] + text[16..];
    assert AllHex(text[..16]) && AllHex(text[16..]);
    HexValueAppend(text[..16], text[16..]);
    Pow16Is2To64();
  }

  /** Two files with the same name get the same id, wherever they are. */
  lemma SameNameSameId(u1: Url, u2: Url, fallback1: Uuid, fallback2: Uuid)
    requires u1.name == u2.name
    ensures IdFor(u1.name, fallback1) == IdFor(u2.name, fallback2)
  {
    StableIdValue(u1.name, fallback1, fallback2);
  }

  // ------------------------------------------------------ metadata

  datatype CommonValue = TextValue(text: string) | DataValue(bytes: seq<Byte>) | OtherValue

  /** An item of `asset.commonMetadata`: its common key and its value, either possibly missing. */
  datatype CommonItem = CommonItem(commonKey: Option<string>, value: Option<CommonValue>)

  /** An item of `asset.metadata(forFormat:)`: its key if it is a string, and its `stringValue`. */
  datatype FormatItem = FormatItem(key: Option<string>, stringValue: Option<string>)

  /** What `fromURL` reads from the media asset; format items are in format order, then item order. */
  datatype Asset = Asset(duration: real, common: seq<CommonItem>, formatItems: seq<FormatItem>)

  /** The value of the last item that assigns a field, or `default` if none does. */
  function LastAssigned<I, T>(items: seq<I>, assign: I -> Option<T>, default: T): T {
    if items == [] then default
    else match assign(Last(items))
      case Some(v) => v
      case None => LastAssigned(Init(items), assign, default)
  }

  /** Later items overwrite earlier ones: the field holds the last assignment. */
  lemma {:induction false} LastAssignedWins<I, T>(items: seq<I>, assign: I -> Option<T>, default: T, k: nat)
    requires k < |items| && assign(items[k]).Some?
    requires forall j :: k < j < |items| ==> assign(items[j]).None?
    ensures LastAssigned(items, assign, default) == assign(items[k]).value
  {
    if k < |items| - 1 {
      LastAssignedWins(Init(items), assign, default, k);
    }
  }

  /** With no assigning item the default stands. */
  lemma {:induction false} LastAssignedDefault<I, T>(items: seq<I>, assign: I -> Option<T>, default: T)
    requires forall j :: 0 <= j < |items| ==> assign(items[j]).None?
    ensures LastAssigned(items, assign, default) == default
  {
    if items != [] {
      LastAssignedDefault(Init(items), assign, default);
    }
  }

  lemma LastAssignedSnoc<I, T>(items: seq<I>, x: I, assign: I -> Option<T>, default: T)
    ensures LastAssigned(items + [x], assign, default)
         == match assign(x) case Some(v) => v case None => LastAssigned(items, assign, default)
  {
    assert Init(items + [x]) == items;
  }

  function CommonText(item: CommonItem, key: string): Option<string> {
    if item.commonKey == Some(key) && item.value.Some? && item.value.value.TextValue?
    then Some(item.value.value.text) else None
  }

  function TitleItem(item: CommonItem): Option<string> { CommonText(item, "title") }
  function ArtistItem(item: CommonItem): Option<string> { CommonText(item, "artist") }
  function AlbumItem(item: CommonItem): Option<string> { CommonText(item, "albumName") }

  function GenreItem(item: CommonItem): Option<Option<string>> {
    match CommonText(item, "type")
    case Some(g) => Some(Some(g))
    case None => None
  }

  function ArtworkItem(item: CommonItem): Option<Option<seq<Byte>>> {
    if item.commonKey == Some("artwork") && item.value.Some? && item.value.value.DataValue?
    then Some(Some(item.value.value.bytes)) else None
  }

  function AlbumArtistItem(item: FormatItem): Option<Option<string>> {
    if (item.key == Some("TPE2") || item.key == Some("\U{00A9}ART")) && item.stringValue.Some?
    then Some(item.stringValue) else None
  }

  /** TDRC / ©day: the integer of the first four characters, nil if that does not parse. */
  function YearItem(item: FormatItem): Option<Option<int>> {
    if (item.key == Some("TDRC") || item.key == Some("\U{00A9}day")) && item.stringValue.Some?
    then Some(ParseInt(Prefix(item.stringValue.value, 4))) else None
  }

  /**
   * TRCK / TPOS: the integer of the first non-empty '/'-separated piece,
   * nil if it does not parse; a value with no such piece assigns nothing.
   */
  function NumberPiece(item: FormatItem, key: string): Option<Option<int>> {
    if item.key == Some(key) && item.stringValue.Some? then
      match FirstPiece(item.stringValue.value)
      case Some(p) => Some(ParseInt(p))
      case None => None
    else None
  }

  /**
   * TDRC / ©day always assigns the year: leading digits among the first four
   * characters give their value; a first character that is neither digit nor
   * sign, or a later non-digit among the first four, gives nil; and a year
   * read this way lies between -999 and 9999.
   */
  lemma YearItemMeaning(key: string, v: string)
    requires key == "TDRC" || key == "\U{00A9}day"
    ensures YearItem(FormatItem(Some(key), Some(v))).Some?
    ensures v != [] && AllDigits(Prefix(v, 4)) ==>
              YearItem(FormatItem(Some(key), Some(v))).value == Some(DigitsValue(Prefix(v, 4)))
    ensures v == [] || (!IsDigit(v[0]) && v[0] != '-' && v[0] != '+')
            || (exists i :: 1 <= i < |Prefix(v, 4)| && !IsDigit(v[i])) ==>
              YearItem(FormatItem(Some(key), Some(v))).value.None?
    ensures YearItem(FormatItem(Some(key), Some(v))).value.Some? ==>
              -999 <= YearItem(FormatItem(Some(key), Some(v))).value.value <= 9999
  {
    var p := Prefix(v, 4);
    var signed := p != [] && (p[0] == '-' || p[0] == '+');
    var digits := if signed then p[1..] else p;
    if digits != [] && AllDigits(digits) {
      DigitsBelow(digits);
      assert Pow10(4) == 10000 && Pow10(3) == 1000;
      assert Pow10(2) == 100 && Pow10(1) == 10 && Pow10(0) == 1;
      assert DigitsValue(digits) < if signed then 1000 else 10000;
    }
    if exists i :: 1 <= i < |p| && !IsDigit(v[i]) {
      var i :| 1 <= i < |p| && !IsDigit(v[i]);
      assert p[i] == v[i];
      if signed {
        assert digits[i - 1] == v[i];
      }
    }
  }

  function TrackItem(item: FormatItem): Option<Option<int>> { NumberPiece(item, "TRCK") }
  function DiscItem(item: FormatItem): Option<Option<int>> { NumberPiece(item, "TPOS") }

  lemma TwelveSplits()
    ensures Pieces("12") == ["12"] && ParseInt("12") == Some(12)
  {
    assert RunLength("12") == 2 by {
      assert "12"[1..] == "2" && "2"[1..] == [];
    }
    assert "12"[2..] == [] && "12"[..2] == "12";
    assert DigitsValue("12") == 12 by {
      assert "12"[..1] == "1";
    }
  }

  /** "3/12" is track 3; "/12" is track 12, since split drops the empty first piece. */
  lemma TrackPieceExamples()
    ensures TrackItem(FormatItem(Some("TRCK"), Some("3/12"))) == Some(Some(3))
    ensures TrackItem(FormatItem(Some("TRCK"), Some("/12"))) == Some(Some(12))
  {
    TwelveSplits();
    assert Pieces("/12") == ["12"] by {
      assert "/12"[1..] == "12";
    }
    assert Pieces("3/12") == ["3", "12"] by {
      assert RunLength("3/12") == 1 by { assert "3/12"[1..] == "/12"; }
      assert "3/12"[..1] == "3" && "3/12"[1..] == "/12";
    }
  }

  /** "x/12" clears the track, since "x" is no integer; "//" has no piece and assigns nothing. */
  lemma TrackPieceEdgeCases()
    ensures TrackItem(FormatItem(Some("TRCK"), Some("x/12"))) == Some(None)
    ensures TrackItem(FormatItem(Some("TRCK"), Some("//"))) == None
  {
    TwelveSplits();
    assert Pieces("x/12") == ["x", "12"] by {
      assert RunLength("x/12") == 1 by { assert "x/12"[1..] == "/12"; }
      assert "x/12"[..1] == "x" && "x/12"[1..] == "/12";
    }
    assert Pieces("//") == [] by {
      assert "//"[1..] == "/" && "/"[1..] == [];
    }
  }

  /** TDRC "2019-05-01" is the year 2019: its first four characters. */
  lemma YearPieceExample()
    ensures YearItem(FormatItem(Some("TDRC"), Some("2019-05-01"))) == Some(Some(2019))
  {
    assert Prefix("2019-05-01", 4) == "2019";
    assert DigitsValue("2019") == 2019 by {
      assert "2"[..0] == [] && DigitsValue("2") == 2;
      assert "20"[..1] == "2" && DigitsValue("20") == 20;
      assert "201"[..2] == "20" && DigitsValue("201") == 201;
      assert "2019"[..3] == "201";
    }
  }

  /** A TRCK/TPOS value assigns exactly when it has a non-empty piece, and then Int of its first piece. */
  lemma NumberPieceMeaning(v: string, key: string)
    ensures NumberPiece(FormatItem(Some(key), Some(v)), key).Some? <==> exists c :: c in v && c != '/'
    ensures NumberPiece(FormatItem(Some(key), Some(v)), key).Some? ==>
              NumberPiece(FormatItem(Some(key), Some(v)), key).value == ParseInt(Pieces(v)[0])
  {
    PiecesSplit(v);
    NonSlashSurvives(v);
  }

  lemma {:induction false} NonSlashSurvives(v: string)
    ensures WithoutSlashes(v) != [] <==> exists c :: c in v && c != '/'
  {
    if v != [] {
      NonSlashSurvives(v[1..]);
      if v[0] == '/' {
        if exists c :: c in v && c != '/' {
          var c :| c in v && c != '/';
          assert c in v[1..];
        }
        if exists c :: c in v[1..] && c != '/' {
          var c :| c in v[1..] && c != '/';
          assert c in v;
        }
      } else {
        assert v[0] in v;
      }
    }
  }

  /**
   * `Song.fromURL` with the asset's metadata given: defaults from the file
   * name, then each field is overwritten by every matching item, so the last
   * one wins; the id comes from the file name only.
   */
  method FromUrl(url: Url, asset: Asset, fallbackId: Uuid) returns (song: Song)
    ensures song.url == url && song.duration == asset.duration
    ensures song.title == LastAssigned(asset.common, TitleItem, Stem(url.name))
    ensures song.artist == LastAssigned(asset.common, ArtistItem, "Unknown Artist")
    ensures song.album == LastAssigned(asset.common, AlbumItem, "Unknown Album")
    ensures song.genre == LastAssigned(asset.common, GenreItem, None)
    ensures song.artworkData == LastAssigned(asset.common, ArtworkItem, None)
    ensures song.albumArtist == LastAssigned(asset.formatItems, AlbumArtistItem, None)
    ensures song.year == LastAssigned(asset.formatItems, YearItem, None)
    ensures song.trackNumber == LastAssigned(asset.formatItems, TrackItem, None)
    ensures song.discNumber == LastAssigned(asset.formatItems, DiscItem, None)
    ensures song.id == IdFor(url.name, fallbackId)
  {
    var duration := asset.duration;
    var title, artist, album, genre, artworkData := ReadCommonMetadata(asset.common, Stem(url.name));
    var albumArtist, year, trackNumber, discNumber := ReadFormatMetadata(asset.formatItems);
    var hash := HashString(url.name);
    var id := ParseUuid(UuidLayout(PadRight(hash, 32))).GetOr(fallbackId);
    song := Song(id, url, title, artist, album, albumArtist, duration, artworkData,
                 genre, year, trackNumber, discNumber);
  }

  /** The loop of `fromURL` over `asset.commonMetadata`. */
  method ReadCommonMetadata(common: seq<CommonItem>, defaultTitle: string)
    returns (title: string, artist: string, album: string, genre: Option<string>, artworkData: Option<seq<Byte>>)
    ensures title == LastAssigned(common, TitleItem, defaultTitle)
    ensures artist == LastAssigned(common, ArtistItem, "Unknown Artist")
    ensures album == LastAssigned(common, AlbumItem, "Unknown Album")
    ensures genre == LastAssigned(common, GenreItem, None)
    ensures artworkData == LastAssigned(common, ArtworkItem, None)
  {
    title, artist, album, genre, artworkData := defaultTitle, "Unknown Artist", "Unknown Album", None, None;
    for i := 0 to |common|
      invariant title == LastAssigned(common[..i], TitleItem, defaultTitle)
      invariant artist == LastAssigned(common[..i], ArtistItem, "Unknown Artist")
      invariant album == LastAssigned(common[..i], AlbumItem, "Unknown Album")
      invariant genre == LastAssigned(common[..i], GenreItem, None)
      invariant artworkData == LastAssigned(common[..i], ArtworkItem, None)
    {
      var item := common[i];
      assert common[..i + 1] == common[..i] + [item];
      LastAssignedSnoc(common[..i], item, TitleItem, defaultTitle);
      LastAssignedSnoc(common[..i], item, ArtistItem, "Unknown Artist");
      LastAssignedSnoc(common[..i], item, AlbumItem, "Unknown Album");
      LastAssignedSnoc(common[..i], item, GenreItem, None);
      LastAssignedSnoc(common[..i], item, ArtworkItem, None);
      if item.commonKey.None? || item.value.None? {
        continue;
      }
      var key := item.commonKey.value;
      var value := item.value.value;
      if key == "title" {
        if value.TextValue? { title := value.text; }
      } else if key == "artist" {
        if value.TextValue? { artist := value.text; }
      } else if key == "albumName" {
        if value.TextValue? { album := value.text; }
      } else if key == "type" {
        if value.TextValue? { genre := Some(value.text); }
      } else if key == "artwork" {
        if value.DataValue? { artworkData := Some(value.bytes); }
      }
    }
    assert common[..|common|] == common;
  }

  /** The loops of `fromURL` over the items of every metadata format (ID3 and iTunes keys). */
  method ReadFormatMetadata(items: seq<FormatItem>)
    returns (albumArtist: Option<string>, year: Option<int>, trackNumber: Option<int>, discNumber: Option<int>)
    ensures albumArtist == LastAssigned(items, AlbumArtistItem, None)
    ensures year == LastAssigned(items, YearItem, None)
    ensures trackNumber == LastAssigned(items, TrackItem, None)
    ensures discNumber == LastAssigned(items, DiscItem, None)
  {
    albumArtist, year, trackNumber, discNumber := None, None, None, None;
    for i := 0 to |items|
      invariant albumArtist == LastAssigned(items[..i], AlbumArtistItem, None)
      invariant year == LastAssigned(items[..i], YearItem, None)
      invariant trackNumber == LastAssigned(items[..i], TrackItem, None)
      invariant discNumber == LastAssigned(items[..i], DiscItem, None)
    {
      var item := items[i];
      assert items[..i + 1] == items[..i] + [item];
      LastAssignedSnoc(items[..i], item, AlbumArtistItem, None);
      LastAssignedSnoc(items[..i], item, YearItem, None);
      LastAssignedSnoc(items[..i], item, TrackItem, None);
      LastAssignedSnoc(items[..i], item, DiscItem, None);
      if item.key.None? || item.stringValue.None? {
        continue;
      }
      var key := item.key.value;
      var value := item.stringValue.value;
      if key == "TPE2" || key == "\U{00A9}ART" {
        albumArtist := Some(value);
      } else if key == "TDRC" || key == "\U{00A9}day" {
        year := ParseInt(Prefix(value, 4));
      } else if key == "TRCK" {
        var components := Pieces(value);
        if components != [] { trackNumber := ParseInt(components[0]); }
      } else if key == "TPOS" {
        var components := Pieces(value);
        if components != [] { discNumber := ParseInt(components[0]); }
      }
    }
    assert items[..|items|] == items;
  }
}
