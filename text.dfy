/**
 * The string operations the core leans on: `lowercased()` (ASCII letters
 * only), `contains`, the `<` ordering used by the sorts, UTF-8 encoding,
 * `Int(String)` for 64-bit Int, `prefix(_:)` and `split(separator: "/")`.
 * A string is a sequence of Unicode scalars: Swift's grapheme clusters and
 * canonical equivalence are not modelled, so these agree with Swift on text
 * in normalization form C in which every scalar is a character of its own.
 */
module Text {
  import opened Wrappers

  type Byte = b: int | 0 <= b < 256

  function LowerChar(c: char): char {
    if 'A' <= c <= 'Z' then (c as int + 32) as char else c
  }

  /** `lowercased()`, restricted to the ASCII letters. */
  function Lower(s: string): string {
    seq(|s|, i requires 0 <= i < |s| => LowerChar(s[i]))
  }

  /** `needle` occurs in `hay` as a contiguous run. */
  predicate Contains(hay: string, needle: string) {
    exists i | 0 <= i <= |hay| :: OccursAt(hay, needle, i)
  }

  predicate OccursAt(hay: string, needle: string, i: int) {
    0 <= i <= |hay| - |needle| && hay[i..i + |needle|] == needle
  }

  /**
   * `a < b` on strings, as the raw lexicographic order of the scalars.
   * Swift compares the NFC-normalised scalars; the two agree on NFC text.
   */
  predicate StrLess(a: string, b: string)
    decreases |a|
  {
    if b == [] then false
    else if a == [] then true
    else if a[0] != b[0] then a[0] < b[0]
    else StrLess(a[1..], b[1..])
  }

  lemma {:induction false} StrLessIrreflexive(a: string)
    ensures !StrLess(a, a)
  {
    if a != [] {
      StrLessIrreflexive(a[1..]);
    }
  }

  lemma {:induction false} StrLessTransitive(a: string, b: string, c: string)
    requires StrLess(a, b) && StrLess(b, c)
    ensures StrLess(a, c)
  {
    if a != [] && a[0] == b[0] && b[0] == c[0] {
      StrLessTransitive(a[1..], b[1..], c[1..]);
    }
  }

  lemma {:induction false} StrLessTotal(a: string, b: string)
    ensures a == b || StrLess(a, b) || StrLess(b, a)
  {
    if a != [] && b != [] && a[0] == b[0] {
      StrLessTotal(a[1..], b[1..]);
      if a[1..] == b[1..] {
        assert a == [a[0]] + a[1..] && b == [b[0]] + b[1..];
      }
    }
  }

  // ---------------------------------------------------------------- UTF-8

  /** The UTF-8 bytes of one Unicode scalar value. */
  function EncodeChar(c: char): (r: seq<Byte>)
    ensures 1 <= |r| <= 4
    ensures (|r| == 1) == (c as int < 0x80)
    ensures |r| == 1 ==> r[0] == c as int
  {
    var n := c as int;
    if n < 0x80 then [n]
    else if n < 0x800 then [0xC0 + n / 0x40, 0x80 + n % 0x40]
    else if n < 0x1_0000 then [0xE0 + n / 0x1000, 0x80 + (n / 0x40) % 0x40, 0x80 + n % 0x40]
    else [0xF0 + n / 0x4_0000, 0x80 + (n / 0x1000) % 0x40, 0x80 + (n / 0x40) % 0x40, 0x80 + n % 0x40]
  }

  /** `Data(s.utf8)`. */
  function Utf8(s: string): seq<Byte> {
    if s == [] then [] else EncodeChar(s[0]) + Utf8(s[1..])
  }

  predicate IsAscii(s: string) {
    forall i :: 0 <= i < |s| ==> s[i] as int < 0x80
  }

  /** On ASCII text UTF-8 is the identity on code points, one byte per character. */
  lemma {:induction false} Utf8OfAscii(s: string)
    requires IsAscii(s)
    ensures |Utf8(s)| == |s|
    ensures forall i :: 0 <= i < |s| ==> Utf8(s)[i] == s[i] as int
  {
    if s != [] {
      Utf8OfAscii(s[1..]);
    }
  }

  /** Every character contributes at least one byte. */
  lemma {:induction false} Utf8Length(s: string)
    ensures |s| <= |Utf8(s)| <= 4 * |s|
  {
    if s != [] {
      Utf8Length(s[1..]);
    }
  }

  // ------------------------------------------------------- Int(String)

  const IntMin: int := -0x8000_0000_0000_0000
  const IntMax: int := 0x7FFF_FFFF_FFFF_FFFF

  predicate IsDigit(c: char) {
    '0' <= c <= '9'
  }

  predicate AllDigits(s: string) {
    forall i :: 0 <= i < |s| ==> IsDigit(s[i])
  }

  function DigitsValue(s: string): nat
    requires AllDigits(s)
  {
    if s == [] then 0
    else DigitsValue(s[..|s| - 1]) * 10 + (s[|s| - 1] as int - '0' as int)
  }

  /**
   * Swift's `Int(s)`: an optional sign, then one or more decimal digits and
   * nothing else; nil when malformed or outside the 64-bit range.
   */
  function ParseInt(s: string): (r: Option<int>)
    ensures r.Some? ==> IntMin <= r.value <= IntMax
  {
    var signed := s != [] && (s[0] == '-' || s[0] == '+');
    var digits := if signed then s[1..] else s;
    if digits == [] || !AllDigits(digits) then None
    else
      var v: int := if signed && s[0] == '-' then 0 - DigitsValue(digits) as int else DigitsValue(digits);
      if IntMin <= v <= IntMax then Some(v) else None
  }

  function Pow10(n: nat): (p: nat)
    ensures p >= 1
  {
    if n == 0 then 1 else 10 * Pow10(n - 1)
  }

  /** A numeral of n digits is below 10^n. */
  lemma {:induction false} DigitsBelow(s: string)
    requires AllDigits(s)
    ensures DigitsValue(s) < Pow10(|s|)
  {
    if s != [] {
      DigitsBelow(s[..|s| - 1]);
    }
  }

  /** Decimal text of a natural number, without leading zeros. */
  function Decimal(n: nat): (r: string)
    ensures r != [] && AllDigits(r)
  {
    var d := ['0' + (n % 10) as char];
    if n < 10 then d else Decimal(n / 10) + d
  }

  lemma {:induction false} DecimalValue(n: nat)
    ensures DigitsValue(Decimal(n)) == n
  {
    var d := Decimal(n);
    if n >= 10 {
      DecimalValue(n / 10);
      assert d[..|d| - 1] == Decimal(n / 10);
    }
  }

  /** `Int` reads back every decimal numeral it could have printed. */
  lemma ParseDecimal(n: int)
    requires IntMin <= n <= IntMax
    ensures n >= 0 ==> ParseInt(Decimal(n)) == Some(n)
    ensures ParseInt(if n >= 0 then Decimal(n) else "-" + Decimal(-n)) == Some(n)
  {
    if n >= 0 {
      DecimalValue(n);
    } else {
      DecimalValue(-n);
      var s := "-" + Decimal(-n);
      assert s[1..] == Decimal(-n);
    }
  }

  // ------------------------------------------------ prefix and split

  /** `s.prefix(n)`: the first `n` scalars, or all of a shorter string (see the module note on characters). */
  function Prefix(s: string, n: nat): (r: string)
    ensures |r| == if |s| < n then |s| else n
    ensures r <= s
  {
    if |s| <= n then s else s[..n]
  }

  /** Length of the leading run of characters other than '/'. */
  function RunLength(v: string): (n: nat)
    ensures n <= |v|
    ensures forall i :: 0 <= i < n ==> v[i] != '/'
    ensures n < |v| ==> v[n] == '/'
  {
    if v == [] || v[0] == '/' then 0 else 1 + RunLength(v[1..])
  }

  /** `v.split(separator: "/")`, which omits empty pieces. */
  function Pieces(v: string): seq<string>
    decreases |v|
  {
    if v == [] then []
    else if v[0] == '/' then Pieces(v[1..])
    else var n := RunLength(v); [v[..n]] + Pieces(v[n..])
  }

  function Concat(ps: seq<string>): string {
    if ps == [] then [] else ps[0] + Concat(ps[1..])
  }

  function WithoutSlashes(v: string): string {
    if v == [] then [] else (if v[0] == '/' then [] else [v[0]]) + WithoutSlashes(v[1..])
  }

  lemma {:induction false} WithoutSlashesAppend(a: string, b: string)
    ensures WithoutSlashes(a + b) == WithoutSlashes(a) + WithoutSlashes(b)
  {
    if a != [] {
      assert (a + b)[0] == a[0] && (a + b)[1..] == a[1..] + b;
      WithoutSlashesAppend(a[1..], b);
    } else {
      assert a + b == b;
    }
  }

  lemma {:induction false} WithoutSlashesOfRun(v: string)
    requires forall i :: 0 <= i < |v| ==> v[i] != '/'
    ensures WithoutSlashes(v) == v
  {
    if v != [] {
      WithoutSlashesOfRun(v[1..]);
    }
  }

  /**
   * The pieces are non-empty, hold no '/', and together are exactly the
   * characters of `v` other than '/', in order.
   */
  lemma {:induction false} PiecesSplit(v: string)
    ensures forall k :: 0 <= k < |Pieces(v)| ==> Pieces(v)[k] != [] && '/' !in Pieces(v)[k]
    ensures Concat(Pieces(v)) == WithoutSlashes(v)
    decreases |v|
  {
    if v == [] {
    } else if v[0] == '/' {
      PiecesSplit(v[1..]);
    } else {
      var n := RunLength(v);
      PiecesSplit(v[n..]);
      var ps := Pieces(v);
      assert ps[1..] == Pieces(v[n..]);
      assert v == v[..n] + v[n..];
      WithoutSlashesAppend(v[..n], v[n..]);
      WithoutSlashesOfRun(v[..n]);
      forall k | 0 <= k < |ps| ensures ps[k] != [] && '/' !in ps[k] {
        if k > 0 {
          assert ps[k] == Pieces(v[n..])[k - 1];
        }
      }
    }
  }

  /** `p` occurs in `v` at `i` as a whole run: '/' or an end of `v` on either side. */
  predicate RunAt(v: string, p: string, i: int) {
    0 <= i && i + |p| <= |v| && v[i..i + |p|] == p
    && (i == 0 || v[i - 1] == '/') && (i + |p| == |v| || v[i + |p|] == '/')
  }

  /** `p` occurs somewhere in `v` as a whole slash-delimited run. */
  predicate IsRun(v: string, p: string) {
    exists i :: 0 <= i <= |v| && RunAt(v, p, i)
  }

  /** A run of `v[d..]` is a run of `v` when `v[d - 1]` is a '/' or the run does not touch the cut. */
  lemma RunShift(v: string, d: nat, p: string, i: nat)
    requires d <= |v| && RunAt(v[d..], p, i)
    requires i == 0 ==> d == 0 || v[d - 1] == '/'
    ensures RunAt(v, p, i + d)
  {
    assert v[i + d..i + d + |p|] == v[d..][i..i + |p|];
    if i > 0 {
      assert v[i + d - 1] == v[d..][i - 1];
    }
    if i + |p| < |v[d..]| {
      assert v[i + d + |p|] == v[d..][i + |p|];
    }
  }

  /** Runs of the text after a leading '/' are runs of the whole text. */
  lemma RunsPastSlash(v: string, ps: seq<string>)
    requires v != [] && v[0] == '/'
    requires forall k :: 0 <= k < |ps| ==> IsRun(v[1..], ps[k])
    ensures forall k :: 0 <= k < |ps| ==> IsRun(v, ps[k])
  {
    forall k | 0 <= k < |ps| ensures IsRun(v, ps[k]) {
      var i :| 0 <= i <= |v[1..]| && RunAt(v[1..], ps[k], i);
      RunShift(v, 1, ps[k], i);
      assert RunAt(v, ps[k], i + 1);
    }
  }

  /** `split` cuts at every '/' and nowhere else: each piece is a whole slash-free run of `v`. */
  lemma {:induction false} PiecesAreRuns(v: string)
    ensures forall k :: 0 <= k < |Pieces(v)| ==> IsRun(v, Pieces(v)[k])
    decreases |v|
  {
    if v == [] {
    } else if v[0] == '/' {
      PiecesAreRuns(v[1..]);
      assert Pieces(v) == Pieces(v[1..]);
      RunsPastSlash(v, Pieces(v[1..]));
    } else {
      var n := RunLength(v);
      PiecesAreRuns(v[n..]);
      PiecesSplit(v[n..]);
      var rest := Pieces(v[n..]);
      var ps := Pieces(v);
      assert ps == [v[..n]] + rest;
      forall k | 0 <= k < |ps| ensures IsRun(v, ps[k]) {
        if k == 0 {
          assert RunAt(v, ps[k], 0);
        } else {
          assert ps[k] == rest[k - 1];
          var i :| 0 <= i <= |v[n..]| && RunAt(v[n..], rest[k - 1], i);
          RunShift(v, n, rest[k - 1], i);
          assert RunAt(v, ps[k], i + n);
        }
      }
    }
  }

  /** The first piece is the run that starts right after the leading slashes. */
  lemma {:induction false} FirstPieceIsFirstRun(v: string)
    ensures Pieces(v) != [] ==>
              exists f :: 0 <= f < |v| && (forall j :: 0 <= j < f ==> v[j] == '/') && RunAt(v, Pieces(v)[0], f)
    decreases |v|
  {
    if v == [] {
    } else if v[0] == '/' {
      FirstPieceIsFirstRun(v[1..]);
      var ps := Pieces(v[1..]);
      assert Pieces(v) == ps;
      if ps != [] {
        var f :| 0 <= f < |v[1..]| && (forall j :: 0 <= j < f ==> v[1..][j] == '/') && RunAt(v[1..], ps[0], f);
        RunShift(v, 1, ps[0], f);
        forall j | 0 <= j < f + 1 ensures v[j] == '/' {
          if j > 0 { assert v[j] == v[1..][j - 1]; }
        }
        assert RunAt(v, Pieces(v)[0], f + 1);
      }
    } else {
      var n := RunLength(v);
      assert Pieces(v)[0] == v[..n];
      assert RunAt(v, Pieces(v)[0], 0);
    }
  }

  /** `split(separator: "/").first`. */
  function FirstPiece(v: string): Option<string> {
    var ps := Pieces(v);
    if ps == [] then None else Some(ps[0])
  }
}
