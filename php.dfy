/** The PHP built-ins the plugin's string formats are made of, with PHP's own
    edge cases: `explode`/`implode`, `trim`, `empty()` on strings,
    `bin2hex`, `pack('H*')`, `pack('a32')` and `unpack('a32')`.
    A PHP string is a byte string: here a `string` whose characters are all
    below 256 (`IsBytes`). */
module Php {

  datatype Option<+T> = None | Some(value: T) {
    function GetOr(default: T): T {
      match this
      case Some(v) => v
      case None => default
    }
  }

  /** `empty($s)` for a string: '' and '0' are empty. */
  predicate Empty(s: string) {
    s == "" || s == "0"
  }

  /** `empty($v)` for a value that may be missing (`null`). */
  predicate EmptyOpt(v: Option<string>) {
    v.None? || Empty(v.value)
  }

  predicate IsBytes(s: string) {
    forall i :: 0 <= i < |s| ==> s[i] as int < 256
  }

  /** `$s[i..]` once a prefix is known to be a byte string */
  lemma BytesSuffix(s: string, k: nat)
    requires IsBytes(s) && k <= |s|
    ensures IsBytes(s[k..])
  {
    forall i | 0 <= i < |s[k..]| ensures s[k..][i] as int < 256 {
      assert s[k..][i] == s[k + i];
    }
  }

  // ---------------------------------------------------------------------
  // implode / explode

  /** `implode($glue, $parts)` */
  function Implode(glue: string, parts: seq<string>): string
  {
    if |parts| == 0 then ""
    else if |parts| == 1 then parts[0]
    else parts[0] + glue + Implode(glue, parts[1..])
  }

  /** `explode($sep, $s)` for a one-character separator: the pieces between
      separators, never fewer than one, none holding the separator, and
      gluing them back gives `s`. */
  function Explode(sep: char, s: string): (parts: seq<string>)
    ensures |parts| >= 1
    ensures forall i :: 0 <= i < |parts| ==> sep !in parts[i]
    ensures Implode([sep], parts) == s
    decreases |s|
  {
    if |s| == 0 then [""]
    else if s[0] == sep then
      var rest := Explode(sep, s[1..]);
      assert [sep] + s[1..] == s;
      [""] + rest
    else
      var rest := Explode(sep, s[1..]);
      var parts := [[s[0]] + rest[0]] + rest[1..];
      assert parts[1..] == rest[1..];
      assert Implode([sep], parts) == [s[0]] + Implode([sep], rest) by {
        if |rest| > 1 {
          assert Implode([sep], rest) == rest[0] + [sep] + Implode([sep], rest[1..]);
        }
      }
      assert [s[0]] + s[1..] == s;
      parts
  }

  /** Splitting a glued list of separator-free pieces gives the pieces back. */
  lemma {:induction false} ExplodeImplode(sep: char, parts: seq<string>)
    requires |parts| >= 1
    requires forall i :: 0 <= i < |parts| ==> sep !in parts[i]
    ensures Explode(sep, Implode([sep], parts)) == parts
    decreases |parts|
  {
    if |parts| == 1 {
      ExplodeNoSeparator(sep, parts[0]);
    } else {
      ExplodeImplode(sep, parts[1..]);
      ExplodeFirst(sep, parts[0], Implode([sep], parts[1..]));
      assert [parts[0]] + parts[1..] == parts;
    }
  }

  lemma {:induction false} ExplodeNoSeparator(sep: char, p: string)
    requires sep !in p
    ensures Explode(sep, p) == [p]
    decreases |p|
  {
    if |p| > 0 {
      ExplodeNoSeparator(sep, p[1..]);
      assert [p[0]] + p[1..] == p;
    }
  }

  lemma {:induction false} ExplodeFirst(sep: char, p: string, rest: string)
    requires sep !in p
    ensures Explode(sep, p + [sep] + rest) == [p] + Explode(sep, rest)
    decreases |p|
  {
    var s := p + [sep] + rest;
    if |p| == 0 {
      assert s[1..] == rest;
    } else {
      assert s[1..] == p[1..] + [sep] + rest;
      ExplodeFirst(sep, p[1..], rest);
      assert [p[0]] + p[1..] == p;
    }
  }

  // ---------------------------------------------------------------------
  // trim

  /** The bytes `trim()` strips by default: " \t\n\r\0\x0B". */
  predicate IsTrimChar(c: char) {
    c as int == 32 || c as int == 9 || c as int == 10 || c as int == 13 || c as int == 0 || c as int == 11
  }

  /** Nothing but bytes `trim()` strips. */
  predicate AllTrim(t: string) {
    forall k :: 0 <= k < |t| ==> IsTrimChar(t[k])
  }

  function TrimLeft(s: string): (r: string)
    ensures |r| <= |s| && r == s[|s| - |r|..]
    ensures r == [] || !IsTrimChar(r[0])
    ensures AllTrim(s[..|s| - |r|])
  {
    if |s| > 0 && IsTrimChar(s[0]) then
      var r := TrimLeft(s[1..]);
      assert s[..|s| - |r|] == [s[0]] + s[1..][..|s| - 1 - |r|];
      r
    else s
  }

  function TrimRight(s: string): (r: string)
    ensures |r| <= |s| && r == s[..|r|]
    ensures r == [] || !IsTrimChar(r[|r| - 1])
    ensures AllTrim(s[|r|..])
  {
    if |s| > 0 && IsTrimChar(s[|s| - 1]) then
      var r := TrimRight(s[..|s| - 1]);
      assert s[|r|..] == s[..|s| - 1][|r|..] + [s[|s| - 1]];
      r
    else s
  }

  /** `trim($s)`: `s` without its leading and trailing whitespace and NUL bytes. */
  function Trim(s: string): (r: string)
    ensures |r| <= |s|
    ensures r == [] || (!IsTrimChar(r[0]) && !IsTrimChar(r[|r| - 1]))
  {
    TrimRight(TrimLeft(s))
  }

  /** `r` is the stretch of `s` starting at `i`, and what lies before and
      after it in `s` is nothing but bytes `trim()` strips. */
  predicate Stretch(s: string, r: string, i: int) {
    0 <= i && i + |r| <= |s| && r == s[i..i + |r|] && AllTrim(s[..i]) && AllTrim(s[i + |r|..])
  }

  /** `trim($s)` is the stretch of `s` after the leading run `TrimLeft`
      strips. */
  lemma TrimStretch(s: string)
    ensures Stretch(s, Trim(s), |s| - |TrimLeft(s)|)
  {
    var l := TrimLeft(s);
    var r := TrimRight(l);
    assert Trim(s) == r;
    StretchOf(s, l, r);
  }

  /** A prefix `r` of a suffix `l` of `s`, the two cut off parts being
      trim bytes only. */
  lemma StretchOf(s: string, l: string, r: string)
    requires |l| <= |s| && l == s[|s| - |l|..] && AllTrim(s[..|s| - |l|])
    requires |r| <= |l| && r == l[..|r|] && AllTrim(l[|r|..])
    ensures Stretch(s, r, |s| - |l|)
  {
    var i := |s| - |l|;
    assert s[i + |r|..] == l[|r|..];
  }

  /** A string with nothing for `trim()` to strip. */
  predicate Trimmed(s: string) {
    s == [] || (!IsTrimChar(s[0]) && !IsTrimChar(s[|s| - 1]))
  }

  lemma TrimOfTrimmed(s: string)
    requires Trimmed(s)
    ensures Trim(s) == s
  {
  }

  /** Appending bytes `trim()` strips to a trimmed string is undone by `trim()`. */
  lemma {:induction false} TrimPadding(u: string, pad: string)
    requires Trimmed(u)
    requires AllTrim(pad)
    ensures Trim(u + pad) == u
    decreases |pad|
  {
    if |u| == 0 {
      assert u + pad == pad;
      TrimLeftAll(pad);
    } else {
      assert TrimLeft(u + pad) == u + pad;
      TrimRightPad(u, pad);
    }
  }

  lemma {:induction false} TrimLeftAll(pad: string)
    requires AllTrim(pad)
    ensures TrimLeft(pad) == []
    decreases |pad|
  {
    if |pad| > 0 {
      TrimLeftAll(pad[1..]);
    }
  }

  lemma {:induction false} TrimRightPad(u: string, pad: string)
    requires u != [] && !IsTrimChar(u[|u| - 1])
    requires AllTrim(pad)
    ensures TrimRight(u + pad) == u
    decreases |pad|
  {
    if |pad| == 0 {
      assert u + pad == u;
    } else {
      var s := u + pad;
      assert s[..|s| - 1] == u + pad[..|pad| - 1];
      TrimRightPad(u, pad[..|pad| - 1]);
    }
  }

  // ---------------------------------------------------------------------
  // bin2hex, pack('H*'), pack('a32'), unpack('a32')

  const HexDigits: string := "0123456789abcdef"

  predicate IsHexText(s: string) {
    forall i :: 0 <= i < |s| ==> s[i] in HexDigits
  }

  /** The value of one hex digit for `pack('H*')`; an illegal digit counts
      as 0 (PHP warns and goes on). */
  function Nibble(c: char): (n: int)
    ensures 0 <= n < 16
    ensures forall k :: 0 <= k < 16 && c == HexDigits[k] ==> n == k
  {
    if '0' <= c <= '9' then c as int - '0' as int
    else if 'a' <= c <= 'f' then c as int - 'a' as int + 10
    else if 'A' <= c <= 'F' then c as int - 'A' as int + 10
    else 0
  }

  /** `bin2hex($s)`: two lower-case hex digits per byte. */
  function Bin2Hex(s: string): (h: string)
    ensures |h| == 2 * |s|
    ensures IsHexText(h)
  {
    if s == [] then []
    else [HexDigits[s[0] as int / 16 % 16], HexDigits[s[0] as int % 16]] + Bin2Hex(s[1..])
  }

  /** `pack('H*', $h)`: one byte per two hex digits, an odd last digit
      filling the high half of a last byte. */
  function PackHex(h: string): (b: string)
    ensures |b| == (|h| + 1) / 2
    ensures IsBytes(b)
  {
    if |h| == 0 then []
    else if |h| == 1 then [(Nibble(h[0]) * 16) as char]
    else [(Nibble(h[0]) * 16 + Nibble(h[1])) as char] + PackHex(h[2..])
  }

  lemma ByteDigits(c: int)
    requires 0 <= c < 256
    ensures c / 16 % 16 == c / 16 && 0 <= c % 16 < 16
    ensures Nibble(HexDigits[c / 16]) * 16 + Nibble(HexDigits[c % 16]) == c
  {
  }

  lemma {:induction false} HexRoundTrip(s: string)
    requires IsBytes(s)
    ensures PackHex(Bin2Hex(s)) == s
  {
    if s != [] {
      var h := Bin2Hex(s);
      assert h[2..] == Bin2Hex(s[1..]);
      ByteDigits(s[0] as int);
      assert PackHex(h)[0] == s[0];
      BytesSuffix(s, 1);
      HexRoundTrip(s[1..]);
      assert [s[0]] + s[1..] == s;
    }
  }

  function Nuls(n: nat): (z: string)
    ensures |z| == n && forall i :: 0 <= i < n ==> z[i] as int == 0
  {
    if n == 0 then [] else [0 as char] + Nuls(n - 1)
  }

  /** `pack('a32', $s)`: the first 32 bytes of `s`, NUL-padded to 32. */
  function PackA32(s: string): (b: string)
    ensures |b| == 32
    ensures |s| <= 32 ==> b == s + Nuls(32 - |s|)
  {
    if |s| >= 32 then s[..32] else s + Nuls(32 - |s|)
  }

  /** `unpack('a32', $b)[1]`: the first 32 bytes, padding kept; PHP's
      `unpack` fails (gives `false`) on fewer than 32 bytes. */
  function UnpackA32(b: string): (r: Option<string>)
    ensures r.Some? <==> |b| >= 32
    ensures r.Some? ==> r.value == b[..32]
  {
    if |b| < 32 then None else Some(b[..32])
  }

  /** A user id survives `bin2hex(pack('a32', .))` followed by
      `trim(unpack('a32', pack('H*', .)))` exactly when it fits 32 bytes and
      has nothing for `trim` to strip. */
  lemma HexIdRoundTrip(u: string)
    requires IsBytes(u) && |u| <= 32 && Trimmed(u)
    ensures |Bin2Hex(PackA32(u))| == 64
    ensures UnpackA32(PackHex(Bin2Hex(PackA32(u)))) == Some(PackA32(u))
    ensures Trim(PackA32(u)) == u
  {
    var p := PackA32(u);
    assert IsBytes(p) by {
      forall i | 0 <= i < |p| ensures p[i] as int < 256 {
        if i >= |u| { assert p[i] == Nuls(32 - |u|)[i - |u|]; }
      }
    }
    HexRoundTrip(p);
    assert p[..32] == p;
    TrimPadding(u, Nuls(32 - |u|));
  }

  // ---------------------------------------------------------------------
  // decimal rendering of an integer, as `(string) $n`

  function DigitsOf(n: nat): (s: string)
    ensures |s| >= 1
    decreases n
  {
    if n < 10 then [HexDigits[n]] else DigitsOf(n / 10) + [HexDigits[n % 10]]
  }

  function IntToString(n: int): (s: string)
    ensures |s| >= 1
  {
    if n < 0 then "-" + DigitsOf(-n) else DigitsOf(n)
  }

  /** The first digit is a digit, never a sign. */
  lemma {:induction false} DigitsFirst(n: nat)
    ensures DigitsOf(n)[0] != '-'
    decreases n
  {
    if n >= 10 {
      DigitsFirst(n / 10);
    } else {
      assert forall i :: 0 <= i < 10 ==> HexDigits[i] != '-';
    }
  }

  /** Different numbers are written differently. */
  lemma {:induction false} DigitsInjective(a: nat, b: nat)
    requires DigitsOf(a) == DigitsOf(b)
    ensures a == b
    decreases a
  {
    assert forall i, j :: 0 <= i < j < 10 ==> HexDigits[i] != HexDigits[j];
    var s := DigitsOf(a);
    if a >= 10 && b >= 10 {
      assert DigitsOf(a / 10) == s[..|s| - 1] == DigitsOf(b / 10);
      DigitsInjective(a / 10, b / 10);
    }
  }

  /** `(string) $n` tells integers apart. */
  lemma IntToStringInjective(a: int, b: int)
    requires IntToString(a) == IntToString(b)
    ensures a == b
  {
    var s := IntToString(a);
    if a < 0 {
      assert s == "-" + DigitsOf(-a) && s[0] == '-';
    } else {
      assert s == DigitsOf(a);
      DigitsFirst(a);
    }
    if b < 0 {
      assert s == "-" + DigitsOf(-b) && s[0] == '-';
    } else {
      assert s == DigitsOf(b);
      DigitsFirst(b);
    }
    if a < 0 && b < 0 {
      assert DigitsOf(-a) == s[1..] == DigitsOf(-b);
      DigitsInjective(-a, -b);
    } else if a >= 0 && b >= 0 {
      DigitsInjective(a, b);
    }
  }

  /** `t` occurs in `s` */
  ghost predicate IsFactor(t: string, s: string) {
    exists i :: FactorAt(t, s, i)
  }

  predicate FactorAt(t: string, s: string, i: int) {
    0 <= i <= |s| - |t| && s[i..i + |t|] == t
  }

  lemma FactorMiddle(a: string, t: string, b: string)
    ensures FactorAt(t, a + t + b, |a|) && IsFactor(t, a + t + b)
  {
    var s := a + t + b;
    assert s[|a|..|a| + |t|] == t;
    assert FactorAt(t, s, |a|);
  }
}
