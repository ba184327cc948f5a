/**
 * The .NET string operations the core relies on, written out so that the
 * rest of the model can reason about them: ordinal `String.Replace`,
 * `String.Split` (with and without `RemoveEmptyEntries`), range truncation,
 * `ToLowerInvariant` (on ASCII letters), `Uri.EscapeDataString` (percent-encoding
 * of the UTF-8 bytes of every character outside the unreserved set of
 * section 2.3 of RFC 3986) and decimal formatting of integers.
 */
module Text {

  // ---------------------------------------------------------------------------
  // Prefixes and occurrences
  // ---------------------------------------------------------------------------

  /** `q` occurs in `s` as a contiguous block (`s.Contains(q)`, ordinal). */
  predicate Contains(s: string, q: string)
    decreases |s|
  {
    q <= s || (s != [] && Contains(s[1..], q))
  }

  /** An occurrence in a suffix is an occurrence in the whole string. */
  lemma {:induction false} ContainsInSuffix(s: string, k: nat, q: string)
    requires k <= |s|
    requires Contains(s[k..], q)
    ensures Contains(s, q)
    decreases k
  {
    if k > 0 {
      assert s[1..][k - 1..] == s[k..];
      ContainsInSuffix(s[1..], k - 1, q);
    }
  }

  /**
   * A string without '[' in front of `y` adds no occurrence of a pattern that
   * starts with '['.
   */
  lemma {:induction false} BracketFreePrefix(x: string, y: string, q: string)
    requires q != [] && q[0] == '['
    requires '[' !in x
    ensures Contains(x + y, q) <==> Contains(y, q)
    decreases |x|
  {
    if x == [] {
      assert x + y == y;
    } else {
      assert (x + y)[1..] == x[1..] + y;
      assert x[0] in x;
      assert (x + y)[0] != q[0];
      BracketFreePrefix(x[1..], y, q);
    }
  }

  // ---------------------------------------------------------------------------
  // String.Replace(oldValue, newValue), ordinal
  // ---------------------------------------------------------------------------

  /**
   * Every non-overlapping occurrence of `pat`, scanning left to right, is
   * replaced by `rep` (.NET refuses an empty `pat`). A string without the
   * pattern comes back unchanged.
   */
  function ReplaceAll(s: string, pat: string, rep: string): (r: string)
    requires pat != []
    ensures !Contains(s, pat) ==> r == s
    decreases |s|
  {
    if s == [] then []
    else if pat <= s then rep + ReplaceAll(s[|pat|..], pat, rep)
    else [s[0]] + ReplaceAll(s[1..], pat, rep)
  }

  /** An occurrence at the front is replaced, and the scan goes on after it. */
  lemma ReplaceAtFront(pat: string, y: string, rep: string)
    requires pat != []
    ensures ReplaceAll(pat + y, pat, rep) == rep + ReplaceAll(y, pat, rep)
  {
    assert pat <= pat + y;
    assert (pat + y)[|pat|..] == y;
  }

  /**
   * Text without '[' in front of `y` is copied as it is by the replacement
   * of a pattern that starts with '['; only `y` is rewritten.
   */
  lemma {:induction false} ReplaceBracketFreePrefix(x: string, y: string, pat: string, rep: string)
    requires pat != [] && pat[0] == '['
    requires '[' !in x
    ensures ReplaceAll(x + y, pat, rep) == x + ReplaceAll(y, pat, rep)
    decreases |x|
  {
    if x == [] {
      assert x + y == y;
    } else {
      assert x[0] in x;
      assert (x + y)[0] == x[0];
      assert (x + y)[1..] == x[1..] + y;
      assert forall c :: c in x[1..] ==> c in x;
      ReplaceBracketFreePrefix(x[1..], y, pat, rep);
      assert x == [x[0]] + x[1..];
    }
  }

  /**
   * A block that opens with its only '[' is copied as it is by the
   * replacement of a pattern that differs from it at position `i`.
   */
  lemma ReplaceOtherBlock(p: string, y: string, pat: string, rep: string, i: nat)
    requires p != [] && p[0] == '[' && '[' !in p[1..]
    requires pat != [] && pat[0] == '['
    requires i < |p| && i < |pat| && p[i] != pat[i]
    ensures ReplaceAll(p + y, pat, rep) == p + ReplaceAll(y, pat, rep)
  {
    var s := p + y;
    assert !(pat <= s) by {
      assert s[i] == p[i];
    }
    assert ReplaceAll(s, pat, rep) == [p[0]] + ReplaceAll(s[1..], pat, rep);
    assert s[1..] == p[1..] + y;
    ReplaceBracketFreePrefix(p[1..], y, pat, rep);
    assert [p[0]] + (p[1..] + ReplaceAll(y, pat, rep)) == p + ReplaceAll(y, pat, rep) by {
      assert p == [p[0]] + p[1..];
    }
  }

  /**
   * A prefix of the output that does not contain the first character of the
   * (non-empty) replacement was copied from the input.
   */
  lemma {:induction false} ReplacedPrefix(t: string, w: string, pat: string, rep: string)
    requires pat != [] && rep != []
    requires rep[0] !in w
    ensures w <= ReplaceAll(t, pat, rep) ==> w <= t
    decreases |t|
  {
    if w != [] && t != [] {
      var out := ReplaceAll(t, pat, rep);
      assert w[0] in w;
      if pat <= t {
        assert out[0] == rep[0];
      } else {
        var rest := ReplaceAll(t[1..], pat, rep);
        assert out == [t[0]] + rest;
        assert forall c :: c in w[1..] ==> c in w;
        ReplacedPrefix(t[1..], w[1..], pat, rep);
        assert w <= out ==> w[1..] <= rest;
      }
    }
  }

  /**
   * Replacing with a non-empty, '['-free string whose first character does not
   * occur in `q` leaves no occurrence of `q` (a pattern starting with '['),
   * provided `q` is the pattern replaced or did not occur before.
   */
  lemma {:induction false} NoOccurrenceAfterReplace(s: string, pat: string, rep: string, q: string)
    requires pat != [] && q != [] && q[0] == '['
    requires rep != [] && '[' !in rep && rep[0] !in q
    requires q == pat || !Contains(s, q)
    ensures !Contains(ReplaceAll(s, pat, rep), q)
    decreases |s|
  {
    if s == [] {
      assert !(q <= []);
    } else if pat <= s {
      var rest := ReplaceAll(s[|pat|..], pat, rep);
      if q != pat && Contains(s[|pat|..], q) {
        ContainsInSuffix(s, |pat|, q);
      }
      NoOccurrenceAfterReplace(s[|pat|..], pat, rep, q);
      BracketFreePrefix(rep, rest, q);
    } else {
      var rest := ReplaceAll(s[1..], pat, rep);
      var out := [s[0]] + rest;
      assert ReplaceAll(s, pat, rep) == out;
      NoOccurrenceAfterReplace(s[1..], pat, rep, q);
      assert forall c :: c in q[1..] ==> c in q;
      ReplacedPrefix(s[1..], q[1..], pat, rep);
      assert !(q <= s);
      assert !(q <= out);
      assert out[1..] == rest;
    }
  }

  // ---------------------------------------------------------------------------
  // String.Split(' ') and StringSplitOptions.RemoveEmptyEntries
  // ---------------------------------------------------------------------------

  /** The pieces between the separators, empty pieces included. */
  function Split(s: string, sep: char): (parts: seq<string>)
    ensures |parts| >= 1
    ensures forall i :: 0 <= i < |parts| ==> sep !in parts[i]
    decreases |s|
  {
    if s == [] then [[]]
    else
      var rest := Split(s[1..], sep);
      if s[0] == sep then [[]] + rest
      else [[s[0]] + rest[0]] + rest[1..]
  }

  /** `String.Join(sep, parts)`. */
  function Join(parts: seq<string>, sep: char): string
    requires |parts| >= 1
    decreases |parts|
  {
    if |parts| == 1 then parts[0] else parts[0] + [sep] + Join(parts[1..], sep)
  }

  /** Joining the pieces again gives back the input. */
  lemma {:induction false} JoinSplit(s: string, sep: char)
    ensures Join(Split(s, sep), sep) == s
    decreases |s|
  {
    if s != [] {
      var rest := Split(s[1..], sep);
      JoinSplit(s[1..], sep);
      if s[0] == sep {
        assert ([[]] + rest)[1..] == rest;
      } else {
        var parts := [[s[0]] + rest[0]] + rest[1..];
        if |rest| > 1 {
          assert parts[1..] == rest[1..];
        }
      }
    }
  }

  /** The pieces that are not empty, in order. */
  function NonEmpty(parts: seq<string>): (r: seq<string>)
    ensures forall i :: 0 <= i < |r| ==> r[i] != [] && r[i] in parts
    decreases |parts|
  {
    if parts == [] then []
    else if parts[0] == [] then NonEmpty(parts[1..])
    else [parts[0]] + NonEmpty(parts[1..])
  }

  /** `NonEmpty` works piece by piece: a list of pieces filters as its two halves do. */
  lemma {:induction false} NonEmptyAppend(a: seq<string>, b: seq<string>)
    ensures NonEmpty(a + b) == NonEmpty(a) + NonEmpty(b)
    decreases |a|
  {
    if a == [] {
      assert a + b == b;
    } else {
      assert (a + b)[1..] == a[1..] + b;
      NonEmptyAppend(a[1..], b);
    }
  }

  /** A single piece is dropped when empty and kept otherwise. */
  lemma NonEmptySingleton(p: string)
    ensures NonEmpty([p]) == if p == [] then [] else [p]
  {
    assert [p][1..] == [];
  }

  /** When no piece is empty, nothing is dropped. */
  lemma {:induction false} NonEmptyAllKept(parts: seq<string>)
    requires forall i :: 0 <= i < |parts| ==> parts[i] != []
    ensures NonEmpty(parts) == parts
    decreases |parts|
  {
    if parts != [] {
      NonEmptyAllKept(parts[1..]);
    }
  }

  /** A non-empty piece is kept. */
  lemma {:induction false} NonEmptyKeeps(parts: seq<string>, p: string)
    requires p in parts && p != []
    ensures p in NonEmpty(parts)
    decreases |parts|
  {
    if parts[0] != p {
      NonEmptyKeeps(parts[1..], p);
    }
  }

  /** Splitting at a separator placed between two texts splits each of them. */
  lemma {:induction false} SplitAppend(a: string, b: string, sep: char)
    ensures Split(a + [sep] + b, sep) == Split(a, sep) + Split(b, sep)
    decreases |a|
  {
    var s := a + [sep] + b;
    if a == [] {
      assert s[1..] == b;
    } else {
      assert s[1..] == a[1..] + [sep] + b;
      SplitAppend(a[1..], b, sep);
    }
  }

  /** `s.Split(' ', StringSplitOptions.RemoveEmptyEntries)`. */
  function Words(s: string): (w: seq<string>)
    ensures forall i :: 0 <= i < |w| ==> w[i] != [] && ' ' !in w[i]
  {
    NonEmpty(Split(s, ' '))
  }

  /** The words of two texts joined by a space are the words of the first, then those of the second. */
  lemma WordsAppend(a: string, b: string)
    ensures Words(a + " " + b) == Words(a) + Words(b)
  {
    SplitAppend(a, b, ' ');
    NonEmptyAppend(Split(a, ' '), Split(b, ' '));
  }

  /** Without leading, trailing or doubled spaces, joining the words gives back the text. */
  lemma WordsJoin(s: string)
    requires forall i :: 0 <= i < |Split(s, ' ')| ==> Split(s, ' ')[i] != []
    ensures |Words(s)| >= 1 && Join(Words(s), ' ') == s
  {
    NonEmptyAllKept(Split(s, ' '));
    JoinSplit(s, ' ');
  }

  // ---------------------------------------------------------------------------
  // Enumerable.Take(count)
  // ---------------------------------------------------------------------------

  /** The first `count` elements: none when `count` is not positive, all when it exceeds the length. */
  function Take<T>(xs: seq<T>, count: int): (r: seq<T>)
    ensures |r| == if count <= 0 then 0 else if count >= |xs| then |xs| else count
    ensures r <= xs
    ensures count >= |xs| ==> r == xs
  {
    if count <= 0 then [] else if count >= |xs| then xs else xs[..count]
  }

  // ---------------------------------------------------------------------------
  // Truncation: `value.Length > max ? value[..max] : value`
  // ---------------------------------------------------------------------------

  function Truncate(value: string, maxLength: nat): (r: string)
    ensures |r| <= maxLength
    ensures r <= value
    ensures r == value <==> |value| <= maxLength
    ensures |value| > maxLength ==> |r| == maxLength
  {
    if |value| > maxLength then value[..maxLength] else value
  }

  /** Truncating twice to the same bound changes nothing the second time. */
  lemma TruncateIdempotent(value: string, maxLength: nat)
    ensures Truncate(Truncate(value, maxLength), maxLength) == Truncate(value, maxLength)
  {
  }

  /**
   * The length .NET reports for a string: UTF-16 code units, two for a
   * character outside the Basic Multilingual Plane. It is the number of
   * characters exactly when every character is inside that plane.
   */
  function Utf16Length(s: string): (n: nat)
    ensures n >= |s|
    ensures n == |s| <==> forall i :: 0 <= i < |s| ==> s[i] as int < 0x1_0000
    decreases |s|
  {
    if s == [] then 0
    else
      var rest := Utf16Length(s[1..]);
      assert forall i :: 1 <= i < |s| ==> s[i] == s[1..][i - 1];
      (if s[0] as int < 0x1_0000 then 1 else 2) + rest
  }

  /**
   * On text inside the Basic Multilingual Plane, `Truncate` cuts where .NET
   * cuts: the result is at most `maxLength` code units long and the text is
   * kept whole exactly when its .NET length fits.
   */
  lemma TruncateMatchesUtf16(value: string, maxLength: nat)
    requires forall i :: 0 <= i < |value| ==> value[i] as int < 0x1_0000
    ensures Utf16Length(Truncate(value, maxLength)) <= maxLength
    ensures Truncate(value, maxLength) == value <==> Utf16Length(value) <= maxLength
  {
    var r := Truncate(value, maxLength);
    assert forall i :: 0 <= i < |r| ==> r[i] == value[i];
  }

  // ---------------------------------------------------------------------------
  // ToLowerInvariant, on ASCII letters
  // ---------------------------------------------------------------------------

  function LowerChar(c: char): char {
    if 'A' <= c <= 'Z' then (c as int + 32) as char else c
  }

  function ToLower(s: string): (r: string)
    ensures |r| == |s|
    ensures forall i :: 0 <= i < |s| ==> r[i] == LowerChar(s[i])
  {
    seq(|s|, i requires 0 <= i < |s| => LowerChar(s[i]))
  }

  /** Lower-casing is idempotent. */
  lemma ToLowerIdempotent(s: string)
    ensures ToLower(ToLower(s)) == ToLower(s)
  {
  }

  // ---------------------------------------------------------------------------
  // Uri.EscapeDataString
  // ---------------------------------------------------------------------------

  /** The unreserved characters of section 2.3 of RFC 3986. */
  predicate IsUnreserved(c: char) {
    ('A' <= c <= 'Z') || ('a' <= c <= 'z') || ('0' <= c <= '9') ||
    c == '-' || c == '.' || c == '_' || c == '~'
  }

  predicate IsUpperHex(c: char) {
    ('0' <= c <= '9') || ('A' <= c <= 'F')
  }

  /** What percent-encoding may produce: unreserved characters, '%' and hex digits. */
  predicate IsEscapedChar(c: char) {
    IsUnreserved(c) || c == '%' || IsUpperHex(c)
  }

  /** The UTF-8 encoding of one Unicode scalar value. */
  function Utf8(c: char): (bytes: seq<nat>)
    ensures 1 <= |bytes| <= 4
    ensures forall i :: 0 <= i < |bytes| ==> bytes[i] < 256
  {
    var n := c as int;
    if n < 0x80 then [n]
    else if n < 0x800 then [0xC0 + n / 64, 0x80 + n % 64]
    else if n < 0x1_0000 then [0xE0 + n / 4096, 0x80 + (n / 64) % 64, 0x80 + n % 64]
    else [0xF0 + n / 262144, 0x80 + (n / 4096) % 64, 0x80 + (n / 64) % 64, 0x80 + n % 64]
  }

  function HexDigit(d: nat): (c: char)
    requires d < 16
    ensures IsUpperHex(c)
  {
    if d < 10 then ('0' as int + d) as char else ('A' as int + d - 10) as char
  }

  /** "%XX" with upper-case hexadecimal digits. */
  function PercentEncode(bytes: seq<nat>): (r: string)
    requires forall i :: 0 <= i < |bytes| ==> bytes[i] < 256
    ensures |r| == 3 * |bytes|
    ensures forall i :: 0 <= i < |r| ==> IsEscapedChar(r[i])
    decreases |bytes|
  {
    if bytes == [] then []
    else ['%', HexDigit(bytes[0] / 16), HexDigit(bytes[0] % 16)] + PercentEncode(bytes[1..])
  }

  function EscapeChar(c: char): (r: string)
    ensures forall i :: 0 <= i < |r| ==> IsEscapedChar(r[i])
  {
    if IsUnreserved(c) then [c] else PercentEncode(Utf8(c))
  }

  /** `Uri.EscapeDataString(s)`. */
  function EscapeDataString(s: string): (r: string)
    ensures forall i :: 0 <= i < |r| ==> IsEscapedChar(r[i])
    decreases |s|
  {
    if s == [] then [] else EscapeChar(s[0]) + EscapeDataString(s[1..])
  }

  /** Escaped text contains none of the characters the core treats as markup. */
  lemma EscapedHasNoMarkup(s: string)
    ensures '[' !in EscapeDataString(s)
    ensures '&' !in EscapeDataString(s)
  {
    var r := EscapeDataString(s);
    forall i | 0 <= i < |r| ensures r[i] != '[' && r[i] != '&' {
      assert IsEscapedChar(r[i]);
    }
  }

  /** Text made of unreserved characters only is not changed by escaping. */
  lemma {:induction false} EscapeUnreserved(s: string)
    requires forall i :: 0 <= i < |s| ==> IsUnreserved(s[i])
    ensures EscapeDataString(s) == s
    decreases |s|
  {
    if s != [] {
      EscapeUnreserved(s[1..]);
    }
  }

  /** Escaping works character by character: a concatenation escapes as its two parts. */
  lemma {:induction false} EscapeAppend(a: string, b: string)
    ensures EscapeDataString(a + b) == EscapeDataString(a) + EscapeDataString(b)
    decreases |a|
  {
    if a == [] {
      assert a + b == b;
    } else {
      assert (a + b)[1..] == a[1..] + b;
      EscapeAppend(a[1..], b);
    }
  }

  /**
   * Text of unreserved characters and spaces escapes to itself with every
   * space written "%20", as the words of a search term do.
   */
  lemma {:induction false} EscapeWords(s: string)
    requires forall i :: 0 <= i < |s| ==> IsUnreserved(s[i]) || s[i] == ' '
    ensures EscapeDataString(s) == ReplaceAll(s, " ", "%20")
    decreases |s|
  {
    if s != [] {
      EscapeWords(s[1..]);
      if s[0] == ' ' {
        assert EscapeChar(' ') == "%20";
        assert " " <= s;
      } else {
        assert !(" " <= s);
      }
    }
  }

  // The reading back of an escaped text: the escaping loses nothing.

  /** The value of an upper-case hexadecimal digit (0 for any other character). */
  function HexValue(c: char): (d: nat)
    ensures d < 16
  {
    if '0' <= c <= '9' then c as int - '0' as int
    else if 'A' <= c <= 'F' then c as int - 'A' as int + 10
    else 0
  }

  /** The byte written by two hexadecimal digits. */
  function HexByte(hi: char, lo: char): (b: nat)
    ensures b < 256
  {
    HexValue(hi) * 16 + HexValue(lo)
  }

  /** The number of bytes of a UTF-8 sequence, read from its first byte. */
  function Utf8Length(lead: nat): (n: nat)
    ensures 1 <= n <= 4
  {
    if lead < 0x80 then 1 else if lead < 0xE0 then 2 else if lead < 0xF0 then 3 else 4
  }

  /** The code point of a UTF-8 sequence of one to four bytes. */
  function Utf8Value(bytes: seq<nat>): int
    requires 1 <= |bytes| <= 4
  {
    if |bytes| == 1 then bytes[0]
    else if |bytes| == 2 then (bytes[0] as int - 0xC0) * 64 + (bytes[1] as int - 0x80)
    else if |bytes| == 3 then (bytes[0] as int - 0xE0) * 4096 + (bytes[1] as int - 0x80) * 64 + (bytes[2] as int - 0x80)
    else (bytes[0] as int - 0xF0) * 262144 + (bytes[1] as int - 0x80) * 4096 + (bytes[2] as int - 0x80) * 64 + (bytes[3] as int - 0x80)
  }

  /** The character of a code point; '?' for a value that is not a Unicode scalar value. */
  function CodePointChar(n: int): char {
    if 0 <= n < 0xD800 || 0xE000 <= n < 0x11_0000 then n as char else '?'
  }

  /** The bytes of the first `k` "%XX" triples of `s`. */
  function ReadBytes(s: string, k: nat): (bytes: seq<nat>)
    requires |s| >= 3 * k
    ensures |bytes| == k
    decreases k
  {
    if k == 0 then [] else [HexByte(s[1], s[2])] + ReadBytes(s[3..], k - 1)
  }

  /**
   * Percent-decoding followed by UTF-8 decoding: a character other than
   * '%' stands for itself, and "%XX" triples stand for the character their
   * bytes encode.
   */
  function Unescape(s: string): string
    decreases |s|
  {
    if s == [] then []
    else if s[0] != '%' || |s| < 3 then [s[0]] + Unescape(s[1..])
    else
      var len := Utf8Length(HexByte(s[1], s[2]));
      if |s| < 3 * len then [s[0]] + Unescape(s[1..])
      else [CodePointChar(Utf8Value(ReadBytes(s, len)))] + Unescape(s[3 * len..])
  }

  lemma HexRoundTrip(b: nat)
    requires b < 256
    ensures HexByte(HexDigit(b / 16), HexDigit(b % 16)) == b
  {
  }

  /** The triples written by `PercentEncode` read back as the bytes. */
  lemma {:induction false} ReadPercentEncoded(bytes: seq<nat>, rest: string)
    requires forall i :: 0 <= i < |bytes| ==> bytes[i] < 256
    ensures |PercentEncode(bytes) + rest| >= 3 * |bytes|
    ensures ReadBytes(PercentEncode(bytes) + rest, |bytes|) == bytes
    ensures (PercentEncode(bytes) + rest)[3 * |bytes|..] == rest
    decreases |bytes|
  {
    if bytes != [] {
      var s := PercentEncode(bytes) + rest;
      var head := ['%', HexDigit(bytes[0] / 16), HexDigit(bytes[0] % 16)];
      assert PercentEncode(bytes) == head + PercentEncode(bytes[1..]);
      assert s[3..] == PercentEncode(bytes[1..]) + rest;
      HexRoundTrip(bytes[0]);
      ReadPercentEncoded(bytes[1..], rest);
      assert bytes == [bytes[0]] + bytes[1..];
    }
  }

  /** The first byte of a character's UTF-8 encoding gives the encoding's length. */
  lemma Utf8LeadLength(c: char)
    ensures Utf8Length(Utf8(c)[0]) == |Utf8(c)|
  {
    var n := c as int;
    if 0x800 <= n < 0x1_0000 {
      assert n / 4096 < 16;
    } else if 0x1_0000 <= n {
      assert n / 262144 <= 4;
    }
  }

  /** Decoding a character's UTF-8 encoding gives back its code point. */
  lemma Utf8Decodes(c: char)
    ensures Utf8Value(Utf8(c)) == c as int
  {
    var n := c as int;
    var q := n / 64;
    assert n == q * 64 + n % 64;
    if 0x800 <= n < 0x1_0000 {
      assert q == (n / 4096) * 64 + q % 64;
    } else if 0x1_0000 <= n {
      var q2 := q / 64;
      assert q2 == n / 4096;
      assert q == q2 * 64 + q % 64;
      assert q2 == (n / 262144) * 64 + q2 % 64;
    }
  }

  /** An escaped character reads back as itself, and the reading goes on after it. */
  lemma UnescapeChar(c: char, rest: string)
    ensures Unescape(EscapeChar(c) + rest) == [c] + Unescape(rest)
  {
    var s := EscapeChar(c) + rest;
    if IsUnreserved(c) {
      assert s[0] == c && s[1..] == rest;
    } else {
      var bytes := Utf8(c);
      ReadPercentEncoded(bytes, rest);
      HexRoundTrip(bytes[0]);
      assert s[0] == '%' && s[1] == HexDigit(bytes[0] / 16) && s[2] == HexDigit(bytes[0] % 16);
      Utf8LeadLength(c);
      Utf8Decodes(c);
    }
  }

  /** Escaping loses nothing: reading the escaped text back gives the text. */
  lemma {:induction false} UnescapeEscape(s: string)
    ensures Unescape(EscapeDataString(s)) == s
    decreases |s|
  {
    if s != [] {
      UnescapeChar(s[0], EscapeDataString(s[1..]));
      UnescapeEscape(s[1..]);
    }
  }

  /** Distinct texts escape to distinct texts. */
  lemma EscapeInjective(a: string, b: string)
    ensures EscapeDataString(a) == EscapeDataString(b) <==> a == b
  {
    if EscapeDataString(a) == EscapeDataString(b) {
      UnescapeEscape(a);
      UnescapeEscape(b);
    }
  }

  /** The part of `s` before the first `c`; all of `s` when it holds no `c`. */
  function Before(s: string, c: char): (r: string)
    ensures c !in r && r <= s
    decreases |s|
  {
    if s == [] || s[0] == c then [] else [s[0]] + Before(s[1..], c)
  }

  /** The rest of `s` from its first `c` on; empty when it holds no `c`. */
  function From(s: string, c: char): (r: string)
    ensures r == [] || r[0] == c
    decreases |s|
  {
    if s == [] || s[0] == c then s else From(s[1..], c)
  }

  /** Text without `c`, followed by text that is empty or starts with `c`, is cut where the two meet. */
  lemma {:induction false} CutAtFirst(t: string, u: string, c: char)
    requires c !in t
    requires u == [] || u[0] == c
    ensures Before(t + u, c) == t && From(t + u, c) == u
    decreases |t|
  {
    if t == [] {
      assert t + u == u;
    } else {
      assert (t + u)[0] == t[0];
      assert (t + u)[1..] == t[1..] + u;
      assert t[0] in t;
      assert forall x :: x in t[1..] ==> x in t;
      CutAtFirst(t[1..], u, c);
    }
  }

  // ---------------------------------------------------------------------------
  // Decimal formatting
  // ---------------------------------------------------------------------------

  function DigitChar(d: nat): char
    requires d < 10
  {
    ('0' as int + d) as char
  }

  predicate IsDigit(c: char) {
    '0' <= c <= '9'
  }

  predicate AllDigits(s: string) {
    forall i :: 0 <= i < |s| ==> IsDigit(s[i])
  }

  function DigitValue(c: char): (d: nat)
    requires IsDigit(c)
    ensures d < 10 && DigitChar(d) == c
  {
    c as int - '0' as int
  }

  function Pow10(w: nat): (p: nat)
    ensures p >= 1
  {
    if w == 0 then 1 else 10 * Pow10(w - 1)
  }

  /** The value of a string of decimal digits. */
  function ParseDecimal(s: string): nat
    requires AllDigits(s)
    decreases |s|
  {
    if s == [] then 0
    else
      assert IsDigit(s[|s| - 1]);
      10 * ParseDecimal(s[..|s| - 1]) + DigitValue(s[|s| - 1])
  }

  /** The last `width` decimal digits of `n`, zero-padded (`n:D4`, `yyyy`, `MM`). */
  function PaddedDecimal(n: nat, width: nat): (r: string)
    ensures |r| == width
    ensures AllDigits(r)
    decreases width
  {
    if width == 0 then [] else PaddedDecimal(n / 10, width - 1) + [DigitChar(n % 10)]
  }

  /** Formatting a number that fits the width and parsing it back gives the number. */
  lemma {:induction false} PaddedDecimalRoundTrip(n: nat, width: nat)
    requires n < Pow10(width)
    ensures ParseDecimal(PaddedDecimal(n, width)) == n
    decreases width
  {
    if width > 0 {
      var r := PaddedDecimal(n, width);
      assert r[..|r| - 1] == PaddedDecimal(n / 10, width - 1);
      PaddedDecimalRoundTrip(n / 10, width - 1);
    }
  }

  /** Zero-padded formatting is injective on the numbers that fit the width. */
  lemma PaddedDecimalInjective(a: nat, b: nat, width: nat)
    requires a < Pow10(width) && b < Pow10(width)
    requires PaddedDecimal(a, width) == PaddedDecimal(b, width)
    ensures a == b
  {
    PaddedDecimalRoundTrip(a, width);
    PaddedDecimalRoundTrip(b, width);
  }

  /** `n.ToString()` for a natural number: the shortest decimal form. */
  function Decimal(n: nat): (r: string)
    ensures |r| >= 1
    ensures AllDigits(r)
    decreases n
  {
    if n < 10 then [DigitChar(n)] else Decimal(n / 10) + [DigitChar(n % 10)]
  }

  /** The decimal form parses back to the number. */
  lemma {:induction false} DecimalRoundTrip(n: nat)
    ensures ParseDecimal(Decimal(n)) == n
    decreases n
  {
    var r := Decimal(n);
    if n < 10 {
      assert r[..0] == [];
    } else {
      assert r[..|r| - 1] == Decimal(n / 10);
      DecimalRoundTrip(n / 10);
    }
  }

  /** `i.ToString()` for an integer (invariant culture). */
  function IntToString(i: int): (r: string)
    ensures i >= 0 ==> AllDigits(r) && ParseDecimal(r) == i
    ensures i < 0 <==> (r != [] && r[0] == '-')
  {
    DecimalRoundTrip(if i < 0 then -i else i);
    if i < 0 then "-" + Decimal(-i) else Decimal(i)
  }
}
