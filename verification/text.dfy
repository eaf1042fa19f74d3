/** The Python string operations the core relies on: substring test (`t in s`),
    `lower()`, `split(sep)` with its inverse `join`, and `urllib.parse.unquote`
    restricted to escapes of ASCII characters (`%00` to `%7F`). */
module Text {

  /** `p` is a prefix of `s`. */
  predicate StartsWith(s: string, p: string)
  {
    |p| <= |s| && s[..|p|] == p
  }

  /** `t` occurs in `s` starting at index `i`. */
  predicate OccursAt(s: string, t: string, i: nat)
  {
    i <= |s| && StartsWith(s[i..], t)
  }

  /** Python's substring test `t in s`: `t` occurs at some position of `s`. */
  predicate Contains(s: string, t: string): (r: bool)
    ensures r <==> exists i: nat :: OccursAt(s, t, i)
    ensures r ==> |t| <= |s|
    decreases |s|
  {
    if StartsWith(s, t) then
      assert OccursAt(s, t, 0);
      true
    else if |s| == 0 then
      false
    else
      var r := Contains(s[1..], t);
      assert forall i: nat :: OccursAt(s[1..], t, i) <==> OccursAt(s, t, i + 1) by {
        forall i: nat ensures OccursAt(s[1..], t, i) <==> OccursAt(s, t, i + 1) {
          if i < |s| {
            assert s[1..][i..] == s[i + 1..];
          }
        }
      }
      assert !OccursAt(s, t, 0);
      assert forall i: nat :: OccursAt(s, t, i) && i > 0 ==> OccursAt(s[1..], t, i - 1);
      r
  }

  // ---------------------------------------------------------------- lower()

  function LowerChar(c: char): char
  {
    if 'A' <= c <= 'Z' then (c as int + 32) as char else c
  }

  /** `s.lower()` on ASCII letters: no upper-case letter is left, each one becomes
      its lower-case partner, and every other character is kept. */
  function Lower(s: string): (r: string)
    ensures |r| == |s|
    ensures forall i :: 0 <= i < |r| ==> !('A' <= r[i] <= 'Z')
    ensures forall i :: 0 <= i < |s| && 'A' <= s[i] <= 'Z' ==> r[i] as int == s[i] as int + 32
    ensures forall i :: 0 <= i < |s| && !('A' <= s[i] <= 'Z') ==> r[i] == s[i]
  {
    seq(|s|, i requires 0 <= i < |s| => LowerChar(s[i]))
  }

  // ---------------------------------------------------------------- split / join

  /** Number of occurrences of `c` in `s`. */
  function Count(s: string, c: char): nat
  {
    if s == [] then 0 else (if s[0] == c then 1 else 0) + Count(s[1..], c)
  }

  lemma {:induction false} CountAppend(a: string, b: string, c: char)
    ensures Count(a + b, c) == Count(a, c) + Count(b, c)
  {
    if a == [] {
      assert a + b == b;
    } else {
      assert (a + b)[1..] == a[1..] + b;
      CountAppend(a[1..], b, c);
    }
  }

  lemma {:induction false} CountAbsent(s: string, c: char)
    requires c !in s
    ensures Count(s, c) == 0
  {
    if s != [] {
      CountAbsent(s[1..], c);
    }
  }

  /** `sep.join(parts)`. */
  function Join(parts: seq<string>, sep: char): string
  {
    if parts == [] then ""
    else if |parts| == 1 then parts[0]
    else parts[0] + [sep] + Join(parts[1..], sep)
  }

  /** `s.split(sep)` for a one-character separator: the pieces between separators,
      at least one (the empty string splits into `[""]`). */
  function Split(s: string, sep: char): (parts: seq<string>)
    ensures |parts| == Count(s, sep) + 1
    ensures forall i :: 0 <= i < |parts| ==> sep !in parts[i]
    ensures Join(parts, sep) == s
    decreases |s|
  {
    if s == [] then [""]
    else
      var rest := Split(s[1..], sep);
      if s[0] == sep then
        assert ([""] + rest)[1..] == rest;
        [""] + rest
      else
        var parts := [[s[0]] + rest[0]] + rest[1..];
        assert parts[1..] == rest[1..];
        assert |rest| > 1 ==> Join(rest, sep) == rest[0] + [sep] + Join(rest[1..], sep);
        parts
  }

  lemma SplitPlain(a: string, sep: char)
    requires sep !in a
    ensures Split(a, sep) == [a]
  {
  }

  lemma {:induction false} SplitAtSeparator(a: string, r: string, sep: char)
    requires sep !in a
    ensures Split(a + [sep] + r, sep) == [a] + Split(r, sep)
  {
    if a == [] {
      assert (a + [sep] + r)[1..] == r;
    } else {
      assert (a + [sep] + r)[1..] == a[1..] + [sep] + r;
      SplitAtSeparator(a[1..], r, sep);
      assert [a[0]] + a[1..] == a;
    }
  }

  /** `split` undoes `join` when no piece holds the separator. */
  lemma {:induction false} SplitJoin(parts: seq<string>, sep: char)
    requires |parts| >= 1
    requires forall i :: 0 <= i < |parts| ==> sep !in parts[i]
    ensures Split(Join(parts, sep), sep) == parts
  {
    if |parts| == 1 {
      SplitPlain(parts[0], sep);
    } else {
      SplitJoin(parts[1..], sep);
      SplitAtSeparator(parts[0], Join(parts[1..], sep), sep);
      assert [parts[0]] + parts[1..] == parts;
    }
  }

  /** A joined string starts with its first piece followed by the separator. */
  lemma JoinHead(parts: seq<string>, sep: char)
    requires |parts| >= 2
    ensures StartsWith(Join(parts, sep), parts[0] + [sep])
  {
  }

  // ---------------------------------------------------------------- unquote

  predicate IsHexDigit(c: char)
  {
    '0' <= c <= '9' || 'a' <= c <= 'f' || 'A' <= c <= 'F'
  }

  function HexValue(c: char): (v: nat)
    requires IsHexDigit(c)
    ensures v < 16
  {
    if '0' <= c <= '9' then c as int - '0' as int
    else if 'a' <= c <= 'f' then c as int - 'a' as int + 10
    else c as int - 'A' as int + 10
  }

  /** An escape `%XX` of an ASCII character starts `s`. */
  predicate StartsWithEscape(s: string)
  {
    |s| >= 3 && s[0] == '%' && IsHexDigit(s[1]) && HexValue(s[1]) < 8 && IsHexDigit(s[2])
  }

  /** `urllib.parse.unquote(s)` for escapes of ASCII characters: every `%XX` with XX
      below 0x80 becomes the character with code XX; everything else is kept. (Escapes
      of 0x80 and above, which Python decodes as UTF-8 bytes, are left as text here.) */
  function Unquote(s: string): (r: string)
    ensures |r| <= |s|
    ensures |r| < |s| ==> '%' in s
    decreases |s|
  {
    if StartsWithEscape(s) then
      [(16 * HexValue(s[1]) + HexValue(s[2])) as char] + Unquote(s[3..])
    else if s == [] then ""
    else [s[0]] + Unquote(s[1..])
  }

  /** A string without `%` is its own decoding (the usual case for an ARN). */
  lemma {:induction false} UnquotePlain(s: string)
    requires '%' !in s
    ensures Unquote(s) == s
  {
    if s != [] {
      UnquotePlain(s[1..]);
      assert [s[0]] + s[1..] == s;
    }
  }

  predicate IsUnreserved(c: char)
  {
    'A' <= c <= 'Z' || 'a' <= c <= 'z' || '0' <= c <= '9' || c == '-' || c == '.' || c == '_' || c == '~'
  }

  function HexDigit(n: nat): (c: char)
    requires n < 16
    ensures IsHexDigit(c) && HexValue(c) == n
  {
    if n < 10 then ('0' as int + n) as char else ('A' as int + n - 10) as char
  }

  function EncodeChar(c: char): string
  {
    if IsUnreserved(c) || c as int >= 128 then [c]
    else ['%', HexDigit(c as int / 16), HexDigit(c as int % 16)]
  }

  /** Percent-encoding of a path segment's ASCII characters: every reserved ASCII
      character becomes `%XX`; non-ASCII characters are sent as they are (Python's
      `unquote` also keeps a non-`%` character unchanged). */
  function PercentEncode(s: string): string
  {
    if s == [] then "" else EncodeChar(s[0]) + PercentEncode(s[1..])
  }

  lemma UnquoteEncodeChar(c: char, rest: string)
    ensures Unquote(EncodeChar(c) + rest) == [c] + Unquote(rest)
  {
    var e := EncodeChar(c) + rest;
    if IsUnreserved(c) || c as int >= 128 {
      assert e[0] == c && e[1..] == rest;
    } else {
      assert e[3..] == rest;
      assert 16 * (c as int / 16) + c as int % 16 == c as int;
    }
  }

  /** `unquote` recovers every string from its percent-encoding. */
  lemma {:induction false} UnquoteRoundTrip(s: string)
    ensures Unquote(PercentEncode(s)) == s
  {
    if s != [] {
      UnquoteEncodeChar(s[0], PercentEncode(s[1..]));
      UnquoteRoundTrip(s[1..]);
      assert [s[0]] + s[1..] == s;
    }
  }
}
