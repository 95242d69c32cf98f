/**
 * `btoa` and `atob`: the base64 alphabet of section 4 of RFC 4648, with the
 * forgiving decoder browsers use for `atob` (ASCII whitespace is dropped,
 * padding is optional, leftover bits are ignored). Strings are sequences of
 * code units; `btoa` accepts only code units below 256.
 */
module Base64 {
  import opened Wrappers

  predicate IsBase64Char(c: char) {
    ('A' <= c <= 'Z') || ('a' <= c <= 'z') || ('0' <= c <= '9') || c == '+' || c == '/'
  }

  /** The ASCII whitespace `atob` removes: tab, line feed, form feed, carriage return, space. */
  predicate IsAsciiWhitespace(c: char) {
    c == '\t' || c == '\n' || c == '\U{000C}' || c == '\r' || c == ' '
  }

  /** Every code unit fits in a byte, as `btoa` demands. */
  predicate IsLatin1(s: string) {
    forall i :: 0 <= i < |s| ==> (s[i] as int) < 256
  }

  function SextetOf(c: char): (n: nat)
    requires IsBase64Char(c)
    ensures n < 64
  {
    if 'A' <= c <= 'Z' then (c as int) - ('A' as int)
    else if 'a' <= c <= 'z' then (c as int) - ('a' as int) + 26
    else if '0' <= c <= '9' then (c as int) - ('0' as int) + 52
    else if c == '+' then 62
    else 63
  }

  /** The alphabet letter for a six-bit value; it decodes back to that value. */
  function LetterOf(n: nat): (c: char)
    requires n < 64
    ensures IsBase64Char(c) && SextetOf(c) == n
  {
    if n < 26 then (('A' as int) + n) as char
    else if n < 52 then (('a' as int) + n - 26) as char
    else if n < 62 then (('0' as int) + n - 52) as char
    else if n == 62 then '+'
    else '/'
  }

  function Byte(c: char): (b: nat)
    requires (c as int) < 256
    ensures b < 256
  {
    c as int
  }

  /** Three bytes as four letters. */
  function EncodeGroup(a: nat, b: nat, c: nat): (g: string)
    requires a < 256 && b < 256 && c < 256
    ensures |g| == 4 && forall i :: 0 <= i < 4 ==> IsBase64Char(g[i])
  {
    [LetterOf(a / 4), LetterOf((a % 4) * 16 + b / 16), LetterOf((b % 16) * 4 + c / 64), LetterOf(c % 64)]
  }

  /** How many letters `n` bytes encode to before padding: four per full
      group, and two or three for a final one or two bytes. */
  function LetterCount(n: nat): (c: nat)
    ensures c % 4 == (if n % 3 == 0 then 0 else n % 3 + 1)
  {
    if n == 0 then 0 else if n < 3 then n + 1 else 4 + LetterCount(n - 3)
  }

  /** The letters of the encoding, without the trailing `=` padding: a final
      one or two bytes are padded with zero bits to two or three letters. */
  function EncodeLetters(s: string): (r: string)
    requires IsLatin1(s)
    ensures forall i :: 0 <= i < |r| ==> IsBase64Char(r[i])
    ensures |r| == LetterCount(|s|)
  {
    if |s| >= 3 then
      var g, rest := EncodeGroup(Byte(s[0]), Byte(s[1]), Byte(s[2])), EncodeLetters(s[3..]);
      assert forall i :: 0 <= i < |g + rest| ==> IsBase64Char((g + rest)[i]) by {
        forall i | 0 <= i < |g + rest| ensures IsBase64Char((g + rest)[i]) {
          if i >= 4 { assert (g + rest)[i] == rest[i - 4]; }
        }
      }
      g + rest
    else if |s| == 2 then EncodeGroup(Byte(s[0]), Byte(s[1]), 0)[..3]
    else if |s| == 1 then EncodeGroup(Byte(s[0]), 0, 0)[..2]
    else ""
  }

  /** The `=` signs that complete the last group of four. */
  function Padding(n: nat): (p: string)
    ensures |p| == (if n % 3 == 0 then 0 else 3 - n % 3)
    ensures forall k :: 0 <= k < |p| ==> p[k] == '='
  {
    if n % 3 == 1 then "==" else if n % 3 == 2 then "=" else ""
  }

  /** The padded encoding; its length is always a multiple of four. */
  function Encode(s: string): (r: string)
    requires IsLatin1(s)
    ensures |r| % 4 == 0
  {
    var letters, padding := EncodeLetters(s), Padding(|s|);
    assert |letters| == 4 * (|letters| / 4) + |letters| % 4;
    assert |letters| + |padding| == 4 * (|letters| / 4) + (if |s| % 3 == 0 then 0 else 4);
    letters + padding
  }

  /** `btoa`: fails (throws `InvalidCharacterError`) on a code unit above 255. */
  function Btoa(s: string): (r: Option<string>)
    ensures r.Some? <==> IsLatin1(s)
    ensures r.Some? ==> r.value == Encode(s)
  {
    if IsLatin1(s) then Some(Encode(s)) else None
  }

  /** The input with its ASCII whitespace dropped: every other character is
      kept, and by `RemoveWhitespaceOfAppend` and `RemoveWhitespaceOfChar`
      in its original order. */
  function RemoveWhitespace(s: string): (r: string)
    ensures |r| <= |s|
    ensures forall i :: 0 <= i < |r| ==> !IsAsciiWhitespace(r[i])
    ensures forall c :: c in r <==> c in s && !IsAsciiWhitespace(c)
  {
    if s == [] then []
    else if IsAsciiWhitespace(s[0]) then RemoveWhitespace(s[1..])
    else [s[0]] + RemoveWhitespace(s[1..])
  }

  /** A length that is a multiple of four loses one or two trailing `=`. */
  function StripPadding(d: string): (r: string)
    ensures |r| <= |d| <= |r| + 2 && r == d[..|r|]
    ensures forall k :: |r| <= k < |d| ==> d[k] == '='
    ensures |d| % 4 != 0 ==> r == d
  {
    if |d| % 4 == 0 && |d| >= 2 && d[|d| - 2..] == "==" then d[..|d| - 2]
    else if |d| % 4 == 0 && |d| >= 1 && d[|d| - 1] == '=' then d[..|d| - 1]
    else d
  }

  /** Four six-bit values as three bytes. */
  function DecodeQuad(w: nat, x: nat, y: nat, z: nat): (r: string)
    requires w < 64 && x < 64 && y < 64 && z < 64
    ensures |r| == 3 && IsLatin1(r)
  {
    [(w * 4 + x / 16) as char, ((x % 16) * 16 + y / 4) as char, ((y % 4) * 64 + z) as char]
  }

  /** Decodes letters whose count is not 1 more than a multiple of 4; a final
      pair or triple yields one or two bytes and its spare bits are ignored. */
  function DecodeLetters(d: string): (r: string)
    requires forall i :: 0 <= i < |d| ==> IsBase64Char(d[i])
    requires |d| % 4 != 1
    ensures IsLatin1(r)
  {
    if |d| >= 4 then DecodeQuad(SextetOf(d[0]), SextetOf(d[1]), SextetOf(d[2]), SextetOf(d[3])) + DecodeLetters(d[4..])
    else if |d| == 3 then DecodeQuad(SextetOf(d[0]), SextetOf(d[1]), SextetOf(d[2]), 0)[..2]
    else if |d| == 2 then DecodeQuad(SextetOf(d[0]), SextetOf(d[1]), 0, 0)[..1]
    else ""
  }

  /** `atob`: the forgiving base64 decode; `None` is the `InvalidCharacterError` it throws. */
  function Atob(s: string): (r: Option<string>)
    ensures r.Some? ==> IsLatin1(r.value)
  {
    var d := StripPadding(RemoveWhitespace(s));
    if |d| % 4 == 1 then None
    else if exists i :: 0 <= i < |d| && !IsBase64Char(d[i]) then None
    else Some(DecodeLetters(d))
  }

  /** The letters of three bytes decode to those bytes. */
  lemma GroupRoundTrip(a: nat, b: nat, c: nat)
    requires a < 256 && b < 256 && c < 256
    ensures var g := EncodeGroup(a, b, c);
            DecodeQuad(SextetOf(g[0]), SextetOf(g[1]), SextetOf(g[2]), SextetOf(g[3])) == [a as char, b as char, c as char]
  {
    var x := (a % 4) * 16 + b / 16;
    var y := (b % 16) * 4 + c / 64;
    assert x / 16 == a % 4 && x % 16 == b / 16;
    assert y / 4 == b % 16 && y % 4 == c / 64;
  }

  /** A final pair of bytes: three letters decode to those two bytes. */
  lemma PairRoundTrip(a: nat, b: nat)
    requires a < 256 && b < 256
    ensures DecodeLetters(EncodeGroup(a, b, 0)[..3]) == [a as char, b as char]
  {
    var g := EncodeGroup(a, b, 0);
    GroupRoundTrip(a, b, 0);
    assert SextetOf(g[3]) == 0;
  }

  /** A final single byte: two letters decode to that byte. */
  lemma SingleRoundTrip(a: nat)
    requires a < 256
    ensures DecodeLetters(EncodeGroup(a, 0, 0)[..2]) == [a as char]
  {
    var g := EncodeGroup(a, 0, 0);
    GroupRoundTrip(a, 0, 0);
    assert SextetOf(g[2]) == 0 && SextetOf(g[3]) == 0;
  }

  /** A full group followed by more letters decodes group by group. */
  lemma DecodeGroupThenRest(g: string, rest: string)
    requires |g| == 4 && forall i :: 0 <= i < 4 ==> IsBase64Char(g[i])
    requires forall i :: 0 <= i < |rest| ==> IsBase64Char(rest[i])
    requires |rest| % 4 != 1
    ensures DecodeLetters(g + rest) ==
            DecodeQuad(SextetOf(g[0]), SextetOf(g[1]), SextetOf(g[2]), SextetOf(g[3])) + DecodeLetters(rest)
  {
    var e := g + rest;
    assert e[..4] == g && e[4..] == rest;
    assert e[0] == g[0] && e[1] == g[1] && e[2] == g[2] && e[3] == g[3];
  }

  /** A full group in front of letters that decode to `tail` decodes to its
      three bytes in front of `tail`. */
  lemma GroupThenRestRoundTrip(a: nat, b: nat, c: nat, rest: string, tail: string)
    requires a < 256 && b < 256 && c < 256
    requires forall i :: 0 <= i < |rest| ==> IsBase64Char(rest[i])
    requires |rest| % 4 != 1 && DecodeLetters(rest) == tail
    requires forall i :: 0 <= i < |EncodeGroup(a, b, c) + rest| ==> IsBase64Char((EncodeGroup(a, b, c) + rest)[i])
    ensures DecodeLetters(EncodeGroup(a, b, c) + rest) == [a as char, b as char, c as char] + tail
  {
    DecodeGroupThenRest(EncodeGroup(a, b, c), rest);
    GroupRoundTrip(a, b, c);
  }

  lemma FirstThreeThenRest(s: string)
    requires IsLatin1(s) && |s| >= 3
    ensures [Byte(s[0]) as char, Byte(s[1]) as char, Byte(s[2]) as char] + s[3..] == s
  {
    assert s == s[..3] + s[3..];
  }

  /** Decoding the letters of an encoding gives back the input. */
  lemma {:induction false} LettersRoundTrip(s: string)
    requires IsLatin1(s)
    ensures DecodeLetters(EncodeLetters(s)) == s
  {
    if |s| >= 3 {
      var a, b, c := Byte(s[0]), Byte(s[1]), Byte(s[2]);
      var g, rest := EncodeGroup(a, b, c), EncodeLetters(s[3..]);
      assert EncodeLetters(s) == g + rest;
      LettersRoundTrip(s[3..]);
      GroupThenRestRoundTrip(a, b, c, rest, s[3..]);
      FirstThreeThenRest(s);
    } else if |s| == 2 {
      PairRoundTrip(Byte(s[0]), Byte(s[1]));
    } else if |s| == 1 {
      SingleRoundTrip(Byte(s[0]));
    }
  }

  /** Removing whitespace works piece by piece. */
  lemma {:induction false} RemoveWhitespaceOfAppend(a: string, b: string)
    ensures RemoveWhitespace(a + b) == RemoveWhitespace(a) + RemoveWhitespace(b)
  {
    if a == [] {
      assert a + b == b;
    } else {
      assert (a + b)[0] == a[0];
      assert (a + b)[1..] == a[1..] + b;
      RemoveWhitespaceOfAppend(a[1..], b);
    }
  }

  /** A single character is dropped exactly when it is whitespace. */
  lemma RemoveWhitespaceOfChar(c: char)
    ensures RemoveWhitespace([c]) == if IsAsciiWhitespace(c) then [] else [c]
  {
    assert [c][1..] == [];
  }

  lemma {:induction false} RemoveWhitespaceKeeps(s: string)
    requires forall i :: 0 <= i < |s| ==> !IsAsciiWhitespace(s[i])
    ensures RemoveWhitespace(s) == s
  {
    if s != [] {
      RemoveWhitespaceKeeps(s[1..]);
      assert [s[0]] + s[1..] == s;
    }
  }

  /** The padding `btoa` adds is exactly what `atob` strips. */
  lemma StripPaddingOfEncoding(s: string)
    requires IsLatin1(s)
    ensures StripPadding(Encode(s)) == EncodeLetters(s)
  {
    var l, p := EncodeLetters(s), Padding(|s|);
    assert Encode(s) == l + p;
    StripPaddingOfLetters(l, p);
  }

  /** Letters followed by at most two `=` that fill a group of four lose
      exactly those `=`. */
  lemma StripPaddingOfLetters(l: string, p: string)
    requires forall i :: 0 <= i < |l| ==> IsBase64Char(l[i])
    requires |p| <= 2 && forall k :: 0 <= k < |p| ==> p[k] == '='
    requires (|l| + |p|) % 4 == 0
    ensures StripPadding(l + p) == l
  {
    var e := l + p;
    if |p| == 2 {
      assert e[|e| - 2..] == p == "==";
      assert e[..|e| - 2] == l;
    } else if |p| == 1 {
      assert e[|e| - 2..] != "==" by {
        assert e[|e| - 2] == l[|l| - 1];
      }
      assert e[..|e| - 1] == l;
    } else {
      assert e == l;
      if |e| >= 1 {
        assert e[|e| - 1] == l[|l| - 1];
      }
    }
  }

  /** An encoding holds no whitespace: letters and `=` only. */
  lemma EncodingHasNoWhitespace(s: string)
    requires IsLatin1(s)
    ensures forall i :: 0 <= i < |Encode(s)| ==> !IsAsciiWhitespace(Encode(s)[i])
  {
    var e := Encode(s);
    var l := EncodeLetters(s);
    var p := Padding(|s|);
    assert e == l + p;
    forall i | 0 <= i < |e| ensures !IsAsciiWhitespace(e[i]) {
      if i < |l| {
        assert e[i] == l[i];
      } else {
        assert e[i] == p[i - |l|];
      }
    }
  }

  /** `atob(btoa(s))` is `s` for every string `btoa` accepts. */
  lemma RoundTrip(s: string)
    requires IsLatin1(s)
    ensures Atob(Encode(s)) == Some(s)
  {
    var e := Encode(s);
    var l := EncodeLetters(s);
    EncodingHasNoWhitespace(s);
    RemoveWhitespaceKeeps(e);
    StripPaddingOfEncoding(s);
    AtobOfCleanLetters(e, l);
    LettersRoundTrip(s);
  }

  /** When cleaning up the input leaves a valid letter string, `atob` decodes it. */
  lemma AtobOfCleanLetters(e: string, l: string)
    requires StripPadding(RemoveWhitespace(e)) == l
    requires forall i :: 0 <= i < |l| ==> IsBase64Char(l[i])
    requires |l| % 4 != 1
    ensures Atob(e) == Some(DecodeLetters(l))
  {
  }

  /** A token whose length leaves one letter over does not decode. */
  /** A character that is neither a letter of the alphabet, whitespace nor
      `=` makes `atob` fail, wherever it stands. */
  lemma ForeignCharRejected(s: string, j: nat)
    requires j < |s| && !IsBase64Char(s[j]) && !IsAsciiWhitespace(s[j]) && s[j] != '='
    ensures Atob(s) == None
  {
    var c := s[j];
    var w := RemoveWhitespace(s);
    var d := StripPadding(w);
    assert c in w;
    var m :| 0 <= m < |w| && w[m] == c;
    assert m < |d| && d[m] == c;
  }

  /** `atob("invalid-token")` fails at the `-`, before its length is looked at. */
  lemma InvalidTokenHyphen()
    ensures Atob("invalid-token") == None
  {
    ForeignCharRejected("invalid-token", 7);
  }

  lemma InvalidTokenRejected()
    ensures Atob("invalid-token") == None
  {
    NoWhitespaceInToken();
    UnpaddedLengthRejected("invalid-token");
  }

  lemma NoWhitespaceInToken()
    ensures forall i :: 0 <= i < |"invalid-token"| ==> !IsAsciiWhitespace("invalid-token"[i])
  {
  }

  /** Input without whitespace whose length is 1 more than a multiple of 4 never decodes. */
  lemma UnpaddedLengthRejected(s: string)
    requires forall i :: 0 <= i < |s| ==> !IsAsciiWhitespace(s[i])
    requires |s| % 4 == 1
    ensures Atob(s) == None
  {
    RemoveWhitespaceKeeps(s);
    AtobRejectsLength(s);
  }

  /** Letters that leave one over after groups of four never decode. */
  lemma AtobRejectsLength(e: string)
    requires |StripPadding(RemoveWhitespace(e))| % 4 == 1
    ensures Atob(e) == None
  {
  }
}
