/** Small string toolkit shared by the frontend and backend models: substring
    search, lowercasing, whitespace trimming and decimal digits. Strings are
    sequences of Unicode scalar values. */
module Text {

  /** JavaScript `String.prototype.includes` and Python's `in` on strings:
      some suffix of `s` starts with `sub`. */
  predicate Contains(s: string, sub: string)
    decreases |s|
  {
    sub <= s || (|s| > 0 && Contains(s[1..], sub))
  }

  /** `sub` occurs in `s` at position `i`. */
  predicate OccursAt(s: string, sub: string, i: int)
  {
    0 <= i && i + |sub| <= |s| && s[i..i + |sub|] == sub
  }

  lemma {:induction false} OccursImpliesContains(s: string, sub: string, i: int)
    requires OccursAt(s, sub, i)
    ensures Contains(s, sub)
    decreases i
  {
    if i == 0 {
      assert s[..|sub|] == sub;
    } else {
      assert s[1..][i - 1..i - 1 + |sub|] == s[i..i + |sub|];
      OccursImpliesContains(s[1..], sub, i - 1);
    }
  }

  lemma {:induction false} ContainsImpliesOccurs(s: string, sub: string) returns (i: nat)
    requires Contains(s, sub)
    ensures OccursAt(s, sub, i)
    decreases |s|
  {
    if sub <= s {
      i := 0;
      assert s[..|sub|] == sub;
    } else {
      var j := ContainsImpliesOccurs(s[1..], sub);
      i := j + 1;
      assert s[1..][j..j + |sub|] == s[i..i + |sub|];
    }
  }

  /** The recursive search and the positional definition agree. */
  lemma ContainsIffOccurs(s: string, sub: string)
    ensures Contains(s, sub) <==> exists i :: OccursAt(s, sub, i)
  {
    if Contains(s, sub) {
      var i := ContainsImpliesOccurs(s, sub);
    }
    if exists i :: OccursAt(s, sub, i) {
      var i :| OccursAt(s, sub, i);
      OccursImpliesContains(s, sub, i);
    }
  }

  /** A one-character search is a membership test. */
  lemma {:induction false} ContainsChar(s: string, c: char)
    ensures Contains(s, [c]) <==> c in s
    decreases |s|
  {
    if s != [] {
      ContainsChar(s[1..], c);
      assert s == [s[0]] + s[1..];
    }
  }

  /** An occurrence inside one part of a concatenation is an occurrence of the whole. */
  lemma ContainsInConcat(a: string, b: string, sub: string)
    requires Contains(a, sub) || Contains(b, sub)
    ensures Contains(a + b, sub)
  {
    ContainsIffOccurs(a, sub);
    ContainsIffOccurs(b, sub);
    ContainsIffOccurs(a + b, sub);
    if Contains(a, sub) {
      var i :| OccursAt(a, sub, i);
      assert (a + b)[i..i + |sub|] == a[i..i + |sub|];
      assert OccursAt(a + b, sub, i);
    } else {
      var i :| OccursAt(b, sub, i);
      assert (a + b)[|a| + i..|a| + i + |sub|] == b[i..i + |sub|];
      assert OccursAt(a + b, sub, |a| + i);
    }
  }

  /** The lowercase form of one character, as both JavaScript's
      `toLowerCase` and Python's `str.lower` give it for ASCII letters and
      for the two non-ASCII characters whose lowercase form contains an
      ASCII letter (KELVIN SIGN and LATIN CAPITAL LETTER I WITH DOT ABOVE).
      Every other character is kept. */
  function LowerChar(c: char): (r: string)
    ensures 1 <= |r| <= 2
  {
    if 'A' <= c <= 'Z' then [(c as int + 32) as char]
    else if c == '\U{212A}' then "k"
    else if c == '\U{130}' then "i\U{307}"
    else [c]
  }

  function Lower(s: string): (r: string)
    ensures |s| <= |r| <= 2 * |s|
  {
    if s == [] then [] else LowerChar(s[0]) + Lower(s[1..])
  }

  lemma {:induction false} LowerConcat(a: string, b: string)
    ensures Lower(a + b) == Lower(a) + Lower(b)
    decreases |a|
  {
    if a == [] {
      assert a + b == b;
    } else {
      assert (a + b)[1..] == a[1..] + b;
      LowerConcat(a[1..], b);
    }
  }

  /** A string without upper-case ASCII letters and without the two special
      characters above is its own lowercase form. */
  predicate IsLowerForm(s: string)
  {
    forall i :: 0 <= i < |s| ==> !('A' <= s[i] <= 'Z') && s[i] != '\U{212A}' && s[i] != '\U{130}'
  }

  lemma {:induction false} LowerOfLowerForm(s: string)
    requires IsLowerForm(s)
    ensures Lower(s) == s
    decreases |s|
  {
    if s != [] {
      assert IsLowerForm(s[1..]) by {
        forall i | 0 <= i < |s[1..]| ensures !('A' <= s[1..][i] <= 'Z') && s[1..][i] != '\U{212A}' && s[1..][i] != '\U{130}' {
          assert s[1..][i] == s[i + 1];
        }
      }
      LowerOfLowerForm(s[1..]);
    }
  }

  lemma {:induction false} LowerIsLowerForm(s: string)
    ensures IsLowerForm(Lower(s))
    decreases |s|
  {
    if s != [] {
      LowerIsLowerForm(s[1..]);
      var h := LowerChar(s[0]);
      var t := Lower(s[1..]);
      assert Lower(s) == h + t;
      forall i | 0 <= i < |h + t|
        ensures !('A' <= (h + t)[i] <= 'Z') && (h + t)[i] != '\U{212A}' && (h + t)[i] != '\U{130}'
      {
        if i >= |h| {
          assert (h + t)[i] == t[i - |h|];
        }
      }
    }
  }

  /** Lowercasing is idempotent. */
  lemma LowerIdempotent(s: string)
    ensures Lower(Lower(s)) == Lower(s)
  {
    LowerIsLowerForm(s);
    LowerOfLowerForm(Lower(s));
  }

  /** The white-space characters that JavaScript's `String.prototype.trim`
      removes: WhiteSpace and LineTerminator of ECMA-262 (section 12.2 and 12.3),
      with the Zs category written out. */
  predicate IsJsSpace(c: char)
  {
    ('\t' <= c <= '\r') || c == ' ' || c == '\U{A0}' || c == '\U{1680}'
    || ('\U{2000}' <= c <= '\U{200A}') || c == '\U{2028}' || c == '\U{2029}'
    || c == '\U{202F}' || c == '\U{205F}' || c == '\U{3000}' || c == '\U{FEFF}'
  }

  /** The characters for which Python's `str.isspace` holds, which is what
      `str.strip()` removes. Unlike JavaScript, this includes the separators
      U+001C to U+001F and U+0085, and excludes U+FEFF. */
  predicate IsPySpace(c: char)
  {
    ('\t' <= c <= '\r') || ('\U{1C}' <= c <= ' ') || c == '\U{85}' || c == '\U{A0}'
    || c == '\U{1680}' || ('\U{2000}' <= c <= '\U{200A}') || c == '\U{2028}' || c == '\U{2029}'
    || c == '\U{202F}' || c == '\U{205F}' || c == '\U{3000}'
  }

  function TrimStart(s: string, isSpace: char -> bool): (r: string)
    ensures |r| <= |s| && r == s[|s| - |r|..]
    ensures r == [] || !isSpace(r[0])
    ensures forall i :: 0 <= i < |s| - |r| ==> isSpace(s[i])
  {
    if s != [] && isSpace(s[0]) then
      var r := TrimStart(s[1..], isSpace);
      assert s[1..][|s| - 1 - |r|..] == s[|s| - |r|..];
      assert forall i :: 1 <= i < |s| - |r| ==> s[i] == s[1..][i - 1];
      r
    else s
  }

  function TrimEnd(s: string, isSpace: char -> bool): (r: string)
    ensures |r| <= |s| && r == s[..|r|]
    ensures r == [] || !isSpace(r[|r| - 1])
    ensures forall i :: |r| <= i < |s| ==> isSpace(s[i])
  {
    if s != [] && isSpace(s[|s| - 1]) then TrimEnd(s[..|s| - 1], isSpace) else s
  }

  /** Remove leading and trailing characters of the given class. */
  function Trim(s: string, isSpace: char -> bool): (r: string)
  {
    TrimEnd(TrimStart(s, isSpace), isSpace)
  }

  /** A trimmed string is empty exactly when every character of the input is
      in the class: the test `!query.trim()` of the chat input. */
  lemma TrimEmptyIff(s: string, isSpace: char -> bool)
    ensures Trim(s, isSpace) == [] <==> forall i :: 0 <= i < |s| ==> isSpace(s[i])
  {
    var t := TrimStart(s, isSpace);
    assert t != [] ==> t[0] == s[|s| - |t|];
  }

  /** Trimming twice is trimming once. */
  lemma TrimIdempotent(s: string, isSpace: char -> bool)
    ensures Trim(Trim(s, isSpace), isSpace) == Trim(s, isSpace)
  {
    var r := Trim(s, isSpace);
    assert TrimStart(r, isSpace) == r;
  }

  predicate IsDigit(c: char)
  {
    '0' <= c <= '9'
  }

  predicate AllDigits(s: string)
  {
    forall i :: 0 <= i < |s| ==> IsDigit(s[i])
  }

  function DigitChar(d: nat): char
    requires d < 10
  {
    ('0' as int + d) as char
  }

  /** The decimal numeral of a natural number, without leading zeros. */
  function NatToString(n: nat): (r: string)
    ensures |r| > 0 && AllDigits(r)
    ensures r[0] != '0' || n == 0
    decreases n
  {
    if n < 10 then [DigitChar(n)] else NatToString(n / 10) + [DigitChar(n % 10)]
  }

  /** A lower-case hexadecimal digit, as `Number.prototype.toString(16)`
      writes it. */
  function HexDigit(d: nat): (c: char)
    requires d < 16
    ensures IsHexDigit(c)
  {
    if d < 10 then DigitChar(d) else ('a' as int + (d - 10)) as char
  }

  predicate IsHexDigit(c: char)
  {
    '0' <= c <= '9' || 'a' <= c <= 'f'
  }

  /** The value of a numeral (decimal digits only). */
  function DecimalValue(s: string): nat
    requires AllDigits(s)
    decreases |s|
  {
    if s == [] then 0 else DecimalValue(s[..|s| - 1]) * 10 + (s[|s| - 1] as int - '0' as int)
  }

  lemma {:induction false} DecimalValueOfNatToString(n: nat)
    ensures DecimalValue(NatToString(n)) == n
    decreases n
  {
    if n >= 10 {
      DecimalValueOfNatToString(n / 10);
      var r := NatToString(n);
      assert r[..|r| - 1] == NatToString(n / 10);
    }
  }

  /** A text without the character `c` that occurs in `a + [c] + b` occurs
      in `a` or in `b`: no occurrence can cover the `c`. */
  lemma ContainsAcrossSeparator(a: string, c: char, b: string, sub: string)
    requires c !in sub && Contains(a + [c] + b, sub)
    ensures Contains(a, sub) || Contains(b, sub)
  {
    var s := a + [c] + b;
    var i := ContainsImpliesOccurs(s, sub);
    assert s[|a|] == c;
    assert forall k :: i <= k < i + |sub| ==> s[k] == sub[k - i];
    if i + |sub| <= |a| {
      assert a[i..i + |sub|] == s[i..i + |sub|];
      OccursImpliesContains(a, sub, i);
    } else if i > |a| {
      assert b[i - |a| - 1..i - |a| - 1 + |sub|] == s[i..i + |sub|];
      OccursImpliesContains(b, sub, i - |a| - 1);
    } else {
      assert false;
    }
  }

  /** A non-empty text without the separator character that occurs in the
      joined text occurs in one of the parts. */
  lemma {:induction false} JoinContainsOnlyParts(parts: seq<string>, c: char, sub: string) returns (k: nat)
    requires |sub| > 0 && c !in sub && Contains(Join(parts, [c]), sub)
    ensures k < |parts| && Contains(parts[k], sub)
    decreases |parts|
  {
    if parts == [] {
      assert false;
    } else if |parts| == 1 {
      k := 0;
    } else {
      var rest := Join(parts[1..], [c]);
      assert Join(parts, [c]) == parts[0] + [c] + rest;
      ContainsAcrossSeparator(parts[0], c, rest, sub);
      if Contains(parts[0], sub) {
        k := 0;
      } else {
        var j := JoinContainsOnlyParts(parts[1..], c, sub);
        k := j + 1;
      }
    }
  }

  /** `parts` joined by `sep`: JavaScript `Array.prototype.join` and Python
      `str.join`. */
  function Join(parts: seq<string>, sep: string): string
  {
    if parts == [] then ""
    else if |parts| == 1 then parts[0]
    else parts[0] + sep + Join(parts[1..], sep)
  }
}
