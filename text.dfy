/** The string primitives the entities normalise their input with:
    `char.IsWhiteSpace`, `string.IsNullOrWhiteSpace`, `Trim` and
    `ToLowerInvariant`. */
module Text {

  /** `char.IsWhiteSpace`: the Unicode space separators, the line and
      paragraph separators, U+0009 to U+000D, U+0085 and U+00A0. */
  predicate IsWhiteSpace(c: char) {
    || ('\t' <= c <= '\r')
    || c == ' '
    || c == '\U{85}'
    || c == '\U{A0}'
    || c == '\U{1680}'
    || ('\U{2000}' <= c <= '\U{200A}')
    || c == '\U{2028}'
    || c == '\U{2029}'
    || c == '\U{202F}'
    || c == '\U{205F}'
    || c == '\U{3000}'
  }

  /** `char.IsDigit`: the decimal digits of Unicode (general category Nd)
      that a UTF-16 `char` can hold, ten consecutive code points per script
      from its zero, as in the Unicode 15 tables. */
  predicate IsDigit(c: char) {
    || ('0' <= c <= '9')
    || ('\U{0660}' <= c <= '\U{0669}') || ('\U{06F0}' <= c <= '\U{06F9}') || ('\U{07C0}' <= c <= '\U{07C9}')
    || ('\U{0966}' <= c <= '\U{096F}') || ('\U{09E6}' <= c <= '\U{09EF}') || ('\U{0A66}' <= c <= '\U{0A6F}')
    || ('\U{0AE6}' <= c <= '\U{0AEF}') || ('\U{0B66}' <= c <= '\U{0B6F}') || ('\U{0BE6}' <= c <= '\U{0BEF}')
    || ('\U{0C66}' <= c <= '\U{0C6F}') || ('\U{0CE6}' <= c <= '\U{0CEF}') || ('\U{0D66}' <= c <= '\U{0D6F}')
    || ('\U{0DE6}' <= c <= '\U{0DEF}') || ('\U{0E50}' <= c <= '\U{0E59}') || ('\U{0ED0}' <= c <= '\U{0ED9}')
    || ('\U{0F20}' <= c <= '\U{0F29}') || ('\U{1040}' <= c <= '\U{1049}') || ('\U{1090}' <= c <= '\U{1099}')
    || ('\U{17E0}' <= c <= '\U{17E9}') || ('\U{1810}' <= c <= '\U{1819}') || ('\U{1946}' <= c <= '\U{194F}')
    || ('\U{19D0}' <= c <= '\U{19D9}') || ('\U{1A80}' <= c <= '\U{1A89}') || ('\U{1A90}' <= c <= '\U{1A99}')
    || ('\U{1B50}' <= c <= '\U{1B59}') || ('\U{1BB0}' <= c <= '\U{1BB9}') || ('\U{1C40}' <= c <= '\U{1C49}')
    || ('\U{1C50}' <= c <= '\U{1C59}') || ('\U{A620}' <= c <= '\U{A629}') || ('\U{A8D0}' <= c <= '\U{A8D9}')
    || ('\U{A900}' <= c <= '\U{A909}') || ('\U{A9D0}' <= c <= '\U{A9D9}') || ('\U{A9F0}' <= c <= '\U{A9F9}')
    || ('\U{AA50}' <= c <= '\U{AA59}') || ('\U{ABF0}' <= c <= '\U{ABF9}') || ('\U{FF10}' <= c <= '\U{FF19}')
  }

  /** `string.Length`: the number of UTF-16 code units of `s`; a character
      outside the Basic Multilingual Plane takes two. */
  function Utf16Length(s: string): (n: nat)
    ensures |s| <= n <= 2 * |s|
  {
    if s == [] then 0 else (if s[0] as int >= 0x1_0000 then 2 else 1) + Utf16Length(s[1..])
  }

  /** A string of Basic Multilingual Plane characters has one code unit per
      character. */
  lemma {:induction false} Utf16LengthOfBmp(s: string)
    requires forall i | 0 <= i < |s| :: s[i] as int < 0x1_0000
    ensures Utf16Length(s) == |s|
  {
    if s != [] {
      Utf16LengthOfBmp(s[1..]);
    }
  }

  /** `string.IsNullOrWhiteSpace` of a non-null string: empty or only white space. */
  predicate IsBlank(s: string) {
    forall i | 0 <= i < |s| :: IsWhiteSpace(s[i])
  }

  /** Neither end of `s` is white space. */
  predicate IsTrimmed(s: string) {
    s == [] || (!IsWhiteSpace(s[0]) && !IsWhiteSpace(s[|s| - 1]))
  }

  /** `TrimStart()`: drops the leading white space and nothing else. */
  function TrimStart(s: string): (r: string)
    ensures |r| <= |s|
    ensures r != [] ==> !IsWhiteSpace(r[0])
  {
    if |s| > 0 && IsWhiteSpace(s[0]) then TrimStart(s[1..]) else s
  }

  /** What `TrimStart` keeps is a suffix of `s`, and what it drops is white
      space. */
  lemma {:induction false} TrimStartDropsBlankPrefix(s: string)
    ensures var r := TrimStart(s);
      r == s[|s| - |r|..] && IsBlank(s[..|s| - |r|])
  {
    if |s| > 0 && IsWhiteSpace(s[0]) {
      TrimStartDropsBlankPrefix(s[1..]);
      var k := |s| - |TrimStart(s)|;
      assert s[1..][..k - 1] == s[1..k];
      assert forall i | 0 <= i < k :: s[..k][i] == s[i];
    }
  }

  /** `TrimEnd()`: drops the trailing white space and nothing else. */
  function TrimEnd(s: string): (r: string)
    ensures |r| <= |s|
    ensures r != [] ==> !IsWhiteSpace(r[|r| - 1])
  {
    if |s| > 0 && IsWhiteSpace(s[|s| - 1]) then TrimEnd(s[..|s| - 1]) else s
  }

  /** What `TrimEnd` keeps is a prefix of `s`, and what it drops is white
      space. */
  lemma {:induction false} TrimEndDropsBlankSuffix(s: string)
    ensures var r := TrimEnd(s);
      r == s[..|r|] && IsBlank(s[|r|..])
  {
    if |s| > 0 && IsWhiteSpace(s[|s| - 1]) {
      TrimEndDropsBlankSuffix(s[..|s| - 1]);
      var n := |TrimEnd(s)|;
      assert s[..|s| - 1][n..] == s[n..|s| - 1];
      assert forall i | n <= i < |s| :: s[n..][i - n] == s[i];
    }
  }

  /** `Trim()`: drops the white space at both ends. */
  function Trim(s: string): (r: string)
    ensures IsTrimmed(r)
    ensures |r| <= |s|
  {
    TrimEndDropsBlankSuffix(TrimStart(s));
    TrimEnd(TrimStart(s))
  }

  /** `Trim` returns the empty string exactly when `s` is blank. */
  lemma TrimEmptyIffBlank(s: string)
    ensures Trim(s) == [] <==> IsBlank(s)
  {
    var t := TrimStart(s);
    var k := |s| - |t|;
    TrimStartDropsBlankPrefix(s);
    TrimEndDropsBlankSuffix(t);
    if Trim(s) == [] {
      assert t[0..] == t;
      assert t == [];
      forall i | 0 <= i < |s| ensures IsWhiteSpace(s[i]) {
        assert s[..k][i] == s[i];
      }
    } else {
      assert s[k] == t[0] == Trim(s)[0];
    }
  }

  /** Trimming a string with no white space at either end leaves it as it is. */
  lemma {:induction false} TrimOfTrimmed(s: string)
    requires IsTrimmed(s)
    ensures Trim(s) == s
  {
    assert TrimStart(s) == s;
    assert TrimEnd(s) == s;
  }

  /** `Trim` is idempotent. */
  lemma TrimIdempotent(s: string)
    ensures Trim(Trim(s)) == Trim(s)
  {
    TrimOfTrimmed(Trim(s));
  }

  /** `char.ToLowerInvariant` on the ASCII and Latin-1 upper-case letters. */
  function ToLowerChar(c: char): char {
    if 'A' <= c <= 'Z' || ('\U{C0}' <= c <= '\U{DE}' && c != '\U{D7}') then (c as int + 32) as char else c
  }

  /** `ToLowerInvariant()`, character by character. */
  function ToLowerInvariant(s: string): (r: string)
    ensures |r| == |s|
  {
    if s == [] then [] else [ToLowerChar(s[0])] + ToLowerInvariant(s[1..])
  }

  /** Each character of the lower-cased string is its source character
      lower-cased. */
  lemma {:induction false} ToLowerInvariantAt(s: string, i: int)
    requires 0 <= i < |s|
    ensures ToLowerInvariant(s)[i] == ToLowerChar(s[i])
  {
    if i > 0 {
      ToLowerInvariantAt(s[1..], i - 1);
    }
  }

  /** Lower-casing neither creates nor removes white space, keeps '@' and '.',
      and is idempotent. */
  lemma ToLowerCharFacts(c: char)
    ensures IsWhiteSpace(ToLowerChar(c)) <==> IsWhiteSpace(c)
    ensures ToLowerChar(c) == '@' <==> c == '@'
    ensures ToLowerChar(c) == '.' <==> c == '.'
    ensures ToLowerChar(ToLowerChar(c)) == ToLowerChar(c)
  {
  }

  /** A trimmed string stays trimmed when lower-cased, and lower-casing twice is
      lower-casing once. */
  lemma ToLowerKeepsTrimmed(s: string)
    requires IsTrimmed(s)
    ensures IsTrimmed(ToLowerInvariant(s))
    ensures ToLowerInvariant(ToLowerInvariant(s)) == ToLowerInvariant(s)
  {
    var r := ToLowerInvariant(s);
    if s != [] {
      ToLowerInvariantAt(s, 0);
      ToLowerInvariantAt(s, |s| - 1);
      ToLowerCharFacts(s[0]);
      ToLowerCharFacts(s[|s| - 1]);
    }
    forall i | 0 <= i < |s| ensures ToLowerInvariant(r)[i] == r[i] {
      ToLowerInvariantAt(s, i);
      ToLowerInvariantAt(r, i);
      ToLowerCharFacts(s[i]);
    }
  }

  /** `s.Trim().ToLowerInvariant()`, the normal form of an e-mail address. */
  function NormalizeEmail(s: string): (r: string)
    ensures IsTrimmed(r)
    ensures |r| <= |s|
    ensures r == [] <==> IsBlank(s)
  {
    ToLowerKeepsTrimmed(Trim(s));
    TrimEmptyIffBlank(s);
    ToLowerInvariant(Trim(s))
  }

  /** Normalising an e-mail address twice is normalising it once. */
  lemma {:induction false} NormalizeEmailIdempotent(s: string)
    ensures NormalizeEmail(NormalizeEmail(s)) == NormalizeEmail(s)
  {
    var t := Trim(s);
    ToLowerKeepsTrimmed(t);
    TrimOfTrimmed(ToLowerInvariant(t));
  }

  /** `s.Contains(c)`. */
  predicate Contains(s: string, c: char) {
    exists i | 0 <= i < |s| :: s[i] == c
  }

  /** Ordinal case-insensitive equality, as `Enum.TryParse(..., ignoreCase: true)`
      compares a name. */
  predicate EqualsIgnoreCase(a: string, b: string) {
    ToLowerInvariant(a) == ToLowerInvariant(b)
  }

  /** Whether `text` names the enumeration member called `name` for
      `Enum.TryParse(..., ignoreCase: true)`: the white space around it is
      dropped and the rest equals the name up to case. */
  predicate NamesMember(text: string, name: string) {
    EqualsIgnoreCase(Trim(text), name)
  }

  /** White space before a string does not survive `TrimStart`. */
  lemma {:induction false} TrimStartBlankPrefix(pre: string, s: string)
    requires IsBlank(pre)
    ensures TrimStart(pre + s) == TrimStart(s)
  {
    if pre != [] {
      assert (pre + s)[0] == pre[0];
      assert (pre + s)[1..] == pre[1..] + s;
      TrimStartBlankPrefix(pre[1..], s);
    } else {
      assert pre + s == s;
    }
  }

  /** White space after a string does not survive `TrimEnd`. */
  lemma {:induction false} TrimEndBlankSuffix(s: string, post: string)
    requires IsBlank(post)
    ensures TrimEnd(s + post) == TrimEnd(s)
  {
    if post != [] {
      var n := |post| - 1;
      assert (s + post)[..|s + post| - 1] == s + post[..n];
      TrimEndBlankSuffix(s, post[..n]);
    } else {
      assert s + post == s;
    }
  }

  /** Surrounding a trimmed, non-empty string with white space and trimming
      gives the string back. */
  lemma {:induction false} TrimPadded(pre: string, s: string, post: string)
    requires IsBlank(pre) && IsBlank(post) && s != [] && IsTrimmed(s)
    ensures Trim(pre + s + post) == s
  {
    assert pre + s + post == pre + (s + post);
    TrimStartBlankPrefix(pre, s + post);
    assert TrimStart(s + post) == s + post;
    TrimEndBlankSuffix(s, post);
  }

  /** Text equal to a trimmed, non-empty name up to case is itself trimmed,
      because lower-casing maps white space, and nothing else, to white
      space. */
  lemma EqualsIgnoreCaseTrimmed(spelling: string, name: string)
    requires EqualsIgnoreCase(spelling, name) && name != [] && IsTrimmed(name)
    ensures spelling != [] && IsTrimmed(spelling)
  {
    var n := |spelling| - 1;
    ToLowerInvariantAt(spelling, 0);
    ToLowerInvariantAt(name, 0);
    ToLowerInvariantAt(spelling, n);
    ToLowerInvariantAt(name, n);
    ToLowerCharFacts(spelling[0]);
    ToLowerCharFacts(name[0]);
    ToLowerCharFacts(spelling[n]);
    ToLowerCharFacts(name[n]);
  }

  /** A member's name written in any case, with any white space around it,
      names that member; a trimmed text that names it equals the name up to
      case. */
  lemma {:induction false} NamesMemberPadded(pre: string, spelling: string, post: string, name: string)
    requires IsBlank(pre) && IsBlank(post) && name != [] && IsTrimmed(name)
    ensures EqualsIgnoreCase(spelling, name) ==> NamesMember(pre + spelling + post, name)
    ensures spelling != [] && IsTrimmed(spelling) && NamesMember(pre + spelling + post, name) ==>
      EqualsIgnoreCase(spelling, name)
  {
    if EqualsIgnoreCase(spelling, name) {
      EqualsIgnoreCaseTrimmed(spelling, name);
    }
    if spelling != [] && IsTrimmed(spelling) {
      TrimPadded(pre, spelling, post);
    }
  }
}
