/** The JavaScript string operations the core relies on: `trim`,
    `toLowerCase`, `includes`, and the decimal text of an integral number. */
module Text {

  /** ECMAScript WhiteSpace and LineTerminator code points: what
      `String.prototype.trim` strips from both ends. */
  predicate IsJsWhitespace(c: char) {
    || c == ' ' || c == '\t' || c == '\n' || c == '\r'
    || c == '\U{000B}' || c == '\U{000C}' || c == '\U{00A0}' || c == '\U{1680}'
    || ('\U{2000}' <= c <= '\U{200A}')
    || c == '\U{2028}' || c == '\U{2029}' || c == '\U{202F}' || c == '\U{205F}'
    || c == '\U{3000}' || c == '\U{FEFF}'
  }

  predicate AllWhitespace(s: string) {
    forall k :: 0 <= k < |s| ==> IsJsWhitespace(s[k])
  }

  /** The length of the whitespace run that starts `s`. */
  function LeadingSpace(s: string): (n: nat)
    ensures n <= |s|
    ensures forall k :: 0 <= k < n ==> IsJsWhitespace(s[k])
    ensures n == |s| || !IsJsWhitespace(s[n])
  {
    if s != [] && IsJsWhitespace(s[0]) then
      var n := 1 + LeadingSpace(s[1..]);
      assert forall k :: 1 <= k < n ==> s[k] == s[1..][k - 1];
      n
    else 0
  }

  /** Where the whitespace run that ends `s` begins. */
  function TrailingSpaceStart(s: string): (n: nat)
    ensures n <= |s|
    ensures forall k :: n <= k < |s| ==> IsJsWhitespace(s[k])
    ensures n == 0 || !IsJsWhitespace(s[n - 1])
  {
    if s != [] && IsJsWhitespace(s[|s| - 1]) then
      var n := TrailingSpaceStart(s[..|s| - 1]);
      assert forall k :: n <= k < |s| - 1 ==> s[k] == s[..|s| - 1][k];
      n
    else |s|
  }

  /** The two whitespace runs are the only ones of their kind: any index
      with whitespace before it and none at it is `LeadingSpace`, and
      likewise at the end. */
  lemma LeadingSpaceUnique(s: string, n: nat)
    requires n <= |s| && (forall k :: 0 <= k < n ==> IsJsWhitespace(s[k]))
    requires n == |s| || !IsJsWhitespace(s[n])
    ensures LeadingSpace(s) == n
  {
  }

  lemma TrailingSpaceStartUnique(s: string, n: nat)
    requires n <= |s| && (forall k :: n <= k < |s| ==> IsJsWhitespace(s[k]))
    requires n == 0 || !IsJsWhitespace(s[n - 1])
    ensures TrailingSpaceStart(s) == n
  {
  }

  /** `s.trim()`: the text between the leading and the trailing whitespace;
      it is empty exactly when `s` is all whitespace, and otherwise neither
      of its ends is whitespace. */
  function Trim(s: string): (r: string)
    ensures r == [] <==> AllWhitespace(s)
    ensures r != [] ==>
      && LeadingSpace(s) < TrailingSpaceStart(s)
      && r == s[LeadingSpace(s)..TrailingSpaceStart(s)]
      && !IsJsWhitespace(r[0]) && !IsJsWhitespace(r[|r| - 1])
  {
    var i := LeadingSpace(s);
    var j := TrailingSpaceStart(s);
    if i < j then
      s[i..j]
    else
      assert forall k :: 0 <= k < |s| ==> IsJsWhitespace(s[k]);
      []
  }

  lemma TrimIdempotent(s: string)
    ensures Trim(Trim(s)) == Trim(s)
  {
    var r := Trim(s);
    if r != [] {
      LeadingSpaceUnique(r, 0);
      TrailingSpaceStartUnique(r, |r|);
    }
  }

  /** Trimming removes exactly the surrounding whitespace: a string with
      non-whitespace ends comes back out of any whitespace padding. */
  lemma TrimPadding(pre: string, a: string, post: string)
    requires AllWhitespace(pre) && AllWhitespace(post)
    requires a != [] ==> !IsJsWhitespace(a[0]) && !IsJsWhitespace(a[|a| - 1])
    ensures Trim(pre + a + post) == a
  {
    var s := pre + a + post;
    if a == [] {
      assert forall k :: 0 <= k < |s| ==> s[k] == if k < |pre| then pre[k] else post[k - |pre|];
    } else {
      assert forall k :: 0 <= k < |pre| ==> s[k] == pre[k];
      assert forall k :: |pre| + |a| <= k < |s| ==> s[k] == post[k - |pre| - |a|];
      assert s[|pre|] == a[0] && s[|pre| + |a| - 1] == a[|a| - 1];
      LeadingSpaceUnique(s, |pre|);
      TrailingSpaceStartUnique(s, |pre| + |a|);
      assert s[|pre|..|pre| + |a|] == a;
    }
  }

  /** ASCII case mapping of `toLowerCase`. */
  function LowerChar(c: char): char {
    if 'A' <= c <= 'Z' then (c as int + 32) as char else c
  }

  /** `s.toLowerCase()`, character by character. */
  function Lower(s: string): (r: string)
    ensures |r| == |s|
    ensures forall i :: 0 <= i < |s| ==> r[i] == LowerChar(s[i])
  {
    if s == [] then [] else [LowerChar(s[0])] + Lower(s[1..])
  }

  /** `hay.includes(needle)`: `needle` is a prefix of some suffix of `hay`. */
  predicate Contains(hay: string, needle: string)
    decreases |hay|
  {
    needle <= hay || (hay != [] && Contains(hay[1..], needle))
  }

  /** `includes` means occurring at some offset. */
  lemma {:induction false} ContainsAt(hay: string, needle: string)
    ensures Contains(hay, needle) <==> exists k :: 0 <= k <= |hay| && needle <= hay[k..]
  {
    if needle <= hay {
      assert hay[0..] == hay;
    } else if hay == [] {
      assert forall k :: 0 <= k <= |hay| ==> hay[k..] == hay;
    } else {
      ContainsAt(hay[1..], needle);
      if exists k :: 0 <= k <= |hay| && needle <= hay[k..] {
        var k :| 0 <= k <= |hay| && needle <= hay[k..];
        assert k != 0;
        assert hay[1..][k - 1..] == hay[k..];
      }
      if Contains(hay[1..], needle) {
        var k :| 0 <= k <= |hay[1..]| && needle <= hay[1..][k..];
        assert hay[1..][k..] == hay[k + 1..];
      }
    }
  }

  /** The text between two slices of a string shows up in the string. */
  lemma ContainsInfix(a: string, needle: string, b: string)
    ensures Contains(a + needle + b, needle)
  {
    var hay := a + needle + b;
    assert needle <= hay[|a|..];
    ContainsAt(hay, needle);
  }

  lemma ContainsEmpty(hay: string)
    ensures Contains(hay, "")
  {
  }

  function DigitChar(d: nat): (c: char)
    requires d < 10
    ensures '0' <= c <= '9' && c as int - '0' as int == d
  {
    ['0', '1', '2', '3', '4', '5', '6', '7', '8', '9'][d]
  }

  predicate IsDigits(s: string) {
    forall i :: 0 <= i < |s| ==> '0' <= s[i] <= '9'
  }

  /** The decimal digits of `n`, most significant first, with no leading
      zero. */
  function NatToString(n: nat): (r: string)
    ensures |r| >= 1 && IsDigits(r)
    ensures r[0] == '0' ==> n == 0
  {
    if n < 10 then [DigitChar(n)] else NatToString(n / 10) + [DigitChar(n % 10)]
  }

  /** The number a string of decimal digits denotes. */
  function DecimalValue(s: string): nat
    requires IsDigits(s)
  {
    if s == [] then 0
    else 10 * DecimalValue(s[..|s| - 1]) + (s[|s| - 1] as int - '0' as int)
  }

  lemma {:induction false} DecimalRoundTrip(n: nat)
    ensures DecimalValue(NatToString(n)) == n
  {
    if n >= 10 {
      DecimalRoundTrip(n / 10);
      var r := NatToString(n);
      assert r[..|r| - 1] == NatToString(n / 10);
    }
  }

  /** The text JavaScript gives an integral number below 10^21 in
      magnitude: a minus sign for a negative value, then the decimal digits
      of its magnitude. Larger numbers print in exponent form, which is not
      modelled. */
  function IntToString(n: int): (r: string)
    ensures |r| >= 1
    ensures r[0] == '-' <==> n < 0
    ensures n < 0 ==> IsDigits(r[1..])
    ensures n >= 0 ==> IsDigits(r)
  {
    if n < 0 then "-" + NatToString(-n) else NatToString(n)
  }

  /** Reads back the text `IntToString` produces. */
  function ParseInt(s: string): int
    requires (s != [] && s[0] == '-' && IsDigits(s[1..])) || IsDigits(s)
  {
    if s != [] && s[0] == '-' then -(DecimalValue(s[1..]) as int) else DecimalValue(s)
  }

  lemma IntRoundTrip(n: int)
    ensures var r := IntToString(n);
      && ((r != [] && r[0] == '-' && IsDigits(r[1..])) || IsDigits(r))
      && ParseInt(r) == n
  {
    if n < 0 {
      DecimalRoundTrip(-n);
      assert IntToString(n)[1..] == NatToString(-n);
    } else {
      DecimalRoundTrip(n);
    }
  }
}
