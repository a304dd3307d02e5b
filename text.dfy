/** The few Python string operations the scripts rely on, over `seq<char>`:
    `str.replace(pat, "")`, `str.split()[0]`, `float(str)` on plain decimal
    literals, and `str.lower()` on ASCII letters. */
module Text {
  import opened Wrappers

  // ---------------------------------------------------------------- digits

  predicate IsDigit(c: char) { '0' <= c <= '9' }

  predicate AllDigits(s: string) { forall i :: 0 <= i < |s| ==> IsDigit(s[i]) }

  function DigitValue(c: char): (d: nat)
    requires IsDigit(c)
    ensures d < 10
  {
    c as int - '0' as int
  }

  /** 10 to the power k. */
  function Pow10(k: nat): (p: nat)
    ensures p >= 1
  {
    if k == 0 then 1 else 10 * Pow10(k - 1)
  }

  /** The number a string of decimal digits denotes, most significant digit
      first; the empty string denotes 0. */
  function DigitsValue(s: string): (n: nat)
    requires AllDigits(s)
    ensures n < Pow10(|s|)
  {
    if s == [] then 0 else 10 * DigitsValue(s[..|s| - 1]) + DigitValue(s[|s| - 1])
  }

  // ------------------------------------------------- str.replace(pat, "")

  /** `s.replace(pat, "")`: occurrences of `pat` are found left to right,
      without overlap, and deleted. */
  function Remove(s: string, pat: string): (r: string)
    requires pat != []
    ensures |r| <= |s|
    decreases |s|
  {
    if |s| >= |pat| && s[..|pat|] == pat then Remove(s[|pat|..], pat)
    else if s == [] then []
    else [s[0]] + Remove(s[1..], pat)
  }

  /** Deleting never adds a character: what is left is a sub-multiset of
      the original. */
  lemma {:induction false} RemoveOnlyDeletes(s: string, pat: string)
    requires pat != []
    ensures multiset(Remove(s, pat)) <= multiset(s)
    decreases |s|
  {
    if |s| >= |pat| && s[..|pat|] == pat {
      assert s == s[..|pat|] + s[|pat|..];
      RemoveOnlyDeletes(s[|pat|..], pat);
    } else if s != [] {
      assert s == [s[0]] + s[1..];
      RemoveOnlyDeletes(s[1..], pat);
    }
  }

  /** Deleting a one-character pattern leaves no occurrence of it, keeps
      every other character the text contains, and leaves text without that
      character as it is. */
  lemma {:induction false} RemoveCharSpec(s: string, c: char)
    ensures c !in Remove(s, [c])
    ensures forall x :: x != c ==> (x in Remove(s, [c]) <==> x in s)
    ensures c !in s ==> Remove(s, [c]) == s
  {
    if s != [] {
      RemoveCharSpec(s[1..], c);
      assert s == [s[0]] + s[1..];
    }
  }

  /** Text without the character is left as it is. */
  lemma {:induction false} RemoveAbsent(s: string, c: char)
    requires c !in s
    ensures Remove(s, [c]) == s
  {
    if s != [] {
      assert s[0] != c;
      RemoveAbsent(s[1..], c);
      assert s == [s[0]] + s[1..];
    }
  }

  /** Deleting a one-character pattern distributes over concatenation. */
  lemma {:induction false} RemoveCharConcat(a: string, b: string, c: char)
    ensures Remove(a + b, [c]) == Remove(a, [c]) + Remove(b, [c])
  {
    if a != [] {
      assert (a + b)[1..] == a[1..] + b;
      RemoveCharConcat(a[1..], b, c);
    } else {
      assert a + b == b;
    }
  }

  /** A trailing pattern is deleted and nothing else is touched when the text
      before it cannot start an occurrence: it does not contain the
      pattern's first character. */
  lemma {:induction false} RemoveSuffix(t: string, pat: string)
    requires pat != []
    requires pat[0] !in t
    ensures Remove(t + pat, pat) == t
  {
    if t == [] {
      assert (t + pat)[..|pat|] == pat;
      assert (t + pat)[|pat|..] == [];
    } else {
      assert (t + pat)[0] == t[0] != pat[0];
      assert (t + pat)[1..] == t[1..] + pat;
      RemoveSuffix(t[1..], pat);
      assert t == [t[0]] + t[1..];
    }
  }

  // ------------------------------------------------------ str.split()[0]

  /** The ASCII characters Python's `str.split()` treats as separators. */
  predicate IsSpace(c: char)
  {
    c == ' ' || c == '\t' || c == '\n' || c == '\r' || c == '\U{B}' || c == '\U{C}'
    || c == '\U{1C}' || c == '\U{1D}' || c == '\U{1E}' || c == '\U{1F}'
  }

  predicate NoSpace(s: string) { forall i :: 0 <= i < |s| ==> !IsSpace(s[i]) }

  /** The number of whitespace characters `s` starts with. */
  function LeadingSpaces(s: string): (n: nat)
    ensures n <= |s|
    ensures forall i :: 0 <= i < n ==> IsSpace(s[i])
    ensures n < |s| ==> !IsSpace(s[n])
  {
    if s != [] && IsSpace(s[0]) then 1 + LeadingSpaces(s[1..]) else 0
  }

  /** The longest prefix of `s` without whitespace. */
  function TakeWord(s: string): (w: string)
    ensures |w| <= |s| && w == s[..|w|]
    ensures NoSpace(w)
    ensures |w| == |s| || IsSpace(s[|w|])
  {
    if s == [] || IsSpace(s[0]) then [] else [s[0]] + TakeWord(s[1..])
  }

  /** `w` is the token of `s` that starts at `k`: only whitespace before it,
      and it ends at whitespace or at the end of `s`. */
  predicate TokenAt(s: string, k: nat, w: string)
  {
    k + |w| <= |s|
    && (forall i :: 0 <= i < k ==> IsSpace(s[i]))
    && s[k..k + |w|] == w
    && (k + |w| == |s| || IsSpace(s[k + |w|]))
  }

  /** `s.split()[0]`: the first maximal run of non-space characters;
      None where Python raises IndexError (blank or empty string). */
  function FirstToken(s: string): (r: Option<string>)
    ensures r.None? <==> forall i :: 0 <= i < |s| ==> IsSpace(s[i])
    ensures r.Some? ==> r.value != [] && NoSpace(r.value)
    ensures r.Some? ==> exists k: nat :: TokenAt(s, k, r.value)
  {
    var k := LeadingSpaces(s);
    if k == |s| then None
    else
      var w := TakeWord(s[k..]);
      assert s[k..][..|w|] == s[k..k + |w|];
      assert k + |w| == |s| || s[k + |w|] == s[k..][|w|];
      assert TokenAt(s, k, w);
      Some(w)
  }

  /** Whatever token starts after only whitespace is the first token: the
      token FirstToken finds is the only one there is. */
  lemma FirstTokenUnique(s: string)
    ensures forall k: nat, t :: TokenAt(s, k, t) && t != [] && NoSpace(t) ==> FirstToken(s) == Some(t)
  {
    forall k: nat, t | TokenAt(s, k, t) && t != [] && NoSpace(t)
      ensures FirstToken(s) == Some(t)
    {
      assert s[k] == s[k..k + |t|][0] == t[0];
      assert !IsSpace(s[k]);
      assert LeadingSpaces(s) == k;
      var u := s[k..];
      var w := TakeWord(u);
      assert u[..|t|] == t;
      assert forall i :: 0 <= i < |t| ==> !IsSpace(u[i]);
      assert forall i :: 0 <= i < |w| ==> !IsSpace(u[i]);
      assert |t| == |u| || IsSpace(u[|t|]);
      assert |w| == |t|;
    }
  }

  lemma {:induction false} TakeWordStops(w: string, rest: string)
    requires NoSpace(w)
    ensures TakeWord(w + " " + rest) == w
  {
    if w != [] {
      assert (w + " " + rest)[1..] == w[1..] + " " + rest;
      TakeWordStops(w[1..], rest);
      assert w == [w[0]] + w[1..];
    } else {
      assert (w + " " + rest)[0] == ' ';
    }
  }

  /** The first token of `w + " " + rest` is `w` when `w` is a non-empty
      run of non-space characters. */
  lemma FirstTokenOfWord(w: string, rest: string)
    requires w != [] && NoSpace(w)
    ensures FirstToken(w + " " + rest) == Some(w)
  {
    var s := w + " " + rest;
    assert s[0] == w[0];
    assert LeadingSpaces(s) == 0;
    assert s[0..] == s;
    TakeWordStops(w, rest);
  }

  // ------------------------------------------------------------- float(s)

  /** Index of the first '.' in s, or |s| when there is none. */
  function DotIndex(s: string): (k: nat)
    ensures k <= |s|
    ensures k < |s| ==> s[k] == '.'
    ensures forall j :: 0 <= j < k ==> s[j] != '.'
  {
    if s == [] then 0 else if s[0] == '.' then 0 else 1 + DotIndex(s[1..])
  }

  /** The value of the literal `whole . frac`. */
  function LiteralValue(whole: string, frac: string): (v: real)
    requires AllDigits(whole) && AllDigits(frac)
    ensures v >= 0.0
  {
    DigitsValue(whole) as real + DigitsValue(frac) as real / Pow10(|frac|) as real
  }

  /** The value of `digits [. digits]` with at least one digit. */
  function ParseUnsigned(s: string): (r: Option<real>)
    ensures r.Some? ==> r.value >= 0.0
  {
    var k := DotIndex(s);
    var whole := s[..k];
    var frac := if k < |s| then s[k + 1..] else [];
    if AllDigits(whole) && AllDigits(frac) && |whole| + |frac| > 0 then
      Some(LiteralValue(whole, frac))
    else None
  }

  /** `float(s)` for a plain decimal literal with an optional sign; None where
      Python raises ValueError. */
  function ParseFloat(s: string): (r: Option<real>)
    ensures r.Some? ==> s != []
    ensures r.Some? && r.value < 0.0 ==> s[0] == '-'
    ensures s != [] && s[0] == '-' && r.Some? ==> r.value <= 0.0
  {
    if s != [] && s[0] == '-' then
      match ParseUnsigned(s[1..])
      case Some(v) => Some(-v)
      case None => None
    else if s != [] && s[0] == '+' then ParseUnsigned(s[1..])
    else ParseUnsigned(s)
  }

  /** A leading '-' negates what the rest reads as. */
  lemma ParseFloatNegative(body: string)
    ensures ParseFloat("-" + body)
         == if ParseUnsigned(body).Some? then Some(-ParseUnsigned(body).value) else None
  {
    assert ("-" + body)[0] == '-';
    assert ("-" + body)[1..] == body;
  }

  /** Text that starts with a digit is read without a sign. */
  lemma ParseFloatUnsigned(body: string)
    requires body != [] && IsDigit(body[0])
    ensures ParseFloat(body) == ParseUnsigned(body)
  {
  }

  /** A decimal literal `whole . frac` reads back as its value. */
  lemma ParseUnsignedLiteral(whole: string, frac: string)
    requires whole != [] && AllDigits(whole) && AllDigits(frac)
    ensures ParseUnsigned(whole + "." + frac) == Some(LiteralValue(whole, frac))
  {
    var s := whole + "." + frac;
    DotIndexAfterDigits(whole, "." + frac);
    assert s == whole + ("." + frac);
    var k := DotIndex(s);
    assert k == |whole| < |s|;
    assert s[..k] == whole;
    assert s[k + 1..] == frac;
  }

  /** A run of digits without a '.' reads back as its value. */
  lemma ParseUnsignedWhole(whole: string)
    requires whole != [] && AllDigits(whole)
    ensures ParseUnsigned(whole) == Some(LiteralValue(whole, []))
  {
    DotIndexOfDigits(whole);
    assert whole[..|whole|] == whole;
  }

  lemma {:induction false} DotIndexOfDigits(ds: string)
    requires AllDigits(ds)
    ensures DotIndex(ds) == |ds|
  {
    if ds != [] {
      DotIndexOfDigits(ds[1..]);
    }
  }

  /** The first '.' after a run of digits is the one that ends the run. */
  lemma {:induction false} DotIndexAfterDigits(whole: string, rest: string)
    requires AllDigits(whole)
    requires rest != [] && rest[0] == '.'
    ensures DotIndex(whole + rest) == |whole|
  {
    if whole != [] {
      assert (whole + rest)[0] == whole[0] != '.';
      assert (whole + rest)[1..] == whole[1..] + rest;
      DotIndexAfterDigits(whole[1..], rest);
    } else {
      assert whole + rest == rest;
    }
  }

  // ------------------------------------------------------------ str.lower()

  /** `c.lower()` for ASCII; other characters are left as they are. */
  function Lower(c: char): char
  {
    if 'A' <= c <= 'Z' then (c as int + 32) as char else c
  }

  predicate IsLower(s: string) { forall i :: 0 <= i < |s| ==> !('A' <= s[i] <= 'Z') }

  function LowerString(s: string): (r: string)
    ensures |r| == |s|
    ensures IsLower(r)
    ensures forall i :: 0 <= i < |s| ==> r[i] == Lower(s[i])
  {
    seq(|s|, i requires 0 <= i < |s| => Lower(s[i]))
  }

  /** Lowering a string that has no upper-case ASCII letter changes nothing. */
  lemma LowerStringOfLower(s: string)
    requires IsLower(s)
    ensures LowerString(s) == s
  {
  }
}
