/**
 * Python `str` semantics the tools rely on: `in`, `find`, `replace`, `split`,
 * `rsplit`, `join`, `split()` on whitespace, `lower`, `capitalize`, `zfill`,
 * `startswith`, and the `int(...)` / `float(...)` conversions of decimal text.
 * Case mapping and whitespace are the ASCII ones.
 */
module PyStr {
  import opened Wrappers

  predicate StartsWith(s: string, p: string) { |p| <= |s| && s[..|p|] == p }

  predicate EndsWith(s: string, p: string) { |p| <= |s| && s[|s| - |p|..] == p }

  /** `sub` occurs in `s` starting at index `j`. */
  predicate OccursAt(s: string, sub: string, j: int)
  {
    0 <= j && j + |sub| <= |s| && s[j..j + |sub|] == sub
  }

  lemma OccursAtTail(s: string, sub: string, j: int)
    requires |s| > 0 && j >= 1
    ensures OccursAt(s, sub, j) <==> OccursAt(s[1..], sub, j - 1)
  {
    if j + |sub| <= |s| {
      assert s[1..][j - 1..j - 1 + |sub|] == s[j..j + |sub|];
    }
  }

  /** `s.find(sub)`: the first index at which `sub` occurs, if any. */
  function IndexOf(s: string, sub: string): (r: Option<nat>)
    ensures r.Some? ==> OccursAt(s, sub, r.value)
    ensures r.Some? ==> forall j :: 0 <= j < r.value ==> !OccursAt(s, sub, j)
    ensures r.None? ==> forall j :: !OccursAt(s, sub, j)
    decreases |s|
  {
    if StartsWith(s, sub) then Some(0)
    else if |s| == 0 then None
    else
      var t := IndexOf(s[1..], sub);
      assert forall j :: j >= 1 ==> (OccursAt(s, sub, j) <==> OccursAt(s[1..], sub, j - 1)) by {
        forall j | j >= 1 { OccursAtTail(s, sub, j); }
      }
      assert !OccursAt(s, sub, 0);
      match t
      case None => None
      case Some(i) => Some(i + 1)
  }

  /** Python's `sub in s`. */
  predicate Contains(s: string, sub: string) { IndexOf(s, sub).Some? }

  lemma ContainsAt(s: string, sub: string, j: int)
    requires OccursAt(s, sub, j)
    ensures Contains(s, sub)
  {
  }

  lemma ContainsCharIff(s: string, c: char)
    ensures Contains(s, [c]) <==> c in s
  {
    if c in s {
      var j :| 0 <= j < |s| && s[j] == c;
      assert s[j..j + 1] == [c];
      ContainsAt(s, [c], j);
    }
    if Contains(s, [c]) {
      var j := IndexOf(s, [c]).value;
      assert s[j..j + 1] == [c];
      assert s[j] == c;
    }
  }

  /** Python's `s.replace(pat, rep)`: every occurrence, scanning left to right. */
  function Replace(s: string, pat: string, rep: string): (r: string)
    decreases |s|
  {
    if |pat| == 0 then ReplaceEmpty(s, rep)
    else if |s| < |pat| then s
    else if s[..|pat|] == pat then rep + Replace(s[|pat|..], pat, rep)
    else [s[0]] + Replace(s[1..], pat, rep)
  }

  /** `s.replace('', rep)` inserts `rep` before every character and at the end. */
  function ReplaceEmpty(s: string, rep: string): (r: string)
    ensures |r| == |s| + (|s| + 1) * |rep|
  {
    if |s| == 0 then rep else rep + [s[0]] + ReplaceEmpty(s[1..], rep)
  }

  /** Replacing a text that does not occur leaves the string unchanged. */
  lemma {:induction false} ReplaceAbsent(s: string, pat: string, rep: string)
    requires |pat| > 0 && !Contains(s, pat)
    ensures Replace(s, pat, rep) == s
    decreases |s|
  {
    if |s| >= |pat| {
      assert !OccursAt(s, pat, 0);
      forall j | j >= 0
        ensures !OccursAt(s[1..], pat, j)
      {
        OccursAtTail(s, pat, j + 1);
      }
      ReplaceAbsent(s[1..], pat, rep);
    }
  }

  /** A leading occurrence is replaced, and replacement carries on behind it. */
  lemma ReplaceLeading(pat: string, t: string, rep: string)
    requires |pat| > 0
    ensures Replace(pat + t, pat, rep) == rep + Replace(t, pat, rep)
  {
    assert (pat + t)[..|pat|] == pat;
    assert (pat + t)[|pat|..] == t;
  }

  /** Replacing brings in no character that is in neither the text nor the
      replacement, and a non-empty text stays non-empty under a non-empty
      replacement. */
  lemma {:induction false} ReplaceChars(s: string, pat: string, rep: string)
    requires |pat| > 0
    ensures forall c :: c in Replace(s, pat, rep) ==> c in s || c in rep
    ensures |s| > 0 && |rep| > 0 ==> |Replace(s, pat, rep)| > 0
    decreases |s|
  {
    if |s| >= |pat| {
      if s[..|pat|] == pat {
        ReplaceChars(s[|pat|..], pat, rep);
        assert forall c :: c in s[|pat|..] ==> c in s;
      } else {
        ReplaceChars(s[1..], pat, rep);
        assert forall c :: c in s[1..] ==> c in s;
      }
    }
  }

  /** `s.rfind(c)` for a single character. */
  function LastIndexOfChar(s: string, c: char): (r: Option<nat>)
    ensures r.Some? ==> r.value < |s| && s[r.value] == c && c !in s[r.value + 1..]
    ensures r.None? ==> c !in s
  {
    if |s| == 0 then None
    else if s[|s| - 1] == c then Some(|s| - 1)
    else
      var r := LastIndexOfChar(s[..|s| - 1], c);
      assert s == s[..|s| - 1] + [s[|s| - 1]];
      r
  }

  /** `sep.join(parts)`. */
  function Join(sep: string, parts: seq<string>): (r: string)
  {
    if |parts| == 0 then ""
    else if |parts| == 1 then parts[0]
    else parts[0] + sep + Join(sep, parts[1..])
  }

  /** `s.split(sep)` for a non-empty separator (an empty one raises ValueError). */
  function Split(s: string, sep: string): (r: seq<string>)
    requires |sep| > 0
    ensures |r| >= 1
    decreases |s|
  {
    match IndexOf(s, sep)
    case None => [s]
    case Some(i) => [s[..i]] + Split(s[i + |sep|..], sep)
  }

  /** A text without the separator character splits into itself. */
  lemma SplitNoSep(s: string, c: char)
    requires c !in s
    ensures Split(s, [c]) == [s]
  {
    ContainsCharIff(s, c);
  }

  /** The first separator character is found right after a separator-free prefix. */
  lemma IndexOfAfter(a: string, c: char, b: string)
    requires c !in a
    ensures IndexOf(a + [c] + b, [c]) == Some(|a|)
  {
    var s := a + [c] + b;
    assert s[|a|..|a| + 1] == [c];
    assert OccursAt(s, [c], |a|);
    forall j | 0 <= j < |a|
      ensures !OccursAt(s, [c], j)
    {
      assert s[j] == a[j];
      assert s[j..j + 1] == [s[j]];
    }
  }

  /** Text appended after the first occurrence does not move it. */
  lemma IndexOfPrefix(s: string, sub: string, u: string)
    requires IndexOf(s, sub).Some?
    ensures IndexOf(s + u, sub) == IndexOf(s, sub)
  {
    var i := IndexOf(s, sub).value;
    assert (s + u)[i..i + |sub|] == s[i..i + |sub|];
    assert OccursAt(s + u, sub, i);
    forall j | 0 <= j < i
      ensures !OccursAt(s + u, sub, j)
    {
      assert !OccursAt(s, sub, j);
      assert (s + u)[j..j + |sub|] == s[j..j + |sub|];
    }
    var k := IndexOf(s + u, sub).value;
    assert OccursAt(s + u, sub, k) && k <= i;
    assert k == i;
  }

  /** Appending a separator and a separator-free part adds that part to the split. */
  lemma {:induction false} SplitAppend(s: string, c: char, t: string)
    requires c !in t
    ensures Split(s + [c] + t, [c]) == Split(s, [c]) + [t]
    decreases |s|
  {
    ContainsCharIff(s, c);
    if c !in s {
      IndexOfAfter(s, c, t);
      var w := s + [c] + t;
      assert w[|s| + 1..] == t;
      SplitNoSep(t, c);
      SplitNoSep(s, c);
    } else {
      var i := IndexOf(s, [c]).value;
      IndexOfPrefix(s, [c], [c] + t);
      assert s + [c] + t == s + ([c] + t);
      var w := s + [c] + t;
      assert w[i + 1..] == s[i + 1..] + [c] + t;
      assert w[..i] == s[..i];
      SplitAppend(s[i + 1..], c, t);
    }
  }

  /** Splitting a join of separator-free parts gives the parts back. */
  lemma {:induction false} SplitJoin(parts: seq<string>, c: char)
    requires |parts| >= 1
    requires forall i :: 0 <= i < |parts| ==> c !in parts[i]
    ensures Split(Join([c], parts), [c]) == parts
  {
    if |parts| == 1 {
      SplitNoSep(parts[0], c);
    } else {
      var rest := Join([c], parts[1..]);
      assert Join([c], parts) == parts[0] + [c] + rest;
      IndexOfAfter(parts[0], c, rest);
      var s := parts[0] + [c] + rest;
      assert s[..|parts[0]|] == parts[0];
      assert s[|parts[0]| + 1..] == rest;
      SplitJoin(parts[1..], c);
    }
  }

  /** The characters Python's `str.split()` treats as whitespace (ASCII range). */
  predicate IsSpace(ch: char)
  {
    (9 <= ch as int <= 13) || (28 <= ch as int <= 32)
  }

  /** Length of the leading run of non-whitespace characters. */
  function WordLen(s: string): (n: nat)
    ensures n <= |s|
    ensures forall i :: 0 <= i < n ==> !IsSpace(s[i])
    ensures n < |s| ==> IsSpace(s[n])
  {
    if |s| == 0 || IsSpace(s[0]) then 0 else 1 + WordLen(s[1..])
  }

  /** `s.split()`: the maximal runs of non-whitespace characters. */
  function SplitWs(s: string): seq<string>
    decreases |s|
  {
    if |s| == 0 then []
    else if IsSpace(s[0]) then SplitWs(s[1..])
    else
      var n := WordLen(s);
      [s[..n]] + SplitWs(s[n..])
  }

  predicate NoSpace(s: string)
  {
    forall i :: 0 <= i < |s| ==> !IsSpace(s[i])
  }

  /** A non-empty run of non-whitespace characters. */
  predicate IsWord(w: string)
  {
    |w| > 0 && NoSpace(w)
  }

  /** Every word of `s.split()` is non-empty and holds no whitespace. */
  lemma {:induction false} SplitWsWords(s: string)
    ensures forall i :: 0 <= i < |SplitWs(s)| ==> IsWord(SplitWs(s)[i])
    decreases |s|
  {
    if |s| > 0 {
      if IsSpace(s[0]) {
        SplitWsWords(s[1..]);
        assert SplitWs(s) == SplitWs(s[1..]);
      } else {
        var n := WordLen(s);
        SplitWsWords(s[n..]);
        var t := SplitWs(s[n..]);
        var r := SplitWs(s);
        assert r == [s[..n]] + t;
        assert IsWord(s[..n]);
        forall i | 0 <= i < |r|
          ensures IsWord(r[i])
        {
          if i > 0 {
            assert r[i] == t[i - 1];
          }
        }
      }
    }
  }

  function LowerChar(c: char): char
  {
    if 'A' <= c <= 'Z' then (c as int + 32) as char else c
  }

  function UpperChar(c: char): char
  {
    if 'a' <= c <= 'z' then (c as int - 32) as char else c
  }

  /** `s.lower()`. */
  function Lower(s: string): (r: string)
    ensures |r| == |s|
  {
    if |s| == 0 then "" else [LowerChar(s[0])] + Lower(s[1..])
  }

  /** `s.lower()` lowers each character in place. */
  lemma {:induction false} LowerChars(s: string)
    ensures forall i :: 0 <= i < |s| ==> Lower(s)[i] == LowerChar(s[i])
  {
    if |s| > 0 {
      LowerChars(s[1..]);
      assert forall i :: 1 <= i < |s| ==> Lower(s)[i] == Lower(s[1..])[i - 1];
    }
  }

  /** `w.capitalize()`: first character upper case, the rest lower case. */
  function Capitalize(w: string): (r: string)
    ensures |r| == |w|
  {
    if |w| == 0 then "" else [UpperChar(w[0])] + Lower(w[1..])
  }

  lemma LowerAppend(a: string, b: string)
    ensures Lower(a + b) == Lower(a) + Lower(b)
  {
    LowerChars(a + b);
    LowerChars(a);
    LowerChars(b);
    assert forall i :: 0 <= i < |a + b| ==> Lower(a + b)[i] == (Lower(a) + Lower(b))[i];
  }

  // ---------------------------------------------------------------- numbers

  function DigitChar(d: nat): char
    requires d < 10
  {
    "0123456789"[d]
  }

  predicate IsDigit(c: char) { '0' <= c <= '9' }

  predicate AllDigits(s: string) { forall i :: 0 <= i < |s| ==> IsDigit(s[i]) }

  function DigitValue(c: char): nat
    requires IsDigit(c)
  {
    c as int - '0' as int
  }

  /** The value of a digit string read in base 10. */
  function DigitsValue(s: string): nat
    requires AllDigits(s)
  {
    if |s| == 0 then 0 else DigitsValue(s[..|s| - 1]) * 10 + DigitValue(s[|s| - 1])
  }

  /** `str(n)` for a natural number. */
  function NatToStr(n: nat): (r: string)
    ensures |r| > 0 && AllDigits(r)
  {
    if n < 10 then [DigitChar(n)] else NatToStr(n / 10) + [DigitChar(n % 10)]
  }

  /** `str(i)` for an integer. */
  function IntToStr(i: int): (r: string)
    ensures |r| > 0
  {
    if i < 0 then "-" + NatToStr(-i) else NatToStr(i)
  }

  /** `int(s)` for an optional sign followed by decimal digits; None stands for ValueError. */
  function ParseInt(s: string): Option<int>
  {
    if |s| > 0 && (s[0] == '-' || s[0] == '+') then
      if |s| > 1 && AllDigits(s[1..]) then
        var v: int := DigitsValue(s[1..]);
        Some(if s[0] == '-' then -v else v)
      else None
    else if |s| > 0 && AllDigits(s) then Some(DigitsValue(s))
    else None
  }

  lemma {:induction false} DigitsOfNat(n: nat)
    ensures DigitsValue(NatToStr(n)) == n
  {
    if n >= 10 {
      var s := NatToStr(n);
      assert s[..|s| - 1] == NatToStr(n / 10);
      DigitsOfNat(n / 10);
    }
  }

  /** `int(str(i)) == i`. */
  lemma IntRoundTrip(i: int)
    ensures ParseInt(IntToStr(i)) == Some(i)
  {
    var s := IntToStr(i);
    if i < 0 {
      var t := NatToStr(-i);
      assert s == "-" + t;
      assert s[1..] == t;
      DigitsOfNat(-i);
      var v: int := DigitsValue(t);
      assert ParseInt(s) == Some(-v);
    } else {
      assert s == NatToStr(i);
      assert IsDigit(s[0]);
      DigitsOfNat(i);
      assert ParseInt(s) == Some(DigitsValue(s));
    }
  }

  function Pow10(k: nat): (r: nat)
    ensures r > 0
  {
    if k == 0 then 1 else 10 * Pow10(k - 1)
  }

  lemma DivNonNegative(x: real, y: real)
    requires x >= 0.0 && y > 0.0
    ensures x / y >= 0.0
  {
  }

  /** `float(s)` for decimal text (sign, digits, optional fraction); None stands for ValueError. */
  function ParseReal(s: string): Option<real>
  {
    if |s| > 0 && s[0] == '-' then
      match ParseUnsignedReal(s[1..])
      case None => None
      case Some(v) => Some(-v)
    else if |s| > 0 && s[0] == '+' then ParseUnsignedReal(s[1..])
    else ParseUnsignedReal(s)
  }

  function ParseUnsignedReal(s: string): (r: Option<real>)
    ensures r.Some? ==> r.value >= 0.0
  {
    match IndexOf(s, ".")
    case None =>
      if |s| > 0 && AllDigits(s) then Some(DigitsValue(s) as real) else None
    case Some(d) =>
      var a := s[..d];
      var b := s[d + 1..];
      if AllDigits(a) && AllDigits(b) && |a| + |b| > 0 then
        var frac := DigitsValue(b) as real / Pow10(|b|) as real;
        assert frac >= 0.0 by { DivNonNegative(DigitsValue(b) as real, Pow10(|b|) as real); }
        Some(DigitsValue(a) as real + frac)
      else None
  }

  /** `float(s)`, raising ValueError on text that is not a decimal number. */
  function Float(s: string): (r: Result<real>)
    ensures r.Ok? <==> ParseReal(s).Some?
    ensures r.Ok? ==> r.value == ParseReal(s).value
    ensures r.Err? ==> r.error.ValueError?
  {
    match ParseReal(s)
    case None => Err(ValueError("could not convert string to float"))
    case Some(v) => Ok(v)
  }

  /** `s.zfill(width)`: pad with zeros after an optional sign. */
  function Zfill(s: string, width: nat): (r: string)
    ensures |r| == if |s| >= width then |s| else width
  {
    if |s| >= width then s
    else
      var zeros := seq(width - |s|, _ => '0');
      if |s| > 0 && (s[0] == '+' || s[0] == '-') then [s[0]] + zeros + s[1..]
      else zeros + s
  }

  // ------------------------------------------------------ single characters

  /** With a one-character pattern, replacement works piece by piece. */
  lemma {:induction false} ReplaceCharConcat(a: string, b: string, c: char, rep: string)
    ensures Replace(a + b, [c], rep) == Replace(a, [c], rep) + Replace(b, [c], rep)
    decreases |a|
  {
    if |a| == 0 {
      assert a + b == b;
    } else {
      assert (a + b)[..1] == [a[0]] && a[..1] == [a[0]];
      assert (a + b)[1..] == a[1..] + b;
      ReplaceCharConcat(a[1..], b, c, rep);
    }
  }

  /** Replacing a character that does not occur changes nothing. */
  lemma ReplaceNoChar(s: string, c: char, rep: string)
    requires c !in s
    ensures Replace(s, [c], rep) == s
  {
    ContainsCharIff(s, c);
    ReplaceAbsent(s, [c], rep);
  }

  /** Replacing a character by a text without it removes every occurrence. */
  lemma {:induction false} ReplaceRemoves(s: string, c: char, rep: string)
    requires c !in rep
    ensures c !in Replace(s, [c], rep)
    decreases |s|
  {
    if |s| >= 1 {
      ReplaceRemoves(s[1..], c, rep);
    }
  }

  // ------------------------------------------------------------- whitespace

  /** Text made of whitespace only has no words. */
  lemma {:induction false} SplitWsAllSpace(s: string)
    requires forall i :: 0 <= i < |s| ==> IsSpace(s[i])
    ensures SplitWs(s) == []
    decreases |s|
  {
    if |s| > 0 {
      SplitWsAllSpace(s[1..]);
    }
  }

  /** A non-empty word without whitespace splits into itself. */
  lemma SplitWsWord(w: string)
    requires |w| > 0 && forall i :: 0 <= i < |w| ==> !IsSpace(w[i])
    ensures SplitWs(w) == [w]
  {
    assert WordLen(w) == |w|;
    assert w[..|w|] == w;
  }

  /** Two words separated by one space split into those two words. */
  lemma SplitWsTwoWords(a: string, b: string)
    requires |a| > 0 && forall i :: 0 <= i < |a| ==> !IsSpace(a[i])
    requires |b| > 0 && forall i :: 0 <= i < |b| ==> !IsSpace(b[i])
    ensures SplitWs(a + " " + b) == [a, b]
  {
    var s := a + " " + b;
    assert s[|a|] == ' ';
    assert forall i :: 0 <= i < |a| ==> s[i] == a[i];
    var n := WordLen(s);
    assert n == |a|;
    assert s[..n] == a;
    assert s[n..][1..] == b;
    SplitWsWord(b);
  }

  // --------------------------------------------------------------- ordering

  /** Python's `<=` on strings: code point by code point, a prefix first. */
  predicate StrLe(a: string, b: string)
  {
    |a| == 0 || (|b| > 0 && (a[0] < b[0] || (a[0] == b[0] && StrLe(a[1..], b[1..]))))
  }

  lemma {:induction false} StrLeTotal(a: string, b: string)
    ensures StrLe(a, b) || StrLe(b, a)
  {
    if |a| > 0 && |b| > 0 && a[0] == b[0] {
      StrLeTotal(a[1..], b[1..]);
    }
  }

  lemma {:induction false} StrLeAntisymmetric(a: string, b: string)
    requires StrLe(a, b) && StrLe(b, a)
    ensures a == b
  {
    if |a| > 0 {
      StrLeAntisymmetric(a[1..], b[1..]);
      assert a == [a[0]] + a[1..] && b == [b[0]] + b[1..];
    }
  }

  predicate SortedStr(s: seq<string>)
  {
    forall i :: 0 < i < |s| ==> StrLe(s[i - 1], s[i])
  }

  /** Inserting before the first element not below `x`. */
  function InsertStr(x: string, s: seq<string>): seq<string>
  {
    if |s| == 0 then [x]
    else if StrLe(x, s[0]) then [x] + s
    else [s[0]] + InsertStr(x, s[1..])
  }

  lemma SortedTail(s: seq<string>)
    requires SortedStr(s) && |s| > 0
    ensures SortedStr(s[1..])
  {
    forall i | 0 < i < |s| - 1
      ensures StrLe(s[1..][i - 1], s[1..][i])
    {
      assert s[1..][i - 1] == s[i] && s[1..][i] == s[i + 1];
    }
  }

  /** A sorted list stays sorted with an element in front that is at most its first. */
  lemma ConsSorted(a: string, t: seq<string>)
    requires SortedStr(t) && (|t| > 0 ==> StrLe(a, t[0]))
    ensures SortedStr([a] + t)
  {
    var r := [a] + t;
    forall i | 0 < i < |r|
      ensures StrLe(r[i - 1], r[i])
    {
      if i > 1 {
        assert r[i - 1] == t[i - 2] && r[i] == t[i - 1];
      }
    }
  }

  /** Insertion into a sorted list keeps it sorted and adds exactly `x`. */
  lemma {:induction false} InsertStrSorted(x: string, s: seq<string>)
    requires SortedStr(s)
    ensures SortedStr(InsertStr(x, s)) && multiset(InsertStr(x, s)) == multiset(s) + multiset{x}
    ensures InsertStr(x, s)[0] == x || (|s| > 0 && InsertStr(x, s)[0] == s[0])
  {
    if |s| > 0 && !StrLe(x, s[0]) {
      var t := InsertStr(x, s[1..]);
      StrLeTotal(x, s[0]);
      SortedTail(s);
      InsertStrSorted(x, s[1..]);
      assert InsertStr(x, s) == [s[0]] + t;
      assert StrLe(s[0], t[0]) by {
        if |s| > 1 {
          assert StrLe(s[0], s[1]);
          assert s[1..][0] == s[1];
        }
      }
      ConsSorted(s[0], t);
      assert multiset(InsertStr(x, s)) == multiset(s) + multiset{x} by {
        assert s == [s[0]] + s[1..];
      }
    } else if |s| > 0 {
      ConsSorted(x, s);
    }
  }

  /** Python's `sorted(xs)` and `xs.sort()` on strings (insertion sort). */
  function SortStrings(xs: seq<string>): seq<string>
  {
    if |xs| == 0 then [] else InsertStr(xs[0], SortStrings(xs[1..]))
  }

  /** The sort gives a sorted permutation of its input. */
  lemma {:induction false} SortStringsSorted(xs: seq<string>)
    ensures SortedStr(SortStrings(xs)) && multiset(SortStrings(xs)) == multiset(xs)
  {
    if |xs| > 0 {
      SortStringsSorted(xs[1..]);
      InsertStrSorted(xs[0], SortStrings(xs[1..]));
      assert xs == [xs[0]] + xs[1..];
    }
  }

  /** Sorting a sorted list leaves it as it is, so sorting twice is sorting once. */
  lemma {:induction false} SortSorted(xs: seq<string>)
    requires SortedStr(xs)
    ensures SortStrings(xs) == xs
  {
    if |xs| > 0 {
      var t := xs[1..];
      SortedTail(xs);
      SortSorted(t);
      if |t| > 0 {
        assert StrLe(xs[0], t[0]);
      }
      assert xs == [xs[0]] + t;
    }
  }
}
