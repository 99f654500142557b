/**
 * The string operations the handlers use: ASCII `toLowerCase`, `trim`,
 * `split(',')`, `join`, `includes`, `startsWith` and the `\D` digit filter.
 */
module Text {

  predicate IsDigit(c: char)
  {
    '0' <= c <= '9'
  }

  /** The characters `String.prototype.trim` removes (white space and line terminators). */
  predicate IsWhitespace(c: char)
  {
    c == ' ' || c == '\t' || c == '\n' || c == '\r' || c == '\U{000B}' || c == '\U{000C}'
    || c == '\U{00A0}' || c == '\U{FEFF}' || c == '\U{1680}' || ('\U{2000}' <= c <= '\U{200A}')
    || c == '\U{2028}' || c == '\U{2029}' || c == '\U{202F}' || c == '\U{205F}' || c == '\U{3000}'
  }

  function LowerChar(c: char): char
  {
    if 'A' <= c <= 'Z' then (c as int + 32) as char else c
  }

  /** `toLowerCase`, on the ASCII letters. */
  function Lower(s: string): (r: string)
    ensures |r| == |s|
    ensures forall i :: 0 <= i < |s| ==> r[i] == LowerChar(s[i])
  {
    if s == [] then [] else [LowerChar(s[0])] + Lower(s[1..])
  }

  /** Number of white-space characters at the front of `s`. */
  function LeadingSpace(s: string): (k: nat)
    ensures k <= |s|
    ensures forall i :: 0 <= i < k ==> IsWhitespace(s[i])
    ensures k < |s| ==> !IsWhitespace(s[k])
  {
    if s != [] && IsWhitespace(s[0]) then 1 + LeadingSpace(s[1..]) else 0
  }

  /** Number of white-space characters at the end of `s`. */
  function TrailingSpace(s: string): (k: nat)
    ensures k <= |s|
    ensures forall i :: |s| - k <= i < |s| ==> IsWhitespace(s[i])
    ensures k < |s| ==> !IsWhitespace(s[|s| - 1 - k])
  {
    if s != [] && IsWhitespace(s[|s| - 1]) then 1 + TrailingSpace(s[..|s| - 1]) else 0
  }

  /** `s` without its trailing white space. */
  function TrimEnd(s: string): string
  {
    s[..|s| - TrailingSpace(s)]
  }

  /** `trim`: the slice of `s` between its leading and trailing white space. */
  function Trim(s: string): string
  {
    TrimEnd(s[LeadingSpace(s)..])
  }

  /** What `trim` leaves: a slice of `s` that neither starts nor ends with white space,
      with only white space cut off on either side. */
  lemma TrimIsCore(s: string)
    ensures var r := Trim(s);
            && (r == [] || (!IsWhitespace(r[0]) && !IsWhitespace(r[|r| - 1])))
            && exists a, b :: 0 <= a <= b <= |s| && r == s[a..b]
                              && (forall i :: 0 <= i < a ==> IsWhitespace(s[i]))
                              && (forall i :: b <= i < |s| ==> IsWhitespace(s[i]))
  {
    var a := LeadingSpace(s);
    var t := s[a..];
    var k := TrailingSpace(t);
    var b := a + |t| - k;
    var r := TrimEnd(t);
    assert r == Trim(s);
    assert r == s[a..b];
    forall i | b <= i < |s|
      ensures IsWhitespace(s[i])
    {
      assert s[i] == t[i - a];
    }
    if r != [] {
      assert r[0] == t[0];
      assert |t| > 0 && !IsWhitespace(t[0]);
      assert r[|r| - 1] == t[|t| - 1 - k];
    }
  }

  lemma {:induction false} LowerPreservesSpace(s: string)
    ensures LeadingSpace(Lower(s)) == LeadingSpace(s)
    ensures TrailingSpace(Lower(s)) == TrailingSpace(s)
  {
    var k := LeadingSpace(s);
    var l := Lower(s);
    assert forall i :: 0 <= i < |s| ==> (IsWhitespace(l[i]) <==> IsWhitespace(s[i]));
    LeadingSpaceUnique(l, k);
    TrailingSpaceUnique(l, TrailingSpace(s));
  }

  lemma {:induction false} LeadingSpaceUnique(s: string, k: nat)
    requires k <= |s|
    requires forall i :: 0 <= i < k ==> IsWhitespace(s[i])
    requires k < |s| ==> !IsWhitespace(s[k])
    ensures LeadingSpace(s) == k
  {
    if k > 0 {
      LeadingSpaceUnique(s[1..], k - 1);
    }
  }

  lemma {:induction false} TrailingSpaceUnique(s: string, k: nat)
    requires k <= |s|
    requires forall i :: |s| - k <= i < |s| ==> IsWhitespace(s[i])
    requires k < |s| ==> !IsWhitespace(s[|s| - 1 - k])
    ensures TrailingSpace(s) == k
  {
    if k > 0 {
      TrailingSpaceUnique(s[..|s| - 1], k - 1);
    }
  }

  /** Lower-casing and trimming commute, so `toLowerCase().trim()` and `trim().toLowerCase()` agree. */
  lemma {:induction false} LowerTrimCommute(s: string)
    ensures Lower(Trim(s)) == Trim(Lower(s))
  {
    var t := s[LeadingSpace(s)..];
    TrimLowerSuffix(s);
    TrimEndLower(t);
  }

  /** Lower-casing keeps the leading white space, so the trimmed suffix is the lower-cased one. */
  lemma TrimLowerSuffix(s: string)
    ensures Trim(Lower(s)) == TrimEnd(Lower(s[LeadingSpace(s)..]))
  {
    LowerPreservesSpace(s);
    LowerSuffix(s, LeadingSpace(s));
  }

  /** ... and the trailing white space, so cutting it commutes with lower-casing. */
  lemma TrimEndLower(t: string)
    ensures TrimEnd(Lower(t)) == Lower(TrimEnd(t))
  {
    var n := |t| - TrailingSpace(t);
    assert |Lower(t)| - TrailingSpace(Lower(t)) == n by {
      LowerPreservesSpace(t);
    }
    LowerPrefix(t, n);
  }

  lemma LowerSuffix(s: string, a: nat)
    requires a <= |s|
    ensures Lower(s[a..]) == Lower(s)[a..]
  {
  }

  lemma LowerPrefix(s: string, n: nat)
    requires n <= |s|
    ensures Lower(s[..n]) == Lower(s)[..n]
  {
  }

  predicate StartsWith(s: string, prefix: string)
  {
    |prefix| <= |s| && s[..|prefix|] == prefix
  }

  /** `sub` occurs in `s` starting at index `i`. */
  predicate OccursAt(s: string, sub: string, i: nat)
  {
    i + |sub| <= |s| && s[i..i + |sub|] == sub
  }

  /** `s.includes(sub)`. */
  function Contains(s: string, sub: string): (b: bool)
    ensures b <==> exists i: nat :: OccursAt(s, sub, i)
    decreases |s|
  {
    if |sub| > |s| then false
    else if s[..|sub|] == sub then
      assert OccursAt(s, sub, 0);
      true
    else
      var r := Contains(s[1..], sub);
      assert forall i: nat :: OccursAt(s[1..], sub, i) <==> OccursAt(s, sub, i + 1) by {
        forall i: nat ensures OccursAt(s[1..], sub, i) <==> OccursAt(s, sub, i + 1) {
          if i + 1 + |sub| <= |s| {
            assert s[1..][i..i + |sub|] == s[i + 1..i + 1 + |sub|];
          }
        }
      }
      assert (exists i: nat :: OccursAt(s, sub, i)) ==> r by {
        if exists i: nat :: OccursAt(s, sub, i) {
          var i: nat :| OccursAt(s, sub, i);
          assert i != 0;
          assert OccursAt(s[1..], sub, i - 1);
        }
      }
      r
  }

  /** `parts.join(sep)`. */
  function Join(parts: seq<string>, sep: string): string
  {
    if |parts| == 0 then ""
    else if |parts| == 1 then parts[0]
    else parts[0] + sep + Join(parts[1..], sep)
  }

  /** `s.split(sep)` for a one-character separator: never empty, `""` splits into `[""]`. */
  function Split(s: string, sep: char): (parts: seq<string>)
    ensures |parts| >= 1
    ensures forall i :: 0 <= i < |parts| ==> sep !in parts[i]
    ensures Join(parts, [sep]) == s
  {
    if s == [] then [""]
    else
      var rest := Split(s[1..], sep);
      if s[0] == sep then
        assert Join([""] + rest, [sep]) == [sep] + Join(rest, [sep]) by {
          assert ([""] + rest)[1..] == rest;
        }
        [""] + rest
      else
        var parts := [[s[0]] + rest[0]] + rest[1..];
        assert Join(parts, [sep]) == [s[0]] + Join(rest, [sep]) by {
          if |rest| > 1 {
            assert parts[1..] == rest[1..];
            assert Join(rest, [sep]) == rest[0] + [sep] + Join(rest[1..], [sep]);
          }
        }
        parts
  }

  /** Splitting undoes joining when no part contains the separator. */
  lemma {:induction false} SplitJoin(parts: seq<string>, sep: char)
    requires |parts| >= 1
    requires forall i :: 0 <= i < |parts| ==> sep !in parts[i]
    ensures Split(Join(parts, [sep]), sep) == parts
  {
    if |parts| == 1 {
      SplitPlain(parts[0], sep);
    } else {
      var rest := Join(parts[1..], [sep]);
      assert forall i :: 0 <= i < |parts| - 1 ==> parts[1..][i] == parts[i + 1];
      SplitJoin(parts[1..], sep);
      SplitAfter(parts[0], rest, sep);
      assert Join(parts, [sep]) == parts[0] + [sep] + rest;
      assert [parts[0]] + parts[1..] == parts;
    }
  }

  lemma {:induction false} SplitPlain(w: string, sep: char)
    requires sep !in w
    ensures Split(w, sep) == [w]
  {
    if w != [] {
      SplitPlain(w[1..], sep);
    }
  }

  lemma {:induction false} SplitAfter(w: string, rest: string, sep: char)
    requires sep !in w
    ensures Split(w + [sep] + rest, sep) == [w] + Split(rest, sep)
  {
    if w == [] {
      assert w + [sep] + rest == [sep] + rest;
      assert ([sep] + rest)[1..] == rest;
    } else {
      var whole := w + [sep] + rest;
      assert whole[1..] == w[1..] + [sep] + rest;
      SplitAfter(w[1..], rest, sep);
      var tail := Split(whole[1..], sep);
      assert tail[0] == w[1..] && tail[1..] == Split(rest, sep);
      assert whole[0] == w[0] && w[0] != sep;
      assert Split(whole, sep) == [[w[0]] + tail[0]] + tail[1..];
      assert [w[0]] + w[1..] == w;
    }
  }

  /** `s.split(sep)[0]`: the text before the first `sep`, or all of `s` when there is none. */
  function BeforeFirst(s: string, sep: char): (r: string)
    ensures sep !in r
    ensures StartsWith(s, r)
    ensures |r| < |s| ==> s[|r|] == sep
  {
    var parts := Split(s, sep);
    if |parts| > 1 then
      assert s == parts[0] + [sep] + Join(parts[1..], [sep]);
      parts[0]
    else
      parts[0]
  }

  /** `s.replace(/\D/g, '')`: the decimal digits of `s`, in order. */
  function KeepDigits(s: string): (r: string)
    ensures forall i :: 0 <= i < |r| ==> IsDigit(r[i])
    ensures |r| <= |s|
  {
    if s == [] then ""
    else if IsDigit(s[0]) then [s[0]] + KeepDigits(s[1..])
    else KeepDigits(s[1..])
  }

  /** The digit filter distributes over concatenation, ... */
  lemma {:induction false} KeepDigitsAppend(s: string, t: string)
    ensures KeepDigits(s + t) == KeepDigits(s) + KeepDigits(t)
  {
    if s == [] {
      assert s + t == t;
    } else {
      assert (s + t)[1..] == s[1..] + t;
      KeepDigitsAppend(s[1..], t);
    }
  }

  /** ... and leaves a string of digits as it is. */
  lemma {:induction false} KeepDigitsOfDigits(s: string)
    requires forall i :: 0 <= i < |s| ==> IsDigit(s[i])
    ensures KeepDigits(s) == s
  {
    if s != [] {
      KeepDigitsOfDigits(s[1..]);
    }
  }

  /** `s.replace(/\+/g, '')`. */
  function RemoveChar(s: string, c: char): (r: string)
    ensures c !in r
  {
    if s == [] then ""
    else if s[0] == c then RemoveChar(s[1..], c)
    else [s[0]] + RemoveChar(s[1..], c)
  }

  /** Removing a non-digit before filtering digits changes nothing. */
  lemma {:induction false} RemoveNonDigitFirst(s: string, c: char)
    requires !IsDigit(c)
    ensures KeepDigits(RemoveChar(s, c)) == KeepDigits(s)
  {
    if s != [] {
      RemoveNonDigitFirst(s[1..], c);
      if s[0] != c {
        assert ([s[0]] + RemoveChar(s[1..], c))[1..] == RemoveChar(s[1..], c);
      }
    }
  }
}
