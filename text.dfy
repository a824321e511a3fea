/** The few string operations of Python the core relies on, over ASCII:
    `str.lower`, `str.isupper`, the substring test `sub in s`, and
    `sep.join(parts)`. Characters outside ASCII are left unchanged by
    `Lower` and count as uncased, as Python does for uncased characters. */
module Text {

  predicate IsUpperChar(c: char) { 'A' <= c <= 'Z' }

  predicate IsLowerChar(c: char) { 'a' <= c <= 'z' }

  function LowerChar(c: char): (r: char)
    ensures !IsUpperChar(r)
    ensures IsUpperChar(c) ==> IsLowerChar(r)
    ensures !IsUpperChar(c) ==> r == c
  {
    if IsUpperChar(c) then (c as int + 32) as char else c
  }

  /** Python's `s.lower()` restricted to ASCII letters. */
  function Lower(s: string): (r: string)
    ensures |r| == |s|
    ensures forall i :: 0 <= i < |s| ==> r[i] == LowerChar(s[i])
  {
    seq(|s|, i requires 0 <= i < |s| => LowerChar(s[i]))
  }

  lemma LowerIdempotent(s: string)
    ensures Lower(Lower(s)) == Lower(s)
  {
    assert forall i :: 0 <= i < |s| ==> Lower(Lower(s))[i] == Lower(s)[i];
  }

  /** Lower-casing changes a text exactly when it has an upper-case
      letter. */
  lemma LowerFixedIff(s: string)
    ensures Lower(s) == s <==> forall i :: 0 <= i < |s| ==> !IsUpperChar(s[i])
  {
    if forall i :: 0 <= i < |s| ==> !IsUpperChar(s[i]) {
      assert forall i :: 0 <= i < |s| ==> Lower(s)[i] == s[i];
    }
  }

  lemma LowerAppend(a: string, b: string)
    ensures Lower(a + b) == Lower(a) + Lower(b)
  {
    assert forall i :: 0 <= i < |a + b| ==> Lower(a + b)[i] == (Lower(a) + Lower(b))[i];
  }

  /** True when `s` has a lower-case letter. */
  predicate HasLower(s: string)
  {
    exists i :: 0 <= i < |s| && IsLowerChar(s[i])
  }

  /** True when `s` has a cased character (a letter, in ASCII). */
  predicate HasCased(s: string)
  {
    exists i :: 0 <= i < |s| && (IsUpperChar(s[i]) || IsLowerChar(s[i]))
  }

  /** Python's `s.isupper()`: there is at least one cased character and
      none of the cased characters is lower case. */
  predicate IsUpper(s: string)
  {
    HasCased(s) && !HasLower(s)
  }

  lemma HasLowerAppend(a: string, b: string)
    ensures HasLower(a + b) <==> HasLower(a) || HasLower(b)
  {
    if HasLower(a + b) {
      var i :| 0 <= i < |a + b| && IsLowerChar((a + b)[i]);
      if i < |a| {
        assert IsLowerChar(a[i]);
      } else {
        assert IsLowerChar(b[i - |a|]);
      }
    }
    if HasLower(a) {
      var i :| 0 <= i < |a| && IsLowerChar(a[i]);
      assert IsLowerChar((a + b)[i]);
    }
    if HasLower(b) {
      var i :| 0 <= i < |b| && IsLowerChar(b[i]);
      assert IsLowerChar((a + b)[|a| + i]);
    }
  }

  lemma HasCasedAppend(a: string, b: string)
    ensures HasCased(a + b) <==> HasCased(a) || HasCased(b)
  {
    if HasCased(a + b) {
      var i :| 0 <= i < |a + b| && (IsUpperChar((a + b)[i]) || IsLowerChar((a + b)[i]));
      if i < |a| {
        assert IsUpperChar(a[i]) || IsLowerChar(a[i]);
      } else {
        assert IsUpperChar(b[i - |a|]) || IsLowerChar(b[i - |a|]);
      }
    }
    if HasCased(a) {
      var i :| 0 <= i < |a| && (IsUpperChar(a[i]) || IsLowerChar(a[i]));
      assert IsUpperChar((a + b)[i]) || IsLowerChar((a + b)[i]);
    }
    if HasCased(b) {
      var i :| 0 <= i < |b| && (IsUpperChar(b[i]) || IsLowerChar(b[i]));
      assert IsUpperChar((a + b)[|a| + i]) || IsLowerChar((a + b)[|a| + i]);
    }
  }

  /** `isupper` of a concatenation: some part has a letter and no part has a
      lower-case letter. */
  lemma IsUpperAppend(a: string, b: string)
    ensures IsUpper(a + b) <==> (HasCased(a) || HasCased(b)) && !HasLower(a) && !HasLower(b)
  {
    HasLowerAppend(a, b);
    HasCasedAppend(a, b);
  }

  /** `isupper` holds exactly when some letter is upper case and no letter is
      lower case. */
  lemma IsUpperMeaning(s: string)
    ensures IsUpper(s) <==>
      (exists i :: 0 <= i < |s| && IsUpperChar(s[i])) &&
      (forall i :: 0 <= i < |s| ==> !IsLowerChar(s[i]))
  {
    if IsUpper(s) {
      var i :| 0 <= i < |s| && (IsUpperChar(s[i]) || IsLowerChar(s[i]));
      assert IsUpperChar(s[i]);
    }
  }

  /** A lower-cased text is never `isupper`. */
  lemma LoweredIsNotUpper(s: string)
    ensures !IsUpper(Lower(s))
  {
    IsUpperMeaning(Lower(s));
  }

  predicate StartsWith(s: string, prefix: string)
  {
    |prefix| <= |s| && s[..|prefix|] == prefix
  }

  /** Python's `sub in s`: `sub` occurs in `s` as a contiguous substring. */
  predicate Contains(s: string, sub: string)
  {
    StartsWith(s, sub) || (s != [] && Contains(s[1..], sub))
  }

  /** `sub` occurs in `s` starting at index `i`. */
  predicate OccursAt(s: string, sub: string, i: int)
  {
    0 <= i <= |s| - |sub| && s[i..i + |sub|] == sub
  }

  lemma {:induction false} ContainsMeaning(s: string, sub: string)
    ensures Contains(s, sub) <==> exists i :: OccursAt(s, sub, i)
  {
    if StartsWith(s, sub) {
      assert OccursAt(s, sub, 0);
    } else if s == [] {
    } else {
      ContainsMeaning(s[1..], sub);
      if Contains(s[1..], sub) {
        var i :| OccursAt(s[1..], sub, i);
        assert s[i + 1..i + 1 + |sub|] == s[1..][i..i + |sub|];
        assert OccursAt(s, sub, i + 1);
      }
      if exists i :: OccursAt(s, sub, i) {
        var i :| OccursAt(s, sub, i);
        assert i != 0;
        assert s[1..][i - 1..i - 1 + |sub|] == s[i..i + |sub|];
        assert OccursAt(s[1..], sub, i - 1);
      }
    }
  }

  /** A word with a character that does not occur in `s` is not in `s`. */
  lemma NotContainedWithoutChar(s: string, sub: string, k: nat)
    requires k < |sub| && sub[k] !in s
    ensures !Contains(s, sub)
  {
    ContainsMeaning(s, sub);
  }

  /** True when some word of `words` occurs in `s` (Python's
      `any(w in s for w in words)`). */
  predicate ContainsAny(s: string, words: seq<string>)
  {
    exists k :: 0 <= k < |words| && Contains(s, words[k])
  }

  /** Python's `any(word in s for word in words)`, evaluated word by word
      and stopping at the first hit. */
  method AnyWordIn(words: seq<string>, s: string) returns (found: bool)
    ensures found <==> ContainsAny(s, words)
  {
    found := false;
    var i := 0;
    while i < |words| && !found
      invariant 0 <= i <= |words|
      invariant found <==> exists k :: 0 <= k < i && Contains(s, words[k])
    {
      found := Contains(s, words[i]);
      i := i + 1;
    }
  }

  /** Python's `sep.join(parts)`. */
  function Join(sep: string, parts: seq<string>): (r: string)
  {
    if parts == [] then ""
    else if |parts| == 1 then parts[0]
    else Join(sep, parts[..|parts| - 1]) + sep + parts[|parts| - 1]
  }

  /** Joining is the concatenation of the parts with exactly one separator
      between neighbours: `len(sep.join(p)) == sum(len) + len(sep) * (n - 1)`. */
  lemma {:induction false} JoinLength(sep: string, parts: seq<string>)
    requires parts != []
    ensures |Join(sep, parts)| == SumLengths(parts) + |sep| * (|parts| - 1)
  {
    if |parts| > 1 {
      JoinLength(sep, parts[..|parts| - 1]);
      SumLengthsSnoc(parts[..|parts| - 1], parts[|parts| - 1]);
      assert parts[..|parts| - 1] + [parts[|parts| - 1]] == parts;
    }
  }

  function SumLengths(parts: seq<string>): nat
  {
    if parts == [] then 0 else |parts[0]| + SumLengths(parts[1..])
  }

  lemma {:induction false} SumLengthsSnoc(parts: seq<string>, p: string)
    ensures SumLengths(parts + [p]) == SumLengths(parts) + |p|
  {
    if parts != [] {
      assert (parts + [p])[1..] == parts[1..] + [p];
      SumLengthsSnoc(parts[1..], p);
    }
  }
}
