/** Case folding and substring search on strings, as the webhook uses them to
    decide whether a reply closes the conversation (`toLowerCase` followed by
    `includes`). */
module Text {

  /** The upper-case letters this model folds: ASCII 'A'..'Z' and the Latin-1
      capitals U+00C0..U+00DE except the multiplication sign U+00D7. */
  predicate IsUpperLatin1(c: char) {
    ('A' <= c <= 'Z') || ('À' <= c <= 'Þ' && c != '×')
  }

  /** Lower-case form of one character; every folded capital sits 32 code
      points below its small letter. */
  function LowerChar(c: char): char {
    if IsUpperLatin1(c) then (c as int + 32) as char else c
  }

  /** `s.toLowerCase()`, restricted to the letters `LowerChar` folds. */
  function Lower(s: string): (r: string)
    ensures |r| == |s|
    ensures forall i :: 0 <= i < |s| ==> r[i] == LowerChar(s[i])
  {
    if s == [] then [] else [LowerChar(s[0])] + Lower(s[1..])
  }

  /** The small letters that have a folded capital: ASCII 'a'..'z' and the
      Latin-1 small letters U+00E0..U+00FE except the division sign U+00F7. */
  predicate IsSmallLatin1(c: char) {
    ('a' <= c <= 'z') || ('à' <= c <= 'þ' && c != '÷')
  }

  /** The capital that `LowerChar` folds onto a small letter. */
  function UpperChar(c: char): char {
    if IsSmallLatin1(c) then (c as int - 32) as char else c
  }

  /** Capitalises every small letter that has a folded capital. */
  function Upper(s: string): (r: string)
    ensures |r| == |s|
    ensures forall i :: 0 <= i < |s| ==> r[i] == UpperChar(s[i])
  {
    if s == [] then [] else [UpperChar(s[0])] + Upper(s[1..])
  }

  /** Every small letter has a capital that folds back onto it, and every
      capital is the capital of the letter it folds to. */
  lemma CaseRoundTrip(c: char)
    ensures IsSmallLatin1(c) ==> IsUpperLatin1(UpperChar(c)) && LowerChar(UpperChar(c)) == c
    ensures IsUpperLatin1(c) ==> IsSmallLatin1(LowerChar(c)) && UpperChar(LowerChar(c)) == c
  {
  }

  /** Capitalising a string first does not change its lower-case form. */
  lemma LowerOfUpper(s: string)
    ensures Lower(Upper(s)) == Lower(s)
  {
    var l, u := Lower(Upper(s)), Lower(s);
    forall k | 0 <= k < |s| ensures l[k] == u[k] {
      CaseRoundTrip(s[k]);
    }
  }

  /** Lower-casing a concatenation lower-cases each part. */
  lemma LowerAppend(a: string, b: string)
    ensures Lower(a + b) == Lower(a) + Lower(b)
  {
    var l, r := Lower(a + b), Lower(a) + Lower(b);
    forall k | 0 <= k < |a + b| ensures l[k] == r[k] {
      assert (a + b)[k] == if k < |a| then a[k] else b[k - |a|];
    }
  }

  /** Every character of `s` is already in lower case. */
  predicate IsLowerCase(s: string) {
    forall i :: 0 <= i < |s| ==> !IsUpperLatin1(s[i])
  }

  /** `m` occurs in `s` starting at index `i`. */
  predicate OccursAt(s: string, m: string, i: int) {
    0 <= i && i + |m| <= |s| && s[i..i + |m|] == m
  }

  /** `s.includes(m)`: scans `s` from the left for an occurrence of `m`. The
      empty string is found in every text, and nothing longer than the text is
      found in it. */
  function Contains(s: string, m: string): (r: bool)
    ensures m == [] ==> r
    ensures r ==> |m| <= |s|
    decreases |s|
  {
    if |m| > |s| then false
    else if s[..|m|] == m then true
    else Contains(s[1..], m)
  }

  /** The scan finds an occurrence exactly when one exists. */
  lemma {:induction false} ContainsIff(s: string, m: string)
    ensures Contains(s, m) <==> exists i :: OccursAt(s, m, i)
    decreases |s|
  {
    if |m| > |s| {
    } else if s[..|m|] == m {
      assert OccursAt(s, m, 0);
    } else {
      ContainsIff(s[1..], m);
      if Contains(s[1..], m) {
        var j :| OccursAt(s[1..], m, j);
        assert s[1..][j..j + |m|] == s[j + 1..j + 1 + |m|];
        assert OccursAt(s, m, j + 1);
      } else {
        forall i | OccursAt(s, m, i) ensures false {
          assert i != 0;
          assert s[1..][i - 1..i - 1 + |m|] == s[i..i + |m|];
          assert OccursAt(s[1..], m, i - 1);
        }
      }
    }
  }

  /** Any string found between two others is contained in their concatenation. */
  lemma ContainsInside(a: string, m: string, b: string)
    ensures Contains(a + m + b, m)
  {
    var s := a + m + b;
    assert s[|a|..|a| + |m|] == m;
    assert OccursAt(s, m, |a|);
    ContainsIff(s, m);
  }

  /** A string longer than the text never occurs in it. */
  lemma ContainsTooLong(s: string, m: string)
    requires |s| < |m|
    ensures !Contains(s, m)
  {
  }

  /** Lower-casing is character by character, so an occurrence survives it. */
  lemma LowerOccurs(s: string, m: string, i: int)
    requires OccursAt(s, m, i)
    ensures OccursAt(Lower(s), Lower(m), i)
  {
    var ls, lm := Lower(s), Lower(m);
    forall k | 0 <= k < |m| ensures ls[i..i + |m|][k] == lm[k] {
      assert s[i..i + |m|][k] == m[k];
    }
    assert ls[i..i + |m|] == lm;
  }

  /** A pattern without capitals still occurs after the text is lower-cased. */
  lemma LowerKeepsContained(s: string, m: string)
    requires IsLowerCase(m)
    requires Contains(s, m)
    ensures Contains(Lower(s), m)
  {
    ContainsIff(s, m);
    var i :| OccursAt(s, m, i);
    LowerOccurs(s, m, i);
    LowerOfLowerCase(m);
    ContainsIff(Lower(s), m);
  }

  /** A string with no capitals is left alone by lower-casing. */
  lemma LowerOfLowerCase(s: string)
    requires IsLowerCase(s)
    ensures Lower(s) == s
  {
    var r := Lower(s);
    forall k | 0 <= k < |s| ensures r[k] == s[k] {
    }
  }

  /** Lower-casing produces no capitals, so doing it twice changes nothing. */
  lemma LowerIdempotent(s: string)
    ensures IsLowerCase(Lower(s))
    ensures Lower(Lower(s)) == Lower(s)
  {
    var r := Lower(s);
    forall k | 0 <= k < |r| ensures !IsUpperLatin1(r[k]) {
      assert r[k] == LowerChar(s[k]);
    }
    LowerOfLowerCase(r);
  }
}
