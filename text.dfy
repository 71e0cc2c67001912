/** The two string operations the search stage uses: lower-casing and
    substring inclusion (JavaScript's `toLowerCase` and `includes`). */
module Text {

  /** Lower-cases an ASCII capital letter; every other character is kept. */
  function LowerChar(ch: char): char
  {
    if 'A' <= ch <= 'Z' then (ch as int - 'A' as int + 'a' as int) as char else ch
  }

  /** Character-wise lower-casing of a string: the result has the same
      length and contains no ASCII capital letter. */
  function ToLower(s: string): (r: string)
    ensures |r| == |s|
    ensures forall ch :: ch in r ==> !('A' <= ch <= 'Z')
  {
    if s == [] then [] else [LowerChar(s[0])] + ToLower(s[1..])
  }

  /** Lower-casing changes no character that is not an ASCII capital letter. */
  lemma LowerCharKeepsOthers(ch: char)
    ensures !('A' <= ch <= 'Z') ==> LowerChar(ch) == ch
    ensures 'A' <= ch <= 'Z' ==> 'a' <= LowerChar(ch) <= 'z'
  {
  }

  /** Each character of the result is the lower-cased character of the
      input at the same position. */
  lemma {:induction false} ToLowerAt(s: string, i: int)
    requires 0 <= i < |s|
    ensures ToLower(s)[i] == LowerChar(s[i])
    decreases |s|
  {
    if i > 0 {
      ToLowerAt(s[1..], i - 1);
    }
  }

  /** Lower-casing twice is lower-casing once. */
  lemma {:induction false} ToLowerIdempotent(s: string)
    ensures ToLower(ToLower(s)) == ToLower(s)
  {
    var t := ToLower(s);
    forall i | 0 <= i < |t|
      ensures ToLower(t)[i] == t[i]
    {
      ToLowerAt(t, i);
      assert t[i] in t;
      LowerCharKeepsOthers(t[i]);
    }
  }

  /** Lower-casing maps the empty string, and only it, to the empty string. */
  lemma ToLowerEmpty(s: string)
    ensures ToLower(s) == "" <==> s == ""
  {
  }

  /** `sub` occurs in `s` starting at index `i`. */
  predicate OccursAt(s: string, sub: string, i: int)
  {
    0 <= i && i + |sub| <= |s| && s[i..i + |sub|] == sub
  }

  /** `sub` occurs somewhere in `s`. */
  ghost predicate ContainsText(s: string, sub: string)
  {
    exists i :: OccursAt(s, sub, i)
  }

  /** Substring test in the manner of `String.prototype.includes`: try the
      leftmost position first, then move one character to the right. */
  function Includes(s: string, sub: string): bool
    decreases |s|
  {
    if |sub| > |s| then false
    else if s[..|sub|] == sub then true
    else Includes(s[1..], sub)
  }

  /** Dropping the first character moves every occurrence one place left. */
  lemma OccursAtShift(s: string, sub: string, i: int)
    requires |s| > 0 && 0 <= i
    ensures OccursAt(s[1..], sub, i) <==> OccursAt(s, sub, i + 1)
  {
  }


  /** `Includes` holds exactly when `sub` occurs somewhere in `s`. */
  lemma {:induction false} IncludesSpec(s: string, sub: string)
    ensures Includes(s, sub) <==> ContainsText(s, sub)
    decreases |s|
  {
    if |sub| > |s| {
    } else if s[..|sub|] == sub {
      assert OccursAt(s, sub, 0);
    } else {
      IncludesSpec(s[1..], sub);
      forall i | OccursAt(s, sub, i)
        ensures OccursAt(s[1..], sub, i - 1)
      {
        assert s[0..|sub|] == s[..|sub|];
        assert i != 0;
        OccursAtShift(s, sub, i - 1);
      }
      forall i | OccursAt(s[1..], sub, i)
        ensures OccursAt(s, sub, i + 1)
      {
        OccursAtShift(s, sub, i);
      }
    }
  }

  /** Every character of an included string occurs in the including one. */
  lemma IncludedCharsOccur(s: string, sub: string, k: int)
    requires 0 <= k < |sub|
    ensures Includes(s, sub) ==> sub[k] in s
  {
    IncludesSpec(s, sub);
    forall i | OccursAt(s, sub, i)
      ensures sub[k] in s
    {
      assert s[i..i + |sub|][k] == s[i + k];
    }
  }

  /** A query that agrees with the start of a text up to case is included
      in it once both are lower-cased. */
  lemma LoweredPrefixIncluded(text: string, query: string)
    requires |query| <= |text|
    requires forall k :: 0 <= k < |query| ==> LowerChar(text[k]) == LowerChar(query[k])
    ensures Includes(ToLower(text), ToLower(query))
  {
    var lt, lq := ToLower(text), ToLower(query);
    forall k | 0 <= k < |query|
      ensures lt[k] == lq[k]
    {
      ToLowerAt(text, k);
      ToLowerAt(query, k);
    }
    assert lt[..|lq|] == lq;
  }

  /** A query with a letter that no character of the text matches up to
      case is not included in the text once both are lower-cased. */
  lemma LoweredLetterMissing(text: string, query: string, k: int)
    requires 0 <= k < |query|
    requires forall j :: 0 <= j < |text| ==> LowerChar(text[j]) != LowerChar(query[k])
    ensures !Includes(ToLower(text), ToLower(query))
  {
    var lt, lq := ToLower(text), ToLower(query);
    ToLowerAt(query, k);
    forall j | 0 <= j < |lt|
      ensures lt[j] != lq[k]
    {
      ToLowerAt(text, j);
    }
    IncludedCharsOccur(lt, lq, k);
  }
}
