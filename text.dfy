/** Case-insensitive substring search, the test behind the text-search filter
    (`str.contains(term, case=False, na=False)`), restricted to ASCII case
    and to terms without regular-expression metacharacters. */
module Text {

  /** ASCII lower-casing of one character. */
  function ToLower(c: char): char
  {
    if 'A' <= c <= 'Z' then (c as int + 32) as char else c
  }

  /** ASCII upper-casing of one character. */
  function ToUpper(c: char): char
  {
    if 'a' <= c <= 'z' then (c as int - 32) as char else c
  }

  function LowerAll(s: string): string
  {
    seq(|s|, i requires 0 <= i < |s| => ToLower(s[i]))
  }

  function UpperAll(s: string): string
  {
    seq(|s|, i requires 0 <= i < |s| => ToUpper(s[i]))
  }

  /** `p` occurs somewhere in `s` as a contiguous block. */
  predicate IsSubstring(p: string, s: string)
    decreases |s|
  {
    p <= s || (s != [] && IsSubstring(p, s[1..]))
  }

  /** The text-search test: the lower-cased term occurs in the lower-cased value. */
  predicate ContainsIgnoringCase(s: string, term: string)
  {
    IsSubstring(LowerAll(term), LowerAll(s))
  }

  /** `p` occurs in `s` starting at offset `i`. */
  predicate OccursAt(p: string, s: string, i: nat)
  {
    i + |p| <= |s| && s[i..i + |p|] == p
  }

  /** IsSubstring means exactly "occurs at some offset". */
  lemma {:induction false} SubstringAt(p: string, s: string, i: nat)
    requires OccursAt(p, s, i)
    ensures IsSubstring(p, s)
    decreases i
  {
    if i > 0 {
      assert s[1..][i - 1..i - 1 + |p|] == s[i..i + |p|];
      SubstringAt(p, s[1..], i - 1);
    } else {
      assert s[..|p|] == p;
    }
  }

  lemma {:induction false} SubstringHasOffset(p: string, s: string)
    requires IsSubstring(p, s)
    ensures exists i: nat :: OccursAt(p, s, i)
    decreases |s|
  {
    if p <= s {
      assert OccursAt(p, s, 0);
    } else {
      SubstringHasOffset(p, s[1..]);
      var i: nat :| OccursAt(p, s[1..], i);
      assert s[i + 1..i + 1 + |p|] == s[1..][i..i + |p|];
      assert OccursAt(p, s, i + 1);
    }
  }

  /** Lower-casing forgets every difference that upper-casing introduces. */
  lemma LowerOfUpper(t: string)
    ensures LowerAll(UpperAll(t)) == LowerAll(t)
  {
    var a, b := LowerAll(UpperAll(t)), LowerAll(t);
    forall i | 0 <= i < |t|
      ensures a[i] == b[i]
    {
      assert UpperAll(t)[i] == ToUpper(t[i]);
    }
  }

  /** The search ignores the case of the term: an upper-cased term finds the same values. */
  lemma CaseOfTermIrrelevant(s: string, t: string)
    ensures ContainsIgnoringCase(s, UpperAll(t)) == ContainsIgnoringCase(s, t)
  {
    LowerOfUpper(t);
  }

  /** The search ignores the case of the searched value as well. */
  lemma CaseOfValueIrrelevant(s: string, t: string)
    ensures ContainsIgnoringCase(UpperAll(s), t) == ContainsIgnoringCase(s, t)
  {
    LowerOfUpper(s);
  }

  /** A term that occurs in the value as written is found. */
  lemma LiteralOccurrenceFound(s: string, t: string, i: nat)
    requires OccursAt(t, s, i)
    ensures ContainsIgnoringCase(s, t)
  {
    var ls, lt := LowerAll(s), LowerAll(t);
    assert ls[i..i + |t|] == lt;
    assert OccursAt(lt, ls, i);
    SubstringAt(lt, ls, i);
  }

  /** The term "vir" finds "virginica" in either case, and does not find "setosa". */
  lemma VirginicaExample()
    ensures ContainsIgnoringCase("virginica", "vir")
    ensures ContainsIgnoringCase("virginica", "VIR")
    ensures !ContainsIgnoringCase("setosa", "vir")
  {
    assert OccursAt("vir", "virginica", 0);
    LiteralOccurrenceFound("virginica", "vir", 0);
    assert UpperAll("vir") == "VIR";
    CaseOfTermIrrelevant("virginica", "vir");
    assert LowerAll("vir") == "vir";
    assert LowerAll("setosa") == "setosa";
    assert "setosa"[1..] == "etosa" && "etosa"[1..] == "tosa" && "tosa"[1..] == "osa" && "osa"[1..] == "sa";
    assert !IsSubstring("vir", "sa");
    assert "osa"[0] != 'v';
    assert !IsSubstring("vir", "osa");
    assert "tosa"[0] != 'v';
    assert !IsSubstring("vir", "tosa");
    assert "etosa"[0] != 'v';
    assert !IsSubstring("vir", "etosa");
    assert "setosa"[0] != 'v';
  }
}
