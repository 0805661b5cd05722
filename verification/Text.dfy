/** The few string operations of the Python services that decide something, on ASCII letters. */
module Text {

  function UpperChar(c: char): char {
    if 'a' <= c <= 'z' then c - 'a' + 'A' else c
  }

  function LowerChar(c: char): char {
    if 'A' <= c <= 'Z' then c - 'A' + 'a' else c
  }

  function Upper(s: string): (r: string)
    ensures |r| == |s|
  {
    seq(|s|, i requires 0 <= i < |s| => UpperChar(s[i]))
  }

  function Lower(s: string): (r: string)
    ensures |r| == |s|
  {
    seq(|s|, i requires 0 <= i < |s| => LowerChar(s[i]))
  }

  /** str.strip: blanks at both ends. */
  function Strip(s: string): string {
    if s == "" then s
    else if IsBlank(s[0]) then Strip(s[1..])
    else if IsBlank(s[|s| - 1]) then Strip(s[..|s| - 1])
    else s
  }

  predicate IsBlank(c: char) {
    c in {' ', '\t', '\n', '\r'}
  }

  /** Python's needle in haystack. */
  predicate Contains(haystack: string, needle: string) {
    needle <= haystack || (haystack != "" && Contains(haystack[1..], needle))
  }

  /** Only letters change case, and changing it again changes nothing more. */
  lemma CaseMeaning(s: string)
    ensures forall i :: 0 <= i < |s| ==>
              Upper(s)[i] as int == if 'a' <= s[i] <= 'z' then s[i] as int - 32 else s[i] as int
    ensures forall i :: 0 <= i < |s| ==>
              Lower(s)[i] as int == if 'A' <= s[i] <= 'Z' then s[i] as int + 32 else s[i] as int
    ensures Upper(Upper(s)) == Upper(s) && Lower(Upper(s)) == Lower(s)
  {
  }

  /** s is core with nothing but blanks around it. */
  predicate IsPadded(s: string, before: nat, core: string) {
    && before + |core| <= |s| && s[before..before + |core|] == core
    && forall i :: 0 <= i < |s| && (i < before || before + |core| <= i) ==> s[i] in {' ', '\t', '\n', '\r'}
  }

  lemma PaddedInFront(s: string, b: nat, core: string)
    requires s != "" && IsBlank(s[0]) && IsPadded(s[1..], b, core)
    ensures IsPadded(s, b + 1, core)
  {
    assert s[b + 1..b + 1 + |core|] == s[1..][b..b + |core|];
    assert forall i :: 0 < i < |s| ==> s[i] == s[1..][i - 1];
  }

  lemma PaddedBehind(s: string, b: nat, core: string)
    requires s != "" && IsBlank(s[|s| - 1]) && IsPadded(s[..|s| - 1], b, core)
    ensures IsPadded(s, b, core)
  {
    assert s[b..b + |core|] == s[..|s| - 1][b..b + |core|];
    assert forall i :: 0 <= i < |s| - 1 ==> s[i] == s[..|s| - 1][i];
  }

  /** What strip removes is blank, and what it leaves has no blank at either end. */
  lemma {:induction false} StripMeaning(s: string) returns (before: nat)
    ensures IsPadded(s, before, Strip(s))
    ensures var core := Strip(s);
            core == "" || (core[0] !in {' ', '\t', '\n', '\r'} && core[|core| - 1] !in {' ', '\t', '\n', '\r'})
  {
    before := 0;
    assert s[0..|s|] == s;
    if s != "" {
      hide IsPadded;
      if IsBlank(s[0]) {
        var rest := s[1..];
        var b := StripMeaning(rest);
        before := b + 1;
        PaddedInFront(s, b, Strip(rest));
      } else if IsBlank(s[|s| - 1]) {
        before := StripMeaning(s[..|s| - 1]);
        PaddedBehind(s, before, Strip(s[..|s| - 1]));
      }
    }
  }

  /** Blanks around a name do not matter. */
  lemma {:induction false} StripIgnoresBlanks(s: string)
    ensures Strip(" " + s) == Strip(s) && Strip(s + " ") == Strip(s)
  {
    assert (" " + s)[1..] == s;
    if s == "" {
      assert s + " " == " " + s;
    } else if IsBlank(s[0]) {
      StripIgnoresBlanks(s[1..]);
      assert (s + " ")[1..] == s[1..] + " ";
    } else {
      assert (s + " ")[..|s + " "| - 1] == s;
    }
  }

  ghost predicate OccursAt(haystack: string, needle: string, i: nat) {
    i + |needle| <= |haystack| && haystack[i..i + |needle|] == needle
  }

  ghost predicate Occurs(haystack: string, needle: string) {
    exists i: nat :: OccursAt(haystack, needle, i)
  }

  lemma OccursInTail(haystack: string, needle: string, i: nat)
    requires haystack != ""
    ensures OccursAt(haystack, needle, i + 1) <==> OccursAt(haystack[1..], needle, i)
  {
    if i + 1 + |needle| <= |haystack| {
      var a, b := haystack[i + 1..i + 1 + |needle|], haystack[1..][i..i + |needle|];
      assert |a| == |b| && forall j :: 0 <= j < |a| ==> a[j] == b[j];
      assert a == b;
    }
  }

  lemma {:induction false} ContainsMeaning(haystack: string, needle: string)
    ensures Contains(haystack, needle) <==> Occurs(haystack, needle)
  {
    assert OccursAt(haystack, needle, 0) <==> needle <= haystack;
    if haystack != "" {
      ContainsMeaning(haystack[1..], needle);
      forall i: nat ensures OccursAt(haystack[1..], needle, i) <==> OccursAt(haystack, needle, i + 1) {
        OccursInTail(haystack, needle, i);
      }
      hide OccursAt;
      assert forall i: nat :: OccursAt(haystack, needle, i) ==> i == 0 || OccursAt(haystack[1..], needle, i - 1);
    }
  }
}
