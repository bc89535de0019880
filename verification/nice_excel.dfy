/**
 * NiceExcelFunction: conversion between Excel column letters ("A", "Z", "AA", ...) and 1-based
 * column indexes, the bijective base-26 numeration in which A is 1 and Z is 26.
 */
module NiceExcelFunction {

  /** ASCII upper-casing of one character. */
  function Upper(c: char): (u: char)
    ensures 'a' <= c <= 'z' ==> u as int == c as int - 32
    ensures !('a' <= c <= 'z') ==> u == c
  {
    if 'a' <= c <= 'z' then (c as int - 32) as char else c
  }

  /** The value one character adds: its upper-cased code minus the code of 'A', plus 1. */
  function Digit(c: char): int {
    Upper(c) as int - 'A' as int + 1
  }

  /** The index a column name denotes: `index * 26 + digit`, folded from the left. */
  function ColumnIndex(s: string): int
    decreases |s|
  {
    if s == [] then 0 else ColumnIndex(s[..|s| - 1]) * 26 + Digit(s[|s| - 1])
  }

  /** The letters of column `n`: nothing for 0, otherwise the letters of (n - 1) / 26 followed by the letter of (n - 1) % 26. */
  function ColumnLetters(n: nat): string
    decreases n
  {
    if n == 0 then "" else ColumnLetters((n - 1) / 26) + [(65 + (n - 1) % 26) as char]
  }

  /** A column name in canonical form: upper-case letters 'A'..'Z' only. */
  predicate IsUpperLetters(s: string) {
    forall i | 0 <= i < |s| :: 'A' <= s[i] <= 'Z'
  }

  /** `get_column_index_from_letter`: the loop over the characters of `letters`. */
  method GetColumnIndexFromLetter(letters: string) returns (index: int)
    ensures index == ColumnIndex(letters)
  {
    index := 0;
    for i := 0 to |letters|
      invariant index == ColumnIndex(letters[..i])
    {
      assert letters[..i + 1][..i] == letters[..i];
      index := index * 26 + (Upper(letters[i]) as int - 'A' as int) + 1;
    }
    assert letters[..|letters|] == letters;
  }

  /**
   * `get_column_letter_from_index`: `divmod(index - 1, 26)` repeatedly, prepending the letter of
   * the remainder. A negative index never reaches 0 (floor division keeps it at -1), so only
   * non-negative indexes are accepted.
   */
  method GetColumnLetterFromIndex(n: nat) returns (letters: string)
    ensures letters == ColumnLetters(n)
  {
    letters := "";
    var index := n;
    while index != 0
      invariant ColumnLetters(n) == ColumnLetters(index) + letters
      decreases index
    {
      var quotient, remainder := (index - 1) / 26, (index - 1) % 26;
      assert ColumnLetters(index) == ColumnLetters(quotient) + [(65 + remainder) as char];
      index := quotient;
      letters := [(65 + remainder) as char] + letters;
    }
  }

  /** Every column name produced consists of upper-case letters only. */
  lemma {:induction false} ColumnLettersAreUpper(n: nat)
    ensures IsUpperLetters(ColumnLetters(n))
    decreases n
  {
    if n > 0 {
      ColumnLettersAreUpper((n - 1) / 26);
    }
  }

  /** Appending a character multiplies the index by 26 and adds the character's digit. */
  lemma ColumnIndexAppend(s: string, c: char)
    ensures ColumnIndex(s + [c]) == ColumnIndex(s) * 26 + Digit(c)
  {
    assert (s + [c])[..|s|] == s;
  }

  /** Round trip one way: the letters of any index read back as that index. */
  lemma {:induction false} IndexOfLetters(n: nat)
    ensures ColumnIndex(ColumnLetters(n)) == n
    decreases n
  {
    if n > 0 {
      var q, r := (n - 1) / 26, (n - 1) % 26;
      IndexOfLetters(q);
      ColumnIndexAppend(ColumnLetters(q), (65 + r) as char);
    }
  }

  /** The index of a non-empty upper-case name is at least 1. */
  lemma {:induction false} UpperIndexPositive(s: string)
    requires IsUpperLetters(s)
    ensures ColumnIndex(s) >= 0
    ensures s != [] ==> ColumnIndex(s) >= 1
    decreases |s|
  {
    if s != [] {
      UpperIndexPositive(s[..|s| - 1]);
    }
  }

  /** Round trip the other way: an upper-case name is the name of its own index. */
  lemma {:induction false} LettersOfIndex(s: string)
    requires IsUpperLetters(s)
    ensures ColumnIndex(s) >= 0 && ColumnLetters(ColumnIndex(s)) == s
    decreases |s|
  {
    UpperIndexPositive(s);
    if s != [] {
      var prefix, last := s[..|s| - 1], s[|s| - 1];
      UpperIndexPositive(prefix);
      LettersOfIndex(prefix);
      var q, d := ColumnIndex(prefix), last as int - 65;
      assert ColumnIndex(s) - 1 == q * 26 + d && 0 <= d < 26;
      assert (ColumnIndex(s) - 1) / 26 == q && (ColumnIndex(s) - 1) % 26 == d;
      assert s == prefix + [last];
    }
  }

  /** Reading a name ignores case: upper-casing every character first gives the same index. */
  lemma {:induction false} ColumnIndexIgnoresCase(s: string, t: string)
    requires |s| == |t| && forall i | 0 <= i < |s| :: Upper(s[i]) == Upper(t[i])
    ensures ColumnIndex(s) == ColumnIndex(t)
    decreases |s|
  {
    if s != [] {
      ColumnIndexIgnoresCase(s[..|s| - 1], t[..|t| - 1]);
    }
  }

  /** Two indexes with the same name are equal, and two upper-case names with the same index are equal. */
  lemma ColumnNamingIsBijective(m: nat, n: nat, s: string, t: string)
    ensures ColumnLetters(m) == ColumnLetters(n) ==> m == n
    ensures IsUpperLetters(s) && IsUpperLetters(t) && ColumnIndex(s) == ColumnIndex(t) ==> s == t
  {
    IndexOfLetters(m);
    IndexOfLetters(n);
    if IsUpperLetters(s) && IsUpperLetters(t) {
      LettersOfIndex(s);
      LettersOfIndex(t);
    }
  }

  /** The worked examples, letters to index, including lower case. */
  lemma ColumnIndexExamples()
    ensures ColumnIndex("A") == 1 && ColumnIndex("Z") == 26 && ColumnIndex("AA") == 27
    ensures ColumnIndex("AB") == 28 && ColumnIndex("BA") == 53 && ColumnIndex("ZZ") == 702
    ensures ColumnIndex("ab") == 28
  {
    assert "AA"[..1] == "A" && "AB"[..1] == "A" && "BA"[..1] == "B" && "ZZ"[..1] == "Z" && "ab"[..1] == "a";
    assert ColumnIndex("A") == 1 && ColumnIndex("B") == 2 && ColumnIndex("Z") == 26 && ColumnIndex("a") == 1;
  }

  /** The worked examples, index to letters, and index 0 giving no letters. */
  lemma ColumnLettersExamples()
    ensures ColumnLetters(1) == "A" && ColumnLetters(26) == "Z" && ColumnLetters(27) == "AA"
    ensures ColumnLetters(28) == "AB" && ColumnLetters(53) == "BA" && ColumnLetters(702) == "ZZ"
    ensures ColumnLetters(0) == ""
  {
    assert ColumnLetters(1) == "A";
    assert ColumnLetters(2) == "B";
    assert ColumnLetters(26) == "Z";
    assert ColumnLetters(27) == ColumnLetters(1) + "A";
    assert ColumnLetters(28) == ColumnLetters(1) + "B";
    assert ColumnLetters(53) == ColumnLetters(2) + "A";
    assert ColumnLetters(702) == ColumnLetters(26) + "Z";
  }
}
