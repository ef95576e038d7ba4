/**
  Character classes that the two validators depend on.

  The server (Python) and the client (JavaScript) disagree on what a digit and
  what whitespace is:
  - `str.isdigit` accepts every character whose Unicode numeric type is Digit
    or Decimal (superscript two, for one);
  - the regular-expression class `\d` of Python's `re` on `str` accepts only
    the Unicode decimal digits (category Nd);
  - `\d` and `\D` of JavaScript regular expressions are ASCII '0'..'9' only;
  - `str.strip()` and `String.prototype.trim` remove two different sets of
    whitespace characters.
  The Unicode tables themselves are not encoded: the classes are parameters,
  constrained only by the inclusions every version of those tables satisfies.
*/
module Chars {
  predicate IsAsciiDigit(c: char) {
    '0' <= c <= '9'
  }

  /** Every character of s belongs to cs. */
  predicate AllIn(s: string, cs: set<char>) {
    forall i :: 0 <= i < |s| ==> s[i] in cs
  }

  /** Every character of s is an ASCII digit. */
  predicate AllAsciiDigits(s: string) {
    forall i :: 0 <= i < |s| ==> IsAsciiDigit(s[i])
  }

  lemma AllInConcat(a: string, b: string, cs: set<char>)
    requires AllIn(a, cs) && AllIn(b, cs)
    ensures AllIn(a + b, cs)
  {
    forall i | 0 <= i < |a + b| ensures (a + b)[i] in cs {
      if i >= |a| {
        assert (a + b)[i] == b[i - |a|];
      }
    }
  }

  /** Concatenation regroups freely. */
  lemma Regroup(x: string, y: string, z: string)
    ensures x + (y + z) == (x + y) + z
  {
  }

  /**
    decimal: what `\d` matches in Python's `re` (Unicode category Nd);
    digit:   what `str.isdigit` accepts;
    pySpace: what `str.strip()` removes;
    jsSpace: what `String.prototype.trim` removes.
  */
  datatype CharClasses = CharClasses(decimal: set<char>, digit: set<char>, pySpace: set<char>, jsSpace: set<char>)
  {
    /** The inclusions Unicode guarantees: ASCII digits are decimal digits,
        decimal digits are digits, and no digit is whitespace. */
    predicate Valid() {
      && (forall c :: IsAsciiDigit(c) ==> c in decimal)
      && decimal <= digit
      && digit !! pySpace
      && (forall c :: IsAsciiDigit(c) ==> c !in jsSpace)
    }
  }
}
