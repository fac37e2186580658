/** Decimal numbers and separated text, as the standard library of the source's
    language reads and writes them. */
module Texts {
  predicate IsDigit(c: char) {
    '0' <= c <= '9'
  }

  ghost predicate AllDigits(s: string) {
    forall i :: 0 <= i < |s| ==> IsDigit(s[i])
  }

  function Digit(d: nat): (c: char)
    requires d < 10
    ensures IsDigit(c) && DigitValue(c) == d
  {
    (('0' as int) + d) as char
  }

  function DigitValue(c: char): nat {
    if IsDigit(c) then (c as int) - ('0' as int) else 0
  }

  /** Decimal value of a digit string, most significant digit first. */
  function Decimal(s: string): nat {
    if s == "" then 0 else Decimal(s[..|s| - 1]) * 10 + DigitValue(s[|s| - 1])
  }

  function Format(n: nat): string {
    if n < 10 then [Digit(n)] else Format(n / 10) + [Digit(n % 10)]
  }

  /** Text split at every occurrence of `sep`; always at least one part. */
  function Split(s: string, sep: char): (parts: seq<string>)
    ensures parts != []
  {
    if s == "" then [""]
    else if s[0] == sep then [""] + Split(s[1..], sep)
    else
      var rest := Split(s[1..], sep);
      [[s[0]] + rest[0]] + rest[1..]
  }

  function Join(parts: seq<string>, sep: string): string {
    if parts == [] then ""
    else if |parts| == 1 then parts[0]
    else parts[0] + sep + Join(parts[1..], sep)
  }

  /** White space up to Latin-1. */
  predicate IsSpace(c: char) {
    c == ' ' || '\t' <= c <= '\r' || c == '\U{85}' || c == '\U{A0}'
  }

  predicate Blank(s: string) {
    forall i :: 0 <= i < |s| ==> IsSpace(s[i])
  }

  /** Letter case of ASCII. */
  function LowerChar(c: char): char {
    if 'A' <= c <= 'Z' then ((c as int) + 32) as char else c
  }

  function Lower(s: string): (t: string)
    ensures |t| == |s| && forall i :: 0 <= i < |s| ==> t[i] == LowerChar(s[i])
  {
    if s == "" then "" else [LowerChar(s[0])] + Lower(s[1..])
  }

  function Upper(s: string): string {
    if s == "" then "" else [if 'a' <= s[0] <= 'z' then ((s[0] as int) - 32) as char else s[0]] + Upper(s[1..])
  }

  /** The 26 letters have both cases, and nothing else changes. */
  lemma LettersHaveTwoCases(c: char)
    ensures 'A' <= c <= 'Z' ==> 'a' <= LowerChar(c) <= 'z' && Upper([LowerChar(c)]) == [c]
    ensures 'a' <= c <= 'z' ==>
              LowerChar(c) == c && |Upper([c])| == 1 && LowerChar(Upper([c])[0]) == c && Upper([c]) != [c]
    ensures !('A' <= c <= 'Z') && !('a' <= c <= 'z') ==> LowerChar(c) == c && Upper([c]) == [c]
  {
    assert [c][1..] == [] && [LowerChar(c)][1..] == [];
  }

  /** Without white space at either end. */
  function Trim(s: string): string {
    if s == "" then ""
    else if IsSpace(s[0]) then Trim(s[1..])
    else if IsSpace(s[|s| - 1]) then Trim(s[..|s| - 1])
    else s
  }

  // ---------------------------------------------------------------------
  // Numbers read back what was written
  // ---------------------------------------------------------------------

  lemma DecimalAppend(s: string, c: char)
    ensures Decimal(s + [c]) == Decimal(s) * 10 + DigitValue(c)
  {
    assert (s + [c])[..|s|] == s;
  }

  lemma {:induction false} FormatReadsBack(n: nat)
    ensures Format(n) != "" && AllDigits(Format(n)) && Decimal(Format(n)) == n
  {
    if n < 10 {
      DecimalAppend("", Digit(n));
      assert "" + [Digit(n)] == Format(n);
    } else {
      FormatReadsBack(n / 10);
      DecimalAppend(Format(n / 10), Digit(n % 10));
    }
  }

  lemma NotInFormat(n: nat, c: char)
    requires !IsDigit(c)
    ensures c !in Format(n)
  {
    FormatReadsBack(n);
  }

  // ---------------------------------------------------------------------
  // Splitting undoes joining
  // ---------------------------------------------------------------------

  lemma {:induction false} SplitPlain(s: string, sep: char)
    requires sep !in s
    ensures Split(s, sep) == [s]
  {
    if s != "" {
      SplitPlain(s[1..], sep);
      assert [s[0]] + s[1..] == s;
    }
  }

  lemma SplitCons(c: char, s: string, sep: char)
    ensures Split([c] + s, sep)
            == if c == sep then [""] + Split(s, sep) else [[c] + Split(s, sep)[0]] + Split(s, sep)[1..]
  {
    assert ([c] + s)[1..] == s;
  }

  lemma {:induction false} SplitConcat(a: string, b: string, sep: char)
    ensures Split(a + [sep] + b, sep) == Split(a, sep) + Split(b, sep)
  {
    if a == "" {
      assert a + [sep] + b == [sep] + b;
      SplitCons(sep, b, sep);
    } else {
      SplitConcat(a[1..], b, sep);
      SplitConcatCons(a[0], a[1..], b, sep);
      assert a == [a[0]] + a[1..];
    }
  }

  lemma SplitConcatCons(c: char, a: string, b: string, sep: char)
    requires Split(a + [sep] + b, sep) == Split(a, sep) + Split(b, sep)
    ensures Split([c] + a + [sep] + b, sep) == Split([c] + a, sep) + Split(b, sep)
  {
    assert [c] + a + [sep] + b == [c] + (a + [sep] + b);
    SplitCons(c, a + [sep] + b, sep);
    SplitCons(c, a, sep);
    PutBefore(Split(a, sep), Split(b, sep), [c]);
  }

  lemma PutBefore(parts: seq<string>, more: seq<string>, s: string)
    requires parts != []
    ensures (parts + more)[0] == parts[0] && (parts + more)[1..] == parts[1..] + more
    ensures [s + (parts + more)[0]] + (parts + more)[1..] == [s + parts[0]] + parts[1..] + more
    ensures [""] + (parts + more) == [""] + parts + more
  {
  }

  lemma {:induction false} JoinUndoesSplit(s: string, sep: char)
    ensures Join(Split(s, sep), [sep]) == s
  {
    if s != "" {
      var rest := Split(s[1..], sep);
      JoinUndoesSplit(s[1..], sep);
      assert [s[0]] + s[1..] == s;
      var parts := Split(s, sep);
      assert parts[1..] == if s[0] == sep then rest else rest[1..];
      if |rest| == 1 { assert rest[1..] == []; }
    }
  }

  lemma {:induction false} SplitUndoesJoin(parts: seq<string>, sep: char)
    requires parts != [] && forall i :: 0 <= i < |parts| ==> sep !in parts[i]
    ensures Split(Join(parts, [sep]), sep) == parts
  {
    SplitPlain(parts[0], sep);
    if |parts| > 1 {
      SplitUndoesJoin(parts[1..], sep);
      SplitConcat(parts[0], Join(parts[1..], [sep]), sep);
      assert parts == [parts[0]] + parts[1..];
    }
  }
}
