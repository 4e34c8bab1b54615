/**
 Spreadsheet column names: bijective base 26, letters A to Z, most significant first.
 */
module ColumnNames {
  import opened Prelude

  predicate IsLetter(c: char) {
    'A' <= c <= 'Z'
  }

  function Letter(digit: nat): char
    requires digit < 26
  {
    'A' + digit as char
  }

  function DigitOf(c: char): nat
    requires IsLetter(c)
  {
    (c - 'A') as int
  }

  predicate IsName(s: string) {
    s != "" && forall c | c in s :: IsLetter(c)
  }

  /** The number a run of letters stands for when the empty run stands for zero. */
  function ValueOf(letters: string): nat
    requires forall c | c in letters :: IsLetter(c)
  {
    if letters == "" then 0
    else 26 * ValueOf(letters[..|letters| - 1]) + DigitOf(letters[|letters| - 1]) + 1
  }

  /** The zero-based column a name stands for. */
  function Column(name: string): nat
    requires IsName(name)
  {
    ValueOf(name) - 1
  }

  function LettersFor(value: nat): (letters: string)
    ensures forall c | c in letters :: IsLetter(c)
    ensures ValueOf(letters) == value
  {
    if value == 0 then ""
    else
      var rest := LettersFor((value - 1) / 26);
      OneLetterMore(rest, (value - 1) % 26);
      rest + [Letter((value - 1) % 26)]
  }

  lemma OneLetterMore(rest: string, digit: nat)
    requires digit < 26 && forall c | c in rest :: IsLetter(c)
    ensures forall c | c in rest + [Letter(digit)] :: IsLetter(c)
    ensures ValueOf(rest + [Letter(digit)]) == 26 * ValueOf(rest) + digit + 1
  {
    assert (rest + [Letter(digit)])[..|rest|] == rest;
  }

  lemma LastLetter(value: nat, quotient: nat, remainder: nat)
    requires value > 0 && quotient == (value - 1) / 26 && remainder == (value - 1) % 26
    ensures LettersFor(value) == LettersFor(quotient) + [Letter(remainder)]
  {}

  method ColumnLetters(index: nat) returns (letters: string)
    ensures IsName(letters) && Column(letters) == index
    ensures letters == LettersFor(index + 1)
  {
    letters := "";
    var left: nat := index + 1;
    assert LettersFor(left) + "" == LettersFor(left);
    while left != 0
      invariant LettersFor(left) + letters == LettersFor(index + 1)
      decreases left
    {
      var quotient, remainder := (left - 1) / 26, (left - 1) % 26;
      LastLetter(left, quotient, remainder);
      assert LettersFor(left) + letters == LettersFor(quotient) + ([Letter(remainder)] + letters);
      left := quotient;
      letters := [Letter(remainder)] + letters;
    }
    assert "" + letters == letters;
  }

  /** No two names share a column. */
  lemma {:induction false} ValueIsInjective(a: string, b: string)
    requires forall c | c in a :: IsLetter(c)
    requires forall c | c in b :: IsLetter(c)
    requires ValueOf(a) == ValueOf(b)
    ensures a == b
    decreases |a|
  {
    if a != "" && b != "" {
      var a', b' := a[..|a| - 1], b[..|b| - 1];
      var x, y := DigitOf(a[|a| - 1]), DigitOf(b[|b| - 1]);
      assert 26 * ValueOf(a') + x == 26 * ValueOf(b') + y;
      assert x == y && ValueOf(a') == ValueOf(b');
      ValueIsInjective(a', b');
      assert a[|a| - 1] == Letter(x) && b[|b| - 1] == Letter(y);
      assert a == a' + [a[|a| - 1]] && b == b' + [b[|b| - 1]];
    }
  }

  /** Every name is the name of its column, and every column has exactly that name. */
  lemma NamesAndColumnsCorrespond(name: string, index: nat)
    requires IsName(name)
    ensures LettersFor(index + 1) == name <==> Column(name) == index
  {
    if Column(name) == index {
      ValueIsInjective(LettersFor(index + 1), name);
    }
  }

  // ----- Order -----

  /** The first place two runs of equal length differ decides. */
  predicate AlphabeticallyBefore(a: string, b: string)
    requires |a| == |b|
  {
    a != "" &&
    (AlphabeticallyBefore(a[..|a| - 1], b[..|b| - 1]) ||
     (a[..|a| - 1] == b[..|b| - 1] && a[|a| - 1] < b[|b| - 1]))
  }

  predicate Before(a: string, b: string) {
    |a| < |b| || (|a| == |b| && AlphabeticallyBefore(a, b))
  }

  /** `n` letters of A: the least value of that length. */
  function Least(n: nat): nat {
    if n == 0 then 0 else 26 * Least(n - 1) + 1
  }

  lemma {:induction false} LengthBoundsValue(a: string)
    requires forall c | c in a :: IsLetter(c)
    ensures Least(|a|) <= ValueOf(a) < Least(|a| + 1)
    decreases |a|
  {
    if a != "" {
      LengthBoundsValue(a[..|a| - 1]);
      assert IsLetter(a[|a| - 1]);
      assert DigitOf(a[|a| - 1]) < 26;
      assert Least(|a| + 1) == 26 * Least(|a|) + 1;
    }
  }

  lemma {:induction false} LeastGrows(m: nat, n: nat)
    requires m <= n
    ensures Least(m) <= Least(n)
    decreases n
  {
    if m < n { LeastGrows(m, n - 1); }
  }

  lemma {:induction false} SameLengthOrder(a: string, b: string)
    requires |a| == |b|
    requires forall c | c in a :: IsLetter(c)
    requires forall c | c in b :: IsLetter(c)
    ensures AlphabeticallyBefore(a, b) <==> ValueOf(a) < ValueOf(b)
    decreases |a|
  {
    if a != "" {
      var a', b' := a[..|a| - 1], b[..|b| - 1];
      var x, y := a[|a| - 1], b[|b| - 1];
      assert IsLetter(x) && IsLetter(y);
      SameLengthOrder(a', b');
      if ValueOf(a') == ValueOf(b') { ValueIsInjective(a', b'); }
    }
  }

  /** Columns run from left to right exactly as their names run by length, then alphabet. */
  lemma NamesAreOrdered(a: string, b: string)
    requires IsName(a) && IsName(b)
    ensures Column(a) < Column(b) <==> Before(a, b)
  {
    LengthBoundsValue(a);
    LengthBoundsValue(b);
    if |a| < |b| {
      LeastGrows(|a| + 1, |b|);
    } else if |b| < |a| {
      LeastGrows(|b| + 1, |a|);
    } else {
      SameLengthOrder(a, b);
    }
  }

  // ----- Cell references -----

  function CellReference(column: nat, row: nat): string {
    LettersFor(column + 1) + Digits(row + 1)
  }

  lemma {:induction false} SplitIsUnique(a: string, x: string, b: string, y: string)
    requires forall c | c in a + b :: IsLetter(c)
    requires forall c | c in x + y :: IsDecimal(c)
    requires a + x == b + y
    ensures a == b && x == y
  {
    var s := a + x;
    assert forall i | 0 <= i < |a| :: a[i] in a + b;
    assert forall i | 0 <= i < |b| :: b[i] in a + b;
    assert forall i | |a| <= i < |s| :: s[i] == x[i - |a|] && x[i - |a|] in x + y;
    assert forall i | |b| <= i < |s| :: s[i] == (b + y)[i] == y[i - |b|] && y[i - |b|] in x + y;
    assert forall i | 0 <= i < |s| :: IsLetter(s[i]) <==> i < |a|;
    assert forall i | 0 <= i < |s| :: IsLetter(s[i]) <==> i < |b|;
    assert |a| < |s| ==> !IsLetter(s[|a|]);
    assert |b| < |s| ==> !IsLetter(s[|b|]);
    assert (a + x)[..|a|] == a && (b + y)[..|b|] == b;
    assert (a + x)[|a|..] == x && (b + y)[|b|..] == y;
  }

  /** A reference is the name of its column and then the number of its row, counted from one. */
  lemma ReferenceReads(column: nat, row: nat) returns (name: string, digits: string)
    ensures CellReference(column, row) == name + digits
    ensures IsName(name) && Column(name) == column
    ensures digits != "" && (forall c | c in digits :: IsDecimal(c)) && NumberOf(digits) == row + 1
  {
    name, digits := LettersFor(column + 1), Digits(row + 1);
  }

  /** Digits count by tens. */
  lemma DigitsCountByTens(digits: string)
    requires forall c | c in digits :: IsDecimal(c)
    ensures NumberOf("1") == 1 && NumberOf(digits + "0") == 10 * NumberOf(digits)
  {
    assert (digits + "0")[..|digits|] == digits && "1"[..0] == "";
  }

  /** A reference names one cell. */
  lemma CellReferenceIsInjective(column: nat, row: nat, column': nat, row': nat)
    requires CellReference(column, row) == CellReference(column', row')
    ensures column == column' && row == row'
  {
    SplitIsUnique(LettersFor(column + 1), Digits(row + 1), LettersFor(column' + 1), Digits(row' + 1));
  }
}
