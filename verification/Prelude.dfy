/** Vocabulary shared by the modules of this project. */
module Prelude {

  datatype Option<+T> = None | Some(value: T)

  datatype Result<+T, +E> = Ok(value: T) | Err(error: E)

  /** Guards an invariant that most proofs pass on unread: it is unfolded where this is asserted. */
  predicate Consulted(k: nat) {
    true
  }

  /** No value occurs twice. */
  ghost predicate Distinct<T>(s: seq<T>) {
    forall i, j :: 0 <= i < j < |s| ==> s[i] != s[j]
  }

  lemma OccursOnce<T>(s: seq<T>, x: T)
    requires Distinct(s)
    ensures multiset(s)[x] == if x in s then 1 else 0
  {
    if x in s {
      var i :| 0 <= i < |s| && s[i] == x;
      assert s == s[..i] + [x] + s[i + 1..];
      assert x !in s[..i] && x !in s[i + 1..];
    }
  }

  function Join(parts: seq<string>, separator: string): string {
    if parts == [] then ""
    else if |parts| == 1 then parts[0]
    else parts[0] + separator + Join(parts[1..], separator)
  }

  lemma {:induction false} SameSize<T>(queue: seq<T>, s: set<T>)
    requires Distinct(queue) && forall c :: c in queue <==> c in s
    ensures |queue| == |s|
  {
    if queue == [] {
      assert s == {};
    } else {
      var last := queue[|queue| - 1];
      var shorter := queue[..|queue| - 1];
      assert queue == shorter + [last];
      SameSize(shorter, s - {last});
    }
  }

  /** A set's elements in an arbitrary order. */
  method InSomeOrder<T(==)>(s: set<T>) returns (queue: seq<T>)
    ensures Distinct(queue) && forall c :: c in queue <==> c in s
  {
    queue := [];
    var rest := s;
    while rest != {}
      invariant rest <= s && Distinct(queue)
      invariant forall c :: c in queue <==> c in s - rest
      decreases |rest|
    {
      var c :| c in rest;
      assert forall i | 0 <= i < |queue| :: queue[i] in queue;
      queue := queue + [c];
      rest := rest - {c};
    }
  }

  // ----- Decimal numbers -----

  predicate IsDecimal(c: char) {
    '0' <= c <= '9'
  }

  function DecimalOf(c: char): nat
    requires IsDecimal(c)
  {
    (c - '0') as int
  }

  function NumberOf(digits: string): nat
    requires forall c | c in digits :: IsDecimal(c)
  {
    if digits == "" then 0
    else 10 * NumberOf(digits[..|digits| - 1]) + DecimalOf(digits[|digits| - 1])
  }

  function Digits(n: nat): (digits: string)
    ensures digits != "" && forall c | c in digits :: IsDecimal(c)
    ensures NumberOf(digits) == n
  {
    var last := ['0' + (n % 10) as char];
    var rest := if n < 10 then "" else Digits(n / 10);
    OneDigitMore(rest, n % 10);
    assert "" + last == last;
    rest + last
  }

  lemma OneDigitMore(rest: string, digit: nat)
    requires digit < 10 && forall c | c in rest :: IsDecimal(c)
    ensures var c := '0' + digit as char;
      IsDecimal(c) && (forall d | d in rest + [c] :: IsDecimal(d)) && NumberOf(rest + [c]) == 10 * NumberOf(rest) + digit
  {
    var c := '0' + digit as char;
    assert (rest + [c])[..|rest|] == rest;
  }
}
