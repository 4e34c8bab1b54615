/**
 Removing token-bearing text from a server's error message before it is shown.

 A message that names a credential is replaced whole; otherwise each hyphenated UUID (the textual
 form in section 4 of RFC 9562), taken leftmost first without overlap, is replaced by a label.
 Text is a sequence of characters here. The original works on UTF-8 bytes, where a window that
 parses as a UUID is 36 ASCII bytes, hence 36 characters.
 */
module MessageScrubbing {
  import opened Prelude

  const UUID_CHARS: nat := 36
  const REDACTED := "[redacted]"
  const MARKERS: seq<string> := ["tbreak_", "bearer", "Bearer"]

  predicate IsHex(c: char) {
    '0' <= c <= '9' || 'a' <= c <= 'f' || 'A' <= c <= 'F'
  }

  predicate IsUuid(s: string) {
    && |s| == UUID_CHARS
    && forall i | 0 <= i < UUID_CHARS ::
         if i == 8 || i == 13 || i == 18 || i == 23 then s[i] == '-' else IsHex(s[i])
  }

  predicate OccursAt(s: string, word: string, i: nat) {
    i + |word| <= |s| && s[i..i + |word|] == word
  }

  predicate Occurs(s: string, word: string) {
    exists i :: 0 <= i <= |s| && OccursAt(s, word, i)
  }

  predicate Marked(s: string) {
    exists k :: 0 <= k < |MARKERS| && Occurs(s, MARKERS[k])
  }

  predicate UuidAt(s: string, i: nat) {
    i + UUID_CHARS <= |s| && IsUuid(s[i..i + UUID_CHARS])
  }

  predicate HasUuid(s: string) {
    exists i :: 0 <= i <= |s| && UuidAt(s, i)
  }

  /** Reading left to right: a UUID is hidden and passed over, anything else is kept. */
  function HideUuids(s: string): string {
    if s == "" then ""
    else if UuidAt(s, 0) then REDACTED + HideUuids(s[UUID_CHARS..])
    else [s[0]] + HideUuids(s[1..])
  }

  function Scrubbed(message: string): string {
    if Marked(message) then REDACTED else HideUuids(message)
  }

  /** The leftmost UUID in `rest`, if there is one. */
  method FindUuid(rest: string) returns (start: Option<nat>)
    ensures start.None? ==> !HasUuid(rest)
    ensures start.Some? ==> UuidAt(rest, start.value) && forall i | 0 <= i < start.value :: !UuidAt(rest, i)
  {
    for i := 0 to |rest|
      invariant forall j | 0 <= j < i :: !UuidAt(rest, j)
    {
      if UuidAt(rest, i) {
        return Some(i);
      }
    }
    start := None;
  }

  method ScrubServerMessage(message: string) returns (result: string)
    ensures result == Scrubbed(message)
  {
    if Marked(message) {
      return REDACTED;
    }
    result := "";
    var rest := message;
    var found := FindUuid(rest);
    assert "" + HideUuids(rest) == HideUuids(message);
    while found.Some?
      invariant result + HideUuids(rest) == HideUuids(message)
      invariant found.None? ==> !HasUuid(rest)
      invariant found.Some? ==>
        UuidAt(rest, found.value) && forall i | 0 <= i < found.value :: !UuidAt(rest, i)
      decreases |rest|
    {
      var start := found.value;
      HideFirst(rest, start, result);
      result := result + rest[..start] + REDACTED;
      rest := rest[start + UUID_CHARS..];
      found := FindUuid(rest);
    }
    KeptUpTo(rest, |rest|);
    assert rest[..|rest|] == rest && rest[|rest|..] == "";
    result := result + rest;
  }

  lemma Prepend(s: string, n: nat, tail: string)
    requires 0 < n <= |s|
    ensures [s[0]] + (s[1..][..n - 1] + tail) == s[..n] + tail
  {}

  lemma DropTwice(s: string, a: nat, b: nat)
    requires a + b <= |s|
    ensures s[a..][b..] == s[a + b..]
  {}

  lemma KeptStep(s: string, n: nat)
    requires 0 < n <= |s| && !UuidAt(s, 0)
    requires HideUuids(s[1..]) == s[1..][..n - 1] + HideUuids(s[1..][n - 1..])
    ensures HideUuids(s) == s[..n] + HideUuids(s[n..])
  {
    DropTwice(s, 1, n - 1);
    Prepend(s, n, HideUuids(s[n..]));
  }

  lemma {:induction false} KeptUpTo(s: string, n: nat)
    requires n <= |s| && forall i | 0 <= i < n :: !UuidAt(s, i)
    ensures HideUuids(s) == s[..n] + HideUuids(s[n..])
  {
    if n > 0 {
      forall i | 0 <= i < n - 1 ensures !UuidAt(s[1..], i) {
        Shift(s, i);
      }
      KeptUpTo(s[1..], n - 1);
      KeptStep(s, n);
    } else {
      assert s[..0] == "" && s[0..] == s;
    }
  }

  /** Passing the first UUID. */
  lemma HideFirst(rest: string, start: nat, result: string)
    requires UuidAt(rest, start) && forall i | 0 <= i < start :: !UuidAt(rest, i)
    ensures result + HideUuids(rest)
         == (result + rest[..start] + REDACTED) + HideUuids(rest[start + UUID_CHARS..])
  {
    KeptUpTo(rest, start);
    DropTwice(rest, start, UUID_CHARS);
    assert rest[start..][0..0 + UUID_CHARS] == rest[start..start + UUID_CHARS];
  }

  lemma Shift(s: string, i: nat)
    requires s != ""
    ensures UuidAt(s[1..], i) <==> UuidAt(s, i + 1)
  {
    if i + 1 + UUID_CHARS <= |s| {
      assert s[1..][i..i + UUID_CHARS] == s[i + 1..i + 1 + UUID_CHARS];
    }
  }

  // ----- What is left shows nothing -----

  /** The start of the result is the start of the message, unless a label's bracket is in it. */
  lemma {:induction false} SameStartOrBracket(s: string, n: nat)
    requires n <= |HideUuids(s)| && n <= UUID_CHARS
    ensures (n <= |s| && HideUuids(s)[..n] == s[..n]) || '[' in HideUuids(s)[..n]
  {
    if n > 0 {
      if UuidAt(s, 0) {
        assert HideUuids(s)[..n][0] == '[';
      } else {
        SameStartOrBracket(s[1..], n - 1);
        var kept := HideUuids(s[1..])[..n - 1];
        assert HideUuids(s)[..n] == [s[0]] + kept;
        if n - 1 <= |s[1..]| && kept == s[1..][..n - 1] {
          assert s[..n] == [s[0]] + s[1..][..n - 1];
        }
      }
    }
  }

  lemma NoUuidStartsAtLabel(rest: string, i: nat)
    requires i < |REDACTED|
    ensures !UuidAt(REDACTED + rest, i)
  {
    if i + UUID_CHARS <= |REDACTED + rest| {
      var window := (REDACTED + rest)[i..i + UUID_CHARS];
      assert window[9 - i] == ']';
    }
  }

  lemma BracketsAreNotInUuids(s: string)
    requires '[' in s
    ensures !IsUuid(s)
  {}

  lemma {:induction false} NoUuidIsLeft(s: string, i: nat)
    ensures !UuidAt(HideUuids(s), i)
    decreases |s|
  {
    var r := HideUuids(s);
    if s == "" {
    } else if UuidAt(s, 0) {
      var tail := HideUuids(s[UUID_CHARS..]);
      if i < |REDACTED| {
        NoUuidStartsAtLabel(tail, i);
      } else if i + UUID_CHARS <= |r| {
        NoUuidIsLeft(s[UUID_CHARS..], i - |REDACTED|);
        assert r[i..i + UUID_CHARS] == tail[i - |REDACTED|..i - |REDACTED| + UUID_CHARS];
      }
    } else if i > 0 {
      NoUuidIsLeft(s[1..], i - 1);
      assert r[1..] == HideUuids(s[1..]);
      Shift(r, i - 1);
    } else if UUID_CHARS <= |r| {
      SameStartOrBracket(s, UUID_CHARS);
      if '[' in r[..UUID_CHARS] {
        BracketsAreNotInUuids(r[..UUID_CHARS]);
      }
      assert r[0..0 + UUID_CHARS] == r[..UUID_CHARS];
      assert UUID_CHARS <= |s| ==> s[0..0 + UUID_CHARS] == s[..UUID_CHARS];
    }
  }

  /** A word the label cannot help to form: bracket-free, with a letter the label lacks. */
  predicate CannotUseLabel(word: string, k: nat) {
    && k < |word| <= UUID_CHARS && word[k] !in REDACTED
    && '[' !in word && ']' !in word
  }

  lemma NotAtLabel(rest: string, word: string, k: nat, i: nat)
    requires CannotUseLabel(word, k) && i < |REDACTED|
    ensures !OccursAt(REDACTED + rest, word, i)
  {
    var s := REDACTED + rest;
    if i + |word| <= |s| {
      var window := s[i..i + |word|];
      if i + k < |REDACTED| {
        assert window[k] == REDACTED[i + k] && REDACTED[i + k] in REDACTED;
      } else {
        assert window[9 - i] == ']';
      }
    }
  }

  lemma {:induction false} NoWordAppears(s: string, word: string, k: nat, i: nat)
    requires CannotUseLabel(word, k) && !Occurs(s, word)
    ensures !OccursAt(HideUuids(s), word, i)
    decreases |s|
  {
    var r := HideUuids(s);
    if s == "" || i + |word| > |r| {
    } else if UuidAt(s, 0) {
      var rest := s[UUID_CHARS..];
      if i < |REDACTED| {
        NotAtLabel(HideUuids(rest), word, k, i);
      } else {
        NotInTail(s, word, UUID_CHARS);
        NoWordAppears(rest, word, k, i - |REDACTED|);
        assert r[i..i + |word|] == HideUuids(rest)[i - |REDACTED|..i - |REDACTED| + |word|];
      }
    } else if i > 0 {
      NotInTail(s, word, 1);
      NoWordAppears(s[1..], word, k, i - 1);
      assert r[i..i + |word|] == HideUuids(s[1..])[i - 1..i - 1 + |word|];
    } else {
      SameStartOrBracket(s, |word|);
      assert r[0..0 + |word|] == r[..|word|];
      assert !OccursAt(s, word, 0);
      assert |word| <= |s| ==> s[0..0 + |word|] == s[..|word|];
    }
  }

  lemma NotInTail(s: string, word: string, n: nat)
    requires n <= |s| && !Occurs(s, word)
    ensures !Occurs(s[n..], word)
  {
    forall i | 0 <= i <= |s[n..]| ensures !OccursAt(s[n..], word, i) {
      if i + |word| <= |s[n..]| {
        assert s[n..][i..i + |word|] == s[n + i..n + i + |word|];
      }
      assert !OccursAt(s, word, n + i);
    }
  }

  lemma MarkersCannotUseLabel(m: nat) returns (k: nat)
    requires m < |MARKERS|
    ensures CannotUseLabel(MARKERS[m], k)
  {
    k := if m == 0 then 1 else 0;
  }

  lemma LabelIsClean()
    ensures !Marked(REDACTED) && !HasUuid(REDACTED) && HideUuids(REDACTED) == REDACTED
  {
    forall m | 0 <= m < |MARKERS| ensures !Occurs(REDACTED, MARKERS[m]) {
      var k := MarkersCannotUseLabel(m);
      forall i | 0 <= i <= |REDACTED| ensures !OccursAt(REDACTED, MARKERS[m], i) {
        if i < |REDACTED| {
          assert REDACTED + "" == REDACTED;
          NotAtLabel("", MARKERS[m], k, i);
        }
      }
    }
    KeptUpTo(REDACTED, |REDACTED|);
    assert REDACTED[..|REDACTED|] == REDACTED && HideUuids(REDACTED[|REDACTED|..]) == "";
  }

  lemma ThreeMarkers(s: string)
    ensures Marked(s) <==> Occurs(s, "tbreak_") || Occurs(s, "bearer") || Occurs(s, "Bearer")
  {
    assert MARKERS[0] == "tbreak_" && MARKERS[1] == "bearer" && MARKERS[2] == "Bearer";
  }

  /** A message that names a credential is shown as the label alone; any other that has no UUID as it
      is. */
  lemma ShownAsItIs(message: string)
    ensures Occurs(message, "tbreak_") || Occurs(message, "bearer") || Occurs(message, "Bearer") ==>
      Scrubbed(message) == "[redacted]"
    ensures !Marked(message) && !HasUuid(message) ==> Scrubbed(message) == message
  {
    ThreeMarkers(message);
    if !Marked(message) && !HasUuid(message) {
      KeptUpTo(message, |message|);
      assert message[..|message|] == message && HideUuids(message[|message|..]) == "";
    }
  }

  const HEX_DIGITS := "0123456789abcdefABCDEF"

  predicate IsHexText(s: string) {
    forall c | c in s :: c in HEX_DIGITS
  }

  lemma HexDigitsAreHex(c: char)
    ensures IsHex(c) <==> c in HEX_DIGITS
  {
    assert c in HEX_DIGITS ==> exists k :: 0 <= k < |HEX_DIGITS| && HEX_DIGITS[k] == c;
    if '0' <= c <= '9' {
      assert HEX_DIGITS[c as int - '0' as int] == c;
    } else if 'a' <= c <= 'f' {
      assert HEX_DIGITS[10 + c as int - 'a' as int] == c;
    } else if 'A' <= c <= 'F' {
      assert HEX_DIGITS[16 + c as int - 'A' as int] == c;
    }
  }

  lemma HexTextIsHex(s: string)
    ensures IsHexText(s) <==> forall x | x in s :: IsHex(x)
  {
    forall x: char ensures IsHex(x) <==> x in HEX_DIGITS {
      HexDigitsAreHex(x);
    }
  }

  lemma GroupInside(s: string, group: string, at: nat)
    requires at + |group| <= |s| && s[at..at + |group|] == group
    ensures IsHexText(group) <==> forall i | at <= i < at + |group| :: IsHex(s[i])
  {
    HexTextIsHex(group);
    assert forall i | at <= i < at + |group| :: s[i] == group[i - at];
    assert forall k | 0 <= k < |group| :: group[k] == s[at + k];
  }

  /** A UUID is five groups of hexadecimal digits, 8-4-4-4-12, with hyphens between them. */
  lemma UuidIsFiveGroups(s: string)
    ensures IsUuid(s) <==>
      && |s| == 36 && s[8] == '-' && s[13] == '-' && s[18] == '-' && s[23] == '-'
      && IsHexText(s[0..8]) && IsHexText(s[9..13]) && IsHexText(s[14..18]) && IsHexText(s[19..23])
      && IsHexText(s[24..36])
  {
    if |s| == 36 {
      GroupInside(s, s[0..8], 0);
      GroupInside(s, s[9..13], 9);
      GroupInside(s, s[14..18], 14);
      GroupInside(s, s[19..23], 19);
      GroupInside(s, s[24..36], 24);
    }
  }

  /** Whatever the message said, what is shown has no UUID in any window and names no credential. */
  lemma ScrubbingIsComplete(message: string)
    ensures !HasUuid(Scrubbed(message)) && !Marked(Scrubbed(message))
    ensures !Occurs(Scrubbed(message), "tbreak_")
    ensures !Occurs(Scrubbed(message), "bearer") && !Occurs(Scrubbed(message), "Bearer")
  {
    ThreeMarkers(Scrubbed(message));
    if Marked(message) {
      LabelIsClean();
    } else {
      forall i | 0 <= i <= |Scrubbed(message)| ensures !UuidAt(Scrubbed(message), i) {
        NoUuidIsLeft(message, i);
      }
      forall m | 0 <= m < |MARKERS| ensures !Occurs(Scrubbed(message), MARKERS[m]) {
        var k := MarkersCannotUseLabel(m);
        forall i | 0 <= i <= |Scrubbed(message)| ensures !OccursAt(Scrubbed(message), MARKERS[m], i) {
          NoWordAppears(message, MARKERS[m], k, i);
        }
      }
    }
  }

  /** Scrubbing again changes nothing. */
  lemma ScrubbingIsIdempotent(message: string)
    ensures Scrubbed(Scrubbed(message)) == Scrubbed(message)
  {
    ScrubbingIsComplete(message);
    var r := Scrubbed(message);
    KeptUpTo(r, |r|);
    assert r[..|r|] == r && HideUuids(r[|r|..]) == "";
  }

  // ----- What is kept -----

  datatype Piece = Kept(c: char) | Hidden(uuid: string)

  function Pieces(s: string): seq<Piece> {
    if s == "" then []
    else if UuidAt(s, 0) then [Hidden(s[..UUID_CHARS])] + Pieces(s[UUID_CHARS..])
    else [Kept(s[0])] + Pieces(s[1..])
  }

  function Original(pieces: seq<Piece>): string {
    if pieces == [] then ""
    else (if pieces[0].Kept? then [pieces[0].c] else pieces[0].uuid) + Original(pieces[1..])
  }

  function Shown(pieces: seq<Piece>): string {
    if pieces == [] then ""
    else (if pieces[0].Kept? then [pieces[0].c] else REDACTED) + Shown(pieces[1..])
  }

  lemma {:induction false} PiecesCompose(s: string)
    ensures Original(Pieces(s)) == s && Shown(Pieces(s)) == HideUuids(s)
    ensures forall p | p in Pieces(s) && p.Hidden? :: IsUuid(p.uuid)
    decreases |s|
  {
    if s != "" {
      var width := if UuidAt(s, 0) then UUID_CHARS else 1;
      PiecesCompose(s[width..]);
      assert s == s[..width] + s[width..] && s[0..0 + width] == s[..width];
      assert Pieces(s)[1..] == Pieces(s[width..]);
    }
  }

  /** Every kept character was looked at and begins no UUID. */
  lemma {:induction false} KeptBeginsNoUuid(s: string, n: nat)
    requires n < |Pieces(s)| && Pieces(s)[n].Kept?
    ensures !UuidAt(Original(Pieces(s)[n..]), 0)
    decreases n
  {
    if n == 0 {
      PiecesCompose(s);
      assert Pieces(s)[0..] == Pieces(s);
    } else {
      var width := if UuidAt(s, 0) then UUID_CHARS else 1;
      KeptBeginsNoUuid(s[width..], n - 1);
      assert Pieces(s)[n..] == Pieces(s[width..])[n - 1..];
    }
  }

  /** The message and the result differ only where a UUID became a label, and no kept character
      begins a UUID: the hidden ones are the leftmost that do not overlap. */
  lemma {:induction false} OnlyUuidsAreHidden(s: string)
    ensures Original(Pieces(s)) == s && Shown(Pieces(s)) == HideUuids(s)
    ensures forall p | p in Pieces(s) && p.Hidden? :: IsUuid(p.uuid)
    ensures forall n: nat | n < |Pieces(s)| && Pieces(s)[n].Kept? :: !UuidAt(Original(Pieces(s)[n..]), 0)
  {
    PiecesCompose(s);
    forall n: nat | n < |Pieces(s)| && Pieces(s)[n].Kept?
      ensures !UuidAt(Original(Pieces(s)[n..]), 0)
    {
      KeptBeginsNoUuid(s, n);
    }
  }
}
