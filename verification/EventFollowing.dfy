/**
 Following a turn's journal over sockets that drop.

 A frame is kept as what this build makes of its text: read in full, chat metadata, a `turn_failed`
 it could not read further, or unreadable. The server keeps the journal; a socket opened after a
 cursor sends the journal from there. Between journaled frames it may send live ones, which the
 journal does not hold; the server stamps each with the position of the last journaled one, but the
 reader would take any.
 */
module EventFollowing {
  import opened Prelude

  datatype Raw<E> =
    | Readable(position: int, event: E)
    | Metadata
    | Failure(position: int, detail: Option<string>)
    | Unreadable(stated: Option<int>)

  /** What a reader hands on: an event it read, or a failure of unknown cause. */
  datatype Readout<E> = Read(event: E) | UnknownFailure(detail: Option<string>)

  datatype FrameRead<E> = Event(readout: Readout<E>) | Other | Skipped

  function Max(a: int, b: int): int {
    if a < b then b else a
  }

  /** Where a frame leaves the resume cursor. */
  function CursorAfter<E>(cursor: int, raw: Raw<E>): int {
    match raw
    case Readable(position, _) => position
    case Metadata => cursor
    case Failure(position, _) => Max(cursor, position)
    case Unreadable(stated) => if stated.Some? then Max(cursor, stated.value) else cursor
  }

  function WhatIsRead<E>(raw: Raw<E>): FrameRead<E> {
    match raw
    case Readable(_, event) => Event(Read(event))
    case Metadata => Other
    case Failure(_, detail) => Event(UnknownFailure(detail))
    case Unreadable(_) => Skipped
  }

  /** Frames a stream received and could not read. */
  class SkippedFrames {
    var count: nat
    // Notices printed as frames were skipped.
    ghost var notices: nat

    ghost predicate Valid()
      reads this
    {
      notices == if count == 0 then 0 else 1
    }

    constructor ()
      ensures Valid() && count == 0
    {
      count, notices := 0, 0;
    }

    /** Count one; the first is announced as it happens. */
    method Skip() returns (announced: bool)
      requires Valid()
      modifies this
      ensures Valid() && count == old(count) + 1
      ensures notices == old(notices) + if announced then 1 else 0
    {
      count := count + 1;
      announced := count == 1;
      notices := notices + if announced then 1 else 0;
    }

    /** The closing total, when the first notice did not already say it all. */
    function Summary(): (total: Option<nat>)
      reads this
      ensures total.Some? ==> total.value == count
    {
      if count > 1 then Some(count) else None
    }
  }

  /** What is printed over a stream's life tells exactly how many frames were skipped. */
  lemma NoticesTellTheCount(s: SkippedFrames, t: SkippedFrames)
    requires s.Valid() && t.Valid() && s.notices == t.notices && s.Summary() == t.Summary()
    ensures s.count == t.count
  {
    if s.Summary().Some? {
      assert s.count == s.Summary().value;
    }
  }

  /** Reads frames: keeps the resume cursor and counts what it skips. */
  class Frames<E> {
    var lastSeq: int
    const skipped: SkippedFrames

    constructor After(after: int)
      ensures lastSeq == after && skipped.Valid() && skipped.count == 0 && fresh(skipped)
    {
      lastSeq := after;
      skipped := new SkippedFrames();
    }

    method Read(raw: Raw<E>) returns (read: FrameRead<E>)
      requires skipped.Valid()
      modifies this, skipped
      ensures skipped.Valid()
      ensures read == WhatIsRead(raw)
      ensures lastSeq == CursorAfter(old(lastSeq), raw)
      ensures match raw
        case Readable(_, event) => read == Event(Readout.Read(event))
        case Metadata => read == Other
        case Failure(_, detail) => read == Event(UnknownFailure(detail))
        case Unreadable(_) => read == Skipped
      // Only a frame read in full is taken at its word; nothing else moves the cursor back.
      ensures match raw
        case Readable(position, _) => lastSeq == position
        case Metadata => lastSeq == old(lastSeq)
        case Failure(position, _) => lastSeq == if old(lastSeq) < position then position else old(lastSeq)
        case Unreadable(None) => lastSeq == old(lastSeq)
        case Unreadable(Some(position)) => lastSeq == if old(lastSeq) < position then position else old(lastSeq)
      ensures skipped.count == old(skipped.count) + if read.Skipped? then 1 else 0
    {
      match raw {
        case Readable(position, event) =>
          lastSeq := position;
          read := Event(Readout.Read(event));
        case Metadata =>
          read := Other;
        case Failure(position, detail) =>
          lastSeq := Max(lastSeq, position);
          read := Event(UnknownFailure(detail));
        case Unreadable(stated) =>
          var announced := skipped.Skip();
          if stated.Some? {
            lastSeq := Max(lastSeq, stated.value);
          }
          read := Skipped;
      }
    }

    /** Advance the cursor for a frame passed on raw. */
    method Observe(raw: Raw<E>)
      modifies this
      ensures lastSeq == CursorAfter(old(lastSeq), raw)
      // Only a frame read in full is taken at its word; nothing else moves the cursor back.
      ensures match raw
        case Readable(position, _) => lastSeq == position
        case Metadata => lastSeq == old(lastSeq)
        case Failure(position, _) => lastSeq == if old(lastSeq) < position then position else old(lastSeq)
        case Unreadable(None) => lastSeq == old(lastSeq)
        case Unreadable(Some(position)) => lastSeq == if old(lastSeq) < position then position else old(lastSeq)
    {
      match raw {
        case Readable(position, _) => lastSeq := position;
        case Metadata =>
        case Failure(position, _) => lastSeq := Max(lastSeq, position);
        case Unreadable(stated) =>
          if stated.Some? {
            lastSeq := Max(lastSeq, stated.value);
          }
      }
    }
  }

  // ----- The journal -----

  predicate States<E>(raw: Raw<E>) {
    raw.Readable? || raw.Failure? || (raw.Unreadable? && raw.stated.Some?)
  }

  function SeqOf<E>(raw: Raw<E>): int
    requires States(raw)
  {
    match raw
    case Readable(position, _) => position
    case Failure(position, _) => position
    case Unreadable(stated) => stated.value
  }

  ghost predicate IsJournal<E>(journal: seq<Raw<E>>) {
    && (forall i | 0 <= i < |journal| :: States(journal[i]))
    && (forall i, j | 0 <= i < j < |journal| :: SeqOf(journal[i]) < SeqOf(journal[j]))
  }

  /** Where a socket opened after `cursor` starts in the journal. */
  ghost predicate ResumesAt<E>(journal: seq<Raw<E>>, cursor: int, at: nat)
    requires IsJournal(journal)
  {
    && at <= |journal|
    && (forall i | 0 <= i < at :: SeqOf(journal[i]) <= cursor)
    && (forall i | at <= i < |journal| :: cursor < SeqOf(journal[i]))
  }

  /** A socket's start: everything after the cursor, nothing up to it. */
  function ResumeAt<E>(journal: seq<Raw<E>>, cursor: int): (at: nat)
    requires IsJournal(journal)
    ensures ResumesAt(journal, cursor, at)
  {
    if journal == [] then 0
    else
      var last := |journal| - 1;
      if SeqOf(journal[last]) <= cursor then |journal| else ResumeAt(journal[..last], cursor)
  }

  /** A cursor names one place in a journal. */
  lemma ResumeIsUnique<E>(journal: seq<Raw<E>>, cursor: int, a: nat, b: nat)
    requires IsJournal(journal) && ResumesAt(journal, cursor, a) && ResumesAt(journal, cursor, b)
    ensures a == b
  {
    assert a < |journal| ==> cursor < SeqOf(journal[a]);
    assert b < |journal| ==> cursor < SeqOf(journal[b]);
  }

  /** Reading the next journaled frame moves the cursor exactly past it. */
  lemma ReadAdvancesOne<E>(journal: seq<Raw<E>>, cursor: int, at: nat)
    requires IsJournal(journal) && ResumesAt(journal, cursor, at) && at < |journal|
    ensures cursor < CursorAfter(cursor, journal[at]) == SeqOf(journal[at])
    ensures ResumesAt(journal, CursorAfter(cursor, journal[at]), at + 1)
  {}

  ghost predicate Within<E>(journal: seq<Raw<E>>, seen: seq<nat>) {
    forall i | 0 <= i < |seen| :: seen[i] < |journal|
  }

  /** What receiving these journaled frames delivers, in order. */
  ghost function Readouts<E>(journal: seq<Raw<E>>, seen: seq<nat>): seq<Readout<E>>
    requires Within(journal, seen)
  {
    if seen == [] then [] else
      Readouts(journal, seen[..|seen| - 1]) +
      match WhatIsRead(journal[seen[|seen| - 1]])
      case Event(readout) => [readout]
      case _ => []
  }

  /** How many of them could not be read. */
  ghost function Unread<E>(journal: seq<Raw<E>>, seen: seq<nat>): nat
    requires Within(journal, seen)
  {
    if seen == [] then 0 else
      Unread(journal, seen[..|seen| - 1]) + if journal[seen[|seen| - 1]].Unreadable? then 1 else 0
  }

  /** Every journaled frame received is delivered or counted, never both. */
  lemma {:induction false} DeliveredOrCounted<E>(journal: seq<Raw<E>>, seen: seq<nat>)
    requires IsJournal(journal) && Within(journal, seen)
    ensures |Readouts(journal, seen)| + Unread(journal, seen) == |seen|
    decreases |seen|
  {
    if seen != [] {
      DeliveredOrCounted(journal, seen[..|seen| - 1]);
      assert States(journal[seen[|seen| - 1]]);
    }
  }

  // ----- The stream as a function of its state -----

  /** What a turn's durable record says, when no socket can be opened any more. */
  datatype Lookup = NoAnswer | StillRunning | Ended(turn: nat)

  /** What the socket does next. A title is a frame that is no event. A live frame carries whatever position it was stamped with. A drop
      carries the fate of each attempt to open the socket again, and of the lookup after them. */
  datatype Arrival<E> =
    | Journaled
    | Live(stamp: int, event: E)
    | Title
    | OffTheRecord
    | Ping
    | Drop(attempts: seq<bool>, lookup: Lookup)

  const RECONNECT_ATTEMPTS: nat := 8

  predicate Reopens(attempts: seq<bool>) {
    exists k :: 0 <= k < |attempts| && k < RECONNECT_ATTEMPTS && attempts[k]
  }

  /** The resume cursor, the next journal index the socket sends, and the indices received. */
  datatype State = State(cursor: int, sent: nat, seen: seq<nat>)

  function Step<E>(journal: seq<Raw<E>>, s: State, arrival: Arrival<E>): State
    requires IsJournal(journal)
  {
    match arrival
    case Journaled =>
      if s.sent < |journal|
      then State(CursorAfter(s.cursor, journal[s.sent]), s.sent + 1, s.seen + [s.sent])
      else s
    case Live(stamp, _) => s.(cursor := stamp)
    case Drop(attempts, _) => if Reopens(attempts) then s.(sent := ResumeAt(journal, s.cursor)) else s
    case _ => s
  }

  function Run<E>(journal: seq<Raw<E>>, s: State, arrivals: seq<Arrival<E>>): State
    requires IsJournal(journal)
  {
    if arrivals == [] then s
    else Step(journal, Run(journal, s, arrivals[..|arrivals| - 1]), arrivals[|arrivals| - 1])
  }

  /** The cursor names the place the socket has come to. */
  ghost predicate InStep<E>(journal: seq<Raw<E>>, s: State)
    requires IsJournal(journal)
  {
    ResumesAt(journal, s.cursor, s.sent)
  }

  /** Each journaled frame from `first` to where the socket stands came once, in order. */
  ghost predicate OnceEach(first: nat, s: State) {
    && first <= s.sent && |s.seen| == s.sent - first
    && forall i | 0 <= i < |s.seen| :: s.seen[i] == first + i
  }

  /** Every live frame is stamped with the place the socket has come to when it is sent. */
  ghost predicate WellStamped<E>(journal: seq<Raw<E>>, s: State, arrivals: seq<Arrival<E>>)
    requires IsJournal(journal)
  {
    arrivals == [] ||
    (var earlier := arrivals[..|arrivals| - 1];
     var last := arrivals[|arrivals| - 1];
     && WellStamped(journal, s, earlier)
     && (last.Live? ==> ResumesAt(journal, last.stamp, Run(journal, s, earlier).sent)))
  }

  lemma StepStaysInStep<E>(journal: seq<Raw<E>>, first: nat, s: State, arrival: Arrival<E>)
    requires IsJournal(journal) && InStep(journal, s) && OnceEach(first, s)
    requires arrival.Live? ==> ResumesAt(journal, arrival.stamp, s.sent)
    ensures InStep(journal, Step(journal, s, arrival)) && OnceEach(first, Step(journal, s, arrival))
    ensures s.sent <= Step(journal, s, arrival).sent
    ensures !arrival.Live? ==> s.cursor <= Step(journal, s, arrival).cursor
  {
    match arrival {
      case Journaled =>
        if s.sent < |journal| { ReadAdvancesOne(journal, s.cursor, s.sent); }
      case Drop(attempts, _) => ResumeIsUnique(journal, s.cursor, s.sent, ResumeAt(journal, s.cursor));
      case _ =>
    }
  }

  /** With well-stamped live frames, any schedule of drops leaves each journaled frame received
      once and in order. */
  lemma {:induction false} FollowsOnceEach<E>(
      journal: seq<Raw<E>>, first: nat, s: State, arrivals: seq<Arrival<E>>)
    requires IsJournal(journal) && InStep(journal, s) && OnceEach(first, s)
    requires WellStamped(journal, s, arrivals)
    ensures InStep(journal, Run(journal, s, arrivals)) && OnceEach(first, Run(journal, s, arrivals))
    ensures s.sent <= Run(journal, s, arrivals).sent
    decreases |arrivals|
  {
    if arrivals != [] {
      var earlier := arrivals[..|arrivals| - 1];
      FollowsOnceEach(journal, first, s, earlier);
      StepStaysInStep(journal, first, Run(journal, s, earlier), arrivals[|arrivals| - 1]);
    }
  }

  /** A stream that may drop at any point receives each journaled frame exactly once if and only if
      every live frame is stamped with the place the socket has come to. The reader takes whatever
      stamp it is given. */
  lemma {:induction false} ExactlyWhenWellStamped<E>(
      journal: seq<Raw<E>>, first: nat, s: State, arrivals: seq<Arrival<E>>)
    requires IsJournal(journal) && InStep(journal, s) && OnceEach(first, s)
    ensures WellStamped(journal, s, arrivals) <==>
      forall n: nat | n <= |arrivals| ::
        OnceEach(first, Step(journal, Run(journal, s, arrivals[..n]), Drop([true], NoAnswer)))
    decreases |arrivals|
  {
    var drop: Arrival<E> := Drop([true], NoAnswer);
    assert drop.attempts[0];
    if WellStamped(journal, s, arrivals) {
      forall n: nat | n <= |arrivals|
        ensures OnceEach(first, Step(journal, Run(journal, s, arrivals[..n]), drop))
      {
        PrefixIsWellStamped(journal, s, arrivals, n);
        FollowsOnceEach(journal, first, s, arrivals[..n]);
        StepStaysInStep(journal, first, Run(journal, s, arrivals[..n]), drop);
      }
    } else {
      var earlier := arrivals[..|arrivals| - 1];
      ExactlyWhenWellStamped(journal, first, s, earlier);
      if WellStamped(journal, s, earlier) {
        var before := Run(journal, s, earlier);
        FollowsOnceEach(journal, first, s, earlier);
        assert arrivals[..|arrivals|] == arrivals;
        assert Step(journal, Run(journal, s, arrivals), drop).sent != before.sent;
        assert !OnceEach(first, Step(journal, Run(journal, s, arrivals[..|arrivals|]), drop));
      } else {
        var n: nat :| n <= |earlier|
          && !OnceEach(first, Step(journal, Run(journal, s, earlier[..n]), drop));
        assert earlier[..n] == arrivals[..n];
      }
    }
  }

  lemma {:induction false} PrefixIsWellStamped<E>(
      journal: seq<Raw<E>>, s: State, arrivals: seq<Arrival<E>>, n: nat)
    requires IsJournal(journal) && n <= |arrivals| && WellStamped(journal, s, arrivals)
    ensures WellStamped(journal, s, arrivals[..n])
    decreases |arrivals|
  {
    if n == |arrivals| {
      assert arrivals[..n] == arrivals;
    } else {
      var earlier := arrivals[..|arrivals| - 1];
      PrefixIsWellStamped(journal, s, earlier, n);
      assert earlier[..n] == arrivals[..n];
    }
  }

  /** The position the socket itself has come to: where it was opened, or the last frame it sent. */
  ghost function SocketSeq<E>(journal: seq<Raw<E>>, s: State, arrivals: seq<Arrival<E>>): int
    requires IsJournal(journal)
  {
    if arrivals == [] then s.cursor
    else
      var earlier := arrivals[..|arrivals| - 1];
      var before := Run(journal, s, earlier);
      match arrivals[|arrivals| - 1]
      case Journaled =>
        if before.sent < |journal| then SeqOf(journal[before.sent]) else SocketSeq(journal, s, earlier)
      case Drop(attempts, _) => if Reopens(attempts) then before.cursor else SocketSeq(journal, s, earlier)
      case _ => SocketSeq(journal, s, earlier)
  }

  /** The server stamps every live frame with that position. */
  ghost predicate ServerStamped<E>(journal: seq<Raw<E>>, s: State, arrivals: seq<Arrival<E>>)
    requires IsJournal(journal)
  {
    arrivals == [] ||
    (var earlier := arrivals[..|arrivals| - 1];
     var last := arrivals[|arrivals| - 1];
     && ServerStamped(journal, s, earlier)
     && (last.Live? ==> last.stamp == SocketSeq(journal, s, earlier)))
  }

  /** So its live frames are well-stamped, on a socket that has sent nothing yet too. */
  lemma {:induction false} TheServerStampsWell<E>(
      journal: seq<Raw<E>>, first: nat, s: State, arrivals: seq<Arrival<E>>)
    requires IsJournal(journal) && InStep(journal, s) && OnceEach(first, s)
    requires ServerStamped(journal, s, arrivals)
    ensures WellStamped(journal, s, arrivals)
    ensures ResumesAt(journal, SocketSeq(journal, s, arrivals), Run(journal, s, arrivals).sent)
    decreases |arrivals|
  {
    if arrivals != [] {
      var earlier := arrivals[..|arrivals| - 1];
      var before := Run(journal, s, earlier);
      TheServerStampsWell(journal, first, s, earlier);
      FollowsOnceEach(journal, first, s, earlier);
      match arrivals[|arrivals| - 1] {
        case Journaled =>
          if before.sent < |journal| {
            ReadAdvancesOne(journal, before.cursor, before.sent);
          }
        case Drop(attempts, _) =>
          ResumeIsUnique(journal, before.cursor, before.sent, ResumeAt(journal, before.cursor));
        case _ =>
      }
    }
  }

  lemma PrefixFollowsOnceEach<E>(
      journal: seq<Raw<E>>, first: nat, s: State, arrivals: seq<Arrival<E>>, n: nat)
    requires IsJournal(journal) && InStep(journal, s) && OnceEach(first, s) && n <= |arrivals|
    ensures var s' := Run(journal, s, arrivals[..n]);
      WellStamped(journal, s, arrivals) ==> InStep(journal, s') && OnceEach(first, s') && s.sent <= s'.sent
  {
    if WellStamped(journal, s, arrivals) {
      PrefixIsWellStamped(journal, s, arrivals, n);
      FollowsOnceEach(journal, first, s, arrivals[..n]);
    }
  }

  /** A stamp ahead of the socket does lose a frame: the second one of this journal never comes. */
  lemma AStampAheadLosesAFrame() returns (journal: seq<Raw<int>>, arrivals: seq<Arrival<int>>)
    ensures IsJournal(journal) && |journal| == 3
    ensures Run(journal, State(0, 0, []), arrivals).seen == [0, 2]
  {
    journal := [Readable(1, 10), Readable(2, 20), Readable(3, 30)];
    var next: Arrival<int>, ahead: Arrival<int>, drop: Arrival<int> := Journaled, Live(2, 0), Drop([true], NoAnswer);
    var none: seq<Arrival<int>> := [];
    var start := State(0, 0, []);
    arrivals := none + [next] + [ahead] + [drop] + [next];
    assert drop.attempts[0];
    ResumeIsUnique(journal, 2, ResumeAt(journal, 2), 2);
    RunIs(journal, start, none, next);
    RunIs(journal, start, none + [next], ahead);
    RunIs(journal, start, none + [next] + [ahead], drop);
    RunIs(journal, start, none + [next] + [ahead] + [drop], next);
  }

  lemma RunIs<E>(journal: seq<Raw<E>>, s: State, arrivals: seq<Arrival<E>>, next: Arrival<E>)
    requires IsJournal(journal)
    ensures Run(journal, s, arrivals + [next]) == Step(journal, Run(journal, s, arrivals), next)
  {
    assert (arrivals + [next])[..|arrivals|] == arrivals;
  }

  // ----- The stream -----

  datatype StreamNext<E> = Frame(readout: Readout<E>) | Durable(turn: nat) | Ignore | Lost

  /** What a journaled frame is handed on as. */
  function Handed<E>(raw: Raw<E>): StreamNext<E> {
    match WhatIsRead(raw)
    case Event(readout) => Frame(readout)
    case _ => Ignore
  }

  /** After a drop: on with a new socket, or the turn as its durable record has it, or lost. */
  function AfterDrop<E>(attempts: seq<bool>, lookup: Lookup): StreamNext<E> {
    if Reopens(attempts) then Ignore else if lookup.Ended? then Durable(lookup.turn) else Lost
  }

  /** The drop after which nothing more comes. */
  predicate Closes<E>(arrival: Arrival<E>, ended: Option<nat>) {
    arrival.Drop? && !Reopens(arrival.attempts)
    && (ended == if arrival.lookup.Ended? then Some(arrival.lookup.turn) else None)
  }

  lemma RunOn<E>(journal: seq<Raw<E>>, s: State, arrivals: seq<Arrival<E>>, n: nat)
    requires IsJournal(journal) && n < |arrivals|
    ensures Run(journal, s, arrivals[..n + 1]) == Step(journal, Run(journal, s, arrivals[..n]), arrivals[n])
  {
    assert arrivals[..n + 1][..n] == arrivals[..n];
  }

  lemma ReceivedNext<E>(journal: seq<Raw<E>>, seen: seq<nat>, n: nat)
    requires Within(journal, seen) && n < |journal|
    ensures Within(journal, seen + [n])
    ensures Readouts(journal, seen + [n]) ==
      Readouts(journal, seen) + if Handed(journal[n]).Frame? then [Handed(journal[n]).readout] else []
    ensures Unread(journal, seen + [n]) == Unread(journal, seen) + if journal[n].Unreadable? then 1 else 0
  {
    assert (seen + [n])[..|seen|] == seen;
  }

  class EventStream<E> {
    const journal: seq<Raw<E>>
    const frames: Frames<E>
    // The socket's side: the next journal index it sends.
    var sent: nat
    ghost const first: nat
    ghost var seen: seq<nat>
    ghost var delivered: seq<Readout<E>>
    ghost var offTheRecord: nat

    ghost function Place(): State
      reads this, frames
    {
      State(frames.lastSeq, sent, seen)
    }

    ghost predicate Valid()
      reads this, frames, frames.skipped
    {
      && IsJournal(journal) && sent <= |journal| && Within(journal, seen)
      && frames.skipped.Valid()
      && delivered == Readouts(journal, seen)
      && frames.skipped.count == Unread(journal, seen) + offTheRecord
    }

    constructor OpenAfter(journal: seq<Raw<E>>, after: int)
      requires IsJournal(journal)
      ensures Valid() && this.journal == journal && Place() == State(after, first, [])
      ensures InStep(journal, Place()) && OnceEach(first, Place())
      ensures delivered == [] && offTheRecord == 0
      ensures fresh(frames) && fresh(frames.skipped)
    {
      var reader := new Frames<E>.After(after);
      this.journal, frames, sent, first := journal, reader, ResumeAt(journal, after), ResumeAt(journal, after);
      seen, delivered, offTheRecord := [], [], 0;
    }

    /** The next journaled frame. */
    method Receive() returns (next: StreamNext<E>)
      requires Valid() && sent < |journal|
      modifies this`sent, this`seen, this`delivered, frames, frames.skipped
      ensures Valid() && Place() == Step(journal, old(Place()), Journaled)
      ensures next == Handed(journal[old(sent)])
      ensures delivered == old(delivered) + if next.Frame? then [next.readout] else []
    {
      ReceivedNext(journal, seen, sent);
      var read := frames.Read(journal[sent]);
      match read {
        case Event(readout) =>
          delivered := delivered + [readout];
          next := Frame(readout);
        case _ => next := Ignore;
      }
      seen, sent := seen + [sent], sent + 1;
    }

    /** One arrival. What a journaled frame becomes is handed on, and so is a live one; a drop
        resumes from the cursor, and when no socket can be opened the turn's durable record decides. */
    method Next(arrival: Arrival<E>) returns (next: StreamNext<E>)
      requires Valid()
      modifies this, frames, frames.skipped
      ensures Valid() && Place() == Step(journal, old(Place()), arrival)
      ensures offTheRecord == old(offTheRecord) + if arrival.OffTheRecord? then 1 else 0
      ensures next == match arrival
        case Journaled => if old(sent) < |journal| then Handed(journal[old(sent)]) else Ignore
        case Live(_, event) => Frame(Readout.Read(event))
        case Drop(attempts, lookup) => AfterDrop(attempts, lookup)
        case _ => Ignore
      ensures delivered ==
        old(delivered) + if arrival.Journaled? && next.Frame? then [next.readout] else []
    {
      match arrival {
        case Journaled =>
          if sent == |journal| {
            return Ignore;
          }
          next := Receive();
        case Live(stamp, event) =>
          var read := frames.Read(Readable(stamp, event));
          return Frame(read.readout);
        case Title =>
          var read := frames.Read(Metadata);
          return Ignore;
        case OffTheRecord =>
          var read := frames.Read(Unreadable(None));
          offTheRecord := offTheRecord + 1;
          return Ignore;
        case Ping =>
          return Ignore;
        case Drop(attempts, lookup) =>
          next := Reconnect(attempts, lookup);
      }
    }

    method Reconnect(attempts: seq<bool>, lookup: Lookup) returns (next: StreamNext<E>)
      requires Valid()
      modifies this`sent
      ensures Valid()
      ensures sent == if Reopens(attempts) then ResumeAt(journal, frames.lastSeq) else old(sent)
      ensures next == AfterDrop(attempts, lookup)
      // Eight attempts are made.
      ensures next == Ignore <==> exists k :: 0 <= k < |attempts| && k < 8 && attempts[k]
    {
      var k := 0;
      while k < RECONNECT_ATTEMPTS && k < |attempts|
        invariant k <= RECONNECT_ATTEMPTS && k <= |attempts|
        invariant forall j | 0 <= j < k :: !attempts[j]
      {
        if attempts[k] {
          sent := ResumeAt(journal, frames.lastSeq);
          return Ignore;
        }
        k := k + 1;
      }
      match lookup {
        case Ended(turn) => next := Durable(turn);
        case _ => next := Lost;
      }
    }

    /** Take arrivals until the stream is over. */
    method Drain(arrivals: seq<Arrival<E>>) returns (n: nat, ended: Option<nat>)
      requires Valid()
      modifies this, frames, frames.skipped
      ensures Valid() && n <= |arrivals| && Place() == Run(journal, old(Place()), arrivals[..n])
      ensures n < |arrivals| || ended.Some? ==> n > 0 && Closes(arrivals[n - 1], ended)
    {
      n, ended := 0, None;
      while n < |arrivals|
        invariant Valid() && n <= |arrivals|
        invariant Place() == Run(journal, old(Place()), arrivals[..n])
        invariant ended.None?
      {
        var next := Next(arrivals[n]);
        RunOn(journal, old(Place()), arrivals, n);
        n := n + 1;
        match next {
          case Lost => return;
          case Durable(turn) => return n, Some(turn);
          case _ =>
        }
      }
    }

    /** Whatever arrives, in whatever order, over however many sockets: if the live frames are
        well-stamped, the readable frames and turn failures of the journal up to where the stream
        stands have each been delivered once, in order, and every other one was counted once. */
    method Follow(arrivals: seq<Arrival<E>>) returns (n: nat, ended: Option<nat>)
      requires Valid() && InStep(journal, Place()) && OnceEach(first, Place())
      modifies this, frames, frames.skipped
      ensures Valid() && n <= |arrivals| && Place() == Run(journal, old(Place()), arrivals[..n])
      ensures n < |arrivals| || ended.Some? ==> n > 0 && Closes(arrivals[n - 1], ended)
      ensures WellStamped(journal, old(Place()), arrivals) ==>
        && InStep(journal, Place()) && OnceEach(first, Place()) && old(sent) <= sent
        && |delivered| + frames.skipped.count == sent - first + offTheRecord
      ensures delivered == Readouts(journal, seen)
      ensures frames.skipped.count == Unread(journal, seen) + offTheRecord
    {
      n, ended := Drain(arrivals);
      PrefixFollowsOnceEach(journal, first, old(Place()), arrivals, n);
      DeliveredOrCounted(journal, seen);
    }
  }
}
