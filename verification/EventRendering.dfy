/**
 What `code run` prints of a turn: assistant text once each, whatever mix of deltas and restated
 tails carries it, and a line break before anything else once text has left the line open.
 */
module EventRendering {
  import opened Prelude

  datatype Event =
    | AssistantDelta(text: string, replacement: bool)
    | AssistantMessage(text: string)
    | ToolStarted(topLevel: bool)
    | TurnEdge                // a turn started or completed
    | TurnStopped             // failed, interrupted or refused
    | Remark                  // a line for stderr: tool completed, notice, file, resumed, abandoned
    | Silent                  // reasoning and everything that prints nothing on stdout

  function Last(s: string): char
    requires s != ""
  {
    s[|s| - 1]
  }

  predicate LeavesLineOpen(s: string) {
    s != "" && Last(s) != '\n'
  }

  // ----- The reconciler -----

  /** What is left to print of `complete`, given what the buffer says is printed. */
  function Unprinted(streamed: string, complete: string): string {
    if streamed <= complete then complete[|streamed|..]
    else if complete <= streamed then ""
    else complete
  }

  function Reconciled(streamed: string, complete: string): string {
    if complete <= streamed then streamed else complete
  }

  /** While the buffer and the restatement agree, the buffer is exactly what was printed and
      becomes the longer of the two. When they disagree the restatement is printed whole. */
  lemma ReconcileIsExact(streamed: string, complete: string)
    ensures (streamed + Unprinted(streamed, complete) == Reconciled(streamed, complete)) <==>
            (streamed <= complete || complete <= streamed)
    ensures complete <= Reconciled(streamed, complete)
  {}

  lemma PrefixesOfOneAgree(a: string, b: string, whole: string)
    requires a <= whole && b <= whole
    ensures a <= b || b <= a
  {}

  lemma NothingMore(a: string, b: string)
    ensures a + "" == a && b + "" == b
  {}

  /** The break that ends a line of assistant text before anything else is printed. */
  function LineBreak(event: Event, stdout: string): string {
    if BreaksLine(event) && LeavesLineOpen(stdout) then "\n" else ""
  }

  // ----- The printer -----

  class Printer {
    var stdout: string
    var dangling: bool
    var streamed: string
    // The assistant text within stdout: all of it but the line breaks put in for other lines.
    ghost var spoken: string

    ghost predicate Valid()
      reads this
    {
      dangling <==> LeavesLineOpen(stdout)
    }

    constructor ()
      ensures Valid() && stdout == "" && streamed == "" && spoken == ""
    {
      stdout, dangling, streamed, spoken := "", false, "", "";
    }

    method Reconcile(complete: string) returns (text: string)
      modifies this`streamed
      ensures text == Unprinted(old(streamed), complete)
      ensures streamed == Reconciled(old(streamed), complete)
    {
      if streamed <= complete {
        text := complete[|streamed|..];
        streamed := complete;
        return;
      }
      if complete <= streamed {
        return "";
      }
      streamed := complete;
      return complete;
    }

    method Write(text: string)
      requires Valid()
      modifies this`stdout, this`dangling, this`spoken
      ensures Valid() && stdout == old(stdout) + text && spoken == old(spoken) + text
    {
      if text == "" {
        assert stdout + text == stdout && spoken + text == spoken;
        return;
      }
      stdout := stdout + text;
      spoken := spoken + text;
      dangling := Last(text) != '\n';
    }

    method FinishLine()
      requires Valid()
      modifies this`stdout, this`dangling
      ensures Valid() && !dangling
      ensures stdout == old(stdout) + if old(dangling) then "\n" else ""
    {
      if dangling {
        stdout := stdout + "\n";
      } else {
        assert stdout + "" == stdout;
      }
      dangling := false;
    }

    method RenderDelta(text: string, replacement: bool)
      requires Valid()
      modifies this
      ensures Valid()
      ensures streamed == BufferAfter(old(streamed), AssistantDelta(text, replacement))
      ensures spoken == old(spoken) + Says(old(streamed), AssistantDelta(text, replacement))
      ensures stdout == old(stdout) + Says(old(streamed), AssistantDelta(text, replacement))
    {
      var unprinted := text;
      if replacement {
        unprinted := Reconcile(text);
      } else {
        streamed := streamed + text;
      }
      Write(unprinted);
    }

    method RenderMessage(text: string)
      requires Valid()
      modifies this
      ensures Valid() && streamed == ""
      ensures spoken == old(spoken) + Unprinted(old(streamed), text)
      ensures stdout == old(stdout) + Unprinted(old(streamed), text)
    {
      var unprinted := Reconcile(text);
      streamed := "";
      Write(unprinted);
    }

    method RenderEvent(event: Event)
      requires Valid()
      modifies this
      ensures Valid()
      ensures streamed == BufferAfter(old(streamed), event)
      ensures spoken == old(spoken) + Says(old(streamed), event)
      ensures stdout == old(stdout) + Says(old(streamed), event) + LineBreak(event, old(stdout))
      // Everything that has a line of its own ends an open one; nothing else does.
      ensures event.ToolStarted? || event.TurnStopped? || event.Remark? ==>
        stdout == old(stdout) + if LeavesLineOpen(old(stdout)) then "\n" else ""
      ensures event.TurnEdge? || event.Silent? ==> stdout == old(stdout)
    {
      NothingMore(stdout, spoken);
      match event {
        case AssistantDelta(text, replacement) =>
          RenderDelta(text, replacement);
          NothingMore(stdout, spoken);
        case AssistantMessage(text) =>
          RenderMessage(text);
          NothingMore(stdout, spoken);
        case ToolStarted(topLevel) =>
          if topLevel {
            streamed := "";
          }
          FinishLine();
        case TurnEdge =>
          streamed := "";
        case TurnStopped =>
          streamed := "";
          FinishLine();
        case Remark =>
          FinishLine();
        case Silent =>
      }
    }

    /** Render a run of events, then leave the terminal on a fresh line. */
    method RenderRun(events: seq<Event>)
      requires Valid()
      modifies this
      ensures spoken == old(spoken) + Spoken(old(streamed), events)
      ensures !LeavesLineOpen(stdout)
    {
      var i := 0;
      assert old(spoken) + "" == old(spoken);
      while i < |events|
        invariant i <= |events| && Valid()
        invariant streamed == Buffer(old(streamed), events[..i])
        invariant spoken == old(spoken) + Spoken(old(streamed), events[..i])
      {
        assert events[..i + 1][..i] == events[..i];
        RenderEvent(events[i]);
        i := i + 1;
      }
      assert events[..i] == events;
      FinishLine();
    }
  }

  /** The assistant text one event adds to stdout. */
  function Says(streamed: string, event: Event): string {
    match event
    case AssistantDelta(text, replacement) => if replacement then Unprinted(streamed, text) else text
    case AssistantMessage(text) => Unprinted(streamed, text)
    case _ => ""
  }

  function BufferAfter(streamed: string, event: Event): string {
    match event
    case AssistantDelta(text, replacement) =>
      if replacement then Reconciled(streamed, text) else streamed + text
    case AssistantMessage(_) => ""
    case ToolStarted(topLevel) => if topLevel then "" else streamed
    case TurnEdge => ""
    case TurnStopped => ""
    case _ => streamed
  }

  predicate BreaksLine(event: Event) {
    event.ToolStarted? || event.TurnStopped? || event.Remark?
  }

  ghost function Buffer(streamed: string, events: seq<Event>): string {
    if events == [] then streamed
    else BufferAfter(Buffer(streamed, events[..|events| - 1]), events[|events| - 1])
  }

  ghost function Spoken(streamed: string, events: seq<Event>): string {
    if events == [] then ""
    else Spoken(streamed, events[..|events| - 1]) +
         Says(Buffer(streamed, events[..|events| - 1]), events[|events| - 1])
  }

  lemma {:induction false} Split(streamed: string, a: seq<Event>, b: seq<Event>)
    ensures Buffer(streamed, a + b) == Buffer(Buffer(streamed, a), b)
    ensures Spoken(streamed, a + b) == Spoken(streamed, a) + Spoken(Buffer(streamed, a), b)
    decreases |b|
  {
    if b == [] {
      assert a + b == a;
    } else {
      var shorter := b[..|b| - 1];
      assert (a + b)[..|a + b| - 1] == a + shorter;
      Split(streamed, a, shorter);
    }
  }

  /** Events after which no message is under way. */
  predicate StartsOver(event: Event) {
    event.AssistantMessage? || event.TurnEdge? || event.TurnStopped? || (event.ToolStarted? && event.topLevel)
  }

  /** A message after a turn that was cut off is printed whole, whatever that turn had streamed. */
  lemma CutOffLeavesNothing(streamed: string, earlier: seq<Event>, cut: Event, message: string)
    requires StartsOver(cut)
    ensures var events := earlier + [cut];
      && Buffer(streamed, events) == ""
      && Spoken(streamed, events + [AssistantMessage(message)]) == Spoken(streamed, events) + message
  {
    var events := earlier + [cut];
    assert events[..|earlier|] == earlier && (events + [AssistantMessage(message)])[..|events|] == events;
    assert message[|""|..] == message;
  }

  // ----- One message -----

  /** Events that may fall between the parts of one message without ending it. */
  predicate WithinMessage(event: Event) {
    event.AssistantDelta? || event.Remark? || event.Silent? || (event.ToolStarted? && !event.topLevel)
  }

  /** No restated tail contradicts what is in the buffer when it comes. */
  ghost predicate TailsAgree(parts: seq<Event>) {
    parts == [] ||
    (var earlier := parts[..|parts| - 1];
     var last := parts[|parts| - 1];
     && TailsAgree(earlier)
     && (last.AssistantDelta? && last.replacement ==>
           last.text <= Buffer("", earlier) || Buffer("", earlier) <= last.text))
  }

  lemma {:induction false} SpokenIsTheBuffer(parts: seq<Event>)
    requires forall e | e in parts :: WithinMessage(e)
    ensures |Buffer("", parts)| <= |Spoken("", parts)|
    ensures TailsAgree(parts) ==> Spoken("", parts) == Buffer("", parts)
    ensures !TailsAgree(parts) ==> |Buffer("", parts)| < |Spoken("", parts)|
    decreases |parts|
  {
    if parts != [] {
      var earlier, last := parts[..|parts| - 1], parts[|parts| - 1];
      assert parts == earlier + [last];
      SpokenIsTheBuffer(earlier);
      assert Spoken("", earlier) + "" == Spoken("", earlier);
      assert WithinMessage(last);
      assert Spoken("", parts) == Spoken("", earlier) + Says(Buffer("", earlier), last);
      if last.AssistantDelta? && last.replacement {
        ReconcileIsExact(Buffer("", earlier), last.text);
      }
    }
  }

  lemma MessageEnds(parts: seq<Event>, message: string)
    ensures var whole := parts + [AssistantMessage(message)];
      && Spoken("", whole) == Spoken("", parts) + Unprinted(Buffer("", parts), message)
      && Buffer("", whole) == ""
  {
    assert (parts + [AssistantMessage(message)])[..|parts|] == parts;
  }

  lemma CompletesThePrefix(buffer: string, message: string)
    ensures buffer + Unprinted(buffer, message) == message <==> buffer <= message
  {
    if buffer <= message {
      assert buffer + message[|buffer|..] == message;
    } else if message <= buffer {
      assert |buffer + Unprinted(buffer, message)| > |message|;
    }
  }

  lemma LongerNeverMatches(spoken: string, buffer: string, message: string)
    requires |buffer| < |spoken|
    ensures spoken + Unprinted(buffer, message) != message
  {
    assert |spoken + Unprinted(buffer, message)| != |message|;
  }

  /** By the time a message is handled it has been printed exactly once, precisely when no restated
      tail contradicted what was printed and what was printed is a prefix of the message. */
  lemma MessageIsPrintedExactly(parts: seq<Event>, message: string)
    requires forall e | e in parts :: WithinMessage(e)
    ensures Spoken("", parts + [AssistantMessage(message)]) == message <==>
            TailsAgree(parts) && Buffer("", parts) <= message
    ensures Buffer("", parts + [AssistantMessage(message)]) == ""
  {
    SpokenIsTheBuffer(parts);
    MessageEnds(parts, message);
    if TailsAgree(parts) {
      CompletesThePrefix(Buffer("", parts), message);
    } else {
      LongerNeverMatches(Spoken("", parts), Buffer("", parts), message);
    }
  }

  /** The parts never leave the message: every delta extends a prefix of it, and every restated
      tail is one. */
  ghost predicate StaysWithin(parts: seq<Event>, message: string) {
    parts == [] ||
    (var earlier := parts[..|parts| - 1];
     var last := parts[|parts| - 1];
     && StaysWithin(earlier, message)
     && WithinMessage(last)
     && (last.AssistantDelta? ==>
           if last.replacement then last.text <= message else Buffer("", earlier) + last.text <= message))
  }

  lemma {:induction false} StayingWithinAgrees(parts: seq<Event>, message: string)
    requires StaysWithin(parts, message)
    ensures TailsAgree(parts) && Buffer("", parts) <= message
    ensures forall e | e in parts :: WithinMessage(e)
    decreases |parts|
  {
    if parts != [] {
      var earlier, last := parts[..|parts| - 1], parts[|parts| - 1];
      assert parts == earlier + [last];
      StayingWithinAgrees(earlier, message);
      if last.AssistantDelta? && last.replacement {
        PrefixesOfOneAgree(Buffer("", earlier), last.text, message);
      }
    }
  }

  // ----- A whole run -----

  /** One message as it arrives: its parts, its full text, then events that carry no text. */
  datatype Segment = Segment(parts: seq<Event>, message: string, between: seq<Event>)

  ghost predicate WellFormed(segment: Segment) {
    && StaysWithin(segment.parts, segment.message)
    && forall e | e in segment.between :: !e.AssistantDelta? && !e.AssistantMessage?
  }

  ghost function Arrives(segments: seq<Segment>): seq<Event> {
    if segments == [] then [] else
      segments[0].parts + [AssistantMessage(segments[0].message)] + segments[0].between
      + Arrives(segments[1..])
  }

  ghost function Messages(segments: seq<Segment>): string {
    if segments == [] then "" else segments[0].message + Messages(segments[1..])
  }

  lemma {:induction false} NothingBetween(between: seq<Event>)
    requires forall e | e in between :: !e.AssistantDelta? && !e.AssistantMessage?
    ensures Spoken("", between) == "" && Buffer("", between) == ""
    decreases |between|
  {
    if between != [] {
      assert between == between[..|between| - 1] + [between[|between| - 1]];
      NothingBetween(between[..|between| - 1]);
    }
  }

  lemma SegmentPrintsItsMessage(s: Segment)
    requires WellFormed(s)
    ensures var arrives := s.parts + [AssistantMessage(s.message)] + s.between;
      Spoken("", arrives) == s.message && Buffer("", arrives) == ""
  {
    StayingWithinAgrees(s.parts, s.message);
    MessageIsPrintedExactly(s.parts, s.message);
    NothingBetween(s.between);
    Split("", s.parts + [AssistantMessage(s.message)], s.between);
    assert s.message + "" == s.message;
  }

  /** Over a run, the assistant text on stdout is the concatenation of the messages. */
  lemma {:induction false} RunPrintsItsMessages(segments: seq<Segment>)
    requires forall i | 0 <= i < |segments| :: WellFormed(segments[i])
    ensures Spoken("", Arrives(segments)) == Messages(segments)
    ensures Buffer("", Arrives(segments)) == ""
  {
    if segments != [] {
      var s := segments[0];
      SegmentPrintsItsMessage(s);
      RunPrintsItsMessages(segments[1..]);
      Split("", s.parts + [AssistantMessage(s.message)] + s.between, Arrives(segments[1..]));
    }
  }
}
