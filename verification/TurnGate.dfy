/**
 Which frames of a session's stream `code run` owns, and which frame ends its work.

 The gate sees two things in one order: the frames of the stream, each replayed or live, and the
 answer to its own submission, which may fall anywhere between them. A frame that ends a turn does
 not name the turn, so the gate has to know whose turn is running.
 */
module TurnGating {
  import opened Prelude

  type TurnId = nat

  datatype Event =
    | TurnStarted(turn: TurnId)
    | TurnCompleted
    | TurnFailed
    | TurnInterrupted
    | TurnRefused
    | OtherEvent

  datatype FrameAction = Skip | Render | Terminal(code: int)

  datatype Input =
    | Frame(replayed: bool, event: Event)
    | Ran(turn: TurnId)
    | Queued

  datatype Gate = Gate(expected: Option<TurnId>, ours: bool, seenStart: bool)

  const SUBMIT := Gate(None, false, false)

  function AttachTo(turn: TurnId): Gate {
    Gate(Some(turn), true, false)
  }

  function ExitCode(event: Event): Option<int> {
    match event
    case TurnCompleted => Some(0)
    case TurnFailed => Some(1)
    case TurnInterrupted => Some(1)
    case TurnRefused => Some(1)
    case _ => None
  }

  predicate Ends(event: Event) {
    ExitCode(event).Some?
  }

  // ----- The gate as a function of its state -----

  function AfterRan(g: Gate, turn: TurnId): Gate {
    if g.expected.Some? && g.expected.value != turn then Gate(Some(turn), false, false)
    else g.(expected := Some(turn))
  }

  predicate Claims(g: Gate, replayed: bool, event: Event) {
    event.TurnStarted? && (g.expected == Some(event.turn) || (g.expected.None? && !replayed))
  }

  function AfterFrame(g: Gate, replayed: bool, event: Event): Gate {
    if Claims(g, replayed, event) then Gate(Some(event.turn), true, true) else g
  }

  predicate Owns(g: Gate, replayed: bool) {
    g.expected.Some? && g.ours && (replayed ==> g.seenStart)
  }

  function ActionOn(g: Gate, replayed: bool, event: Event): FrameAction {
    if !Owns(AfterFrame(g, replayed, event), replayed) then Skip
    else if Ends(event) then Terminal(ExitCode(event).value)
    else Render
  }

  function After(g: Gate, input: Input): Gate {
    match input
    case Frame(replayed, event) => AfterFrame(g, replayed, event)
    case Ran(turn) => AfterRan(g, turn)
    case Queued => SUBMIT
  }

  predicate Exits(g: Gate, input: Input) {
    input.Frame? && ActionOn(g, input.replayed, input.event).Terminal?
  }

  predicate WillClaim(g: Gate, turn: TurnId, replayed: bool) {
    match g.expected
    case Some(id) => id == turn && !g.seenStart
    case None => !replayed
  }

  function Bound(g: Gate): Option<TurnId> {
    if g.ours then g.expected else None
  }

  class TurnGate {
    var expected: Option<TurnId>
    var ours: bool
    var seenStart: bool

    function State(): Gate
      reads this
    {
      Gate(expected, ours, seenStart)
    }

    constructor Submit()
      ensures State() == SUBMIT
    {
      expected, ours, seenStart := None, false, false;
    }

    constructor Attach(turn: TurnId)
      ensures State() == AttachTo(turn)
    {
      expected, ours, seenStart := Some(turn), true, false;
    }

    /** The turn this submit owns, once bound. */
    function BoundTurn(): (turn: Option<TurnId>)
      reads this
      ensures turn == Bound(State())
    {
      if ours then expected else None
    }

    method OnRan(id: TurnId)
      modifies this
      ensures State() == AfterRan(old(State()), id)
    {
      if ours && expected == Some(id) {
        return;
      }
      if expected.Some? && expected.value != id {
        ours := false;
        seenStart := false;
      }
      expected := Some(id);
    }

    method OnQueued()
      modifies this
      ensures State() == SUBMIT
    {
      expected := None;
      ours := false;
      seenStart := false;
    }

    method OnFrame(replayed: bool, event: Event) returns (action: FrameAction)
      modifies this
      ensures State() == AfterFrame(old(State()), replayed, event)
      ensures action == ActionOn(old(State()), replayed, event)
    {
      if event.TurnStarted? {
        var matchesBound := expected == Some(event.turn);
        var liveUnbound := expected.None? && !replayed;
        if matchesBound || liveUnbound {
          expected := Some(event.turn);
          ours := true;
          seenStart := true;
        }
      }
      if expected.None? || !ours {
        return Skip;
      }
      if replayed && !seenStart {
        return Skip;
      }
      if Ends(event) {
        return Terminal(ExitCode(event).value);
      }
      return Render;
    }
  }

  /** The loop that follows a turn: feed the gate until a frame ends it. */
  method Follow(gate: TurnGate, inputs: seq<Input>) returns (n: nat, code: Option<int>)
    modifies gate
    ensures n <= |inputs| && Running(old(gate.State()), inputs[..n])
    ensures code.None? ==> n == |inputs| && gate.State() == Feed(old(gate.State()), inputs)
    ensures code.Some? ==>
      && n < |inputs| && Exits(Feed(old(gate.State()), inputs[..n]), inputs[n])
      && code == match inputs[n].event
           case TurnCompleted => Some(0)
           case TurnFailed => Some(1)
           case TurnInterrupted => Some(1)
           case TurnRefused => Some(1)
           case _ => None
  {
    n := 0;
    while n < |inputs|
      invariant n <= |inputs| && Running(old(gate.State()), inputs[..n])
      invariant gate.State() == Feed(old(gate.State()), inputs[..n])
    {
      assert inputs[..n + 1] == inputs[..n] + [inputs[n]];
      FeedNext(old(gate.State()), inputs[..n], inputs[n]);
      match inputs[n] {
        case Ran(turn) => gate.OnRan(turn);
        case Queued => gate.OnQueued();
        case Frame(replayed, event) =>
          var action := gate.OnFrame(replayed, event);
          if action.Terminal? {
            return n, Some(action.code);
          }
      }
      n := n + 1;
    }
    assert inputs[..n] == inputs;
    code := None;
  }

  // ----- Traces -----

  ghost function Feed(g: Gate, inputs: seq<Input>): Gate {
    if inputs == [] then g else After(Feed(g, inputs[..|inputs| - 1]), inputs[|inputs| - 1])
  }

  /** No frame so far ended the loop. */
  ghost predicate Running(g: Gate, inputs: seq<Input>) {
    inputs == [] ||
    (Running(g, inputs[..|inputs| - 1]) &&
     !Exits(Feed(g, inputs[..|inputs| - 1]), inputs[|inputs| - 1]))
  }

  lemma FeedNext(g: Gate, inputs: seq<Input>, next: Input)
    ensures Feed(g, inputs + [next]) == After(Feed(g, inputs), next)
    ensures Running(g, inputs + [next]) <==> Running(g, inputs) && !Exits(Feed(g, inputs), next)
  {}

  /** The turn the session is in after these inputs, given the one it was in before. */
  ghost function Current(before: Option<TurnId>, inputs: seq<Input>): Option<TurnId> {
    if inputs == [] then before else
      var earlier := Current(before, inputs[..|inputs| - 1]);
      var last := inputs[|inputs| - 1];
      if !last.Frame? then earlier
      else if last.event.TurnStarted? then Some(last.event.turn)
      else if Ends(last.event) then None
      else earlier
  }

  /** A session runs one turn at a time. */
  ghost predicate OneAtATime(before: Option<TurnId>, inputs: seq<Input>) {
    inputs == [] ||
    (var earlier := inputs[..|inputs| - 1];
     var last := inputs[|inputs| - 1];
     && OneAtATime(before, earlier)
     && (last.Frame? && last.event.TurnStarted? ==> Current(before, earlier).None?)
     && (last.Frame? && Ends(last.event) ==> Current(before, earlier).Some?))
  }

  lemma TraceNext(before: Option<TurnId>, inputs: seq<Input>, next: Input)
    ensures OneAtATime(before, inputs + [next]) <==>
      && OneAtATime(before, inputs)
      && (next.Frame? && next.event.TurnStarted? ==> Current(before, inputs).None?)
      && (next.Frame? && Ends(next.event) ==> Current(before, inputs).Some?)
    ensures Current(before, inputs + [next]) ==
      if !next.Frame? then Current(before, inputs)
      else if next.event.TurnStarted? then Some(next.event.turn)
      else if Ends(next.event) then None
      else Current(before, inputs)
  {}

  /** `turn` started within these inputs, and nothing since has rebound the gate. */
  ghost predicate StartConsumed(inputs: seq<Input>, turn: TurnId) {
    exists j: nat :: j < |inputs| && StartsAt(inputs, j, turn) && NoRebindAfter(inputs, j, turn)
  }

  ghost predicate StartsAt(inputs: seq<Input>, j: nat, turn: TurnId) {
    j < |inputs| && inputs[j].Frame? && inputs[j].event == TurnStarted(turn)
  }

  ghost predicate NoRebindAfter(inputs: seq<Input>, j: nat, turn: TurnId) {
    forall k | j < k < |inputs| :: !inputs[k].Queued? && (inputs[k].Ran? ==> inputs[k].turn == turn)
  }

  lemma {:induction false} SubmitInvariant(before: Option<TurnId>, inputs: seq<Input>)
    requires OneAtATime(before, inputs) && Running(SUBMIT, inputs)
    ensures var g := Feed(SUBMIT, inputs);
      && g.ours == g.seenStart
      && (g.ours ==>
            && g.expected.Some? && Current(before, inputs) == g.expected
            && StartConsumed(inputs, g.expected.value))
    decreases |inputs|
  {
    if inputs != [] {
      var earlier, last := inputs[..|inputs| - 1], inputs[|inputs| - 1];
      SubmitInvariant(before, earlier);
      var g, g' := Feed(SUBMIT, earlier), Feed(SUBMIT, inputs);
      if g'.ours {
        if g.ours {
          var turn := g.expected.value;
          var j: nat :| j < |earlier| && StartsAt(earlier, j, turn) && NoRebindAfter(earlier, j, turn);
          assert StartsAt(inputs, j, turn) && NoRebindAfter(inputs, j, turn);
        } else {
          assert StartsAt(inputs, |inputs| - 1, g'.expected.value);
          assert NoRebindAfter(inputs, |inputs| - 1, g'.expected.value);
        }
      }
    }
  }

  /** A submission exits only on the end of the turn it expects, and only after consuming that
      turn's start since it was last rebound. */
  lemma SubmitExitsOnItsOwnTurn(before: Option<TurnId>, inputs: seq<Input>, last: Input)
    requires OneAtATime(before, inputs + [last]) && Running(SUBMIT, inputs)
    requires Exits(Feed(SUBMIT, inputs), last)
    ensures var expected := Feed(SUBMIT, inputs).expected;
      && expected.Some? && Current(before, inputs) == expected
      && StartConsumed(inputs, expected.value)
  {
    assert (inputs + [last])[..|inputs|] == inputs;
    SubmitInvariant(before, inputs);
  }

  /** The turn a running submission says it owns is the one the session is in. */
  lemma TheBoundTurnIsRunning(before: Option<TurnId>, inputs: seq<Input>)
    requires OneAtATime(before, inputs) && Running(SUBMIT, inputs)
    ensures var turn := Bound(Feed(SUBMIT, inputs));
      turn.Some? ==> Current(before, inputs) == turn && StartConsumed(inputs, turn.value)
  {
    SubmitInvariant(before, inputs);
  }

  /** What is done with a frame of one's own turn. */
  ghost function Shown(event: Event): FrameAction {
    match event
    case TurnCompleted => Terminal(0)
    case TurnFailed => Terminal(1)
    case TurnInterrupted => Terminal(1)
    case TurnRefused => Terminal(1)
    case TurnStarted(_) => Render
    case OtherEvent => Render
  }

  /** While a submission owns the current turn, every frame is shown, and its end exits. */
  lemma OwnedFramesAreShown(before: Option<TurnId>, inputs: seq<Input>, f: Input)
    requires f.Frame? && OneAtATime(before, inputs + [f]) && Running(SUBMIT, inputs)
    requires Bound(Feed(SUBMIT, inputs)).Some?
    ensures ActionOn(Feed(SUBMIT, inputs), f.replayed, f.event) == Shown(f.event)
  {
    assert (inputs + [f])[..|inputs|] == inputs;
    SubmitInvariant(before, inputs);
  }

  /** And what it shows is of the turn it owns: the frame that starts it, or one while it runs. */
  lemma ShownFramesAreOwned(before: Option<TurnId>, inputs: seq<Input>, f: Input)
    requires f.Frame? && OneAtATime(before, inputs + [f]) && Running(SUBMIT, inputs)
    requires !ActionOn(Feed(SUBMIT, inputs), f.replayed, f.event).Skip?
    ensures var turn := Bound(Feed(SUBMIT, inputs + [f]));
      && turn.Some?
      && if f.event.TurnStarted? then f.event.turn == turn.value else Current(before, inputs) == turn
  {
    assert (inputs + [f])[..|inputs|] == inputs;
    SubmitInvariant(before, inputs);
  }

  /** An attached gate shows every live frame, and every replayed one from its turn's start on. */
  lemma AttachedFramesAreShown(before: Option<TurnId>, turn: TurnId, inputs: seq<Input>, f: Input)
    requires OneAtATime(before, inputs + [f]) && Running(AttachTo(turn), inputs)
    requires forall i | i in inputs + [f] :: i.Frame?
    ensures ActionOn(Feed(AttachTo(turn), inputs), f.replayed, f.event) ==
      if f.replayed && !(exists i :: i in inputs + [f] && i.event == TurnStarted(turn)) then Skip
      else Shown(f.event)
  {
    var all := inputs + [f];
    assert all[..|inputs|] == inputs && forall i | i in inputs :: i in all;
    AttachInvariant(before, turn, inputs);
    assert forall i | i in all :: i in inputs || i == f;
    assert f in all;
  }

  lemma {:induction false} QueuedInvariant(pre: seq<Input>, post: seq<Input>)
    requires forall i | i in post :: !i.Ran? && !i.Queued?
    ensures var g := Feed(SUBMIT, pre + [Queued] + post);
      g.expected.Some? ==> Frame(false, TurnStarted(g.expected.value)) in post
    decreases |post|
  {
    if post == [] {
      assert pre + [Queued] + post == pre + [Queued];
      FeedNext(SUBMIT, pre, Queued);
    } else {
      var shorter, last := post[..|post| - 1], post[|post| - 1];
      assert pre + [Queued] + post == (pre + [Queued] + shorter) + [last];
      FeedNext(SUBMIT, pre + [Queued] + shorter, last);
      QueuedInvariant(pre, shorter);
      assert post == shorter + [last];
    }
  }

  /** A queued follow-up exits only on a turn that started live after it was queued, so never on
      the turn ahead of it. */
  lemma QueuedNeverExitsOnTheTurnAhead(
      before: Option<TurnId>, pre: seq<Input>, post: seq<Input>, last: Input)
    requires forall i | i in post :: !i.Ran? && !i.Queued?
    requires OneAtATime(before, pre + [Queued] + post + [last])
    requires Running(SUBMIT, pre + [Queued] + post) && Exits(Feed(SUBMIT, pre + [Queued] + post), last)
    ensures var ended := Current(before, pre + [Queued] + post);
      ended.Some? && Frame(false, TurnStarted(ended.value)) in post
  {
    SubmitExitsOnItsOwnTurn(before, pre + [Queued] + post, last);
    QueuedInvariant(pre, post);
  }

  lemma {:induction false} AttachInvariant(before: Option<TurnId>, turn: TurnId, inputs: seq<Input>)
    requires OneAtATime(before, inputs) && Running(AttachTo(turn), inputs)
    requires forall i | i in inputs :: i.Frame?
    ensures var g := Feed(AttachTo(turn), inputs);
      && g.expected == Some(turn) && g.ours
      && (g.seenStart ==> Current(before, inputs) == Some(turn))
      && (g.seenStart <==> exists i :: i in inputs && i.event == TurnStarted(turn))
    decreases |inputs|
  {
    if inputs != [] {
      var earlier, last := inputs[..|inputs| - 1], inputs[|inputs| - 1];
      assert inputs == earlier + [last];
      AttachInvariant(before, turn, earlier);
    }
  }

  lemma {:induction false} RunningPrefix(g: Gate, a: seq<Input>, b: seq<Input>)
    requires Running(g, a + b)
    ensures Running(g, a)
    decreases |b|
  {
    if b == [] {
      assert a + b == a;
    } else {
      assert (a + b)[..|a + b| - 1] == a + b[..|b| - 1];
      RunningPrefix(g, a, b[..|b| - 1]);
    }
  }

  /** Attached to a turn whose start the replay carried, the gate exits only on that turn's end. */
  lemma AttachExitsOnItsTurn(
      before: Option<TurnId>, turn: TurnId, replay: seq<Input>, rest: seq<Input>, last: Input)
    requires forall i | i in replay + rest + [last] :: i.Frame?
    requires forall i | i in replay :: i.replayed
    requires exists i :: i in replay && i.event == TurnStarted(turn)
    requires OneAtATime(before, replay + rest + [last]) && Running(AttachTo(turn), replay + rest)
    requires Exits(Feed(AttachTo(turn), replay + rest), last)
    ensures Current(before, replay + rest) == Some(turn)
  {
    assert (replay + rest + [last])[..|replay + rest|] == replay + rest;
    assert forall i | i in replay + rest :: i in replay + rest + [last];
    AttachInvariant(before, turn, replay + rest);
  }

  lemma {:induction false} NeverRestarted(turn: TurnId, inputs: seq<Input>)
    requires forall i | i in inputs :: i.Frame? && i.event != TurnStarted(turn)
    requires OneAtATime(Some(turn), inputs)
    ensures Current(Some(turn), inputs) == Some(turn) <==> forall i | i in inputs :: !Ends(i.event)
    decreases |inputs|
  {
    if inputs != [] {
      var earlier, last := inputs[..|inputs| - 1], inputs[|inputs| - 1];
      assert inputs == earlier + [last];
      NeverRestarted(turn, earlier);
      assert forall i | i in earlier :: i in inputs;
    }
  }

  /** When the replay is capped and the start is not in it, the exit is on the attached turn's own
      end exactly when no end was replayed before: a reconnect may replay that end, and the gate
      skips it. */
  lemma AttachWithoutItsStart(turn: TurnId, inputs: seq<Input>, last: Input)
    requires forall i | i in inputs + [last] :: i.Frame? && i.event != TurnStarted(turn)
    requires OneAtATime(Some(turn), inputs + [last]) && Running(AttachTo(turn), inputs)
    requires Exits(Feed(AttachTo(turn), inputs), last)
    ensures Current(Some(turn), inputs) == Some(turn) <==>
            forall i | i in inputs && i.replayed :: !Ends(i.event)
  {
    assert (inputs + [last])[..|inputs|] == inputs;
    assert forall i | i in inputs :: i in inputs + [last];
    NeverRestarted(turn, inputs);
    forall i | i in inputs && !i.replayed ensures !Ends(i.event) {
      LiveEndsExit(turn, inputs, i);
    }
  }

  /** A gate attached to `turn` does not run past the end of a turn that it sees live. */
  lemma LiveEndsExit(turn: TurnId, inputs: seq<Input>, end: Input)
    requires forall i | i in inputs :: i.Frame?
    requires OneAtATime(Some(turn), inputs) && Running(AttachTo(turn), inputs)
    requires end in inputs && !end.replayed
    ensures !Ends(end.event)
  {
    var k :| 0 <= k < |inputs| && inputs[k] == end;
    assert inputs == inputs[..k + 1] + inputs[k + 1..];
    RunningPrefix(AttachTo(turn), inputs[..k + 1], inputs[k + 1..]);
    OneAtATimePrefix(Some(turn), inputs[..k + 1], inputs[k + 1..]);
    assert inputs[..k + 1] == inputs[..k] + [end];
    FeedNext(AttachTo(turn), inputs[..k], end);
    OneAtATimePrefix(Some(turn), inputs[..k], [end]);
    AttachInvariant(Some(turn), turn, inputs[..k]);
  }

  lemma {:induction false} OneAtATimePrefix(before: Option<TurnId>, a: seq<Input>, b: seq<Input>)
    requires OneAtATime(before, a + b)
    ensures OneAtATime(before, a)
    decreases |b|
  {
    if b == [] {
      assert a + b == a;
    } else {
      assert (a + b)[..|a + b| - 1] == a + b[..|b| - 1];
      OneAtATimePrefix(before, a, b[..|b| - 1]);
    }
  }

  /** The capped replay does go wrong: this attach to turn 1 exits on the end of turn 2. */
  lemma AttachCanExitOnTheWrongTurn()
    ensures var inputs :=
        [Frame(true, TurnCompleted), Frame(false, TurnStarted(2))];
      && OneAtATime(Some(1), inputs + [Frame(false, TurnFailed)]) && Running(AttachTo(1), inputs)
      && Exits(Feed(AttachTo(1), inputs), Frame(false, TurnFailed))
      && Current(Some(1), inputs) == Some(2)
  {
    var end, start, last := Frame(true, TurnCompleted), Frame(false, TurnStarted(2)), Frame(false, TurnFailed);
    var none: seq<Input> := [];
    assert none + [end] == [end] && [end] + [start] == [end, start];
    FeedNext(AttachTo(1), none, end);
    FeedNext(AttachTo(1), [end], start);
    TraceNext(Some(1), none, end);
    TraceNext(Some(1), [end], start);
    TraceNext(Some(1), [end, start], last);
  }

  // ----- When the answer to the submission comes -----

  /** The frames before `i`, with the answer `Ran(turn)` arriving just before frame `p`. */
  ghost function WithAnswer(frames: seq<Input>, i: nat, p: nat, turn: TurnId): seq<Input>
    requires i <= |frames|
  {
    if i < p then frames[..i] else frames[..p] + [Ran(turn)] + frames[p..i]
  }

  ghost predicate OnlyStartsLive(frames: seq<Input>, turn: TurnId) {
    forall f | f in frames ::
      f.Frame? && (f.event.TurnStarted? ==> (f.event.turn == turn <==> !f.replayed))
  }

  /** The gate without the answer and with it: alike, or not yet bound and bound by the answer. */
  predicate Alike(without: Gate, answered: Gate, turn: TurnId) {
    && (without == SUBMIT || without == Gate(Some(turn), true, true))
    && (answered == without || (without == SUBMIT && answered == Gate(Some(turn), false, false)))
  }

  lemma AnswerKeepsAlike(g: Gate, turn: TurnId)
    requires Alike(g, g, turn)
    ensures Alike(g, After(g, Ran(turn)), turn)
  {}

  lemma FrameKeepsAlike(without: Gate, answered: Gate, f: Input, turn: TurnId)
    requires Alike(without, answered, turn)
    requires f.Frame? && (f.event.TurnStarted? ==> (f.event.turn == turn <==> !f.replayed))
    ensures Alike(After(without, f), After(answered, f), turn)
  {}

  lemma WithAnswerNext(frames: seq<Input>, i: nat, p: nat, turn: TurnId)
    requires i < |frames|
    ensures frames[..i + 1] == frames[..i] + [frames[i]]
    ensures i + 1 != p ==> WithAnswer(frames, i + 1, p, turn) == WithAnswer(frames, i, p, turn) + [frames[i]]
  {}

  lemma WithAnswerHere(frames: seq<Input>, i: nat, turn: TurnId)
    requires i <= |frames|
    ensures WithAnswer(frames, i, i, turn) == frames[..i] + [Ran(turn)]
  {}

  lemma {:induction false} AnswerChangesNothing(frames: seq<Input>, i: nat, p: nat, turn: TurnId)
    requires i <= |frames| && p <= |frames| && OnlyStartsLive(frames, turn)
    ensures Alike(Feed(SUBMIT, frames[..i]), Feed(SUBMIT, WithAnswer(frames, i, p, turn)), turn)
    decreases i
  {
    if i > 0 {
      var f := frames[i - 1];
      var without, answered := frames[..i - 1], WithAnswer(frames, i - 1, p, turn);
      AnswerChangesNothing(frames, i - 1, p, turn);
      WithAnswerNext(frames, i - 1, p, turn);
      assert f in frames;
      FeedNext(SUBMIT, without, f);
      FeedNext(SUBMIT, answered, f);
      FrameKeepsAlike(Feed(SUBMIT, without), Feed(SUBMIT, answered), f, turn);
    }
    if i == p {
      WithAnswerHere(frames, i, turn);
      FeedNext(SUBMIT, frames[..i], Ran(turn));
      AnswerKeepsAlike(Feed(SUBMIT, frames[..i]), turn);
    }
  }

  /** If `turn` is the only turn that starts live, every frame gets the same action, and the loop
      the same exit, wherever the answer naming `turn` falls. */
  lemma AnswerPositionIsIrrelevant(frames: seq<Input>, i: nat, p: nat, q: nat, turn: TurnId)
    requires i < |frames| && p <= |frames| && q <= |frames| && OnlyStartsLive(frames, turn)
    ensures var f := frames[i];
      ActionOn(Feed(SUBMIT, WithAnswer(frames, i, p, turn)), f.replayed, f.event)
      == ActionOn(Feed(SUBMIT, WithAnswer(frames, i, q, turn)), f.replayed, f.event)
  {
    assert frames[i] in frames;
    AnswerChangesNothing(frames, i, p, turn);
    AnswerChangesNothing(frames, i, q, turn);
  }

  lemma {:induction false} StartBinds(frames: seq<Input>, i: nat, s: nat, turn: TurnId)
    requires i <= |frames| && s < |frames| && OnlyStartsLive(frames, turn)
    requires frames[s].event == TurnStarted(turn) && forall k | 0 <= k < s :: frames[k].event != TurnStarted(turn)
    ensures Feed(SUBMIT, frames[..i]) == if i <= s then SUBMIT else Gate(Some(turn), true, true)
    decreases i
  {
    if i > 0 {
      StartBinds(frames, i - 1, s, turn);
      assert frames[..i] == frames[..i - 1] + [frames[i - 1]];
      FeedNext(SUBMIT, frames[..i - 1], frames[i - 1]);
      assert frames[i - 1] in frames && frames[s] in frames;
    }
  }

  /** A submission whose turn starts live shows nothing before that start and every frame from it
      on, until an end of which it makes its exit code; wherever the answer naming it falls. */
  lemma ItsOwnTurnIsShown(frames: seq<Input>, i: nat, p: nat, s: nat, turn: TurnId)
    requires i < |frames| && p <= |frames| && s < |frames| && OnlyStartsLive(frames, turn)
    requires frames[s].event == TurnStarted(turn) && forall k | 0 <= k < s :: frames[k].event != TurnStarted(turn)
    ensures ActionOn(Feed(SUBMIT, WithAnswer(frames, i, p, turn)), frames[i].replayed, frames[i].event) ==
      if i < s then Skip else Shown(frames[i].event)
  {
    assert frames[i] in frames && frames[s] in frames;
    StartBinds(frames, i, s, turn);
    AnswerChangesNothing(frames, i, p, turn);
  }

  /** A queued submission goes on as if it had just begun, so the above is true of its turn too. */
  lemma {:induction false} QueuedStartsOver(g: Gate, pre: seq<Input>, post: seq<Input>)
    ensures Feed(g, pre + [Queued] + post) == Feed(SUBMIT, post)
    decreases |post|
  {
    if post == [] {
      assert pre + [Queued] + post == pre + [Queued];
      FeedNext(g, pre, Queued);
    } else {
      var shorter, last := post[..|post| - 1], post[|post| - 1];
      assert pre + [Queued] + post == (pre + [Queued] + shorter) + [last] && post == shorter + [last];
      QueuedStartsOver(g, pre, shorter);
      FeedNext(g, pre + [Queued] + shorter, last);
      FeedNext(SUBMIT, shorter, last);
    }
  }

  lemma {:induction false} UnboundHasSeenNothing(g: Gate, inputs: seq<Input>)
    requires g.expected.None? ==> !g.seenStart
    ensures Feed(g, inputs).expected.None? ==> !Feed(g, inputs).seenStart
    decreases |inputs|
  {
    if inputs != [] { UnboundHasSeenNothing(g, inputs[..|inputs| - 1]); }
  }

  /** `WillClaim` announces exactly the frames that turn `seenStart` on. */
  lemma {:induction false} WillClaimIsExact(g: Gate, inputs: seq<Input>, turn: TurnId, replayed: bool)
    requires g == SUBMIT || exists t :: g == AttachTo(t)
    ensures var now := Feed(g, inputs);
      WillClaim(now, turn, replayed) <==>
      !now.seenStart && AfterFrame(now, replayed, TurnStarted(turn)).seenStart
  {
    UnboundHasSeenNothing(g, inputs);
  }
}
