/**
 The commands that connect and disconnect a folder.

 Every await consumes one `Fate` from `script`: what others did to the store and the broker
 meanwhile, how the request was answered, and whether the process died there. When the script has
 run out, nothing goes wrong any more. A script is an arbitrary input, so what a method promises
 without a condition on it holds for every schedule, lost reply and crash. What it promises of a
 `Quiet` script needs that nobody else acts, and of a `Calm` one that every request is answered too.

 The object keeps nothing between calls but the world, so a command that died and one that is
 started again are just two calls. `log` records each request that was served and the broker it was
 served by.
 */
module FolderSaga {
  import opened Prelude
  import opened HostBroker
  import opened AttachmentStore
  import opened SagaProtocol
  import opened FolderOutcomes
  import opened FolderGrants

  /** Served requests have landed; after Lost and Died only `landed` says whether they have. */
  datatype Answer = Served | Lost | Died

  datatype Fate = Fate(outside: seq<Action>, answer: Answer, landed: bool)

  datatype Reply<T> = Got(value: T) | NoReply | Dead

  const MAX_PENDING_ROOT_ATTACHMENT_CHANGES: nat := 256

  /** Nobody else acts; requests and processes may still fail. */
  predicate Quiet(script: seq<Fate>) {
    forall f | f in script :: f.outside == []
  }

  predicate Calm(script: seq<Fate>) {
    Quiet(script) && forall f | f in script :: f.answer.Served?
  }

  function Deliver<T>(answer: Answer, value: T): Reply<T> {
    match answer
    case Served => Got(value)
    case Lost => NoReply
    case Died => Dead
  }

  const UNEVENTFUL: Fate := Fate([], Served, true)

  function Head(script: seq<Fate>): Fate {
    if script == [] then UNEVENTFUL else script[0]
  }

  function Tail(script: seq<Fate>): seq<Fate> {
    if script == [] then [] else script[1..]
  }

  /** What other programs do: they leave this executor's changes to it. */
  predicate ByOthers(a: Action, w: World) {
    && Legal(a, w) && !a.Observe?
    && (a.BeginChange? ==> a.intent.executor != w.me)
    && (a.FinishChange? ==> a.executor != w.me)
    && (a.AskBroker? && a.command.ToMutate? ==> !Mine(w, a.command.op))
  }

  /** This executor's changes are what they were, except `but`. */
  ghost predicate MineKept(w: World, w': World, but: Option<Id>) {
    && w'.me == w.me
    && (forall id :: Mine(w', id) <==> Mine(w, id))
    && (forall id | Mine(w, id) && Some(id) != but :: w'.store.changes[id] == w.store.changes[id])
    && (forall c | c in w.store.chats :: c in w'.store.chats && w'.store.chats[c].subject == w.store.chats[c].subject)
  }

  /** The world after others took those of their steps that were theirs to take. */
  function Others(w: World, outside: seq<Action>): World {
    if outside == [] then w
    else
      var before := Others(w, outside[..|outside| - 1]);
      var a := outside[|outside| - 1];
      if ByOthers(a, before) then Apply(a, before) else before
  }

  lemma OthersKeepMine(a: Action, w: World)
    requires ByOthers(a, w)
    ensures MineKept(w, Apply(a, w), None) && Apply(a, w).seen == w.seen
  {
    match a {
      case BeginChange(id, intent) => BeginKeepsRows(w.store, id, intent);
      case FinishChange(id, executor, t) => FinishKeepsRows(w.store, id, executor, t);
      case _ =>
    }
  }

  lemma MineKeptTwice(w: World, m: World, w': World, but: Option<Id>)
    requires MineKept(w, m, but) && MineKept(m, w', but)
    ensures MineKept(w, w', but)
  {}

  lemma OthersNext(w: World, outside: seq<Action>, i: nat)
    requires i < |outside|
    ensures var before := Others(w, outside[..i]);
      var after := Others(w, outside[..i + 1]);
      && after == (if ByOthers(outside[i], before) then Apply(outside[i], before) else before)
      && (MineKept(w, before, None) && before.seen == w.seen ==> MineKept(w, after, None) && after.seen == w.seen)
  {
    var before := Others(w, outside[..i]);
    assert outside[..i + 1][..i] == outside[..i];
    if ByOthers(outside[i], before) {
      OthersKeepMine(outside[i], before);
    }
  }

  lemma MineKeptBut(w: World, w': World, but: Option<Id>)
    requires MineKept(w, w', None)
    ensures MineKept(w, w', but)
  {}

  ghost function SubjectOf(w: World, id: Id): Subject
    requires Named(w) && Mine(w, id)
  {
    w.store.chats[w.store.changes[id].chat].subject
  }

  /** The row ended, or is what it was. */
  ghost predicate Ended(c: Change, c': Change) {
    c' == c || (c.phase.AwaitingBroker? && !c'.phase.AwaitingBroker?
                && c' == c.(phase := c'.phase, changed := c'.changed, attached := c'.attached))
  }

  lemma FinishKeepsMine(w: World, id: Id, t: Terminal)
    ensures MineKept(w, Apply(FinishChange(id, w.me, t), w), Some(id))
  {}

  lemma KeptThenBut(w: World, m: World, w': World, id: Id)
    requires MineKept(w, m, None) && MineKept(m, w', Some(id))
    ensures MineKept(w, w', Some(id))
  {}

  lemma FinishEffect(w0: World, w: World, id: Id, t: Terminal)
    requires MineKept(w0, w, None)
    requires Inv(w) && IsPending(w, id) && Coherent(w.store.changes[id].kind, t)
    ensures var w' := Apply(FinishChange(id, w.me, t), w);
      && MineKept(w0, w', Some(id)) && Mine(w', id)
      && w'.store.changes[id] == Settle(w.store.changes[id], t)
      && Ended(w.store.changes[id], w'.store.changes[id])
      && Finish(w.store, id, w.me, t).1 == Settled(w'.store.changes[id])
  {
    FinishAlwaysLands(w.store, id, t);
    FinishKeepsMine(w, id, t);
    KeptThenBut(w0, w, Apply(FinishChange(id, w.me, t), w), id);
  }

  /** This executor's changes are what they were or have ended; there may be more of them. */
  ghost predicate Onward(w: World, w': World) {
    && w'.me == w.me
    && (forall id | Mine(w, id) :: Mine(w', id) && Ended(w.store.changes[id], w'.store.changes[id]))
    && (forall c | c in w.store.chats :: c in w'.store.chats && w'.store.chats[c].subject == w.store.chats[c].subject)
  }

  /** As `Onward`, with no new change. */
  ghost predicate Settling(w: World, w': World) {
    Onward(w, w') && forall id | Mine(w', id) :: Mine(w, id)
  }

  lemma OnwardTwice(w: World, m: World, w': World)
    requires Onward(w, m) && Onward(m, w')
    ensures Onward(w, w')
  {}

  ghost predicate Asks(change: Change, chat: Id, root: Id, kind: Kind) {
    change.chat == chat && change.root == root && change.kind == kind
  }

  lemma BeginEffect(w0: World, w: World, intent: Intent)
    requires Inv(w) && Onward(w0, w) && intent.executor == w.me
    ensures var id := w.broker.next;
      var w' := Apply(BeginChange(id, intent), w);
      var reply := Begin(w.store, id, intent).1;
      && Onward(w0, w') && !reply.Existing?
      && (reply.Begun? ==>
            IsPending(w', id) && Asks(w'.store.changes[id], intent.chat, intent.root, intent.kind))
  {
    var id := w.broker.next;
    BeginKeepsRows(w.store, id, intent);
    OnwardTwice(w0, w, Apply(BeginChange(id, intent), w));
  }

  ghost predicate RegisteredCalmly(
      w: World, w': World, chat: Id, directory: nat, verdict: Verdict, root: Id)
    requires chat in w.store.chats
  {
    var (b, known) := RegistrationOf(w.store, w.broker, chat, directory);
    if known.None? then verdict == Trouble
    else verdict == Fine && root == known.value && w'.store == w.store && w'.broker == b
  }

  ghost predicate AdmittedCalmly(
      s: Store, b: Broker, w': World, chat: Id, directory: nat, verdict: Verdict, root: Id, snapshot: Chat)
    requires chat in s.chats
  {
    var (b', known) := RegistrationOf(s, b, chat, directory);
    if known.None? then verdict == Trouble
    else
      && verdict == Fine && root == known.value && w'.store == s && w'.broker == b'
      && snapshot == s.chats[chat]
  }

  /** Others act at most between the second request and its answer. */
  predicate OnlyLate(script: seq<Fate>) {
    && Head(script) == UNEVENTFUL && Head(Tail(script)).answer.Served? && Calm(Tail(Tail(script)))
  }

  /** A change of this executor's, new since `w0`, that ended as asked: its deciding lookup saw the
      attachment it asked for. */
  ghost predicate CarriedOut(w0: World, w: World, id: Id, chat: Id, root: Id, kind: Kind) {
    && !Mine(w0, id) && Mine(w, id) && Asks(w.store.changes[id], chat, root, kind)
    && w.store.changes[id].phase.Finished?
    && id in w.seen && w.seen[id] == Desired(kind)
  }

  ghost predicate HasCarriedOut(w0: World, w: World, chat: Id, root: Id, kind: Kind) {
    exists id :: CarriedOut(w0, w, id, chat, root, kind)
  }

  lemma EndedAsItWasSeen(w: World, id: Id)
    requires Inv(w) && Mine(w, id) && w.store.changes[id].phase.Finished?
    ensures id in w.seen && w.seen[id] == Desired(w.store.changes[id].kind)
  {}

  /** What has been carried out stays so, whatever happens next and whatever came before. */
  lemma StaysCarriedOut(w0: World, m: World, m': World, w: World, chat: Id, root: Id, kind: Kind)
    requires Onward(w0, m) && HasCarriedOut(m, m', chat, root, kind) && Onward(m', w) && Inv(w)
    ensures HasCarriedOut(w0, w, chat, root, kind)
  {
    var id :| CarriedOut(m, m', id, chat, root, kind);
    assert CarriedOut(w0, w, id, chat, root, kind);
  }

  lemma MineKeptIsOnward(w: World, w': World)
    requires MineKept(w, w', None)
    ensures Settling(w, w')
  {}

  lemma EndedIsOnward(w: World, w': World, id: Id)
    requires MineKept(w, w', Some(id)) && Mine(w, id)
    requires Ended(w.store.changes[id], w'.store.changes[id])
    ensures Settling(w, w')
  {}

  lemma SamePending(w: World, w': World)
    requires MineKept(w, w', None)
    ensures MyPending(w') == MyPending(w)
    ensures forall chat :: MyPendingIn(w', chat) == MyPendingIn(w, chat)
  {}

  /** How a pass stands before its `i`th change: the earlier ones of this chat have ended. */
  ghost predicate Left(w: World, queue: seq<Id>, i: nat, chat: Id)
    requires i <= |queue|
  {
    && Distinct(queue)
    && (forall j | i <= j < |queue| :: IsPending(w, queue[j]))
    && (forall j | 0 <= j < i :: Mine(w, queue[j]))
    && (forall j | 0 <= j < i && w.store.changes[queue[j]].chat == chat :: !IsPending(w, queue[j]))
  }

  lemma SettlingNext(w0: World, w: World, w': World, queue: seq<Id>, i: nat, chat: Id)
    requires i < |queue| && Settling(w0, w) && Left(w, queue, i, chat)
    requires MineKept(w, w', Some(queue[i])) && Ended(w.store.changes[queue[i]], w'.store.changes[queue[i]])
    ensures Settling(w0, w')
    ensures forall id | IsPending(w', id) :: IsPending(w, id)
    ensures !w'.store.changes[queue[i]].phase.AwaitingBroker? ==> Left(w', queue, i + 1, chat)
  {}

  lemma Shrinks(w: World, w': World, chat: Id, id: Id)
    requires Settling(w, w')
    ensures MyPendingIn(w', chat) <= MyPendingIn(w, chat)
    ensures id in MyPendingIn(w, chat) && !IsPending(w', id) ==> MyPendingIn(w', chat) < MyPendingIn(w, chat)
  {}

  lemma LeftInStart(start: World, w: World, queue: seq<Id>, i: nat, chat: Id)
    requires i < |queue| && Settling(start, w) && Left(w, queue, i, chat)
    requires w.store.changes[queue[i]].chat == chat
    ensures queue[i] in MyPendingIn(start, chat)
  {}

  lemma AllSettled(listed: World, w: World, queue: seq<Id>, chat: Id)
    requires Left(w, queue, |queue|, chat)
    requires forall id | IsPending(w, id) :: IsPending(listed, id)
    ensures (forall id | id in MyPending(listed) :: id in queue) ==> MyPendingIn(w, chat) == {}
  {
    if forall id | id in MyPending(listed) :: id in queue {
      forall id | IsPending(w, id) ensures w.store.changes[id].chat != chat {
        assert id in MyPending(listed);
        var j :| 0 <= j < |queue| && queue[j] == id;
      }
    }
  }

  /** The change went its undisturbed course. */
  ghost predicate EndedCalmly(w: World, w': World, id: Id, verdict: Verdict)
    requires Named(w) && id in w.store.changes
  {
    && w'.broker == Carried(w, id)
    && w'.store == Finish(w.store, id, w.me, CalmTerminal(w, id)).0
    && verdict == CalmVerdict(CalmTerminal(w, id))
  }

  ghost predicate SettledCalmly(w: World, w': World, chat: Id, verdict: Verdict)
    requires Named(w)
  {
    && w'.store == SettledStore(w, chat) && w'.broker == SettledBroker(w, chat)
    && verdict == if SettlesFine(w, chat) then Fine else ChangeFailed
  }

  /** The chat exists, and this executor's pending changes fit one listing. */
  ghost predicate Listable(w: World, chat: Id) {
    chat in w.store.chats && |MyPending(w)| <= 256
  }

  /** How an undisturbed pass stands: nothing has happened before the chat's one pending change. */
  ghost predicate CalmSoFar(listed: World, w: World, queue: seq<Id>, i: nat, chat: Id, verdict: Verdict)
    requires Named(listed) && i <= |queue|
  {
    && (forall j | 0 <= j < i && queue[j] in MyPendingIn(listed, chat) ::
          EndedCalmly(listed, w, queue[j], verdict))
    && ((forall j | 0 <= j < i :: queue[j] !in MyPendingIn(listed, chat)) ==> w == listed && verdict.Fine?)
  }

  lemma CalmNext(
      listed: World, w: World, w': World, queue: seq<Id>, i: nat, chat: Id, verdict: Verdict)
    requires Inv(listed) && Inv(w) && i < |queue| && Distinct(queue)
    requires CalmSoFar(listed, w, queue, i, chat, Fine)
    requires queue[i] in w.store.changes && queue[i] in MyPending(listed)
    requires w.store.changes[queue[i]].chat == listed.store.changes[queue[i]].chat
    requires w.store.changes[queue[i]].chat != chat ==> w' == w && verdict.Fine?
    requires w.store.changes[queue[i]].chat == chat ==> EndedCalmly(w, w', queue[i], verdict)
    ensures CalmSoFar(listed, w', queue, i + 1, chat, verdict)
  {
    forall j | 0 <= j < i && queue[j] in MyPendingIn(listed, chat) ensures queue[i] !in MyPendingIn(listed, chat) {
      OnlyOnePending(listed, chat, queue[i], queue[j]);
    }
  }

  ghost predicate WentCalmly(listed: World, w: World, queue: seq<Id>, chat: Id, verdict: Verdict)
    requires Named(listed)
  {
    exists i: nat :: i <= |queue| && CalmSoFar(listed, w, queue, i, chat, verdict) && (i < |queue| ==> !verdict.Fine?)
  }

  /** After the queue, if it held every pending change. */
  lemma ListedIsSettled(listed: World, w: World, queue: seq<Id>, chat: Id, verdict: Verdict)
    requires forall id | IsPending(w, id) :: IsPending(listed, id)
    requires verdict.Fine? ==> Left(w, queue, |queue|, chat)
    ensures verdict.Fine? && (forall id | id in MyPending(listed) :: id in queue) ==> MyPendingIn(w, chat) == {}
    ensures (Inv(listed) && WentCalmly(listed, w, queue, chat, verdict)
             && forall id | id in MyPending(listed) :: id in queue) ==> SettledCalmly(listed, w, chat, verdict)
  {
    if verdict.Fine? {
      AllSettled(listed, w, queue, chat);
    }
    if Inv(listed) && WentCalmly(listed, w, queue, chat, verdict) {
      var i: nat :| i <= |queue| && CalmSoFar(listed, w, queue, i, chat, verdict) && (i < |queue| ==> !verdict.Fine?);
      CalmEnds(listed, w, queue, i, chat, verdict);
    }
  }

  lemma CalmEnds(listed: World, w: World, queue: seq<Id>, i: nat, chat: Id, verdict: Verdict)
    requires Inv(listed) && i <= |queue| && CalmSoFar(listed, w, queue, i, chat, verdict)
    requires i < |queue| ==> !verdict.Fine?
    ensures (forall id | id in MyPending(listed) :: id in queue) ==> SettledCalmly(listed, w, chat, verdict)
  {
    if forall id | id in MyPending(listed) :: id in queue {
      assert PendingHere(listed, chat).Some? ==> PendingHere(listed, chat).value in queue;
      if j :| 0 <= j < i && queue[j] in MyPendingIn(listed, chat) {
        PendingIsUnique(listed, chat, queue[j]);
      }
    }
  }

  ghost predicate BothHave(w: World, chat: Id, root: Id, attached: bool) {
    && HasAttachment(w.broker, chat, root) == attached
    && chat in w.store.chats && (root in w.store.chats[chat].projection <==> attached)
  }

  /** Broker and chat both have what the change asked for. */
  ghost predicate Holding(w: World, id: Id)
    requires Mine(w, id)
  {
    var change := w.store.changes[id];
    BothHave(w, change.chat, change.root, Desired(change.kind))
  }

  datatype Job = Connecting(chat: Id, directory: nat) | Disconnecting(chat: Id, root: Id)

  class FolderCli {
    var world: World
    var script: seq<Fate>
    ghost var log: seq<Entry>

    /** The invariant holds. It is unfolded only by `Knows`, which consults it: most proofs pass it
        on and need none of it but the names. */
    ghost predicate Valid()
      reads `world
    {
      Named(world) && forall k: nat {:trigger Consulted(k)} :: Consulted(k) ==> Inv(world)
    }

    lemma Knows()
      requires Valid()
      ensures Inv(world)
    {
      assert Consulted(0);
    }

    constructor (world: World, script: seq<Fate>)
      requires Inv(world)
      ensures Valid() && this.world == world && this.script == script && log == []
    {
      this.world, this.script, log := world, script, [];
    }

    method Do(a: Action)
      requires Valid() && Legal(a, world)
      modifies this`world
      ensures Valid() && world == Apply(a, old(world))
    {
      Knows();
      StepKeepsInv(a, world);
      world := Apply(a, world);
    }

    /** Send the broker a request. */
    method Ask(c: Command)
      requires Valid() && Legal(AskBroker(c), world)
      modifies this`world, this`log
      ensures Valid() && world == Apply(AskBroker(c), old(world))
      ensures log == old(log) + [Asked(old(world).broker, c)]
    {
      log := log + [Asked(world.broker, c)];
      Do(AskBroker(c));
    }

    /** Give up control: others act, and the next fate is drawn. */
    method AwaitFate() returns (answer: Answer, landed: bool)
      requires Valid()
      modifies this`world, this`script
      ensures Valid() && MineKept(old(world), world, None) && world.seen == old(world).seen
      ensures world == Others(old(world), Head(old(script)).outside) && script == Tail(old(script))
      ensures answer == Head(old(script)).answer && (answer.Served? ==> landed)
    {
      if script == [] {
        return Served, true;
      }
      var fate := script[0];
      script := script[1..];
      var i := 0;
      while i < |fate.outside|
        invariant Valid() && i <= |fate.outside|
        invariant world == Others(old(world), fate.outside[..i])
        invariant MineKept(old(world), world, None) && world.seen == old(world).seen
        invariant script == old(script)[1..]
      {
        OthersNext(old(world), fate.outside, i);
        if ByOthers(fate.outside[i], world) {
          Do(fate.outside[i]);
        }
        i := i + 1;
      }
      assert fate.outside[..i] == fate.outside;
      answer, landed := fate.answer, fate.answer.Served? || fate.landed;
    }

    method Await() returns (answer: Answer, landed: bool)
      requires Valid()
      modifies this`world, this`script
      ensures Valid() && MineKept(old(world), world, None) && world.seen == old(world).seen
      ensures script == Tail(old(script)) && (Head(old(script)) == UNEVENTFUL ==> world == old(world) && answer.Served?)
      ensures answer.Served? ==> landed
      ensures old(Quiet(script)) ==> world == old(world) && Quiet(script)
      ensures old(Calm(script)) ==> answer.Served? && Calm(script)
    {
      answer, landed := AwaitFate();
    }

    // ----- The broker's half -----

    method LookUp(id: Id) returns (r: Reply<Receipt>)
      requires Valid() && IsPending(world, id)
      modifies this`world, this`script
      ensures Valid() && MineKept(old(world), world, None)
      ensures r.Got? && !r.value.Unknown? ==> id in world.seen && world.seen[id] == r.value.attached
      ensures old(Quiet(script)) ==>
        && Quiet(script) && world == old(world).(seen := world.seen)
        && (r.Got? ==> Some(r.value) == ReceiptOf(world, id))
      ensures old(Calm(script)) ==> r.Got? && Calm(script)
    {
      var answer, _ := Await();
      var receipt := ReceiptOf(world, id);
      Knows();
      EveryLookupAnswers(world, id);
      if answer.Served? && !receipt.value.Unknown? {
        Do(Observe(id));
      }
      r := Deliver(answer, receipt.value);
    }

    method Dispatch(id: Id) returns (answer: Answer)
      requires Valid() && IsPending(world, id)
      modifies this
      ensures Valid() && MineKept(old(world), world, None)
      ensures OnlyMild(old(log), log, SubjectOf(world, id), world.store.changes[id].chat)
      ensures old(Quiet(script)) ==>
        && Quiet(script) && world.store == old(world).store
        && GrantsKept(old(world).broker, world.broker, SubjectOf(world, id), world.store.changes[id].chat)
      ensures old(Calm(script)) ==>
        && answer.Served? && Calm(script)
        && world.broker == Mutate(old(world).broker, id, RequestOf(old(world), id)).0
    {
      var landed;
      answer, landed := Await();
      if landed {
        Knows();
        MutateKeepsGrants(world.broker, id, RequestOf(world, id));
        MutateIsMild(world.broker, id, RequestOf(world, id));
        Ask(ToMutate(id, RequestOf(world, id)));
      }
    }

    /** Carry out the broker half of a change, and look again. */
    method DispatchAndLookUp(id: Id) returns (r: Reply<Receipt>)
      requires Valid() && IsPending(world, id)
      modifies this
      ensures Valid() && MineKept(old(world), world, None)
      ensures OnlyMild(old(log), log, SubjectOf(world, id), world.store.changes[id].chat)
      ensures r.Got? && !r.value.Unknown? ==> id in world.seen && world.seen[id] == r.value.attached
      ensures old(Quiet(script)) ==>
        && Quiet(script) && world.store == old(world).store
        && GrantsKept(old(world).broker, world.broker, SubjectOf(world, id), world.store.changes[id].chat)
        && (r.Got? ==> Some(r.value) == ReceiptOf(world, id))
      ensures old(Calm(script)) ==>
        && Calm(script) && r.Got?
        && world.broker == Mutate(old(world).broker, id, RequestOf(old(world), id)).0
    {
      var answer := Dispatch(id);
      if answer.Died? {
        return Dead;
      }
      ghost var between := world;
      r := LookUp(id);
      MineKeptTwice(old(world), between, world, None);
    }

    /** Carry out the broker half of a change, or find out that it was. */
    method ConvergeBroker(id: Id) returns (r: Reply<Terminal>)
      requires Valid() && IsPending(world, id)
      modifies this
      ensures Valid() && MineKept(old(world), world, None)
      ensures OnlyMild(old(log), log, SubjectOf(world, id), world.store.changes[id].chat)
      ensures r.Got? ==>
        && id in world.seen && Reports(r.value, world.seen[id])
        && Coherent(world.store.changes[id].kind, r.value)
      ensures old(Quiet(script)) ==>
        && Quiet(script) && world.store == old(world).store
        && GrantsKept(old(world).broker, world.broker, SubjectOf(world, id), world.store.changes[id].chat)
        && (r.Got? ==>
              var change := world.store.changes[id];
              world.seen[id] == HasAttachment(world.broker, change.chat, change.root))
      ensures old(Calm(script)) ==>
        && Calm(script) && world.broker == Carried(old(world), id)
        && r == Got(CalmTerminal(old(world), id))
    {
      Knows();
      EveryLookupAnswers(world, id);
      CarriedIsLookedUp(world, id);
      var receipt := LookUp(id);
      if receipt == Got(Unknown) {
        ghost var before := world;
        receipt := DispatchAndLookUp(id);
        MineKeptTwice(old(world), before, world, None);
      }
      Knows();
      EveryLookupAnswers(world, id);
      match receipt {
        case NoReply => r := NoReply;
        case Dead => r := Dead;
        case Got(value) =>
          var t := MutationTerminal(value, world.store.changes[id].kind);
          r := if t.Some? then Got(t.value) else NoReply;
      }
    }

    // ----- One change -----

    /** The store finishes a pending change: nothing others did can keep it from that. */
    method StoreFinishes(id: Id, t: Terminal, ghost start: World) returns (reply: FinishAnswer)
      requires Valid() && IsPending(world, id) && MineKept(start, world, None)
      requires id in world.seen && Reports(t, world.seen[id]) && Coherent(world.store.changes[id].kind, t)
      modifies this`world
      ensures Valid() && MineKept(start, world, Some(id)) && Mine(world, id)
      ensures world == old(world).(store := Finish(old(world).store, id, old(world).me, t).0)
      ensures world.store.changes[id] == Settle(old(world).store.changes[id], t)
      ensures Ended(old(world).store.changes[id], world.store.changes[id])
      ensures reply == Settled(world.store.changes[id])
    {
      Knows();
      FinishEffect(start, world, id, t);
      reply := Finish(world.store, id, world.me, t).1;
      Do(FinishChange(id, world.me, t));
    }

    method FinishIntent(id: Id, t: Terminal) returns (r: Reply<FinishAnswer>)
      requires Valid() && IsPending(world, id)
      requires id in world.seen && Reports(t, world.seen[id]) && Coherent(world.store.changes[id].kind, t)
      modifies this`world, this`script
      ensures Valid() && MineKept(old(world), world, Some(id)) && Mine(world, id)
      ensures Ended(old(world).store.changes[id], world.store.changes[id])
      ensures r.Got? ==>
        && r.value == Settled(world.store.changes[id])
        && world.store.changes[id] == Settle(old(world).store.changes[id], t)
      ensures old(Quiet(script)) ==>
        && Quiet(script) && world.broker == old(world).broker && world.seen == old(world).seen
        && (r.Got? ==> world.store == Finish(old(world).store, id, world.me, t).0)
      ensures old(Calm(script)) ==> r.Got? && Calm(script)
    {
      var answer, landed := Await();
      MineKeptBut(old(world), world, Some(id));
      if !landed {
        return if answer.Died? then Dead else NoReply;
      }
      var reply := StoreFinishes(id, t, old(world));
      r := Deliver(answer, reply);
    }

    /** Bring a pending change to an end. */
    method SettlePending(id: Id) returns (r: Reply<FinishAnswer>)
      requires Valid() && IsPending(world, id)
      modifies this
      ensures Valid() && MineKept(old(world), world, Some(id)) && Mine(world, id)
      ensures Ended(old(world).store.changes[id], world.store.changes[id])
      ensures OnlyMild(old(log), log, SubjectOf(world, id), world.store.changes[id].chat)
      ensures r.Got? ==> !IsPending(world, id)
      ensures old(Quiet(script)) ==>
        Quiet(script) && GrantsKept(old(world).broker, world.broker, SubjectOf(world, id), world.store.changes[id].chat)
      ensures old(Quiet(script)) && r.Got? && world.store.changes[id].phase.Finished? ==> Holding(world, id)
      ensures old(Calm(script)) ==>
        && Calm(script) && r.Got? && world.broker == Carried(old(world), id)
        && world.store == Finish(old(world).store, id, world.me, CalmTerminal(old(world), id)).0
        && world.store.changes[id] == Settle(old(world).store.changes[id], CalmTerminal(old(world), id))
    {
      var terminal := ConvergeBroker(id);
      MineKeptBut(old(world), world, Some(id));
      if !terminal.Got? {
        return if terminal.Dead? then Dead else NoReply;
      }
      ghost var before := world;
      Knows();
      FinishedProjection(world.store, id, terminal.value, world.store.changes[id].root);
      r := FinishIntent(id, terminal.value);
      MineKeptTwice(old(world), before, world, Some(id));
    }

    /** Bring one change to an end, and say which. A change that ended has the broker and the chat
        agree with it, as far as nobody else interfered. */
    method SettleChange(id: Id) returns (verdict: Verdict)
      requires Valid() && Mine(world, id)
      modifies this
      ensures Valid() && MineKept(old(world), world, Some(id)) && Mine(world, id)
      ensures Ended(old(world).store.changes[id], world.store.changes[id])
      ensures OnlyMild(old(log), log, SubjectOf(world, id), world.store.changes[id].chat)
      ensures verdict.Fine? ==> world.store.changes[id].phase.Finished?
      ensures verdict.ChangeFailed? ==> world.store.changes[id].phase.Undone?
      ensures old(Quiet(script)) ==>
        Quiet(script) && GrantsKept(old(world).broker, world.broker, SubjectOf(world, id), world.store.changes[id].chat)
      ensures old(Quiet(script)) && old(IsPending(world, id)) && verdict.Fine? ==> Holding(world, id)
      ensures old(Calm(script)) ==> Calm(script)
      ensures old(Calm(script)) && old(IsPending(world, id)) ==>
        && world.broker == Carried(old(world), id)
        && world.store == Finish(old(world).store, id, world.me, CalmTerminal(old(world), id)).0
        && verdict == CalmVerdict(CalmTerminal(old(world), id))
    {
      if world.store.changes[id].phase.AwaitingBroker? {
        var finished := SettlePending(id);
        if !finished.Got? {
          return if finished.Dead? then Crashed else Trouble;
        }
      }
      match world.store.changes[id].phase {
        case Finished => verdict := Fine;
        case Undone => verdict := ChangeFailed;
        case AwaitingBroker => verdict := Trouble;
      }
    }

    /** Ok with an identity: the intent is durable under it. */
    method BeginIntent(chat: Id, root: Id, kind: Kind, expected: nat) returns (r: Reply<BeginAnswer>, id: Id)
      requires Valid() && chat in world.store.chats
      modifies this`world, this`script
      ensures Valid() && Onward(old(world), world)
      ensures r.Got? && (r.value.Begun? || r.value.Existing?) ==>
        IsPending(world, id) && !Mine(old(world), id) && Asks(world.store.changes[id], chat, root, kind) && id !in world.broker.receipts
      ensures old(Quiet(script)) ==>
        Quiet(script) && world.broker == old(world).broker.(next := world.broker.next)
      ensures old(Calm(script)) ==>
        && Calm(script) && r.Got?
        && (r.value.Begun? <==>
              MayBegin(old(world).store, chat, root, kind) && old(world).store.chats[chat].revision == expected)
        && !r.value.Existing?
    {
      var answer, landed := Await();
      id := world.broker.next;
      var intent := Intent(chat, world.me, root, kind, expected);
      var reply := Begin(world.store, id, intent).1;
      MineKeptIsOnward(old(world), world);
      BeginsExactlyWhen(world.store, id, intent);
      if landed {
        Knows();
        BeginEffect(old(world), world, intent);
        Do(BeginChange(id, intent));
      }
      r := Deliver(answer, reply);
    }

    /** Settle a change the broker has not seen yet. */
    method SettleNew(id: Id, ghost chat: Id, ghost root: Id, ghost kind: Kind) returns (verdict: Verdict)
      requires Valid() && IsPending(world, id) && Asks(world.store.changes[id], chat, root, kind)
      requires id !in world.broker.receipts
      modifies this
      ensures Valid() && Onward(old(world), world) && chat in world.store.chats
      ensures OnlyMild(old(log), log, world.store.chats[chat].subject, chat)
      ensures Mine(world, id) && Asks(world.store.changes[id], chat, root, kind)
      ensures verdict.Fine? ==>
        world.store.changes[id].phase.Finished? && id in world.seen && world.seen[id] == Desired(kind)
      ensures old(Quiet(script)) ==>
        Quiet(script) && GrantsKept(old(world).broker, world.broker, world.store.chats[chat].subject, chat)
      ensures old(Quiet(script)) && verdict.Fine? ==> BothHave(world, chat, root, Desired(kind))
      ensures old(Calm(script)) ==>
        && Calm(script) && verdict == NewVerdict(old(world).broker, chat, root, kind)
        && (kind.Detach? ==> SamePermissions(old(world).broker, world.broker))
    {
      Knows();
      NewChangeEnds(world, id);
      verdict := SettleChange(id);
      EndedIsOnward(old(world), world, id);
      if verdict.Fine? {
        Knows();
        EndedAsItWasSeen(world, id);
      }
    }

    /** Commit one intent, then converge the broker to it. */
    method DriveChange(chat: Id, root: Id, kind: Kind, expected: nat) returns (verdict: Verdict)
      requires Valid() && chat in world.store.chats
      modifies this
      ensures Valid() && Onward(old(world), world) && chat in world.store.chats
      ensures OnlyMild(old(log), log, world.store.chats[chat].subject, chat)
      ensures verdict.Fine? ==> HasCarriedOut(old(world), world, chat, root, kind)
      ensures old(Quiet(script)) ==>
        Quiet(script) && GrantsKept(old(world).broker, world.broker, world.store.chats[chat].subject, chat)
      ensures old(Quiet(script)) && verdict.Fine? ==> BothHave(world, chat, root, Desired(kind))
      ensures old(Calm(script)) ==>
        && Calm(script)
        && (verdict == if MayBegin(old(world).store, chat, root, kind)
                          && old(world).store.chats[chat].revision == expected
                       then NewVerdict(old(world).broker, chat, root, kind) else Trouble)
        && (kind.Detach? ==> SamePermissions(old(world).broker, world.broker))
    {
      var begun, id := BeginIntent(chat, root, kind, expected);
      match begun {
        case NoReply => verdict := Trouble;
        case Dead => verdict := Crashed;
        case Got(reply) =>
          if !reply.Begun? && !reply.Existing? {
            return Trouble;
          }
          ghost var before := world;
          verdict := SettleNew(id, chat, root, kind);
          OnwardTwice(old(world), before, world);
          assert verdict.Fine? ==> CarriedOut(old(world), world, id, chat, root, kind);
      }
    }

    // ----- Changes an earlier run left behind -----

    method ListPending() returns (r: Reply<seq<Id>>)
      requires Valid()
      modifies this`world, this`script
      ensures Valid() && MineKept(old(world), world, None)
      ensures r.Got? ==>
        && Distinct(r.value) && (forall id | id in r.value :: IsPending(world, id))
        && (|MyPending(world)| <= MAX_PENDING_ROOT_ATTACHMENT_CHANGES ==>
              forall id | id in MyPending(world) :: id in r.value)
      ensures old(Quiet(script)) ==> Quiet(script) && world == old(world)
      ensures old(Calm(script)) ==> r.Got? && Calm(script)
    {
      var answer, _ := Await();
      var all := InSomeOrder(MyPending(world));
      SameSize(all, MyPending(world));
      var listed :=
        if |all| <= MAX_PENDING_ROOT_ATTACHMENT_CHANGES then all
        else all[..MAX_PENDING_ROOT_ATTACHMENT_CHANGES];
      assert forall id | id in listed :: id in all;
      r := Deliver(answer, listed);
    }

    method SettleListed(queue: seq<Id>, i: nat, chat: Id, ghost start: World) returns (verdict: Verdict)
      requires Valid() && i < |queue| && Settling(start, world) && Left(world, queue, i, chat)
      requires chat in world.store.chats
      modifies this
      ensures Valid() && Settling(start, world) && chat in world.store.chats
      ensures world.store.chats[chat].subject == old(world).store.chats[chat].subject
      ensures OnlyMild(old(log), log, world.store.chats[chat].subject, chat)
      ensures verdict.Fine? ==> Left(world, queue, i + 1, chat)
      ensures forall id | IsPending(world, id) :: old(IsPending(world, id))
      ensures verdict.ChangeFailed? ==> MyPendingIn(world, chat) < MyPendingIn(start, chat)
      ensures old(Quiet(script)) ==>
        Quiet(script) && GrantsKept(old(world).broker, world.broker, world.store.chats[chat].subject, chat)
      ensures old(world).store.changes[queue[i]].chat != chat ==> world == old(world) && verdict.Fine?
      ensures old(Calm(script)) ==> Calm(script) && (verdict.Fine? || verdict.ChangeFailed?)
      ensures old(Calm(script)) && old(world).store.changes[queue[i]].chat == chat ==>
        EndedCalmly(old(world), world, queue[i], verdict)
    {
      if world.store.changes[queue[i]].chat != chat {
        return Fine;
      }
      LeftInStart(start, world, queue, i, chat);
      verdict := SettleChange(queue[i]);
      SettlingNext(start, old(world), world, queue, i, chat);
      Shrinks(start, world, chat, queue[i]);
    }

    method SettleQueue(queue: seq<Id>, chat: Id, ghost start: World) returns (verdict: Verdict)
      requires Valid() && chat in world.store.chats && Settling(start, world) && Left(world, queue, 0, chat)
      modifies this
      ensures Valid() && Settling(start, world) && chat in world.store.chats
      ensures world.store.chats[chat].subject == old(world).store.chats[chat].subject
      ensures OnlyMild(old(log), log, world.store.chats[chat].subject, chat)
      ensures verdict.Fine? ==> Left(world, queue, |queue|, chat)
      ensures forall id | IsPending(world, id) :: old(IsPending(world, id))
      ensures verdict.ChangeFailed? ==> MyPendingIn(world, chat) < MyPendingIn(start, chat)
      ensures old(Quiet(script)) ==>
        Quiet(script) && GrantsKept(old(world).broker, world.broker, world.store.chats[chat].subject, chat)
      ensures old(Calm(script)) ==>
        && Calm(script) && (verdict.Fine? || verdict.ChangeFailed?)
        && WentCalmly(old(world), world, queue, chat, verdict)
    {
      Knows();
      var i := 0;
      verdict := Fine;
      while i < |queue| && verdict.Fine?
        invariant i <= |queue| && Valid() && Settling(start, world) && chat in world.store.chats
        invariant world.store.chats[chat].subject == old(world).store.chats[chat].subject
        invariant OnlyMild(old(log), log, world.store.chats[chat].subject, chat)
        invariant verdict.Fine? ==> Left(world, queue, i, chat)
        invariant forall id | IsPending(world, id) :: old(IsPending(world, id))
        invariant verdict.ChangeFailed? ==> MyPendingIn(world, chat) < MyPendingIn(start, chat)
        invariant old(Quiet(script)) ==>
          Quiet(script) && GrantsKept(old(world).broker, world.broker, world.store.chats[chat].subject, chat)
        invariant old(Calm(script)) ==> Calm(script) && (verdict.Fine? || verdict.ChangeFailed?)
        invariant old(Calm(script)) ==> CalmSoFar(old(world), world, queue, i, chat, verdict)
        decreases |queue| - i
      {
        ghost var before := world;
        verdict := SettleListed(queue, i, chat, start);
        if old(Calm(script)) {
          Knows();
          CalmNext(old(world), before, world, queue, i, chat, verdict);
        }
        i := i + 1;
      }
    }

    /** Settle what an interrupted run left for this chat. A run that stops because a change failed
        has one change less to stop on. */
    method SettlePendingChanges(chat: Id) returns (verdict: Verdict)
      requires Valid() && chat in world.store.chats
      modifies this
      ensures Valid() && Onward(old(world), world) && chat in world.store.chats
      ensures OnlyMild(old(log), log, world.store.chats[chat].subject, chat)
      ensures MyPendingIn(world, chat) <= old(MyPendingIn(world, chat))
      ensures verdict.ChangeFailed? ==> MyPendingIn(world, chat) < old(MyPendingIn(world, chat))
      ensures verdict.Fine? && |old(MyPending(world))| <= 256 ==>
        MyPendingIn(world, chat) == {}
      ensures old(Quiet(script)) ==>
        Quiet(script) && GrantsKept(old(world).broker, world.broker, world.store.chats[chat].subject, chat)
      ensures old(Calm(script)) ==> Calm(script) && (verdict.Fine? || verdict.ChangeFailed?)
      ensures old(Calm(script)) && |old(MyPending(world))| <= 256 ==>
        SettledCalmly(old(world), world, chat, verdict)
    {
      var pending := ListPending();
      MineKeptIsOnward(old(world), world);
      SamePending(old(world), world);
      if !pending.Got? {
        return if pending.Dead? then Crashed else Trouble;
      }
      ghost var listed := world;
      Knows();
      verdict := SettleQueue(pending.value, chat, old(world));
      ListedIsSettled(listed, world, pending.value, chat, verdict);
      Shrinks(old(world), world, chat, 0);
    }

    // ----- Requests of connect and disconnect -----

    method LoadChat(chat: Id) returns (r: Reply<Option<Chat>>)
      requires Valid()
      modifies this`world, this`script
      ensures Valid() && MineKept(old(world), world, None)
      ensures r.Got? && r.value.Some? ==> chat in world.store.chats && world.store.chats[chat] == r.value.value
      ensures old(Quiet(script)) ==> Quiet(script) && world == old(world)
      ensures old(Calm(script)) ==>
        && Calm(script)
        && r == Got(if chat in world.store.chats then Some(world.store.chats[chat]) else None)
    {
      var answer, _ := Await();
      r := Deliver(answer, if chat in world.store.chats then Some(world.store.chats[chat]) else None);
    }

    /** Whether `root` is one of the folders the broker can name and the chat has. */
    method ResolveTarget(root: Id, attached: seq<Id>) returns (r: Reply<bool>)
      requires Valid()
      modifies this`world, this`script
      ensures Valid() && MineKept(old(world), world, None)
      ensures old(Quiet(script)) ==> Quiet(script) && world == old(world)
      ensures old(Quiet(script)) && r == Got(true) ==> root in world.broker.roots && root in attached
      ensures old(Calm(script)) ==> Calm(script) && r == Got(root in world.broker.roots && root in attached)
    {
      var answer, _ := Await();
      r := Deliver(answer, root in world.broker.roots && root in attached);
    }

    method ListGrants() returns (r: Reply<set<Grant>>)
      requires Valid()
      modifies this
      ensures Valid() && MineKept(old(world), world, None)
      ensures log == old(log) + if r.Got? then [Listed(world.broker)] else []
      ensures r.Got? ==> r.value == world.broker.grants
      ensures script == Tail(old(script))
      ensures Head(old(script)) == UNEVENTFUL ==>
        world == old(world) && (r.Got? <==> |world.broker.grants| <= 2048)
      ensures old(Quiet(script)) ==> Quiet(script) && world == old(world)
      ensures old(Calm(script)) ==> Calm(script) && (r.Got? <==> |world.broker.grants| <= 2048)
    {
      var answer, _ := Await();
      var grants := ListGrantStatements(world.broker);
      r := if answer.Served? && grants.None? then NoReply
           else Deliver(answer, if grants.Some? then grants.value else {});
      if r.Got? {
        log := log + [Listed(world.broker)];
      }
    }

    /** Whether the subject is the only holder of grants on the folder. */
    method SoleGrantHolder(root: Id, subject: Subject) returns (r: Reply<bool>)
      requires Valid()
      modifies this
      ensures Valid() && MineKept(old(world), world, None)
      ensures log == old(log) + if r.Got? then [Listed(world.broker)] else []
      ensures r.Got? ==> r.value == Sole(world.broker.grants, root, subject)
      ensures script == Tail(old(script))
      ensures Head(old(script)) == UNEVENTFUL ==>
        world == old(world) && (r.Got? <==> |world.broker.grants| <= MAX_LIST_GRANTS)
      ensures old(Quiet(script)) ==> Quiet(script) && world == old(world)
      ensures old(Calm(script)) ==> Calm(script) && (r.Got? <==> |world.broker.grants| <= MAX_LIST_GRANTS)
    {
      var grants := ListGrants();
      r := match grants
           case Got(all) => Got(Sole(all, root, subject))
           case NoReply => NoReply
           case Dead => Dead;
    }

    method AskToRevokeRoot(subject: Subject, root: Id) returns (r: Reply<bool>)
      requires Valid()
      modifies this
      ensures Valid() && MineKept(old(world), world, None) && script == Tail(old(script))
      ensures log == old(log) || (|log| == |old(log)| + 1 && old(log) <= log && Revokes(log[|old(log)|], subject, root))
      ensures r.Got? ==> log != old(log) && r.value == Withdraws(log[|old(log)|].broker, subject, root)
      ensures Head(old(script)).answer.Served? ==>
        && r.Got? && log[|old(log)|].broker == Others(old(world), Head(old(script)).outside).broker
        && world.broker == Resulting(log[|old(log)|])
      ensures old(Quiet(script)) ==>
        && Quiet(script) && world.store == old(world).store
        && (Withdrawn(old(world).broker, world.broker, subject, root)
            || (!r.Got? && world.broker == old(world).broker))
        && (r.Got? ==> r.value == Withdraws(old(world).broker, subject, root))
      ensures old(Calm(script)) ==> r.Got? && Calm(script)
    {
      var answer, landed := AwaitFate();
      var op := world.broker.next;
      var revoked := RevokeRoot(world.broker, op, subject, root).1;
      Knows();
      RevocationIsExact(world.broker, op, subject, root);
      if landed {
        Ask(ToRevokeRoot(op, subject, root));
      }
      r := Deliver(answer, revoked.value);
    }

    method RevokeListGrant(grant: Grant, subject: Subject) returns (answer: Answer)
      requires Valid() && IsListGrant(grant, subject)
      modifies this
      ensures Valid() && MineKept(old(world), world, None)
      ensures log == old(log) || (|log| == |old(log)| + 1 && old(log) <= log && AsksToRevoke(log[|old(log)|], grant, subject))
      ensures answer.Served? ==> log != old(log)
      ensures old(Quiet(script)) ==> Quiet(script)
      ensures old(Calm(script)) ==> answer.Served? && Calm(script)
      ensures old(Quiet(script)) && grant in old(world).broker.grants ==>
        && world.store == old(world).store
        && (world.broker == old(world).broker || world.broker == WithoutGrant(old(world).broker, grant))
        && (answer.Served? ==> world.broker == WithoutGrant(old(world).broker, grant))
    {
      var landed;
      answer, landed := Await();
      if landed {
        if grant in world.broker.grants {
          Knows();
          OneGrantGoes(world.broker, grant, subject);
        }
        Ask(ToRevokeGrant(subject, grant.id));
      }
    }

    /** Revoke those of the listed grants that are list-folders grants of the subject. */
    method RevokeListed(grants: set<Grant>, subject: Subject) returns (verdict: Verdict)
      requires Valid()
      modifies this
      ensures Valid() && MineKept(old(world), world, None)
      ensures old(log) <= log && OnlyListed(log[|old(log)|..], grants, subject)
      ensures verdict.Fine? ==> AllAsked(log[|old(log)|..], grants, subject)
      ensures old(Quiet(script)) && grants == old(world).broker.grants ==>
        && Quiet(script) && world.store == old(world).store
        && (exists rest :: Revoking(old(world).broker, world.broker, rest, subject) && (verdict.Fine? ==> rest == {}))
      ensures old(Calm(script)) ==> Calm(script) && verdict.Fine?
    {
      var rest := grants;
      RevokingStarts(world.broker, subject);
      while rest != {}
        invariant Valid() && rest <= grants && MineKept(old(world), world, None)
        invariant old(log) <= log && OnlyListed(log[|old(log)|..], grants, subject)
        invariant AllAskedBut(log[|old(log)|..], grants, rest, subject)
        invariant old(Quiet(script)) && grants == old(world).broker.grants ==>
          && Quiet(script) && world.store == old(world).store
          && Revoking(old(world).broker, world.broker, rest, subject)
        invariant old(Calm(script)) ==> Calm(script)
        decreases |rest|
      {
        var grant :| grant in rest;
        RevokingNext(old(world).broker, world.broker, rest, grant, subject);
        if IsListGrant(grant, subject) {
          ghost var before, asked := world, log;
          var answer := RevokeListGrant(grant, subject);
          AskedNext(old(log), asked, log, grants, rest, grant, subject);
          MineKeptTwice(old(world), before, world, None);
          if !answer.Served? {
            return if answer.Died? then Crashed else Trouble;
          }
        }
        rest := rest - {grant};
      }
      verdict := Fine;
    }

    /** Withdraw the subject's list-folders grants once it has no folder left to list. */
    method RevokeOrphanListRoots(subject: Subject) returns (verdict: Verdict)
      requires Valid()
      modifies this
      ensures Valid() && MineKept(old(world), world, None)
      ensures old(log) <= log && OrphansAsked(log[|old(log)|..], subject, verdict.Fine?)
      ensures old(Quiet(script)) ==>
        && Quiet(script) && world.store == old(world).store
        && OrphansGo(old(world).broker, world.broker, subject)
        && (verdict.Fine? ==> NoOrphans(world.broker.grants, subject))
      ensures old(Calm(script)) ==>
        Calm(script) && (verdict.Fine? <==> |old(world).broker.grants| <= MAX_LIST_GRANTS)
    {
      var listed := ListGrants();
      if !listed.Got? {
        return if listed.Dead? then Crashed else Trouble;
      }
      if StillHolds(listed.value, subject) {
        return Fine;
      }
      ghost var before, asked := world, log;
      verdict := RevokeListed(listed.value, subject);
      MineKeptTwice(old(world), before, world, None);
      RevokingIsPartial(before.broker, world.broker, subject);
      assert log[|old(log)|..][1..] == log[|asked|..];
    }

    // ----- The two commands -----

    method LoadSettled(chat: Id) returns (verdict: Verdict, snapshot: Chat)
      requires Valid()
      modifies this
      ensures Valid() && Onward(old(world), world)
      ensures OnlyOwn(old(log), chat)
      ensures verdict.Fine? ==> chat in world.store.chats && snapshot.subject == world.store.chats[chat].subject
      ensures old(Quiet(script)) ==> Quiet(script)
      ensures old(Quiet(script)) && chat in old(world).store.chats ==>
        && GrantsKept(old(world).broker, world.broker, old(world).store.chats[chat].subject, chat)
        && (verdict.Fine? ==> snapshot == world.store.chats[chat])
      ensures old(Calm(script)) ==> Calm(script)
      ensures old(Calm(script)) && Listable(old(world), chat) ==>
        SettledCalmly(old(world), world, chat, verdict)
    {
      snapshot := Chat(Conversation(chat), [], 0);
      var loaded := LoadChat(chat);
      MineKeptIsOnward(old(world), world);
      if loaded.Dead? {
        return Crashed, snapshot;
      } else if !loaded.Got? || loaded.value.None? {
        return Trouble, snapshot;
      }
      ghost var before := world;
      verdict := SettlePendingChanges(chat);
      OnwardTwice(old(world), before, world);
      if !verdict.Fine? {
        return;
      }
      ghost var settled := world;
      loaded := LoadChat(chat);
      MineKeptIsOnward(settled, world);
      OnwardTwice(old(world), settled, world);
      if loaded.Dead? {
        return Crashed, snapshot;
      } else if !loaded.Got? || loaded.value.None? {
        return Trouble, snapshot;
      }
      snapshot := loaded.value.value;
    }

    /** What was asked since is the chat's own business; nothing, if there is no such chat. */
    ghost predicate OnlyOwn(was: seq<Entry>, chat: Id)
      reads this
    {
      if chat in world.store.chats then OnlyMild(was, log, world.store.chats[chat].subject, chat) else log == was
    }

    /** Take a folder out of a chat. */
    method DetachFromChat(chat: Id, root: Id) returns (verdict: Verdict, subject: Subject)
      requires Valid()
      modifies this
      ensures Valid() && Onward(old(world), world)
      ensures OnlyOwn(old(log), chat)
      ensures verdict.Fine? ==>
        && chat in world.store.chats && subject == world.store.chats[chat].subject
        && HasCarriedOut(old(world), world, chat, root, Detach)
      ensures old(Quiet(script)) ==> Quiet(script)
      ensures old(Quiet(script)) && chat in old(world).store.chats ==>
        && GrantsKept(old(world).broker, world.broker, old(world).store.chats[chat].subject, chat)
        && (verdict.Fine? ==> BothHave(world, chat, root, false))
      ensures old(Calm(script)) ==> Calm(script)
      ensures old(Calm(script)) && Listable(old(world), chat) ==>
        && (verdict.Fine? <==>
              && SettlesFine(old(world), chat)
              && MayDetach(SettledStore(old(world), chat), SettledBroker(old(world), chat), chat, root))
        && (verdict.Fine? ==> SamePermissions(SettledBroker(old(world), chat), world.broker))
    {
      var snapshot;
      verdict, snapshot := LoadSettled(chat);
      subject := snapshot.subject;
      if !verdict.Fine? {
        return;
      }
      ghost var settled := world;
      var found := ResolveTarget(root, snapshot.projection);
      MineKeptIsOnward(settled, world);
      OnwardTwice(old(world), settled, world);
      if found != Got(true) {
        return if found.Dead? then Crashed else Trouble, subject;
      }
      ghost var resolved, asked := world, log;
      verdict := DriveChange(chat, root, Detach, snapshot.revision);
      OnwardTwice(old(world), resolved, world);
      OnlyMildTwice(old(log), asked, log, world.store.chats[chat].subject, chat);
      if verdict.Fine? {
        Knows();
        StaysCarriedOut(old(world), resolved, world, world, chat, root, Detach);
      }
      if old(Quiet(script)) && chat in old(world).store.chats {
        GrantsKeptTwice(old(world).broker, settled.broker, world.broker, subject, chat);
      }
    }

    /** Take a folder out of a chat, and withdraw its approval when nobody else holds it. */
    method Disconnect(chat: Id, root: Id) returns (r: DisconnectReply)
      requires Valid()
      modifies this
      // Whatever others do meanwhile.
      ensures Valid() && Onward(old(world), world)
      ensures
        if chat in world.store.chats
        then DisconnectAsked(old(log), log, world.store.chats[chat].subject, chat, root, r)
        else log == old(log)
      ensures r.Disconnected? ==>
        chat in world.store.chats && HasCarriedOut(old(world), world, chat, root, Detach)
      // If nobody else acts.
      ensures old(Quiet(script)) && chat in old(world).store.chats ==>
        var subject := old(world).store.chats[chat].subject;
        && ForeignKept(old(world).broker, world.broker, subject)
        && (r.Disconnected? ==>
              && BothHave(world, chat, root, false)
              && DisconnectedExactly(old(world).broker, world.broker, subject, chat, root, r.revoked, r.shared))
      // If, moreover, every request is answered.
      ensures old(Calm(script)) && Listable(old(world), chat) ==>
        (r.Disconnected? <==>
           && SettlesFine(old(world), chat)
           && MayDisconnect(SettledStore(old(world), chat), SettledBroker(old(world), chat), chat, root))
    {
      var verdict, subject := DetachFromChat(chat, root);
      ghost var detached, asked := world, log;
      assert log[..|asked|] == asked;
      if !verdict.Fine? {
        assert WithdrawalAsked(log[|asked|..], subject, root, Stopped(verdict));
        return Stopped(verdict);
      }
      r := WithdrawWhatIsLeft(subject, root);
      assert log[..|asked|] == asked;
      MineKeptIsOnward(detached, world);
      OnwardTwice(old(world), detached, world);
      Knows();
      StaysCarriedOut(old(world), old(world), detached, world, chat, root, Detach);
      if old(Quiet(script)) && chat in old(world).store.chats {
        AfterwardsIsExact(old(world).broker, detached.broker, world.broker, subject, chat, root);
      }
    }

    /** Withdraw the folder if the subject is its sole holder, then what it has no use for. */
    method RevokeAndCleanUp(subject: Subject, root: Id, sole: bool) returns (r: DisconnectReply)
      requires Valid()
      modifies this
      ensures Valid() && MineKept(old(world), world, None)
      ensures old(log) <= log && RestAsked(log[|old(log)|..], subject, root, sole, r)
      ensures old(Quiet(script)) ==>
        && Quiet(script) && world.store == old(world).store
        && (sole == Sole(old(world).broker.grants, root, subject) ==>
              Afterwards(old(world).broker, world.broker, subject, root, r))
      ensures old(Calm(script)) && |old(world).broker.grants| <= MAX_LIST_GRANTS ==>
        Calm(script) && r.Disconnected?
      ensures sole && Head(old(script)).answer.Served? && Calm(Tail(old(script))) ==>
        && |log| > |old(log)|
        && (var e := log[|old(log)|];
            && Revokes(e, subject, root)
            && e.broker == Others(old(world), Head(old(script)).outside).broker
            && OrphansGo(Resulting(e), world.broker, subject)
            && (|Resulting(e).grants| <= MAX_LIST_GRANTS ==>
                  r == Disconnected(Withdraws(e.broker, subject, root), false)))
    {
      assert OrphansGo(world.broker, world.broker, subject);
      var revoked := false;
      if sole {
        var reply := AskToRevokeRoot(subject, root);
        FewerAfterwards(old(world).broker, world.broker, subject, root);
        assert OrphansGo(world.broker, world.broker, subject);
        if !reply.Got? {
          return Stopped(if reply.Dead? then Crashed else Trouble);
        }
        revoked := reply.value;
      }
      ghost var withdrawn, asked := world, log;
      var verdict := RevokeOrphanListRoots(subject);
      MineKeptTwice(old(world), withdrawn, world, None);
      assert log[|old(log)|..][|asked| - |old(log)|..] == log[|asked|..];
      r := if verdict.Fine? then Disconnected(revoked, !sole) else Stopped(verdict);
    }

    method WithdrawWhatIsLeft(subject: Subject, root: Id) returns (r: DisconnectReply)
      requires Valid()
      modifies this
      ensures Valid() && MineKept(old(world), world, None)
      ensures old(log) <= log && WithdrawalAsked(log[|old(log)|..], subject, root, r)
      ensures old(Quiet(script)) ==>
        && Quiet(script) && world.store == old(world).store
        && Afterwards(old(world).broker, world.broker, subject, root, r)
      ensures old(Calm(script)) ==>
        Calm(script) && (r.Disconnected? <==> |old(world).broker.grants| <= MAX_LIST_GRANTS)
      // If others act only after the listing that shows the subject as the sole holder.
      ensures old(OnlyLate(script)) && Sole(old(world).broker.grants, root, subject)
              && |old(world).broker.grants| <= MAX_LIST_GRANTS ==>
        && |log| > |old(log)| + 1
        && (var e := log[|old(log)| + 1];
            && Revokes(e, subject, root)
            && e.broker == Others(old(world), Head(Tail(old(script))).outside).broker
            && OrphansGo(Resulting(e), world.broker, subject)
            && (|Resulting(e).grants| <= MAX_LIST_GRANTS ==>
                  r == Disconnected(Withdraws(e.broker, subject, root), false)))
    {
      var sole := SoleGrantHolder(root, subject);
      assert OrphansGo(world.broker, world.broker, subject);
      if !sole.Got? {
        return Stopped(if sole.Dead? then Crashed else Trouble);
      }
      ghost var listed, asked := world, log;
      r := RevokeAndCleanUp(subject, root, sole.value);
      MineKeptTwice(old(world), listed, world, None);
      assert log[|old(log)|..][1..] == log[|asked|..];
    }

    method AskToRegister(subject: Subject, chat: Id, directory: nat) returns (r: Reply<Option<Id>>, op: Id)
      requires Valid()
      modifies this
      ensures Valid() && MineKept(old(world), world, None)
      ensures OnlyMild(old(log), log, subject, chat)
      ensures old(Quiet(script)) ==>
        && Quiet(script) && world.store == old(world).store
        && (r.Got? && r.value.Some? ==>
              RegisteredAs(old(world).broker, world.broker, subject, chat, directory, r.value.value))
      ensures old(Calm(script)) ==>
        && Calm(script) && op == old(world).broker.next && r.Got?
        && (world.broker, r.value) == Register(old(world).broker, op, subject, chat, directory)
    {
      var answer, landed := Await();
      op := world.broker.next;
      var root := Register(world.broker, op, subject, chat, directory).1;
      Knows();
      RegistrationIsExact(world.broker, op, subject, chat, directory);
      RegisterIsMild(world.broker, op, subject, chat, directory);
      if landed {
        Ask(ToRegister(op, subject, chat, directory));
      }
      r := Deliver(answer, root);
    }

    method ReadBack(op: Id, subject: Subject, chat: Id) returns (r: Reply<Option<Id>>)
      requires Valid()
      modifies this
      ensures Valid() && MineKept(old(world), world, None)
      ensures log == old(log) + if r.Got? && r.value.Some? then [Entry.ReadBack(world.broker, r.value.value)] else []
      ensures r.Got? && r.value.Some? ==> Reaches(world.broker, subject, chat, r.value.value)
      ensures old(Quiet(script)) ==> Quiet(script) && world == old(world)
      ensures old(Calm(script)) ==> Calm(script) && r == Got(LookupRegistration(world.broker, op, subject, chat))
    {
      var answer, _ := Await();
      Knows();
      ReadsBackReached(world.broker, op, subject, chat);
      r := Deliver(answer, LookupRegistration(world.broker, op, subject, chat));
      if r.Got? && r.value.Some? {
        log := log + [Entry.ReadBack(world.broker, r.value.value)];
      }
    }

    /** Register a folder, and make sure of it. */
    method RegisterFor(subject: Subject, chat: Id, directory: nat) returns (verdict: Verdict, root: Id)
      requires Valid() && chat in world.store.chats && subject == world.store.chats[chat].subject
      modifies this
      ensures Valid() && MineKept(old(world), world, None)
      ensures OnlyMild(old(log), log, subject, chat)
      ensures verdict.Fine? ==> WasReadBack(old(log), log, subject, chat, root)
      ensures old(Quiet(script)) ==>
        && Quiet(script) && world.store == old(world).store
        && (verdict.Fine? ==>
              Reaches(world.broker, subject, chat, root)
              && RegisteredAs(old(world).broker, world.broker, subject, chat, directory, root))
      ensures old(Calm(script)) ==>
        Calm(script) && RegisteredCalmly(old(world), world, chat, directory, verdict, root)
    {
      root := 0;
      var registered, op := AskToRegister(subject, chat, directory);
      if !registered.Got? || registered.value.None? {
        return if registered.Dead? then Crashed else Trouble, root;
      }
      root := registered.value.value;
      ghost var admitted := world;
      var recorded := ReadBack(op, subject, chat);
      MineKeptTwice(old(world), admitted, world, None);
      if recorded != Got(Some(root)) {
        return if recorded.Dead? then Crashed else Trouble, root;
      }
      assert log[|log| - 1].ReadBack?;
      verdict := Fine;
    }

    /** Settle what an earlier run left, then register a folder for the chat. */
    method Admit(chat: Id, directory: nat) returns (verdict: Verdict, root: Id, snapshot: Chat)
      requires Valid()
      modifies this
      ensures Valid() && Onward(old(world), world)
      ensures OnlyOwn(old(log), chat)
      ensures verdict.Fine? ==>
        && chat in world.store.chats && snapshot.subject == world.store.chats[chat].subject
        && old(log) <= log && WasReadBack(old(log), log, snapshot.subject, chat, root)
      ensures old(Quiet(script)) ==> Quiet(script)
      ensures old(Quiet(script)) && chat in old(world).store.chats && verdict.Fine? ==>
        AdmittedFrom(old(world).broker, world.broker, old(world).store.chats[chat].subject, chat, directory, root)
      ensures old(Calm(script)) ==> Calm(script)
      ensures old(Calm(script)) && Listable(old(world), chat) ==>
        if !SettlesFine(old(world), chat) then verdict == ChangeFailed
        else
          AdmittedCalmly(
            SettledStore(old(world), chat), SettledBroker(old(world), chat), world, chat, directory,
            verdict, root, snapshot)
    {
      root := 0;
      verdict, snapshot := LoadSettled(chat);
      if !verdict.Fine? {
        return;
      }
      ghost var settled, asked := world, log;
      verdict, root := RegisterFor(snapshot.subject, chat, directory);
      MineKeptIsOnward(settled, world);
      OnwardTwice(old(world), settled, world);
      OnlyMildTwice(old(log), asked, log, snapshot.subject, chat);
    }

    /** Attach a registered folder, or take the registration back. */
    method AttachOrGiveUp(chat: Id, root: Id, snapshot: Chat) returns (r: ConnectReply)
      requires Valid() && chat in world.store.chats && snapshot.subject == world.store.chats[chat].subject
      modifies this
      ensures Valid() && Onward(old(world), world) && chat in world.store.chats
      ensures old(log) <= log && ConnectAsked(old(log), log, snapshot.subject, chat, r)
      ensures r.Connected? ==> r.root == root && HasCarriedOut(old(world), world, chat, root, Attach)
      ensures r.AttachFailed? ==> r.root == root
      ensures old(Quiet(script)) ==>
        && (r.Connected? ==>
              BothHave(world, chat, root, true)
              && GrantsKept(old(world).broker, world.broker, snapshot.subject, chat))
        && (r.AttachFailed? ==>
              GaveUp(old(world).broker, world.broker, snapshot.subject, chat, root, r.saidWithdrawn))
      ensures old(Calm(script)) && snapshot == old(world).store.chats[chat] && root in old(world).broker.roots ==>
        r == if MayBegin(old(world).store, chat, root, Attach) then Connected(root) else AttachFailed(root, true)
    {
      var verdict := DriveChange(chat, root, Attach, snapshot.revision);
      assert log[..|log|] == log;
      if verdict.Fine? {
        return Connected(root);
      } else if verdict.Crashed? {
        return NotConnected(Crashed);
      }
      ghost var attached, asked := world, log;
      var revoked := AskToRevokeRoot(snapshot.subject, root);
      MineKeptIsOnward(attached, world);
      OnwardTwice(old(world), attached, world);
      assert log[..|asked|] == asked && log[..|log|] == log;
      r := if revoked.Dead? then NotConnected(Crashed) else AttachFailed(root, revoked.Got?);
    }

    /** Register a folder and attach it, or take the registration back. */
    method Connect(chat: Id, directory: nat) returns (r: ConnectReply)
      requires Valid()
      modifies this
      // Whatever others do meanwhile.
      ensures Valid() && Onward(old(world), world)
      ensures
        if chat in world.store.chats
        then ConnectAsked(old(log), log, world.store.chats[chat].subject, chat, r)
        else log == old(log)
      ensures r.Connected? ==>
        && chat in world.store.chats && HasCarriedOut(old(world), world, chat, r.root, Attach)
        && WasReadBack(old(log), log, world.store.chats[chat].subject, chat, r.root)
      // If nobody else acts.
      ensures old(Quiet(script)) && chat in old(world).store.chats ==>
        var subject := old(world).store.chats[chat].subject;
        && (r.Connected? ==>
              && BothHave(world, chat, r.root, true) && Reaches(world.broker, subject, chat, r.root)
              && OthersLeft(old(world).broker, world.broker, subject, chat, r.root, false))
        && (r.AttachFailed? ==>
              var gone := GivesUpTheFolder(old(world).broker, subject, directory, r.root);
              if r.saidWithdrawn
              then
                && (IsRegistered(world.broker, r.root) <==> !gone)
                && OthersLeft(old(world).broker, world.broker, subject, chat, r.root, gone)
              else
                || OthersLeft(old(world).broker, world.broker, subject, chat, r.root, false)
                || OthersLeft(old(world).broker, world.broker, subject, chat, r.root, gone))
      // If, moreover, every request is answered.
      ensures old(Calm(script)) && Listable(old(world), chat) ==>
        r == if !SettlesFine(old(world), chat) then NotConnected(ChangeFailed)
             else CalmConnect(SettledStore(old(world), chat), SettledBroker(old(world), chat), chat, directory)
    {
      var verdict, root, snapshot := Admit(chat, directory);
      assert log[..|log|] == log;
      if !verdict.Fine? {
        return NotConnected(verdict);
      }
      ghost var admitted, asked := world, log;
      r := AttachOrGiveUp(chat, root, snapshot);
      OnwardTwice(old(world), admitted, world);
      MildThenConnect(old(log), asked, log, snapshot.subject, chat, r);
      if r.Connected? {
        Knows();
        StaysCarriedOut(old(world), admitted, world, world, chat, root, Attach);
      }
      if old(Quiet(script)) && chat in old(world).store.chats {
        if r.AttachFailed? {
          GivingUpAfterwards(
            old(world).broker, admitted.broker, world.broker, snapshot.subject, chat, directory, root, r.saidWithdrawn);
        } else if r.Connected? {
          ConnectingKeeps(
            old(world).broker, admitted.broker, world.broker, snapshot.subject, chat, directory, root);
        }
      }
    }

    /** Any commands one after another, each of which may have died anywhere: every change that
        ended did so as its deciding lookup saw, and none took effect twice while its receipt was
        retained. */
    method Run(jobs: seq<Job>)
      requires Valid()
      modifies this
      ensures Valid() && Onward(old(world), world)
      ensures EndedWithWhatWasSeen(world) && Spread(world.completed)
    {
      var i := 0;
      while i < |jobs|
        invariant i <= |jobs| && Valid() && Onward(old(world), world)
      {
        ghost var before := world;
        match jobs[i] {
          case Connecting(chat, directory) => var _ := Connect(chat, directory);
          case Disconnecting(chat, root) => var _ := Disconnect(chat, root);
        }
        OnwardTwice(old(world), before, world);
        i := i + 1;
      }
      Knows();
    }
  }
}
