/**
 Connected-folder changes as one run of steps over the product store and the host broker.

 A change is begun in the store, carried out by the broker under the change's own identity, looked
 up, and finished with what the lookup saw. Every step here is durable and atomic; a crash is a run
 that stops between two of them, and starting again is more steps. `Legal` says what every program
 keeps to, and the invariant says what any interleaving of such programs leads to.
 */
module SagaProtocol {
  import opened Prelude
  import opened HostBroker
  import opened AttachmentStore

  /** `me` is this profile's executor identity, used by one process at a time. `completed` logs the
      mutations that took effect at the broker, and `seen` what the last lookup for each of this
      executor's changes saw. */
  datatype World = World(me: Id, store: Store, broker: Broker, completed: seq<Id>, seen: map<Id, bool>)

  datatype Action =
    | BeginChange(id: Id, intent: Intent)
    | Observe(id: Id)
    | FinishChange(id: Id, executor: Id, t: Terminal)
    | AskBroker(command: Command)

  function RequestFor(subject: Subject, change: Change): Request {
    Request(subject, change.chat, change.root, change.kind, change.kind.Attach?)
  }

  function RequestOf(w: World, id: Id): Request
    requires id in w.store.changes && w.store.changes[id].chat in w.store.chats
  {
    var change := w.store.changes[id];
    RequestFor(w.store.chats[change.chat].subject, change)
  }

  predicate Mine(w: World, id: Id) {
    id in w.store.changes && w.store.changes[id].executor == w.me
  }

  /** The terminal reports what was seen. */
  predicate Reports(t: Terminal, attached: bool) {
    match t
    case Complete(_, a) => a == attached
    case Fail(_, a) => a == Some(attached)
  }

  /** A change's identity names nothing at the broker but that change. */
  predicate NamesItsChange(w: World, op: Id, c: Command) {
    && op <= w.broker.next
    && (op in w.store.changes ==>
          && c.ToMutate? && w.store.changes[op].chat in w.store.chats
          && c.req == RequestFor(w.store.chats[w.store.changes[op].chat].subject, w.store.changes[op]))
  }

  predicate Legal(a: Action, w: World) {
    match a
    case BeginChange(id, _) => id in w.store.changes || id == w.broker.next
    case Observe(id) => Mine(w, id) && w.store.changes[id].phase.AwaitingBroker?
    case FinishChange(id, executor, t) =>
      executor == w.me && Mine(w, id) ==> id in w.seen && Reports(t, w.seen[id])
    case AskBroker(c) =>
      match c
      case ToMutate(op, _) => NamesItsChange(w, op, c)
      case ToWrite(op) => NamesItsChange(w, op, c)
      case ToRegister(op, _, _, _) => NamesItsChange(w, op, c)
      case ToRevokeRoot(op, _, _) => NamesItsChange(w, op, c)
      case _ => true
  }

  function Apply(a: Action, w: World): World {
    match a
    case BeginChange(id, intent) =>
      w.(store := Begin(w.store, id, intent).0, broker := w.broker.(next := After(id, w.broker.next)))
    case Observe(id) =>
      if id !in w.store.changes then w
      else
        var change := w.store.changes[id];
        w.(seen := w.seen[id := HasAttachment(w.broker, change.chat, change.root)])
    case FinishChange(id, executor, t) => w.(store := Finish(w.store, id, executor, t).0)
    case AskBroker(c) =>
      w.(broker := Serve(w.broker, c), completed := w.completed + Completes(w.broker, c))
  }

  function Replay(w: World, history: seq<Action>): World {
    if history == [] then w
    else Apply(history[|history| - 1], Replay(w, history[..|history| - 1]))
  }

  ghost predicate LegalRun(w: World, history: seq<Action>) {
    history == [] ||
    var before := history[..|history| - 1];
    LegalRun(w, before) && Legal(history[|history| - 1], Replay(w, before))
  }

  // ----- The invariant -----

  ghost predicate Named(w: World) {
    && (forall c | c in w.store.chats :: SubjectFits(w.store.chats[c].subject, c))
    && (forall id | id in w.store.changes :: id < w.broker.next && w.store.changes[id].chat in w.store.chats)
  }

  /** A receipt under a change's identity is that change's. */
  ghost predicate ReceiptsFit(w: World)
    requires Named(w)
  {
    forall id | id in w.store.changes && id in w.broker.receipts ::
      && w.broker.receipts[id].AttachmentRecord?
      && w.broker.receipts[id].request
         == RequestFor(w.store.chats[w.store.changes[id].chat].subject, w.store.changes[id])
  }

  /** This executor's changes ended with what its deciding lookup saw. */
  ghost predicate EndedWithWhatWasSeen(w: World) {
    forall id | Mine(w, id) && !w.store.changes[id].phase.AwaitingBroker? ::
      id in w.seen && w.store.changes[id].attached == Some(w.seen[id])
  }

  ghost predicate Inv(w: World) {
    && SoundStore(w.store) && Sound(w.broker)
    && Kept(w.broker, w.completed) && Spread(w.completed)
    && Named(w) && ReceiptsFit(w) && EndedWithWhatWasSeen(w)
  }

  /** A profile before its first change, over a broker that has served nothing yet. */
  ghost predicate Init(w: World) {
    && w.store.changes == map[] && SoundStore(w.store) && Named(w)
    && Sound(w.broker) && w.broker.receipts == map[] && w.broker.order == []
    && w.completed == [] && w.seen == map[]
  }

  lemma InitIsSound(w: World)
    requires Init(w)
    ensures Inv(w)
  {}

  /** Nothing but the broker's own rows and receipts. */
  lemma RecordsAreNew(b: Broker, c: Command)
    requires Sound(b) && |b.order| <= MAX_RETAINED_MUTATION_RECEIPTS
    requires forall op | op in b.order :: op in b.receipts
    ensures b.next <= Serve(b, c).next
    ensures forall op | op in Serve(b, c).receipts ::
      if op in b.receipts then Serve(b, c).receipts[op] == b.receipts[op]
      else (c.ToMutate? || c.ToWrite? || c.ToRegister? || c.ToRevokeRoot?) && c.op == op
    ensures c.ToMutate? && c.op !in b.receipts ==>
      && c.op in Serve(b, c).receipts
      && Serve(b, c).receipts[c.op] == AttachmentRecord(c.req, Perform(b, c.req).1)
  {
    match c {
      case ToMutate(op, req) =>
        PerformMints(b, req);
        PruneStep(b.receipts[op := AttachmentRecord(req, Perform(b, req).1)], b.order + [op]);
      case ToWrite(op) => PruneStep(b.receipts[op := WriteRecord], b.order + [op]);
      case ToRegister(op, subject, chat, directory) =>
        if op !in b.receipts { RegisterIsExact(b, op, subject, chat, directory); }
      case ToWiden(subject, chat, root, capability) =>
        GiveIfMissingMints(Table(b.grants, b.next), subject, capability, Root(root));
      case _ =>
    }
  }

  lemma BeginKeepsRows(s: Store, id: Id, intent: Intent)
    ensures var s' := Begin(s, id, intent).0;
      && s'.chats.Keys == s.chats.Keys && (forall c | c in s.chats :: s'.chats[c].subject == s.chats[c].subject)
      && (forall i | i in s.changes :: i in s'.changes && s'.changes[i] == s.changes[i])
      && (forall i | i in s'.changes && i !in s.changes ::
            && i == id && s'.changes[i].phase.AwaitingBroker? && s'.changes[i].chat in s.chats
            && s'.changes[i].executor == intent.executor)
  {}

  lemma FinishKeepsRows(s: Store, id: Id, executor: Id, t: Terminal)
    ensures var s' := Finish(s, id, executor, t).0;
      && s'.chats.Keys == s.chats.Keys && (forall c | c in s.chats :: s'.chats[c].subject == s.chats[c].subject)
      && s'.changes.Keys == s.changes.Keys
      && (forall i | i in s.changes :: s'.changes[i] == s.changes[i] ||
            (i == id && s.changes[i].executor == executor && s.changes[i].phase.AwaitingBroker?
             && s'.changes[i] == Settle(s.changes[i], t)))
  {}

  lemma BeginKeepsInv(w: World, id: Id, intent: Intent)
    requires Inv(w) && Legal(BeginChange(id, intent), w)
    ensures Inv(Apply(BeginChange(id, intent), w))
  {
    BeginKeepsSound(w.store, id, intent);
    BeginKeepsRows(w.store, id, intent);
  }

  lemma FinishKeepsEnded(w: World, id: Id, executor: Id, t: Terminal)
    requires EndedWithWhatWasSeen(w) && Legal(FinishChange(id, executor, t), w)
    ensures EndedWithWhatWasSeen(Apply(FinishChange(id, executor, t), w))
  {}

  lemma FinishKeepsFit(w: World, id: Id, executor: Id, t: Terminal)
    requires Named(w) && ReceiptsFit(w)
    ensures var w' := Apply(FinishChange(id, executor, t), w); Named(w') && ReceiptsFit(w')
  {
    FinishKeepsRows(w.store, id, executor, t);
  }

  lemma FinishKeepsInv(w: World, id: Id, executor: Id, t: Terminal)
    requires Inv(w) && Legal(FinishChange(id, executor, t), w)
    ensures Inv(Apply(FinishChange(id, executor, t), w))
  {
    FinishKeepsSound(w.store, id, executor, t);
    FinishKeepsEnded(w, id, executor, t);
    FinishKeepsFit(w, id, executor, t);
  }

  lemma AskKeepsInv(w: World, c: Command)
    requires Inv(w) && Legal(AskBroker(c), w)
    ensures Inv(Apply(AskBroker(c), w))
  {
    ServeKeepsSound(w.broker, c);
    ServeKeepsKept(w.broker, w.completed, c);
    RecordsAreNew(w.broker, c);
  }

  lemma StepKeepsInv(a: Action, w: World)
    requires Inv(w) && Legal(a, w)
    ensures Inv(Apply(a, w))
  {
    match a {
      case BeginChange(id, intent) => BeginKeepsInv(w, id, intent);
      case Observe(id) =>
      case FinishChange(id, executor, t) => FinishKeepsInv(w, id, executor, t);
      case AskBroker(c) => AskKeepsInv(w, c);
    }
  }

  lemma {:induction false} RunKeepsInv(w: World, history: seq<Action>)
    requires Inv(w) && LegalRun(w, history)
    ensures Inv(Replay(w, history))
  {
    if history != [] {
      var before := history[..|history| - 1];
      RunKeepsInv(w, before);
      StepKeepsInv(history[|history| - 1], Replay(w, before));
    }
  }

  // ----- What the invariant says -----

  /** Over every run, crashes and re-runs included: a change of this executor is completed exactly
      when its deciding lookup saw the attachment it asked for. */
  lemma {:induction false} CompletedExactlyAsSeen(w: World, history: seq<Action>, id: Id)
    requires Inv(w) && LegalRun(w, history)
    ensures var w' := Replay(w, history);
      Mine(w', id) && !w'.store.changes[id].phase.AwaitingBroker? ==>
        && id in w'.seen
        && (w'.store.changes[id].phase.Finished? <==> w'.seen[id] == Desired(w'.store.changes[id].kind))
  {
    RunKeepsInv(w, history);
  }

  /** Over every run: a change takes effect at the broker at most once in any stretch of completed
      mutations no longer than the receipts it retains. */
  lemma OneEffectPerChange(w: World, history: seq<Action>, i: nat, j: nat)
    requires Inv(w) && LegalRun(w, history)
    requires i < j < |Replay(w, history).completed|
    requires Replay(w, history).completed[i] == Replay(w, history).completed[j]
    ensures j - i > 2048
  {
    RunKeepsInv(w, history);
  }

  /** Over every run: a chat whose revision is what it was has the folders it had, in order. This is
      what the revision a command sends along guards. */
  lemma {:induction false} TheFenceHolds(w: World, history: seq<Action>)
    ensures FencedBy(w.store, Replay(w, history).store)
  {
    if history != [] {
      var before := history[..|history| - 1];
      TheFenceHolds(w, before);
      var m := Replay(w, before).store;
      match history[|history| - 1] {
        case BeginChange(id, intent) => RevisionsCountChanges(m, id, intent, 0, Fail(None, None));
        case FinishChange(id, executor, t) => RevisionsCountChanges(m, id, Intent(0, 0, 0, Attach, 0), executor, t);
        case _ =>
      }
      FencedTwice(w.store, m, Replay(w, history).store);
    }
  }

  // ----- A change that takes effect twice -----

  predicate ChangesAttachments(w: World, a: Action) {
    Apply(a, w).broker.attachments != w.broker.attachments
  }

  /** A mutation under `id` that changes the attachments. */
  predicate TakesEffect(w: World, a: Action, id: Id) {
    a.AskBroker? && a.command.ToMutate? && a.command.op == id && ChangesAttachments(w, a)
  }

  /** How often a run's mutations under `id` changed the attachments. */
  ghost function Effects(w: World, history: seq<Action>, id: Id): nat {
    if history == [] then 0
    else
      var before := history[..|history| - 1];
      var a := history[|history| - 1];
      Effects(w, before, id) + if TakesEffect(Replay(w, before), a, id) then 1 else 0
  }

  lemma RunOn(w: World, history: seq<Action>, a: Action)
    ensures Replay(w, history + [a]) == Apply(a, Replay(w, history))
    ensures LegalRun(w, history + [a]) <==> LegalRun(w, history) && Legal(a, Replay(w, history))
    ensures forall id :: (Effects(w, history + [a], id) ==
      Effects(w, history, id) + if TakesEffect(Replay(w, history), a, id) then 1 else 0)
  {
    assert (history + [a])[..|history|] == history;
  }

  /** Others write files, each under a new identity: nothing changes but the retained receipts. */
  ghost predicate OnlyWrote(w: World, w': World, n: nat) {
    && w'.me == w.me && w'.store == w.store
    && w'.broker.roots == w.broker.roots && w'.broker.setAside == w.broker.setAside
    && w'.broker.attachments == w.broker.attachments && w'.broker.next == w.broker.next + n
    && |w'.completed| == |w.completed| + n
    && forall i | |w.completed| <= i < |w'.completed| :: w'.completed[i] >= w.broker.next
  }

  lemma OneWrite(w: World, w': World, n: nat)
    requires Inv(w') && OnlyWrote(w, w', n)
    ensures Legal(AskBroker(ToWrite(w'.broker.next)), w')
    ensures OnlyWrote(w, Apply(AskBroker(ToWrite(w'.broker.next)), w'), n + 1)
  {
    assert w'.broker.next !in w'.broker.receipts;
    PruneStep(w'.broker.receipts[w'.broker.next := WriteRecord], w'.broker.order + [w'.broker.next]);
  }

  lemma {:induction false} Writes(w: World, history: seq<Action>, n: nat) returns (longer: seq<Action>)
    requires Inv(w) && LegalRun(w, history)
    ensures LegalRun(w, longer) && Inv(Replay(w, longer))
    ensures OnlyWrote(Replay(w, history), Replay(w, longer), n)
    ensures forall id :: Effects(w, history, id) <= Effects(w, longer, id)
  {
    RunKeepsInv(w, history);
    longer := history;
    if n > 0 {
      longer := Writes(w, history, n - 1);
      var now := Replay(w, longer);
      var a := AskBroker(ToWrite(now.broker.next));
      OneWrite(Replay(w, history), now, n - 1);
      RunOn(w, longer, a);
      StepKeepsInv(a, now);
      longer := longer + [a];
    }
  }

  /** A change that is waiting to attach a live folder. */
  ghost predicate IsWaiting(w: World, id: Id) {
    && id in w.store.changes && w.store.changes[id].phase.AwaitingBroker? && w.store.changes[id].kind.Attach?
    && w.store.changes[id].chat in w.store.chats && w.store.changes[id].root in w.broker.roots
  }

  /** And its chat does not have the folder. */
  ghost predicate ReadyToAttach(w: World, id: Id) {
    && IsWaiting(w, id)
    && Attachment(w.store.changes[id].chat, w.store.changes[id].root) !in w.broker.attachments
  }

  lemma Carries(w: World, id: Id)
    requires Inv(w) && ReadyToAttach(w, id) && id !in Recent(w.completed)
    ensures var a := AskBroker(ToMutate(id, RequestOf(w, id)));
      Legal(a, w) && ChangesAttachments(w, a)
  {
    ChangesExactlyWhen(w.broker, w.completed, id, RequestOf(w, id));
  }

  /** The folder is taken out of the chat again under an identity of somebody else's. */
  lemma Detaches(w: World, id: Id)
    requires Inv(w) && id in w.store.changes && w.store.changes[id].kind.Attach?
    requires w.store.changes[id].root in w.broker.roots
    ensures var op := w.broker.next;
      var a := AskBroker(ToMutate(op, RequestOf(w, id).(kind := Detach, consent := false)));
      var w' := Apply(a, w);
      && Legal(a, w) && w'.store == w.store && w'.me == w.me && w'.broker.roots == w.broker.roots
      && Attachment(w.store.changes[id].chat, w.store.changes[id].root) !in w'.broker.attachments
  {
    var op := w.broker.next;
    var req := RequestOf(w, id).(kind := Detach, consent := false);
    assert op !in w.broker.receipts && op !in w.store.changes;
    PruneStep(w.broker.receipts[op := AttachmentRecord(req, Perform(w.broker, req).1)], w.broker.order + [op]);
  }

  lemma MutateKeepsFolders(b: Broker, op: Id, req: Request)
    requires Sound(b)
    ensures Mutate(b, op, req).0.roots == b.roots && b.next <= Mutate(b, op, req).0.next
  {
    PerformMints(b, req);
  }

  lemma TakesEffectOnce(w: World, history: seq<Action>, id: Id) returns (longer: seq<Action>)
    requires Inv(w) && LegalRun(w, history)
    requires ReadyToAttach(Replay(w, history), id) && id !in Recent(Replay(w, history).completed)
    ensures LegalRun(w, longer) && Effects(w, longer, id) > Effects(w, history, id)
    ensures Inv(Replay(w, longer)) && IsWaiting(Replay(w, longer), id)
  {
    RunKeepsInv(w, history);
    var now := Replay(w, history);
    var attach := AskBroker(ToMutate(id, RequestOf(now, id)));
    Carries(now, id);
    RunOn(w, history, attach);
    longer := history + [attach];
    StepKeepsInv(attach, now);
    MutateKeepsFolders(now.broker, id, RequestOf(now, id));
  }

  lemma IsUndone(w: World, history: seq<Action>, id: Id) returns (longer: seq<Action>)
    requires Inv(w) && LegalRun(w, history) && IsWaiting(Replay(w, history), id)
    ensures LegalRun(w, longer) && Effects(w, longer, id) >= Effects(w, history, id)
    ensures ReadyToAttach(Replay(w, longer), id)
  {
    RunKeepsInv(w, history);
    var now := Replay(w, history);
    var detach := AskBroker(ToMutate(now.broker.next, RequestOf(now, id).(kind := Detach, consent := false)));
    Detaches(now, id);
    RunOn(w, history, detach);
    longer := history + [detach];
  }

  lemma IsForgottenAfterWrites(w: World, w': World, id: Id)
    requires Inv(w) && id in w.store.changes && OnlyWrote(w, w', MAX_RETAINED_MUTATION_RECEIPTS)
    ensures id !in Recent(w'.completed)
  {}

  /** From every state in which a change waits to attach a live folder for the first time, a legal
      run goes on to let it change the attachments twice while it is still waiting: by the second
      time, the broker has forgotten the first. */
  lemma AForgottenChangeTakesEffectAgain(w: World, before: seq<Action>, id: Id) returns (history: seq<Action>)
    requires Inv(w) && LegalRun(w, before)
    requires ReadyToAttach(Replay(w, before), id) && id !in Replay(w, before).completed
    ensures LegalRun(w, history) && Effects(w, history, id) >= 2 && IsWaiting(Replay(w, history), id)
  {
    history := TakesEffectOnce(w, before, id);
    history := IsUndone(w, history, id);
    RunKeepsInv(w, history);
    var undone := Replay(w, history);
    history := Writes(w, history, MAX_RETAINED_MUTATION_RECEIPTS);
    IsForgottenAfterWrites(undone, Replay(w, history), id);
    history := TakesEffectOnce(w, history, id);
  }

  /** Such a run starts from a new profile: begin to attach a folder the broker knows, then the
      above. */
  lemma OneChangeCanTakeEffectTwice() returns (w: World, history: seq<Action>, id: Id)
    ensures Init(w) && LegalRun(w, history) && Effects(w, history, id) >= 2
  {
    var chat := Chat(Conversation(1), [], 0);
    var b := Broker(map[5 := Registered(chat.subject, 9)], map[], {}, {}, map[], [], {}, false, 6);
    w, id := World(4, Store(map[1 := chat], map[]), b, [], map[]), 6;
    InitIsSound(w);
    var begin := BeginChange(id, Intent(1, 4, 5, Attach, 0));
    RunOn(w, [], begin);
    history := AForgottenChangeTakesEffectAgain(w, [] + [begin], id);
  }
}
