/**
 What becomes of a change, and of a command, when every request is answered and nobody interferes.

 The broker's half of a pending change is then carried out at most once and looked up; the store
 finishes the change with what the lookup saw. `SettledStore` and `SettledBroker` are the two sides
 after a chat's pending change was settled that way, and the commands go on from there.
 */
module FolderOutcomes {
  import opened Prelude
  import opened HostBroker
  import opened AttachmentStore
  import opened SagaProtocol

  /** Whether the terminal says that the broker changed anything. */
  function Flag(t: Terminal): Option<bool> {
    match t
    case Complete(changed, _) => Some(changed)
    case Fail(changed, _) => changed
  }

  /** A durable receipt as the product's terminal. */
  function MutationTerminal(receipt: Receipt, kind: Kind): (t: Option<Terminal>)
    ensures t.None? <==> receipt.Unknown?
    ensures t.Some? ==> Coherent(kind, t.value) && Reports(t.value, receipt.attached)
    ensures t.Some? ==> Flag(t.value) == Some(receipt.Completed? && receipt.changed)
  {
    match receipt
    case Unknown => None
    case Completed(changed, attached) =>
      if attached == Desired(kind) then Some(Complete(changed, attached))
      else Some(Fail(Some(changed), Some(attached)))
    case Failed(attached) =>
      if attached == Desired(kind) then Some(Complete(false, attached))
      else Some(Fail(Some(false), Some(attached)))
  }

  function MyPending(w: World): set<Id> {
    set id | id in w.store.changes && Mine(w, id) && w.store.changes[id].phase.AwaitingBroker?
  }

  function MyPendingIn(w: World, chat: Id): set<Id> {
    set id | id in MyPending(w) && w.store.changes[id].chat == chat
  }

  predicate IsPending(w: World, id: Id) {
    Mine(w, id) && w.store.changes[id].phase.AwaitingBroker?
  }

  /** The lookup of a pending change: its identity never names anything else at the broker. */
  function ReceiptOf(w: World, id: Id): Option<Receipt>
    requires id in w.store.changes && w.store.changes[id].chat in w.store.chats
  {
    Lookup(w.broker, id, RequestOf(w, id))
  }

  lemma EveryLookupAnswers(w: World, id: Id)
    requires Inv(w) && id in w.store.changes
    ensures var receipt := ReceiptOf(w, id);
      var change := w.store.changes[id];
      && receipt.Some?
      && (receipt.value.Unknown? <==> id !in w.broker.receipts)
      && (!receipt.value.Unknown? ==>
            var outcome := w.broker.receipts[id].outcome;
            && receipt.value.attached == HasAttachment(w.broker, change.chat, change.root)
            && (receipt.value.Failed? <==> outcome.Refused?)
            && (receipt.value.Completed? ==> receipt.value.changed == outcome.changed))
  {}

  /** A finished change records whether the broker changed anything for it: as the receipt of a
      completed mutation says, and not at all for a refused one. */
  lemma FinishRecordsTheFlag(s: Store, id: Id, receipt: Receipt)
    requires SoundStore(s) && id in s.changes && s.changes[id].phase.AwaitingBroker? && !receipt.Unknown?
    ensures var t := MutationTerminal(receipt, s.changes[id].kind).value;
      Finish(s, id, s.changes[id].executor, t).0.changes[id].changed ==
        Some(match receipt case Completed(changed, _) => changed case Failed(_) => false)
  {
    var t := MutationTerminal(receipt, s.changes[id].kind).value;
    FinishAlwaysLands(s, id, t);
  }

  // ----- Undisturbed -----

  /** The broker once it holds a receipt for the change. */
  function Carried(w: World, id: Id): Broker
    requires id in w.store.changes && w.store.changes[id].chat in w.store.chats
  {
    if id in w.broker.receipts then w.broker else Mutate(w.broker, id, RequestOf(w, id)).0
  }

  lemma CarriedIsLookedUp(w: World, id: Id)
    requires Inv(w) && id in w.store.changes
    ensures var receipt := Lookup(Carried(w, id), id, RequestOf(w, id));
      var change := w.store.changes[id];
      && receipt.Some? && !receipt.value.Unknown?
      && receipt.value.attached == HasAttachment(Carried(w, id), change.chat, change.root)
  {
    RecordsAreNew(w.broker, ToMutate(id, RequestOf(w, id)));
  }

  /** What a pending change ends with. */
  function CalmTerminal(w: World, id: Id): Terminal
    requires Named(w) && id in w.store.changes
  {
    var receipt := Lookup(Carried(w, id), id, RequestOf(w, id));
    var t := if receipt.None? then None else MutationTerminal(receipt.value, w.store.changes[id].kind);
    // A change that was carried out has a receipt.
    if t.Some? then t.value else Fail(None, None)
  }

  lemma CalmTerminalReports(w: World, id: Id)
    requires Inv(w) && id in w.store.changes
    ensures Coherent(w.store.changes[id].kind, CalmTerminal(w, id))
    ensures Reports(CalmTerminal(w, id), HasAttachment(Carried(w, id), w.store.changes[id].chat, w.store.changes[id].root))
  {
    CarriedIsLookedUp(w, id);
  }

  /** The same grants, and nothing about them settled. */
  ghost predicate SamePermissions(b: Broker, b': Broker) {
    b'.grants == b.grants && b'.settled == b.settled && b'.executes == b.executes
  }

  lemma TheFlagIsTrue(w: World, id: Id)
    requires Inv(w) && id in w.store.changes && id !in w.broker.receipts
    ensures Flag(CalmTerminal(w, id)) == Some(Carried(w, id).attachments != w.broker.attachments)
  {
    var req := RequestOf(w, id);
    var (performed, outcome) := Perform(w.broker, req);
    PerformMints(w.broker, req);
    RecordsAreNew(w.broker, ToMutate(id, req));
    assert Carried(w, id).receipts[id] == AttachmentRecord(req, outcome);
    assert Carried(w, id).attachments == performed.attachments;
  }

  /** A change that was not carried out before ends as asked, unless it is to attach a folder that
      is not live; and a detach mints nothing. */
  lemma NewChangeEnds(w: World, id: Id)
    requires Inv(w) && id in w.store.changes && id !in w.broker.receipts
    ensures var change := w.store.changes[id];
      && (CalmTerminal(w, id).Complete? <==>
            change.kind.Detach? || change.root in w.broker.roots
            || HasAttachment(w.broker, change.chat, change.root))
      && Flag(CalmTerminal(w, id)) == Some(Carried(w, id).attachments != w.broker.attachments)
      && (change.kind.Detach? ==> SamePermissions(w.broker, Carried(w, id)))
  {
    PerformMints(w.broker, RequestOf(w, id));
    CalmTerminalReports(w, id);
    CarriedIsLookedUp(w, id);
    TheFlagIsTrue(w, id);
  }

  /** This executor's change the chat waits for, if there is one. */
  ghost function PendingHere(w: World, chat: Id): (id: Option<Id>)
    ensures id.Some? ==> id.value in MyPendingIn(w, chat)
    ensures id.None? ==> MyPendingIn(w, chat) == {}
  {
    if MyPendingIn(w, chat) == {} then None
    else
      var id :| id in MyPendingIn(w, chat);
      Some(id)
  }

  lemma OnlyOnePending(w: World, chat: Id, a: Id, b: Id)
    requires Inv(w)
    ensures a in MyPendingIn(w, chat) && b in MyPendingIn(w, chat) ==> a == b
  {}

  lemma PendingIsUnique(w: World, chat: Id, id: Id)
    requires Inv(w) && id in MyPendingIn(w, chat)
    ensures PendingHere(w, chat) == Some(id)
  {
    OnlyOnePending(w, chat, PendingHere(w, chat).value, id);
  }

  ghost function SettledStore(w: World, chat: Id): Store
    requires Named(w)
  {
    var id := PendingHere(w, chat);
    if id.None? then w.store else Finish(w.store, id.value, w.me, CalmTerminal(w, id.value)).0
  }

  ghost function SettledBroker(w: World, chat: Id): Broker
    requires Named(w)
  {
    var id := PendingHere(w, chat);
    if id.None? then w.broker else Carried(w, id.value)
  }

  /** Whether the chat's pending change, if any, ends with what it asked for. */
  ghost predicate SettlesFine(w: World, chat: Id)
    requires Named(w)
  {
    PendingHere(w, chat).Some? ==> CalmTerminal(w, PendingHere(w, chat).value).Complete?
  }

  // ----- The commands -----

  /** How a change ended for the command that drove it: it holds, it failed for good, or it is not
      known to have ended. */
  datatype Verdict = Fine | ChangeFailed | Trouble | Crashed

  datatype DisconnectReply = Disconnected(revoked: bool, shared: bool) | Stopped(verdict: Verdict)

  /** `saidWithdrawn`: the command reports that the approval was withdrawn, rather than that it
      could not be. */
  datatype ConnectReply =
    | Connected(root: Id)
    | AttachFailed(root: Id, saidWithdrawn: bool)
    | NotConnected(verdict: Verdict)

  function CalmVerdict(t: Terminal): Verdict {
    if t.Complete? then Fine else ChangeFailed
  }

  /** How a change that has just begun ends. */
  function NewVerdict(b: Broker, chat: Id, root: Id, kind: Kind): Verdict {
    if kind.Detach? || root in b.roots || HasAttachment(b, chat, root) then Fine else ChangeFailed
  }

  /** A disconnect reaches its end if the folder is live and in the chat, the change may begin, and
      the grants can be listed. */
  predicate MayDetach(s: Store, b: Broker, chat: Id, root: Id) {
    MayBegin(s, chat, root, Detach) && root in s.chats[chat].projection && root in b.roots
  }

  predicate MayDisconnect(s: Store, b: Broker, chat: Id, root: Id) {
    MayDetach(s, b, chat, root) && |b.grants| <= 2048
  }

  /** The folder a registration leads to, if it reads back as connected. */
  function RegistrationOf(s: Store, b: Broker, chat: Id, directory: nat): (r: (Broker, Option<Id>))
    requires chat in s.chats
    ensures r.1.Some? ==> r.1.value in r.0.roots
  {
    var subject := s.chats[chat].subject;
    var (registered, root) := Register(b, b.next, subject, chat, directory);
    (registered, if LookupRegistration(registered, b.next, subject, chat) == root then root else None)
  }

  /** What connecting a directory comes to: registration always answers, but it may not read back
      as connected, and then the change may not begin. */
  function CalmConnect(s: Store, b: Broker, chat: Id, directory: nat): ConnectReply
    requires chat in s.chats
  {
    var (_, root) := RegistrationOf(s, b, chat, directory);
    if root.None? then NotConnected(Trouble)
    else if MayBegin(s, chat, root.value, Attach) then Connected(root.value)
    else AttachFailed(root.value, true)
  }
}
