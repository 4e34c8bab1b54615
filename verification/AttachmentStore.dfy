/**
 The product store's half of a connected-folder change: `Begin` makes the intent durable, `Finish`
 applies what the broker turned out to hold.

 Each is one database transaction, so each is a function of the store. A store transaction that
 ends in an error is `Inconsistent`; the invariants below say it never happens.
 */
module AttachmentStore {
  import opened Prelude
  import opened HostBroker

  /** `projection` lists the chat's folders in position order. */
  datatype Chat = Chat(subject: Subject, projection: seq<Id>, revision: nat)

  datatype Phase = AwaitingBroker | Finished | Undone

  datatype Change = Change(
    chat: Id,
    executor: Id,
    root: Id,
    kind: Kind,
    existedBefore: bool,
    position: Option<nat>,
    expected: nat,
    intent: nat,
    phase: Phase,
    changed: Option<bool>,
    attached: Option<bool>)

  datatype Store = Store(chats: map<Id, Chat>, changes: map<Id, Change>)

  datatype Intent = Intent(chat: Id, executor: Id, root: Id, kind: Kind, expected: nat)

  datatype BeginAnswer =
    | Begun(change: Change)
    | Existing(change: Change)
    | ChatNotFound
    | ChatBusy
    | RevisionConflict
    | CapacityExceeded
    | RevisionExhausted
    | IdentityConflict

  datatype Terminal =
    | Complete(changed: bool, attached: bool)
    | Fail(brokerChanged: Option<bool>, brokerAttached: Option<bool>)

  datatype FinishAnswer =
    | Settled(change: Change)
    | AlreadySettled(change: Change)
    | AlreadyTerminal(change: Change)
    | NotFound
    | ExecutorMismatch
    | BrokerStateMismatch
    | Inconsistent

  const MAX_ROOT_ATTACHMENTS: nat := 32
  const MAX_ATTACHMENT_REVISION: nat := 9_007_199_254_740_991

  predicate Desired(kind: Kind) {
    kind.Attach?
  }

  // ----- The projection -----

  function IndexOf(roots: seq<Id>, root: Id): (i: Option<nat>)
    ensures i.Some? ==> i.value < |roots| && roots[i.value] == root
    ensures i.None? ==> root !in roots
  {
    if roots == [] then None
    else if roots[|roots| - 1] == root then Some(|roots| - 1)
    else IndexOf(roots[..|roots| - 1], root)
  }

  function RemoveAt(roots: seq<Id>, i: nat): seq<Id>
    requires i < |roots|
  {
    roots[..i] + roots[i + 1..]
  }

  // ----- Begin -----

  predicate Busy(s: Store, chat: Id) {
    exists id | id in s.changes :: s.changes[id].phase.AwaitingBroker? && s.changes[id].chat == chat
  }

  predicate SameIntent(change: Change, intent: Intent) {
    && change.chat == intent.chat && change.executor == intent.executor && change.root == intent.root
    && change.kind == intent.kind && change.expected == intent.expected
  }

  /** Whether the change takes a row of the projection, before or by its intent. */
  predicate HasRow(change: Change) {
    change.existedBefore || change.kind.Attach?
  }

  predicate Advances(kind: Kind, existedBefore: bool) {
    kind.Attach? && !existedBefore
  }

  /** Revisions a change may still use when it ends. */
  function Headroom(kind: Kind, existedBefore: bool): nat {
    if Advances(kind, existedBefore) || (kind.Detach? && existedBefore) then 1 else 0
  }

  function Begin(s: Store, id: Id, intent: Intent): (Store, BeginAnswer) {
    if id in s.changes then
      (s, if SameIntent(s.changes[id], intent) then Existing(s.changes[id]) else IdentityConflict)
    else if intent.chat !in s.chats then (s, ChatNotFound)
    else if Busy(s, intent.chat) then (s, ChatBusy)
    else
      var chat := s.chats[intent.chat];
      var row := IndexOf(chat.projection, intent.root);
      var advances := Advances(intent.kind, row.Some?);
      var needed := (if advances then 1 else 0) + Headroom(intent.kind, row.Some?);
      if chat.revision != intent.expected then (s, RevisionConflict)
      else if advances && |chat.projection| >= MAX_ROOT_ATTACHMENTS then (s, CapacityExceeded)
      else if chat.revision + needed > MAX_ATTACHMENT_REVISION then (s, RevisionExhausted)
      else
        var position := if advances then Some(|chat.projection|) else row;
        var revision := if advances then chat.revision + 1 else chat.revision;
        var change := Change(
          intent.chat, intent.executor, intent.root, intent.kind, row.Some?, position,
          intent.expected, revision, AwaitingBroker, None, None);
        var chat' := if advances then Chat(chat.subject, chat.projection + [intent.root], revision) else chat;
        (Store(s.chats[intent.chat := chat'], s.changes[id := change]), Begun(change))
  }

  /** Whether a change to this folder may begin now. A folder that is new to the chat takes one of 32
      places and a revision, and giving it back may take another; a folder to detach takes one. */
  predicate MayBegin(s: Store, chat: Id, root: Id, kind: Kind) {
    && chat in s.chats && !Busy(s, chat)
    && (var existed := root in s.chats[chat].projection;
        && (kind.Attach? && !existed ==> |s.chats[chat].projection| < 32)
        && s.chats[chat].revision + (if kind.Attach? == existed then 0 else if existed then 1 else 2)
           <= 9_007_199_254_740_991)
  }

  /** A change under a new identity begins exactly when one may and its fence still holds. */
  lemma BeginsExactlyWhen(s: Store, id: Id, intent: Intent)
    requires id !in s.changes
    ensures Begin(s, id, intent).1.Begun? <==>
      MayBegin(s, intent.chat, intent.root, intent.kind) && s.chats[intent.chat].revision == intent.expected
    ensures !Begin(s, id, intent).1.Begun? ==> Begin(s, id, intent).0 == s
  {
    if intent.chat in s.chats {
      var row := IndexOf(s.chats[intent.chat].projection, intent.root);
      assert row.Some? <==> intent.root in s.chats[intent.chat].projection;
    }
  }

  // ----- Finish -----

  predicate TerminalMatches(change: Change, t: Terminal) {
    match t
    case Complete(changed, attached) =>
      change.phase.Finished? && change.changed == Some(changed) && change.attached == Some(attached)
    case Fail(changed, attached) =>
      change.phase.Undone? && change.changed == changed && change.attached == attached
  }

  /** The terminal says what its observation means for this kind of change. */
  predicate Coherent(kind: Kind, t: Terminal) {
    match t
    case Complete(_, attached) => attached == Desired(kind)
    case Fail(_, attached) => attached != Some(Desired(kind))
  }

  predicate ProjectionFits(change: Change, projection: seq<Id>) {
    && HasRow(change) == IndexOf(projection, change.root).Some?
    && (HasRow(change) ==> IndexOf(projection, change.root) == change.position)
  }

  /** The row goes when a detach completes, or an attach that created it fails. */
  predicate RemovesRow(change: Change, t: Terminal) {
    if t.Complete? then change.kind.Detach? && change.existedBefore
    else change.kind.Attach? && !change.existedBefore
  }

  function Settle(change: Change, t: Terminal): Change {
    match t
    case Complete(changed, attached) =>
      change.(phase := Finished, changed := Some(changed), attached := Some(attached))
    case Fail(changed, attached) =>
      change.(phase := Undone, changed := changed, attached := attached)
  }

  function Finish(s: Store, id: Id, executor: Id, t: Terminal): (Store, FinishAnswer) {
    if id !in s.changes then (s, NotFound)
    else
      var change := s.changes[id];
      if change.executor != executor then (s, ExecutorMismatch)
      else if !change.phase.AwaitingBroker? then
        (s, if TerminalMatches(change, t) then AlreadySettled(change) else AlreadyTerminal(change))
      else if !Coherent(change.kind, t) then (s, BrokerStateMismatch)
      else if change.chat !in s.chats then (s, Inconsistent)
      else
        var chat := s.chats[change.chat];
        if chat.revision != change.intent || !ProjectionFits(change, chat.projection) then (s, Inconsistent)
        else if RemovesRow(change, t) && change.position.None? then (s, Inconsistent)
        else
          var chat' :=
            if RemovesRow(change, t)
            then Chat(chat.subject, RemoveAt(chat.projection, change.position.value), chat.revision + 1)
            else chat;
          (Store(s.chats[change.chat := chat'], s.changes[id := Settle(change, t)]), Settled(Settle(change, t)))
  }

  // ----- What always holds -----

  ghost predicate SoundChat(chat: Chat) {
    && Distinct(chat.projection)
    && |chat.projection| <= MAX_ROOT_ATTACHMENTS && chat.revision <= MAX_ATTACHMENT_REVISION
  }

  /** A change awaiting the broker finds its chat exactly as its intent left it. */
  ghost predicate Waiting(s: Store, change: Change) {
    && change.chat in s.chats
    && s.chats[change.chat].revision == change.intent
    && change.intent + Headroom(change.kind, change.existedBefore) <= MAX_ATTACHMENT_REVISION
    && ProjectionFits(change, s.chats[change.chat].projection)
  }

  /** An ended change is completed exactly when the broker was seen to hold what it asked for. */
  ghost predicate EndedAsSeen(change: Change) {
    change.phase.Finished? <==> change.attached == Some(Desired(change.kind))
  }

  ghost predicate SoundStore(s: Store) {
    && (forall c | c in s.chats :: SoundChat(s.chats[c]))
    && (forall id | id in s.changes ::
          if s.changes[id].phase.AwaitingBroker? then Waiting(s, s.changes[id])
          else EndedAsSeen(s.changes[id]))
    && (forall i, j | i in s.changes && j in s.changes && i != j
          && s.changes[i].phase.AwaitingBroker? && s.changes[j].phase.AwaitingBroker? ::
          s.changes[i].chat != s.changes[j].chat)
  }

  lemma RemovalIsExact(roots: seq<Id>, i: nat)
    requires Distinct(roots) && i < |roots|
    ensures Distinct(RemoveAt(roots, i))
    ensures forall r :: r in RemoveAt(roots, i) <==> r in roots && r != roots[i]
  {}

  lemma BeginKeepsSound(s: Store, id: Id, intent: Intent)
    requires SoundStore(s)
    ensures SoundStore(Begin(s, id, intent).0)
  {}

  lemma FinishKeepsSound(s: Store, id: Id, executor: Id, t: Terminal)
    requires SoundStore(s)
    ensures SoundStore(Finish(s, id, executor, t).0)
  {}

  /** A pending change can always be finished by its executor: no store error, and no chat wedged
      behind it. */
  lemma FinishAlwaysLands(s: Store, id: Id, t: Terminal)
    requires SoundStore(s) && id in s.changes && s.changes[id].phase.AwaitingBroker?
    requires Coherent(s.changes[id].kind, t)
    ensures Finish(s, id, s.changes[id].executor, t).1 == Settled(Settle(s.changes[id], t))
  {}

  /** What finishing does to the chat: a completed change leaves the folder there exactly when that
      was asked for, a failed one exactly when it was there before, and no other folder moves in or
      out. */
  lemma FinishedProjection(s: Store, id: Id, t: Terminal, root: Id)
    requires SoundStore(s) && id in s.changes && s.changes[id].phase.AwaitingBroker?
    requires Coherent(s.changes[id].kind, t)
    ensures var change := s.changes[id];
      var before := s.chats[change.chat].projection;
      var s' := Finish(s, id, change.executor, t).0;
      && change.chat in s'.chats
      && (root in s'.chats[change.chat].projection <==>
            if root != change.root then root in before
            else if t.Complete? then Desired(change.kind)
            else change.existedBefore)
      && (forall c | c in s.chats && c != change.chat :: c in s'.chats && s'.chats[c] == s.chats[c])
  {}

  /** A change that fails leaves the projection, order included, as if it had never begun. */
  lemma FailureUndoesTheIntent(s: Store, id: Id, intent: Intent, t: Terminal)
    requires SoundStore(s) && Begin(s, id, intent).1.Begun? && t.Fail? && Coherent(intent.kind, t)
    ensures var s' := Finish(Begin(s, id, intent).0, id, intent.executor, t).0;
      intent.chat in s'.chats && s'.chats[intent.chat].projection == s.chats[intent.chat].projection
  {}

  /** An identity that has a change gets that change back, if it is the same request, and nothing
      begins. */
  lemma BegunOnce(s: Store, id: Id, intent: Intent)
    requires id in s.changes
    ensures var change := s.changes[id];
      var same := intent == Intent(change.chat, change.executor, change.root, change.kind, change.expected);
      Begin(s, id, intent) == (s, if same then Existing(change) else IdentityConflict)
  {}

  /** A change that has ended stays as it is; its executor is told so, and whether it ended with this
      terminal. */
  lemma EndedOnce(s: Store, id: Id, t: Terminal)
    requires id in s.changes && !s.changes[id].phase.AwaitingBroker?
    ensures var change := s.changes[id];
      var same :=
        match t
        case Complete(changed, attached) =>
          change == change.(phase := Finished, changed := Some(changed), attached := Some(attached))
        case Fail(changed, attached) => change == change.(phase := Undone, changed := changed, attached := attached);
      Finish(s, id, change.executor, t) == (s, if same then AlreadySettled(change) else AlreadyTerminal(change))
  {}

  // ----- The fence -----

  /** A chat's revision only grows, and if it is the same so is the projection. */
  ghost predicate FencedBy(s: Store, s': Store) {
    forall c | c in s.chats ::
      && c in s'.chats && s.chats[c].revision <= s'.chats[c].revision
      && (s'.chats[c].revision == s.chats[c].revision ==> s'.chats[c].projection == s.chats[c].projection)
  }

  lemma FencedTwice(s: Store, m: Store, s': Store)
    requires FencedBy(s, m) && FencedBy(m, s')
    ensures FencedBy(s, s')
  {}

  /** Every transaction moves the revision by one if it changes what the chat has, and not at all
      otherwise. */
  ghost predicate Counts(s: Store, s': Store) {
    forall c | c in s.chats ::
      && c in s'.chats
      && s'.chats[c].revision ==
           s.chats[c].revision + if s'.chats[c].projection == s.chats[c].projection then 0 else 1
  }

  lemma RevisionsCountChanges(s: Store, id: Id, intent: Intent, executor: Id, t: Terminal)
    ensures Counts(s, Begin(s, id, intent).0) && Counts(s, Finish(s, id, executor, t).0)
  {
    if id in s.changes && s.changes[id].chat in s.chats && s.changes[id].position.Some? {
      var change := s.changes[id];
      var projection := s.chats[change.chat].projection;
      if change.position.value < |projection| {
        assert |RemoveAt(projection, change.position.value)| < |projection|;
      }
    }
  }
}
