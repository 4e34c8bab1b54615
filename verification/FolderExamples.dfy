/**
 Runs of the folder commands on which what they do or report is not what a reader would expect.

 All start from a new profile and are answered at every request, and but for one they are disturbed
 by nobody.
 */
module FolderExamples {
  import opened Prelude
  import opened HostBroker
  import opened AttachmentStore
  import opened SagaProtocol
  import opened FolderGrants
  import opened FolderOutcomes
  import opened FolderSaga

  const ME: Id := 4
  const CHAT: Id := 1
  const FOLDER: Id := 5
  const DIRECTORY: nat := 9
  const ASKING := Conversation(CHAT)
  const REGISTERING := Conversation(2)

  function OneFolder(owner: Subject, grants: set<Grant>, attachments: set<Attachment>): Broker {
    Broker(map[FOLDER := Registered(owner, DIRECTORY)], map[], grants, attachments, map[], [], {}, false, 200)
  }

  function OneChat(projection: seq<Id>, broker: Broker): World {
    World(ME, Store(map[CHAT := Chat(ASKING, projection, 1)], map[]), broker, [], map[])
  }

  lemma NothingIsPending(w: World)
    requires Inv(w) && w.store.changes == map[]
    ensures PendingHere(w, CHAT).None? && |MyPending(w)| == 0
    ensures SettledStore(w, CHAT) == w.store && SettledBroker(w, CHAT) == w.broker && SettlesFine(w, CHAT)
  {
    assert MyPending(w) == {};
  }

  const GRANT := Grant(6, ASKING, ReadFiles, Root(FOLDER))

  /** A chat whose subject holds the only grant on a folder somebody else registered. */
  function HeldAlone(): World {
    OneChat([FOLDER], OneFolder(REGISTERING, {GRANT}, {Attachment(CHAT, FOLDER)}))
  }

  lemma HeldAloneIsNew()
    ensures var w := HeldAlone();
      && Init(w) && Inv(w) && Listable(w, CHAT) && SettlesFine(w, CHAT)
      && MayDisconnect(SettledStore(w, CHAT), SettledBroker(w, CHAT), CHAT, FOLDER)
      && Sole(w.broker.grants, FOLDER, ASKING) && !Withdraws(w.broker, ASKING, FOLDER)
  {
    InitIsSound(HeldAlone());
    NothingIsPending(HeldAlone());
  }

  /** The subject holds every grant on the folder, and its disconnect leaves the folder and the
      grant standing: another subject registered it. */
  method DisconnectLeavesTheApproval() returns (before: World, after: World, r: DisconnectReply)
    ensures Init(before) && FOLDER in before.broker.roots
    ensures GRANT in before.broker.grants && Sole(before.broker.grants, FOLDER, ASKING)
    ensures r == Disconnected(false, false)
    ensures FOLDER in after.broker.roots && GRANT in after.broker.grants
  {
    HeldAloneIsNew();
    before := HeldAlone();
    var cli := new FolderCli(before, []);
    r := cli.Disconnect(CHAT, FOLDER);
    after := cli.world;
  }

  /** A subject that a folder reaches for the first time ends up connected at the broker. */
  lemma FirstArrivalIsConnected(b: Broker, op: Id, subject: Subject, chat: Id, directory: nat, root: Id)
    requires Sound(b) && op !in b.receipts && SubjectFits(subject, chat)
    requires PreferredAlias(b, directory, subject) == Some(root)
    requires !HasAttachment(b, chat, root) && (subject, root) !in b.settled && !HoldsAnyOn(b.grants, subject, root)
    ensures var (registered, known) := Register(b, op, subject, chat, directory);
      known == Some(root) && LookupRegistration(registered, op, subject, chat) == Some(root)
  {
    var noted := Note(b, op, RegisterRecord(subject, chat, directory, Some(root)));
    EnsuredIsHeld(Table(noted.grants, noted.next), subject, root, noted.executes);
  }

  lemma RefusedMeansGivenUp(s: Store, b: Broker, chat: Id, directory: nat, root: Id)
    requires Sound(b) && b.next !in b.receipts && chat in s.chats && SubjectFits(s.chats[chat].subject, chat)
    requires PreferredAlias(b, directory, s.chats[chat].subject) == Some(root)
    requires !HasAttachment(b, chat, root) && (s.chats[chat].subject, root) !in b.settled
    requires !HoldsAnyOn(b.grants, s.chats[chat].subject, root)
    requires !MayBegin(s, chat, root, Attach)
    ensures CalmConnect(s, b, chat, directory) == AttachFailed(root, true)
  {
    FirstArrivalIsConnected(b, b.next, s.chats[chat].subject, chat, directory, root);
  }

  /** A chat that has as many folders as it may, and a folder somebody else registered. */
  function FullChat(): World {
    OneChat(seq(MAX_ROOT_ATTACHMENTS, i => 100 + i), OneFolder(REGISTERING, {}, {}))
  }

  lemma FullChatIsNew()
    ensures var w := FullChat();
      && Init(w) && Inv(w) && Listable(w, CHAT) && SettlesFine(w, CHAT)
      && SettledStore(w, CHAT) == w.store && SettledBroker(w, CHAT) == w.broker
  {
    InitIsSound(FullChat());
    NothingIsPending(FullChat());
  }

  lemma FullChatRefuses()
    ensures var w := FullChat();
      && Known(w.broker, DIRECTORY) && !Withdraws(w.broker, ASKING, FOLDER)
      && CalmConnect(w.store, w.broker, CHAT, DIRECTORY) == AttachFailed(FOLDER, true)
  {
    var b := FullChat().broker;
    assert FOLDER in b.roots && Known(b, DIRECTORY);
    AliasIffKnown(b, DIRECTORY, ASKING);
    RefusedMeansGivenUp(FullChat().store, b, CHAT, DIRECTORY, FOLDER);
  }

  /** The chat is full, so the folder cannot be attached; the command says that the approval was
      withdrawn, and the folder is registered still. */
  method ConnectSaysWithdrawn() returns (before: World, after: World, r: ConnectReply)
    ensures Init(before) && Known(before.broker, DIRECTORY)
    ensures r == AttachFailed(FOLDER, true)
    ensures IsRegistered(after.broker, FOLDER)
  {
    FullChatIsNew();
    FullChatRefuses();
    before := FullChat();
    var cli := new FolderCli(before, []);
    r := cli.Connect(CHAT, DIRECTORY);
    after := cli.world;
  }

  // ----- Taking a folder from somebody else -----

  const NEIGHBOUR := Conversation(2)
  const NEXT_DOOR: Id := 2
  const THEIRS := Grant(7, NEIGHBOUR, ReadFiles, Root(FOLDER))

  /** A full chat, and a folder of its subject's own that another chat has. */
  function FullChatNextDoor(): World {
    OneChat(
      seq(MAX_ROOT_ATTACHMENTS, i => 100 + i),
      OneFolder(ASKING, {THEIRS}, {Attachment(NEXT_DOOR, FOLDER)}))
  }

  lemma FullChatNextDoorIsNew()
    ensures var w := FullChatNextDoor();
      && Init(w) && Inv(w) && Listable(w, CHAT) && SettlesFine(w, CHAT)
      && SettledStore(w, CHAT) == w.store && SettledBroker(w, CHAT) == w.broker
  {
    InitIsSound(FullChatNextDoor());
    NothingIsPending(FullChatNextDoor());
  }

  lemma FullChatNextDoorRefuses()
    ensures var w := FullChatNextDoor();
      && GivesUpTheFolder(w.broker, ASKING, DIRECTORY, FOLDER)
      && CalmConnect(w.store, w.broker, CHAT, DIRECTORY) == AttachFailed(FOLDER, true)
  {
    FullChatNextDoorIsNew();
    var b := FullChatNextDoor().broker;
    assert FOLDER in b.roots && Known(b, DIRECTORY);
    AliasIffKnown(b, DIRECTORY, ASKING);
    RefusedMeansGivenUp(FullChatNextDoor().store, b, CHAT, DIRECTORY, FOLDER);
  }

  /** A connect that fails takes the folder from the chat next door, grants and all. */
  method FailedConnectTakesTheFolderNextDoor() returns (before: World, after: World, r: ConnectReply)
    ensures Init(before) && r == AttachFailed(FOLDER, true)
    ensures THEIRS in before.broker.grants && THEIRS !in after.broker.grants
    ensures HasAttachment(before.broker, NEXT_DOOR, FOLDER) && !HasAttachment(after.broker, NEXT_DOOR, FOLDER)
  {
    FullChatNextDoorIsNew();
    FullChatNextDoorRefuses();
    before := FullChatNextDoor();
    var cli := new FolderCli(before, []);
    r := cli.Connect(CHAT, DIRECTORY);
    after := cli.world;
  }

  const PROJECT := Project(3)

  /** Two chats of a project, both with the project's folder. */
  function Siblings(): World {
    var chats := map[CHAT := Chat(PROJECT, [FOLDER], 1), NEXT_DOOR := Chat(PROJECT, [FOLDER], 1)];
    var grants := {Grant(6, PROJECT, ReadFiles, Root(FOLDER))};
    var attachments := {Attachment(CHAT, FOLDER), Attachment(NEXT_DOOR, FOLDER)};
    World(ME, Store(chats, map[]), OneFolder(PROJECT, grants, attachments), [], map[])
  }

  lemma SiblingsAreNew()
    ensures var w := Siblings();
      && Init(w) && Inv(w) && Listable(w, CHAT) && SettlesFine(w, CHAT)
      && MayDisconnect(SettledStore(w, CHAT), SettledBroker(w, CHAT), CHAT, FOLDER)
      && Sole(w.broker.grants, FOLDER, PROJECT) && Withdraws(w.broker, PROJECT, FOLDER)
  {
    InitIsSound(Siblings());
    NothingIsPending(Siblings());
  }

  /** A project's chat gives up a folder, and the other chat of the project loses it at the broker:
      the project is the sole holder, whichever of its chats have the folder. */
  method DisconnectTakesTheSiblingsFolder() returns (before: World, after: World, r: DisconnectReply)
    ensures Init(before) && r == Disconnected(true, false)
    ensures HasAttachment(before.broker, NEXT_DOOR, FOLDER) && !HasAttachment(after.broker, NEXT_DOOR, FOLDER)
  {
    SiblingsAreNew();
    before := Siblings();
    var cli := new FolderCli(before, []);
    r := cli.Disconnect(CHAT, FOLDER);
    after := cli.world;
  }

  /** A chat whose subject registered the folder and is the only one to have it. */
  function AllMine(): World {
    var chats := map[CHAT := Chat(ASKING, [FOLDER], 1), NEXT_DOOR := Chat(NEIGHBOUR, [], 1)];
    World(ME, Store(chats, map[]), OneFolder(ASKING, {GRANT}, {Attachment(CHAT, FOLDER)}), [], map[])
  }

  lemma AllMineIsNew()
    ensures var w := AllMine();
      && Init(w) && Inv(w) && Listable(w, CHAT) && SettlesFine(w, CHAT)
      && SettledBroker(w, CHAT) == w.broker
      && MayDetach(SettledStore(w, CHAT), SettledBroker(w, CHAT), CHAT, FOLDER)
  {
    InitIsSound(AllMine());
    NothingIsPending(AllMine());
  }

  /** The chat next door gets the folder. */
  function Arrival(w: World): Action {
    AskBroker(ToMutate(w.broker.next, Request(NEIGHBOUR, NEXT_DOOR, FOLDER, Attach, true)))
  }

  /** As after the folder was detached from the only chat that had it. */
  ghost predicate IsDetached(w: World) {
    && Inv(w) && w.broker.roots == AllMine().broker.roots && w.broker.setAside == map[]
    && !HasAttachment(w.broker, NEXT_DOOR, FOLDER) && SamePermissions(AllMine().broker, w.broker)
  }

  lemma ArrivalIsServed(w: World)
    requires IsDetached(w)
    ensures Others(w, [Arrival(w)]) == Apply(Arrival(w), w)
  {
    assert [Arrival(w)][..0] == [] && ByOthers(Arrival(w), w);
  }

  lemma OneMoreGrant(t: Table, subject: Subject, capability: Capability, scope: Scope)
    ensures |GiveIfMissing(t, subject, capability, scope).grants| <= |t.grants| + 1
  {}

  lemma AFewMoreGrants(t: Table, subject: Subject, root: Id)
    ensures |EnsureGrants(t, subject, root, false).grants| <= |t.grants| + 3
  {
    var t1 := GiveIfMissing(t, subject, ListRoots, SubjectWide);
    var t2 := GiveIfMissing(t1, subject, ReadFiles, Root(root));
    OneMoreGrant(t, subject, ListRoots, SubjectWide);
    OneMoreGrant(t1, subject, ReadFiles, Root(root));
    OneMoreGrant(t2, subject, WriteFiles, Root(root));
  }

  lemma ArrivalMints(w: World)
    requires IsDetached(w)
    ensures var b := Apply(Arrival(w), w).broker;
      && b.roots == w.broker.roots && b.setAside == map[]
      && b.grants == EnsureGrants(Table(w.broker.grants, w.broker.next), NEIGHBOUR, FOLDER, false).grants
  {
    assert w.broker.grants == {GRANT} && (NEIGHBOUR, FOLDER) !in w.broker.settled;
    assert !Refuses(w.broker, Request(NEIGHBOUR, NEXT_DOOR, FOLDER, Attach, true));
  }

  lemma ArrivalIsGranted(w: World)
    requires IsDetached(w)
    ensures var b := Apply(Arrival(w), w).broker;
      && b.roots == w.broker.roots && b.setAside == map[] && |b.grants| <= 4
      && exists g :: g in ForeignOn(b, ASKING, FOLDER) && g.subject == NEIGHBOUR
  {
    var t := Table(w.broker.grants, w.broker.next);
    ArrivalMints(w);
    AFewMoreGrants(t, NEIGHBOUR, FOLDER);
    EnsuredIsHeld(t, NEIGHBOUR, FOLDER, false);
    var b := Apply(Arrival(w), w).broker;
    var g :| g in b.grants && g.subject == NEIGHBOUR && g.capability == ReadFiles && g.scope == Root(FOLDER);
    assert g in ForeignOn(b, ASKING, FOLDER);
  }

  /** A revocation that withdraws the folder, and takes grants of the neighbour's with it. */
  ghost predicate TakesFromNextDoor(e: Entry) {
    && Withdraws(e.broker, ASKING, FOLDER) && FOLDER !in Resulting(e).roots
    && |Resulting(e).grants| <= MAX_LIST_GRANTS
    && exists g :: g in Taken(e, ASKING) && g.subject == NEIGHBOUR
  }

  lemma ArrivalIsTaken(w: World, e: Entry)
    requires IsDetached(w) && Revokes(e, ASKING, FOLDER) && e.broker == Others(w, [Arrival(w)]).broker
    ensures TakesFromNextDoor(e)
  {
    ArrivalIsServed(w);
    ArrivalIsGranted(w);
    RevocationTakes(e, ASKING, CHAT, FOLDER);
    FewerThan(Resulting(e).grants, e.broker.grants);
  }

  method DetachAllMine() returns (before: World, cli: FolderCli)
    ensures Init(before) && fresh(cli) && cli.Valid() && IsDetached(cli.world)
  {
    AllMineIsNew();
    before := AllMine();
    cli := new FolderCli(before, []);
    var verdict, subject := cli.DetachFromChat(CHAT, FOLDER);
  cli.Knows();
  }

  /** The second half of a disconnect, when others do `outside` between the listing and the
      revocation. */
  method WithdrawAmid(cli: FolderCli, outside: seq<Action>) returns (r: DisconnectReply, ghost e: Entry)
    requires cli.Valid() && IsDetached(cli.world)
    requires forall e | Revokes(e, ASKING, FOLDER) && e.broker == Others(cli.world, outside).broker ::
      TakesFromNextDoor(e)
    modifies cli
    ensures cli.Valid() && r == Disconnected(true, false)
    ensures e in cli.log && Revokes(e, ASKING, FOLDER) && TakesFromNextDoor(e)
    ensures FOLDER !in cli.world.broker.roots
  {
    ghost var looked := cli.log;
    cli.script := [UNEVENTFUL, Fate(outside, Served, true)];
    assert Tail(cli.script) == [Fate(outside, Served, true)];
    r := cli.WithdrawWhatIsLeft(ASKING, FOLDER);
    e := cli.log[|looked| + 1];
    assert cli.log[|looked|..][1..][0] == e;
  }

  /** A disconnect whose subject is the sole holder when it looks. The chat next door gets the
      folder before the revocation is served, and loses it to the revocation. The two halves of the
      command run one after the other; what others do is decided in between. */
  method DisconnectTakesALateArrival() returns (before: World, cli: FolderCli, r: DisconnectReply, ghost e: Entry)
    ensures Init(before) && fresh(cli) && cli.Valid()
    ensures r == Disconnected(true, false)
    ensures e in cli.log && Revokes(e, ASKING, FOLDER)
    ensures exists g :: g in Taken(e, ASKING) && g.subject == NEIGHBOUR
    ensures FOLDER !in cli.world.broker.roots
  {
    before, cli := DetachAllMine();
    ghost var w := cli.world;
    forall e | Revokes(e, ASKING, FOLDER) && e.broker == Others(w, [Arrival(w)]).broker
      ensures TakesFromNextDoor(e)
    {
      ArrivalIsTaken(w, e);
    }
    r, e := WithdrawAmid(cli, [Arrival(cli.world)]);
  }
}
