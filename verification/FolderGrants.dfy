/**
 What the folder commands do to grants, folders and attachments, and to whose.

 The first half says what their requests amount to when nobody else acts. The second is about every
 schedule: each request is judged by the broker it was served by, whatever others made of that
 broker before.
 */
module FolderGrants {
  import opened Prelude
  import opened HostBroker
  import opened SagaProtocol
  import opened FolderOutcomes

  // ----- What is somebody else's -----

  /** No grant of another subject came or went. */
  ghost predicate ForeignKept(b: Broker, b': Broker, subject: Subject) {
    forall g: Grant | g.subject != subject :: g in b.grants <==> g in b'.grants
  }

  /** No other chat got or lost a folder. */
  ghost predicate ElsewhereKept(b: Broker, b': Broker, chat: Id) {
    forall a: Attachment | a.chat != chat :: a in b.attachments <==> a in b'.attachments
  }

  /** Other subjects and other chats have what they had, except the folder if it is `gone`. */
  ghost predicate OthersLeft(b: Broker, b': Broker, subject: Subject, chat: Id, root: Id, gone: bool) {
    && (forall g: Grant | g.subject != subject ::
          g in b'.grants <==> g in b.grants && !(gone && TargetsRoot(g.scope, root)))
    && (forall a: Attachment | a.chat != chat ::
          a in b'.attachments <==> a in b.attachments && !(gone && a.root == root))
  }

  /** No grant was lost, none was added for anybody but `subject`, no other chat got or lost a
      folder, and the folders are the same. */
  ghost predicate GrantsKept(b: Broker, b': Broker, subject: Subject, chat: Id) {
    && b'.roots == b.roots && b'.setAside == b.setAside && b.grants <= b'.grants
    && ForeignKept(b, b', subject) && ElsewhereKept(b, b', chat)
  }

  lemma MutateKeepsGrants(b: Broker, op: Id, req: Request)
    requires Sound(b)
    ensures GrantsKept(b, Mutate(b, op, req).0, req.subject, req.chat)
  {
    PerformMints(b, req);
  }

  // ----- Withdrawing what is left -----

  predicate Sole(grants: set<Grant>, root: Id, subject: Subject) {
    forall g | g in grants && TargetsRoot(g.scope, root) :: g.subject == subject
  }

  predicate StillHolds(grants: set<Grant>, subject: Subject) {
    exists g | g in grants :: g.subject == subject && !g.scope.SubjectWide?
  }

  predicate IsListGrant(grant: Grant, subject: Subject) {
    grant.subject == subject && grant.capability.ListRoots? && grant.scope.SubjectWide?
  }

  ghost function ListGrantsOf(grants: set<Grant>, subject: Subject): set<Grant> {
    set g | g in grants && IsListGrant(g, subject)
  }

  ghost function WithoutGrant(b: Broker, grant: Grant): Broker {
    b.(grants := b.grants - {grant})
  }

  lemma OneGrantGoes(b: Broker, grant: Grant, subject: Subject)
    requires Sound(b) && IsListGrant(grant, subject) && grant in b.grants
    ensures RevokeGrant(b, subject, grant.id) == WithoutGrant(b, grant)
  {}

  /** Only list-folders grants of a subject without folders may go. */
  ghost predicate OrphansGo(b: Broker, b': Broker, subject: Subject) {
    && b' == b.(grants := b'.grants) && b'.grants <= b.grants
    && (forall g | g in b.grants && !IsListGrant(g, subject) :: g in b'.grants)
    && (StillHolds(b.grants, subject) ==> b' == b)
  }

  /** A subject may list folders only if it has some. */
  ghost predicate NoOrphans(grants: set<Grant>, subject: Subject) {
    StillHolds(grants, subject) || ListGrantsOf(grants, subject) == {}
  }

  ghost predicate Revoking(b: Broker, b': Broker, rest: set<Grant>, subject: Subject) {
    b' == b.(grants := b.grants - (ListGrantsOf(b.grants, subject) - rest))
  }

  lemma RevokingStarts(b: Broker, subject: Subject)
    ensures Revoking(b, b, b.grants, subject)
  {}

  lemma RevokingNext(b: Broker, b': Broker, rest: set<Grant>, grant: Grant, subject: Subject)
    requires grant in rest
    ensures Revoking(b, b', rest, subject) && rest <= b.grants ==>
      if IsListGrant(grant, subject) then
        grant in b'.grants && Revoking(b, WithoutGrant(b', grant), rest - {grant}, subject)
      else Revoking(b, b', rest - {grant}, subject)
  {}

  lemma RevokingIsPartial(b: Broker, b': Broker, subject: Subject)
    ensures forall rest | Revoking(b, b', rest, subject) && !StillHolds(b.grants, subject) ::
      OrphansGo(b, b', subject) && (rest == {} ==> NoOrphans(b'.grants, subject))
  {}

  /** The folder, its grants and its attachments are gone if `subject` could withdraw them, and
      untouched if not. */
  ghost predicate Withdrawn(b: Broker, b': Broker, subject: Subject, root: Id) {
    if Withdraws(b, subject, root) then
      && !IsRegistered(b', root) && b'.attachments == (set a | a in b.attachments && a.root != root)
      && b'.grants == (set g | g in b.grants && !TargetsRoot(g.scope, root))
      && b'.setAside.Keys <= b.setAside.Keys
      && b.setAside.Keys <= b'.setAside.Keys + {root}
    else
      && b'.roots == b.roots && b'.setAside == b.setAside
      && b'.grants == b.grants && b'.attachments == b.attachments
  }

  lemma GrantsKeptTwice(b: Broker, m: Broker, b': Broker, subject: Subject, chat: Id)
    requires GrantsKept(b, m, subject, chat) && GrantsKept(m, b', subject, chat)
    ensures GrantsKept(b, b', subject, chat)
  {}

  /** What becomes of the grants once the chat is detached. */
  ghost predicate Afterwards(b: Broker, b': Broker, subject: Subject, root: Id, r: DisconnectReply) {
    exists m ::
      && (m == b || (Sole(b.grants, root, subject) && Withdrawn(b, m, subject, root)))
      && OrphansGo(m, b', subject)
      && (r.Disconnected? ==>
            && r.shared == !Sole(b.grants, root, subject)
            && r.revoked == (!r.shared && Withdraws(b, subject, root))
            && (!r.shared ==> Withdrawn(b, m, subject, root))
            && (r.shared ==> m == b)
            && NoOrphans(b'.grants, subject))
  }

  ghost predicate ListsFolders(g: Grant, subject: Subject) {
    g == Grant(g.id, subject, ListRoots, SubjectWide)
  }

  ghost predicate HasAFolder(grants: set<Grant>, subject: Subject) {
    exists g, root | g in grants && g.subject == subject :: IsOn(g.scope, root)
  }

  /** The approval is shared exactly when somebody else holds a grant on the folder. It is
      withdrawn exactly when nobody does and the subject may revoke the registration; then nothing
      of the folder is left, not even in another chat, and otherwise every grant on it is. The
      subject's list-folders grants all go exactly when it has no folder left; nothing else of its
      own does. */
  ghost predicate DisconnectedExactly(
      b: Broker, b': Broker, subject: Subject, chat: Id, root: Id, revoked: bool, shared: bool)
  {
    && OthersLeft(b, b', subject, chat, root, revoked)
    && (shared <==> exists g | g in b.grants && g.subject != subject :: IsOn(g.scope, root))
    && revoked == (!shared && Withdraws(b, subject, root))
    && (revoked ==> !IsRegistered(b', root) && forall g | g in b'.grants :: !IsOn(g.scope, root))
    && (!revoked ==> b'.roots == b.roots && b'.setAside == b.setAside)
    && (forall g | g in b.grants && g.subject == subject && !ListsFolders(g, subject) ::
          g in b'.grants || (revoked && IsOn(g.scope, root)))
    && (forall g | ListsFolders(g, subject) ::
          if HasAFolder(b'.grants, subject) then g in b.grants ==> g in b'.grants else g !in b'.grants)
  }

  /** What the listing is searched for is what it is meant to be. */
  lemma HoldersAreHolders(grants: set<Grant>, subject: Subject, root: Id)
    ensures StillHolds(grants, subject) <==> HasAFolder(grants, subject)
    ensures forall g: Grant :: IsListGrant(g, subject) <==> ListsFolders(g, subject)
    ensures !Sole(grants, root, subject) <==> exists g | g in grants && g.subject != subject :: IsOn(g.scope, root)
  {
    if StillHolds(grants, subject) {
      var g :| g in grants && g.subject == subject && !g.scope.SubjectWide?;
      assert IsOn(g.scope, g.scope.root);
    }
  }

  lemma {:induction false} FewerThan<T>(a: set<T>, b: set<T>)
    requires a <= b
    ensures |a| <= |b|
  {
    if a != {} {
      var x :| x in a;
      FewerThan(a - {x}, b - {x});
    }
  }

  lemma FewerAfterwards(b: Broker, b': Broker, subject: Subject, root: Id)
    ensures Withdrawn(b, b', subject, root) || b' == b ==> |b'.grants| <= |b.grants|
  {
    if Withdrawn(b, b', subject, root) || b' == b {
      FewerThan(b'.grants, b.grants);
    }
  }

  lemma AfterwardsIsExact(b0: Broker, b: Broker, b': Broker, subject: Subject, chat: Id, root: Id)
    requires GrantsKept(b0, b, subject, chat)
    ensures forall r | Afterwards(b, b', subject, root, r) ::
      && ForeignKept(b0, b', subject) && b'.attachments <= b.attachments
      && (r.Disconnected? ==> DisconnectedExactly(b0, b', subject, chat, root, r.revoked, r.shared))
  {
    HoldersAreHolders(b.grants, subject, root);
    HoldersAreHolders(b'.grants, subject, root);
    forall r | Afterwards(b, b', subject, root, r) && r.Disconnected?
      ensures DisconnectedExactly(b0, b', subject, chat, root, r.revoked, r.shared)
    {
      assert forall g | g in b.grants :: IsOn(g.scope, root) <==> TargetsRoot(g.scope, root);
      assert r.shared <==> exists g | g in b0.grants && g.subject != subject :: IsOn(g.scope, root);
      assert forall g | g in b0.grants && g.subject == subject && !ListsFolders(g, subject) ::
          g in b'.grants || (r.revoked && IsOn(g.scope, root));
      forall g | ListsFolders(g, subject)
        ensures if HasAFolder(b'.grants, subject) then g in b0.grants ==> g in b'.grants else g !in b'.grants
      {
        assert g in b'.grants <==> g in ListGrantsOf(b'.grants, subject);
      }
    }
  }

  predicate Known(b: Broker, directory: nat) {
    exists r | r in b.roots :: b.roots[r].directory == directory
  }

  ghost predicate RegisteredAs(
      b: Broker, b': Broker, subject: Subject, chat: Id, directory: nat, root: Id)
  {
    && b'.setAside == b.setAside && b.grants <= b'.grants
    && ForeignKept(b, b', subject) && ElsewhereKept(b, b', chat)
    && if Known(b, directory)
       then b'.roots == b.roots && IsAlias(b, root, directory)
       else !IsRegistered(b, root) && b'.roots == b.roots[root := Registered(subject, directory)]
  }

  lemma AliasIffKnown(b: Broker, directory: nat, owner: Subject)
    requires Sound(b)
    ensures PreferredAlias(b, directory, owner).Some? <==> Known(b, directory)
  {
    var preferred := PreferredAlias(b, directory, owner);
    if preferred.Some? {
      assert IsAlias(b, preferred.value, directory);
    } else {
      forall r | r in b.roots ensures b.roots[r].directory != directory {
        assert !IsAlias(b, r, directory);
      }
    }
  }

  lemma RegistrationIsExact(b: Broker, op: Id, subject: Subject, chat: Id, directory: nat)
    requires Sound(b) && op !in b.receipts
    ensures var (b', root) := Register(b, op, subject, chat, directory);
      root.Some? ==> RegisteredAs(b, b', subject, chat, directory, root.value)
  {
    RegisterIsExact(b, op, subject, chat, directory);
    AliasIffKnown(b, directory, subject);
  }

  /** Whether giving up on connecting withdraws the folder: it was not known before, or could be
      withdrawn by the subject all along. */
  ghost predicate GivesUpTheFolder(b: Broker, subject: Subject, directory: nat, root: Id) {
    !Known(b, directory) || Withdraws(b, subject, root)
  }

  /** The folder is live and in the chat, and the subject may list its folders and read and write
      this one. */
  ghost predicate Reaches(b: Broker, subject: Subject, chat: Id, root: Id) {
    && root in b.roots && Attachment(chat, root) in b.attachments
    && (exists g | g in b.grants :: g.subject == subject && g.capability.ListRoots? && g.scope.SubjectWide?)
    && (exists g | g in b.grants :: g.subject == subject && g.capability.ReadFiles? && g.scope == Root(root))
    && (exists g | g in b.grants :: g.subject == subject && g.capability.WriteFiles? && g.scope == Root(root))
  }

  /** A registration reads back as connected exactly if it is this subject's for this chat and the
      folder it led to is within the subject's reach. */
  lemma ReadsBackReached(b: Broker, op: Id, subject: Subject, chat: Id)
    requires Sound(b)
    ensures forall root: Id :: LookupRegistration(b, op, subject, chat) == Some(root) <==>
      && op in b.receipts && b.receipts[op].RegisterRecord?
      && b.receipts[op] == RegisterRecord(subject, chat, b.receipts[op].directory, Some(root))
      && Reaches(b, subject, chat, root)
  {}

  /** The folder was registered, or found, after nothing but changes of the chat's own, and the
      subject reaches it. */
  ghost predicate AdmittedFrom(b: Broker, b': Broker, subject: Subject, chat: Id, directory: nat, root: Id) {
    && Reaches(b', subject, chat, root)
    && exists m :: GrantsKept(b, m, subject, chat) && RegisteredAs(m, b', subject, chat, directory, root)
  }

  /** A command that only registers and attaches takes nothing from anybody else. */
  lemma ConnectingKeeps(
      b0: Broker, b2: Broker, b3: Broker, subject: Subject, chat: Id, directory: nat, root: Id)
    requires AdmittedFrom(b0, b2, subject, chat, directory, root) && GrantsKept(b2, b3, subject, chat)
    ensures OthersLeft(b0, b3, subject, chat, root, false)
    ensures Attachment(chat, root) in b3.attachments ==> Reaches(b3, subject, chat, root)
    ensures Withdraws(b3, subject, root) <==> GivesUpTheFolder(b0, subject, directory, root)
    ensures IsRegistered(b3, root)
  {
    var b1 :| GrantsKept(b0, b1, subject, chat) && RegisteredAs(b1, b2, subject, chat, directory, root);
  }

  /** Nothing but attaching, and then the revocation unless its answer was lost. */
  ghost predicate GaveUp(b: Broker, b': Broker, subject: Subject, chat: Id, root: Id, answered: bool) {
    exists m ::
      && GrantsKept(b, m, subject, chat)
      && (Withdrawn(m, b', subject, root) || (!answered && b' == m))
  }

  /** What giving up after a registration leaves to others. */
  lemma GivingUpAfterwards(
      b0: Broker, b2: Broker, b4: Broker, subject: Subject, chat: Id, directory: nat, root: Id, answered: bool)
    requires AdmittedFrom(b0, b2, subject, chat, directory, root)
    requires GaveUp(b2, b4, subject, chat, root, answered)
    ensures var gone := GivesUpTheFolder(b0, subject, directory, root);
      if answered
      then (IsRegistered(b4, root) <==> !gone) && OthersLeft(b0, b4, subject, chat, root, gone)
      else OthersLeft(b0, b4, subject, chat, root, false) || OthersLeft(b0, b4, subject, chat, root, gone)
  {
    var b3 :| GrantsKept(b2, b3, subject, chat)
      && (Withdrawn(b3, b4, subject, root) || (!answered && b4 == b3));
    ConnectingKeeps(b0, b2, b3, subject, chat, directory, root);
    if Withdrawn(b3, b4, subject, root) {
      GivingUpTakes(b0, b3, b4, subject, chat, root);
    }
  }

  /** And then it may revoke the folder again. */
  lemma GivingUpTakes(b0: Broker, b3: Broker, b4: Broker, subject: Subject, chat: Id, root: Id)
    requires OthersLeft(b0, b3, subject, chat, root, false) && IsRegistered(b3, root)
    requires Withdrawn(b3, b4, subject, root)
    ensures OthersLeft(b0, b4, subject, chat, root, Withdraws(b3, subject, root))
    ensures IsRegistered(b4, root) <==> !Withdraws(b3, subject, root)
  {}

  // ----- Every schedule -----

  /** A request of this program that was served, and the broker that served it. */
  datatype Entry =
    | Asked(broker: Broker, command: Command)
    | Listed(broker: Broker)
    | ReadBack(broker: Broker, root: Id)

  ghost function Resulting(e: Entry): Broker {
    match e
    case Asked(b, c) => Serve(b, c)
    case _ => e.broker
  }

  /** The grants of other subjects a request took away. */
  ghost function Taken(e: Entry, subject: Subject): set<Grant> {
    set g | g in e.broker.grants && g !in Resulting(e).grants && g.subject != subject
  }

  /** The folders it took from other chats. */
  ghost function Evicted(e: Entry, chat: Id): set<Attachment> {
    set a | a in e.broker.attachments && a !in Resulting(e).attachments && a.chat != chat
  }

  ghost function ForeignOn(b: Broker, subject: Subject, root: Id): set<Grant> {
    set g | g in b.grants && g.subject != subject && TargetsRoot(g.scope, root)
  }

  ghost function ElsewhereOn(b: Broker, chat: Id, root: Id): set<Attachment> {
    set a | a in b.attachments && a.chat != chat && a.root == root
  }

  /** A request that gives and takes nothing but what is the subject's or the chat's own. */
  ghost predicate Mild(e: Entry, subject: Subject, chat: Id) {
    && (e.Asked? ==> !e.command.ToRevokeRoot?)
    && ForeignKept(e.broker, Resulting(e), subject) && ElsewhereKept(e.broker, Resulting(e), chat)
    && forall r | IsRegistered(e.broker, r) :: IsRegistered(Resulting(e), r)
  }

  ghost predicate OnlyMild(was: seq<Entry>, now: seq<Entry>, subject: Subject, chat: Id) {
    was <= now && forall i | |was| <= i < |now| :: Mild(now[i], subject, chat)
  }

  lemma OnlyMildTwice(was: seq<Entry>, mid: seq<Entry>, now: seq<Entry>, subject: Subject, chat: Id)
    requires OnlyMild(was, mid, subject, chat) && OnlyMild(mid, now, subject, chat)
    ensures OnlyMild(was, now, subject, chat)
  {}

  lemma MutateIsMild(b: Broker, op: Id, req: Request)
    requires Sound(b)
    ensures Mild(Asked(b, ToMutate(op, req)), req.subject, req.chat)
  {
    MutateKeepsGrants(b, op, req);
  }

  lemma RegisterIsMild(b: Broker, op: Id, subject: Subject, chat: Id, directory: nat)
    requires Sound(b) && op !in b.receipts
    ensures Mild(Asked(b, ToRegister(op, subject, chat, directory)), subject, chat)
  {
    RegisterIsExact(b, op, subject, chat, directory);
  }

  lemma RevokeGrantIsMild(b: Broker, subject: Subject, id: Id, chat: Id)
    ensures Mild(Asked(b, ToRevokeGrant(subject, id)), subject, chat)
  {}

  predicate Revokes(e: Entry, subject: Subject, root: Id) {
    && e.Asked? && e.command.ToRevokeRoot? && e.command.subject == subject && e.command.root == root
    && e.command.op !in e.broker.receipts
  }

  /** A revocation takes from others exactly what they have of the folder by the time it is served,
      if it is the subject's to withdraw by then. */
  lemma RevocationTakes(e: Entry, subject: Subject, chat: Id, root: Id)
    requires Revokes(e, subject, root)
    ensures Taken(e, subject) == if Withdraws(e.broker, subject, root) then ForeignOn(e.broker, subject, root) else {}
    ensures Evicted(e, chat) == if Withdraws(e.broker, subject, root) then ElsewhereOn(e.broker, chat, root) else {}
  {}

  lemma MildTakesNothing(e: Entry, subject: Subject, chat: Id)
    requires Mild(e, subject, chat)
    ensures Taken(e, subject) == {} && Evicted(e, chat) == {}
  {}

  ghost predicate AsksToRevoke(e: Entry, grant: Grant, subject: Subject) {
    e.Asked? && e.command == ToRevokeGrant(subject, grant.id)
  }

  /** Requests to revoke list-folders grants out of `grants`. */
  ghost predicate OnlyListed(part: seq<Entry>, grants: set<Grant>, subject: Subject) {
    forall i | 0 <= i < |part| :: exists g :: g in ListGrantsOf(grants, subject) && AsksToRevoke(part[i], g, subject)
  }

  ghost predicate IsAsked(part: seq<Entry>, grant: Grant, subject: Subject) {
    exists i :: 0 <= i < |part| && AsksToRevoke(part[i], grant, subject)
  }

  ghost predicate AllAsked(part: seq<Entry>, grants: set<Grant>, subject: Subject) {
    forall g | g in ListGrantsOf(grants, subject) :: IsAsked(part, g, subject)
  }

  ghost predicate AllAskedBut(part: seq<Entry>, grants: set<Grant>, rest: set<Grant>, subject: Subject) {
    forall g | g in ListGrantsOf(grants, subject) && g !in rest :: IsAsked(part, g, subject)
  }

  /** One more request for a listed grant, or one that did not get through. */
  lemma AskedNext(
      start: seq<Entry>, was: seq<Entry>, now: seq<Entry>,
      grants: set<Grant>, rest: set<Grant>, grant: Grant, subject: Subject)
    requires start <= was && OnlyListed(was[|start|..], grants, subject)
    requires AllAskedBut(was[|start|..], grants, rest, subject)
    requires grant in grants && IsListGrant(grant, subject)
    requires now == was || (|now| == |was| + 1 && was <= now && AsksToRevoke(now[|was|], grant, subject))
    ensures OnlyListed(now[|start|..], grants, subject)
    ensures AllAskedBut(now[|start|..], grants, if now == was then rest else rest - {grant}, subject)
  {
    var before, after := was[|start|..], now[|start|..];
    if now != was {
      assert after == before + [now[|was|]];
      assert grant in ListGrantsOf(grants, subject) && AsksToRevoke(after[|before|], grant, subject);
      forall i | 0 <= i < |after|
        ensures exists g :: g in ListGrantsOf(grants, subject) && AsksToRevoke(after[i], g, subject)
      {
        if i < |before| {
          var g :| g in ListGrantsOf(grants, subject) && AsksToRevoke(before[i], g, subject);
          assert AsksToRevoke(after[i], g, subject);
        }
      }
      forall g | g in ListGrantsOf(grants, subject) && g !in rest ensures IsAsked(after, g, subject) {
        var i :| 0 <= i < |before| && AsksToRevoke(before[i], g, subject);
        assert AsksToRevoke(after[i], g, subject);
      }
    }
  }

  /** A listing, and then requests for the list-folders grants on it if there is no folder to list:
      for all of them, if the clean-up is done. */
  ghost predicate OrphansAsked(part: seq<Entry>, subject: Subject, done: bool) {
    if part == [] then !done
    else
      && part[0].Listed?
      && OnlyListed(part[1..], part[0].broker.grants, subject)
      && (StillHolds(part[0].broker.grants, subject) ==> |part| == 1)
      && (done && !StillHolds(part[0].broker.grants, subject) ==> AllAsked(part[1..], part[0].broker.grants, subject))
  }

  /** The revocation if the subject is the `sole` holder, and the clean-up. The reply says what the
      revocation came to. */
  ghost predicate RestAsked(part: seq<Entry>, subject: Subject, root: Id, sole: bool, r: DisconnectReply) {
    if !sole then
      && OrphansAsked(part, subject, r.Disconnected?)
      && (r.Disconnected? ==> r == Disconnected(false, true))
    else if part == [] then r.Stopped?
    else
      && Revokes(part[0], subject, root)
      && OrphansAsked(part[1..], subject, r.Disconnected?)
      && (r.Disconnected? ==> r == Disconnected(Withdraws(part[0].broker, subject, root), false))
  }

  /** A listing, and what follows from it. */
  ghost predicate WithdrawalAsked(part: seq<Entry>, subject: Subject, root: Id, r: DisconnectReply) {
    if part == [] then r.Stopped?
    else
      part[0].Listed? && RestAsked(part[1..], subject, root, Sole(part[0].broker.grants, root, subject), r)
  }

  /** Mild requests, and then those that withdraw what is left. */
  ghost predicate DisconnectAsked(
      was: seq<Entry>, now: seq<Entry>, subject: Subject, chat: Id, root: Id, r: DisconnectReply)
  {
    exists n :: |was| <= n <= |now|
      && OnlyMild(was, now[..n], subject, chat) && WithdrawalAsked(now[n..], subject, root, r)
  }

  lemma OrphansAreMild(part: seq<Entry>, subject: Subject, done: bool, chat: Id, i: nat)
    requires OrphansAsked(part, subject, done) && i < |part|
    ensures Mild(part[i], subject, chat)
  {
    if i > 0 {
      assert part[i] == part[1..][i - 1];
      var g :| g in ListGrantsOf(part[0].broker.grants, subject) && AsksToRevoke(part[i], g, subject);
      RevokeGrantIsMild(part[i].broker, subject, g.id, chat);
    }
  }

  lemma RestIsMild(part: seq<Entry>, subject: Subject, chat: Id, root: Id, r: DisconnectReply, i: nat)
    requires WithdrawalAsked(part, subject, root, r) && i < |part|
    ensures Mild(part[i], subject, chat) ||
      (&& i == 1 && Revokes(part[1], subject, root) && part[0].Listed? && Sole(part[0].broker.grants, root, subject)
       && (r.Disconnected? ==> r.revoked == Withdraws(part[1].broker, subject, root)))
  {
    if i > 0 {
      assert part[1..][i - 1] == part[i] && part[1..][0] == part[1];
      if !Sole(part[0].broker.grants, root, subject) {
        OrphansAreMild(part[1..], subject, r.Disconnected?, chat, i - 1);
      } else if i > 1 {
        assert part[1..][1..][i - 2] == part[i];
        OrphansAreMild(part[1..][1..], subject, r.Disconnected?, chat, i - 2);
      }
    }
  }

  /** The revocation, if there is one, comes directly after a listing that shows the subject as the
      sole holder; everything else is mild. */
  lemma OneRevocation(
      was: seq<Entry>, now: seq<Entry>, subject: Subject, chat: Id, root: Id, r: DisconnectReply, i: nat)
    requires DisconnectAsked(was, now, subject, chat, root, r) && |was| <= i < |now|
    ensures Mild(now[i], subject, chat) || Revokes(now[i], subject, root)
    ensures !Mild(now[i], subject, chat) ==>
      && i > |was| && now[i - 1].Listed? && Sole(now[i - 1].broker.grants, root, subject)
      && (r.Disconnected? ==> r.revoked == Withdraws(now[i].broker, subject, root))
  {
    var n :| |was| <= n <= |now|
      && OnlyMild(was, now[..n], subject, chat) && WithdrawalAsked(now[n..], subject, root, r);
    if i < n {
      assert now[i] == now[..n][i];
    } else {
      var part := now[n..];
      assert now[i] == part[i - n] && now[n] == part[0];
      RestIsMild(part, subject, chat, root, r, i - n);
    }
  }

  lemma SoleHasNoForeign(grants: set<Grant>, b: Broker, subject: Subject, root: Id)
    requires Sole(grants, root, subject)
    ensures ForeignOn(b, subject, root) !! grants
  {}

  /** Under every schedule, a disconnect takes nothing of anybody else's but by its one revocation.
      That takes exactly what others have of the folder by then, and what it takes of their grants
      came after the listing that showed the subject as the sole holder. */
  lemma WhatADisconnectTakes(
      was: seq<Entry>, now: seq<Entry>, subject: Subject, chat: Id, root: Id, r: DisconnectReply, i: nat)
    requires DisconnectAsked(was, now, subject, chat, root, r) && |was| <= i < |now|
    ensures if Revokes(now[i], subject, root) && Withdraws(now[i].broker, subject, root)
      then
        && Taken(now[i], subject) == ForeignOn(now[i].broker, subject, root)
        && Evicted(now[i], chat) == ElsewhereOn(now[i].broker, chat, root)
      else Taken(now[i], subject) == {} && Evicted(now[i], chat) == {}
    ensures Taken(now[i], subject) != {} ==>
      i > |was| && now[i - 1].Listed? && Taken(now[i], subject) !! now[i - 1].broker.grants
    ensures r.Disconnected? && Revokes(now[i], subject, root) ==>
      r.revoked == Withdraws(now[i].broker, subject, root)
  {
    OneRevocation(was, now, subject, chat, root, r, i);
    if Mild(now[i], subject, chat) {
      MildTakesNothing(now[i], subject, chat);
    } else {
      RevocationTakes(now[i], subject, chat, root);
      SoleHasNoForeign(now[i - 1].broker.grants, now[i].broker, subject, root);
    }
  }

  /** A read-back was served that found the folder within the subject's reach. */
  ghost predicate WasReadBack(was: seq<Entry>, now: seq<Entry>, subject: Subject, chat: Id, root: Id) {
    exists i :: |was| <= i < |now| && now[i].ReadBack? && now[i].root == root
                && Reaches(now[i].broker, subject, chat, root)
  }

  /** Mild requests, and then at most one revocation: of the folder that could not be attached. */
  ghost predicate ConnectAsked(
      was: seq<Entry>, now: seq<Entry>, subject: Subject, chat: Id, r: ConnectReply)
  {
    exists n :: |was| <= n <= |now|
      && OnlyMild(was, now[..n], subject, chat)
      && (if n == |now| then r.AttachFailed? ==> !r.saidWithdrawn else n + 1 == |now| && GivesUp(now[n], subject, r))
  }

  ghost predicate GivesUp(e: Entry, subject: Subject, r: ConnectReply) {
    && e.Asked? && e.command.ToRevokeRoot? && Revokes(e, subject, e.command.root)
    && (r == NotConnected(Crashed) || (r.AttachFailed? && r.root == e.command.root))
  }

  /** What a successful disconnect reports is what its listing showed and what its revocation came
      to: that one, and no other. */
  lemma WhatADisconnectReports(
      was: seq<Entry>, now: seq<Entry>, subject: Subject, chat: Id, root: Id, r: DisconnectReply) returns (j: nat)
    requires DisconnectAsked(was, now, subject, chat, root, r) && r.Disconnected?
    ensures |was| <= j < |now| && now[j].Listed? && r.shared == !Sole(now[j].broker.grants, root, subject)
    ensures if r.shared then !r.revoked
            else j + 1 < |now| && Revokes(now[j + 1], subject, root)
                 && r.revoked == Withdraws(now[j + 1].broker, subject, root)
  {
    var n :| |was| <= n <= |now|
      && OnlyMild(was, now[..n], subject, chat) && WithdrawalAsked(now[n..], subject, root, r);
    j := n;
    assert now[n..][0] == now[n];
    if !r.shared {
      assert now[n..][1..][0] == now[n + 1];
    }
  }

  lemma MildThenConnect(
      was: seq<Entry>, mid: seq<Entry>, now: seq<Entry>, subject: Subject, chat: Id, r: ConnectReply)
    requires OnlyMild(was, mid, subject, chat) && ConnectAsked(mid, now, subject, chat, r)
    ensures ConnectAsked(was, now, subject, chat, r)
  {
    var n :| |mid| <= n <= |now|
      && OnlyMild(mid, now[..n], subject, chat)
      && (if n == |now| then r.AttachFailed? ==> !r.saidWithdrawn else n + 1 == |now| && GivesUp(now[n], subject, r));
    OnlyMildTwice(was, mid, now[..n], subject, chat);
  }

  /** Under every schedule, a connect takes nothing of anybody else's unless it gives up; then its
      last request takes exactly what others have of the folder by the time it is served, if the
      folder is the subject's to withdraw by then. */
  lemma WhatAConnectTakes(
      was: seq<Entry>, now: seq<Entry>, subject: Subject, chat: Id, r: ConnectReply, i: nat)
    requires ConnectAsked(was, now, subject, chat, r) && |was| <= i < |now|
    ensures Taken(now[i], subject) != {} || Evicted(now[i], chat) != {} ==>
      && i == |now| - 1 && GivesUp(now[i], subject, r)
      && Withdraws(now[i].broker, subject, now[i].command.root)
    ensures GivesUp(now[i], subject, r) && Withdraws(now[i].broker, subject, now[i].command.root) ==>
      && Taken(now[i], subject) == ForeignOn(now[i].broker, subject, now[i].command.root)
      && Evicted(now[i], chat) == ElsewhereOn(now[i].broker, chat, now[i].command.root)
    ensures r.AttachFailed? && r.saidWithdrawn ==> GivesUp(now[|now| - 1], subject, r)
  {
    var n :| |was| <= n <= |now|
      && OnlyMild(was, now[..n], subject, chat)
      && (if n == |now| then r.AttachFailed? ==> !r.saidWithdrawn else n + 1 == |now| && GivesUp(now[n], subject, r));
    if i < n {
      assert now[i] == now[..n][i];
      MildTakesNothing(now[i], subject, chat);
    } else {
      RevocationTakes(now[i], subject, chat, now[i].command.root);
    }
  }
}
