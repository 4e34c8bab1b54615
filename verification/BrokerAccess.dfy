/**
 What the host broker gives, to whom, and what it never gives back.

 Grants belong to a subject, attachments to a chat. A folder's default access is given once, when
 the folder first reaches a subject; after that only a consent dialog widens it. The laws here are
 about every request, and the last one about every run of them.
 */
module BrokerAccess {
  import opened Prelude
  import opened HostBroker

  /** A chat's own subject, or its project. */
  predicate SpeaksFor(subject: Subject, chat: Id) {
    subject.Project? || subject == Conversation(chat)
  }

  /** What a folder brings along by default. */
  predicate IsDefault(capability: Capability, scope: Scope, root: Id, executes: bool) {
    match capability
    case ListRoots => scope == SubjectWide
    case ReadFiles => scope == Root(root)
    case WriteFiles => scope == Root(root)
    case ExecuteCommands => executes && scope == Root(root)
  }

  // ----- Whose it is -----

  /** A folder comes into a chat only by a consented attach of a live folder, or by picking it; and
      only for a subject of that chat. */
  lemma AttachesOnlyAsAsked(b: Broker, c: Command, a: Attachment)
    requires Sound(b) && a in Serve(b, c).attachments && a !in b.attachments
    ensures (c.ToMutate? || c.ToRegister?) && c.op !in b.receipts
    ensures c.ToMutate? ==>
      && c.req.kind.Attach? && c.req.consent && a == Attachment(c.req.chat, c.req.root)
      && c.req.root in b.roots && SpeaksFor(c.req.subject, c.req.chat)
    ensures c.ToRegister? ==>
      && a.chat == c.chat && SpeaksFor(c.subject, c.chat)
      && a.root in Serve(b, c).roots && Serve(b, c).roots[a.root].directory == c.directory
  {}

  lemma EnsureGives(t: Table, subject: Subject, root: Id, executes: bool, g: Grant)
    requires SoundTable(t) && g in EnsureGrants(t, subject, root, executes).grants && g !in t.grants
    ensures g.subject == subject && IsDefault(g.capability, g.scope, root, executes)
    ensures !Holds(t.grants, subject, g.capability, g.scope)
  {
    var t1 := GiveIfMissing(t, subject, ListRoots, SubjectWide);
    var t2 := GiveIfMissing(t1, subject, ReadFiles, Root(root));
    var t3 := GiveIfMissing(t2, subject, WriteFiles, Root(root));
    assert t.grants <= t1.grants <= t2.grants <= t3.grants;
  }

  lemma BringInGives(b: Broker, subject: Subject, chat: Id, root: Id, g: Grant)
    requires Sound(b) && g in BringIn(b, subject, chat, root).grants && g !in b.grants
    ensures g.subject == subject && IsDefault(g.capability, g.scope, root, b.executes)
    ensures !Holds(b.grants, subject, g.capability, g.scope)
  {
    EnsureGives(Table(b.grants, b.next), subject, root, b.executes, g);
  }

  /** A request that mints is an attach, a registration, or the answer to a consent dialog; and the
      grants are the asking subject's, in a chat it speaks for. */
  lemma GrantsOnlyOnesOwn(b: Broker, c: Command, g: Grant)
    requires Sound(b) && g in Serve(b, c).grants && g !in b.grants
    ensures c.ToMutate? || c.ToRegister? || c.ToWiden?
    ensures c.ToMutate? ==> g.subject == c.req.subject && SpeaksFor(g.subject, c.req.chat)
    ensures c.ToRegister? ==> g.subject == c.subject && SpeaksFor(g.subject, c.chat)
    ensures c.ToWiden? ==> g.subject == c.subject && SpeaksFor(g.subject, c.chat)
  {
    match c {
      case ToMutate(_, req) => PerformMints(b, req);
      case ToRegister(op, subject, chat, directory) =>
        if op !in b.receipts { RegisterIsExact(b, op, subject, chat, directory); }
      case ToWiden(subject, _, root, capability) =>
        GiveIfMissingMints(Table(b.grants, b.next), subject, capability, Root(root));
      case _ =>
    }
  }

  /** An attach mints with consent, for a live folder, and only what is missing. */
  lemma AttachGives(b: Broker, op: Id, req: Request, g: Grant)
    requires Sound(b) && g in Mutate(b, op, req).0.grants && g !in b.grants
    ensures op !in b.receipts && req.kind.Attach? && req.consent && req.root in b.roots
    ensures IsDefault(g.capability, g.scope, req.root, b.executes)
    ensures !Holds(b.grants, g.subject, g.capability, g.scope)
  {
    BringInGives(b, req.subject, req.chat, req.root, g);
  }

  /** So does picking a directory; only a first registration does not look what is there. */
  lemma RegistrationGives(b: Broker, op: Id, subject: Subject, chat: Id, directory: nat, g: Grant)
    requires Sound(b) && g in Register(b, op, subject, chat, directory).0.grants && g !in b.grants
    ensures var root := Register(b, op, subject, chat, directory).1;
      && root.Some? && IsDefault(g.capability, g.scope, root.value, b.executes)
      && (root.value in b.roots ==> !Holds(b.grants, g.subject, g.capability, g.scope))
  {
    var known := PreferredAlias(b, directory, subject);
    if known.Some? {
      BringInGives(Note(b, op, RegisterRecord(subject, chat, directory, known)), subject, chat, known.value, g);
    }
  }

  /** A consent dialog gives what it is about, for a folder the chat has, if it is missing. */
  lemma WideningIsExact(b: Broker, subject: Subject, chat: Id, root: Id, capability: Capability)
    requires Sound(b)
    ensures var b' := Widen(b, subject, chat, root, capability);
      var widens :=
        && root in b.roots && Attachment(chat, root) in b.attachments && SpeaksFor(subject, chat)
        && !capability.ListRoots? && (capability.ExecuteCommands? ==> b.executes)
        && !Holds(b.grants, subject, capability, Root(root));
      && b.grants <= b'.grants
      && b'.grants - b.grants == if widens then {Grant(b.next, subject, capability, Root(root))} else {}
  {}

  // ----- Once -----

  ghost predicate HasNothingOn(grants: set<Grant>, subject: Subject, root: Id) {
    forall g | g in grants && g.subject == subject :: !IsOn(g.scope, root)
  }

  /** What a new attachment gives: the folder's default access if the subject never had any on it,
      and otherwise nothing. Either way, the subject's position is settled from then on. */
  lemma ArrivalIsExact(b: Broker, op: Id, req: Request, capability: Capability, scope: Scope)
    requires Sound(b) && op !in b.receipts && req.kind.Attach?
    requires Mutate(b, op, req).1 == Some(Applied(true))
    ensures var b' := Mutate(b, op, req).0;
      var first := (req.subject, req.root) !in b.settled && HasNothingOn(b.grants, req.subject, req.root);
      && (req.subject, req.root) in b'.settled
      && (Holds(b'.grants, req.subject, capability, scope) <==>
            || Holds(b.grants, req.subject, capability, scope)
            || (first && IsDefault(capability, scope, req.root, b.executes)))
  {}

  /** What the user narrowed: the subject's position on the folder is settled, or the folder is gone
      for good. */
  ghost predicate SettledOn(b: Broker, subject: Subject, root: Id) {
    root < b.next && ((subject, root) in b.settled || !IsRegistered(b, root))
  }

  /** The requests that may give the subject more on a folder, or forget its position. */
  predicate Reopens(c: Command, subject: Subject, root: Id) {
    || (c.ToWiden? && c.subject == subject && c.root == root)
    || (c.ToPurge? && subject == Conversation(c.chat))
  }

  ghost predicate OnlyNarrowed(b: Broker, b': Broker, subject: Subject, root: Id) {
    forall g | g in b'.grants && g.subject == subject && IsOn(g.scope, root) :: g in b.grants
  }

  lemma BringInStaysNarrowed(b: Broker, asking: Subject, chat: Id, r: Id, subject: Subject, root: Id)
    requires Sound(b) && SettledOn(b, subject, root) && r in b.roots
    ensures var b' := BringIn(b, asking, chat, r);
      SettledOn(b', subject, root) && OnlyNarrowed(b, b', subject, root)
  {
    BringInMints(b, asking, chat, r);
    forall g | g in BringIn(b, asking, chat, r).grants && g !in b.grants
      ensures g.subject == asking && IsDefault(g.capability, g.scope, r, b.executes)
    {
      BringInGives(b, asking, chat, r, g);
    }
  }

  lemma RegistrationStaysNarrowed(
      b: Broker, op: Id, asking: Subject, chat: Id, directory: nat, subject: Subject, root: Id)
    requires Sound(b) && op !in b.receipts && SettledOn(b, subject, root)
    ensures var b' := Register(b, op, asking, chat, directory).0;
      SettledOn(b', subject, root) && OnlyNarrowed(b, b', subject, root)
  {
    var known := PreferredAlias(b, directory, asking);
    if SpeaksFor(asking, chat) && known.Some? {
      BringInStaysNarrowed(
        Note(b, op, RegisterRecord(asking, chat, directory, known)), asking, chat, known.value, subject, root);
    }
  }

  lemma ServeStaysNarrowed(b: Broker, c: Command, subject: Subject, root: Id)
    requires Sound(b) && SettledOn(b, subject, root) && !Reopens(c, subject, root)
    ensures var b' := Serve(b, c); SettledOn(b', subject, root) && OnlyNarrowed(b, b', subject, root)
  {
    match c {
      case ToMutate(op, req) =>
        if op !in b.receipts && !Refuses(b, req) && req.kind.Attach? {
          BringInStaysNarrowed(b, req.subject, req.chat, req.root, subject, root);
        }
      case ToRegister(op, asking, chat, directory) =>
        if op !in b.receipts { RegistrationStaysNarrowed(b, op, asking, chat, directory, subject, root); }
      case _ =>
    }
  }

  /** Over every run: once a subject's position on a folder is settled, no arrival of the folder
      anywhere, no registration and no retry gives it anything on that folder again. Only a consent
      dialog about it does, or the deletion of the subject's own chat forgets it. */
  lemma {:induction false} ANarrowedPositionStaysNarrowed(b: Broker, completed: seq<Id>, cs: seq<Command>, subject: Subject, root: Id)
    requires Sound(b) && Kept(b, completed) && Spread(completed)
    requires root < b.next && (subject, root) in b.settled
    requires forall c | c in cs :: !Reopens(c, subject, root)
    ensures SettledOn(ServeAll(b, cs), subject, root) && OnlyNarrowed(b, ServeAll(b, cs), subject, root)
  {
    if cs != [] {
      var before := cs[..|cs| - 1];
      ANarrowedPositionStaysNarrowed(b, completed, before, subject, root);
      CompletionsAreSpread(b, completed, before);
      ServeStaysNarrowed(ServeAll(b, before), cs[|cs| - 1], subject, root);
    }
  }

  // ----- Taking away -----

  /** The subject may run commands in a folder only if it may read in it. */
  ghost predicate ReadBehindExecute(grants: set<Grant>, subject: Subject) {
    forall g | g in grants && g.subject == subject && g.capability.ExecuteCommands? && g.scope.Root? ::
      exists x :: x in grants && x.subject == subject && x.capability.ReadFiles? && IsOn(x.scope, g.scope.root)
  }

  /** Revoking a grant takes that one, if it is the subject's, and what may not outlive it. */
  lemma RevokedGrantIsExact(b: Broker, subject: Subject, id: Id)
    requires Sound(b)
    ensures var b' := RevokeGrant(b, subject, id);
      && b' == b.(grants := b'.grants) && b'.grants <= b.grants
      && (forall g | g in b.grants && g !in b'.grants ::
            g.subject == subject && (g.id == id || g.capability.ExecuteCommands?))
      && (forall g | g in b.grants && g.subject == subject && g.id == id :: g !in b'.grants)
      && (ReadBehindExecute(b.grants, subject) ==> ReadBehindExecute(b'.grants, subject))
      && ((forall g | g in b.grants && g.id == id :: !g.capability.ReadFiles?) ==>
            forall g | g in b.grants && g !in b'.grants :: g.id == id)
  {
    var b' := RevokeGrant(b, subject, id);
    forall g | g in b'.grants && g.subject == subject && g.capability.ExecuteCommands? && g.scope.Root?
               && ReadBehindExecute(b.grants, subject)
      ensures exists x :: x in b'.grants && x.subject == subject && x.capability.ReadFiles? && IsOn(x.scope, g.scope.root)
    {
      var x :| x in b.grants && x.subject == subject && x.capability.ReadFiles? && IsOn(x.scope, g.scope.root);
      assert TargetsRoot(x.scope, g.scope.root);
    }
  }

  /** A folder out of reach lends itself to nobody, and comes back as it was. */
  lemma DarkAndBack(b: Broker, root: Id)
    requires Sound(b) && root in b.roots
    ensures var dark := GoDark(b, root);
      && root !in dark.roots && dark.grants == b.grants && (forall chat :: !HasAttachment(dark, chat, root))
      && ComeBack(dark, root) == b
  {}

  // ----- Once under one identity -----

  /** A receipt answers exactly the mutation it was kept for; one from before consent was recorded
      answers the attach with consent too. */
  lemma AReceiptAnswersItsOwn(b: Broker, op: Id, req: Request, outcome: Outcome)
    requires op in b.receipts
    ensures Mutate(b, op, req) == (b, Some(outcome)) <==>
      || b.receipts[op] == AttachmentRecord(req, outcome)
      || (req.kind.Attach? && req.consent && b.receipts[op] == AttachmentRecord(req.(consent := false), outcome))
  {}

  /** So do the receipts of registrations and revocations. */
  lemma OtherReceiptsAnswerTheirOwn(b: Broker, op: Id, subject: Subject, chat: Id, directory: nat, root: Id)
    requires op in b.receipts
    ensures Register(b, op, subject, chat, directory).0 == b
    ensures Register(b, op, subject, chat, directory).1 == Some(root) <==>
      b.receipts[op] == RegisterRecord(subject, chat, directory, Some(root))
    ensures forall revoked: bool :: RevokeRoot(b, op, subject, root) == (b, Some(revoked)) <==>
      b.receipts[op] == RevokeRecord(subject, root, revoked)
  {}

  /** A lookup knows a mutation by its identity and by what it was to do, consent aside: it conflicts
      exactly if the identity is another's or the subject is not the chat's. */
  lemma LookupAnswersItsOwn(b: Broker, op: Id, req: Request)
    ensures Lookup(b, op, req).None? <==>
      || !SpeaksFor(req.subject, req.chat)
      || (op in b.receipts
          && forall consent: bool, outcome: Outcome ::
               b.receipts[op] != AttachmentRecord(Request(req.subject, req.chat, req.root, req.kind, consent), outcome))
    ensures Lookup(b, op, req) == Some(Unknown) <==> SpeaksFor(req.subject, req.chat) && op !in b.receipts
  {
    if op in b.receipts && b.receipts[op].AttachmentRecord? {
      var stored := b.receipts[op].request;
      assert stored.(consent := false) == req.(consent := false) ==>
        b.receipts[op] == AttachmentRecord(
          Request(req.subject, req.chat, req.root, req.kind, stored.consent), b.receipts[op].outcome);
    }
  }

  /** A mutation that is asked for again changes nothing and is answered as the first time. */
  lemma AskedAgain(b: Broker, op: Id, req: Request)
    requires Sound(b) && |b.order| <= MAX_RETAINED_MUTATION_RECEIPTS && op !in b.order
    requires op in b.receipts ==> Mutate(b, op, req).1.Some?
    ensures var (b', reply) := Mutate(b, op, req); reply.Some? && Mutate(b', op, req) == (b', reply)
  {
    var (performed, outcome) := Perform(b, req);
    PerformMints(b, req);
    PruneStep(b.receipts[op := AttachmentRecord(req, outcome)], b.order + [op]);
  }
}
