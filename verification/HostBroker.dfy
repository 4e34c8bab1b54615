/**
 The host broker, as far as connected folders rely on it: which folders it knows, which standing
 grants and attachments it holds, and which mutations it has a receipt for.

 It is the folder commands' counterpart rather than their code, so it is a value and each request
 a function from one state to the next. Identities are numbers below `next`; a new one is `next`
 itself. A set of grants with distinct identities stands for the original's vector, whose order no
 request depends on. The grants and attachments that travel with a set-aside folder are exactly
 the ones that target it, so one set holds them all.
 */
module HostBroker {
  import opened Prelude

  type Id = nat

  datatype Subject = Conversation(chat: Id) | Project(project: Id)

  datatype Capability = ListRoots | ReadFiles | WriteFiles | ExecuteCommands

  datatype Scope = SubjectWide | Root(root: Id) | PathSubtree(root: Id, path: string)

  datatype Grant = Grant(id: Id, subject: Subject, capability: Capability, scope: Scope)

  datatype Attachment = Attachment(chat: Id, root: Id)

  /** `directory` is the physical directory behind a registration. */
  datatype Registered = Registered(owner: Subject, directory: nat)

  datatype Kind = Attach | Detach

  datatype Request = Request(subject: Subject, chat: Id, root: Id, kind: Kind, consent: bool)

  datatype Outcome = Applied(changed: bool) | Refused

  datatype Record =
    | AttachmentRecord(request: Request, outcome: Outcome)
    | WriteRecord
    | RegisterRecord(subject: Subject, chat: Id, directory: nat, root: Option<Id>)
    | RevokeRecord(subject: Subject, target: Id, revoked: bool)

  /** `setAside` holds the folders whose directory could not be reopened. */
  datatype Broker = Broker(
    roots: map<Id, Registered>,
    setAside: map<Id, Registered>,
    grants: set<Grant>,
    attachments: set<Attachment>,
    receipts: map<Id, Record>,
    order: seq<Id>,
    settled: set<(Subject, Id)>,
    executes: bool,
    next: Id)

  const MAX_RETAINED_MUTATION_RECEIPTS: nat := 2048
  const MAX_LIST_GRANTS: nat := 256 * 8

  predicate TargetsRoot(scope: Scope, root: Id) {
    match scope
    case SubjectWide => false
    case Root(r) => r == root
    case PathSubtree(r, _) => r == root
  }

  predicate SubjectFits(subject: Subject, chat: Id) {
    subject.Conversation? ==> subject.chat == chat
  }

  /** A set-aside folder's attachments wait with it. */
  predicate HasAttachment(b: Broker, chat: Id, root: Id) {
    root !in b.setAside && Attachment(chat, root) in b.attachments
  }

  /** The grants and the next free identity. */
  datatype Table = Table(grants: set<Grant>, next: Id)

  predicate Holds(grants: set<Grant>, subject: Subject, capability: Capability, scope: Scope) {
    exists g | g in grants :: g.subject == subject && g.capability == capability && g.scope == scope
  }

  predicate HoldsAnyOn(grants: set<Grant>, subject: Subject, root: Id) {
    exists g | g in grants :: g.subject == subject && TargetsRoot(g.scope, root)
  }

  // ----- Minting -----

  function Give(t: Table, subject: Subject, capability: Capability, scope: Scope): Table {
    Table(t.grants + {Grant(t.next, subject, capability, scope)}, t.next + 1)
  }

  function GiveIfMissing(t: Table, subject: Subject, capability: Capability, scope: Scope): Table {
    if Holds(t.grants, subject, capability, scope) then t else Give(t, subject, capability, scope)
  }

  function EnsureGrants(t: Table, subject: Subject, root: Id, executes: bool): Table {
    var t1 := GiveIfMissing(t, subject, ListRoots, SubjectWide);
    var t2 := GiveIfMissing(t1, subject, ReadFiles, Root(root));
    var t3 := GiveIfMissing(t2, subject, WriteFiles, Root(root));
    if executes then GiveIfMissing(t3, subject, ExecuteCommands, Root(root)) else t3
  }

  /** A first registration mints without looking: a second list-folders grant included. */
  function FirstGrants(t: Table, subject: Subject, root: Id, executes: bool): Table {
    var t1 := Give(t, subject, ListRoots, SubjectWide);
    var t2 := Give(t1, subject, ReadFiles, Root(root));
    var t3 := Give(t2, subject, WriteFiles, Root(root));
    if executes then Give(t3, subject, ExecuteCommands, Root(root)) else t3
  }

  /** The folder's default access, once: a position settled before is left as it is. */
  function DefaultGrants(b: Broker, subject: Subject, root: Id): Table {
    var t := Table(b.grants, b.next);
    if (subject, root) in b.settled || HoldsAnyOn(b.grants, subject, root) then t
    else EnsureGrants(t, subject, root, b.executes)
  }

  /** Bring a folder into a chat that does not have it yet. */
  function BringIn(b: Broker, subject: Subject, chat: Id, root: Id): Broker {
    if HasAttachment(b, chat, root) then b
    else
      var minted := DefaultGrants(b, subject, root);
      b.(grants := minted.grants, next := minted.next,
         settled := b.settled + {(subject, root)},
         attachments := b.attachments + {Attachment(chat, root)})
  }

  // ----- Attachment mutations -----

  /** An attach needs a live folder and carries its consent; a detach carries none. */
  predicate Refuses(b: Broker, req: Request) {
    || !SubjectFits(req.subject, req.chat)
    || (req.kind.Attach? && (req.root !in b.roots || !req.consent))
    || (req.kind.Detach? && req.consent)
  }

  function Perform(b: Broker, req: Request): (Broker, Outcome) {
    if Refuses(b, req) then (b, Refused)
    else if req.kind.Attach? then
      (BringIn(b, req.subject, req.chat, req.root), Applied(!HasAttachment(b, req.chat, req.root)))
    else
      var gone := Attachment(req.chat, req.root);
      (b.(attachments := b.attachments - {gone}), Applied(gone in b.attachments))
  }

  predicate Prunable(record: Record) {
    record.AttachmentRecord? || record.WriteRecord?
  }

  function Prune(receipts: map<Id, Record>, order: seq<Id>): (map<Id, Record>, seq<Id>)
    decreases |order|
  {
    if |order| <= MAX_RETAINED_MUTATION_RECEIPTS then (receipts, order)
    else Prune(receipts - {order[0]}, order[1..])
  }

  function After(op: Id, next: Id): Id {
    if next <= op then op + 1 else next
  }

  /** Keep the receipt of a mutation that just completed, and drop the oldest over the bound. */
  function Enrol(b: Broker, op: Id, record: Record): Broker {
    var kept := Prune(b.receipts[op := record], b.order + [op]);
    b.(receipts := kept.0, order := kept.1, next := After(op, b.next))
  }

  /** Receipts from before provenance was recorded match any attach. */
  predicate SameMutation(stored: Request, asked: Request) {
    stored == asked || (asked.kind.Attach? && !stored.consent && stored.(consent := true) == asked)
  }

  /** None is an identity conflict. */
  type Reply = Option<Outcome>

  /** Attach or detach, idempotent under `op` for as long as its receipt is kept. */
  function Mutate(b: Broker, op: Id, req: Request): (Broker, Reply) {
    if op in b.receipts then
      var record := b.receipts[op];
      (b, if record.AttachmentRecord? && SameMutation(record.request, req) then Some(record.outcome) else None)
    else
      var (performed, outcome) := Perform(b, req);
      (Enrol(performed, op, AttachmentRecord(req, outcome)), Some(outcome))
  }

  datatype Receipt = Unknown | Completed(changed: bool, attached: bool) | Failed(attached: bool)

  /** None: the identity belongs to a different operation, or the subject is not this chat's. */
  function Lookup(b: Broker, op: Id, req: Request): Option<Receipt> {
    if !SubjectFits(req.subject, req.chat) then None
    else if op !in b.receipts then Some(Unknown)
    else
      var record := b.receipts[op];
      if !record.AttachmentRecord? || record.request.(consent := false) != req.(consent := false) then None
      else
        var attached := HasAttachment(b, req.chat, req.root);
        Some(if record.outcome.Refused? then Failed(attached) else Completed(record.outcome.changed, attached))
  }

  // ----- Registration -----

  predicate IsAlias(b: Broker, root: Id, directory: nat) {
    root in b.roots && b.roots[root].directory == directory
  }

  function LeastAlias(b: Broker, directory: nat, owner: Option<Subject>, k: Id): (root: Option<Id>)
    ensures root.Some? ==> IsAlias(b, root.value, directory)
    ensures root.Some? && owner.Some? ==> b.roots[root.value].owner == owner.value
    ensures forall r | k <= r < b.next && IsAlias(b, r, directory) ::
      (owner.Some? && b.roots[r].owner != owner.value) || (root.Some? && root.value <= r)
    decreases b.next - k
  {
    if b.next <= k then None
    else if IsAlias(b, k, directory) && (owner.Some? ==> b.roots[k].owner == owner.value) then Some(k)
    else LeastAlias(b, directory, owner, k + 1)
  }

  /** The registration a directory already has: the picker's own first, then the least identity. */
  function PreferredAlias(b: Broker, directory: nat, owner: Subject): (root: Option<Id>)
    ensures root.Some? ==> IsAlias(b, root.value, directory)
    ensures forall r | 0 <= r < b.next && IsAlias(b, r, directory) ::
      && root.Some? && (b.roots[r].owner == owner ==> b.roots[root.value].owner == owner)
      && (b.roots[r].owner == b.roots[root.value].owner == owner || b.roots[root.value].owner != owner ==> root.value <= r)
  {
    var own := LeastAlias(b, directory, Some(owner), 0);
    if own.Some? then own else LeastAlias(b, directory, None, 0)
  }

  function Admit(b: Broker, subject: Subject, chat: Id, directory: nat): Broker {
    var root := b.next;
    var minted := FirstGrants(Table(b.grants, root + 1), subject, root, b.executes);
    b.(roots := b.roots[root := Registered(subject, directory)],
       grants := minted.grants, next := minted.next,
       settled := b.settled + {(subject, root)},
       attachments := b.attachments + {Attachment(chat, root)})
  }

  function Note(b: Broker, op: Id, record: Record): Broker {
    b.(receipts := b.receipts[op := record], next := After(op, b.next))
  }

  /** Registers `directory`, or brings the folder it already is into the chat. */
  function Register(b: Broker, op: Id, subject: Subject, chat: Id, directory: nat): (Broker, Option<Id>) {
    if op in b.receipts then
      var record := b.receipts[op];
      var same := record.RegisterRecord? && record.subject == subject && record.chat == chat
        && record.directory == directory;
      (b, if same then record.root else None)
    else if !SubjectFits(subject, chat) then
      (Note(b, op, RegisterRecord(subject, chat, directory, None)), None)
    else
      var known := PreferredAlias(b, directory, subject);
      var noted := Note(b, op, RegisterRecord(subject, chat, directory, known));
      if known.Some? then (BringIn(noted, subject, chat, known.value), known)
      else
        var root := noted.next;
        (Admit(Note(b, op, RegisterRecord(subject, chat, directory, Some(root))), subject, chat, directory),
         Some(root))
  }

  predicate IsConnected(b: Broker, subject: Subject, chat: Id, root: Id) {
    && root in b.roots && HasAttachment(b, chat, root)
    && Holds(b.grants, subject, ListRoots, SubjectWide)
    && Holds(b.grants, subject, ReadFiles, Root(root)) && Holds(b.grants, subject, WriteFiles, Root(root))
  }

  /** The folder a registration is durably recorded for, if it still stands. */
  function LookupRegistration(b: Broker, op: Id, subject: Subject, chat: Id): Option<Id> {
    if op !in b.receipts then None
    else
      var record := b.receipts[op];
      if record.RegisterRecord? && record.subject == subject && record.chat == chat
         && record.root.Some? && IsConnected(b, subject, chat, record.root.value)
      then record.root else None
  }

  // ----- Withdrawal -----

  predicate IsRegistered(b: Broker, root: Id) {
    root in b.roots || root in b.setAside
  }

  /** Whether another live registration names the same physical directory. */
  predicate HasAlias(b: Broker, root: Id)
    requires root in b.roots
  {
    exists r | r in b.roots :: r != root && b.roots[r].directory == b.roots[root].directory
  }

  /** Whether a revocation asked for by `subject` withdraws the folder. */
  predicate Withdraws(b: Broker, subject: Subject, root: Id) {
    || (root in b.setAside && b.setAside[root].owner == subject)
    || (root in b.roots && b.roots[root].owner == subject && !HasAlias(b, root))
  }

  function WithoutRoot(b: Broker, root: Id): Broker {
    b.(roots := b.roots - {root},
       setAside := b.setAside - {root},
       grants := (set g | g in b.grants && !TargetsRoot(g.scope, root)),
       attachments := (set a | a in b.attachments && a.root != root),
       settled := (set s | s in b.settled && s.1 != root))
  }

  /** None is an identity conflict. */
  function RevokeRoot(b: Broker, op: Id, subject: Subject, root: Id): (Broker, Option<bool>) {
    if op in b.receipts then
      var record := b.receipts[op];
      var same := record.RevokeRecord? && record.subject == subject && record.target == root;
      (b, if same then Some(record.revoked) else None)
    else
      var revoked := Withdraws(b, subject, root);
      (Note(if revoked then WithoutRoot(b, root) else b, op, RevokeRecord(subject, root, revoked)), Some(revoked))
  }

  /** Removing a folder's last read grant takes the subject's execute grants on it along. */
  function RevokeGrant(b: Broker, subject: Subject, id: Id): Broker {
    var gone := set g | g in b.grants && g.id == id && g.subject == subject;
    var rest := b.grants - gone;
    b.(grants := (set g | g in rest && !(
      && g.subject == subject && g.capability.ExecuteCommands? && g.scope.Root?
      && (exists x | x in gone :: x.capability.ReadFiles? && TargetsRoot(x.scope, g.scope.root))
      && !exists x | x in rest ::
           x.subject == subject && x.capability.ReadFiles? && TargetsRoot(x.scope, g.scope.root))))
  }

  /** Every standing grant, or None when there are more than the listing allows. */
  function ListGrantStatements(b: Broker): Option<set<Grant>> {
    if |b.grants| > MAX_LIST_GRANTS then None else Some(b.grants)
  }

  // ----- What else happens to a broker -----

  /** A file write completes: its receipt is kept and dropped like an attachment's. */
  function Write(b: Broker, op: Id): Broker {
    if op in b.receipts then b else Enrol(b, op, WriteRecord)
  }

  /** A consent dialog widens what a subject may do with a folder its chat has. */
  function Widen(b: Broker, subject: Subject, chat: Id, root: Id, capability: Capability): Broker {
    if root !in b.roots || !HasAttachment(b, chat, root) || !SubjectFits(subject, chat)
       || capability.ListRoots? || (capability.ExecuteCommands? && !b.executes)
    then b
    else
      var t := GiveIfMissing(Table(b.grants, b.next), subject, capability, Root(root));
      b.(grants := t.grants, next := t.next)
  }

  /** A folder's directory is out of reach when the broker is opened, or is back. */
  function GoDark(b: Broker, root: Id): Broker {
    if root !in b.roots then b
    else b.(roots := b.roots - {root}, setAside := b.setAside[root := b.roots[root]])
  }

  function ComeBack(b: Broker, root: Id): Broker {
    if root !in b.setAside then b
    else b.(roots := b.roots[root := b.setAside[root]], setAside := b.setAside - {root})
  }

  /** Whether a chat registered the folder and no other chat has it. */
  predicate Orphaned(b: Broker, registered: map<Id, Registered>, chat: Id, root: Id) {
    && root in registered && registered[root].owner == Conversation(chat)
    && forall a | a in b.attachments && a.root == root :: a.chat == chat
  }

  /** A chat was deleted: everything that was its own goes, but for the folders it registered that
      other chats still have. */
  function Purge(b: Broker, chat: Id): Broker {
    var live := set r | r in b.roots && Orphaned(b, b.roots, chat, r);
    var aside := set r | r in b.setAside && Orphaned(b, b.setAside, chat, r);
    b.(roots := b.roots - live,
       setAside := b.setAside - aside,
       grants := (set g | g in b.grants && g.subject != Conversation(chat)
                    && forall r | r in live + aside :: !TargetsRoot(g.scope, r)),
       attachments := (set a | a in b.attachments && a.chat != chat),
       settled := (set s | s in b.settled && s.0 != Conversation(chat) && s.1 !in live))
  }

  // ----- Every request -----

  datatype Command =
    | ToMutate(op: Id, req: Request)
    | ToWrite(op: Id)
    | ToRegister(op: Id, subject: Subject, chat: Id, directory: nat)
    | ToRevokeRoot(op: Id, subject: Subject, root: Id)
    | ToRevokeGrant(subject: Subject, grant: Id)
    | ToWiden(subject: Subject, chat: Id, root: Id, capability: Capability)
    | ToGoDark(root: Id)
    | ToComeBack(root: Id)
    | ToPurge(chat: Id)

  function Serve(b: Broker, c: Command): Broker {
    match c
    case ToMutate(op, req) => Mutate(b, op, req).0
    case ToWrite(op) => Write(b, op)
    case ToRegister(op, subject, chat, directory) => Register(b, op, subject, chat, directory).0
    case ToRevokeRoot(op, subject, root) => RevokeRoot(b, op, subject, root).0
    case ToRevokeGrant(subject, grant) => RevokeGrant(b, subject, grant)
    case ToWiden(subject, chat, root, capability) => Widen(b, subject, chat, root, capability)
    case ToGoDark(root) => GoDark(b, root)
    case ToComeBack(root) => ComeBack(b, root)
    case ToPurge(chat) => Purge(b, chat)
  }

  /** The mutations a request completes: one that takes effect, rather than being answered from a
      receipt. */
  function Completes(b: Broker, c: Command): seq<Id> {
    if (c.ToMutate? || c.ToWrite?) && c.op !in b.receipts then [c.op] else []
  }

  // ----- What always holds -----

  /** Every grant has its own identity, and the next one is free. */
  ghost predicate SoundTable(t: Table) {
    && (forall g | g in t.grants :: g.id < t.next)
    && (forall g, h | g in t.grants && h in t.grants && g.id == h.id :: g == h)
  }

  ghost predicate Sound(b: Broker) {
    && b.roots.Keys !! b.setAside.Keys
    && (forall r | r in b.roots || r in b.setAside :: r < b.next)
    && SoundTable(Table(b.grants, b.next))
    && (forall op | op in b.receipts :: op < b.next)
  }

  /** Grants were added, all of them for `subject`. */
  ghost predicate Minted(t: Table, t': Table, subject: Subject) {
    && SoundTable(t') && t.next <= t'.next && t.grants <= t'.grants
    && (forall g | g in t'.grants && g !in t.grants :: g.subject == subject)
  }

  lemma GiveMints(t: Table, subject: Subject, capability: Capability, scope: Scope)
    requires SoundTable(t)
    ensures Minted(t, Give(t, subject, capability, scope), subject)
  {}

  lemma GiveIfMissingMints(t: Table, subject: Subject, capability: Capability, scope: Scope)
    requires SoundTable(t)
    ensures Minted(t, GiveIfMissing(t, subject, capability, scope), subject)
  {
    GiveMints(t, subject, capability, scope);
  }

  lemma MintedTwice(t: Table, m: Table, t': Table, subject: Subject)
    requires Minted(t, m, subject) && Minted(m, t', subject)
    ensures Minted(t, t', subject)
  {}

  lemma EnsureMints(t: Table, subject: Subject, root: Id, executes: bool)
    requires SoundTable(t)
    ensures Minted(t, EnsureGrants(t, subject, root, executes), subject)
  {
    var t1 := GiveIfMissing(t, subject, ListRoots, SubjectWide);
    var t2 := GiveIfMissing(t1, subject, ReadFiles, Root(root));
    var t3 := GiveIfMissing(t2, subject, WriteFiles, Root(root));
    GiveIfMissingMints(t, subject, ListRoots, SubjectWide);
    GiveIfMissingMints(t1, subject, ReadFiles, Root(root));
    GiveIfMissingMints(t2, subject, WriteFiles, Root(root));
    GiveIfMissingMints(t3, subject, ExecuteCommands, Root(root));
    MintedTwice(t, t1, t2, subject);
    MintedTwice(t, t2, t3, subject);
    MintedTwice(t, t3, GiveIfMissing(t3, subject, ExecuteCommands, Root(root)), subject);
  }

  lemma FirstMints(t: Table, subject: Subject, root: Id, executes: bool)
    requires SoundTable(t)
    ensures Minted(t, FirstGrants(t, subject, root, executes), subject)
  {}

  /** Only grants for `subject`, attachments and settled positions may have been added. */
  ghost predicate OnlyMinted(b: Broker, b': Broker, subject: Subject) {
    && b'.roots == b.roots && b'.setAside == b.setAside && b'.receipts == b.receipts
    && b'.order == b.order
    && Minted(Table(b.grants, b.next), Table(b'.grants, b'.next), subject)
  }

  lemma DefaultMints(b: Broker, subject: Subject, root: Id)
    requires Sound(b)
    ensures Minted(Table(b.grants, b.next), DefaultGrants(b, subject, root), subject)
  {
    EnsureMints(Table(b.grants, b.next), subject, root, b.executes);
  }

  lemma BringInMints(b: Broker, subject: Subject, chat: Id, root: Id)
    requires Sound(b)
    ensures OnlyMinted(b, BringIn(b, subject, chat, root), subject)
  {
    DefaultMints(b, subject, root);
  }

  lemma AdmitMints(b: Broker, subject: Subject, chat: Id, directory: nat)
    requires Sound(b)
    ensures var b' := Admit(b, subject, chat, directory);
      && Sound(b') && b'.receipts == b.receipts && b'.order == b.order && b'.setAside == b.setAside
      && b'.roots == b.roots[b.next := Registered(subject, directory)]
      && Minted(Table(b.grants, b.next), Table(b'.grants, b'.next), subject)
  {
    FirstMints(Table(b.grants, b.next + 1), subject, b.next, b.executes);
  }

  /** What a mutation does to folders and grants: it can only add grants, for its own subject. */
  lemma PerformMints(b: Broker, req: Request)
    requires Sound(b)
    ensures var b' := Perform(b, req).0; Sound(b') && OnlyMinted(b, b', req.subject)
    ensures var (b', outcome) := Perform(b, req);
      outcome.Applied? ==>
        && (HasAttachment(b', req.chat, req.root) <==> req.kind.Attach?)
        && outcome.changed == (b'.attachments != b.attachments)
  {
    BringInMints(b, req.subject, req.chat, req.root);
  }

  lemma EnrolKeepsSound(b: Broker, op: Id, record: Record)
    requires Sound(b) && |b.order| <= MAX_RETAINED_MUTATION_RECEIPTS
    ensures Sound(Enrol(b, op, record))
  {
    PruneStep(b.receipts[op := record], b.order + [op]);
  }

  lemma PruneStep(receipts: map<Id, Record>, order: seq<Id>)
    requires |order| <= MAX_RETAINED_MUTATION_RECEIPTS + 1
    ensures Prune(receipts, order) ==
      if |order| <= MAX_RETAINED_MUTATION_RECEIPTS then (receipts, order)
      else (receipts - {order[0]}, order[1..])
  {}

  /** What a registration under a new identity does: its own receipt, grants for its subject only,
      and a folder of the subject's own exactly when the directory had none. */
  lemma RegisterIsExact(b: Broker, op: Id, subject: Subject, chat: Id, directory: nat)
    requires Sound(b) && op !in b.receipts
    ensures var (b', root) := Register(b, op, subject, chat, directory);
      var known := PreferredAlias(b, directory, subject);
      && Sound(b') && b.next <= b'.next && b'.setAside == b.setAside && b'.order == b.order
      && op in b'.receipts && b'.receipts == b.receipts[op := b'.receipts[op]]
      && b'.receipts[op] == RegisterRecord(subject, chat, directory, root)
      && b.grants <= b'.grants && (forall g | g in b'.grants && g !in b.grants :: g.subject == subject)
      && (root.Some? ==> if known.Some? then root == known else b.next <= root.value)
      && b'.roots == if root.Some? && known.None?
                     then b.roots[root.value := Registered(subject, directory)] else b.roots
  {
    if SubjectFits(subject, chat) {
      var known := PreferredAlias(b, directory, subject);
      var noted := Note(b, op, RegisterRecord(subject, chat, directory, known));
      if known.Some? {
        BringInMints(noted, subject, chat, known.value);
      } else {
        AdmitMints(Note(b, op, RegisterRecord(subject, chat, directory, Some(noted.next))), subject, chat, directory);
      }
    }
  }

  lemma ServeKeepsSound(b: Broker, c: Command)
    requires Sound(b) && |b.order| <= MAX_RETAINED_MUTATION_RECEIPTS
    ensures Sound(Serve(b, c))
  {
    match c {
      case ToMutate(op, req) =>
        PerformMints(b, req);
        EnrolKeepsSound(Perform(b, req).0, op, AttachmentRecord(req, Perform(b, req).1));
      case ToWrite(op) => EnrolKeepsSound(b, op, WriteRecord);
      case ToRegister(op, subject, chat, directory) =>
        if op !in b.receipts { RegisterIsExact(b, op, subject, chat, directory); }
      case ToRevokeRoot(op, subject, root) =>
      case ToRevokeGrant(subject, grant) =>
      case ToWiden(subject, chat, root, capability) =>
        GiveIfMissingMints(Table(b.grants, b.next), subject, capability, Root(root));
      case ToGoDark(root) =>
      case ToComeBack(root) =>
      case ToPurge(chat) =>
    }
  }

  // ----- Receipts: how often an operation takes effect -----

  /** The last completions, as many as are retained. */
  function Recent(completed: seq<Id>): seq<Id> {
    if |completed| <= MAX_RETAINED_MUTATION_RECEIPTS then completed
    else completed[|completed| - MAX_RETAINED_MUTATION_RECEIPTS..]
  }

  /** The receipts that can be dropped are those of the most recent completions. */
  ghost predicate Kept(b: Broker, completed: seq<Id>) {
    && b.order == Recent(completed)
    && Distinct(b.order)
    && (forall op :: op in b.order <==> op in b.receipts && Prunable(b.receipts[op]))
  }

  /** Two completions under one identity are further apart than receipts are retained. */
  ghost predicate Spread(completed: seq<Id>) {
    forall i, j :: 0 <= i < j < |completed| && completed[i] == completed[j] ==>
      j - i > MAX_RETAINED_MUTATION_RECEIPTS
  }

  lemma RecentNext(completed: seq<Id>, op: Id)
    ensures Recent(completed + [op]) ==
      if |Recent(completed)| < MAX_RETAINED_MUTATION_RECEIPTS then Recent(completed) + [op]
      else (Recent(completed) + [op])[1..]
  {}

  lemma SpreadNext(completed: seq<Id>, op: Id)
    requires Spread(completed) && op !in Recent(completed)
    ensures Spread(completed + [op])
  {}

  lemma DropFirst(order: seq<Id>, x: Id)
    requires Distinct(order) && order != []
    ensures x in order[1..] <==> x in order && x != order[0]
  {}

  lemma EnrolKeeps(b: Broker, completed: seq<Id>, op: Id, record: Record)
    requires Kept(b, completed) && op !in b.receipts && Prunable(record)
    ensures Kept(Enrol(b, op, record), completed + [op])
  {
    var order := b.order + [op];
    var receipts := b.receipts[op := record];
    RecentNext(completed, op);
    PruneStep(receipts, order);
    assert op !in b.order;
    assert Distinct(order);
    assert forall x :: x in order <==> x in receipts && Prunable(receipts[x]);
    var b' := Enrol(b, op, record);
    forall x ensures x in b'.order <==> x in b'.receipts && Prunable(b'.receipts[x]) {
      DropFirst(order, x);
    }
  }

  lemma NoteKeeps(b: Broker, b': Broker, completed: seq<Id>, op: Id, record: Record)
    requires Kept(b, completed) && op !in b.receipts && !Prunable(record)
    requires b'.order == b.order && b'.receipts == b.receipts[op := record]
    ensures Kept(b', completed)
  {}

  lemma ServeKeepsKept(b: Broker, completed: seq<Id>, c: Command)
    requires Sound(b) && Kept(b, completed) && Spread(completed)
    ensures Kept(Serve(b, c), completed + Completes(b, c))
    ensures Spread(completed + Completes(b, c))
  {
    assert completed + [] == completed;
    match c {
      case ToMutate(op, req) =>
        PerformMints(b, req);
        if op !in b.receipts {
          var (performed, outcome) := Perform(b, req);
          EnrolKeeps(performed, completed, op, AttachmentRecord(req, outcome));
          SpreadNext(completed, op);
        }
      case ToWrite(op) =>
        if op !in b.receipts {
          EnrolKeeps(b, completed, op, WriteRecord);
          SpreadNext(completed, op);
        }
      case ToRegister(op, subject, chat, directory) =>
        if op !in b.receipts {
          RegisterIsExact(b, op, subject, chat, directory);
          var b' := Register(b, op, subject, chat, directory).0;
          NoteKeeps(b, b', completed, op, b'.receipts[op]);
        }
      case _ =>
    }
  }

  /** A kept receipt answers for its operation without touching anything. A forgotten one lets it
      run again, and then it changes the attachments exactly when it is not refused and the chat
      does not already have what it asks for. */
  lemma ChangesExactlyWhen(b: Broker, completed: seq<Id>, op: Id, req: Request)
    requires Sound(b) && Kept(b, completed)
    requires op in b.receipts ==> Prunable(b.receipts[op])
    ensures op in Recent(completed) ==> Mutate(b, op, req).0 == b
    ensures Mutate(b, op, req).0.attachments != b.attachments <==>
      && op !in Recent(completed) && (req.subject.Project? || req.subject == Conversation(req.chat))
      && (if req.kind.Attach? then
            req.consent && req.root in b.roots && Attachment(req.chat, req.root) !in b.attachments
          else !req.consent && Attachment(req.chat, req.root) in b.attachments)
  {
    assert op in b.order <==> op in Recent(completed);
  }

  function ServeAll(b: Broker, cs: seq<Command>): Broker {
    if cs == [] then b else Serve(ServeAll(b, cs[..|cs| - 1]), cs[|cs| - 1])
  }

  function LogOf(b: Broker, completed: seq<Id>, cs: seq<Command>): seq<Id> {
    if cs == [] then completed
    else
      var before := cs[..|cs| - 1];
      LogOf(b, completed, before) + Completes(ServeAll(b, before), cs[|cs| - 1])
  }

  /** Over any run: an identity completes again only after its receipt was dropped, so never twice
      within as many completions as receipts are retained. */
  lemma {:induction false} CompletionsAreSpread(b: Broker, completed: seq<Id>, cs: seq<Command>)
    requires Sound(b) && Kept(b, completed) && Spread(completed)
    ensures var (b', completed') := (ServeAll(b, cs), LogOf(b, completed, cs));
            Sound(b') && Kept(b', completed') && Spread(completed')
  {
    if cs != [] {
      var before := cs[..|cs| - 1];
      CompletionsAreSpread(b, completed, before);
      ServeKeepsSound(ServeAll(b, before), cs[|cs| - 1]);
      ServeKeepsKept(ServeAll(b, before), LogOf(b, completed, before), cs[|cs| - 1]);
    }
  }

  // ----- What a revocation withdraws -----

  ghost predicate IsOn(scope: Scope, root: Id) {
    scope == Root(root) || (scope.PathSubtree? && scope.root == root)
  }

  /** A revocation withdraws the folder, every grant on it, every attachment and what was settled
      about it, or nothing. Which of the two depends on who registered it and under which
      registrations, not on who holds grants. */
  lemma RevocationIsExact(b: Broker, op: Id, subject: Subject, root: Id)
    requires Sound(b) && op !in b.receipts
    ensures var (b', revoked) := RevokeRoot(b, op, subject, root);
      var withdraws :=
        || (root in b.setAside && b.setAside[root].owner == subject)
        || (root in b.roots && b.roots[root].owner == subject
            && forall r | r in b.roots && r != root :: b.roots[r].directory != b.roots[root].directory);
      && revoked == Some(withdraws)
      && (IsRegistered(b, root) && !IsRegistered(b', root) <==> withdraws)
      && (forall r | r != root :: IsRegistered(b', r) <==> IsRegistered(b, r))
      && (forall g :: g in b'.grants <==> g in b.grants && (withdraws ==> !IsOn(g.scope, root)))
      && (forall a :: a in b'.attachments <==> a in b.attachments && (withdraws ==> a.root != root))
      && (forall s :: s in b'.settled <==> s in b.settled && (withdraws ==> s.1 != root))
  {}

  /** Purging a chat leaves it nothing. From others it takes only grants on folders the chat had
      registered and nobody else has, and it unregisters exactly those. */
  lemma PurgeIsExact(b: Broker, chat: Id)
    requires Sound(b)
    ensures var b' := Purge(b, chat);
      && (forall g | g in b'.grants :: g.subject != Conversation(chat))
      && (forall a :: a in b'.attachments <==> a in b.attachments && a.chat != chat)
      && (forall r | IsRegistered(b, r) ::
            !IsRegistered(b', r) <==>
              && (if r in b.roots then b.roots[r] else b.setAside[r]).owner == Conversation(chat)
              && forall a | a in b.attachments && a.root == r :: a.chat == chat)
      && (forall r | IsRegistered(b', r) :: IsRegistered(b, r))
      && (forall g | g in b.grants && g.subject != Conversation(chat) ::
            g in b'.grants <==> forall r | IsOn(g.scope, r) :: IsRegistered(b, r) ==> IsRegistered(b', r))
      && (forall s | s in b'.settled :: s in b.settled && s.0 != Conversation(chat))
      && (forall s | s in b.settled && s.0 != Conversation(chat) && IsRegistered(b', s.1) :: s in b'.settled)
  {}

  ghost predicate HasDefaults(grants: set<Grant>, subject: Subject, root: Id) {
    && Holds(grants, subject, ListRoots, SubjectWide)
    && Holds(grants, subject, ReadFiles, Root(root)) && Holds(grants, subject, WriteFiles, Root(root))
  }

  lemma EnsuredIsHeld(t: Table, subject: Subject, root: Id, executes: bool)
    ensures HasDefaults(EnsureGrants(t, subject, root, executes).grants, subject, root)
  {}

  lemma BroughtInIsHeld(b: Broker, subject: Subject, chat: Id, root: Id)
    requires Sound(b) && root in b.roots
    ensures var b' := BringIn(b, subject, chat, root);
      && HasAttachment(b', chat, root)
      && (HasDefaults(b'.grants, subject, root) || b'.grants == b.grants)
  {
    EnsuredIsHeld(Table(b.grants, b.next), subject, root, b.executes);
  }

  lemma AdmittedIsHeld(b: Broker, subject: Subject, chat: Id, directory: nat)
    requires Sound(b)
    ensures IsConnected(Admit(b, subject, chat, directory), subject, chat, b.next)
  {}

  lemma RegisteredIsHeld(b: Broker, op: Id, subject: Subject, chat: Id, directory: nat)
    requires Sound(b) && op !in b.receipts && SubjectFits(subject, chat)
    ensures var (b', root) := Register(b, op, subject, chat, directory);
      && root.Some? && root.value in b'.roots && HasAttachment(b', chat, root.value)
      && (HasDefaults(b'.grants, subject, root.value) || (b'.grants == b.grants && b'.roots == b.roots))
  {
    var known := PreferredAlias(b, directory, subject);
    if known.Some? {
      var noted := Note(b, op, RegisterRecord(subject, chat, directory, known));
      BroughtInIsHeld(noted, subject, chat, known.value);
    } else {
      var noted := Note(b, op, RegisterRecord(subject, chat, directory, Some(After(op, b.next))));
      AdmittedIsHeld(noted, subject, chat, directory);
    }
  }

  /** When a registration does not read back as connected, nothing was granted, as the command then
      says; but the chat is left attached at the broker. */
  lemma NothingWasGranted(b: Broker, op: Id, subject: Subject, chat: Id, directory: nat)
    requires Sound(b) && op !in b.receipts
    ensures var (b', root) := Register(b, op, subject, chat, directory);
      root.Some? && LookupRegistration(b', op, subject, chat).None? ==>
        b'.grants == b.grants && b'.roots == b.roots && HasAttachment(b', chat, root.value)
  {
    if SubjectFits(subject, chat) {
      RegisterIsExact(b, op, subject, chat, directory);
      RegisteredIsHeld(b, op, subject, chat, directory);
    }
  }
}
