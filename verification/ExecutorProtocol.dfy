/**
 The rules of the headless folder executor, as a machine over durable state.

 One process runs per executor identity. Everything it must not lose is in `World`: the server's
 row for each call, the chats that were deleted, the documents the server ingested, and the receipts
 on disk. Three logs record
 what can never be taken back: every host operation the broker ran, every outcome saved in a
 receipt, every resolve request sent. A crash keeps all of that and forgets only `volatile`.

 `Enabled` says when the executor may take a step; `Apply` says what the step does. The imperative
 executor in `FolderExecution` is proved to take only these steps, so what is proved here about
 every legal history holds of every run of it, however often it crashes.
 */
module ExecutorProtocol {
  import opened Prelude

  type CallId = nat
  type ChatId = nat
  type Lease = nat
  type ExecutorId = nat
  type Uri = nat

  datatype Tool =
    | RequestFolderAccess
    | ListConnectedFolders
    | ListFolder
    | ReadConnectedFile
    | ImportConnectedFile
    | WriteOutput
    | ForeignTool

  datatype Recovery = Terminalize | Retry

  datatype Outcome = Completed(result: string) | Failed(code: string)

  datatype Claim = Claim(owner: ExecutorId, lease: Lease)

  datatype Status = Pending | Resolved(outcome: Outcome)

  /** The server's row for one client call. `canonical` and `parses` are the argument validators. */
  datatype Call = Call(
    chat: ChatId, tool: Tool, canonical: bool, parses: bool, uri: Uri,
    claim: Option<Claim>, status: Status)

  datatype Receipt = Receipt(
    chat: ChatId, call: CallId, executor: ExecutorId, lease: Lease, recovery: Recovery,
    dispatchStarted: bool, outcome: Option<Outcome>)

  datatype Document = Document(chat: ChatId, uri: Uri)

  datatype Verdict = Verdict(call: CallId, outcome: Outcome)

  /** How far the running process is past the fence of one call, and what the broker answered. A
      crash resets it. */
  datatype Volatile =
    | Quiet
    | Fenced(call: CallId)
    | Dispatched(call: CallId, reply: Outcome)
    | Ingested(call: CallId, reply: Outcome)

  datatype World = World(
    me: ExecutorId,
    calls: map<CallId, Call>,
    gone: set<ChatId>,
    documents: seq<Document>,
    receipts: map<CallId, Receipt>,
    hostOps: seq<CallId>,
    answers: seq<Verdict>,
    ingested: seq<CallId>,
    saved: seq<Verdict>,
    sent: seq<Verdict>,
    volatile: Volatile)

  predicate Handles(tool: Tool) {
    !tool.ForeignTool?
  }

  function RecoveryPolicy(tool: Tool): Recovery {
    match tool
    case ImportConnectedFile => Retry
    case WriteOutput => Retry
    case RequestFolderAccess => Retry
    case _ => Terminalize
  }

  /** Whether running the call reaches the host broker at all. */
  predicate ReachesHost(tool: Tool) {
    !tool.RequestFolderAccess? && !tool.WriteOutput?
  }

  /** Running the call tells the model something a second time if it is run a second time. */
  predicate IsRead(tool: Tool) {
    tool.ListConnectedFolders? || tool.ListFolder? || tool.ReadConnectedFile?
  }

  /** What an answer of the broker comes to: a result, or why there is none to show. */
  predicate BrokerSays(o: Outcome) {
    o.Completed? || o.code in {"folder_unavailable", "unsupported_result", "result_too_large"}
  }

  const INTERRUPTED: Outcome := Failed("folder_operation_interrupted")
  const DECLINED: Outcome := Completed("declined")

  /** The source an import of this call publishes. */
  function SourceOf(call: Call): Document {
    Document(call.chat, call.uri)
  }

  predicate Mine(w: World, c: CallId) {
    c in w.calls && w.calls[c].claim.Some? && w.calls[c].claim.value.owner == w.me
  }

  /** The call's chat was deleted: every route answers that there is no such chat. */
  predicate Gone(w: World, c: CallId) {
    c in w.calls && w.calls[c].chat in w.gone
  }

  predicate ClaimedAs(w: World, c: CallId, lease: Lease) {
    c in w.calls && w.calls[c].claim == Some(Claim(w.me, lease))
  }

  // ----- The server, as far as its claim, resolve and ingest routes are relied on -----

  /** An unclaimed pending call goes to the first claimant; the exact pair may claim again. */
  predicate Claimable(call: Call, owner: ExecutorId, lease: Lease) {
    call.status.Pending? && (call.claim.None? || call.claim == Some(Claim(owner, lease)))
  }

  function ServeClaim(call: Call, owner: ExecutorId, lease: Lease): Call {
    if Claimable(call, owner, lease) then call.(claim := Some(Claim(owner, lease))) else call
  }

  /** The first result under the holder's lease is final; the same one again is accepted. */
  predicate Resolvable(call: Call, lease: Lease, outcome: Outcome) {
    && call.claim.Some? && call.claim.value.lease == lease
    && (call.status.Pending? || call.status == Resolved(outcome))
  }

  function ServeResolve(call: Call, lease: Lease, outcome: Outcome): (r: Call)
    ensures r != call ==>
      && call.status.Pending? && call.claim.Some? && call.claim.value.lease == lease
      && r.status == Resolved(outcome)
  {
    if Resolvable(call, lease, outcome) then call.(status := Resolved(outcome)) else call
  }

  /** The document's identity is derived from its chat and uri, so a repeat finds the first one. */
  function ServeIngest(documents: seq<Document>, document: Document): seq<Document> {
    if document in documents then documents else documents + [document]
  }

  // ----- Steps -----

  datatype Action =
    // The executor.
    | Announce(call: CallId, lease: Lease)
    | TakeClaim(call: CallId)
    | Fence(call: CallId)
    | HostOp(call: CallId, reply: Outcome)
    | Ingest(call: CallId)
    | Record(call: CallId, outcome: Outcome)
    | Submit(call: CallId, landed: bool)
    | Forget(call: CallId)
    | Crash
    // Everyone else.
    | Park(call: CallId, row: Call)
    | OtherClaims(call: CallId, owner: ExecutorId, lease: Lease)
    | OtherResolves(call: CallId, outcome: Outcome)
    | DeleteChat(chat: ChatId)

  predicate FromOutside(a: Action) {
    a.Park? || a.OtherClaims? || a.OtherResolves? || a.DeleteChat?
  }

  predicate PastFence(w: World, c: CallId) {
    !w.volatile.Quiet? && w.volatile.call == c
  }

  /** What may be said of a running call. A folder request is completed with nothing but the
      broker's answer, and an import only once its source is published; an access request is
      declined, and a write-back fails. */
  predicate MayAnswer(w: World, tool: Tool, o: Outcome) {
    if o.Failed? then o != INTERRUPTED
    else
      match tool
      case RequestFolderAccess => o == DECLINED
      case ImportConnectedFile => w.volatile.Ingested? && w.volatile.reply == o
      case WriteOutput => false
      case _ => w.volatile.Dispatched? && w.volatile.reply == o
  }

  predicate Enabled(a: Action, w: World) {
    match a
    case Announce(c, _) =>
      c in w.calls && c !in w.receipts && Handles(w.calls[c].tool) && !Mine(w, c)
    case TakeClaim(c) => c in w.receipts && c in w.calls
    case Fence(c) =>
      && c in w.receipts && w.receipts[c].outcome.None? && ClaimedAs(w, c, w.receipts[c].lease)
      && !(w.receipts[c].dispatchStarted && w.receipts[c].recovery.Terminalize?)
    case HostOp(c, reply) =>
      c in w.calls && w.volatile == Fenced(c) && ReachesHost(w.calls[c].tool) && BrokerSays(reply)
    case Ingest(c) =>
      && c in w.calls && w.calls[c].tool.ImportConnectedFile? && !Gone(w, c)
      && w.volatile.Dispatched? && w.volatile.call == c && w.volatile.reply.Completed?
    case Record(c, o) =>
      && c in w.receipts && w.receipts[c].outcome.None? && ClaimedAs(w, c, w.receipts[c].lease)
      && (|| (PastFence(w, c) && MayAnswer(w, w.calls[c].tool, o))
          || (w.receipts[c].dispatchStarted && w.receipts[c].recovery.Terminalize? && o == INTERRUPTED))
    case Submit(c, _) => c in w.receipts && c in w.calls && w.receipts[c].outcome.Some?
    case Forget(c) =>
      && c in w.receipts && c in w.calls
      && (w.calls[c].status.Resolved? || (w.calls[c].claim.Some? && !Mine(w, c)))
    case Crash => true
    case Park(c, row) => c !in w.calls && row.chat !in w.gone && row.claim.None? && row.status.Pending?
    case OtherClaims(c, owner, lease) =>
      c in w.calls && owner != w.me && Claimable(w.calls[c], owner, lease)
    case OtherResolves(c, o) => c in w.calls && w.calls[c].status.Pending?
    // A chat with work that can still make progress is not deleted.
    case DeleteChat(chat) => forall c | c in w.calls && w.calls[c].chat == chat :: w.calls[c].status.Resolved?
  }

  function Apply(a: Action, w: World): World
    requires Enabled(a, w)
  {
    match a
    case Announce(c, lease) =>
      var row := w.calls[c];
      w.(receipts := w.receipts[
        c := Receipt(row.chat, c, w.me, lease, RecoveryPolicy(row.tool), false, None)])
    case TakeClaim(c) =>
      w.(calls := w.calls[c := ServeClaim(w.calls[c], w.me, w.receipts[c].lease)])
    case Fence(c) =>
      w.(receipts := w.receipts[c := w.receipts[c].(dispatchStarted := true)], volatile := Fenced(c))
    case HostOp(c, reply) =>
      w.(hostOps := w.hostOps + [c], answers := w.answers + [Verdict(c, reply)],
         volatile := Dispatched(c, reply))
    case Ingest(c) =>
      w.(documents := ServeIngest(w.documents, SourceOf(w.calls[c])), ingested := w.ingested + [c],
         volatile := Ingested(c, w.volatile.reply))
    case Record(c, o) =>
      w.(receipts := w.receipts[c := w.receipts[c].(outcome := Some(o))],
         saved := w.saved + [Verdict(c, o)], volatile := Quiet)
    case Submit(c, landed) =>
      var o := w.receipts[c].outcome.value;
      w.(sent := w.sent + [Verdict(c, o)],
         calls := if landed then w.calls[c := ServeResolve(w.calls[c], w.receipts[c].lease, o)]
                  else w.calls)
    case Forget(c) => w.(receipts := w.receipts - {c}, volatile := Quiet)
    case Crash => w.(volatile := Quiet)
    case Park(c, row) => w.(calls := w.calls[c := row])
    case OtherClaims(c, owner, lease) =>
      w.(calls := w.calls[c := ServeClaim(w.calls[c], owner, lease)])
    case OtherResolves(c, o) => w.(calls := w.calls[c := w.calls[c].(status := Resolved(o))])
    case DeleteChat(chat) => w.(gone := w.gone + {chat})
  }

  // ----- Histories -----

  /** Every step was allowed when it was taken. */
  ghost predicate Legal(w: World, history: seq<Action>)
    decreases |history|, 0
  {
    history == [] ||
    (Legal(w, history[..|history| - 1]) &&
     Enabled(history[|history| - 1], Replay(w, history[..|history| - 1])))
  }

  ghost function Replay(w: World, history: seq<Action>): World
    requires Legal(w, history)
    decreases |history|, 1
  {
    if history == [] then w
    else Apply(history[|history| - 1], Replay(w, history[..|history| - 1]))
  }

  lemma Extend(w: World, history: seq<Action>, a: Action)
    requires Legal(w, history) && Enabled(a, Replay(w, history))
    ensures Legal(w, history + [a])
    ensures Replay(w, history + [a]) == Apply(a, Replay(w, history))
  {}

  /** A new profile: no receipt, no log entry, and an identity the server has never seen. */
  ghost predicate Init(w: World) {
    && w.receipts == map[] && w.hostOps == [] && w.answers == [] && w.ingested == [] && w.saved == [] && w.sent == []
    && w.volatile.Quiet? && Distinct(w.documents) && GoneAreResolved(w)
    && forall c | c in w.calls :: !Mine(w, c)
  }

  // ----- The inductive invariant -----

  ghost predicate ReceiptMatches(w: World, c: CallId)
    requires c in w.receipts
  {
    var r := w.receipts[c];
    && c in w.calls && r.call == c && r.executor == w.me && r.chat == w.calls[c].chat
    && Handles(w.calls[c].tool) && r.recovery == RecoveryPolicy(w.calls[c].tool)
    && (r.dispatchStarted || r.outcome.Some? ==> ClaimedAs(w, c, r.lease))
    && (r.outcome.Some? ==> Verdict(c, r.outcome.value) in w.saved)
  }

  ghost predicate ReceiptsMatch(w: World) {
    forall c | c in w.receipts :: ReceiptMatches(w, c)
  }

  /** A pending call this executor owns can be operated: its receipt holds the server's lease. */
  ghost predicate NotStranded(w: World, c: CallId) {
    Mine(w, c) && w.calls[c].status.Pending? ==>
      c in w.receipts && w.receipts[c].lease == w.calls[c].claim.value.lease
  }

  ghost predicate NoneStranded(w: World) {
    forall c | c in w.calls :: NotStranded(w, c)
  }

  ghost predicate HostOpsAccounted(w: World) {
    && (forall c | c in w.hostOps ::
          && Mine(w, c) && (c in w.receipts ==> w.receipts[c].dispatchStarted)
          && (IsRead(w.calls[c].tool) || w.calls[c].tool.ImportConnectedFile?))
    && (forall c | c in w.calls && IsRead(w.calls[c].tool) :: multiset(w.hostOps)[c] <= 1)
  }

  ghost predicate VolatileMatches(w: World) {
    match w.volatile
    case Quiet => true
    case Fenced(c) =>
      && c in w.receipts && w.receipts[c].dispatchStarted
      && (w.receipts[c].recovery.Terminalize? ==> c !in w.hostOps)
    case Dispatched(c, reply) => c in w.receipts && Verdict(c, reply) in w.answers
    case Ingested(c, reply) =>
      c in w.receipts && Verdict(c, reply) in w.answers && c in w.ingested
  }

  /** The broker answered only what it was asked, and only an import it completed published
      anything: the one source of its call. */
  ghost predicate AnswersAccounted(w: World) {
    && (forall v | v in w.answers :: v.call in w.hostOps)
    && (forall c | c in w.ingested ::
          && c in w.hostOps && c in w.calls && w.calls[c].tool.ImportConnectedFile?
          && SourceOf(w.calls[c]) in w.documents
          && exists v | v in w.answers :: v.call == c && v.outcome.Completed?)
  }

  /** Where a completed result comes from, and which calls are closed out as interrupted. */
  ghost predicate Backed(w: World, v: Verdict) {
    v.call in w.calls ==>
      if v.outcome.Failed? then v.outcome == INTERRUPTED ==> IsRead(w.calls[v.call].tool)
      else
        match w.calls[v.call].tool
        case RequestFolderAccess => v.outcome == DECLINED
        case WriteOutput => false
        case ImportConnectedFile => v in w.answers && v.call in w.ingested
        case _ => v in w.answers
  }

  ghost predicate SavedOnce(w: World) {
    && (forall i, j | 0 <= i < j < |w.saved| :: w.saved[i].call != w.saved[j].call)
    && (forall v | v in w.saved ::
          Mine(w, v.call) && (v.call in w.receipts ==> w.receipts[v.call].outcome == Some(v.outcome)))
  }

  /** Only chats whose calls all have their result are ever deleted. */
  ghost predicate GoneAreResolved(w: World) {
    forall c | Gone(w, c) :: w.calls[c].status.Resolved?
  }

  ghost predicate Inv(w: World) {
    && ReceiptsMatch(w) && NoneStranded(w) && HostOpsAccounted(w) && VolatileMatches(w)
    && SavedOnce(w) && (forall v | v in w.sent :: v in w.saved) && Distinct(w.documents)
    && AnswersAccounted(w) && (forall v | v in w.saved :: Backed(w, v)) && GoneAreResolved(w)
  }

  /** A row keeps its identity, and neither its claim nor its result is ever undone. */
  predicate Grows(was: Call, now: Call) {
    && now.(claim := was.claim, status := was.status) == was
    && (was.claim.Some? ==> now.claim == was.claim)
    && (was.status.Resolved? ==> now.status == was.status)
  }

  lemma CallsOnlyGrow(a: Action, w: World)
    requires Enabled(a, w)
    ensures forall c | c in w.calls :: c in Apply(a, w).calls && Grows(w.calls[c], Apply(a, w).calls[c])
  {}

  /** The six tools this executor answers for. */
  lemma SixToolsAreHandled(tool: Tool)
    ensures Handles(tool) <==>
      || tool == RequestFolderAccess || tool == ListConnectedFolders || tool == ListFolder
      || tool == ReadConnectedFile || tool == ImportConnectedFile || tool == WriteOutput
  {}

  /** A result is the executor's doing only by a request under the lease its receipt and the claim
      agree on, and then it is the outcome the receipt saved. */
  lemma ResultsAreSaved(a: Action, w: World, c: CallId)
    requires Inv(w) && Enabled(a, w) && !FromOutside(a)
    requires c in w.calls && w.calls[c].status.Pending? && Apply(a, w).calls[c].status.Resolved?
    ensures a == Submit(c, true) && Mine(w, c)
    ensures w.calls[c].claim.value.lease == w.receipts[c].lease
    ensures Verdict(c, Apply(a, w).calls[c].status.outcome) in w.saved
  {
    assert ReceiptMatches(w, c);
  }

  lemma StepKeepsReceipts(a: Action, w: World)
    requires Inv(w) && Enabled(a, w)
    ensures ReceiptsMatch(Apply(a, w))
  {
    var w' := Apply(a, w);
    CallsOnlyGrow(a, w);
    forall c | c in w'.receipts ensures ReceiptMatches(w', c) {
      if c in w.receipts { assert ReceiptMatches(w, c); }
    }
  }

  lemma StepKeepsClaims(a: Action, w: World)
    requires Inv(w) && Enabled(a, w)
    ensures NoneStranded(Apply(a, w))
  {}

  lemma StepKeepsVolatile(a: Action, w: World)
    requires Inv(w) && Enabled(a, w)
    ensures VolatileMatches(Apply(a, w))
  {
    if a.Fence? { assert ReceiptMatches(w, a.call); }
  }

  lemma StepKeepsHostOps(a: Action, w: World)
    requires Inv(w) && Enabled(a, w)
    ensures HostOpsAccounted(Apply(a, w))
  {
    var w' := Apply(a, w);
    CallsOnlyGrow(a, w);
    if a.HostOp? {
      assert ReceiptMatches(w, a.call);
      assert multiset(w'.hostOps) == multiset(w.hostOps) + multiset{a.call};
    }
    if a.Park? { assert a.call !in w.hostOps; }
  }

  lemma StepKeepsVerdicts(a: Action, w: World)
    requires Inv(w) && Enabled(a, w)
    ensures SavedOnce(Apply(a, w)) && (forall v | v in Apply(a, w).sent :: v in Apply(a, w).saved)
  {
    CallsOnlyGrow(a, w);
    if a.Submit? { assert ReceiptMatches(w, a.call); }
  }

  lemma StepKeepsAnswers(a: Action, w: World)
    requires Inv(w) && Enabled(a, w)
    ensures AnswersAccounted(Apply(a, w))
  {
    CallsOnlyGrow(a, w);
  }

  lemma StepKeepsBacked(a: Action, w: World)
    requires Inv(w) && Enabled(a, w)
    ensures forall v | v in Apply(a, w).saved :: Backed(Apply(a, w), v)
  {
    CallsOnlyGrow(a, w);
    if a.Record? { assert ReceiptMatches(w, a.call); }
  }

  lemma StepKeepsGone(a: Action, w: World)
    requires Inv(w) && Enabled(a, w)
    ensures GoneAreResolved(Apply(a, w)) && w.gone <= Apply(a, w).gone
  {}

  lemma StepKeepsInv(a: Action, w: World)
    requires Inv(w) && Enabled(a, w)
    ensures Inv(Apply(a, w))
  {
    StepKeepsReceipts(a, w);
    StepKeepsClaims(a, w);
    StepKeepsHostOps(a, w);
    StepKeepsVolatile(a, w);
    StepKeepsVerdicts(a, w);
    StepKeepsAnswers(a, w);
    StepKeepsBacked(a, w);
    StepKeepsGone(a, w);
  }

  lemma {:induction false} HistoryKeepsInv(start: World, history: seq<Action>)
    requires Init(start) && Legal(start, history)
    ensures Inv(Replay(start, history))
    decreases |history|
  {
    if history != [] {
      var before := history[..|history| - 1];
      HistoryKeepsInv(start, before);
      StepKeepsInv(history[|history| - 1], Replay(start, before));
    }
  }

  /** A run has a beginning, and what was saved then stays saved, in order. */
  lemma {:induction false} SavedOnlyGrows(start: World, history: seq<Action>, more: seq<Action>)
    requires Legal(start, history + more)
    ensures Legal(start, history) && Replay(start, history).saved <= Replay(start, history + more).saved
    decreases |more|
  {
    if more == [] {
      assert history + more == history;
    } else {
      var shorter := more[..|more| - 1];
      assert (history + more)[..|history + more| - 1] == history + shorter;
      SavedOnlyGrows(start, history, shorter);
    }
  }

  // ----- What every run promises -----

  /** A listing or a read reaches the host at most once, whatever crashes. Besides them only imports
      reach it, and nothing does except under this executor's own claim. */
  lemma AtMostOneHostOperation(start: World, history: seq<Action>, c: CallId)
    requires Init(start) && Legal(start, history)
    ensures var w := Replay(start, history);
      && (c in w.calls ==>
            match w.calls[c].tool
            case ListConnectedFolders => multiset(w.hostOps)[c] <= 1
            case ListFolder => multiset(w.hostOps)[c] <= 1
            case ReadConnectedFile => multiset(w.hostOps)[c] <= 1
            case ImportConnectedFile => true
            case _ => c !in w.hostOps)
      && (c in w.hostOps ==> Mine(w, c))
  {
    HistoryKeepsInv(start, history);
  }

  /** Only an interrupted listing or read is closed out as one. Whatever else was interrupted is run
      again. */
  lemma OnlyReadsAreClosedOut(start: World, history: seq<Action>, v: Verdict)
    requires Init(start) && Legal(start, history)
    requires v in Replay(start, history).saved && v.outcome == Failed("folder_operation_interrupted")
    ensures var w := Replay(start, history);
      && v.call in w.calls
      && (w.calls[v.call].tool.ListConnectedFolders? || w.calls[v.call].tool.ListFolder?
          || w.calls[v.call].tool.ReadConnectedFile?)
  {
    HistoryKeepsInv(start, history);
    assert Backed(Replay(start, history), v);
  }

  /** A crash behind the fence leaves an import, a write-back and an access request to be run again,
      and a listing or read to be closed out. */
  lemma AfterACrash(start: World, history: seq<Action>, c: CallId)
    requires Init(start) && Legal(start, history)
    ensures var w := Replay(start, history);
      (c in w.receipts && w.receipts[c].dispatchStarted && w.receipts[c].outcome.None?) ==>
        && c in w.calls
        && (Enabled(Fence(c), Apply(Crash, w)) <==>
              w.calls[c].tool.ImportConnectedFile? || w.calls[c].tool.WriteOutput?
              || w.calls[c].tool.RequestFolderAccess?)
        && (Enabled(Record(c, Failed("folder_operation_interrupted")), Apply(Crash, w)) <==>
              w.calls[c].tool.ListConnectedFolders? || w.calls[c].tool.ListFolder?
              || w.calls[c].tool.ReadConnectedFile?)
  {
    HistoryKeepsInv(start, history);
    var w := Replay(start, history);
    if c in w.receipts {
      assert ReceiptMatches(w, c);
    }
  }

  /** `d` is the source of an import call of this executor's that was published. */
  ghost predicate Imported(w: World, d: Document) {
    exists c :: Mine(w, c) && c in w.ingested && w.calls[c].tool.ImportConnectedFile?
                && d == Document(w.calls[c].chat, w.calls[c].uri)
  }

  lemma ImportsConvergeNext(start: World, w: World, a: Action)
    requires Inv(w) && Enabled(a, w) && start.documents <= w.documents
    requires forall d | d in w.documents && d !in start.documents :: Imported(w, d)
    ensures start.documents <= Apply(a, w).documents
    ensures forall d | d in Apply(a, w).documents && d !in start.documents :: Imported(Apply(a, w), d)
  {
    var w' := Apply(a, w);
    CallsOnlyGrow(a, w);
    forall d | d in w'.documents && d !in start.documents ensures Imported(w', d) {
      if d in w.documents {
        var c :| Mine(w, c) && c in w.ingested && d == Document(w.calls[c].chat, w.calls[c].uri);
        assert Mine(w', c) && c in w'.ingested;
      } else {
        assert ReceiptMatches(w, a.call);
        assert a.call in w'.ingested && Mine(w', a.call);
      }
    }
  }

  /** Whatever a run adds to the documents is the source of an import call this executor had
      claimed and the broker had completed, and however often such a call ran, it added at most
      that one. */
  lemma {:induction false} ImportsConverge(start: World, history: seq<Action>)
    requires Init(start) && Legal(start, history)
    ensures var w := Replay(start, history);
      && Distinct(w.documents) && start.documents <= w.documents
      && forall d | d in w.documents && d !in start.documents :: Imported(w, d)
    decreases |history|
  {
    HistoryKeepsInv(start, history);
    if history != [] {
      var before := history[..|history| - 1];
      ImportsConverge(start, before);
      HistoryKeepsInv(start, before);
      ImportsConvergeNext(start, Replay(start, before), history[|history| - 1]);
    }
  }

  /** Every completed result ever sent for a folder request is the broker's own answer to a host
      operation of that call; a completed import has its source among the documents. An access
      request is only ever declined, and a write-back never completes. */
  lemma OnlyTheBrokerCompletes(start: World, history: seq<Action>, v: Verdict)
    requires Init(start) && Legal(start, history)
    requires v in Replay(start, history).sent && v.outcome.Completed?
    ensures var w := Replay(start, history);
      && v.call in w.calls
      && match w.calls[v.call].tool
         case RequestFolderAccess => v.outcome == Completed("declined")
         case WriteOutput => false
         case ImportConnectedFile =>
           v in w.answers && v.call in w.hostOps
           && Document(w.calls[v.call].chat, w.calls[v.call].uri) in w.documents
         case _ => v in w.answers && v.call in w.hostOps
  {
    HistoryKeepsInv(start, history);
    assert Backed(Replay(start, history), v);
  }

  /** No crash leaves a call claimed by this executor that its receipts cannot finish. */
  lemma NothingIsStranded(start: World, history: seq<Action>, c: CallId)
    requires Init(start) && Legal(start, history)
    ensures var w := Replay(start, history);
      Mine(w, c) && w.calls[c].status.Pending? ==>
        c in w.receipts && w.receipts[c].executor == w.me &&
        Some(Claim(w.receipts[c].executor, w.receipts[c].lease)) == w.calls[c].claim
  {
    HistoryKeepsInv(start, history);
    var w := Replay(start, history);
    if c in w.calls {
      assert NotStranded(w, c);
      if c in w.receipts { assert ReceiptMatches(w, c); }
    }
  }

  /** The first outcome saved for a call is the only one ever sent for it, before or after. */
  lemma FirstSavedOutcomeIsFinal(
      start: World, history: seq<Action>, more: seq<Action>, c: CallId, o: Outcome, p: Outcome)
    requires Init(start) && Legal(start, history + more)
    requires (SavedOnlyGrows(start, history, more); Verdict(c, o) in Replay(start, history).saved)
    requires Verdict(c, p) in Replay(start, history + more).sent
    ensures p == o
  {
    HistoryKeepsInv(start, history + more);
    SavedOnlyGrows(start, history, more);
    var w := Replay(start, history + more);
    var i :| 0 <= i < |w.saved| && w.saved[i] == Verdict(c, o);
    var j :| 0 <= j < |w.saved| && w.saved[j] == Verdict(c, p);
    assert i == j;
  }

  /** Every resolve request ever sent for one call carries one outcome, and that one was saved
      before it was sent. */
  lemma OneOutcomePerCall(start: World, history: seq<Action>, c: CallId, o: Outcome, p: Outcome)
    requires Init(start) && Legal(start, history)
    requires Verdict(c, o) in Replay(start, history).sent
    requires Verdict(c, p) in Replay(start, history).sent
    ensures o == p && Verdict(c, o) in Replay(start, history).saved
  {
    HistoryKeepsInv(start, history);
    assert history + [] == history;
    FirstSavedOutcomeIsFinal(start, history, [], c, o, p);
  }
}
