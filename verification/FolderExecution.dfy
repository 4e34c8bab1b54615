/**
 The headless folder executor itself: the code that sweeps, claims, runs and publishes.

 Every await consumes one `Fate` from `script`, which says what the rest of the world did
 meanwhile, how the call was answered, and whether the process died there. A script is an
 arbitrary input, so what a method promises holds for every schedule of other executors, lost
 replies, spurious conflicts, storage failures and crashes. When the script has run out, nothing
 goes wrong any more.

 `Valid` is the refinement: everything the object has ever done to `world` is a legal history of
 `ExecutorProtocol` from a fresh profile.
 */
module FolderExecution {
  import opened Prelude
  import opened ExecutorProtocol

  /** Refused is a conflict the server answers without having looked at the request; Failed and
      Died say nothing about whether it was processed. */
  datatype Answer = Served | Refused | Failed | Died

  datatype Fate = Fate(outside: seq<Action>, answer: Answer, landed: bool, reply: Outcome, lease: Lease)

  const NOTHING_HAPPENS: Fate := Fate([], Served, true, Completed(""), 0)

  function Head(script: seq<Fate>): Fate {
    if script == [] then NOTHING_HAPPENS else script[0]
  }

  predicate Tidy(row: Call) {
    Handles(row.tool) ==> row.canonical
  }

  /** Every request is served and no process dies. Others still park, claim and resolve calls as
      they like, as long as the folder calls they park are well-formed; and what the broker answers
      is arbitrary. */
  predicate Steady(script: seq<Fate>) {
    forall f | f in script :: f.answer.Served? && forall a | a in f.outside && a.Park? :: Tidy(a.row)
  }

  predicate NothingParked(script: seq<Fate>) {
    forall f | f in script :: forall a | a in f.outside :: !a.Park?
  }

  datatype Progress = Done | Deferred | Dead

  datatype ClaimAnswer = Granted(row: Call) | Conflict | ClaimFailed | ClaimDead

  datatype ResolveAnswer = Accepted | Rejected | ResolveFailed | ResolveDead

  datatype Listing = Listed(pending: map<CallId, Call>) | ListFailed | ListDead

  datatype Scope = OneChat(chat: ChatId) | AllChats

  const FOLDER_UNAVAILABLE := Outcome.Failed("folder_unavailable")
  const IMPORT_UNAVAILABLE := Outcome.Failed("import_unavailable")
  const INVALID_REQUEST := Outcome.Failed("invalid_request")
  const WRITEBACK_UNAVAILABLE := Outcome.Failed("output_writeback_authority_unavailable")

  predicate InScope(scope: Scope, chat: ChatId) {
    scope.AllChats? || scope.chat == chat
  }

  function PendingIn(w: World, scope: Scope): map<CallId, Call> {
    map c | c in w.calls && w.calls[c].status.Pending? && InScope(scope, w.calls[c].chat) :: w.calls[c]
  }

  // ----- What a step leaves alone -----

  /** Rows only grow, and no row but `c`'s can have become this executor's. */
  ghost predicate CallsKept(w: World, w': World, c: Option<CallId>) {
    && w'.me == w.me && w.gone <= w'.gone
    && (forall d | d in w.calls :: d in w'.calls && Grows(w.calls[d], w'.calls[d]))
    && (forall d: CallId | Mine(w', d) && Some(d) != c :: Mine(w, d))
  }

  /** Others acted: nothing but rows moved, none towards this executor, and chats were deleted. */
  ghost predicate Drift(w: World, w': World) {
    w' == w.(calls := w'.calls, gone := w'.gone) && CallsKept(w, w', None)
  }

  /** What work on call `c` does to every other call: neither its receipt nor its ownership. */
  ghost predicate OthersKept(w: World, w': World, c: CallId) {
    && CallsKept(w, w', Some(c))
    && w'.receipts - {c} == w.receipts - {c}
  }

  ghost predicate AllCanonical(w: World) {
    forall c | c in w.calls :: Tidy(w.calls[c])
  }

  /** A steady script stays one and brings no malformed folder call; one that parks nothing brings
      no call at all. */
  ghost predicate Carries(w: World, s: seq<Fate>, w': World, s': seq<Fate>) {
    && (Steady(s) ==> Steady(s') && (AllCanonical(w) ==> AllCanonical(w')))
    && (NothingParked(s) ==> NothingParked(s') && w'.calls.Keys == w.calls.Keys)
  }

  /** The executor can do nothing more for `c`: the call has its result, or is somebody else's, or its
      chat was deleted. */
  ghost predicate Settled(w: World, c: CallId) {
    && c in w.calls
    && (Gone(w, c)
        || (c !in w.receipts
            && (w.calls[c].status.Resolved? || (w.calls[c].claim.Some? && !Mine(w, c)))))
  }

  /** A receipt whose chat was deleted. No route says any more that its call is resolved. */
  ghost predicate Stuck(w: World, c: CallId) {
    c in w.receipts && Gone(w, c)
  }

  ghost predicate StuckStay(w: World, w': World) {
    forall c | Stuck(w, c) :: Stuck(w', c)
  }

  /** Nothing is left in the receipt store but what is stuck there. */
  ghost predicate OnlyStuck(w: World) {
    forall c | c in w.receipts :: Gone(w, c)
  }

  /** Writes to the receipt store. */
  predicate IsLocal(a: Action) {
    a.Announce? || a.Fence? || a.Record? || a.Forget?
  }

  lemma LocalStepsWait(a: Action, w: World, w': World)
    requires IsLocal(a) && Enabled(a, w) && Drift(w, w')
    ensures Enabled(a, w')
    ensures Apply(a, w').receipts == Apply(a, w).receipts
    ensures Apply(a, w').saved == Apply(a, w).saved && Apply(a, w').sent == w.sent
  {}

  lemma LocalStepsAreLocal(a: Action, w: World)
    requires IsLocal(a) && Enabled(a, w)
    ensures OthersKept(w, Apply(a, w), a.call) && CallsKept(w, Apply(a, w), None)
    ensures Apply(a, w).calls == w.calls
  {}

  lemma RequestsTouchOneCall(a: Action, w: World)
    requires (a.TakeClaim? || a.Submit?) && Enabled(a, w)
    ensures OthersKept(w, Apply(a, w), a.call)
    ensures Apply(a, w).receipts == w.receipts && Apply(a, w).me == w.me
    ensures Apply(a, w).calls.Keys == w.calls.Keys && (AllCanonical(w) ==> AllCanonical(Apply(a, w)))
  {}

  /** Nothing was asked of the broker. */
  ghost predicate BrokerLeft(w: World, w': World) {
    w'.hostOps == w.hostOps && w'.answers == w.answers
  }

  /** How a call ends whose every request is served, unless its chat is deleted meanwhile: a listing
      or read with what the broker answered, an import with that if it completes, and every other
      one, or a request that does not parse, with its own answer and without the broker. */
  ghost predicate RunsTo(row: Call, c: CallId, w: World, w': World, o: Outcome) {
    match row.tool
    case RequestFolderAccess => o == Completed("declined") && BrokerLeft(w, w')
    case WriteOutput => o == Outcome.Failed("output_writeback_authority_unavailable") && BrokerLeft(w, w')
    case ImportConnectedFile =>
      if !row.parses then o == Outcome.Failed("import_unavailable") && BrokerLeft(w, w')
      else
        exists reply :: Answers(c, w, w', reply)
          && (o == if reply.Completed? then reply else Outcome.Failed("import_unavailable"))
    case _ =>
      if !row.parses then o == Outcome.Failed("invalid_request") && BrokerLeft(w, w')
      else Answers(c, w, w', o)
  }

  /** The broker ran the call's one operation and answered this. */
  ghost predicate Answers(c: CallId, w: World, w': World, reply: Outcome) {
    w'.hostOps == w.hostOps + [c] && w'.answers == w.answers + [Verdict(c, reply)]
  }

  /** What a receipt is driven to when every request is served: the outcome it has, the closing of an
      interrupted read, or what running the call comes to. Nothing is sent and the broker not asked if
      the claim is not granted or does not hold up to validation. */
  ghost predicate DrivenTo(r: Receipt, row: Call, w: World, w': World) {
    if r.outcome.Some? then w'.sent == w.sent + [Verdict(r.call, r.outcome.value)] && BrokerLeft(w, w')
    else if r.dispatchStarted && IsRead(row.tool) then
      w'.sent == w.sent + [Verdict(r.call, Outcome.Failed("folder_operation_interrupted"))] && BrokerLeft(w, w')
    else
      || (w'.sent == w.sent && BrokerLeft(w, w'))
      || Gone(w', r.call)
      || RunAndSent(row, r.call, w, w')
  }

  ghost predicate RunAndSent(row: Call, c: CallId, w: World, w': World) {
    exists o :: w'.sent == w.sent + [Verdict(c, o)] && RunsTo(row, c, w, w', o)
  }

  lemma RunsBetween(row: Call, c: CallId, w0: World, w: World, w': World, w1: World, o: Outcome)
    requires BrokerLeft(w0, w) && RunsTo(row, c, w, w', o) && BrokerLeft(w', w1)
    requires w1.sent == w0.sent + [Verdict(c, o)]
    ensures RunAndSent(row, c, w0, w1)
  {
    assert forall reply | Answers(c, w, w', reply) :: Answers(c, w0, w1, reply);
    assert RunsTo(row, c, w0, w1, o);
  }

  ghost predicate Recovered(w: World, covered: set<CallId>) {
    OnlyStuck(w) && forall c | c in covered :: Settled(w, c)
  }

  /** What became this executor's was covered by a receipt, or is a folder call in scope. */
  ghost predicate TookInScope(w: World, w': World, covered: set<CallId>, scope: Scope) {
    forall c | Mine(w', c) && !Mine(w, c) && c !in covered ::
      !w'.calls[c].tool.ForeignTool? && (scope.AllChats? || scope.chat == w'.calls[c].chat)
  }

  lemma TookInScopeNext(
      w0: World, w: World, w': World, c: CallId, listed: Call, covered: set<CallId>, scope: Scope)
    requires TookInScope(w0, w, covered, scope) && OthersKept(w, w', c)
    requires c in w.calls && Grows(listed, w.calls[c]) && InScope(scope, listed.chat)
    requires !Handles(listed.tool) ==> w' == w
    ensures TookInScope(w0, w', covered, scope)
  {}

  /** Every parked folder call in scope among `calls` belongs to another executor. */
  ghost predicate NothingLeft(w: World, calls: set<CallId>, scope: Scope) {
    forall c | c in calls && c in w.calls && w.calls[c].status.Pending? && !w.calls[c].tool.ForeignTool?
            && (scope.AllChats? || scope.chat == w.calls[c].chat) ::
      w.calls[c].claim.Some? && !Mine(w, c)
  }

  /** `listed` is a row of a pending set this pass has not acted on yet. */
  ghost predicate Takeable(w: World, c: CallId, listed: Call, covered: set<CallId>) {
    && c in w.calls && Grows(listed, w.calls[c])
    && (listed.claim.None? ==> !Mine(w, c))
    && (c !in covered ==> c !in w.receipts)
  }

  lemma OthersStay(w: World, w': World, c: CallId)
    requires OthersKept(w, w', c)
    ensures w'.receipts.Keys <= w.receipts.Keys + {c}
    ensures forall d | d in w.receipts && d != c :: d in w'.receipts && w'.receipts[d] == w.receipts[d]
    ensures forall d | d != c && Settled(w, d) :: Settled(w', d)
    ensures forall d | d != c && Stuck(w, d) :: Stuck(w', d)
  {
    forall d | d in w.receipts && d != c ensures d in w'.receipts && w'.receipts[d] == w.receipts[d] {
      assert d in w.receipts - {c};
    }
    forall d | d in w'.receipts && d != c ensures d in w.receipts {
      assert d in w'.receipts - {c};
    }
  }

  ghost predicate SettledUpTo(w: World, queue: seq<CallId>, i: nat)
    requires i <= |queue|
  {
    forall j | 0 <= j < i :: Settled(w, queue[j])
  }

  ghost predicate Held(w: World, queue: seq<CallId>, i: nat) {
    forall j | i <= j < |queue| :: queue[j] in w.receipts
  }

  lemma RecoverNext(w: World, w': World, queue: seq<CallId>, i: nat, covered: set<CallId>)
    requires i < |queue| && Distinct(queue) && Held(w, queue, i) && w.receipts.Keys <= covered
    requires OthersKept(w, w', queue[i])
    ensures Held(w', queue, i + 1) && w'.receipts.Keys <= covered
    ensures SettledUpTo(w, queue, i) && Settled(w', queue[i]) ==> SettledUpTo(w', queue, i + 1)
  {
    OthersStay(w, w', queue[i]);
    assert forall j | 0 <= j < |queue| && j != i :: queue[j] != queue[i];
  }

  lemma AllRecovered(w: World, queue: seq<CallId>, covered: set<CallId>)
    requires SettledUpTo(w, queue, |queue|) && w.receipts.Keys <= covered
    requires forall c :: c in queue <==> c in covered
    ensures Recovered(w, covered)
  {}

  lemma TakeableStays(w: World, w': World, c: CallId, d: CallId, listed: Call, covered: set<CallId>)
    requires OthersKept(w, w', c) && d != c && Takeable(w, d, listed, covered)
    ensures Takeable(w', d, listed, covered)
  {
    OthersStay(w, w', c);
  }

  ghost predicate AllTakeable(w: World, queue: seq<CallId>, i: nat, pending: map<CallId, Call>, covered: set<CallId>) {
    forall j | i <= j < |queue| :: queue[j] in pending && Takeable(w, queue[j], pending[queue[j]], covered)
  }

  lemma AllTakeableAtFirst(
      w: World, queue: seq<CallId>, pending: map<CallId, Call>, covered: set<CallId>, scope: Scope)
    requires w.receipts.Keys <= covered && pending == PendingIn(w, scope)
    requires forall c :: c in queue <==> c in pending
    ensures AllTakeable(w, queue, 0, pending, covered)
  {}

  lemma AllTakeableStays(
      w: World, w': World, queue: seq<CallId>, i: nat, pending: map<CallId, Call>, covered: set<CallId>)
    requires i < |queue| && Distinct(queue) && OthersKept(w, w', queue[i])
    requires AllTakeable(w, queue, i, pending, covered)
    ensures AllTakeable(w', queue, i + 1, pending, covered)
  {
    forall j | i < j < |queue|
      ensures queue[j] in pending && Takeable(w', queue[j], pending[queue[j]], covered)
    {
      TakeableStays(w, w', queue[i], queue[j], pending[queue[j]], covered);
    }
  }

  ghost predicate Wanted(listed: World, c: CallId, covered: set<CallId>) {
    c in listed.calls && c !in covered && Handles(listed.calls[c].tool) && listed.calls[c].claim.None?
  }

  /** How a steady pass stands before its `i`th call. */
  ghost predicate TakenUp(listed: World, w: World, queue: seq<CallId>, i: nat, covered: set<CallId>)
    requires i <= |queue|
  {
    && OnlyStuck(w) && w.me == listed.me && listed.gone <= w.gone
    && (forall c | c in listed.calls :: c in w.calls && Grows(listed.calls[c], w.calls[c]))
    && (forall j | 0 <= j < i && Wanted(listed, queue[j], covered) :: Settled(w, queue[j]))
  }

  lemma TakenUpNext(
      listed: World, w: World, w': World, queue: seq<CallId>, i: nat, covered: set<CallId>)
    requires i < |queue| && Distinct(queue) && TakenUp(listed, w, queue, i, covered)
    requires OthersKept(w, w', queue[i])
    requires if Wanted(listed, queue[i], covered) then Settled(w', queue[i]) else w' == w
    ensures TakenUp(listed, w', queue, i + 1, covered)
  {
    OthersStay(w, w', queue[i]);
    assert forall j | 0 <= j < i :: queue[j] != queue[i];
  }

  lemma AllTakenUp(listed: World, w: World, queue: seq<CallId>, covered: set<CallId>, scope: Scope)
    requires NoneStranded(listed) && Recovered(listed, covered) && GoneAreResolved(w)
    requires forall c :: c in queue <==> c in PendingIn(listed, scope)
    requires TakenUp(listed, w, queue, |queue|, covered)
    ensures NothingLeft(w, listed.calls.Keys, scope)
  {
    forall c | c in listed.calls && w.calls[c].status.Pending? && Handles(w.calls[c].tool)
             && InScope(scope, w.calls[c].chat)
      ensures w.calls[c].claim.Some? && !Mine(w, c)
    {
      assert NotStranded(listed, c);
      assert c in queue;
      var j :| 0 <= j < |queue| && queue[j] == c;
    }
  }

  lemma KeptTwice(w: World, m: World, w': World, c: CallId)
    requires OthersKept(w, m, c) && OthersKept(m, w', c)
    ensures OthersKept(w, w', c)
  {}

  lemma CrashKeeps(w: World, m: World, c: CallId)
    requires OthersKept(w, m, c)
    ensures OthersKept(w, Apply(Crash, m), c)
    ensures forall d: Option<CallId> | CallsKept(w, m, d) :: CallsKept(w, Apply(Crash, m), d)
  {}

  lemma KeptThenKept(w: World, m: World, w': World, c: Option<CallId>)
    requires CallsKept(w, m, c) && CallsKept(m, w', c)
    ensures CallsKept(w, w', c)
  {}

  /** A resolve request under the receipt's lease: if it lands, the call has its result. */
  lemma SubmitEffect(w0: World, w: World, r: Receipt, landed: bool)
    requires OthersKept(w0, w, r.call) && r.call in w.receipts && w.receipts[r.call] == r
    requires ReceiptMatches(w, r.call) && r.outcome.Some?
    ensures var w' := Apply(Submit(r.call, landed), w);
      && OthersKept(w0, w', r.call) && w'.receipts == w.receipts && w'.me == w.me && w'.saved == w.saved
      && w'.gone == w.gone
      && w'.sent == w.sent + [Verdict(r.call, r.outcome.value)]
      && w'.calls.Keys == w.calls.Keys && (AllCanonical(w) ==> AllCanonical(w'))
      && (landed ==> w'.calls[r.call].status.Resolved?)
  {
    RequestsTouchOneCall(Submit(r.call, landed), w);
    KeptTwice(w0, w, Apply(Submit(r.call, landed), w), r.call);
  }

  lemma OutsideStep(script: seq<Fate>, fate: Fate, a: Action, w: World)
    requires fate in script && a in fate.outside && FromOutside(a) && Enabled(a, w)
    ensures CallsKept(w, Apply(a, w), None)
    ensures Apply(a, w) == w.(calls := Apply(a, w).calls, gone := Apply(a, w).gone)
    ensures Steady(script) && AllCanonical(w) ==> AllCanonical(Apply(a, w))
    ensures NothingParked(script) ==> Apply(a, w).calls.Keys == w.calls.Keys
  {}

  class FolderExecutor {
    var world: World
    var script: seq<Fate>
    ghost var start: World
    ghost var history: seq<Action>

    /** All that ever happened to `world` is a legal history from a new profile. It is unfolded only
        where it is consulted. */
    ghost predicate Valid()
      reads `world, `history, `start
    {
      forall k: nat {:trigger Consulted(k)} :: Consulted(k) ==>
        Init(start) && Legal(start, history) && world == Replay(start, history)
    }

    constructor (world: World, script: seq<Fate>)
      requires Init(world)
      ensures Valid() && this.world == world && this.script == script && start == world && history == []
    {
      this.world, this.script := world, script;
      start, history := world, [];
    }

    /** The receipt a method works from is the one on disk. */
    predicate Holds(r: Receipt)
      reads this
    {
      r.call in world.receipts && world.receipts[r.call] == r
    }

    lemma Knows(c: CallId)
      requires Valid() && c in world.receipts
      ensures ReceiptMatches(world, c) && NotStranded(world, c) && GoneAreResolved(world)
    {
      assert Consulted(0);
      HistoryKeepsInv(start, history);
    }

    lemma NobodyIsStranded()
      requires Valid()
      ensures NoneStranded(world) && GoneAreResolved(world)
    {
      assert Consulted(0);
      HistoryKeepsInv(start, history);
    }

    method Do(a: Action)
      requires Valid() && Enabled(a, world)
      modifies this`world, this`history
      ensures Valid() && world == Apply(a, old(world)) && history == old(history) + [a]
    {
      assert Consulted(0);
      Extend(start, history, a);
      world := Apply(a, world);
      history := history + [a];
    }

    /** Give up control: others act, and the next fate is drawn. */
    method Await() returns (fate: Fate)
      requires Valid()
      modifies this`world, this`history, this`script
      ensures Valid() && Drift(old(world), world) && Carries(old(world), old(script), world, script)
      ensures fate == Head(old(script)) && (Steady(old(script)) ==> fate.answer.Served?)
    {
      if script == [] {
        return NOTHING_HAPPENS;
      }
      fate := script[0];
      script := script[1..];
      assert fate in old(script) && forall f | f in script :: f in old(script);
      var i := 0;
      while i < |fate.outside|
        invariant Valid() && script == old(script)[1..]
        invariant Drift(old(world), world) && Carries(old(world), old(script), world, script)
      {
        var a := fate.outside[i];
        ghost var before := world;
        if FromOutside(a) && Enabled(a, world) {
          assert a in fate.outside;
          OutsideStep(old(script), fate, a, world);
          Do(a);
          KeptThenKept(old(world), before, world, None);
        }
        i := i + 1;
      }
    }

    /** Write or remove a receipt. The file is replaced whole, so the write lands or it does not. */
    method Store(a: Action) returns (p: Progress)
      requires Valid() && IsLocal(a) && Enabled(a, world)
      modifies this`world, this`history, this`script
      ensures Valid() && OthersKept(old(world), world, a.call) && CallsKept(old(world), world, None)
      ensures Carries(old(world), old(script), world, script) && (Steady(old(script)) ==> p.Done?)
      ensures p.Done? ==>
        && world.receipts == Apply(a, old(world)).receipts
        && world.volatile == Apply(a, old(world)).volatile
        && world.saved == Apply(a, old(world)).saved
      ensures BrokerLeft(old(world), world)
      ensures world.sent == old(world.sent)
      ensures !a.Forget? && a.call in old(world.receipts) ==> a.call in world.receipts
      ensures world.saved == old(world.saved) || world.saved == Apply(a, old(world)).saved
    {
      var fate := Await();
      LocalStepsWait(a, old(world), world);
      LocalStepsAreLocal(a, world);
      ghost var before := world;
      assert OthersKept(old(world), before, a.call);
      if fate.answer.Served? || fate.landed {
        Do(a);
      }
      KeptTwice(old(world), before, world, a.call);
      KeptThenKept(old(world), before, world, None);
      if fate.answer.Died? {
        CrashKeeps(old(world), world, a.call);
        Do(Crash);
        return Dead;
      }
      return if fate.answer.Served? then Done else Deferred;
    }

    /** The server serves the claim request. */
    method ServeClaimOf(r: Receipt, ghost before: World) returns (taken: bool)
      requires Valid() && Holds(r) && r.call in world.calls && OthersKept(before, world, r.call)
      modifies this`world, this`history
      ensures Valid() && OthersKept(before, world, r.call) && r.call in world.calls
      ensures BrokerLeft(old(world), world) && world.sent == old(world.sent)
      ensures world.receipts == old(world.receipts) && world.gone == old(world.gone)
      ensures world.calls.Keys == old(world.calls.Keys) && (AllCanonical(old(world)) ==> AllCanonical(world))
      ensures if taken then ClaimedAs(world, r.call, r.lease) && world.calls[r.call].status.Pending?
              else !Claimable(world.calls[r.call], world.me, r.lease)
    {
      RequestsTouchOneCall(TakeClaim(r.call), world);
      KeptTwice(before, world, Apply(TakeClaim(r.call), world), r.call);
      taken := Claimable(world.calls[r.call], world.me, r.lease);
      Do(TakeClaim(r.call));
    }

    /** Ask the server for the claim the receipt names. */
    method ClaimCall(r: Receipt) returns (answer: ClaimAnswer)
      requires Valid() && Holds(r)
      modifies this`world, this`history, this`script
      ensures Valid() && OthersKept(old(world), world, r.call)
      ensures BrokerLeft(old(world), world) && world.sent == old(world.sent)
      ensures world.receipts == old(world.receipts) && r.call in old(world.calls)
      ensures Carries(old(world), old(script), world, script)
      ensures answer.Granted? ==>
        ClaimedAs(world, r.call, r.lease) && answer.row == world.calls[r.call] && answer.row.status.Pending?
      ensures Gone(old(world), r.call) ==> !answer.Granted? && !answer.Conflict?
      ensures Steady(old(script)) ==>
        answer.Granted? || (answer.Conflict? && !Claimable(world.calls[r.call], world.me, r.lease))
        || (answer.ClaimFailed? && Gone(world, r.call))
    {
      Knows(r.call);
      var fate := Await();
      if Gone(world, r.call) && !fate.answer.Died? {
        return ClaimFailed;
      }
      if fate.answer.Served? {
        var taken := ServeClaimOf(r, old(world));
        return if taken then Granted(world.calls[r.call]) else Conflict;
      }
      if fate.answer.Refused? {
        return Conflict;
      }
      if fate.landed {
        var _ := ServeClaimOf(r, old(world));
      }
      if fate.answer.Died? {
        CrashKeeps(old(world), world, r.call);
        Do(Crash);
        return ClaimDead;
      }
      return ClaimFailed;
    }

    /** The server's pending set, as it stood when the request was served. */
    method ListPending(scope: Scope) returns (listing: Listing)
      requires Valid()
      modifies this`world, this`history, this`script
      ensures Valid() && CallsKept(old(world), world, None) && world.receipts == old(world.receipts)
      ensures BrokerLeft(old(world), world)
      ensures world.saved == old(world.saved) && world.sent == old(world.sent)
      ensures Carries(old(world), old(script), world, script)
      ensures listing.Listed? ==> listing.pending == PendingIn(world, scope)
      ensures listing.Listed? && scope.OneChat? ==> scope.chat !in world.gone
      ensures Steady(old(script)) ==>
        listing.Listed? || (listing.ListFailed? && scope.OneChat? && scope.chat in world.gone)
    {
      var fate := Await();
      match fate.answer {
        case Served =>
          listing :=
            if scope.OneChat? && scope.chat in world.gone then ListFailed
            else Listed(PendingIn(world, scope));
        case Died => Do(Crash); listing := ListDead;
        case _ => listing := ListFailed;
      }
    }

    /** The request is out; it may have landed. */
    method SendOutcome(r: Receipt, landed: bool, ghost before: World)
      requires Valid() && Holds(r) && r.outcome.Some? && OthersKept(before, world, r.call)
      requires r.call in world.calls
      modifies this`world, this`history
      ensures Valid() && OthersKept(before, world, r.call) && Holds(r) && r.call in world.calls
      ensures BrokerLeft(old(world), world)
      ensures world.saved == old(world.saved) && world.gone == old(world.gone)
      ensures world.sent == old(world.sent) + [Verdict(r.call, r.outcome.value)]
      ensures world.calls.Keys == old(world.calls.Keys) && (AllCanonical(old(world)) ==> AllCanonical(world))
      ensures landed ==> world.calls[r.call].status.Resolved?
      ensures landed && Resolvable(old(world.calls[r.call]), r.lease, r.outcome.value) ==>
        world.calls[r.call].status == Resolved(r.outcome.value)
    {
      Knows(r.call);
      SubmitEffect(before, world, r, landed);
      Do(Submit(r.call, landed));
    }

    /** Send the saved outcome. */
    method Resolve(r: Receipt) returns (answer: ResolveAnswer)
      requires Valid() && Holds(r) && r.outcome.Some?
      modifies this`world, this`history, this`script
      ensures Valid() && OthersKept(old(world), world, r.call) && Holds(r) && r.call in world.calls
      ensures r.call in old(world.calls) && Carries(old(world), old(script), world, script)
      ensures BrokerLeft(old(world), world)
      ensures world.saved == old(world.saved)
      ensures world.sent == old(world.sent) + [Verdict(r.call, r.outcome.value)]
      ensures answer.Accepted? ==> world.calls[r.call].status == Resolved(r.outcome.value)
      ensures Gone(old(world), r.call) ==> !answer.Accepted? && !answer.Rejected?
      ensures Steady(old(script)) ==>
        answer.Accepted? || (answer.Rejected? && world.calls[r.call].status.Resolved?)
        || (answer.ResolveFailed? && Gone(world, r.call))
    {
      Knows(r.call);
      var fate := Await();
      Knows(r.call);
      var accepted := Resolvable(world.calls[r.call], r.lease, r.outcome.value);
      var missing := Gone(world, r.call);
      var landed := !missing && (fate.answer.Served? || (fate.landed && !fate.answer.Refused?));
      SendOutcome(r, landed, old(world));
      if missing && !fate.answer.Died? {
        return ResolveFailed;
      }
      match fate.answer {
        case Served => answer := if accepted then Accepted else Rejected;
        case Refused => answer := Rejected;
        case Failed => answer := ResolveFailed;
        case Died => CrashKeeps(old(world), world, r.call); Do(Crash); answer := ResolveDead;
      }
    }

    /** The outcome was not accepted: whether the call is parked no longer, so that its receipt is
        spent. */
    method IsSpent(r: Receipt) returns (p: Progress)
      requires Valid() && Holds(r)
      modifies this`world, this`history, this`script
      ensures Valid() && CallsKept(old(world), world, None) && world.receipts == old(world.receipts)
      ensures BrokerLeft(old(world), world)
      ensures world.saved == old(world.saved) && world.sent == old(world.sent)
      ensures Carries(old(world), old(script), world, script)
      ensures p.Done? ==> Enabled(Forget(r.call), world) && !Gone(world, r.call)
      ensures Steady(old(script)) ==>
        !p.Dead? && (r.call in old(world.calls) && old(world.calls[r.call].status.Resolved?) ==> p.Done? || Gone(world, r.call))
    {
      var listing := ListPending(OneChat(r.chat));
      Knows(r.call);
      if !listing.Listed? {
        return if listing.ListDead? then Dead else Deferred;
      }
      p := if r.call in listing.pending then Deferred else Done;
    }

    /** Hand the saved outcome to the server, then forget the receipt. */
    method Publish(r: Receipt) returns (p: Progress)
      requires Valid() && Holds(r) && r.outcome.Some?
      modifies this`world, this`history, this`script
      ensures Valid() && OthersKept(old(world), world, r.call)
      ensures Carries(old(world), old(script), world, script)
      ensures Stuck(old(world), r.call) ==> Stuck(world, r.call)
      ensures BrokerLeft(old(world), world)
      ensures world.saved == old(world.saved)
      ensures world.sent == old(world.sent) + [Verdict(r.call, r.outcome.value)]
      ensures Steady(old(script)) ==> !p.Dead? && Settled(world, r.call)
    {
      var answer := Resolve(r);
      if answer.ResolveDead? || answer.ResolveFailed? {
        return if answer.ResolveDead? then Dead else Deferred;
      }
      ghost var sent := world;
      if answer.Rejected? {
        p := IsSpent(r);
        if !p.Done? {
          return;
        }
      }
      KeptTwice(old(world), sent, world, r.call);
      ghost var listed := world;
      p := Store(Forget(r.call));
      KeptTwice(old(world), listed, world, r.call);
    }

    /** Save the terminal answer before publishing it. */
    method TerminalizeCall(r: Receipt, outcome: Outcome) returns (p: Progress)
      requires Valid() && Holds(r) && Enabled(Record(r.call, outcome), world)
      modifies this`world, this`history, this`script
      ensures Valid() && OthersKept(old(world), world, r.call)
      ensures Carries(old(world), old(script), world, script)
      ensures Stuck(old(world), r.call) ==> Stuck(world, r.call)
      ensures BrokerLeft(old(world), world)
      ensures world.saved == old(world.saved) || world.saved == old(world.saved) + [Verdict(r.call, outcome)]
      ensures world.sent == old(world.sent)
        || (world.sent == old(world.sent) + [Verdict(r.call, outcome)] && world.saved != old(world.saved))
      ensures Steady(old(script)) ==>
        && !p.Dead? && Settled(world, r.call)
        && world.saved != old(world.saved) && world.sent != old(world.sent)
    {
      p := Store(Record(r.call, outcome));
      if !p.Done? {
        return;
      }
      ghost var saved := world;
      p := Publish(r.(outcome := Some(outcome)));
      KeptTwice(old(world), saved, world, r.call);
    }

    /** The claim was refused: the server's own pending set decides whether the receipt is spent. */
    method RecoverAfterClaimConflict(r: Receipt) returns (p: Progress)
      requires Valid() && Holds(r)
      modifies this`world, this`history, this`script
      ensures Valid() && OthersKept(old(world), world, r.call)
      ensures r.call in old(world.calls) && Carries(old(world), old(script), world, script)
      ensures BrokerLeft(old(world), world) && world.sent == old(world.sent)
      ensures Stuck(old(world), r.call) ==> Stuck(world, r.call)
      ensures Steady(old(script)) ==>
        !p.Dead? && (!Claimable(old(world.calls[r.call]), old(world.me), r.lease) ==> Settled(world, r.call))
    {
      var c := r.call;
      Knows(c);
      var listing := ListPending(OneChat(r.chat));
      if !listing.Listed? {
        return if listing.ListDead? then Dead else Deferred;
      }
      Knows(c);
      ghost var listed := world;
      if c !in listing.pending {
        p := Store(Forget(c));
        KeptTwice(old(world), listed, world, c);
      } else if listing.pending[c].claim.Some? && listing.pending[c].claim.value.owner != r.executor {
        p := Store(Forget(c));
        KeptTwice(old(world), listed, world, c);
        p := if p.Dead? then Dead else Deferred;
      } else {
        p := Deferred;
      }
    }

    /** One await that changes nothing of ours: a heartbeat, a chat lookup. */
    method Ask() returns (p: Progress)
      requires Valid()
      modifies this`world, this`history, this`script
      ensures Valid() && CallsKept(old(world), world, None) && world.receipts == old(world.receipts)
      ensures Carries(old(world), old(script), world, script) && (Steady(old(script)) ==> p.Done?)
      ensures BrokerLeft(old(world), world) && world.sent == old(world.sent)
      ensures world.documents == old(world.documents)
      ensures !p.Dead? ==> Drift(old(world), world)
    {
      var fate := Await();
      match fate.answer {
        case Served => p := Done;
        case Died => Do(Crash); p := Dead;
        case _ => p := Deferred;
      }
    }

    /** The one path to a connected folder. */
    method BrokerOperation(c: CallId) returns (reply: Outcome, p: Progress)
      requires Valid() && c in world.calls && world.volatile == Fenced(c) && ReachesHost(world.calls[c].tool)
      modifies this`world, this`history, this`script
      ensures Valid() && CallsKept(old(world), world, None) && world.receipts == old(world.receipts)
      ensures Carries(old(world), old(script), world, script) && (Steady(old(script)) ==> p.Done?)
      ensures world.documents == old(world.documents) && world.sent == old(world.sent)
      ensures !p.Dead? ==> PastFence(world, c)
      ensures p.Done? ==>
        && world.volatile == Dispatched(c, reply) && Answers(c, old(world), world, reply)
        && BrokerSays(reply) && (Head(old(script)).reply.Completed? ==> reply == Head(old(script)).reply)
      ensures world.hostOps == old(world.hostOps) || world.hostOps == old(world.hostOps) + [c]
    {
      var fate := Await();
      // What cannot be shown is refused.
      reply := if BrokerSays(fate.reply) then fate.reply else FOLDER_UNAVAILABLE;
      if fate.answer.Served? || fate.landed {
        Do(HostOp(c, reply));
      }
      match fate.answer {
        case Served => p := Done;
        case Died => Do(Crash); p := Dead;
        case _ => p := Deferred;
      }
    }

    method PublishDocument(c: CallId) returns (p: Progress)
      requires Valid() && c in world.calls && world.calls[c].tool.ImportConnectedFile?
      requires world.volatile.Dispatched? && world.volatile.call == c && world.volatile.reply.Completed?
      modifies this`world, this`history, this`script
      ensures Valid() && CallsKept(old(world), world, None) && world.receipts == old(world.receipts)
      ensures Carries(old(world), old(script), world, script)
      ensures Steady(old(script)) ==>
        p.Done? || (p.Deferred? && world.documents == old(world.documents) && Gone(world, c))
      ensures BrokerLeft(old(world), world) && world.sent == old(world.sent)
      ensures !p.Dead? ==> PastFence(world, c)
      ensures p.Done? ==>
        && world.volatile == Ingested(c, old(world.volatile.reply))
        && world.documents == ServeIngest(old(world.documents), SourceOf(old(world.calls[c])))
      ensures world.documents == old(world.documents)
        || world.documents == ServeIngest(old(world.documents), SourceOf(old(world.calls[c])))
    {
      var fate := Await();
      var missing := Gone(world, c);
      if !missing && (fate.answer.Served? || fate.landed) {
        Do(Ingest(c));
      }
      match fate.answer {
        case Served => p := if missing then Deferred else Done;
        case Died => Do(Crash); p := Dead;
        case _ => p := Deferred;
      }
    }

    /** Run one claimed call past its fence and return the answer to publish. A folder request is
        completed with nothing but what the broker answered to the one operation run for it. */
    method RunCall(r: Receipt, row: Call) returns (outcome: Outcome, alive: bool)
      requires Valid() && world.volatile == Fenced(r.call)
      requires r.call in world.calls && Grows(row, world.calls[r.call]) && Handles(row.tool)
      modifies this`world, this`history, this`script
      ensures Valid() && CallsKept(old(world), world, None) && world.receipts == old(world.receipts)
      ensures Carries(old(world), old(script), world, script) && (Steady(old(script)) ==> alive)
      ensures alive ==> PastFence(world, r.call) && MayAnswer(world, row.tool, outcome)
      ensures row.tool.RequestFolderAccess? ==> world == old(world) && alive && outcome == Completed("declined")
      ensures row.tool.WriteOutput? ==>
        world == old(world) && alive && outcome == Outcome.Failed("output_writeback_authority_unavailable")
      ensures world.sent == old(world.sent)
      ensures world.hostOps == old(world.hostOps) || world.hostOps == old(world.hostOps) + [r.call]
      ensures (IsRead(row.tool) || row.tool.ImportConnectedFile?) && alive && outcome.Completed? ==>
        Answers(r.call, old(world), world, outcome)
      ensures alive && outcome == Outcome.Failed("invalid_request") ==> IsRead(row.tool) && !row.parses
      ensures Steady(old(script)) && !Gone(world, r.call) ==> RunsTo(row, r.call, old(world), world, outcome)
    {
      if row.tool.RequestFolderAccess? {
        return DECLINED, true;
      }
      if row.tool.WriteOutput? {
        return WRITEBACK_UNAVAILABLE, true;
      }
      var context := Ask();
      if !context.Done? || Gone(world, r.call) {
        return FOLDER_UNAVAILABLE, !context.Dead?;
      }
      if row.tool.ImportConnectedFile? {
        outcome, alive := Import(r, row);
        return;
      }
      if !row.parses {
        return INVALID_REQUEST, true;
      }
      var reply, p := BrokerOperation(r.call);
      return if p.Done? then reply else FOLDER_UNAVAILABLE, !p.Dead?;
    }

    /** Read the file through the broker, then publish it under its derived identity. The import
        completes only with its source among the documents, and adds nothing else to them. */
    method Import(r: Receipt, row: Call) returns (outcome: Outcome, alive: bool)
      requires Valid() && world.volatile == Fenced(r.call)
      requires r.call in world.calls && Grows(row, world.calls[r.call]) && row.tool.ImportConnectedFile?
      modifies this`world, this`history, this`script
      ensures Valid() && CallsKept(old(world), world, None) && world.receipts == old(world.receipts)
      ensures Carries(old(world), old(script), world, script) && (Steady(old(script)) ==> alive)
      ensures alive ==> PastFence(world, r.call) && MayAnswer(world, row.tool, outcome)
      ensures world.documents == old(world.documents)
        || world.documents == ServeIngest(old(world.documents), SourceOf(row))
      ensures alive && outcome.Completed? ==>
        && world.documents == ServeIngest(old(world.documents), SourceOf(row))
        && Answers(r.call, old(world), world, outcome)
      ensures Steady(old(script)) && !outcome.Completed? ==> world.documents == old(world.documents)
      ensures world.hostOps == old(world.hostOps) || world.hostOps == old(world.hostOps) + [r.call]
      ensures world.sent == old(world.sent)
      ensures alive && outcome.Failed? ==> outcome == Outcome.Failed("import_unavailable")
      ensures Steady(old(script)) && !Gone(world, r.call) ==> RunsTo(row, r.call, old(world), world, outcome)
    {
      if !row.parses {
        return IMPORT_UNAVAILABLE, true;
      }
      var reply, p := BrokerOperation(r.call);
      if !p.Done? || !reply.Completed? {
        return IMPORT_UNAVAILABLE, !p.Dead?;
      }
      p := PublishDocument(r.call);
      return if p.Done? then reply else IMPORT_UNAVAILABLE, !p.Dead?;
    }

    /** The last things before the host is asked: a heartbeat, and the durable fence. */
    method PassFence(receipt: Receipt) returns (p: Progress)
      requires Valid() && Holds(receipt) && Enabled(Fence(receipt.call), world)
      modifies this`world, this`history, this`script
      ensures Valid() && OthersKept(old(world), world, receipt.call)
      ensures Carries(old(world), old(script), world, script)
      ensures BrokerLeft(old(world), world) && world.sent == old(world.sent)
      ensures Stuck(old(world), receipt.call) ==> Stuck(world, receipt.call)
      ensures receipt.call in old(world.calls)
      ensures p.Done? ==>
        && Holds(receipt.(dispatchStarted := true)) && world.volatile == Fenced(receipt.call)
        && CallsKept(old(world), world, None)
      ensures Steady(old(script)) ==> p.Done? || (p.Deferred? && Gone(world, receipt.call))
    {
      var c := receipt.call;
      p := Ask();
      if !p.Done? || Gone(world, c) {
        p := if p.Dead? then Dead else Deferred;
        return;
      }
      LocalStepsWait(Fence(c), old(world), world);
      ghost var beaten := world;
      p := Store(Fence(c));
      KeptTwice(old(world), beaten, world, c);
      KeptThenKept(old(world), beaten, world, None);
    }

    /** Everything past a granted claim: fence, run, terminalize. */
    method RunClaimed(receipt: Receipt, row: Call) returns (p: Progress)
      requires Valid() && Holds(receipt) && Enabled(Fence(receipt.call), world)
      requires Grows(row, world.calls[receipt.call]) && Handles(row.tool)
      modifies this`world, this`history, this`script
      ensures Valid() && OthersKept(old(world), world, receipt.call)
      ensures Carries(old(world), old(script), world, script)
      ensures Stuck(old(world), receipt.call) ==> Stuck(world, receipt.call)
      ensures Steady(old(script)) ==>
        && !p.Dead? && Settled(world, receipt.call)
        && (Gone(world, receipt.call) || RunAndSent(row, receipt.call, old(world), world))
    {
      var c := receipt.call;
      p := PassFence(receipt);
      if !p.Done? {
        return;
      }
      var r := receipt.(dispatchStarted := true);
      ghost var fenced := world;
      var outcome, alive := RunCall(r, row);
      KeptTwice(old(world), fenced, world, c);
      if !alive {
        return Dead;
      }
      ghost var ran := world;
      p := TerminalizeCall(r, outcome);
      KeptTwice(old(world), ran, world, c);
      if Steady(old(script)) && !Gone(world, c) {
        RunsBetween(row, c, old(world), fenced, ran, world, outcome);
      }
    }

    /** Take one receipt from wherever it stopped to a published terminal result. */
    method Execute(receipt: Receipt) returns (p: Progress)
      requires Valid() && Holds(receipt)
      modifies this`world, this`history, this`script
      ensures Valid() && OthersKept(old(world), world, receipt.call)
      ensures receipt.call in old(world.calls) && Carries(old(world), old(script), world, script)
      ensures Stuck(old(world), receipt.call) ==> Stuck(world, receipt.call)
      ensures Steady(old(script)) ==> !p.Dead?
      ensures Steady(old(script)) && old(world.calls[receipt.call].canonical) ==> Settled(world, receipt.call)
      ensures Steady(old(script)) ==> DrivenTo(receipt, old(world.calls[receipt.call]), old(world), world)
      // A claim that fails validation is kept, receipt and all.
      ensures (Steady(old(script)) && !old(world.calls[receipt.call].canonical)
               && receipt.outcome.None? && !(receipt.dispatchStarted && receipt.recovery.Terminalize?)) ==>
        Settled(world, receipt.call) || (Holds(receipt) && Mine(world, receipt.call))
    {
      Knows(receipt.call);
      if receipt.outcome.Some? {
        p := Publish(receipt);
        return;
      }
      if receipt.dispatchStarted && receipt.recovery.Terminalize? {
        p := TerminalizeCall(receipt, INTERRUPTED);
        return;
      }
      var answer := ClaimCall(receipt);
      ghost var claimed := world;
      match answer {
        case ClaimDead => return Dead;
        case ClaimFailed => return Deferred;
        case Conflict =>
          p := RecoverAfterClaimConflict(receipt);
        case Granted(row) =>
          if row.chat != receipt.chat || !row.canonical || !Handles(row.tool)
             || row.claim != Some(Claim(receipt.executor, receipt.lease))
             || RecoveryPolicy(row.tool) != receipt.recovery {
            return Deferred;
          }
          p := RunClaimed(receipt, row);
      }
      KeptTwice(old(world), claimed, world, receipt.call);
    }

    /** Drive every persisted receipt to a terminal result, and report which calls they covered. */
    method Recover() returns (covered: set<CallId>, p: Progress)
      requires Valid()
      modifies this`world, this`history, this`script
      ensures Valid() && Carries(old(world), old(script), world, script)
      ensures forall c | c in old(world.calls) :: c in world.calls
      ensures StuckStay(old(world), world)
      ensures covered == old(world.receipts.Keys)
      ensures forall c | Mine(world, c) && !Mine(old(world), c) :: c in covered
      ensures p.Done? ==> world.receipts.Keys <= covered
      ensures Steady(old(script)) ==> p.Done?
      ensures Steady(old(script)) && AllCanonical(old(world)) ==> Recovered(world, covered)
    {
      p := Ask();
      covered := world.receipts.Keys;
      if !p.Done? {
        return;
      }
      var queue := InSomeOrder(covered);
      var i := 0;
      while i < |queue|
        invariant Valid() && i <= |queue| && p.Done?
        invariant Carries(old(world), old(script), world, script)
        invariant forall c | c in old(world.calls) :: c in world.calls
        invariant StuckStay(old(world), world)
        invariant forall c | Mine(world, c) && !Mine(old(world), c) :: c in covered
        invariant world.receipts.Keys <= covered && Held(world, queue, i)
        invariant Steady(old(script)) && AllCanonical(old(world)) ==> SettledUpTo(world, queue, i)
      {
        Knows(queue[i]);
        ghost var before := world;
        p := Execute(world.receipts[queue[i]]);
        RecoverNext(before, world, queue, i, covered);
        OthersStay(before, world, queue[i]);
        if p.Dead? {
          return;
        }
        p := Done;
        i := i + 1;
      }
      if Steady(old(script)) && AllCanonical(old(world)) {
        AllRecovered(world, queue, covered);
      }
    }

    /** Claim and run one parked call, unless it is covered, foreign, or already somebody's. */
    method DiscoverCall(c: CallId, listed: Call, covered: set<CallId>) returns (p: Progress)
      requires Valid() && Takeable(world, c, listed, covered)
      modifies this`world, this`history, this`script
      ensures Valid() && OthersKept(old(world), world, c)
      ensures Carries(old(world), old(script), world, script) && (Steady(old(script)) ==> p.Done?)
      ensures StuckStay(old(world), world)
      ensures c in covered || !Handles(listed.tool) || listed.claim.Some? ==> world == old(world)
      ensures (Steady(old(script)) && listed.canonical
               && c !in covered && Handles(listed.tool) && listed.claim.None?) ==> Settled(world, c)
    {
      if c in covered || !Handles(listed.tool) {
        return Done;
      }
      if listed.claim.Some? {
        return Done;
      }
      var lease := if script == [] then NOTHING_HAPPENS.lease else script[0].lease;
      p := Store(Announce(c, lease));
      OthersStay(old(world), world, c);
      if !p.Done? {
        return;
      }
      ghost var announced := world;
      p := Execute(world.receipts[c]);
      KeptTwice(old(world), announced, world, c);
      OthersStay(old(world), world, c);
      p := if p.Dead? then Dead else Done;
    }

    /** Act on each call of a pending set. A daemon passes over a call it could not record; a
        driven chat's pass stops there. */
    method TakeUp(scope: Scope, pending: map<CallId, Call>, covered: set<CallId>) returns (p: Progress)
      requires Valid() && pending == PendingIn(world, scope) && world.receipts.Keys <= covered
      modifies this`world, this`history, this`script
      ensures Valid() && Carries(old(world), old(script), world, script)
      ensures StuckStay(old(world), world) && TookInScope(old(world), world, covered, scope)
      ensures Steady(old(script)) ==> p.Done?
      ensures Steady(old(script)) && AllCanonical(old(world)) && Recovered(old(world), covered) ==>
        exists queue ::
          && (forall c :: c in queue <==> c in pending)
          && TakenUp(old(world), world, queue, |queue|, covered)
    {
      ghost var clean := Steady(script) && AllCanonical(world) && Recovered(world, covered);
      var queue := InSomeOrder(pending.Keys);
      AllTakeableAtFirst(world, queue, pending, covered, scope);
      var i := 0;
      while i < |queue|
        invariant Valid() && i <= |queue|
        invariant AllTakeable(world, queue, i, pending, covered)
        invariant StuckStay(old(world), world) && TookInScope(old(world), world, covered, scope)
        invariant Carries(old(world), old(script), world, script)
        invariant clean ==> TakenUp(old(world), world, queue, i, covered)
      {
        ghost var before := world;
        p := DiscoverCall(queue[i], pending[queue[i]], covered);
        TookInScopeNext(old(world), before, world, queue[i], pending[queue[i]], covered, scope);
        AllTakeableStays(before, world, queue, i, pending, covered);
        if clean {
          TakenUpNext(old(world), before, world, queue, i, covered);
        }
        if p.Dead? || (p.Deferred? && scope.OneChat?) {
          return;
        }
        i := i + 1;
      }
      p := Done;
    }

    /** Take up the parked work of one chat, or of all. */
    method Discover(scope: Scope, covered: set<CallId>) returns (p: Progress)
      requires Valid() && world.receipts.Keys <= covered
      modifies this`world, this`history, this`script
      ensures Valid() && Carries(old(world), old(script), world, script)
      ensures StuckStay(old(world), world) && TookInScope(old(world), world, covered, scope)
      ensures Steady(old(script)) ==> p.Done? || (p.Deferred? && scope.OneChat? && scope.chat in world.gone)
      ensures Steady(old(script)) && AllCanonical(old(world)) && Recovered(old(world), covered) ==>
        OnlyStuck(world) && NothingLeft(world, old(world).calls.Keys, scope)
    {
      var listing := ListPending(scope);
      NobodyIsStranded();
      if !listing.Listed? {
        return if listing.ListDead? then Dead else Deferred;
      }
      ghost var listed := world;
      ghost var clean := Steady(script) && AllCanonical(listed) && Recovered(listed, covered);
      p := TakeUp(scope, listing.pending, covered);
      NobodyIsStranded();
      if clean {
        var queue :| (forall c :: c in queue <==> c in listing.pending)
          && TakenUp(listed, world, queue, |queue|, covered);
        AllTakenUp(listed, world, queue, covered, scope);
      }
    }

    /** One pass: finish what an earlier run left behind, then take up new work. If every request
        is served, one pass finishes everything this executor may finish of what was parked when it
        began, whatever others park, claim and resolve meanwhile. */
    method Sweep(scope: Scope) returns (p: Progress)
      requires Valid()
      modifies this`world, this`history, this`script
      ensures Valid() && Carries(old(world), old(script), world, script)
      ensures StuckStay(old(world), world)
      ensures TookInScope(old(world), world, old(world.receipts.Keys), scope)
      ensures Steady(old(script)) ==> p.Done? || (p.Deferred? && scope.OneChat? && scope.chat in world.gone)
      ensures Steady(old(script)) && AllCanonical(old(world)) ==>
        OnlyStuck(world) && NothingLeft(world, old(world).calls.Keys, scope)
    {
      var covered;
      covered, p := Recover();
      if p.Done? {
        p := Discover(scope, covered);
      }
    }

    /** Sweep over and over; a sweep that died is followed by a new process over the same state. */
    method Run(scope: Scope, sweeps: nat)
      requires Valid()
      modifies this`world, this`history, this`script
      ensures Valid() && Inv(world) && StuckStay(old(world), world)
    {
      for i := 0 to sweeps
        invariant Valid() && StuckStay(old(world), world)
      {
        var p := Sweep(scope);
      }
      assert Consulted(0);
      HistoryKeepsInv(start, history);
    }
  }
}
