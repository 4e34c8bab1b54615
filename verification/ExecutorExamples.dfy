/** A run of the folder executor that never comes to an end with one of its receipts. */
module ExecutorExamples {
  import opened Prelude
  import opened ExecutorProtocol
  import opened FolderExecution

  const CHAT: ChatId := 1
  const CALL: CallId := 5

  /** A new profile, and one well-formed call that nobody has claimed. */
  function OneParked(): World {
    var row := Call(CHAT, RequestFolderAccess, true, true, 0, None, Pending);
    World(9, map[CALL := row], {}, [], map[], [], [], [], [], [], Quiet)
  }

  /** The process dies with the receipt just written. Then the call gets its result elsewhere, and
      the chat is deleted. */
  method LeaveAReceipt() returns (before: World, executor: FolderExecutor)
    ensures Init(before) && AllCanonical(before)
    ensures fresh(executor) && executor.Valid() && executor.script == []
    ensures AllCanonical(executor.world) && Stuck(executor.world, CALL)
  {
    before := OneParked();
    executor := new FolderExecutor(before, []);
    executor.Do(Announce(CALL, 3));
    executor.Do(Crash);
    executor.Do(OtherResolves(CALL, INTERRUPTED));
    executor.Do(DeleteChat(CHAT));
  }

  /** However often the executor sweeps from then on, answered at every request, the receipt stays. */
  method AReceiptStaysForGood(sweeps: nat) returns (before: World, executor: FolderExecutor)
    ensures Init(before) && AllCanonical(before)
    ensures fresh(executor) && executor.Valid() && CALL in executor.world.receipts
  {
    before, executor := LeaveAReceipt();
    executor.Run(AllChats, sweeps);
  }
}
