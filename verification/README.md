# Verified model of the RFC transaction protocol

This project models, in Dafny 4.11, how the RFC MCP server keeps SAP units of work apart while
many callers share a bounded pool of connections, and proves what the server promises about
it. Run `dafny verify dfyconfig.toml` in this directory.

## The transaction and connection protocol

A first write takes a connection from the pool and pins it to a new transaction ID. Later
writes, commit and rollback name that ID and reach the same connection under a lock of their
own. Expiry, discard after an error and shutdown race with those calls. The pool underneath
has a semaphore and a LIFO idle list, and opens connections outside its lock.

It is modelled twice.

**As a step machine over threads** (`Protocol*.dfy`). Any number of threads call the public
methods of `ExecutionInvoker`, `ConnectionPool` and `PooledCaller`. Every lock, semaphore and
RFC boundary is a program counter; one step takes a lock or executes what is between two
boundaries (`ProtocolSteps.Next`). What the code does not decide - outcomes of calls, pings and
opens, policy and validation results, new names - is a parameter of the step, so a property of
all runs is a property of all interleavings under all outcomes. SAP is part of the state: what
each connection has staged, and a log of what became durable. A transaction is fresh, live,
detached (out of the table, its connection still owed) or done.

| file | content |
|---|---|
| `ProtocolState`, `ProtocolSteps` | the state, the program counters, the steps, runs |
| `ProtocolInvariant` | the inductive invariant, stated over the role each thread plays |
| `ProtocolEffects`, `ProtocolConnections`, `ProtocolTransactions`, `ProtocolPreservation`, `ProtocolRuns` | every step keeps it |
| `ProtocolSafety`, `ProtocolTheorems` | ownership, no inherited work, permits, the connection bound |
| `ProtocolProgress`, `ProtocolTermination` | no deadlock; every call ends |
| `ProtocolFootprint`, `ProtocolEndings`, `ProtocolHistory`, `ProtocolDeadlines` | what events say, one ending per transaction, isolation, refused calls, expiry |
| `ProtocolRequests`, `ProtocolCalls`, `ProtocolOutcomes` | whole calls from entry to return: what is done was asked for and authorised, no return before an answer, what commit, rollback and writes come to, where connections go, what a sweep must not miss |
| `ProtocolShutdown` | what close() and close_all() leave behind; every connection is closed by one step |

**As the classes themselves, one request at a time** (`ConnectionPool.dfy`,
`ExecutionInvoker.dfy`), with their mutable idle list, ordered table and loops. They refine an
abstract machine `id -> (connection, last use, staged writes)` (`TransactionModel.dfy`), about
which `TransactionGuarantees.dfy` proves what every request does in every outcome.

## The other parts

`StructureResolver.dfy`, `StructurePaths.dfy` and `StructureLookups.dfy` (recursive flattening with
depth cap and seen-set, and the lookups it makes), `ResultTransform.dfy` and `ResultRows.dfy`
(conversion and limits), `ParamMapper.dfy` and `ExecutionPolicy.dfy` (the table that is checked is
the table that is sent), `TTLCache.dfy`, `FunctionCatalog.dfy` and `InterfaceCatalog.dfy` (cached
against uncached discovery), `Retry.dfy` (both backoff loops).
`Common.dfy` holds shared vocabulary.

## Where the code does less than one might read into it

- Search keys are joined with a bar, so a pattern or group that contains one can be given the
  answer to a different search; requests without one never are
  (`FunctionCatalogs.TransparentIff`, with `BarsCollide` as an input).
- The interface cache is keyed by the name in upper case but stores the name as the first
  caller wrote it, so another spelling gets an interface under that name
  (`InterfaceCatalogs.CachedEqualsUncachedIff`, with `OtherSpellingIsReturned` as a history).
- A value for QUERY_TABLE that is empty or otherwise false is sent without having been
  compared with the denied tables (`ExecutionPolicies.DeniedExactlyWhen`, with
  `EmptyTableIsSent` as an input).
- A negative row limit does not stop a value without any table
  (`ResultTransform.RowLimitIsExact`, with `NegativeLimitPasses` as an input). Configured
  limits are at least one (src/rfc_mcp/config.py:27), so only a `ResultLimitPolicy` built
  directly can have such a limit.

## Assumptions

- Transaction IDs and connection objects are new when they are made, so that "this object is
  in the table" is membership of its ID.
- `time.monotonic()` never goes backwards. Times are integers.
- RFC calls, pings and opens return or raise an `Exception`; they do not hang, and no thread is
  interrupted by a `BaseException`.
- A commit RFC that returns has committed the work staged on its connection; one that raises may
  or may not have. A write RFC that raises leaves arbitrary work staged on its connection.
- Closing a connection drops its uncommitted work. A rollback that returns has dropped it.
- An authorised read that returns stages nothing, and the commit and rollback function modules
  are not called as ordinary functions (denied by default, src/rfc_mcp/config.py:131-132).
- The semaphore times out only when no permit is free.
- `str.upper`, `str.strip`, `json.dumps` and the renderings of dates, decimals and bytes are
  arbitrary functions, with the laws used stated as hypotheses: stripping twice is stripping
  once; upper case maps character by character, leaves upper-case characters alone and neither
  makes nor removes a bar.

## Model

| member | source | states |
|---|---|---|
| `ProtocolRuns.Reachable` | src/rfc_mcp/execution/invoker.py:101-146 | every state of every run, with any number of threads, satisfies the protocol invariant: who holds which lock, where each connection is, what each transaction still owes, what is staged where |
| `ProtocolRuns.KeepNext` | src/rfc_mcp/execution/invoker.py:190-284 | every atomic step of every public method, under every outcome of every call, keeps that invariant |
| `ProtocolTheorems.EveryStateIsSafe` | src/rfc_mcp/sap/connection.py:102-151 | in every run each open connection has exactly one holder (idle list, one thread, one unfinished transaction), closed ones have none, no two threads call on one connection, permits add up to the pool size and connections never outnumber it |
| `ProtocolTheorems.EveryStateCanGoOn` | src/rfc_mcp/execution/invoker.py:101-115 | in every run no thread is stuck: it can move, or waits on one that can, or on one that waits on one that can; the semaphore wait is made without holding a lock |
| `ProtocolSafety.ExclusiveOwnership` | src/rfc_mcp/sap/connection.py:112-151 | an open connection is idle, or in one thread's hands, or pinned by one transaction: exactly one of the three, in every interleaving of checkout, release and close_all |
| `ProtocolSafety.OneCallerPerConnection` | src/rfc_mcp/execution/invoker.py:127-146 | at most one thread is calling on a connection, also while close() detaches a transaction whose write is still running |
| `ProtocolSafety.CallerOwns` | src/rfc_mcp/execution/invoker.py:101-111 | whoever calls on a connection borrowed it or holds the lock of the transaction that pins it |
| `ProtocolSafety.ClosedIsGone` | src/rfc_mcp/sap/connection.py:95-100 | a connection that was closed is in nobody's hands, so it is neither used nor closed again |
| `ProtocolSafety.WriteOutlivesShutdown` | src/rfc_mcp/execution/invoker.py:101-115 | a write past its currency check is on a live transaction, or on one that a closing thread has on its list and whose lock it has yet to get: that shutdown's rollback or close covers it |
| `ProtocolSafety.NobodyInheritsWork` | src/rfc_mcp/execution/invoker.py:208-246 | idle connections and connections borrowed for a read have no staged work; the connection of a current transaction has exactly the writes it executed |
| `ProtocolSafety.PermitsAreConserved` | src/rfc_mcp/sap/connection.py:118-145 | free permits, permits of threads inside checkout, a borrowed call or release, and unfinished transactions add up to pool_size in every state: the unbounded semaphore is never over-released |
| `ProtocolSafety.ConnectionsAreBounded` | src/rfc_mcp/sap/connection.py:112-134 | idle, lent-out and being-opened connections never exceed pool_size, although opening happens outside the pool lock |
| `ProtocolSafety.AtRest` | src/rfc_mcp/execution/invoker.py:200-204 | with no call in flight every lock is free, the table is exactly the unfinished transactions, and free permits are pool_size minus open transactions |
| `ProtocolProgress.NoDeadlock` | src/rfc_mcp/execution/invoker.py:242-268 | a chain of waits has at most two links and ends in a thread that can move: blocking waits on a transaction lock are made while holding nothing, table lock and pool lock are innermost, expiry only try-locks |
| `ProtocolProgress.Blocker` | src/rfc_mcp/execution/invoker.py:129-133 | whoever is waited on does not itself wait for a transaction lock |
| `ProtocolProgress.SemaphoreWaitHoldsNothing` | src/rfc_mcp/sap/connection.py:118-123 | the semaphore, whose wait can time out, is waited for without any lock |
| `ProtocolTermination.EveryCallEnds` | src/rfc_mcp/execution/invoker.py:75-146 | from any moment on, a thread inside a method makes at most a bounded number of its own steps before it leaves, whatever the others do in between; the bound depends only on where it is, the pool size and its own lists |
| `ProtocolTermination.OwnStepUses` | src/rfc_mcp/sap/connection.py:124-131 | every own step uses up the bound, also in the dead-candidate loop while others refill the idle list |
| `ProtocolEndings.ExactlyOneEnding` | src/rfc_mcp/execution/invoker.py:208-284 | each transaction is removed once, for one of commit, rollback, expiry, discard and shutdown; its connection is given back exactly once; SAP is asked to commit it once if the reason is commit and never otherwise |
| `ProtocolHistory.Isolation` | src/rfc_mcp/execution/invoker.py:75-125 | the durable log is exactly the sequence of applied commits, each contributing exactly the writes its own transaction had executed, in order, in every interleaving |
| `ProtocolHistory.UnitOfWork` | src/rfc_mcp/execution/invoker.py:208-240 | the durable writes of a transaction are all the writes it ever executed, in order, if SAP applied its commit, and none otherwise |
| `ProtocolHistory.NeverDurable` | src/rfc_mcp/execution/invoker.py:127-146 | writes of open, rolled-back, expired, discarded and shut-down transactions are never durable |
| `ProtocolHistory.CommitIsDurable` | src/rfc_mcp/execution/invoker.py:119-121 | after a commit that returned, what is durable of the transaction is what it had executed by then, and it executes nothing more in the rest of the run |
| `ProtocolHistory.Affinity` | src/rfc_mcp/execution/invoker.py:93-111 | every RFC for a transaction (write, commit, or the rollback of whoever ends it) is made on the connection it was created with and changes the staged work of no other |
| `ProtocolShutdown.ShutdownIsComplete` | src/rfc_mcp/execution/invoker.py:127-146 | after any interleaved history and with calls still in flight: if nothing enters the table after close() emptied it, and nothing the idle list after close_all() did, then when the last call has left the table and idle list are empty, all permits free, every transaction done, and every connection closed by exactly one step |
| `ProtocolShutdown.QuietShutdownIsComplete` | src/rfc_mcp/mcp/server.py:86-88 | after any interleaved history that has come to rest, close() and then close_all(), by one thread or two and whichever calls fail, leave nothing open, all permits free, nothing more durable, and every connection closed by exactly one step |
| `ProtocolShutdown.ClosedByOneStep` | src/rfc_mcp/sap/connection.py:95-100 | in every run the steps that close a connection are one if it is closed and none if it is not |
| `ProtocolShutdown.ClosedForEver` | src/rfc_mcp/sap/connection.py:95-100 | a closed connection stays closed |
| `ProtocolShutdown.NextTraffic` | src/rfc_mcp/sap/connection.py:124-151 | a step adds to the table only by inserting a first write's transaction and fills an empty idle list only by pushing, and it closes exactly the connection it calls close on |
| `ProtocolHistory.NoLateWrite` | src/rfc_mcp/execution/invoker.py:217-219 | while commit, rollback, expiry or discard finishes a transaction, and ever after, no write of it executes |
| `ProtocolDeadlines.LateCallIsRefused` | src/rfc_mcp/execution/invoker.py:101-103 | once a transaction was removed, every later call and every call already waiting on its lock raises TransactionNotFoundError in a step that touches no connection, transaction or permit |
| `ProtocolDeadlines.ExpiryIsSafe` | src/rfc_mcp/execution/invoker.py:242-268 | what a sweep removes was last used before now minus the time to live, its lock is the sweeper's, and nobody has a call in progress on its connection |
| `ProtocolDeadlines.ExpiredWasUnused` | src/rfc_mcp/execution/invoker.py:116-117 | no write of an expired transaction was acknowledged within the time to live before its removal |
| `ProtocolCalls.EveryEventWasAskedFor` | src/rfc_mcp/execution/invoker.py:75-125 | in every interleaving every event is the doing of a thread inside a call that asked for it: a commit or a requested rollback only in a call for just that transaction and ending, a write only with the data, and on the transaction, that were asked for, shutdown only in close(); writes, commits and rollbacks began with a sweep whose cutoff is the entry time minus the time to live |
| `ProtocolCalls.ServedThroughout` | src/rfc_mcp/execution/invoker.py:208-225 | from entry to return a thread acts for the request it entered with: transaction ID, commit or rollback, and data at every program counter are the requested ones |
| `ProtocolCalls.AnsweredBeforeReturn` | src/rfc_mcp/execution/invoker.py:75-117 | no call returns before its request is answered: done, refused for an unknown transaction, or failed for one of the listed reasons (denied or invalid, no permit while none is free, no connection, a call that raised) |
| `ProtocolCalls.AcceptedFirst` | src/rfc_mcp/execution/invoker.py:96-100 | a thread gets to a permit, a connection or a transaction only after policy and parameter validation accepted its request |
| `ProtocolCalls.LookupsAreCounted` | src/rfc_mcp/execution/invoker.py:97-98 | a pending request has made, or has still to make, exactly the catalog lookups its interface needs: none skipped, none twice, none after one that failed |
| `ProtocolCalls.SameSubject` | src/rfc_mcp/execution/invoker.py:100-117 | a write call checks, writes to, acknowledges or discards one transaction only: the one that was named or the one it made |
| `ProtocolCalls.EveryOutcomeIsPossible` | src/rfc_mcp/execution/invoker.py:61-146 | runs are not restricted: from outside every request and both shutdowns can be entered, and a thread that no lock stops can move under every outcome of its call |
| `ProtocolOutcomes.RollbackIsHonoured` | src/rfc_mcp/execution/invoker.py:123-125 | a rollback that returns was refused, or no write of its transaction is durable at any later moment |
| `ProtocolOutcomes.CommitIsHonoured` | src/rfc_mcp/execution/invoker.py:119-121 | a commit that returns was refused, or it made the one commit RFC of its transaction, and ever after the durable work of the transaction is what it had executed by then if SAP took the commit and nothing if not |
| `ProtocolOutcomes.WriteOutcome` | src/rfc_mcp/execution/invoker.py:104-117 | a write whose RFC returned a result within the limits counts as a use of its transaction and its call then ends nothing; any other write has ended its transaction for good by the time its call returns |
| `ProtocolOutcomes.GivenBackAsReturned` | src/rfc_mcp/sap/connection.py:102-145 | after the read, commit or rollback RFC on it, a connection becomes the last of the idle list if the RFC returned, and is closed if it raised |
| `ProtocolOutcomes.IdleIsAStack` | src/rfc_mcp/sap/connection.py:124-151 | a connection given back goes on top of the idle list, checkout takes from the top and opens a new one only when there is none, close_all() takes all, and no other step touches the list |
| `ProtocolOutcomes.SweepIsThorough` | src/rfc_mcp/execution/invoker.py:242-268 | a sweep misses nothing: every transaction in its copy of the table was, at some moment of the sweep, out of the table, used within the time to live before the call, or locked by somebody else |
| `TransactionModel.TrimEndsAlive` | src/rfc_mcp/sap/connection.py:124-130 | checkout hands out the last live idle connection, closes the dead ones behind it, last first, and looks at no other |
| `TransactionModel.CheckoutSound` | src/rfc_mcp/sap/connection.py:112-134 | every connection ever opened stays idle, lent or closed, in one of these places and once; permits add up; a connection handed out was lent to nobody |
| `TransactionGuarantees.CheckoutExactly` | src/rfc_mcp/sap/connection.py:112-134 | checkout times out if and only if no permit is free; with a permit it lends the live idle connection given back last; with none live it opens one by the first attempt that is not a communication error, within the retries, or raises that attempt's error with the permit free again |
| `TransactionModel.EndAllEffect` | src/rfc_mcp/execution/invoker.py:250-265 | rolling back a list of transactions removes exactly those, gives each connection back once, reusable if and only if its rollback succeeded, and makes nothing durable |
| `TransactionModel.ExpiryIsComplete` | src/rfc_mcp/execution/invoker.py:242-268 | an uncontended sweep leaves exactly the entries with last_used at or after the cutoff; each removed one is rolled back and released once, reusable if and only if the rollback succeeded |
| `TransactionGuarantees.SuccessExtends` | src/rfc_mcp/execution/invoker.py:104-117 | a successful write extends the named entry by that write, sets its last use, and changes no other entry, no connection and no permit |
| `TransactionGuarantees.FailureLoses` | src/rfc_mcp/execution/invoker.py:113-115 | a failed write removes the named entry alone and closes its connection |
| `TransactionGuarantees.WriteFrames` | src/rfc_mcp/execution/invoker.py:88-117 | beyond expiry, policy and parameter errors and unknown IDs change nothing; an RFC or result-limit failure removes exactly that transaction, closes its connection and frees its permit; success extends only the named transaction |
| `TransactionGuarantees.FinishFrames` | src/rfc_mcp/execution/invoker.py:208-240 | commit and rollback remove exactly the named transaction; a returned commit appends exactly its work to what is durable and a rollback nothing; the connection becomes idle if the RFC returned and is closed if it raised; refusals change nothing beyond the sweep |
| `TransactionGuarantees.FirstWriteFrames` | src/rfc_mcp/execution/invoker.py:200-206 | a first write that fails leaves table and permits as they were; one that succeeds adds one entry with that one write |
| `TransactionGuarantees.WriteOutcomes` | src/rfc_mcp/execution/invoker.py:88-117 | every way a write can end, with a transaction or without: denied and invalid requests do nothing beyond the sweep; a first write has the outcome of checkout and of its call, and whatever fails after checkout closes the connection; a named transaction is unknown if and only if it is not in the table, and else the outcome is that of the call |
| `TransactionGuarantees.ReadFrames` | src/rfc_mcp/execution/invoker.py:61-73 | a read touches neither the table nor what is durable nor the number of permits; denied and invalid reads do nothing; its connection becomes the last idle one if and only if the call returned, and is closed otherwise; the result says which |
| `TransactionGuarantees.ServedIsSound` | src/rfc_mcp/execution/invoker.py:61-125 | any sequence of writes, reads, commits and rollbacks keeps every connection in exactly one place and the permits adding up |
| `TransactionGuarantees.ShutdownIsComplete` | src/rfc_mcp/mcp/server.py:86-88 | for the classes, after any requests served one at a time and whichever rollbacks fail: invoker.close() then pool.close_all() leave an empty table, all permits free, an empty idle list, and every connection ever opened closed exactly once |
| `ConnectionPools.ConnectionPool.PopLive` | src/rfc_mcp/sap/connection.py:124-130 | the loop over idle candidates takes the last live one, closes exactly the dead ones behind it in the order they were popped, and changes nobody's staged work |
| `ConnectionPools.ConnectionPool.constructor` | src/rfc_mcp/sap/connection.py:55-59 | an empty idle list, all permits free, nothing opened |
| `ConnectionPools.ConnectionPool.Checkout` | src/rfc_mcp/sap/connection.py:112-134 | the loop over the idle list, the retry loop and the permit refine the abstract checkout; no other connection's staged work changes |
| `ConnectionPools.ConnectionPool.Release` | src/rfc_mcp/sap/connection.py:136-145 | a reusable connection goes to the end of the idle list with its staged work, another is closed and loses it; the permit is given back either way |
| `ConnectionPools.ConnectionPool.CloseAll` | src/rfc_mcp/sap/connection.py:147-151 | the idle list is emptied and every connection in it closed, in order |
| `ExecutionInvokers.ExecutionInvoker.ExpireTransactions` | src/rfc_mcp/execution/invoker.py:242-268 | the sweep over the dict refines the abstract sweep |
| `ExecutionInvokers.ExecutionInvoker.ExpireOne` | src/rfc_mcp/execution/invoker.py:246-268 | one candidate: kept if used at or after the cutoff, else removed, rolled back and released; the candidates behind it are untouched |
| `ExecutionInvokers.ExecutionInvoker.FirstWrite` | src/rfc_mcp/execution/invoker.py:200-206 | checkout, a new entry at the end of the dict, and the write refine the abstract first write |
| `ExecutionInvokers.ExecutionInvoker.Discard` | src/rfc_mcp/execution/invoker.py:270-273 | whatever the failed call left on the connection, the transaction is gone and its connection closed, and every other transaction is as before the call |
| `ExecutionInvokers.ExecutionInvoker.CallTransactional` | src/rfc_mcp/execution/invoker.py:75-117 | a write request refines the abstract one, with every error path |
| `ExecutionInvokers.ExecutionInvoker.RunWrite` | src/rfc_mcp/execution/invoker.py:101-117 | the block under the transaction's lock: call, limits, discard or touch |
| `ExecutionInvokers.ExecutionInvoker.FinishTransaction` | src/rfc_mcp/execution/invoker.py:208-240 | commit and rollback refine the abstract ones, including commits that raise |
| `ExecutionInvokers.ExecutionInvoker.EndCall` | src/rfc_mcp/execution/invoker.py:217-240 | the block under the transaction's lock: remove, commit or rollback RFC, release as reusable if and only if it returned |
| `ExecutionInvokers.ExecutionInvoker.Return` | src/rfc_mcp/sap/connection.py:102-110 | the end of acquire(): the borrowed connection goes back and no transaction notices |
| `ExecutionInvokers.ExecutionInvoker.RollbackAll` | src/rfc_mcp/execution/invoker.py:132-146 | the loop of close(): every pending transaction is rolled back and released once, in the order of the dict |
| `ExecutionInvokers.ExecutionInvoker.Call` | src/rfc_mcp/execution/invoker.py:61-73 | a read refines the abstract one: borrow, one call, give back, limits, with every error path |
| `ExecutionInvokers.ExecutionInvoker.Close` | src/rfc_mcp/execution/invoker.py:127-146 | close() empties the table first and then rolls everything back: the abstract shutdown |
| `StructureResolver.ResolveLoop` | src/rfc_mcp/discovery/structure_resolver.py:28-60 | the recursion with its loop computes the specified list or error and makes exactly the specified lookups, in order |
| `StructureResolver.ResolveRow` | src/rfc_mcp/discovery/structure_resolver.py:39-58 | one row: nothing if unnamed, else its field and then the fields of the structure it refers to |
| `StructureResolver.ResolveStructureFields` | src/rfc_mcp/discovery/structure_resolver.py:13-25 | the entry point: nothing for an empty name, else the resolution from an empty seen-set |
| `StructurePaths.FlatteningIsPreOrder` | src/rfc_mcp/discovery/structure_resolver.py:37-60 | a successful resolution lists, in pre-order, the fields of exactly the non-repeating paths no longer than the cap |
| `StructurePaths.FlatteningIsComplete` | src/rfc_mcp/discovery/structure_resolver.py:19-32 | over a finite, possibly cyclic universe and under a cap of at least the number of unseen structures, the list is the pre-order of all non-repeating paths, whatever their length |
| `StructurePaths.CapIsIrrelevant` | src/rfc_mcp/discovery/structure_resolver.py:29-32 | over a finite, possibly cyclic universe every cap of at least the number of unseen structures gives the same list |
| `StructurePaths.DeeperIsLonger` | src/rfc_mcp/discovery/structure_resolver.py:58 | the list for a cap is a subsequence of the list for the next cap |
| `StructurePaths.LookupsAreBounded` | src/rfc_mcp/discovery/structure_resolver.py:34-58 | with at most b rows per structure at most 1 + b + ... + b^(d-1) lookups are made |
| `StructurePaths.FailureIsTheLastLookup` | src/rfc_mcp/discovery/structure_resolver.py:34-35 | a resolution fails exactly when a lookup does, with that error, and makes no lookup after it |
| `StructureLookups.LookupsAreTheNewStructures` | src/rfc_mcp/discovery/structure_resolver.py:29-58 | a successful resolution makes exactly one lookup, in pre-order, for each path that leads within the depth cap to a named structure through different ones |
| `ResultTransform.Convert` | src/rfc_mcp/execution/result_transform.py:50-78 | the shared counter with early abort raises if and only if the total length of all tables at every depth exceeds the limit; otherwise the value is converted whole and the counter moved by that total |
| `ResultTransform.ConvertItems` | src/rfc_mcp/execution/result_transform.py:56-59 | the dict comprehension keeps keys and order and shares the counter |
| `ResultTransform.ConvertRows` | src/rfc_mcp/execution/result_transform.py:60-67 | the list comprehension keeps the order and shares the counter |
| `ResultTransform.SafeRenders` | src/rfc_mcp/execution/result_transform.py:50-78 | the converted value has the same dicts, keys, tables and rows in the same order at every depth, texts and plain values as they were, and for every date, time, decimal or bytes its text |
| `ResultTransform.NothingSpecialIsLeft` | src/rfc_mcp/execution/result_transform.py:68-78 | and nothing that JSON has no form for is left at any depth |
| `ResultTransform.RenderingIsUnique` | src/rfc_mcp/execution/result_transform.py:50-78 | these two properties determine the converted value |
| `ResultRows.TotalCountsRows` | src/rfc_mcp/execution/result_transform.py:60-66 | the total that the limit is compared with is the number of positions, at any depth, that are rows of a table |
| `ResultTransform.RowLimitIsExact` | src/rfc_mcp/execution/result_transform.py:61-66 | 'raises' means 'the total exceeds the limit' if and only if the value has a table or the limit is not negative |
| `ResultTransform.NegativeLimitPasses` | src/rfc_mcp/execution/result_transform.py:61-66 | a value without tables passes a limit of minus one |
| `ResultTransform.Apply` | src/rfc_mcp/execution/result_transform.py:26-42 | the whole value in JSON-safe form, or an error: too many rows, not serialisable, or too many bytes, each exactly when it is so |
| `ResultTransform.SafeIsIdempotent` | src/rfc_mcp/execution/result_transform.py:45-78 | converting a converted value changes nothing |
| `ResultTransform.SafeKeepsRows` | src/rfc_mcp/execution/result_transform.py:56-67 | conversion keeps the row total at every depth |
| `ResultTransform.LimitsCommuteWithConversion` | src/rfc_mcp/execution/result_transform.py:26-47 | a value passes the limits if and only if its converted form does |
| `ParamMapper.BuildCallKwargs` | src/rfc_mcp/execution/param_mapper.py:16-44 | it succeeds if and only if every supplied key is known up to case and every required IMPORT parameter is supplied; then its domain is exactly the interface names supplied, each with the value of the last key that spells it |
| `ParamMapper.AcceptedExactly` | src/rfc_mcp/execution/param_mapper.py:20-36 | a call is accepted if and only if each key is a parameter name up to case and each IMPORT parameter that is neither optional nor has a default is supplied up to case |
| `ParamMapper.MapsExactly` | src/rfc_mcp/execution/param_mapper.py:39-44 | a name is sent if and only if it is a parameter's and some key spells it, with the value of the last key that does |
| `ParamMapper.UnknownPicks` | src/rfc_mcp/execution/param_mapper.py:20-24 | the error about unknown parameters names exactly the keys that no parameter has, in order |
| `ParamMapper.MissingPicks` | src/rfc_mcp/execution/param_mapper.py:26-36 | the error about missing parameters names exactly the required ones without a key, in order |
| `ParamMapper.Collect` | src/rfc_mcp/execution/param_mapper.py:39-44 | the loop that fills the arguments |
| `ParamMapper.MappingIsUnique` | src/rfc_mcp/execution/param_mapper.py:39-44 | the two properties determine the arguments |
| `ParamMapper.ByUpper` | src/rfc_mcp/execution/param_mapper.py:17-18 | of keys that differ only in case, the last one wins |
| `ParamMapper.MappingIsIdempotent` | src/rfc_mcp/execution/param_mapper.py:39-44 | mapping its own output again, in any order, returns the same result |
| `ExecutionPolicies.UpperDictHasLastValues` | src/rfc_mcp/execution/policy.py:90-92 | the value the policy looks up is that of the last key that spells the name, in any case |
| `ExecutionPolicies.DecisionExactly` | src/rfc_mcp/execution/policy.py:57-77 | a denied table stops a call in every mode before anything else; else a read needs its name allowed, a write a read_write server and its name allowed, and no other mode is accepted |
| `ExecutionPolicies.CheckedTableEqualsSentTable` | src/rfc_mcp/execution/policy.py:88-92 | the value inspected is the value sent under every interface parameter of that name, and one is sent only if one was inspected |
| `ExecutionPolicies.DeniedTableIsNeverSent` | src/rfc_mcp/execution/policy.py:57-63 | an authorised generic table reader never sends the name of a denied table as a true value |
| `ExecutionPolicies.DeniedExactlyWhen` | src/rfc_mcp/execution/policy.py:57-63 | a table reader is stopped for its table if and only if the value it would send is true in Python's sense and names a denied table |
| `ExecutionPolicies.EmptyTableIsSent` | src/rfc_mcp/execution/policy.py:88-92 | an input where it is not: the empty name is denied, and is authorised and sent |
| `TTLCaches.TTLCache.Get` | src/rfc_mcp/discovery/cache.py:22-31 | the unexpired value, and removal of an expired one |
| `TTLCaches.TTLCache.Set` | src/rfc_mcp/discovery/cache.py:33-35 | the value with its expiry |
| `TTLCaches.TTLCache.Clear` | src/rfc_mcp/discovery/cache.py:45-47 | nothing is left |
| `TTLCaches.GetReturnsTheLastSet` | src/rfc_mcp/discovery/cache.py:22-47 | after any interleaving get returns the value of the last set since the last clear exactly while it is not older than the time to live, else nothing |
| `FunctionCatalogs.KeysCoincideOnlyUpToCase` | src/rfc_mcp/discovery/catalog.py:40 | search keys of requests without a bar in the pattern coincide only if the requests are equal up to case |
| `FunctionCatalogs.KeyIsUnambiguousIff` | src/rfc_mcp/discovery/catalog.py:40 | a key identifies its request up to case if and only if neither pattern nor group contains a bar |
| `FunctionCatalogs.BarsCollide` | src/rfc_mcp/discovery/catalog.py:40 | a concrete collision: pattern A&#124;B in group C, and pattern A in group B&#124;C |
| `FunctionCatalogs.FunctionCatalog.DoSearch` | src/rfc_mcp/discovery/catalog.py:42-63 | the uncached search: the rows up to the limit as Python slices them, without unnamed ones |
| `FunctionCatalogs.FunctionCatalog.Search` | src/rfc_mcp/discovery/catalog.py:37-65 | a hit is returned, a miss is computed and stored, an error is not stored |
| `FunctionCatalogs.SummariesPickNamedRows` | src/rfc_mcp/discovery/catalog.py:50-62 | the answer has exactly the named rows among those within the limit, in order |
| `FunctionCatalogs.LimitedRows` | src/rfc_mcp/discovery/catalog.py:50 | a limit bounds the rows and otherwise keeps them; a negative one drops that many at the end |
| `FunctionCatalogs.AnswerExactly` | src/rfc_mcp/discovery/catalog.py:42-63 | the search sends the group only if it is not empty, and its answer has one summary, with the stripped fields and the remote flag, for each named row within the limit, in order |
| `FunctionCatalogs.CacheIsTransparent` | src/rfc_mcp/discovery/catalog.py:40-65 | after any interleaving, whatever the other callers search for, a hit for a request without a bar is the answer SAP would give now, if answers ignore case and are stable for the time to live from before the call |
| `FunctionCatalogs.TransparentIff` | src/rfc_mcp/discovery/catalog.py:40-65 | the cache is transparent for a request if and only if neither its pattern nor its group contains a bar |
| `FunctionCatalogs.BarsLeakAnswers` | src/rfc_mcp/discovery/catalog.py:40-65 | for every request with a bar there is one, different by more than case, whose stored answer it gets |
| `InterfaceCatalogs.ParametersPick` | src/rfc_mcp/discovery/catalog.py:73-104 | an interface has exactly the named parameters of a known class, in order, each with the fields of its structure; it fails exactly if one of these structures cannot be resolved |
| `InterfaceCatalogs.ParametersExactly` | src/rfc_mcp/discovery/catalog.py:73-104 | each parameter has the class its code I, E, T or C stands for, is optional if and only if its flag is X, TRUE or 1 up to case, and has the fields its structure resolves to; exactly the named rows with one of these codes become parameters |
| `InterfaceCatalogs.InterfaceExactly` | src/rfc_mcp/discovery/catalog.py:70-120 | the uncached interface reports, under the name as asked for, exactly what the repository says: parameters with the fields the data dictionary gives under the configured depth, and the named exceptions; it fails exactly if the definition or a parameter's structure cannot be had |
| `InterfaceCatalogs.ExceptionsPick` | src/rfc_mcp/discovery/catalog.py:106-116 | and exactly the named exceptions, in order |
| `InterfaceCatalogs.InterfaceCatalog.BuildParameters` | src/rfc_mcp/discovery/catalog.py:73-104 | the loop over parameter rows, with a resolution for each structure |
| `InterfaceCatalogs.InterfaceCatalog.BuildExceptions` | src/rfc_mcp/discovery/catalog.py:106-116 | the loop over exception rows |
| `InterfaceCatalogs.InterfaceCatalog.DoGetInterface` | src/rfc_mcp/discovery/catalog.py:70-120 | the uncached interface, under the name as this caller wrote it |
| `InterfaceCatalogs.InterfaceCatalog.GetInterface` | src/rfc_mcp/discovery/catalog.py:67-122 | a hit under the upper-case name is returned; a miss is built and stored under it with this caller's spelling; an error is not stored |
| `InterfaceCatalogs.CachedEqualsUncachedIff` | src/rfc_mcp/discovery/catalog.py:67-122 | while the last fill under the name's key has not expired, the answer equals an uncached one if and only if that fill was made for the same spelling; otherwise it differs in the name alone |
| `InterfaceCatalogs.OtherSpellingIsReturned` | src/rfc_mcp/discovery/catalog.py:68 | a history where it differs: a lookup of one spelling after a fill for another |
| `Retry.OpenWithRetry` | src/rfc_mcp/sap/connection.py:69-83 | all attempts but the last failed with a communication error, the last one did not unless the retries were used up, the result is its result, and the total sleep is base * (2^k - 1) |
| `Retry.GetWithRetry` | src/rfc_mcp/adt/client.py:82-100 | all attempts but the last were transport failures or server errors, the last one was not unless the retries were used up; 2xx gives the body, any other status or failure its error; the sleep is the same sum |
| `Retry.EndingIsFirst` | src/rfc_mcp/sap/connection.py:71-83 | attempt k ends the loop exactly if all before it failed retryably and it either did not or was the last allowed |
| `Retry.SleepIsBounded` | src/rfc_mcp/config.py:56-57 | under the configured cap of ten retries the total sleep is at most 1023 times the base delay |

## Left out

- pyrfc, the SAP SDK, httpx and exception translation: a call returns, fails as a communication error, or fails otherwise.
- fnmatch, JSON encoding, UTF-8 and pydantic validation: library behaviour, present as arbitrary predicates and functions.
- The allow and deny lists of PolicySettings: read off directly; they appear as predicates.
- MCP tools, server wiring, command line, diagnostics, demo backend, logging, health check, `source_reader.py`, `tools_source.py`: plumbing and single branches.
- `call_transactional` in read mode: its sweep and read are steps of the protocol; that it refuses a transaction ID or an unknown mode is a single branch.
- The permission check of commit and rollback inside the step machine: a denied one does not enter (`TransactionGuarantees.FinishFrames` has it).
- Starvation: `EveryCallEnds` bounds a thread's own steps; that a waiting thread eventually gets its lock depends on the fairness of Python's locks.
- The pauses between retries inside the step machine: opening a connection with all its retries is one step; `Retry` has the loops.
- ExecutionInvokers.ExecutionInvoker.CallTransactional: the interface is already cached; catalog lookups on borrowed connections are steps of the protocol and `Call` here.
- ExecutionInvokers.ExecutionInvoker.ExpireTransactions: `_ActiveTransaction` is a value in the dict, not an object, and its lock is free; aliasing and contention are in the step machine.
- ConnectionPools.ConnectionPool.Checkout: with one request at a time an empty semaphore always times out; waiting is in the step machine.
- Method calls on a dict entry that was replaced under the same ID: excluded by new IDs.
- StructureResolver.ResolveLoop: the attributes of a row other than its name are copied as a whole; parsing of integers in them is not modelled.
- InterfaceCatalogs.InterfaceCatalog.DoGetInterface: all lookups for one interface are answered as of one moment; in the source they are made one after the other.
