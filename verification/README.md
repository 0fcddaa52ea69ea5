# Properties of ronykit

Dafny models of the parts of ronykit whose behaviour is hardest to see from the code, with proofs
of what they promise. `dafny verify dfyconfig.toml` checks everything.

- **Handler chain** (`HandlerChain`, `HandlerChainLaws`). Handlers are programs over Next,
  StopExecution and effects. `Context.Next` is the re-entrant loop; its runs are given an
  independent nested meaning, from which the laws of entering, nesting and stopping follow.
- **Remote execution** (`RemoteExecution`, `Forwarding`, `Bridge`, `BridgeInvariant`,
  `BridgeSafety`, `BridgeLiveness`, `BridgeDelivery`, `BridgeCode`). Nodes, goroutines, carriers in
  flight, sessions and connection locks form a step machine; a run is any interleaving, with carriers reordered or lost and timers firing at any
  moment. `BridgeCode` is the code itself, statement by statement: each of its methods performs
  steps of that machine with the steps of everybody else in between, so what holds of the
  machine's runs holds of it.
- **Batcher** (`Batcher`, `BatcherInvariant`, `BatcherLaws`, `BatcherLiveness`, `BatcherOrder`,
  `BatcherCode`, `P2PCluster`). In the same way: producers, a bounded channel, permits under a spinlock, workers;
  and on top of it the message order that the p2p cluster restores.
- **Agent turn** (`AgentSkills`, `AgentTurn`, `AgentLaws`, `SessionHistory`). A bounded loop
  against any model and any tools: what each iteration generates and what each executed call
  yields are arbitrary functions. The loop is proved to have the outcome and the events of a
  recursive meaning of turns, of which the laws are proved.
- **Linked list** (`LinkedList`). The heap structure with its shared node pool.
- **Buffers** (`PowersOfTwo`, `BufferPool`). Bit smearing on 64-bit integers, one bit at a time;
  the pool with the buffers that clients hold.
- **Errors** (`ErrorTree`, `ErrorText`, `ErrorCodec`, `ErrorDecoder`, `ErrorLaws`,
  `FailureConverter`). Error trees, the writers onto a token stream, the readers, the round trip,
  and failures wrapped to any depth.
- **Schedule migration** (`Migration`, `MigrationLaws`). Every backend call consumes an answer that decides whether
  it fails and whether it takes effect nevertheless; where the answers end is an arbitrary moment
  of an arbitrary run.
- **Text** (`Transform`, `FilterPrinter`, `Srl`). Delimited case, workflow filters with a reader
  of the filter language, resource locators.

Goroutine code is modelled with a list of turns: a step of somebody else, or the next step of the
goroutine at hand. Every method keeps a record of the run, and its contract says which steps in it
are the method's own, in which order. A turn is used for a step or lost at a statement that blocks,
and the turns to come, used and lost add up; a method whose turns run out stops where it is and says
so, which makes its contract one about every moment of every run.

Where code and comments disagree, the code is followed. `handleToolCall` is said always to return
a message of the tool role; `enrichToolMessage` keeps whatever role the tool gave its message. The
forwarder's comment says that a forwarded request should be forwarded again; it is not. `Unmarshal`
is said to return nil on failure; it returns what it had built, next to the error. The error texts
of a panic are put in quotes twice, so the fallback that should carry them is not JSON. The least
power of two is promised for every argument; arguments up to 0 come back as they are.

## Model

| member | source | states |
|---|---|---|
| `HandlerChain.Context.Next` | kit/ctx.go:158-164 | runs everything left of the chain, with handlers that call Next and StopExecution at any depth: the events are those of the nested meaning Onion, for every chain shorter than the abort index; terminates by handlers and actions left |
| `HandlerChain.Context.Perform` | kit/ctx.go:158-171 | one action of a handler: Next, StopExecution or an effect, and where the chain stands after it |
| `HandlerChain.Context.Run` | kit/ctx.go:158-164 | the rest of a handler's body, and what the chain does inside it |
| `HandlerChain.Context.StopExecution` | kit/ctx.go:166-171 | moves the index past every handler |
| `HandlerChainLaws.EnteredInOrder` | kit/ctx.go:158-171 | handlers are entered at most once, in index order, as a contiguous prefix ending with the first one that stops |
| `HandlerChainLaws.AllReachedUnlessStopped` | kit/ctx.go:158-171 | all handlers are entered exactly when none but the last stops before calling Next |
| `HandlerChainLaws.RunsExactlyOnce` | kit/ctx.go:158-164 | a handler that is reached is entered once, does its actions in order and is left once; any other does nothing |
| `HandlerChainLaws.WellNested` | kit/ctx.go:158-164 | every event belongs to the innermost open handler; what a Next has entered is left before it returns |
| `HandlerChainLaws.NothingNewAfterControl` | kit/ctx.go:158-171 | after StopExecution, or once any Next has come back, nothing new is entered: all that follows a handler completes inside its first Next |
| `RemoteExecution.WrapContract` | kit/contract.go:94-100 | applies the wrappers in order |
| `RemoteExecution.RegisteredChain` | kit/contract.go:104-120 | a registered contract runs the forwarder (when it has a selector and there is a bridge), then the global handlers, then its own, and keeps its identity |
| `RemoteExecution.EdgeServer.RegisterService` | kit/edge.go:162-192 | panics exactly for a name that is taken, changing nothing; otherwise the registry holds every contract of the service, wrapped |
| `RemoteExecution.ResolvesToOwnContract` | kit/contract_lookup.go:7-28 | an id of a registered service resolves to its last contract of that id behind forwarder and global handlers; ids it does not define keep their old meaning |
| `RemoteExecution.KeyInjective` | kit/contract_lookup.go:5-9 | within a service, different ids have different keys |
| `RemoteExecution.KeysCanMeet` | kit/contract_lookup.go:5-9 | two services can have a key in common exactly if the name of one, with the separator, begins the name of the other, with the separator |
| `RemoteExecution.OtherServicesAreLeftAlone` | kit/contract_lookup.go:5-28 | registering a service leaves the ids of services of other names as they were, for names without a colon |
| `RemoteExecution.RegisteredRun` | kit/ctx.go:131-140 | the chain that a request on a registered contract with a selector runs |
| `RemoteExecution.ExclusiveExecution` | kit/bridge_south.go:236-296 | the contract's handlers run at this node, each once and whole, exactly when the forwarder does not try to send the request away; if it tries, whether or not that succeeds, none of them runs here |
| `RemoteExecution.SendsOnce` | kit/bridge_south.go:251-296 | the forwarder tries to send, once, exactly for a request that was not forwarded, when the selector names another node |
| `RemoteExecution.ForwardedRunsHere` | kit/bridge_south.go:252-257 | a request that arrived from another node is executed here and never sent on, whatever this node's selector says |
| `BridgeInvariant.StepKeepsInv` | kit/bridge_south.go:69-403 | every atomic step of every goroutine, of the network and of the timers keeps the invariant of tasks, carriers, connections, locks and sessions |
| `BridgeInvariant.RunKeepsInv` | kit/bridge_south.go:69-403 | so does every run, whatever the interleaving |
| `BridgeInvariant.TaskKept` | kit/bridge_south.go:69-403 | each step keeps what is true of each task: whose carrier it executes or handles, whose lock it holds, what it may still publish, and that its callback has not run yet |
| `BridgeInvariant.CarrierKept` | kit/bridge_south.go:153-346 | each step keeps what is true of each published carrier: who published it, for which session, and where its publisher stands |
| `BridgeInvariant.ConnKept` | kit/bridge_south.go:103-128 | each step keeps what is true of each connection: its forwarder waits on it or has returned, the holder of its lock is a carrier of its session, and once an eof has closed it its session is out of the map |
| `BridgeInvariant.CallKept` | kit/bridge_south.go:375-389 | each step keeps what is true of each callback started: it was for an outgoing carrier of the connection's session, and no carrier has two |
| `BridgeSafety.ClosedForever` | kit/bridge_south.go:371-403 | once a session's eof has been handled, in every continuation no carrier of it ever starts or runs the callback again and the session is gone from inProgress |
| `BridgeSafety.ForwarderReturnsLast` | kit/bridge_south.go:251-296 | in every run in which neither this session's timeout nor this request's context fires, whatever other sessions' timers do, the forwarder has returned only when no callback of its session runs, and none ever runs after that |
| `BridgeSafety.EarlyReturnNeedsTimer` | kit/bridge_south.go:284-290 | a callback that runs after its forwarder has returned implies that a timer or the request's context ended the session |
| `BridgeSafety.SessionsAreIsolated` | kit/bridge_south.go:298-315 | a callback only sees replies that the execution of its own request wrote, for its own session |
| `BridgeSafety.RepliesGoHome` | kit/bridge_south.go:317-346 | every outgoing and eof carrier targets the node its session came from |
| `BridgeSafety.SingleHop` | kit/bridge_south.go:252-257 | an incoming carrier is published only for a gateway request, at most once, whatever the selectors of the nodes answer |
| `BridgeSafety.NeverForwardsToItself` | kit/bridge_south.go:259-266 | no node ever sends a request away to itself, or to a node without a name |
| `BridgeSafety.OneEofAfterReplies` | kit/bridge_south.go:153-215 | an execution that does not panic publishes exactly one eof, to the origin, after all its replies; one that panics publishes none |
| `BridgeSafety.CallbacksAreSerialised` | kit/bridge_south.go:371-403 | at most one carrier of a session is past the connection's lock |
| `BridgeLiveness.TimeoutOvertakesCallback` | kit/bridge_south.go:284-290 | a timeout lets the forwarder return at once while a callback runs |
| `BridgeLiveness.CallbackMayOutliveForwarder` | kit/bridge_south.go:284-290 | such a state is reachable: with timers the forwarder may return while a callback still writes |
| `BridgeLiveness.WaitsForEver` | kit/bridge_south.go:283-290 | a session whose eof can no longer be handled keeps its forwarder waiting in every run without its timers |
| `BridgeLiveness.StepKeepsTraced` | kit/bridge_south.go:84-128 | every step keeps: a carrier taken from the network is in the hands of one task, the session of an open connection is in the map unless an eof has just taken it out, and a handled eof leaves its connection ended |
| `BridgeLiveness.ReturnsIffEofToCome` | kit/bridge_south.go:251-403 | a waiting forwarder can return without its own timers exactly unless its connection is open, the execution will publish no eof and every published one is lost or has been handled: in all other states some schedule of the others makes it return |
| `BridgeLiveness.EarlyEofStrandsForwarder` | kit/bridge_south.go:275-283 | such a session is reachable without losing a carrier: an eof that arrives before the session is registered finds no connection |
| `BridgeDelivery.CalledBackIffOpen` | kit/bridge_south.go:84-151 | an outgoing carrier at its look-up can still have its callback, without any timer, exactly if its session has an open connection whose lock no eof has, or is still to be registered; if neither, no schedule of any kind starts it |
| `BridgeDelivery.HandledRepliesWereCalledBack` | kit/bridge_south.go:84-101 | in every run an outgoing carrier whose handling is over has had its callback, unless its session was not in the map at the look-up or its connection was done at the test |
| `BridgeCode.SouthBridges.HandleCarrierMessage` | kit/bridge_south.go:84-101 | the code of an outgoing or eof carrier: the look-up, which finds a connection exactly if the carrier's session was in the node's map just before; then lock, test, what the test says, unlock; these are exactly the task's steps in the recorded run, whatever happens in between |
| `BridgeCode.SouthBridges.GetConn` | kit/bridge_south.go:145-151 | finds the connection that the map has for the carrier's session in the state just before the look-up, and none exactly if it has none |
| `BridgeCode.SouthBridges.HandleCarrier` | kit/bridge_south.go:371-403 | exactly lock, test, callback or end of session or neither, unlock; the callback only for an outgoing carrier, the end only for an eof |
| `BridgeCode.SouthBridges.Dispatch` | kit/bridge_south.go:375-400 | test, and then nothing if the context has ended, else the callback, or for an eof delete and cancel |
| `BridgeCode.SouthBridges.LockConn` | kit/bridge_south.go:372-372 | waits for the connection's lock, losing a turn only while it is taken, and takes it |
| `BridgeCode.SouthBridges.EndSession` | kit/bridge_south.go:390-399 | takes the session out of the map, then cancels it: two steps, done whenever there are two turns; the session is then closed and out of the map |
| `BridgeCode.SouthBridges.Forwarder` | kit/bridge_south.go:251-296 | exactly decide, or decide and a failed send, or decide, send, register and wait; stops the chain exactly when it has tried to send the request away, and leaves a session it opened only when that is done |
| `BridgeCode.SouthBridges.SendMessage` | kit/bridge_south.go:217-234 | adds exactly one incoming carrier, to the target, under a session id no carrier has; a failed publish takes the session out of the map |
| `BridgeCode.SouthBridges.CreateSenderConn` | kit/bridge_south.go:103-128 | adds exactly one connection, open and unlocked, and puts the session into the map |
| `BridgeCode.SouthBridges.Select` | kit/bridge_south.go:284-290 | returns once the session has ended, or on the request's context, which then ends the session |
| `BridgeCode.SouthBridges.Finish` | kit/bridge_south.go:191-211 | exactly the end of the chain and one eof, for the origin; nothing else of this execution is published |
| `BridgeCode.SouthBridges.WriteEnvelope` | kit/bridge_south.go:317-346 | publishes one reply to the origin |
| `BridgeCode.ComesLater` | kit/bridge_south.go:69-403 | the machine after a call is the one before it after a further run, so what holds of all runs carries across calls |
| `BatcherInvariant.StepKeepsInv` | x/batch/batcher.go:105-189 | every atomic step of every producer and worker keeps conservation, signalling, one-slot channels, batch shapes, permits and the spinlock's discipline |
| `BatcherInvariant.RunKeepsInv` | x/batch/batcher.go:105-189 | so does every interleaving |
| `BatcherLaws.ExactlyOnePlace` | x/batch/batcher.go:125-187 | in every interleaving each entered entry is in exactly one place, once: with its producer, in the channel, in one worker's batch, or flushed |
| `BatcherLaws.SignalledOnceAfterFlush` | x/batch/batcher.go:180-187 | each entry is flushed at most once and signalled at most once, only after its flush |
| `BatcherLaws.WaitReturnsAfterFlush` | x/batch/entry.go:24-30 | EnterAndWait returns only after the entry was flushed and signalled |
| `BatcherLaws.SignalNeverBlocks` | x/batch/entry.go:28-30 | done never blocks on the one-slot channel |
| `BatcherLaws.BatchSizes` | x/batch/batcher.go:147-159 | batches are not empty and hold at most batchSize entries |
| `BatcherLaws.WorkersBounded` | x/batch/batcher.go:105-123 | there are at most maxWorkers workers; outside the spinlock, workers, workers about to run and permits left add up to exactly maxWorkers |
| `BatcherLiveness.FlushableIffSomebodyLooks` | x/batch/batcher.go:105-189 | the first entry in the channel can be flushed without another call of Enter exactly when there may be workers and some worker or producer will still look into the channel, place by place in the code |
| `BatcherLiveness.StrandedUntilNextEnter` | x/batch/batcher.go:170-178 | if nobody will, the channel and what has been flushed stay as they are until somebody enters again, whatever the others do |
| `BatcherLiveness.EntryCanBeStranded` | x/batch/batcher.go:170-178 | such a state is reachable: the last worker has seen the channel empty but still has its permit when an entry comes in |
| `BatcherOrder.FlushesInSendOrder` | x/batch/batcher.go:141-189 | with one permit the flushed batches, one after the other, are a prefix of the order in which the channel got the entries, across worker exits and restarts |
| `BatcherCode.LiveBatcher.Enter` | x/batch/batcher.go:125-134 | Enter and EnterAndWait: exactly send, startWorker's steps, return are this caller's steps in the recorded run; a waiting call returns with its entry flushed once and signalled |
| `BatcherCode.LiveBatcher.StartWorker` | x/batch/batcher.go:105-123 | lock, count, then unlock and start a worker, or put the permit back and unlock |
| `BatcherCode.LiveBatcher.Wait` | x/batch/entry.go:24-26 | takes the signal, after the flush |
| `BatcherCode.LiveBatcher.WorkerRun` | x/batch/batcher.go:141-189 | the worker's loop under any interleaving: it ends only with drained, lock, give back, unlock as its last steps, so after the last batch it has looked once into the empty channel and does not look again |
| `BatcherCode.LiveBatcher.Collect` | x/batch/batcher.go:147-159 | takes one entry per step from the front of the channel until the batch is full or the channel is found empty |
| `BatcherCode.LiveBatcher.LeaveOrFlush` | x/batch/batcher.go:170-187 | takes the lock; leaves if the batch is empty, else flushes and signals it |
| `BatcherCode.LiveBatcher.Leave` | x/batch/batcher.go:172-178 | gives the permit back and unlocks: two steps, done whenever there are two turns |
| `BatcherCode.LiveBatcher.FlushAndSignal` | x/batch/batcher.go:180-187 | unlock, flush, one signal per entry: the batch has been flushed and each entry signalled, never blocking |
| `BatcherCode.ComesLater` | x/batch/batcher.go:105-189 | the machine after a call is the one before it after a further run |
| `P2PCluster.SortedIsAscending` | std/clusters/p2pcluster/cluster.go:248-252 | sorting yields an ascending permutation of the batch, for distinct sequence numbers |
| `P2PCluster.AscendingIsUnique` | std/clusters/p2pcluster/cluster.go:248-252 | there is only one such permutation |
| `P2PCluster.SentAsReceived` | std/clusters/p2pcluster/cluster.go:202-231 | one receiving goroutine per node enters a sender's messages in order of arrival |
| `P2PCluster.SegmentsSorted` | std/clusters/p2pcluster/cluster.go:189-194 | each batch is a consecutive segment of arrivals, the segments following each other, and what is delivered in its place is the ascending permutation of it; nothing else is delivered |
| `P2PCluster.InOrderStaysInOrder` | std/clusters/p2pcluster/cluster.go:244-257 | messages that arrive in order are delivered in order: what is delivered is a prefix of what arrived |
| `P2PCluster.TagsAreIndependent` | x/batch/batcher.go:49-69 | the batchers of different tags do not influence each other |
| `P2PCluster.SendersKeepTheirOrder` | std/clusters/p2pcluster/cluster.go:189-257 | many senders at once, in any interleaving with one receiving goroutine: each one's messages are delivered in sorted consecutive segments of their order of arrival, and in order if they arrive in order |
| `LinkedList.NodePool.Acquire` | kit/utils/linked_list.go:19-26 | hands out a blank node, reused or new |
| `LinkedList.NodePool.Release` | kit/utils/linked_list.go:28-31 | blanks a node and pools it |
| `LinkedList.LinkedList.Append` | kit/utils/linked_list.go:54-70 | the list holds its old elements and the new one at the end; links stay mutually inverse and acyclic, size is the length, list and pool share no node |
| `LinkedList.LinkedList.Prepend` | kit/utils/linked_list.go:72-88 | the list holds the new element and then its old ones; links stay mutually inverse and acyclic, size is the length, list and pool share no node |
| `LinkedList.LinkedList.PickHeadData` | kit/utils/linked_list.go:102-126 | takes the first element; its node goes to the pool; links stay mutually inverse and acyclic, size is the length, list and pool share no node |
| `LinkedList.LinkedList.PickTailData` | kit/utils/linked_list.go:132-157 | takes the last element; its node goes to the pool; links stay mutually inverse and acyclic, size is the length, list and pool share no node |
| `LinkedList.LinkedList.Get` | kit/utils/linked_list.go:158-178 | the node at the index for lists shorter than 2^30; in general the walk the doubled, wrapping size chooses, with nil and the nil dereference past the end |
| `LinkedList.LinkedList.RemoveAt` | kit/utils/linked_list.go:180-194 | strictly between the ends deletes exactly that element; at either end, where head or tail still points to the node, no list is left at all |
| `LinkedList.LinkedList.Reset` | kit/utils/linked_list.go:196-199 | takes elements up to the first nil one |
| `LinkedList.ResetEmpties` | kit/utils/linked_list.go:196-199 | Reset empties exactly the lists without a nil element before the last one |
| `PowersOfTwo.FillBits` | kit/utils/buf/bytes.go:224-233 | fills every bit below the highest one, for all 63-bit arguments |
| `PowersOfTwo.CeilToPowerOfTwo` | kit/utils/buf/bytes.go:208-222 | panics exactly above 2^62; for 1 <= n the result is the least power of two from n on; arguments up to 2 come back as they are |
| `PowersOfTwo.CeilIsLeastPowerOfTwo` | kit/utils/buf/bytes.go:206-222 | the rounded value is the least power of two |
| `PowersOfTwo.StopsIffBelowHeadBit` | kit/utils/buf/bytes.go:201-203 | the doubling loop ends exactly when the maximum is below 2^62 |
| `PowersOfTwo.LogarithmicRange` | kit/utils/buf/bytes.go:196-204 | yields the doublings of the rounded minimum up to the maximum |
| `PowersOfTwo.RangeIsThePowersOfTwo` | kit/utils/buf/bytes.go:194-204 | for every min from 0 on they are exactly the powers of two from min to max |
| `BufferPool.BytesPool.New` | kit/utils/buf/bytes.go:120-130 | panics exactly for min above 2^62; the size classes are exactly the powers of two from min to max, for every min from 0 on |
| `BufferPool.BytesPool.Get` | kit/utils/buf/bytes.go:134-153 | panics exactly for n > c, c > 2^62 or n < 0; else a buffer of length n and capacity at least c that nobody else holds and that shares memory with no other, reused or new |
| `BufferPool.BytesPool.Put` | kit/utils/buf/bytes.go:188-192 | keeps a reset buffer exactly when its capacity is that of a class |
| `BufferPool.Bytes.Release` | kit/utils/buf/bytes.go:105-108 | empties the buffer and gives it back; pooled buffers of class k have capacity k, length 0 and read index 0 |
| `BufferPool.Bytes.Write` | kit/utils/buf/bytes.go:19-23 | appends, in place or in a new array |
| `BufferPool.Bytes.Read` | kit/utils/buf/bytes.go:25-34 | copies from the read index, reporting the end one byte early |
| `BufferPool.ReadAllMayLoseTheLastByte` | kit/utils/buf/bytes.go:25-34 | reading m bytes at a time until the end is reported loses the last byte exactly when the bytes before it fill whole reads |
| `ErrorTree.ErrorMessage` | rony/errs/error.go:213-242 | the loop builds the non-empty messages joined by a colon and a space |
| `ErrorTree.MessageOfChain` | rony/errs/error.go:213-242 | an error's message is its own and after it that of the first *errs.Error below, or the text of what is below if there is none; empty ones are left out with their colon |
| `ErrorTree.JoinOfParts` | rony/errs/error.go:218-241 | joined messages are the joined parts with a colon and a space in between, unless one part is empty |
| `ErrorText.ParseOfPrint` | rony/errs/errmarshalling/fallback.go:88-119 | the token text of a JSON tree is read back as that tree, whatever follows |
| `ErrorCodec.Stream.WriteErr` | rony/errs/errmarshalling/jsonextention.go:128-143 | each error gets the encoder of its type; panics exactly when an error code on the way is invalid or a list holds nil, else writes exactly the text of the error's JSON tree |
| `ErrorCodec.Stream.WriteErrs` | rony/errs/error_internal.go:80-108 | the registered encoder of *errs.Error, commas included |
| `ErrorCodec.Stream.WriteMeta` | rony/errs/errmarshalling/marshal.go:120-160 | the metadata field, or the field that says why there is none |
| `ErrorCodec.Stream.WriteFallback` | rony/errs/errmarshalling/fallback.go:72-121 | the fallback encoder with its single or list of wrapped errors |
| `ErrorCodec.Stream.WriteAll` | rony/errs/errmarshalling/fallback.go:109-116 | a list of errors, in order; panics at the first that is nil or cannot be written |
| `ErrorCodec.Marshal` | rony/errs/errmarshalling/marshal.go:39-82 | null for nil, the text of the error, or for a panic a text that is not JSON |
| `ErrorDecoder.Unmarshal` | rony/errs/errmarshalling/marshal.go:88-103 | parses and decodes |
| `ErrorDecoder.UnmarshalError` | rony/errs/errmarshalling/marshal.go:88-116 | dispatches on the first @type |
| `ErrorDecoder.FallbackUnmarshal` | rony/errs/errmarshalling/fallback.go:24-70 | the fallback decoder's loop over fields and wrapped errors is the decoding function |
| `ErrorDecoder.ErrsUnmarshal` | rony/errs/error_internal.go:110-128 | the field reader of *errs.Error is the decoding function; an invalid code panics |
| `ErrorLaws.RoundTrip` | rony/errs/errmarshalling/marshal.go:39-103 | for every error tree and nil: Unmarshal of Marshal is the normal form exactly when the error is not nil, all codes met are 0..16 and no list holds nil; otherwise nothing is read |
| `ErrorLaws.DecodeOfJson` | rony/errs/errmarshalling/fallback.go:24-121 | the same on JSON trees |
| `ErrorLaws.NormalIsIdempotent` | rony/errs/errmarshalling/fallback.go:56-69 | normalising twice is normalising once |
| `ErrorLaws.SecondHopChangesNothing` | rony/errs/errmarshalling/marshal.go:39-103 | an error that came over the wire once comes over it again unchanged |
| `ErrorLaws.ReachedIsKeptIffPlain` | rony/errs/error.go:159-171 | the codes and messages errors.As reaches, in order, are unchanged exactly when no converted failure's wrapper holds an *errs.Error of its own |
| `ErrorLaws.FirstIsHeadOfReached` | rony/errs/error.go:159-171 | what errors.As finds first is the head of what it reaches |
| `ErrorLaws.NormalReachesTheInner` | rony/errs/error.go:159-171 | for every error, what errors.As reaches in the normal form is what it reaches through causes alone |
| `ErrorLaws.CodeOfNormal` | rony/errs/error.go:159-171 | for every error, the code of the normal form is that of the first *errs.Error reached through causes: unchanged exactly if that has the code of the first one reached at all |
| `ErrorLaws.TextOfNormal` | rony/errs/error.go:203-242 | for every error, Error() of the normal form is the text with its messages found through causes alone: unchanged exactly if that is the same text, as for whatever is no *errs.Error itself, or plain |
| `ErrorLaws.ObserversSurviveTheWire` | rony/errs/errmarshalling/marshal.go:39-103 | every error that can be written comes back with everything reached through causes, the code of the first of it and the text made of it; a plain one with all that errors.As reached, its code and its text |
| `ErrorLaws.WhatTheReceiverSees` | rony/errs/errmarshalling/marshal.go:39-103 | field by field: code, its name, message, metadata if encodable, no details, and of other errors the text and whether and how many errors they wrap |
| `ErrorLaws.LeastTexts` | rony/errs/errmarshalling/fallback.go:24-54 | a type and a message are read as that error, for *errs.Error with the code and its name, under the keys of the wire format |
| `ErrorLaws.RepeatedFields` | rony/errs/error_internal.go:110-128 | of two messages the later one counts, metadata objects add up, and null takes back what there was |
| `ErrorLaws.UnknownFieldsAreSkipped` | rony/errs/error_internal.go:110-128 | fields that the decoders do not know change nothing, wherever they stand |
| `FailureConverter.ErrsErrorsRoundTrip` | flow/failure_converter.go:65-145 | an error that contains an *errs.Error comes back as its normal form exactly when the codec reads it, else as what the fallback makes of the bare information |
| `FailureConverter.RetriesAreRuledOutByTheFirst` | flow/failure_converter.go:65-76 | NonRetryable is exactly the business predicate of the first *errs.Error's code |
| `FailureConverter.BusinessCodesByName` | flow/failure_converter.go:160-172 | the codes that rule out retries are exactly those of ten names |
| `FailureConverter.CodeSurvivesConversion` | flow/failure_converter.go:108-172 | every error that can be written comes back with what is reached through causes; its code survives exactly if the first of that has it |
| `FailureConverter.WrappersKeepTheError` | flow/failure_converter.go:78-106 | under any number of wrapper failures, what errors.As reaches is what the wrappers hold of their own, outermost first, and then all of the error |
| `FailureConverter.WrappersTellTheirTexts` | flow/failure_converter.go:180-201 | the text under any number of wrappers is the wrappers' texts, outermost first, each with a colon, and then the error's |
| `FailureConverter.CodeSurvivesWrappers` | flow/failure_converter.go:180-201 | so the code after any number of wrappers is that of the first of what the wrappers hold and then the error through causes; it survives wrappers that hold none if the error is plain |
| `FailureConverter.NextBoundaryKeepsTheError` | flow/failure_converter.go:65-127 | at the next boundary the converted error comes back as itself, with its text as message |
| `FailureConverter.OthersAreLeftToTheFallback` | flow/failure_converter.go:102-106 | a failure without a converted error in its chain is converted by the fallback alone |
| `AgentSkills.SkillState.Load` | intent/runtime.go:319-366 | fails exactly when the registry does; a tool listed by several skills belongs to the last; ungated base tools are always on |
| `AgentSkills.SkillState.Tools` | intent/runtime.go:375-389 | always-on tools first, then activate_skill with the names of the catalog in order, then the tools of active skills, no others |
| `AgentSkills.SkillState.Definitions` | intent/runtime.go:381-385 | the defined ones of a skill's tools |
| `AgentSkills.OfferedUnlessLocked` | intent/runtime.go:375-427 | an unlocked base tool is offered; a locked one only if another active skill lists it too |
| `AgentSkills.OfferedIsUnlockedIffNotShared` | intent/runtime.go:354-427 | offered and unlocked agree for every set of active skills exactly for the tools no two skills share |
| `AgentSkills.ActivationIsMonotone` | intent/runtime.go:393-427 | activating a skill takes no definition away and locks nothing |
| `AgentSkills.TheLastOneCounts` | intent/runtime.go:319-366 | after loading, a tool listed by several skills belongs to the last of them in the catalog, and of base definitions with one name the last is sent |
| `AgentTurn.Runtime.HandleToolCall` | intent/runtime.go:218-261 | activation, refusal of a locked tool, or execution with the call's id filled in |
| `AgentTurn.Runtime.HandleToolCalls` | intent/runtime.go:135-138 | the calls of one response in order |
| `AgentTurn.Runtime.SendRequest` | intent/runtime.go:107-117 | sends the request of the turn's meaning: context and transcript so far, or on the first iteration with skills the user's message with the catalog, and the tools on offer |
| `AgentTurn.Runtime.ComposeTools` | intent/runtime.go:431-437 | the base definitions without skills, the visible ones with skills |
| `AgentTurn.Runtime.Loop` | intent/runtime.go:106-143 | the loop's outcome and everything that happens in it are those of the turn's meaning, for any model and any tools |
| `AgentTurn.Runtime.RunTurn` | intent/runtime.go:71-154 | a turn begins exactly when memory, knowledge, retriever, tools, skills and model selection all answer, and succeeds exactly when the loop and the append do; then the stored history is old ++ new; a turn that fails before the append leaves the memory as it was |
| `AgentTurn.Runtime.BuildContext` | intent/runtime.go:156-205 | knowledge, retrieved entries and history, in this order; it fails exactly if one of them does, with the failure of the first asked, history before knowledge before retriever |
| `AgentLaws.GatedToolsWaitForActivation` | intent/runtime.go:218-261 | a skill's tool is executed only after that skill was activated earlier in the turn |
| `AgentLaws.RefusalsPrecedeActivation` | intent/runtime.go:230-251 | a call is refused only for a gated tool whose skill has not been activated before |
| `AgentLaws.RequestsOfferTheUnlockedTools` | intent/runtime.go:114-117 | each request offers activate_skill and, of the unshared base tools, exactly those not gated or whose skill was activated before it |
| `AgentLaws.RequestsOfferTheBaseTools` | intent/runtime.go:431-437 | without skills each request offers exactly the base tools |
| `AgentLaws.RequestsHoldTheTranscript` | intent/runtime.go:107-112 | the k-th request of every turn holds the context (knowledge, retrieved entries, history) and after it, on the first iteration with skills, the user's message with the catalog, else the user's message and the rounds of exactly the iterations before; of a turn that succeeds that is how the transcript begins |
| `AgentLaws.EveryCallHasItsEvent` | intent/runtime.go:106-143 | everything that happens in a turn: per iteration a request and then, for each call of its reply in order, the activation of the skill it names, its refusal, its execution, or nothing; and a last request unless every iteration calls tools |
| `AgentLaws.TurnsAreRounds` | intent/runtime.go:97-154 | a turn succeeds exactly when some iteration replies without tool calls and all before it reply with calls; its messages are the user's own message and one round per iteration, each an assistant message and, call by call, the answer to that very call, with its id and name unless the executed tool set others: the tool's own message, the instructions of the activated skill, the notice of the skill that unlocks the tool, or what went wrong; the last round is without calls; the limit is hit exactly when every iteration calls tools; the model is asked at most maxToolIterations times |
| `SessionHistory.LoadHistory` | intent/session.go:157-182 | exactly the messages stored under the history key, none if there is no record, or the failure of the search |
| `SessionHistory.SaveHistory` | intent/session.go:185-210 | fails exactly when one of its calls does; replaces the stored history and no other record; a failure leaves it or has replaced it |
| `SessionHistory.AppendHistory` | intent/session.go:213-226 | old ++ new, or unchanged |
| `SessionHistory.StoredIsFound` | intent/session.go:195-209 | saving under the id of the found record is seen by the next search of that key and by no other |
| `Migration.SchedulerMigrator.MigrateEntry` | flow/scheduler.go:259-313 | one entry, call by call: its result and both backends are those of the entry's meaning, with any call failing, effective or not |
| `Migration.SchedulerMigrator.MigrateListing` | flow/scheduler.go:258-314 | the loop over a listing: its result, what it saw and both backends are those of the pass's meaning |
| `Migration.SchedulerMigrator.Migrate` | flow/scheduler.go:238-326 | the loop of passes: its result, the completed passes, the listings and both backends are those of the migration's meaning |
| `MigrationLaws.EntryMoves` | flow/scheduler.go:259-313 | one entry loses and overwrites nothing; it counts as ignored exactly when the target did not describe it and the caller's check said so; when it is done and not ignored the target has it and, if asked, the source does not |
| `MigrationLaws.PassMoves` | flow/scheduler.go:258-314 | a pass that completes has settled every entry listed: ignored because the check said so, or in the target and, if asked, out of the source |
| `MigrationLaws.ErrorFreePassCompletes` | flow/scheduler.go:258-314 | a pass in which no call reports an error completes |
| `MigrationLaws.ErrorFreePassEmptiesTheSource` | flow/scheduler.go:258-314 | if it lists the source, nothing is ignored and deleting is asked for, it empties the source into the target |
| `MigrationLaws.MigrationIsSafe` | flow/scheduler.go:238-326 | at every point and however it ends nothing is lost or overwritten: what the target has got has the specification of the source's schedule, or the zero one if that has none, and its settings; the source changes only if asked to |
| `MigrationLaws.PassesAreSettled` | flow/scheduler.go:238-326 | every completed pass has settled its listing, and success comes only after an empty listing |
| `MigrationLaws.SuccessMeansEmptied` | flow/scheduler.go:245-326 | if listings list the source, success means that the source is empty |
| `MigrationLaws.NeverSucceedsWithoutDeleting` | flow/scheduler.go:245-326 | so without deleting, the migration of a source that holds anything never succeeds |
| `MigrationLaws.RetriesKeepEverything` | flow/scheduler.go:238-326 | after any number of migrations every original schedule is still in the source, or the target had one of its name before, or has one with the same specification, or the zero one for none, and the same settings |
| `Transform.ToScreamingDelimited` | kit/utils/transform.go:117-198 | the loop with its pending spaces computes, byte by byte, what each byte contributes |
| `Transform.SameLetters` | kit/utils/transform.go:117-198 | letters and digits are kept, in order, up to case, and the text at most doubles |
| `Transform.DelimitersStandWhereWordsEnd` | kit/utils/transform.go:117-198 | for any style: every byte has its image, with exactly one delimiter between two bytes wherever a low letter meets a capital, a letter a digit, or the last capital of a run begins a word, and nothing else |
| `Transform.BetweenNeighbours` | kit/utils/transform.go:161-187 | between the images of two adjacent letters or digits stands exactly one delimiter if the first is low and the second a capital, one is a letter and the other a digit, or both are capitals and a low letter follows; otherwise nothing |
| `Transform.CaseKeepsTheLetter` | kit/utils/transform.go:148-157 | changing the case keeps the letter's place in the alphabet and everything that is no letter |
| `Transform.FixedPointsAreTheSettledTexts` | kit/utils/transform.go:117-198 | the result is in one case, has no spaces and no other separators than the delimiter, and no letter next to a digit; the texts left alone are exactly those |
| `Transform.IdempotentIffSeparator` | kit/utils/transform.go:105-109 | converting twice is converting once for all texts exactly when the delimiter is no letter, digit or space |
| `FilterPrinter.ReadOfPrint` | flow/workflow_filter.go:28-76 | reading the text of any tree of filters yields the tree itself exactly when no value has a quote |
| `FilterPrinter.ReadOfTrimmed` | flow/workflow_filter.go:28-76 | and yields the tree with its values trimmed exactly when no trimmed value has a quote |
| `FilterPrinter.TrimTakesOuterQuotes` | flow/workflow_filter.go:53-72 | trimming takes off quotes at both ends, all of them, and nothing else |
| `FilterPrinter.TextsTellFiltersApart` | flow/workflow_filter.go:28-76 | different filters without quotes have different texts |
| `FilterPrinter.TextOfComparison` | flow/workflow_filter.go:53-76 | the text of each comparison and of a list, letter by letter |
| `FilterPrinter.CompoundIsParenthesized` | flow/workflow_filter.go:28-50 | the text of every AND and OR shows its operator, so as an operand it gets parentheses |
| `Srl.String` | kit/utils/srl/srl.go:110-134 | the loop writes each non-empty part with its glue |
| `Srl.Parse` | kit/utils/srl/srl.go:41-57 | the submatches of the pattern, by position |
| `Srl.ParseOfText` | kit/utils/srl/srl.go:41-134 | Parse(String(q)) == q exactly when storage has no colon or white space, path no @ or white space, id no line feed, and without a storage no colon precedes all white space |
| `Srl.ParseSplitsTheText` | kit/utils/srl/srl.go:41-57 | parsing any text splits it: the storage and its colon if a colon comes before any white space, the path up to the first @ or white space, and the rest, without an @ at its front, up to a line feed |
| `Srl.CombiningIsAMonoid` | kit/utils/srl/srl.go:61-90 | Append and Merge are associative with the empty locator as identity, Merge is idempotent |
| `Srl.LaterPartWins` | kit/utils/srl/srl.go:61-90 | a part that the second locator has wins, one that it lacks leaves the first one's; only two paths are both kept, by Append, with a colon |
| `Srl.Append` | kit/utils/srl/srl.go:61-76 | later non-empty parts, paths joined with a colon |
| `Srl.Merge` | kit/utils/srl/srl.go:79-90 | later non-empty parts |
| `Srl.Replace` | kit/utils/srl/srl.go:93-100 | all parts of the second |
| `Srl.Mix` | kit/utils/srl/srl.go:102-108 | each part is made from the two parts of its position |
| `Srl.AppendStaysReadable` | kit/utils/srl/srl.go:61-76 | appending readable locators, one of them with a storage, gives a readable one |
| `Srl.JoinedPathNeedsStorage` | kit/utils/srl/srl.go:61-76 | without a storage a joined path is never read back |

## Left out

- LinkedList.LinkedList.Get: does not model the locks, each operation being one step; out of range it states the walk to nil or the nil dereference, not a result.
- LinkedList.LinkedList.RemoveAt: at the first and last index states what goes wrong, not what a deletion would promise; the unlinked node is not returned to the pool, as in the code.
- PowersOfTwo.CeilToPowerOfTwo: does not model 32-bit platforms.
- PowersOfTwo.LogarithmicRange: is called only where its loop ends, which is exactly maxima below 2^62 for minima from 0 on.
- BufferPool.BytesPool.Get: does not model running out of memory, or clients that keep using a buffer after releasing it or share its memory through SetBytes.
- ErrorDecoder.Unmarshal: does not model the partial value returned next to an error; the first problem in the text decides.
- ErrorCodec.Marshal: abstracts JSON text to tokens, number formats and escapes included; panics inside metadata values and further registered error types are not modelled.
- FailureConverter.ErrsErrorsRoundTrip: takes the data converter as faithful and the fallback converter as any functions.
- AgentTurn.Runtime.RunTurn: abstracts rendered prompts to what they are rendered from, and lists the definitions of a request as a set; the order of active skills is that of a map.
- AgentSkills.SkillState.Load: takes a registry that does not change while it is read.
- BridgeLiveness.ReturnsIffEofToCome: says that the forwarder can return, not that every fair schedule lets it; a callback may run for ever.
- BridgeDelivery.CalledBackIffOpen: says that the callback can start, not that every fair schedule starts it.
- BatcherLiveness.FlushableIffSomebodyLooks: says that the entry can be flushed, not that every fair schedule flushes it; naps and flushes may last for ever.
- SessionHistory.AppendHistory: does not model two turns of one session at once, or messages that JSON changes.
- Migration.SchedulerMigrator.Migrate: takes two different backends and no other client; the minute of sleep between passes is not modelled.
- MigrationLaws.SuccessMeansEmptied: takes listings that list what the source holds; with listings that lag behind, success only means that one was empty.
- BatcherInvariant.RunKeepsInv: takes batch sizes of at least 1; with 0 the channel has no buffer and every entry blocks, with less making the channel panics.
- P2PCluster.SegmentsSorted: models sort.Slice as the sorting it promises, for distinct sequence numbers.
- HandlerChain.Context.Next: does not model chains of 2^62 handlers, for which StopExecution would not stop.
- Transform.SameLetters: is stated for conversions that ignore nothing; the loop itself is modelled with any ignored character.
- FilterPrinter.ReadOfPrint: takes names that are single words.
- Srl.Parse: models the regular expression by what its groups match first; a white-space character is one of the five that the expression means.
- BridgeSafety.ForwarderReturnsLast: assumes session ids that never repeat, as 32 random characters practically are.
- Carrier kinds other than incoming, outgoing and eof, trace propagation, header copying and message decoding of the bridge.
- The global registration maps of error marshallers, and the choice of encoder for error values inside metadata.
- ToCamel, whose result is not stable under repetition, and its acronym table.
- Context pooling: error and timeout fields survive a reset.
- Singleflight, reflection-driven description parsing, HTTP and WebSocket gateways, generators and the command line.
