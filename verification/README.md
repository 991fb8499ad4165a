# A model of pecl-memcache

The memcached client keeps a pool of servers and a set of requests. A request is written to a server's stream and its
reply is read back from it, many requests being under way on one stream at a time; when a server fails, its requests
move to others. Around that pool there are a consistent-hash ring that maps keys to servers, a session handler that
builds a distributed lock from `incr`, `add` and `set`, and a data layer of queues, parsers and value packing. This
project models these four parts and proves what they are for.

| modules | what they model |
|---|---|
| `Basics.dfy`, `Wrappers.dfy`, `Sequences.dfy`, `Queue.dfy` | shared types, the growing ring buffer, in place, and the duplicate-free sequence it stands for |
| `Routing.dfy` | the failover sequence of a key |
| `PoolModel.dfy`, `PoolRound.dfy` | the steps of the request pool as functions: schedule, failover, deactivate, retry, one `select()` round |
| `PoolInvariant.dfy`, `PoolFailover.dfy`, `PoolSteps.dfy`, `PoolTurns.dfy`, `PoolRuns.dfy` | the pool's invariant, and that cascades, turns, rounds and runs keep it |
| `PoolBytes.dfy`, `PoolProgress.dfy`, `PoolWaiting.dfy` | the bytes on a stream; turns told from what the sockets did; a run in which nothing fails ends with everything answered; sockets that are not ready and servers that are down |
| `PoolLanding.dfy` | where a scheduled request ends up, told beforehand |
| `PoolRetry.dfy`, `PoolRefused.dfy`, `PoolReconnect.dfy` | alignment through retries; refused reconnects, in a retry and after an early reply |
| `PoolClients.dfy`, `PoolExamples.dfy` | allocation, redundant copies and histories of calls; concrete pools in which something goes wrong |
| `RequestPool.dfy` | the pool as an object updated in place; each method is proved to compute the function of the same name |
| `SessionLock.dfy`, `SessionExact.dfy`, `SessionPatience.dfy`, `SessionServers.dfy` | the session lock as interleaved clients, with and without patience, and the servers that a read and a write visit |
| `ConsistentHash.dfy` | the ring, its binary search and the bucket table |
| `AsciiReply.dfy`, `AsciiStore.dfy`, `BinaryGet.dfy`, `Streams.dfy`, `Decimal.dfy` | the two protocols, fed in arbitrary pieces |
| `ValuePacking.dfy`, `UdpReassembly.dfy` | packing and unpacking of values, and payloads of UDP datagrams |

How the pool is modelled. Servers and requests live in tables, and pointers are indices into them. `wire` is a ghost of
the network: the requests of which at least one byte is on the current stream and whose reply was not read yet, in the
order in which the server sees them. A server answers in that order, so the parser that reads the next reply reads the
answer to `wire[0]`, and `log` records the pair of the two. What sockets do is data: a `Round` says which servers are
ready and what each `send()` and each parser call returns, and the set `up` says who accepts connections. The theorems
are about every such round. A failed server stays failed, because a run is shorter than `retry_interval`.

The main results about it. Every reachable pool is sound (`PoolClients.ReachableReached`): pipelines aligned, every
request in one place, each reply attributed, wakeup lists exact. The bytes on a stream are those of its requests, in
order and to the byte (`PoolBytes.StreamHolds`). A request that is scheduled or failed over ends where the probes and the
usable servers say, whatever other servers go down on the way (`PoolLanding.ScheduleLands`). A run goes on exactly as
long as a server is listed (`PoolRuns.RunExactly`), a failed server stays failed in it (`PoolWaiting.DownForGood`), and
one in which nothing fails ends with every request answered (`PoolProgress.RunFinishes`).

Results that are not what one would hope for are stated exactly:

- A completed reply may meet a refused reconnect with more requests queued. The server is then deactivated before the
  reply's request is released, so the answered request and the next one are failed over, the next one twice. Whether the
  pool is in order afterwards, wakeup lists included, with the answered request free, is decided by the probes and by
  which servers can be used (`PoolReconnect.CompletionExact`). `PoolExamples.AnsweredAndSentAgain` is a reachable pool
  of two servers and two requests after which an answered request is sent again. The theorems about rounds, runs and
  histories admit every reply that completes well in this sense, and it is enough that live servers accept a new
  connection (`PoolRuns.LiveUpKeeps`).
- A retry of a request may meet a refused connection in the same way. Pipelines stay aligned and every request in one
  place if and only if it does not, or the second failovers end where the first ones did (`PoolRefused.RetryExact`,
  `PoolExamples.RetryBreaks`).
- A redundant copy has the original's bytes if and only if the original is not itself the oldest request on the free
  list (`PoolClients.CloneExact`). It is on that list when its own schedule found no server, behind the requests that
  were free before. So a submit leaves the pool in order if and only if the request finds a server or enough other
  requests are free for its copies (`PoolClients.SubmitExactly`); in `PoolExamples.CopyOfItself` the only copy is the
  request itself, with its bytes gone.
- The servers of a request and its copies are pairwise distinct if and only if the probes name that many: the attempts'
  probes, or, where these fall short, the single probes that are made after the attempts are used up
  (`Routing.ReplicasDistinct`; `Routing.ReplicasRepeat` has a request and two copies on one server of three).
- On server 0 the session lock is at least 1 exactly while a client holds it. That all servers' locks tell so, in every
  interleaving, holds if and only if there is one server or at most one client, and so does the agreement of their data
  (`SessionExact.LocksTellExactly`, `SessionExact.DataAgreesExactly`, the runs in `SessionExact.OthersLag`). Server 0's
  lock alone is what gives exclusion and no lost update.
- A client that runs out of patience gets an empty session without the lock and writes it in the end. As long as none
  does, no update is lost (`SessionPatience.PatientRuns`); if they do, one can be lost if and only if there is more than
  one client (`SessionPatience.PatienceExactly`).
- The first n servers of a key's sequence differ if and only if the probes name that many
  (`SessionServers.VisitsDistinct`).
- The session's write loop ends if and only if the probes name as many servers as the redundancy asks for or as there
  are (`SessionServers.WriteEndsExactly`); `SessionServers.NeverEnds` has a key with which it does not.
- Points of two servers at one place make the ring depend on how `qsort` breaks ties, and nothing else does
  (`ConsistentHash.WellDefinedExactly`, with a tie in `ConsistentHash.TieSorted`).
- Every key of a binary multi-get is found under the reqid it was sent with if and only if no key pointer is appended
  twice (`BinaryGet.ReqidsExact`); `BinaryGet.KeyTwice` has a reqid that is sent for two keys.
- A request that is failed over keeps its parser. It reads every reply of the new server as it was printed if and only
  if it is between two values (`AsciiReply.FailoverExactly`); in the middle of a body it takes the new server's header
  lines for the value's body (`AsciiReply.TakenForBody`), and what it got before it gets again.
- A reply is delivered over UDP if and only if every datagram up to its last part is its next part or has a smaller
  request id (`UdpReassembly.HeardExactly`, in bytes `UdpReassembly.DeliveredExactly`). At a datagram of any other kind,
  strays of later requests and malformed ones included, the request leaves the stream (`UdpReassembly.StraysEndIt`). A
  first part that is lost goes unnoticed (`UdpReassembly.FirstLost`).
- A value stored compressed cannot be read back if and only if it is more than 32768 times its compressed size
  (`ValuePacking.RoundTripExactly`). The deflate format shrinks nothing by more than a factor of 1032, so with zlib
  every value is read back (`ValuePacking.RoundTrip`).
- A UDP datagram read while bytes are left in the buffer shows its last eight bytes twice, and one read on a drained
  buffer does not (`UdpReassembly.AddsPayloadExactly`, `UdpReassembly.ShownTwice`).

The comment at src/memcache_pool.c:653-654 (the read side always holds every active request) is right and is part of the
invariant. Where the invariant holds, the branch that asks for a retry of a request (src/memcache_pool.c:1376-1405) is
not taken for TCP connections that are not persistent: `PoolTurns.FailureIsHard`. Retries are modelled all the same, on
pools in any aligned state.

## Model

| member | source | states |
|---|---|---|
| RingQueue.Queue.Push | src/memcache_queue.c:29-54 | append-if-absent on the queue's contents, through growth and wrap-around |
| RingQueue.Queue.Grow | src/memcache_queue.c:32-42 | enlarging the array and moving the tail segment leaves the contents as they were |
| RingQueue.Queue.Append | src/memcache_queue.c:44-53 | storing at the next head slot adds the item behind the last one |
| RingQueue.Queue.Pop | src/memcache_queue.c:56-74 | takes the oldest item and leaves the rest in order; nothing from an empty queue |
| RingQueue.Queue.Contains | src/memcache_queue.c:76-88 | found if and only if the item is among the contents |
| RingQueue.Queue.Item | src/memcache_queue.h:38-38 | the i-th item counted from the oldest, wherever it lies in the ring |
| RingQueue.Queue.Copy | src/memcache_queue.c:97-107 | the target's contents equal the source's, which are unchanged |
| RingQueue.Queue.Remove | src/memcache_queue.c:109-121 | exactly the given item is gone, the others keep their order |
| Sequences.WithoutSplits | src/memcache_queue.c:109-121 | deletion from a duplicate-free sequence leaves what was before the item followed by what was behind it |
| Routing.FindNext | src/memcache_pool.c:1012-1026 | the first probe outside the skip list, every earlier one being in it, or the last one the attempts allow |
| Routing.FindNextLoop | src/memcache_pool.c:1019-1025 | the do-while loop finds that server and index |
| Routing.NextServer | src/memcache_pool.c:1049-1053 | the failed server and nothing but it and failed servers is skipped; a failed result means that attempts or servers ran out |
| Routing.Find | src/memcache_pool.c:1028-1043 | the key's own server unless it is down, else the first alternative that is up; a server that is down only if all alternatives are |
| Routing.FindsNewExactly | src/memcache_pool.c:1012-1026 | a server outside the skip list is found if and only if a probe the attempts allow, or the one probe always made, is outside |
| Routing.ReplicasDistinct | src/memcache_pool.c:1254-1256 | the servers of a request and its copies are pairwise distinct if and only if the probes name that many, a condition on the probes alone |
| Routing.ReplicasRepeat | src/memcache_pool.c:1254-1256 | a pool of three in which a request and both its copies go to one server |
| PoolModel.Schedule | src/memcache_pool.c:1202-1236 | terminates, and neither it nor any failover it causes gives attempts back |
| PoolModel.Failover | src/memcache_pool.c:1046-1069 | the mutual recursion with schedule terminates on the sum of remaining attempts |
| PoolModel.Deactivate | src/memcache_pool.c:636-683 | the cascade over the evicted requests terminates and gives no attempts back |
| PoolFailover.FailoverSpends | src/memcache_pool.c:1046-1060 | a failover that goes on strictly decreases the sum of remaining attempts over all requests, cascades included |
| PoolFailover.EnqueueLine | src/memcache_pool.c:1210-1233 | the request becomes the last of both the send line and the read line, the server is listed, and nothing else changes |
| PoolFailover.EnqueueOk | src/memcache_pool.c:1210-1233 | filling slots and queues keeps alignment, stream contents, exclusivity and wakeup lists |
| PoolFailover.ScheduleOk | src/memcache_pool.c:1202-1236 | schedule keeps the whole invariant; the request ends on exactly one server or in the free list with nothing left to try; live servers keep their stream and the order of their requests |
| PoolFailover.FailoverOk | src/memcache_pool.c:1046-1060 | the same for a failover, whatever other servers it brings down |
| PoolFailover.DeactivateOk | src/memcache_pool.c:636-683 | a deactivated server is down and empty, and every request it had is somewhere else exactly once or was given up |
| PoolFailover.FailoverAllOk | src/memcache_pool.c:671-674 | the loop over the failover handlers conserves all of them |
| PoolFailover.EvictedOk | src/memcache_pool.c:653-669 | read queue and read slot together hold exactly the server's active requests, as the comment there claims |
| PoolFailover.ClearOk | src/memcache_pool.c:640-669 | taking a server out of both lists and emptying it keeps the invariant |
| PoolFailover.ReleaseOk | src/memcache_pool.c:1058-1058 | a released request is tracked by the free list alone |
| PoolSteps.ReplyBelongs | src/memcache_pool.c:1624-1644 | the next reply on a stream answers the request in the read slot; while that is still being sent, no byte of a later request is on the stream |
| PoolSteps.SendHead | src/memcache_pool.c:1547-1551 | the send slot's request is the first of the read line that is not sent in full, followed by the send queue |
| PoolSteps.PartServerOk | src/memcache_pool.c:212-221 | a partial write keeps the server's pipeline and stream in step |
| PoolSteps.FullServerOk | src/memcache_pool.c:1547-1551 | completing a request and moving the next one into the send slot keeps them in step |
| PoolSteps.AnsweredServerOk | src/memcache_pool.c:1624-1644 | taking a reply off the stream and moving the read slot keeps them in step |
| PoolSteps.DroppedServerOk | src/memcache_pool.c:1624-1644 | after an early reply the dropped stream and the two moved slots are in step again |
| PoolBytes.StreamHolds | src/memcache_pool.c:202-221 | a stream holds every byte of each request that is sent in full, in the order of the read line, then exactly the first `idx` bytes of the one in the send slot, and nothing else |
| PoolBytes.WriteBytes | src/memcache_pool.c:212-221 | a `send()` that takes n bytes, or what is left, appends exactly the next n bytes of the buffer to the stream and advances `idx` by as many |
| PoolBytes.WritesAddUp | src/memcache_pool.c:212-221 | over any series of writes a request stays in the slot with `idx` their sum while that is less than its buffer, and the write that reaches the end completes it |
| PoolBytes.SendTurnExact | src/memcache_pool.c:1492-1557 | a server's turn to send, told from what each `send()` took: the first k requests are sent to the last byte, as long as each write took all that was left; the next one by what the last write took; it stays listed, or the server goes down at a broken stream |
| PoolTurns.FailureIsHard | src/memcache_pool.c:685-700 | under the invariant, a server with a filled slot has a live stream, so a failure does not ask for a retry |
| PoolWaiting.FailExactly | src/memcache_pool.c:685-700 | a failure is answered by a retry exactly where the stream was found closed while the slot is filled, and otherwise the server goes down |
| PoolTurns.SendTurnOk | src/memcache_pool.c:1492-1557 | a server's turn to send keeps the invariant, loses no request and leaves the server listed if and only if its slot is filled |
| PoolTurns.SendPhaseOk | src/memcache_pool.c:1492-1557 | the same for all servers of the round, failures and reschedules included |
| PoolTurns.ReadDoneOk | src/memcache_pool.c:1624-1644 | a completed reply releases exactly the request in the read slot, records it against its own request, and keeps the invariant |
| PoolReconnect.CompletionExact | src/memcache_pool.c:1624-1644 | after a completed reply the whole invariant holds, wakeup lists included, and its request is free, if and only if it met no refused reconnect with more queued, or the double failover does no harm: the answered request finds no server, and the queued one none or the same busy one twice; told before the step |
| PoolReconnect.CompletesOk | src/memcache_pool.c:1624-1644 | in that case the round goes on with the books right |
| PoolReconnect.LostSentAgain | src/memcache_pool.c:1624-1644 | in that case an answered request that failover takes to a usable server is queued there again |
| PoolExamples.AnsweredAndSentAgain | src/memcache_pool.c:1624-1644 | a pool reached by two submits and a round, and a round after which an answered request is on a server again |
| PoolRuns.ReadTurnOk | src/memcache_pool.c:1559-1681 | a server's turn to read keeps the invariant and the books, whatever the parsers return |
| PoolProgress.ReadTurnExact | src/memcache_pool.c:1559-1681 | a server's turn to read, told from the parsers' answers: each DONE releases the next request of the read line, a malformed reply or an end of file brings the server down, anything else leaves it waiting; nothing is read behind that |
| PoolRuns.ReadPhaseOk | src/memcache_pool.c:1559-1681 | the same for all servers of the round |
| PoolRuns.DropUnreadyOk | src/memcache_pool.c:1454-1487 | a select that found nothing takes each unready server off both lists, brings it down and keeps the rest |
| PoolWaiting.DropUnreadyExact | src/memcache_pool.c:1454-1487 | exactly the listed servers that are ready stay, in their order; each of the others is down and on neither list |
| PoolWaiting.TimeoutDrops | src/memcache_pool.c:1454-1487 | after such a round every server that was listed for something its socket is not ready for is down |
| PoolRuns.SwitchOk | src/memcache_pool.c:1331-1345 | swapping the lists makes the old lists exactly what the round has to visit |
| PoolRuns.SelectOk | src/memcache_pool.c:1407-1685 | at every round boundary a server is in `sending` iff its send slot is filled and in `reading` iff its read slot is, and no request was lost or doubled, if each completed reply of the round completes well |
| PoolWaiting.IdleRound | src/memcache_pool.c:1492-1681 | a round in which no listed socket is ready, and select reports no failure, changes nothing |
| PoolRuns.LiveUpKeeps | src/memcache_pool.c:1407-1685 | every completed reply of a round completes well if the servers connected at its start accept another connection, whatever is connected during the round |
| PoolProgress.RoundGood | src/memcache_pool.c:1407-1685 | in a round in which nothing fails every ready server listed for sending sends more of its request, every reply due on a ready listed server is read and its request released, no other server moves, and nothing is undone |
| PoolProgress.SomethingToDo | src/memcache_pool.c:1407-1685 | as long as a server is listed, some listed one has something to send or a reply to be read, so that sockets that are all ready are enough for the round to move on |
| PoolRuns.RunOk | src/memcache_pool.c:2036-2047 | a run of any number of rounds keeps the invariant and accounts for every request |
| PoolRuns.RunExactly | src/memcache_pool.c:2036-2047 | a run is its first k rounds one after the other, with a server listed before each of them; it stops only when both lists are empty or no more rounds are given |
| PoolRuns.RunCompletes | src/memcache_pool.c:2036-2047 | when the loop exits, no server holds anything, and every request is free because its own reply was read or nothing was left to try |
| PoolProgress.RunFinishes | src/memcache_pool.c:2036-2047 | a run in which nothing fails and each round finds some such socket ready ends, within as many rounds as there are bytes to send and replies to read, with both lists empty and every request answered by its own reply |
| PoolRuns.RunAttributes | src/memcache_pool.c:2036-2047 | every reply of a run was read by the parser of the request it answers |
| PoolWaiting.DownForGood | src/memcache_pool.c:2036-2047 | a failed server stays failed and empty over any run, whatever the sockets do |
| PoolRuns.NewPoolSettled | src/memcache_pool.c:890-967 | a new pool satisfies the invariant, with every server closed and empty and nothing listed, logged or allocated |
| PoolLanding.DownAfterSchedule | src/memcache_pool.c:1202-1236 | nothing in a cascade brings a failed server back or hands it a request |
| PoolLanding.ScheduleLands | src/memcache_pool.c:1202-1236 | where a scheduled request ends up and how far its attempts went, worked out beforehand from the probes and from which servers can be used; all other requests and usable servers are as they were, and exactly the servers tried in vain are newly down |
| PoolLanding.FailoverLands | src/memcache_pool.c:1046-1069 | the same for the failover handler |
| PoolRetry.RetryAligned | src/memcache_pool.c:1376-1401 | taking a request out of a pipeline keeps alignment; exactly that request is gone, the others keep their order |
| PoolRetry.DeactivateAligned | src/memcache_pool.c:636-683 | a cascade keeps every pipeline aligned and every request in one place, whatever the streams carry |
| PoolRetry.RetryOk | src/memcache_pool.c:1376-1405 | a retry, with the slot send of the next request and the failover, keeps every pipeline aligned and every request in one place, if the next request's stream is open or can be opened |
| PoolRefused.RetryExact | src/memcache_pool.c:1376-1405 | it does so if and only if that is the case or the second failovers of the next and the retried request end where their first ones did, in pools whose other servers hold requests only where these can be used |
| PoolExamples.RetryBreaks | src/memcache_pool.c:1376-1405 | an aligned pool of two servers in which a refused retry puts a request in line twice |
| PoolClients.Home | src/memcache_pool.c:1028-1043 | a key's server is one of the pool's, and is down only if all its alternatives are |
| PoolClients.PrepareOk | src/memcache_pool.c:1078-1100 | an allocated request is in no one's hands, is blank but for what the caller gives it (a reused one has forgotten its failed servers and attempts), and no other request is affected |
| PoolClients.CloneExact | src/memcache_pool.c:1131-1157 | a copy has the original's bytes if and only if the original is not the oldest free request; otherwise it is another request with the same key, and the original is unchanged |
| PoolClients.CloneOk | src/memcache_pool.c:1131-1157 | the copy of a request in use is another request, untracked, with the same key and bytes |
| PoolClients.CopyLands | src/memcache_pool.c:1063-1069 | a copy is last on the server chosen for it if that can be used, and otherwise free with the server down |
| PoolClients.CopiesOk | src/memcache_pool.c:1253-1261 | while copies are handed out the original keeps its server and contents and no request is lost; in the end each target that can be used has a copy with its key and bytes |
| PoolClients.ScheduleKeyOk | src/memcache_pool.c:1239-1268 | if the request finds a server or enough others are free, it is where its own schedule put it, unchanged, in a sound pool, and each further chosen server that can be used has a request with its key and bytes |
| PoolClients.KeyServersDistinct | src/memcache_pool.c:1242-1265 | it and its copies go to min(redundancy, pool size) different servers if and only if the probes name that many |
| PoolClients.SubmitOk | src/memcache_pool.c:1239-1268 | a submitted request is on a server or given up, and no other request is lost |
| PoolClients.SubmitExactly | src/memcache_pool.c:1239-1268 | the pool is sound after a submit if and only if the request finds a server or enough other requests are free for its copies, told before the call |
| PoolExamples.CopyOfItself | src/memcache_pool.c:1131-1157 | a submit to a new pool whose copy is the request itself, on a server with its bytes gone |
| PoolClients.TurnOk | src/memcache_pool.c:1407-1685 | a round takes a sound pool to a sound pool |
| PoolClients.ReachableReached | src/memcache_pool.c:1202-1685 | every pool reachable by submits that fit and rounds whose replies complete well is sound: aligned, listed, exclusive and with each reply attributed |
| RequestPool.MmcPool.Schedule | src/memcache_pool.c:1202-1236 | the code, updating slots and queues in place, computes `PoolModel.Schedule` |
| RequestPool.MmcPool.SlotSend | src/memcache_pool.c:1160-1199 | the slot is filled on a live stream, or the server goes down and the slot stays empty |
| RequestPool.MmcPool.PickServer | src/memcache_pool.c:1050-1053 | the handler's do-while loop computes `Routing.NextServer` |
| RequestPool.MmcPool.Failover | src/memcache_pool.c:1046-1069 | the handler computes `PoolModel.Failover` |
| RequestPool.MmcPool.Deactivate | src/memcache_pool.c:636-683 | the code computes `PoolModel.Deactivate` |
| RequestPool.MmcPool.FindServer | src/memcache_pool.c:1028-1043 | the lookup loop computes `PoolClients.Home` |
| RequestPool.MmcPool.Alloc | src/memcache_pool.c:1078-1100 | the oldest free request, emptied and with its failed servers and attempts forgotten, or a new one; all others are as they were |
| RequestPool.MmcPool.CloneRequest | src/memcache_pool.c:1131-1157 | allocation followed by the copy of key and bytes |
| RequestPool.MmcPool.ScheduleKey | src/memcache_pool.c:1239-1268 | looking for servers between the schedules gives what scheduling to all chosen servers in order gives |
| RequestPool.MmcPool.ScheduleCopies | src/memcache_pool.c:1253-1261 | the loop, skip list and index included, computes `PoolClients.ScheduleCopies` over the chosen servers |
| RequestPool.MmcPool.SlotNext | src/memcache_pool.c:1384-1391 | the next request into the send slot, a refused connection included, computes `PoolRound.SlotNext` |
| RequestPool.MmcPool.SelectRetry | src/memcache_pool.c:1376-1405 | queue removals, slots, wakeup lists and failover of a retry compute `PoolRound.SelectRetry` |
| RequestPool.MmcPool.Fail | src/memcache_pool.c:685-700 | the answer to a failure, retry or deactivation, computes `PoolRound.Fail` |
| RequestPool.MmcPool.SendTurn | src/memcache_pool.c:1492-1557 | the send loop of one server computes `PoolRound.SendTurn` |
| RequestPool.MmcPool.Write | src/memcache_pool.c:202-221 | `send()` appends to the stream, in place, what `PoolBytes.WriteBytes` says, and computes `PoolRound.Write` |
| RequestPool.MmcPool.DropStream | src/memcache_pool.c:1626-1638 | dropping the stream of an early reply computes `PoolRound.DropStream`, refused reconnect included |
| RequestPool.MmcPool.ReadDone | src/memcache_pool.c:1624-1644 | completing a reply computes `PoolRound.ReadDone` with the pointer released |
| RequestPool.MmcPool.ReadTurn | src/memcache_pool.c:1559-1681 | the read loop of one server computes `PoolRound.ReadTurn` |
| RequestPool.MmcPool.DropUnready | src/memcache_pool.c:1454-1487 | the timeout loops compute `PoolRound.DropUnready` |
| RequestPool.MmcPool.Select | src/memcache_pool.c:1407-1685 | a round computes `PoolRound.Select` |
| RequestPool.MmcPool.Run | src/memcache_pool.c:2036-2047 | the loop goes on as long as a server is on either list and rounds are given, and leaves the pool as those rounds one after the other do; from a sound pool it ends in a sound one that accounts for every request if each completed reply completed well |
| SessionLock.StepKeepsInv | src/memcache_session.c:313-461 | every command and decision of every client keeps the lock invariant |
| SessionLock.MutualExclusion | src/memcache_session.c:236-276 | in every interleaving, on server 0 the lock is at least 1 iff a client holds it, and on every server at most one does, for both protocols |
| SessionLock.NoLostUpdate | src/memcache_session.c:334-349 | critical sections do not overlap, and each reads exactly what the last completed one wrote, or nothing if there was none |
| SessionLock.NeverContended | src/memcache_session.c:357-367 | in every interleaving from the start, a client past the first server never finds a lock taken there: the first lock alone excludes the others |
| SessionLock.IncrExactly | src/memcache_session.c:236-276 | what asking for the lock does on a server: a counter goes up, a missing one is created with the value of success by the binary protocol and left to the `add` by the ASCII protocol |
| SessionLock.RefusedAsksAgain | src/memcache_session.c:363-376 | a client that was refused asks the same server again, from the start, and nothing else changes |
| SessionLock.NoLockLeftBehind | src/memcache_session.c:368-382 | a client that gives up waiting holds no lock anywhere |
| SessionLock.CounterCounts | tests/057.phpt:51-56 | any number of clients that each add one leave the number of completed sections in the session |
| SessionExact.LocksTellExactly | src/memcache_session.c:236-276 | in every interleaving every server's lock is at least 1 iff a client holds it, if and only if there is one server or at most one client |
| SessionExact.DataAgreesExactly | src/memcache_session.c:414-461 | in every interleaving the servers' data agree once all clients are done, if and only if there is one server or at most one client |
| SessionExact.OthersLag | src/memcache_session.c:414-461 | for any more servers and clients, a run in which the second server's lock is 0 while held, and that leaves its data different from the first's |
| SessionPatience.PatientRuns | src/memcache_session.c:368-387 | in every interleaving in which no client that gave up writes, the session is what the last section wrote and each section read what the one before it wrote |
| SessionPatience.PatienceExactly | src/memcache_session.c:382-461 | with clients that give up and write all the same, an update can be lost if and only if there is more than one client |
| SessionServers.Read | src/memcache_session.c:313-387 | which servers the read loop asks, in which order and for how long: a refused lock repeats the server and uses up patience, anything else moves on |
| SessionServers.PatienceExactly | src/memcache_session.c:301-382 | the read loop's sleeps double from 5 ms up to 1 s, and it gives up once they come to twice the lock timeout |
| SessionServers.Write | src/memcache_session.c:414-461 | the write loop visits the key's servers in order and ends exactly where its condition first fails |
| SessionServers.WriteEndsExactly | src/memcache_session.c:414-461 | the write loop ends if and only if the probes sooner or later name as many servers as the redundancy asks for or as there are |
| SessionServers.NeverEnds | src/memcache_session.c:414-461 | a key of a pool of two for which the loop's condition never fails |
| SessionServers.ReadThenWrite | src/memcache_session.c:313-461 | the write loop ends within the limit iff its condition has failed by then, and if so the servers the read asked are among those the write visits, at the same positions, so each lock taken is reset |
| SessionServers.VisitsDistinct | src/memcache_pool.c:1012-1026 | the first n servers of a key's sequence are pairwise distinct if and only if the probes name that many |
| ConsistentHash.Find | src/memcache_consistent_hash.c:80-106 | the binary search terminates, stays inside the points and returns the owner of the place: the first point not below it, or point 0 |
| ConsistentHash.NextUnique | src/memcache_consistent_hash.c:85-96 | any point that fits the definition of being next, duplicates included, has the owner's server |
| ConsistentHash.ConsistentState.PopulateBuckets | src/memcache_consistent_hash.c:109-119 | the points are sorted and permuted, and all 1024 buckets agree with the definition at `step * i` |
| ConsistentHash.BucketPlaces | src/memcache_consistent_hash.c:111-115 | no bucket's place overflows 32 bits |
| ConsistentHash.ConsistentState.FindServer | src/memcache_consistent_hash.c:122-138 | a key maps to the owner of the place `step * (hash % 1024)` of its own hash, or to the first point's server in a pool of one |
| ConsistentHash.EveryBucket | src/memcache_consistent_hash.c:122-138 | every bucket is reached, by the hashes with its number as remainder, so each server that owns a bucket's place gets some keys |
| ConsistentHash.HalvesReached | src/memcache_consistent_hash.c:122-138 | two servers that halve the ring, and two hashes that are mapped to different ones |
| ConsistentHash.ConsistentState.AddServer | src/memcache_consistent_hash.c:141-167 | exactly the new server's points are added, 160 for each unit of weight |
| ConsistentHash.PointsExactly | src/memcache_consistent_hash.c:141-167 | the i-th of a server's 160 points per unit of weight lies at the hash of `host:port-i`, taken in two steps |
| ConsistentHash.MinimalRemapping | src/memcache_consistent_hash.c:109-119 | with one more server's points, every place keeps its owner or goes to the new server, however ties are sorted |
| ConsistentHash.AddingMovesToNew | src/memcache_consistent_hash.c:122-167 | adding a server leaves every key where it was or moves it to the new one, the step from one server to two included |
| ConsistentHash.OrderIndependent | src/memcache_consistent_hash.c:109-119 | without collisions the order in which servers were added does not matter |
| ConsistentHash.WellDefinedExactly | src/memcache_consistent_hash.c:68-119 | every place's owner is determined by the points alone if and only if no two servers collide |
| ConsistentHash.TieSorted | src/memcache_consistent_hash.c:68-119 | two points at one place, sorted either way, with different owners |
| AsciiReply.AsciiRequest.GetLine | src/memcache_ascii_protocol.c:41-56 | a line is returned once it is complete, whatever pieces it came in, as the byte-by-byte parser would |
| AsciiReply.AsciiRequest.ParseValue | src/memcache_ascii_protocol.c:149-177 | the header step agrees with the byte-by-byte parser in state, unread bytes and return code |
| AsciiReply.AsciiRequest.ReadValue | src/memcache_ascii_protocol.c:180-208 | the body step agrees with it, bodies in any number of pieces |
| AsciiReply.AsciiRequest.Parse | src/memcache_ascii_protocol.c:149-208 | called as long as it returns AGAIN, the parser does what the byte-by-byte parser does with all that arrived |
| AsciiReply.HeaderRoundTrip | src/memcache_ascii_protocol.c:162-164 | a printed VALUE header scans back to its key, flags, length and cas, an absent cas keeping the old one |
| AsciiReply.AnyBlanks | src/memcache_ascii_protocol.c:162-164 | a header scans to the same fields with any white space between them |
| AsciiReply.HeaderFits | src/memcache_ascii_protocol.c:44-46 | every header of a well-formed item fits the 4096-byte line buffer |
| AsciiReply.HeaderBytes | src/memcache_ascii_protocol.c:162-164 | a header with and without cas, written out |
| AsciiReply.ReplyRoundTrip | src/memcache_ascii_protocol.c:149-208 | reading a printed reply delivers its items in order, whatever the bodies contain, and is done exactly at END |
| AsciiReply.EndLineEnds | src/memcache_ascii_protocol.c:156-160 | a line that starts with END ends the request, whatever follows on it |
| AsciiReply.ValueLineReads | src/memcache_ascii_protocol.c:149-208 | on any bytes, a line that scans as a header delivers the announced number of bytes under its key, flags and cas, and the two bytes behind them are dropped, whatever they are |
| AsciiReply.OtherLinesFail | src/memcache_ascii_protocol.c:149-177 | a line that is neither END nor a value header, such as an error, fails the request: nothing is delivered and what follows is unread |
| AsciiReply.FewFields | src/memcache_ascii_protocol.c:162-164 | a VALUE line without key, flags or length is no header |
| AsciiReply.LongLineWaits | src/memcache_ascii_protocol.c:41-56 | of a line that does not end within 4095 bytes these are taken and no more |
| AsciiReply.DoneBehindEnd | src/memcache_ascii_protocol.c:149-208 | on any bytes, the parser is done only directly behind a line that starts with END |
| AsciiReply.ChunkingIndependent | src/memcache_ascii_protocol.c:41-208 | the same for every split of the reply into reads |
| AsciiReply.AsciiRequest.Reschedule | src/memcache_pool.c:1202-1214 | the body's buffer is emptied and the parser stays where it is |
| AsciiReply.FailoverExactly | src/memcache_pool.c:1202-1214 | a request failed over while it is read delivers any reply of the new server as printed, behind what it had, if and only if it is between two values |
| AsciiReply.TakenForBody | src/memcache_ascii_protocol.c:180-208 | in the middle of a body, the first bytes of the new server's reply come out as the body |
| Streams.FeedIsRun | src/memcache_pool.c:136-169 | a parser fed in pieces ends where it ends when fed at once |
| AsciiStore.PrepareKey | src/memcache_pool.c:2050-2082 | at each position of prefix plus key, cut to 250 bytes, the character itself if it is above the blank and an underscore otherwise; fails on the empty key only |
| AsciiStore.FitKeysStay | src/memcache_pool.c:2050-2082 | a key of at most 250 bytes without blanks and control characters is sent as it is |
| AsciiStore.SameKeyExactly | src/memcache_pool.c:2050-2082 | exactly when two keys are sent as the same one |
| AsciiStore.StoreRequest.Store | src/memcache_ascii_protocol.c:280-319 | the appends write exactly the printed command behind what was in the buffer |
| AsciiStore.CommandRoundTrip | src/memcache_ascii_protocol.c:280-319 | a printed command is read back with all its fields and arbitrary body, and nothing behind it is touched |
| AsciiStore.CommandBytes | src/memcache_ascii_protocol.c:280-319 | each command but `cas`, written out |
| AsciiStore.CasBytes | src/memcache_ascii_protocol.c:280-319 | the command `cas`, written out |
| AsciiStore.CommandsPrefixFree | src/memcache_ascii_protocol.c:280-319 | a stream that starts with one command starts with no other |
| AsciiStore.CommandsInjective | src/memcache_ascii_protocol.c:280-319 | the bytes determine the list of commands |
| BinaryGet.GetBuilder.AppendGet | src/memcache_binary_protocol.c:533-545 | the request bytes and the remembered pointers are those of the keys appended so far |
| BinaryGet.GetBuilder.EndGet | src/memcache_binary_protocol.c:548-554 | a server that reads the finished bytes finds one quiet get per appended key, in order, under its reqid, and the NOOP |
| BinaryGet.RequestRoundTrip | src/memcache_binary_protocol.c:533-554 | what is sent is what is read back: each key once, in order, under its reqid, with whatever follows untouched |
| BinaryGet.HeaderBytes | src/memcache_binary_protocol.c:476-545 | each of the 24 bytes of a request's header, numbers with their highest byte first |
| BinaryGet.ReqidsExact | src/memcache_binary_protocol.c:538-544 | every appended key is found under the reqid it was sent with if and only if no key pointer was appended twice |
| BinaryGet.KeyTwice | src/memcache_binary_protocol.c:538-544 | a key appended twice and another one: one reqid is sent for two keys |
| BinaryGet.BinaryRequest.Get | src/memcache_binary_protocol.c:241-252 | a fixed number of bytes is returned once complete, in any number of pieces |
| BinaryGet.BinaryRequest.OnResponse | src/memcache_binary_protocol.c:255-333 | the header step agrees with the byte-by-byte parser |
| BinaryGet.BinaryRequest.OnValue | src/memcache_binary_protocol.c:401-420 | the extras step agrees with it |
| BinaryGet.BinaryRequest.OnBody | src/memcache_binary_protocol.c:423-473 | the body step agrees with it, and looks the key up by the reqid |
| BinaryGet.BinaryRequest.OnError | src/memcache_binary_protocol.c:342-357 | the body of an error response is read in full before the request is over |
| BinaryGet.BinaryRequest.Parse | src/memcache_binary_protocol.c:255-473 | called as long as it returns AGAIN, the parser does what the byte-by-byte parser does |
| BinaryGet.BigRoundTrip | src/memcache_binary_protocol.c:476-487 | numbers in network byte order are read back as they were written |
| BinaryGet.HitRoundTrip | src/memcache_binary_protocol.c:255-473 | one hit delivers one value, under the key its reqid stands for |
| BinaryGet.AnyValueRead | src/memcache_binary_protocol.c:255-473 | any bytes that are a response of status zero deliver one value: flags from the first four bytes, the length less the extras, the key by the reqid; a reqid without a key delivers none; a plain get is done, any other goes on |
| BinaryGet.PlainGetEnds | src/memcache_binary_protocol.c:423-473 | a plain get is done with its value, delivered under its key, and what follows is unread |
| BinaryGet.NoValueEnds | src/memcache_binary_protocol.c:255-357 | a wrong magic byte fails the request; a NOOP or a response without body ends it, and so does an error once its body is read to the last byte; nothing is delivered |
| BinaryGet.ReplyRoundTrip | src/memcache_binary_protocol.c:255-473 | for any subset of hits, the values come out once each under their own keys, and the request is done exactly at the NOOP |
| BinaryGet.ValuesReachTheirKeys | src/memcache_binary_protocol.c:255-554 | the same from the appended keys to the delivered values, the reply being computed from the request bytes as a server reads them, for every split of it into reads |
| ValuePacking.FieldsExact | src/memcache_pool.h:62-74 | the model's flag fields lose nothing of a 32-bit flag word |
| ValuePacking.Buffer.Compress | src/memcache_pool.c:304-355 | what ends up in the buffer and in the flags, earlier bytes kept, in both calling modes |
| ValuePacking.Buffer.PackValue | src/memcache_pool.c:376-453 | the packed bytes behind what was in the buffer, and the flags; a failure leaves the buffer alone |
| ValuePacking.PackShape | src/memcache_pool.c:376-453 | packing fails exactly on reserved flag bits and on unserializable objects, keeps the upper flag bits, and keeps the compressed form only within the minimum savings |
| ValuePacking.CompressedExactly | src/memcache_pool.c:304-355 | exactly when a value is kept compressed: it is text or an object, it reaches the threshold or the caller asks for it, and that saves at least the minimum fraction |
| ValuePacking.PackedWord | src/memcache_pool.h:62-74 | the 32-bit flag word of every packed value, bit by bit |
| ValuePacking.Uncompress | src/memcache_pool.c:357-374 | at most 15 tries, the first with enough room succeeding, so that 2^15 times the data is the limit |
| ValuePacking.LongRoundTrip | src/memcache_pool.c:529-535 | every 64-bit integer is read back from its decimal form |
| ValuePacking.ScanClamps | src/memcache_pool.c:529-535 | of any text, white space, a sign and digits as far as they go make the number; one too large for a long is read as the nearest long, no digits as 0 |
| ValuePacking.UnknownKinds | src/memcache_pool.c:526-556 | a boolean is true for the text `1` alone, and a kind that packing does not know is taken for text |
| ValuePacking.RoundTripExactly | src/memcache_pool.c:376-564 | unpacking gives back the packed value unless it is stored compressed and is more than 2^15 times its compressed size, and then it does not |
| ValuePacking.RoundTrip | src/memcache_pool.c:376-564 | with a compression that shrinks nothing by more than a factor of 1032, as zlib's, every packed value is read back |
| UdpReassembly.Reader.Read | src/memcache_pool.c:237-301 | the code, with its move inside the buffer, has the effect of `Receive` |
| UdpReassembly.Reader.Exchange | src/memcache_pool.c:1171-1177 | a request sent on a drained stream, with the next id, and the rounds until its parser is done or it leaves the stream; the reply is delivered byte for byte if and only if every datagram up to its last part is the next part or stale |
| UdpReassembly.AcceptedExactly | src/memcache_pool.c:253-284 | taken are exactly the datagrams of 8 to 1400 bytes with the request's id and the expected number, and passed over exactly those of 8 to 1400 bytes with a smaller id; any other of these sizes fails the stream, and one of another size asks for a retry iff it was not connected |
| UdpReassembly.AddsPayloadExactly | src/memcache_pool.c:245-299 | a taken datagram adds its payload and nothing else if and only if the buffer was drained; any other adds nothing |
| UdpReassembly.ShownTwice | src/memcache_pool.c:288-299 | an undrained buffer and a taken datagram whose last eight bytes the parser sees twice |
| UdpReassembly.DeliversChosen | src/memcache_pool.c:237-301 | over any run in which the buffer is drained before each datagram, and which ends where the request leaves the stream, the parser gets the payloads of the chosen datagrams in order |
| UdpReassembly.ChosenConsecutive | src/memcache_pool.c:264-286 | the chosen datagrams have consecutive numbers modulo 2^16 from the first one taken, if totals are not zero |
| UdpReassembly.HeardExactly | src/memcache_pool.c:237-301 | whatever arrives, a request takes its reply's datagrams and its parser is done if and only if each datagram up to the last part is the next part or is stale |
| UdpReassembly.DeliveredExactly | src/memcache_pool.c:237-301 | the same in bytes, for a reply of nonempty parts of which datagrams may be lost, doubled or out of order |
| UdpReassembly.HeardIsChosen | src/memcache_pool.c:237-301 | what a request hears until its parser is done is the beginning of what a run chooses |
| UdpReassembly.StraysEndIt | src/memcache_pool.c:253-284 | a datagram of a later request, or one that is too short, in front of a reply ends the request's time on the stream with nothing delivered |
| UdpReassembly.FirstLost | src/memcache_pool.c:264-268 | a second part that arrives first is taken for the start of the reply |

## Left out

- Persistent streams in MMC_STATUS_UNKNOWN, without which no retry happens: a retry starts from a stream already found closed, and what was on the wire before is not followed.
- PoolRefused.RetryExact: pools in which another server that refuses connections still holds requests to be read.
- UDP delivery inside the scheduler: the pool model is TCP only; reassembly is modelled on its own.
- Requests under construction (`buildreq`, `pending`) and multi-key gets in the pool, with `mmc_value_failover_handler`, which records no failed server and so has no measure.
- Nested calls of the select loop (`in_select`) and callbacks that touch the pool.
- `mmc_pool_poll`: the same round with another readiness test.
- The clock: `retry_interval` does not elapse during a run; timeouts in seconds are the `nothingReady` rounds.
- Aliasing of server and request structures: they are values in the pool's tables, named by index; the pool's own lists and queues are sequences, with the ring buffer that implements them verified separately.
- PoolRuns.SelectOk: rounds after a completion that does harm; what that one leaves behind is PoolReconnect.CompletionExact.
- PoolRuns.RunCompletes: the same; a run ends by itself if nothing fails (PoolProgress.RunFinishes), and it says nothing about how long servers may keep a reader waiting.
- A reused request's `io` is taken as unset, where the code leaves the old pointer; nothing reads it before it is set again.
- The null pointer that a refused reconnect pushes on the free list (src/memcache_pool.c:1640): it only makes a later allocation create a request, and is not followed.
- Routing.FindNext: the hash of `key-index` is uninterpreted, and the unsigned wrap of the index is not modelled.
- SessionLock.NoLostUpdate: no expiry or eviction of the lock; clients that write without it are SessionPatience.PatienceExactly.
- SessionLock.MutualExclusion: every client reaches all servers of the sequence in the same order; 64-bit wrap of `incr` is not modelled.
- SessionServers.ReadThenWrite: servers do not go down or come back between the read and the write.
- PS_DESTROY, garbage collection and the parsing of the session save path.
- ConsistentHash.Find: the CRC32 and FNV hashes are uninterpreted; `qsort` may sort ties in any way.
- ConsistentHash.ConsistentState.AddServer: `weight * points` does not overflow an `int`.
- The standard hash strategy (src/memcache_standard_hash.c): a table lookup.
- AsciiReply.HeaderRoundTrip: `sscanf` on signed or overlong numbers is not modelled; a server prints neither.
- AsciiReply.FailoverExactly: the ASCII protocol only; the new stream has no half line left from before.
- Replies other than values in the ASCII protocol (`STORED`, numbers, errors, statistics): one-line responses.
- AsciiStore.PrepareKey: the result buffer has room for the prefix, which the code copies before it truncates.
- BinaryGet.ValuesReachTheirKeys: keys are shorter than 65536 bytes; the conversion of keys that are not strings and what the value handler does with a value are left out.
- Binary mutations, deletes, SASL and statistics.
- ValuePacking.RoundTripExactly: zlib and PHP's serializer are functions with an inverse law, a floating point number is its decimal text (`%.14g` itself loses digits), and the savings fraction is a real number.
- UdpReassembly.Reader.Exchange: the parser is a condition on the bytes delivered, so that a parser that fails is not followed; nor is the request's way to TCP once it left the stream, which is the pool's business.
- PHP argument parsing, INI settings, reference counts, resources and the command-line and web tools.
