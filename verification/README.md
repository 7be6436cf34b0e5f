# Distributed clipboard: a verified model

A node of this system is one clipboard in a tree of clipboards. Each holds ten regions, and a region
holds the bytes and the 32-bit stamp of the last copy that won. Applications copy into and paste from
their local clipboard over a Unix socket; a copy is stamped once, where it enters, offered to the
memory and, if accepted, pushed on a broadcast queue, from which one thread sends it to every
connected clipboard except the one it came from. Clipboards receive, offer and pass on in the same
way, without stamping again.

This project models the parts of that program in Dafny and proves what they promise together:

- **Memory** (`Clmem`): `mem_put`, `mem_get` and `mem_finish` on an array of zones, and a series of
  puts as a last-writer-wins fold.
- **Flood over a tree** (`Topology`, `Replication`, `FloodInvariant`, `FloodSteps`, `Convergence`,
  `WriterOrder`, `FloodBound`, `Ties`, `FloodReach`): a transition system over any finite tree, with
  copies, offers to the memory, pushes, pops, sends and FIFO deliveries as separate steps in any
  interleaving.
- **Readers/writer lock and a region under it** (`RwLock`, `RwReach`, `RegionMachine`, `RegionLinear`,
  `RegionRegister`, `RegionHeap`, `RegionProgress`): one program counter per thread, one step per
  statement and per copied byte, buffers on a heap.
- **Broadcast queue** (`Queue`, `BroadcastMachine`, `BroadcastDrain`, `BroadcastReach`): the linked list
  as a class refining a sequence; its push, pop and terminate protocol among threads, with packet
  ownership.
- **Packets and transfers** (`Wire`, `WireLayout`, `Transfer`, `Framing`, `Reception`, `Delivery`,
  `Broadcast`): packed packets, the two receivers' reads, the send and receive loops under short and
  failing calls, and whole series of packets and requests from the sender's loop to the reader's.
- **An application's session** (`Session`, `ServerLoop`): client and server calls over two byte streams,
  against the memory itself and against the decoder.
- **Connection tables and the clock** (`Slots`, `Clock`).
- **Changing links** (`Links`, `LinksFlow`, `LinksWave`): joins, partings, syncs and copies on a forest of
  connections; what they carry, what is passed on, and waves of syncs.

A safety result alone would also hold of a program that does nothing, so each machine comes with what
it lets happen: which steps wait for what, that calls finish with the right answer, that trees come
about, that copies enter and syncs come down (`FloodReach`, `RwReach`, `RegionProgress`,
`BroadcastReach`, `LinksFlow`, `LinksWave`).

`dafny verify dfyconfig.toml` checks the whole project.

## Where the code falls short of its intent

Each of these is modelled as the code has it, with the exact condition under which the promise holds.

- `mem_put` takes an equal stamp (src/mem/clmem.c:98), so two slaves' copies with one stamp can leave
  clipboards divided for good. `Ties.BytesConvergeIffTieFree`: on a tree of two or more clipboards the
  bytes of a region converge in every run if and only if the copies applications may make never tie
  between two slaves. Stamps always converge (`Convergence.StampsConverge`).
- `queue_push` returns without unlocking once the queue is terminated (src/thread/queue.c:76-79).
  `BroadcastDrain.ShutdownCompletesIff`: the shutdown can still complete exactly when the broadcaster
  has ended or the mutex is neither lost nor about to be; with the unlock it always can
  (`unlocks` in the state chooses). `BroadcastDrain.SafeIff`: it stays so whatever happens exactly when
  the push unlocks, no slave is there to push late, or the broadcaster has the mutex for the last time. `BroadcastDrain.GoodbyeStuck` is a run of the code as written in
  which one late push keeps the goodbye in the queue for ever.
- `MIN` evaluates `sendData` twice at src/interfaces/appif.c:246 when the answer is not longer than
  `err` (`realMin` chooses between the macro and a real minimum). For sessions with copies of at most
  m bytes, each of these holds if and only if the minimum is real or m is below six: the session
  answers as the memory would (`Session.LikeMemoryIff`), and no paste hands out more bytes than the
  caller asked for (`Session.NeverOverfillsIff`; `Session.OverfillingRun` is four calls after which one
  does). `Session.CopyThenPasteIff` says it of a single copy and the paste after it.
- A copy of no bytes is answered and ends the application's session, because its data is a read of
  nothing (src/interfaces/appif.c:198, 246, 96). `Wire.AppGoodbyeIff`: a series of requests and
  the goodbye behind it are all taken if and only if the session goes on after each request.
- `recvData` neither advances its buffer nor shrinks its size (src/utils/packet.c:26).
  `Transfer.ReceivesAllIff`: it does its job if and only if the first `recv` delivers everything.
  `Reception` shows what complete and short `recv`s make of a slave's turns.
- The broadcaster ignores `sendData`'s result (src/interfaces/clipif.c:142). `Framing.DeliversIff`: the
  other end takes a prefix of the packets sent, the goodbye included, on every series of packets, if
  and only if a failed send is followed by failures alone. `Delivery.LinkDeliversIff`: then all of them arrive
  if and only if every send returned its size.
- `clipboard_paste` sends its request with one plain `send` and looks only for -1
  (Library/client_api.c:164). `Delivery.PasteArrivesIff`: the request arrives if and only if that one
  call takes all six bytes; after fewer the client and the slave wait for each other.
- The slot search of `clipif_listen` uses trylock (src/interfaces/clipif.c:374) and its rejection path
  keeps the interface lock (src/interfaces/clipif.c:384-389). `Slots.ClipTable.Accept`: this happens if
  and only if every free slot was held when it was tried.

## Model

| member | source | states |
|---|---|---|
| Clmem.Memory.constructor | src/mem/clmem.c:18-40 | a new memory is the fold of no puts: ten empty regions |
| Clmem.Memory.Put | src/mem/clmem.c:85-116 | returns the size exactly for some bytes to one of the ten regions with no larger stamp put there before (since mem_finish, if that was called), and then the region holds them; otherwise 0, and nothing changes |
| Clmem.Memory.Get | src/mem/clmem.c:68-83 | the leading bytes of the region, as many as buffer and region allow, land at the front of the buffer and the rest of the buffer stays; exactly when it copies from NULL, which is only after mem_finish |
| Clmem.Memory.Finish | src/mem/clmem.c:118-132 | every buffer is dropped while sizes and stamps stay |
| Clmem.FoldHoldsWinner | src/mem/clmem.c:85-116 | last writer wins: after any series of puts a region holds the latest in call order among its valid puts with the largest stamp, and is empty exactly when there was none |
| Clmem.AdmittedIff | src/mem/clmem.c:88-102 | after any series of puts, one is accepted exactly when its region is from 0 to 9, it has some bytes, and no earlier such put to the region has a larger stamp |
| Clmem.AcceptedHeld | src/mem/clmem.c:109-111 | and then the region holds its bytes, size and stamp |
| Clmem.WinnerUnique | src/mem/clmem.c:97-111 | there is one winner at most, so the fold's winner fixes the contents |
| Clmem.StampsNeverDecrease | src/mem/clmem.c:97-111 | a region's stamp never goes down and a filled region stays filled |
| Clmem.OtherRegionsKept | src/mem/clmem.c:85-116 | a put leaves all other regions untouched |
| Topology.AwayLeadsBack | src/interfaces/clipif.c:138-145 | on a tree, sending away from a copy's origin reaches a clipboard whose only way back to the origin is the sender |
| FloodInvariant.SentWasPushed | src/interfaces/clipif.c:118-148 | whatever was sent over a link was accepted and pushed by the sender and did not come from the receiver |
| FloodInvariant.SentNoRepeat | src/interfaces/clipif.c:138-145 | nothing is put on a link twice |
| FloodSteps.DeliverIsNew | src/interfaces/clipif.c:234-276 | a delivered copy was never offered to that memory before |
| FloodSteps.StepKeeps | src/interfaces/clipif.c:118-148 | every step of the flood keeps conservation on each link, slaves in step, directions towards the origin, and causes at the origin |
| FloodSteps.Reachable | src/interfaces/clipif.c:118-276 | all of this holds in every reachable state of every tree and run |
| Convergence.HeldCopy | src/mem/clmem.c:97-111 | a non-empty region holds an accepted copy with the largest stamp offered there |
| Convergence.RestSpreads | src/interfaces/clipif.c:261-275 | with nothing in flight, what one clipboard accepted was offered to every neighbour |
| Convergence.StampsConverge | src/interfaces/clipif.c:234-276 | with nothing in flight, every clipboard's region holds some copy made to it with the largest stamp made anywhere, and is empty exactly when no valid copy was made |
| WriterOrder.HistoryShape | src/mem/clmem.c:97-111 | accepted copies carry ascending stamps and the region holds the last of them |
| WriterOrder.HistoriesAgree | src/interfaces/clipif.c:118-148 | copies of a single slave are accepted everywhere in that slave's order: always a prefix of its own clipboard's history, all of it at rest, however many stamps are equal |
| FloodBound.CrossesOnce | src/interfaces/clipif.c:138-145 | two deliveries of one copy go to different clipboards, never to the origin, never back over a link |
| FloodBound.QueuesInOrder | src/thread/queue.c:82-124 | the broadcaster handles pushed packets in push order |
| FloodBound.FloodEnds | src/interfaces/clipif.c:118-148 | k accepted copies on n clipboards cause at most k*(n-1) deliveries and k*(5n-2) steps in all, in any run |
| FloodBound.SomeStep | src/interfaces/clipif.c:135-145 | whenever something is left to do some step other than a copy can be taken, also when a send blocks on a full link of any capacity |
| FloodBound.ComesToRest | src/interfaces/clipif.c:118-276 | from every reachable state the packets in flight can be worked off without new copies, on links of any capacity of at least one packet |
| FloodReach.CopyCanEnter | src/interfaces/appif.c:178-236 | at any time any new copy can enter at any clipboard, unless its slave still has one to push |
| FloodReach.AnyCopies | src/interfaces/appif.c:178-236 | any series of different copies can be made in that order and worked off |
| FloodReach.NeverWaits | src/interfaces/clipif.c:118-276 | slaves and broadcasters wait for nothing but their next packet |
| Ties.TieFreeRunAgrees | src/mem/clmem.c:97-111 | without ties between slaves all clipboards at rest hold the same bytes |
| Ties.DivideAcross | src/mem/clmem.c:98 | two tied copies from different clipboards: a run after which each holds the other's for good |
| Ties.DivideInside | src/interfaces/appif.c:207-235 | two tied copies from two slaves of one clipboard: put and push in opposite orders divide it from a neighbour |
| Ties.BytesConvergeIffTieFree | src/mem/clmem.c:97-111 | the bytes of a region converge in every run if and only if the copies are tie-free |
| RwLock.InvKept | src/thread/rwlock.c:68-115 | each statement of the lock keeps: the reader counter is the number of counted readers, and the semaphore's one unit is at the semaphore, with a writer or with the readers |
| RwLock.ReaderExcludes | src/thread/rwlock.c:68-89 | a reader inside means no writer inside and the semaphore taken |
| RwLock.Exclusion | src/thread/rwlock.c:68-115 | in every reachable state a writer is inside alone |
| RwLock.Progress | src/thread/rwlock.c:68-115 | whenever a thread is not idle some busy thread can step, also with the first reader asleep holding the mutex |
| RwLock.AllIdleResets | src/thread/rwlock.c:68-115 | when all threads are idle the semaphore is 1, the count 0 and the mutex free |
| RwReach.AllCanFinish | src/thread/rwlock.c:68-115 | from every reachable state all threads can get out again |
| RwReach.WriterEnters | src/thread/rwlock.c:82-89 | and then any of them can go on to write |
| RwReach.ReadersTogether | src/thread/rwlock.c:72-78 | readers share: with nobody writing or waiting to, all idle threads can come to read together, beside those that do already |
| RwReach.WaitsOnlyFor | src/thread/rwlock.c:68-115 | a thread waits only for the mutex and the semaphore |
| RegionLinear.StepKeeps | src/mem/clmem.c:68-116 | every statement and every copied byte keeps zone, heap, register and log in agreement |
| RegionLinear.NoReadAfterFree | src/mem/clmem.c:77-79 | a reader's next byte is in a live buffer and is the register's byte |
| RegionLinear.FreesLiveBuffers | src/mem/clmem.c:97-107 | mem_put never frees a buffer that is not live, nor the zone's when it is refused |
| RegionLinear.Linearizable | src/mem/clmem.c:68-116 | concurrent gets and puts behave like an atomic register: each call answers by its own entry of one sequential log, made between its call and its return, in real-time order |
| RegionLinear.GetReturnsOnePut | src/mem/clmem.c:68-83 | a get returns the leading bytes of one accepted put, the last before it, never a mixture, or nothing if there was none |
| RegionRegister.ReplayIsFold | src/mem/clmem.c:85-116 | the register is one region of the sequential memory |
| RegionRegister.PutTakenIff | src/mem/clmem.c:97-115 | a finished put returned its size exactly when no put before it in the order of effect has a larger stamp |
| RegionHeap.NothingLeaks | src/mem/clmem.c:92-111 | every live buffer is the region's or a call in progress has it still to place or free |
| RegionHeap.OnlyTheRegions | src/mem/clmem.c:92-111 | with no call in progress the heap holds the region's buffer and nothing else |
| RegionProgress.SomeCallMoves | src/mem/clmem.c:68-116 | whenever a call is in progress some call in progress has a move |
| RegionProgress.AllCanFinish | src/mem/clmem.c:68-116 | from every reachable state all calls in progress can be finished without new ones, each with its entry |
| RegionProgress.CallCompletes | src/mem/clmem.c:68-116 | with no call in progress any get of any size and any put of some bytes can be made and is answered as the register answers |
| RegionProgress.WaitsOnlyFor | src/mem/clmem.c:68-116 | a thread can begin any call at any time, and a call in progress waits only for the lock's mutex and semaphore |
| Queue.Queue.constructor | src/thread/queue.c:34-56 | a new queue is empty and open |
| Queue.Queue.Push | src/thread/queue.c:64-96 | the element is appended, or refused after termination with the mutex left locked |
| Queue.Queue.Terminate | src/thread/queue.c:27-32 | the flag is set and the contents stay |
| Queue.Queue.Pop | src/thread/queue.c:98-131 | the oldest element is handed out also after termination; the end is announced only when nothing is left |
| Queue.Queue.Walk | src/thread/queue.c:82-124 | the nodes linked from first are acyclic, n_elements many, and end at last |
| BroadcastDrain.Drains | src/thread/queue.c:73-130 | accepted pushes are always the popped items followed by the queue; the broadcaster ends only after popping all of them, the goodbye among them |
| BroadcastDrain.EndedStays | src/thread/queue.c:75-80 | after the broadcaster has ended nothing is accepted |
| BroadcastDrain.NoLostWakeup | src/thread/queue.c:90-110 | a sleeping broadcaster has nothing to do or is owed a signal |
| BroadcastDrain.FreedOnce | src/interfaces/clipif.c:265-275 | a freed packet is nowhere else and never freed again |
| BroadcastDrain.AllFreed | src/interfaces/clipif.c:146-148 | at the end every packet read has been freed |
| BroadcastDrain.LeakedIffRefused | src/thread/queue.c:76-80 | the mutex is lost exactly when a push was refused by the code as written |
| BroadcastDrain.Progress | src/thread/queue.c:98-116 | unless the mutex is lost some thread can go on until the broadcaster is joined |
| BroadcastDrain.DoomIsForever | src/thread/queue.c:73-80 | once the mutex is lost or about to be, the broadcaster pops nothing more and never ends |
| BroadcastDrain.ShutdownCompletesIff | src/interfaces/clipif.c:504-540 | the exact condition under which the shutdown can still complete |
| BroadcastDrain.SafeIff | src/interfaces/clipif.c:504-540 | the exact condition under which no continuation can keep the shutdown from completing |
| BroadcastDrain.GoodbyeStuck | src/thread/queue.c:76-80 | a run of the code as written that never completes |
| BroadcastReach.RejectFrees | src/interfaces/clipif.c:263-268 | a packet the memory refuses can always be freed at once |
| BroadcastReach.ReadsAgain | src/interfaces/clipif.c:186-196 | an idle slave can always read another packet |
| BroadcastReach.AllCanBeFreed | src/interfaces/clipif.c:118-152 | with the unlock, and as written until the shutdown begins, every packet can be worked off, freed, and the shutdown completed |
| BroadcastReach.WaitsOnlyFor | src/thread/queue.c:64-131 | slaves, shutdown and broadcaster wait only for the mutex, a signal or each other's end |
| Wire.U32RoundTrip | src/utils/packet.h:30-31 | integers survive the wire |
| WireLayout.Identifiers | src/utils/packet.h:6-19 | the packet identifiers |
| WireLayout.ShortLayouts | src/utils/packet.h:22-46 | goodbye, sync and fetch packets byte by byte |
| WireLayout.DataLayout | src/utils/packet.h:27-33 | data packets byte by byte |
| WireLayout.ClipOtherEnds | src/interfaces/clipif.c:278-286 | any other type ends a clipboard's session |
| WireLayout.ClipSyncFromBelow | src/interfaces/clipif.c:203-232 | a sync's type from below is passed over |
| WireLayout.ClipNoReadEnds | src/interfaces/clipif.c:242-259 | a copy of no bytes, or of more than an int holds, ends it with its data unread |
| WireLayout.AppOtherSkipped | src/interfaces/appif.c:241-242 | an application's unknown byte is passed over |
| WireLayout.AppHugeEnds | src/interfaces/appif.c:198-201 | a copy of more than an int holds ends an application's session |
| Wire.FetchReads | src/utils/packet.h:36-40 | a packed fetch packet reads back, with nothing left over |
| Wire.DataReads | src/utils/packet.h:27-33 | a packed data packet reads back, header and data, with nothing left over |
| Wire.ClipTakes | src/interfaces/clipif.c:196-259 | a clipboard's slave takes a sync or copy packet whole |
| Wire.CutStarves | src/interfaces/clipif.c:196-259 | a packet cut anywhere is never taken for a message |
| Wire.SessionTakesAll | src/interfaces/clipif.c:186-287 | messages in front of a stream are taken first, whatever follows |
| Wire.ClipRoundTrip | src/interfaces/clipif.c:186-287 | every series of link messages decodes to itself, up to any cut |
| Wire.ClipGoodbye | src/interfaces/clipif.c:278-281 | a goodbye ends the session with nothing left over |
| Wire.SyncUpwardsMisreads | src/interfaces/clipif.c:203-232 | a sync sent up the tree would put the receiver out of frame |
| Wire.AppTakes | src/interfaces/appif.c:101-204 | an application's request is taken whole |
| Wire.AppCutStarves | src/interfaces/appif.c:101-204 | a request cut anywhere is never taken for one |
| Wire.AppRoundTrip | src/interfaces/appif.c:95-243 | requests after which the session goes on (pastes, non-empty copies, waits that get bytes) decode to themselves, up to any cut |
| Wire.AppStopsEarly | src/interfaces/appif.c:95-249 | otherwise the first request after which it does not go on is the last one served, and everything behind it stays unread |
| Wire.EmptyCopyEnds | src/interfaces/appif.c:178-248 | a copy of no bytes is served and ends the session, whatever comes behind it |
| Wire.AppGoodbyeIff | src/interfaces/appif.c:95-249 | a series of requests and then the goodbye are all taken, with nothing left over, if and only if the session goes on after each request |
| Transfer.SendData | src/utils/packet.c:10-20 | all bytes in order, or -1 and exactly the strict prefix the kernel took |
| Transfer.RecvData | src/utils/packet.c:22-32 | the loop as written, every call at the front of the buffer with the full size |
| Transfer.ReceivesAllIff | src/utils/packet.c:22-32 | recvData works for all data if and only if the first recv is complete |
| Framing.SendSeries | src/interfaces/clipif.c:118-148 | what the broadcaster's successive packets put on one link |
| Framing.DeliversIff | src/interfaces/clipif.c:118-148 | in either direction, every series of packets with a goodbye behind it arrives as a prefix, or whole and ending the session, if and only if a failed send is followed by failures alone |
| Framing.PassingFailureMisframes | src/interfaces/clipif.c:141-143 | a failure that passes, in the middle of a packet, makes the other end take a time nobody sent |
| Delivery.ArrivesIff | src/utils/packet.c:10-20 | packets and a goodbye arrive whole, with nothing left over and the session ended, if and only if every send returns its size |
| Delivery.WorkingSendsAll | src/utils/packet.c:10-20 | which every send does on a connection that works, however short its writes |
| Delivery.LinkDeliversIff | src/interfaces/clipif.c:118-287 | from the broadcaster to the slave's loop over complete recvs: a prefix of the packets is taken, and all of them if and only if every packet's send returned its size |
| Delivery.WorkingLinkDelivers | src/interfaces/clipif.c:118-287 | on a connection that works all packets are taken, in order, and nothing is left over |
| Delivery.ClientSends | Library/client_api.c:114-258 | what a client's series of calls puts on its stream |
| Delivery.PasteArrivesIff | Library/client_api.c:160-172 | a paste request arrives if and only if the one send takes all six bytes; otherwise the slave waits |
| Delivery.AppDeliversIff | src/interfaces/appif.c:95-249 | from the client's calls to the slave's loop: all requests are served if and only if each goes out whole and the session goes on after each but the last |
| Reception.ClipSlaveTurn | src/interfaces/clipif.c:186-287 | the reads of one turn through recvData, type first, then the rest, then the data |
| Reception.AppSlaveTurn | src/interfaces/appif.c:95-243 | the same for an application's slave |
| Reception.ClipSlave | src/interfaces/clipif.c:186-287 | the loop over these turns until one of them ends it |
| Reception.ClipHearsTurn | src/interfaces/clipif.c:186-287 | with complete recvs these reads take exactly the message, or end exactly where, the decoder says |
| Reception.AppHearsTurn | src/interfaces/appif.c:95-243 | the same for an application's slave |
| Reception.ClipHearsSession | src/interfaces/clipif.c:186-287 | with complete recvs the loop takes exactly the messages of the stream's session, and leaves what it leaves |
| Reception.AppHearsRequests | src/interfaces/appif.c:95-249 | the same for an application's slave |
| Reception.ShortRecvMisreads | src/utils/packet.c:22-32 | after a short recv a slave takes a time nobody sent |
| Reception.ShortRecvSwallows | src/utils/packet.c:22-32 | or drops a sync and swallows the goodbye behind it |
| Broadcast.SendToAll | src/interfaces/clipif.c:135-145 | every slot with a positive descriptor other than the packet's own source gets the packet or the prefix the kernel took; every other slot gets nothing |
| Broadcast.SendItem | src/interfaces/clipif.c:135-145 | on working sockets the slots that get the whole packet are exactly the peers the flood's broadcaster has to serve with it |
| Session.AppSession.Turn | src/interfaces/appif.c:95-248 | one turn on any request, a goodbye or an unknown type, with the result of mem_wait as a parameter: memory, answer bytes (twice where the macro evaluates twice) and whether the loop goes on |
| Session.AppSession.ClipboardCopy | Library/client_api.c:114-148 | packet out, six bytes back, their size field returned; on a clean session the size exactly when the memory takes the copy, and when the streams are clean again |
| Session.AppSession.ClipboardPaste | Library/client_api.c:150-197 | request out, header and data back, 0 on a wrong type or an empty answer, the oversize case included; on a clean session the region's leading bytes and no change |
| Session.AppSession.ClipboardClose | Library/client_api.c:249-258 | on a clean session the server has left its loop afterwards, with nothing left over and the memory unchanged |
| Session.OversizeAnswer | Library/client_api.c:182-194 | an answer longer than asked for is written whole, and as many bytes as were asked for are thrown away behind it |
| Session.CopyAlone | src/interfaces/appif.c:178-236 | on a clean session a copy returns its size exactly when it is taken, and what it leaves on the streams |
| Session.PasteAlone | src/interfaces/appif.c:109-139 | on a clean session a paste returns the region's leading bytes and changes nothing |
| Session.PasteAfterStray | Library/client_api.c:169-177 | with a second acknowledgement in the way a paste returns nothing |
| Session.ServeGoesOnIff | src/interfaces/appif.c:244-248 | the session goes on after a copy or paste exactly when the copy is not empty |
| Session.WaitAnswered | src/interfaces/appif.c:141-176 | a wait is answered with what mem_wait hands out, at most as much as was asked for |
| Session.WaitGoesOnIff | src/interfaces/appif.c:165-170 | and the session goes on after it exactly when that is something |
| Session.OverfillingRun | Library/client_api.c:169-194 | with the macro, at any network times: a six-byte copy, a paste, a one-byte copy and a paste of one byte, which hands out two |
| Session.NeverOverfillsIff | Library/client_api.c:182-194 | in sessions with copies of at most m bytes every paste stays within the count asked for, so that the oversize branch is dead, if and only if the minimum is real or m is below six |
| Session.LikeMemoryIff | src/interfaces/appif.c:108-248 | such sessions always answer as the memory itself would if and only if the minimum is real or m is below six |
| Session.CopyThenPasteIff | src/interfaces/appif.c:244-248 | copy then paste hands the bytes back if and only if the minimum is real, the copy is below six bytes, or nothing is asked for |
| Session.SessionIsMemory | Library/client_api.c:114-258 | if so, any series of copies, empty ones too, pastes and goodbyes over the streams, with others' puts in between, answers as the memory itself would and leaves the same memory and clean streams |
| ServerLoop.ServerIsDecoder | src/interfaces/appif.c:95-249 | the server serves exactly the requests the decoder finds on any stream, leaves exactly what it leaves, and has left its loop exactly when that session has ended |
| ServerLoop.Loop | src/interfaces/appif.c:95-249 | the loop over turns, tied to that |
| Slots.Occupy | src/interfaces/clipif.c:391-399 | taking a free slot keeps counter, slots and slaves in agreement |
| Slots.Vacate | src/interfaces/appif.c:59-66 | so does giving one up, and a slave's slot is occupied until then |
| Slots.NothingLeft | src/interfaces/appif.c:369-373 | the counter stays within the table, and finalize leaves its wait only with no slot occupied and no slave left |
| Slots.AppTable.constructor | src/interfaces/appif.c:327-351 | an empty table |
| Slots.AppTable.Accept | src/interfaces/appif.c:290-322 | each outcome's exact condition; the first free slot is taken, the zombie assertion cannot fail, and only a connection on descriptor 0 breaks the table |
| Slots.AppTable.CloseConn | src/interfaces/appif.c:48-71 | the slot, the counter and the slave go together |
| Slots.ClipTable.constructor | src/interfaces/clipif.c:447-495 | slot 0 and no clock with a parent, an empty table and a clock without |
| Slots.ClipTable.Accept | src/interfaces/clipif.c:356-401 | each outcome's exact condition; a newcomer is called a zombie, and the lock kept, exactly when every free slot was held; only a connection on descriptor 0 breaks the table |
| Slots.ClipTable.CloseConn | src/interfaces/clipif.c:72-109 | the same for clipboards, and losing the parent makes a root with a clock |
| Clock.NetworkClock.Sync | src/utils/time.c:13-19 | from here on the clock goes on from the value synced to |
| Clock.NetworkClock.Now | src/utils/time.c:21-26 | after a sync to n at reading r, it returns n plus the seconds since r, modulo 2^32 |
| Clock.NowAfterSync | src/utils/time.c:13-26 | synced to n at reading r, the clock shows n + (r' - r) at reading r', modulo 2^32, also when the offset wraps |
| Clock.OneHop | src/interfaces/clipif.c:203-227 | after a sync a child is within the miscredited time (transit less credited delay, either way), rounded up, plus one second of its parent; which is at most max(L, D) + 1 |
| Clock.ChainError | src/interfaces/clipif.c:203-227 | down a chain the hops' errors add up |
| Clock.ChainBound | src/interfaces/clipif.c:203-227 | a clipboard k hops below the root is within k * (max(L, D) + 1) seconds of it after one wave |
| Links.StepKeeps | src/interfaces/clipif.c:72-540 | joins, losses of the parent, syncs, copies, goodbyes and closes keep every link readable for its receiver |
| Links.Forest | src/interfaces/clipif.c:447-495 | connections always form a forest: one connection upwards each, to a clipboard that joined before |
| Links.LinksReadable | src/interfaces/clipif.c:201-286 | syncs travel only downwards, and every copy under way has a region below ten and some data |
| Links.SlaveInFrame | src/interfaces/clipif.c:201-286 | a slave takes each next packet whole or as a goodbye: no unread time, no read of nothing, no unknown packet |
| LinksFlow.PassesOn | src/interfaces/clipif.c:201-276 | what a clipboard has queued and is sending is exactly its own ticks, entered copies and goodbye, the syncs taken from its parent and the copies its memory accepted, in order, less what its broadcaster took |
| LinksFlow.LinkCarries | src/interfaces/clipif.c:135-145 | each direction of a link carries exactly the hello and what its sender sent, in order, less what was taken off |
| LinksFlow.DoneIff | src/interfaces/clipif.c:135-145 | a packet is done with exactly when it was sent on every connection open throughout the loop but its own |
| LinksFlow.RootHasClock | src/interfaces/clipif.c:95-101 | a clipboard that stays runs a clock exactly when it has no parent |
| LinksFlow.JoinCompletes | src/interfaces/clipif.c:447-495 | any clipboard can be joined, and the newcomer is ready with the connection open at both ends |
| LinksFlow.TreeBuilt | src/interfaces/clipif.c:406-502 | every tree of clipboards can come about |
| LinksFlow.ByeParts | src/interfaces/clipif.c:278-296 | a goodbye read closes the reader's end, and from the parent makes it a root with a clock |
| LinksFlow.EventsCome | src/interfaces/clipif.c:59-69 | clipboards can start, be joined, take copies in, tick, say goodbye and leave at any time |
| LinksFlow.PacketsCome | src/interfaces/clipif.c:186-287 | an open connection can be lost, and what has arrived on it be taken, at any time |
| LinksWave.WaveComes | src/interfaces/clipif.c:201-232 | from every reachable state a clipboard's tick can come down any open path of clipboards that stay, each told what the one above it made of it |
| LinksWave.WaveSyncs | src/interfaces/clipif.c:203-227 | so every chain of syncs is carried by some wave, after which its clocks are within the chain's bound |
| LinksWave.SyncFollows | src/interfaces/clipif.c:203-221 | such chains exist for all times and credits |

## Left out

- Replication.Legal: the tree is fixed and all memories start empty. A clipboard that joins later is sent a clock hello and no contents (src/interfaces/clipif.c:365, 391-399), so nothing is claimed of what it holds.
- RegionLinear.Linearizable: is about runs before mem_finish, which drops the buffers but keeps sizes and stamps (src/mem/clmem.c:122-128).
- Clock.ChainBound: the delay credited to the parent is a bounded parameter; the program measures it after connect has returned (src/interfaces/clipif.c:453-473), so its accuracy is not claimed.
- Session.AppSession.Turn: takes what mem_wait hands out as a parameter, because mem_wait itself is not modelled.
- Session.AppSession.ClipboardPaste: takes its request as sent whole; exactly when it is, says `Delivery.PasteArrivesIff`.
- mem_wait, rw_lock_wait_update and clipboard_wait: the wait is called without the mutex and keeps the read hold (src/thread/rwlock.c:117-128), and the terminate path skips the unlock (src/mem/clmem.c:54-56).
- The lock, the flood, the queue protocol, a region under concurrency and the changing links are transition systems over values rather than classes, because their subject is interleaving; aliasing and updates in place are covered by the classes for the memory, the queue, the tables, the clock, the sockets and the session.
- Links: does not model the queue's termination after the goodbye, which `BroadcastDrain` does; pushes go on there.
- Unbounded time: progress is stated as "some step can be taken" and as existing ways to rest or to shut down, not under a scheduler.
- finalize's wait on its condition variable appears as the condition that lets it leave; thread cancellation, detaching and use of structures after finalize are left out.
- A parent's slave that first runs after clipif_finalize has cleared parentSock (src/interfaces/clipif.c:168, 531): `Links` fixes which end serves the parent when the slave is created.
- The clock thread's single packet buffer, which it reuses for every sync (src/interfaces/clipif.c:60-67): a queued sync is a value here.
- The flood does not limit a clipboard to 20 connections; every tree is allowed.
- Descriptors and their reuse in the flood and in `Links`: connections have numbers of their own.
- A failing send or receive in the middle of an application's session: `Session` has whole packets on its streams, and a read that would block ends as if the connection were gone.
- malloc failures, sizes whose 32-bit sums overflow, and the width of n_elements. Messages whose length does not fit an int are not sent here; what a receiver makes of such a size field is modelled.
- Socket creation, host lookup, argument parsing, logging, the makefile and the test programs: nothing there is hard.
