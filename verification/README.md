# netvizd: verified models

netvizd collects time series, stores them in PostgreSQL through a pool of connections, and
serves them over TCP.  This project models five connected parts of it in Dafny 4.11 and proves
what they are for.  `dafny verify dfyconfig.toml` checks everything.

1. **The intrusive list** (`NvList.dfy`).  The circular list of `src/nvlist.h` on the heap: a
   sentinel known by its NULL data, a second form for the empty list, deletion given nothing but
   the node, and the loops that delete behind themselves.  Freeing leaves no cell behind in a node,
   so a program that reads or writes a node after freeing it does not verify.
2. **The connection pool** (`PoolProtocol.dfy`, `PoolRuns.dfy`, `PoolLocks.dfy`, `PoolHeap.dfy`,
   `PoolSystem.dfy`, `PoolHistory.dfy`, `StorageOps.dfy`, `StorageHistory.dfy`,
   `LockedOps.dfy`).  A transition system with one step per critical section, for any number of
   clients and any pool size, with connections that may break at any time; theorems about all its
   runs, and about what get and release make of a connection that is down; a finer system with the
   three mutexes and three counters, whose interleavings are proved to be runs of the first; the
   critical sections as methods over heap lists; all threads with their local variables over those
   lists, where a node read or made before a lock is taken outlasts any sections of other threads;
   and the storage operations running on the pool, one section at a time and between the locks,
   which never deadlock, can never be kept from their ends by the order of sections, and ask what
   they should on connections that they give back.
3. **FETCH** (`LineReader.dfy`, `Request.dfy`, `RequestServer.dfy`, `Sampler.dfy`, `Service.dfy`,
   `Server.dfy`).  The buffered line reader, the printer of requests (Java) and their reader (C:
   lower-casing and `strtok_r` in place, `atoi`), the down-sampling loop with its session variables,
   and the main loop that puts them together, from the bytes of a client to the answers it gets.
4. **The configuration front end** (`Lexer.dfy`, `Parser.dfy`, `ConfigText.dfy`,
   `ConfigParse.dfy`, `ConfigLayout.dfy`, `ConfigRoundTrip.dfy`, `ConfigAccept.dfy`,
   `ConfigStale.dfy`).  Flex's rule choice, the start-condition stack that the parser drives, the
   grammar with its actions, the concrete syntax with any layout, and what any other text comes to.
5. **The configuration linker** (`Linker.dfy`, `ConfGraph.dfy`, `ConfigLoad.dfy`).  `create_conf`
   builds objects that point to each other; ENUM and the data set search of FETCH read them; and
   `config_init` goes from the text of the file to those objects and a status.

`CInts.dfy`, `CStrings.dfy`, `ConfigFile.dfy` and `Wrappers.dfy` hold what several parts share.

## What the code does that one might not expect

Each of these is a theorem about the code as it stands.

* After a complete answer the Java client leaves `quit` in its output buffer, so it goes out in
  front of the next request of the same connection; after a refusal it does not.  So call k of a
  connection is served if and only if no earlier call was answered in full
  (`Request.ServedUntilComplete`), and gets its points if and only if its data set is known and no
  earlier call's was (`Server.OneFullAnswer`).
* A word that only begins with `quit`, `exit` or `enum` is taken for that command
  (`Request.CommandLine`).
* A FETCH round trip works if and only if both names are single lower-case words, the times fit in
  an `int` and the line without its end fits the server's buffer (`Request.RequestRoundTrip`).  A
  data set with an upper-case letter in its name or its system's name can never be fetched
  (`Service.FetchableNames`).
* The plan of the down-sampler is only remade for two rows or more, and the tally of unreported
  rows goes into the next FETCH (`Sampler.SessionConserves`, `Sampler.FetchReports`,
  `Server.BytesConserve`).
* A FETCH divides by zero exactly if the spacing of its first two rows is 0 and `res*60` is
  positive, both as ints (`Sampler.FetchTraps`, `Sampler.SessionTraps`).  For a resolution within
  35791394 of zero that is: the same time, and a minute or more; at 35791395 the product wraps to a
  negative number and nothing is divided, and at -35791395 it is the other way about
  (`Sampler.TrapsMeans`, `Sampler.FetchTrapsOnce`).  The bytes of a client end the process exactly
  if one of their requests is answered with such rows (`Server.DiesExactly`).
* Once nothing begins, nothing breaks and reconnections go well, no order of the critical sections
  keeps a storage operation from ending: only a bounded number of them is possible, and then all
  operations have ended (`StorageOps.EveryScheduleEnds`).  Between the lock operations all but a
  bounded number of steps are the taking of a lock or its dropping for a wait, and more than that is
  possible until all operations have ended (`LockedOps.EveryInterleavingEnds`).
* A configuration file ends the process, on a null pointer, exactly if some storage or sensor block
  has no values (`ConfigRoundTrip.PrintedConfigEnds`, `ConfigAccept.EveryText`); a system or data
  set without a description does the same later (`Linker.CreateConf`).
* A value `yes` or `no` that stands behind the brace that closes a generic block is accepted, with
  the text of an earlier token as its value, because the scanner does not set one there
  (`ConfigStale.StaleYesIsAccepted`); the configurations of `ConfigAccept.EveryText` have such
  values (`StaleYes`, `StaleNo`).
* An instance's list of data sets and the data sets' own pointers agree if and only if no data set
  refers to a name that two instances share (`ConfGraph.LinksAgree`); files in which they do not
  are loaded with status 0 (`ConfigLoad.SharedNameDisagrees`).
* A name of 256 characters or more never matches a reference to itself
  (`Linker.LongNamesNeverMatch`), so an accepted file can leave a data set without a system, and
  does so exactly for such names (`ConfigLoad.SystemMissingIffLong`); a file that lacks nothing else
  then fails to load for its name's length alone (`ConfigLoad.LongNameLosesSystem`).

## Model

| member | source | states |
|---|---|---|
| NvList.NullLinksExactlyWhenEmpty | src/nvlist.h:22-40 | the sentinel's links are NULL exactly when the list is empty |
| NvList.NextPrevInverse | src/nvlist.h:31-36 | from any node of a non-empty ring, next then prev, and prev then next, come back |
| NvList.NeighbourTestMeansLast | src/nvlist.h:102 | list_del's test of its two neighbours holds exactly for the only element |
| NvList.NvFree | src/netvizd.h:62-64 | freeing a variable frees what it points at, once, and leaves nothing there that could be read; the variable is NULL afterwards; a NULL variable is left alone |
| NvList.ListInsert | src/nvlist.h:69-85 | from either form of the list, the ring with the node put in after the given one; NULL arguments do nothing |
| NvList.ListAppend | src/nvlist.h:89-93 | the ring's nodes and data with the new one at the end |
| NvList.ListDel | src/nvlist.h:97-107 | given only the node: it is freed, and the ring has exactly the other nodes and data in their order; the sentinel and NULL are left alone |
| NvList.DeleteBehind | src/plugins/config/file.c:506-507 | one turn frees the node before the current one and then stands at the next live node |
| NvList.Drain | src/plugins/config/file.c:496-509 | the delete-behind loop visits every element once and in order, frees every element node, and leaves the empty form; its accesses, reads and writes, are all to nodes not yet freed |
| PoolProtocol.InitialInv | src/plugins/storage/pgsql_pool.c:119-128 | the start satisfies the pool invariant |
| PoolProtocol.ClientCopies | src/plugins/storage/pgsql_pool.c:290-335 | no critical section of a client makes or loses a copy of any connection |
| PoolProtocol.ClientLoans | src/plugins/storage/pgsql_pool.c:327-356 | the in-use list and what clients have on loan change together |
| PoolProtocol.ClientStepInv | src/plugins/storage/pgsql_pool.c:278-385 | every critical section of get and release keeps the invariant and never faults |
| PoolProtocol.StepInv | src/plugins/storage/pgsql_pool.c:130-230 | so does every step of the repair thread and of the environment |
| PoolRuns.NeverFaults | src/plugins/storage/pgsql_pool.c:304-308 | no run dequeues from an empty list, unlinks what is not on the in-use list, or queries a connection that was never opened |
| PoolRuns.ExactlyOnePlace | src/plugins/storage/pgsql_pool.c:130-230 | in every reachable state each connection is free, in use, bad or in one thread's hands, and in one such place only |
| PoolRuns.NoOtherIds | src/plugins/storage/pgsql_pool.c:131-142 | no other connection is anywhere |
| PoolRuns.NoListRepeats | src/plugins/storage/pgsql_pool.c:327-333 | no list ever holds a connection twice |
| PoolRuns.NeverShared | src/plugins/storage/pgsql_pool.c:278-339 | no connection is ever held by two threads |
| PoolRuns.InuseMeansHandedOut | src/plugins/storage/pgsql_pool.c:327-356 | a connection is on the in-use list exactly while a client has it on loan |
| PoolRuns.SizesAddUp | src/plugins/storage/pgsql_pool.c:130-165 | after the fill, the three lists and the connections in hands add up to num |
| PoolRuns.FirstInFirstOut | src/plugins/storage/pgsql_pool.c:304-308 | over every run the takes followed by the list equal the list at the start followed by the puts, for the free and the bad list |
| PoolRuns.RepairHasWork | src/plugins/storage/pgsql_pool.c:148-158 | with all clients at rest and nothing free, a repair thread that waits has a bad connection to take |
| PoolRuns.NeverStuck | src/plugins/storage/pgsql_pool.c:290-308 | whatever its clients are: in a pool of one or more, while any client has work, some thread can take a step of the pool's own code, or some client is using a connection |
| PoolRuns.ThroughIsRun | src/plugins/storage/pgsql_pool.c:130-385 | carrying out what is possible of a sequence of events is a run of the possible ones, and of the whole sequence where that is a run |
| PoolRuns.AfterTurns | src/plugins/storage/pgsql_pool.c:146-230 | n repair turns move the first n bad connections to the end of the free list |
| PoolRuns.FinishTurn | src/plugins/storage/pgsql_pool.c:168-229 | what is left of a turn frees the connection the repair thread holds |
| PoolRuns.RepairDrains | src/plugins/storage/pgsql_pool.c:146-230 | with clients idle and repairs succeeding, bad_num turns, after the one in progress, leave all num connections free |
| PoolHistory.TakenTestedPut | src/plugins/storage/pgsql_pool.c:304-380 | over any run, what a client takes off the free list in get and off the in-use list in release is tested, one connection after the other, and put where it belongs by that test: a bad one on the bad list, a good one from the free list on the in-use list, a good one from the in-use list on the free list |
| PoolHistory.OnlyGoodIsLent | src/plugins/storage/pgsql_pool.c:311-333 | over any run, a client that uses a connection took it off the free list and found it good in its last test |
| PoolHistory.BadStaysOut | src/plugins/storage/pgsql_pool.c:148-230 | what is on the bad list stays there or with the repair thread in every run in which no attempt at it succeeds |
| PoolHistory.BadIsNotUsed | src/plugins/storage/pgsql_pool.c:148-230 | so no client has it then, and it is not free |
| PoolHistory.RepairFreesMended | src/plugins/storage/pgsql_pool.c:168-229 | what the repair thread is about to free has come up in its last attempt at it |
| PoolHistory.StatusIsLastSet | src/plugins/storage/pgsql_pool.c:168-224 | a connection is good exactly if the last break of it or attempt at it was an attempt that succeeded, or there was none and it was good before |
| PoolLocks.FineStepRefines | src/plugins/storage/pgsql_pool.c:290-385 | every step between lock and unlock keeps the locking invariant and is a protocol step or none |
| PoolLocks.InterleavingsAreProtocolRuns | src/plugins/storage/pgsql_pool.c:278-385 | every interleaving of the fine steps never faults and commits a run of the protocol |
| PoolLocks.OneLockEach | src/plugins/storage/pgsql_pool.c:290-382 | no thread ever owns two pool locks |
| PoolLocks.MutualExclusion | src/plugins/storage/pgsql_pool.c:290-382 | two threads are never both inside sections of the same lock |
| PoolLocks.CountersAgree | src/plugins/storage/pgsql_pool.c:148-165 | whenever a list's lock is free, its counter is the length of the list |
| PoolLocks.GuardMeansNonEmpty | src/plugins/storage/pgsql_pool.c:292-308 | past the counter test, with the lock held, the list is not empty, in get and in the repair loop |
| PoolLocks.NeverStuckBetweenLocks | src/plugins/storage/pgsql_pool.c:290-308 | the same from every point between lock operations: some schedule of the threads carries out a step of the pool's own code, or some client is using a connection |
| PoolLocks.ReachableNeverStuck | src/plugins/storage/pgsql_pool.c:290-308 | so no reachable interleaving leaves the pool stuck by itself |
| StorageOps.AlwaysAgree | src/plugins/storage/pgsql.c:325-616 | in every reachable state of any number of operations on the pool, the pool is in a reachable state of its own and every client agrees with its operation |
| StorageOps.OperationsNeverFault | src/plugins/storage/pgsql.c:325-616 | no run of operations dequeues from an empty list, unlinks what is not in use, or queries a connection that was never opened |
| StorageOps.GotAndGivenBack | src/plugins/storage/pgsql_pool.h:67-71 | over every run a thread has got one connection more than it has given back exactly while its next call is a query or a release, and otherwise as many |
| StorageOps.WaitingHoldsNothing | src/plugins/storage/pgsql.c:402-457 | an operation that waits in a get stands at a get and holds nothing, and every connection in use is with another thread |
| StorageHistory.OperationIsWhole | src/plugins/storage/pgsql.c:325-616 | every operation that begins and ends in a run has a whole history: a connection is got and its first statement asked on it, and given back and got anew as long as it was BAD after the answer; then an update of the time gives back, gets again and inserts or changes the row, by what the first answer found; a table that was not found is created on the same connection; and every connection is given back |
| StorageHistory.SmoothHistories | src/plugins/storage/pgsql.c:325-616 | if every query succeeds on a good connection, an update of the time has exactly two, each on a connection got for it, an initialisation two exactly if the first found no table, and the other three operations one |
| StorageOps.OwnNearer | src/plugins/storage/pgsql.c:336-374 | each of its own steps brings an operation nearer to its end while the others stay where they are, or hands a connection that is down to the repair thread |
| StorageOps.CalmIsProgress | src/plugins/storage/pgsql.c:325-616 | every step that the threads take by themselves, while nothing new begins, nothing breaks and reconnections go well, leaves fewer of them, whatever the database answers |
| StorageOps.EveryScheduleEnds | src/plugins/storage/pgsql.c:325-616 | however the threads are then scheduled, they take a bounded number of steps, and when none is possible any more every operation has ended: no scheduler starves one |
| StorageOps.EveryOperationCanEnd | src/plugins/storage/pgsql.c:325-616 | so from every reachable state some such schedule leads all operations to their ends, whatever the database answers |
| StorageOps.NoDeadlock | src/plugins/storage/pgsql.c:325-616 | while some operation is unfinished, some step that the threads and operations take by themselves is possible, whatever the database answers |
| LockedOps.InterleavingsAreOperationRuns | src/plugins/storage/pgsql_pool.c:278-385 | with the mutexes and counters spelled out, every interleaving of operations between the lock operations never faults, and is a run of the operations section by section and a run of the locks |
| LockedOps.LockedAgrees | src/plugins/storage/pgsql_pool.c:278-385 | so in every reachable point the operations are in a reachable state of theirs, and the locks in one of theirs |
| LockedOps.SectionFirst | src/plugins/storage/pgsql_pool.c:290-382 | inside a section a client does nothing but what the section has: it begins, calls and ends nothing, and takes no second lock |
| LockedOps.OwnerDrops | src/plugins/storage/pgsql_pool.c:290-382 | a lock stays with its owner until the owner drops it, at the end of its section or to wait |
| LockedOps.CalmLess | src/plugins/storage/pgsql_pool.c:290-385 | every step of a thread by itself leaves less to do, but for taking a lock and waiting, which leave as much |
| LockedOps.EveryInterleavingEnds | src/plugins/storage/pgsql_pool.c:278-385 | however the threads interleave, while nothing new begins, nothing breaks and reconnections go well, all but a bounded number of their steps are the taking of a lock or its dropping for a wait, and more than that is possible until every operation has ended: no deadlock between the locks |
| LockedOps.OperationsCanEnd | src/plugins/storage/pgsql.c:325-616 | from every point of every interleaving the threads can bring all operations to their ends, whatever the database answers |
| PoolHeap.ConnList.Position | src/plugins/storage/pgsql_pool.c:327-333 | c->node is the one node of the list that carries c |
| PoolHeap.ConnList.Append | src/plugins/storage/pgsql_pool.c:137-139 | the node, its connection and the counter are added at the end |
| PoolHeap.ConnList.Take | src/plugins/storage/pgsql_pool.c:304-308 | nothing at count zero, else exactly the first connection, whose node is freed |
| PoolHeap.ConnList.Delete | src/plugins/storage/pgsql_pool.c:350-355 | given only the node, exactly its connection leaves and the others keep their order |
| PoolHeap.Pool.Prepare | src/plugins/storage/pgsql_pool.c:327-329 | a fresh node for a connection on no list is written down as its own, and no list changes |
| PoolHeap.Pool.TakeFree | src/plugins/storage/pgsql_pool.c:291-309 | the dequeue of get: nothing if none is free, else the first free connection, and no other list or node changes |
| PoolHeap.Pool.TakeBad | src/plugins/storage/pgsql_pool.c:148-166 | the dequeue of the repair loop, in the same way |
| PoolHeap.Pool.PutInuse | src/plugins/storage/pgsql_pool.c:327-333 | the connection and the node made for it go to the end of the in-use list; nothing else changes |
| PoolHeap.Pool.PutBad | src/plugins/storage/pgsql_pool.c:313-320 | the connection goes to the end of the bad list; nothing else changes |
| PoolHeap.Pool.PutFree | src/plugins/storage/pgsql_pool.c:372-379 | the connection goes to the end of the free list; nothing else changes |
| PoolHeap.Pool.InuseOnly | src/plugins/storage/pgsql_pool.c:350 | a connection on loan is on the in-use list once, at the node it points at, and on no other list |
| PoolHeap.Pool.Unlink | src/plugins/storage/pgsql_pool.c:350-355 | given a node that carries the connection on the in-use list, exactly that connection leaves it, and the node is freed |
| PoolHeap.Pool.Fill | src/plugins/storage/pgsql_pool.c:130-144 | the bad list holds new connections 0 to num - 1 in order |
| PoolSystem.SoleOf | src/plugins/storage/pgsql_pool.c:278-385 | no thread carries a connection in its variables that another thread carries |
| PoolSystem.InHandsOf | src/plugins/storage/pgsql_pool.c:309-330 | a connection that a client carries between two sections is on no list |
| PoolSystem.OthersFit | src/plugins/storage/pgsql_pool.c:278-385 | what is done to one connection leaves the variables of every thread that does not carry it in agreement with the heap |
| PoolSystem.StepTake | src/plugins/storage/pgsql_pool.c:290-308 | over the heap and the threads' variables, the first section of get is the protocol's Take, and not possible while no connection is free |
| PoolSystem.StepInspect | src/plugins/storage/pgsql_pool.c:311-329 | the status test and the node made after it are the protocol's Inspect |
| PoolSystem.StepUnlink | src/plugins/storage/pgsql_pool.c:350-355 | the first section of release is the protocol's Unlink; what leaves the list is this thread's connection at the node this thread had read |
| PoolSystem.StepRetest | src/plugins/storage/pgsql_pool.c:358-374 | the status test after it is the protocol's Retest |
| PoolSystem.StepMend | src/plugins/storage/pgsql_pool.c:168-224 | a reconnection that goes well, with the node made after it, is the protocol's Mend |
| PoolSystem.Do | src/plugins/storage/pgsql_pool.c:130-385 | any one step of any thread over the heap takes the abstract state to the one after that event, or is possible in neither; the variables of all other threads stay |
| PoolSystem.Run | src/plugins/storage/pgsql_pool.c:130-385 | any interleaving over the heap is a run of the protocol, possible exactly as far as that run is |
| PoolSystem.Interfere | src/plugins/storage/pgsql_pool.c:278-385 | any sequence of sections of other threads happens over the heap, as far as each is possible, and takes the abstract state where the protocol goes; a thread finds its variables as they were, and they still agree with the heap |
| PoolSystem.ReleaseLate | src/plugins/storage/pgsql_pool.c:350-355 | release reads c->node, any sections of other threads run, and then the unlink with that node removes exactly c from the in-use list as those sections left it, frees the node, and is the protocol's Unlink there |
| PoolSystem.InspectEarly | src/plugins/storage/pgsql_pool.c:311-330 | a node is made for a list and any sections of other threads run, which take the protocol where they go: the node still carries its connection, is on no list, and is the one the connection points at |
| LineReader.PieceShape | src/io.c:121-136 | a line has a newline only at its end, and stops there, at the limit or at the end of the stream |
| LineReader.PieceUnique | src/io.c:121-136 | that shape determines the line |
| LineReader.LinesAreTheStream | src/io.c:99-142 | the lines one after another are the stream |
| LineReader.Reader.ReadBlock | src/io.c:157-166 | the next block is in the buffer, or the stream is over and the buffer stays empty |
| LineReader.Reader.ReadByte | src/io.c:156-170 | one byte of the stream, whatever the blocks, or 0 at its end |
| LineReader.Reader.ReadLine | src/io.c:99-142 | the line in the caller's buffer with a NUL after it and nothing else changed; the answer is its length after a newline and length + 1 otherwise; 0 only at the end, with nothing buffered |
| LineReader.ReadAll | src/io.c:99-142 | repeated calls give the lines of the stream with their answers, a function of the bytes alone and not of how they were cut into blocks |
| Request.RequestRoundTrip | java/NVConnector.java:72-79 | the server reads back the five arguments exactly if the names are single lower-case words, the times are ints and the line without its end fits in 1022 bytes |
| Request.SessionRoundTrip | src/plugins/proto/net.c:165-232 | any number of such requests on one stream are all read back in order, even when the end of a line spills into the next read |
| Request.SessionOfCalls | java/NVConnector.java:65-117 | of a client's calls the server sees those up to the first that it answers in full, and then the client's quit if there is a next call |
| Request.ServedUntilComplete | java/NVConnector.java:104-110 | call k is served if and only if no earlier call was answered in full |
| Request.ServedIsReadable | src/plugins/proto/net.c:173-232 | every FETCH the server accepts, from any bytes, has lower-case single-word names and int numbers |
| Request.CutRequest | src/plugins/proto/net.c:169-170 | the first k bytes of a request are read as that request exactly if they hold its last digit |
| Request.FetchNeedsFiveArguments | src/plugins/proto/net.c:189-232 | a FETCH line of lower-case words is a request with five arguments and refused with any other number |
| Request.ServeCommand | src/plugins/proto/net.c:168-187 | a line of one word, in any letter case and with all, part or nothing of its end, is read as that word lowered |
| Request.CommandLine | src/plugins/proto/net.c:168-343 | a line of one word in front of any stream: one that begins with quit or exit, in any letter case, ends the session whatever follows, one that begins with enum is ENUM, every other one is refused, and the session goes on behind the line's end |
| Request.EveryTextIsALine | src/plugins/proto/net.c:145 | every text is words with gaps of blanks, tabs and line ends before, between and after them |
| Request.WordsOfLine | src/plugins/proto/net.c:178-228 | and those words are what the strtok_r calls give, whatever the gaps |
| Request.ServeLine | src/plugins/proto/net.c:168-343 | any line without a NUL, in any letter case and with any gaps: one whose first word begins with quit or exit leaves, with any arguments; with enum asks for the list if it has no argument; with fetch asks for data if it has five; a line without words is passed over; and every other line is refused |
| Request.LineInSession | src/plugins/proto/net.c:165-345 | and the session goes on behind that line |
| Request.StrtolReads | src/plugins/proto/net.c:215-227 | any spaces, a sign or none, any zeros and the digits of a number, whatever is behind them, are read as that number, held within a long |
| Request.StrtolReadsNothing | src/plugins/proto/net.c:215-227 | without a digit 0 is read |
| CInts.ToIntKeepsLowBits | src/plugins/proto/net.c:215-227 | a number that an int cannot hold keeps its 32 low bits |
| Request.DecReadBack | src/plugins/proto/net.c:215-227 | reading a printed number gives the number |
| Request.DecCut | src/plugins/proto/net.c:215-227 | a number cut short is read as another number |
| Request.WordsJoin | src/plugins/proto/net.c:179-228 | words printed with spaces are split into the same words |
| RequestServer.SkipSeparators | src/plugins/proto/net.c:179 | the words from the first non-separator are the words from the start |
| RequestServer.StrTok | src/plugins/proto/net.c:179-228 | one strtok_r call: the first word now stands as a C string, the words from brk are the other words, and nothing at or before the start changed |
| RequestServer.StartsWith | src/plugins/proto/net.c:182-186 | strncmp over the keyword's length is a prefix test |
| RequestServer.ParseFetch | src/plugins/proto/net.c:198-232 | exactly five words after FETCH give the request with those names and numbers, anything else is invalid; the names survive the later cuts |
| RequestServer.Parse | src/plugins/proto/net.c:178-187 | the buffer's C string is read as Interpret of its words |
| RequestServer.LowerInPlace | src/plugins/proto/net.c:173-176 | exactly the first n bytes are lower-cased |
| RequestServer.Receive | src/plugins/proto/net.c:168-187 | one turn reads the next line of the stream as the request it asks for, and consumes exactly that line |
| Server.BuildRows | src/plugins/storage/pgsql.c:355-368 | the rows of a result, in order, are the elements of a new list |
| Server.FetchRequest | src/plugins/proto/net.c:234-312 | a FETCH is refused if no data set has the names; otherwise its answer and the session's new variables are those of the down-sampling of the rows that storage gives for the first data set with the names |
| Server.Turn | src/plugins/proto/net.c:165-345 | one turn of the main loop makes the move that the first line of the stream calls for and consumes exactly that line |
| Server.ServeClient | src/plugins/proto/net.c:165-346 | what goes out, whether the process died, and the tally left are those that the stream of bytes calls for, with the tally carried from request to request |
| Server.OneReplyEach | src/plugins/proto/net.c:165-346 | every request of a session gets one reply of its kind, in order; only a FETCH of a known data set can end the session before the client does |
| Server.DiesExactly | src/plugins/proto/net.c:165-312 | the bytes of a client end the process exactly if storage answers one of the requests in them with rows that make the plan divide by zero |
| Server.BytesToPoints | src/plugins/proto/net.c:165-312 | from the bytes of a client: the i-th FETCH of a known data set is answered unless it or one before it divides by zero, and with the buckets of the rows that storage gives for it, by the plan of the last FETCH of two rows or more, on top of what the ones before it have left |
| Server.BytesConserve | src/plugins/proto/net.c:151-303 | over every session, whatever bytes arrive, the points sent and the tally left add up to the rows that storage gave |
| Server.OneFullAnswer | java/NVConnector.java:65-117 | a call of a client gets its points if and only if its data set is known and no earlier call's was, and the client takes each served call for ended as the server ended it |
| Sampler.FeedConserves | src/plugins/proto/net.c:282-303 | whatever the plan, reported sums plus the tally equal what was there plus the rows read |
| Sampler.SessionConserves | src/plugins/proto/net.c:151-155 | at every row of every request of a session, reported sums plus the tally equal all rows read since the session began |
| Sampler.FeedIsBucketing | src/plugins/proto/net.c:280-304 | the loop with its three counters produces consecutive buckets |
| Sampler.BucketPointAt | src/plugins/proto/net.c:286-303 | floor(n / k) points; point j has the sum of rows jk to jk + k - 1 and the time of row jk + skipt - 1 |
| Sampler.BucketRestIs | src/plugins/proto/net.c:286-303 | the tally carried out is the unreported tail, plus the tally carried in if nothing was reported |
| Sampler.FetchReports | src/plugins/proto/net.c:252-309 | a FETCH of two rows or more that move forward or are asked for at their own spacing or finer: floor(n / k) points with the sums of their buckets, each at the time of the bucket's middle row, the first row of two and the later middle row of a greater even number; and the tally left |
| Sampler.SkipForFits | src/plugins/proto/net.c:268-272 | k is 1 if the seconds asked for are no more than the spacing, and otherwise the number of spacings that fit them |
| Sampler.FetchReportsNothing | src/plugins/proto/net.c:252-309 | a FETCH whose rows go back, at a resolution above their distance, reports nothing |
| Sampler.NoPlanNoReport | src/plugins/proto/net.c:151-155 | without a plan nothing is ever reported |
| Sampler.PlanPositive | src/plugins/proto/net.c:258-272 | for any seconds asked for and any spacing: the plan is one row or more exactly if the rows move forward or the seconds are no more than the spacing; less exactly if they go back and the seconds are more than that; and a division by zero exactly if they stand still and the seconds are positive |
| CInts.CDivTruncates | src/plugins/proto/net.c:272 | integer division drops the fraction, towards zero |
| Sampler.FetchTraps | src/plugins/proto/net.c:252-272 | for every int resolution, products that wrap around included: a FETCH divides by zero exactly if it has two rows or more, their spacing is 0 and its seconds are positive |
| Sampler.TrapsMeans | src/plugins/proto/net.c:252-272 | for times that are ints and a resolution within 35791394 of zero, that is two first rows at the same time and a minute or more |
| Sampler.FetchTrapsOnce | src/plugins/proto/net.c:271-272 | two such rows do it for one minute and for -35791395 minutes, and not for 35791395 |
| Sampler.SessionTraps | src/plugins/proto/net.c:165-312 | a session survives exactly if none of its requests does that |
| Sampler.PlanIsLargest | src/plugins/proto/net.c:268-275 | for rows that move forward, k is 1 if the seconds are less than the spacing, and otherwise the largest number with k * diff <= seconds, and more than half of the seconds is used |
| Sampler.EvenlySpacedPoints | src/plugins/proto/net.c:258-303 | evenly spaced rows give points k * diff apart, which at a resolution no finer than the data is more than half of the seconds asked for and no more than all |
| Sampler.EvenlySpacedTimes | src/plugins/proto/net.c:269-291 | and each time is within half a spacing of the middle of its bucket |
| Sampler.SessionPoints | src/plugins/proto/net.c:151-309 | in a whole session every FETCH before the first that divides by zero sends the buckets of its rows, by the plan of the last FETCH of two rows or more, with what the ones before it have left in the tally |
| Sampler.ClientSession.MakePlan | src/plugins/proto/net.c:252-277 | the plan from the first two nodes of the ring, with int arithmetic that wraps around, or the division by zero |
| Sampler.ClientSession.Count | src/plugins/proto/net.c:286-303 | one row changes tally, midtime, counter and output as the model says |
| Sampler.ClientSession.SendRows | src/plugins/proto/net.c:280-311 | over the heap ring: the points of Feed, and every node and the list are freed, none being read or written after that |
| Sampler.ClientSession.FetchCommand | src/plugins/proto/net.c:252-312 | plan and rows together are Fetch |
| Service.FindDataSet | src/plugins/proto/net.c:234-247 | the first data set with both names, or none if there is none |
| Service.FetchableNames | src/plugins/proto/net.c:173-247 | some input asks for a data set exactly if its name and its system's name are single lower-case words |
| Lexer.ChooseIsFlexChoice | src/plugins/config/file_lexer.l:36-96 | the dispatch on the first character takes, in every start condition, the longest match and the earliest rule among the longest, for any table of keywords |
| Lexer.FlexChoiceIsUnique | src/plugins/config/file_lexer.l:43-96 | that choice is unique |
| Lexer.ClassesAre | src/plugins/config/file_lexer.l:36-41 | the character classes, character by character |
| Lexer.Yylex | src/plugins/config/file_lexer.l:45-96 | every token consumes input, a left brace leaves the first start condition, only the end of the text gives the end |
| Lexer.LinesCount | src/plugins/config/file_lexer.l:45-96 | the line number counts the newlines read outside strings |
| Lexer.FlexScanner.RunRule | src/plugins/config/file_lexer.l:76-95 | one rule in place; for any text every pop finds a start condition on the stack |
| Lexer.FlexScanner.Lex | src/plugins/config/file_lexer.l:36-96 | yylex in place is Yylex, and the stack is one of the four that can occur |
| ConfigLayout.EmptyStringIsSkipped | src/plugins/config/file_lexer.l:76-84 | an empty quoted string gives no token |
| ConfigLayout.SkipGap | src/plugins/config/file_lexer.l:45-47 | blanks, newlines and comments give no token, in both start conditions outside strings |
| ConfigLayout.ReadToken | src/plugins/config/file_lexer.l:49-96 | a token is read as itself after any gap and, in a generic block, after the brace that ends it |
| ConfigLayout.FollowText | src/plugins/config/file_lexer.l:36-96 | a text is read as its tokens, one after another, and then its end |
| ConfigLayout.KeywordFits | src/plugins/config/file_lexer.l:49-70 | every keyword is read as its own token |
| ConfigParse.PluginBlockParses | src/plugins/config/file_parser.y:122-125 | a plugin block makes the record with its name and last type and file |
| ConfigParse.InstanceBlockParses | src/plugins/config/file_parser.y:127-143 | a storage or sensor block makes the record with its values in order |
| ConfigParse.InstanceWithoutValues | src/plugins/config/file_parser.y:127-143 | a storage or sensor block without values ends the process |
| ConfigParse.GlobalBlockParses | src/plugins/config/file_parser.y:79-99 | a global block makes the records of its entries in order |
| ConfigParse.DataBlockParses | src/plugins/config/file_parser.y:85-89 | a data set block makes the record with its last settings and the enclosing system's name |
| ConfigParse.SystemBlockParses | src/plugins/config/file_parser.y:81-83 | a system block makes its data sets' records and then its own |
| ConfigParse.TopListParses | src/plugins/config/file_parser.y:70-77 | the tokens of a configuration are accepted and make its records |
| ConfigAccept.EveryText | src/plugins/config/file_parser.y:70-190 | every text: it is accepted exactly if its tokens are those of a configuration in which every instance has values, and then makes its records; it ends the process exactly if its tokens run into a storage or sensor without values; otherwise it is a syntax error |
| ConfigStale.StaleYesIsAccepted | src/plugins/config/file_lexer.l:64-93 | for any storage, plugin and word there is an accepted text in which the value of the word is written yes, behind the closing brace, and read as the word itself |
| ConfigParse.TopListEnds | src/plugins/config/file_parser.y:70-143 | with such a block anywhere, the tokens of a configuration end the process |
| ConfigRoundTrip.PrintedConfigParses | src/plugins/config/file_parser.y:70-190 | every well-formed configuration printed with any layout, a last comment without a newline included, is scanned and parsed back into its records, and the scanner ends in its first start condition with an empty stack |
| ConfigRoundTrip.PrintedConfigEnds | src/plugins/config/file_parser.y:70-190 | a printed configuration, well formed otherwise, ends the process exactly if some storage or sensor has no values, and is never a syntax error |
| Parser.DataSetsAreEnclosed | src/plugins/config/file_parser.y:81-89 | in any accepted text every data set carries the name of a system added after it |
| Parser.SystemListKeeps | src/plugins/config/file_parser.y:113-120 | a system's list adds nothing but data sets of that system and keeps its name |
| Linker.LongNamesNeverMatch | src/netvizd.h:125-127 | a name matches its own copy exactly if it has fewer than 256 characters |
| Linker.SameNameIsBytewise | src/plugins/config/file.c:311 | the comparison of two C strings finds them equal exactly if none of their first 256 bytes differ |
| Linker.BuildPlugins | src/plugins/config/file.c:212-268 | the four lists hold the plugins of their type in file order, and the status is good exactly if each has a file and a type |
| Linker.OfTypeInOrder | src/plugins/config/file.c:212-268 | each list holds exactly the plugins of its type, in file order |
| Linker.FindPlugin | src/plugins/config/file.c:307-317 | the last plugin of that name, since the search does not stop |
| Linker.PluginMeantIsLast | src/plugins/config/file.c:307-317 | a plugin's name means the last plugin that has it, since the search does not stop |
| Linker.InstanceMeantIsLast | src/plugins/config/file.c:425-459 | likewise for a storage's or a sensor's name |
| Linker.SystemMeantIsLast | src/plugins/config/file.c:472-486 | likewise for a system's name |
| Linker.BuildInstances | src/plugins/config/file.c:275-387 | the instances in file order, each word of the values the key and each value the value of one setting, in order, with the plugin of that name; good exactly if each names a plugin of its kind |
| Linker.BuildSystems | src/plugins/config/file.c:389-402 | the systems in file order; a missing description ends the process |
| Linker.LinkInstance | src/plugins/config/file.c:450-459 | the data set goes on the list of every instance of that name, and points to the last one |
| Linker.ReferringInOrder | src/plugins/config/file.c:425-470 | an instance's list holds exactly the data sets that refer to its name, in file order |
| Linker.BuildDataSets | src/plugins/config/file.c:407-491 | the data sets in file order, linked forward and back, good exactly if each is complete and every reference resolves |
| Linker.CreateConf | src/plugins/config/file.c:200-491 | 0 exactly if the input is resolvable, -1 otherwise, the end of the process exactly if a description is missing; in the first two cases the linked objects |
| Linker.ReferencesMean | src/plugins/config/file.c:305-322 | the searches among objects succeed exactly when the file has what they look for |
| ConfGraph.BackLinksAreForwardLinks | src/plugins/config/file.c:425-470 | every instance lists exactly the data sets that point to it, in file order, if and only if no data set refers to a name that two instances share |
| ConfGraph.LinksAgree | src/plugins/config/file.c:425-470 | the same for the storages and the sensors that create_conf built |
| ConfGraph.ListedOnceIffPointing | src/plugins/config/file.c:425-470 | with distinct names of at most 255 characters a data set is on a storage's list, and on a sensor's, once if it points there, and not otherwise |
| ConfGraph.Enum | src/plugins/proto/net.c:326-341 | the two loops produce the lines of ENUM |
| ConfGraph.EnumIsComplete | src/plugins/proto/net.c:326-341 | after a successful create_conf, every system once in order, and the data set lines are a permutation of the data sets, even when system names repeat |
| ConfGraph.EnumIsGrouped | src/plugins/proto/net.c:326-341 | every data set line stands under its own system, with only data set lines between |
| ConfGraph.EnumBlock | src/plugins/proto/net.c:326-341 | the lines between a system's line and the next, or the end, are its own data sets in list order |
| ConfGraph.OfSystemInOrder | src/plugins/proto/net.c:333-339 | those are exactly the data sets of the list that point to the system, in the order of the list |
| ConfGraph.SystemsResolved | src/plugins/config/file.c:472-486 | after a successful create_conf every data set points to a listed system |
| ConfigLoad.ResolvableMeans | src/plugins/config/file.c:212-491 | for what the parser hands over for an accepted text, create_conf can resolve everything exactly if every plugin has a file and a type, every instance a plugin of its kind, and every data set a type, a storage that is defined, a sensor that is defined if it names one, and a system's name below 256 characters, in whatever order they stand |
| ConfigLoad.ConfigInit | src/plugins/config/file.c:48-81 | config_init on any text: -1 for a syntax error; the end of the process exactly for an instance without values or something without a description; otherwise the linked objects, and 0 or -1 by the rule above |
| ConfigLoad.EveryTextLoads | src/plugins/config/file.c:48-81 | every text: loaded with 0 exactly if its tokens are those of a configuration whose definitions are described and complete; the end of the process exactly if they run into a storage or sensor without values or are those of a configuration that lacks a description; -1 for every other text |
| ConfigLoad.PickedInOrder | src/plugins/config/file.c:97-195 | each list of the parser holds what the calls of its kind were given, one for one |
| ConfigLoad.PlacesIncrease | src/plugins/config/file.c:97-195 | and those are exactly the calls of that kind, in their order |
| ConfigLoad.PrintedConfigLoads | src/plugins/config/file.c:48-81 | every configuration printed with any layout is loaded with 0 exactly if its definitions are complete in that sense, and ends the process exactly if values or a description are missing |
| ConfigLoad.NoSystemOnlyForLongNames | src/plugins/config/file.c:472-486 | for a data set of any accepted text, some system record's copied name is its system's name exactly if that has fewer than 256 characters |
| ConfigLoad.SystemMissingIffLong | src/plugins/config/file.c:472-486 | in what create_conf makes of an accepted text, a data set's system is NULL exactly if the system's name has 256 characters or more |
| ConfigLoad.LongNameLosesSystem | src/plugins/config/file.c:472-486 | for every name there is a text that lacks nothing else, with one data set in a system of that name; it is loaded with 0, and the data set has its system, exactly if the name is below 256 characters |
| ConfigLoad.SharedNameDisagrees | src/plugins/config/file.c:450-459 | for every n there is a text, loaded with 0, with n storages of one name: all of them list its data set, which points to the last, so the links agree exactly if n is 1 |

## Modelling decisions

* Characters are bytes; `long` has 64 bits and `int` has 32.  `atoi` is `strtol` saturating at
  `long`, cut to `int`; int arithmetic wraps around in two's complement.
* A read is one of the non-empty blocks, of at most `BUF_LEN` bytes, that the descriptor is given
  at the start; after them it reads 0 bytes.
* The rows of a query are an arbitrary sequence; where a theorem needs increasing times it says
  so, because the query has no ORDER BY (src/plugins/storage/pgsql.c:307-310).
* The grammar is LALR(1) without conflicts and is followed here by one function per nonterminal.
  The mid-rule action `push_generic` is the only action of its state, so it runs before any
  token after the brace is read; `Parser.Tokens` offers the parser both continuations.
* Runs of the pool are those in which `quit` is not raised.
* In `PoolSystem` the heap holds the lists, their nodes and the connections' node pointers.  What
  libpq knows of a connection, whether its PGconn has been made and what PQstatus answers, is a
  pair of sets of ids, which the repair thread and breaking connections change.
* In `Server` storage is a function from the number of calls so far, the data set, the times and
  the resolution to rows, and a reply is the list of its lines' contents.
* `create_conf` is modelled on the first load, when the lists it fills are empty.

## Left out

- PoolHeap.Pool.PutFree: list and counter change together; the order in which the repair thread
  raises the counter before it appends is in PoolLocks.
- Sampler.FeedConserves: values are exact reals, so rounding of doubles and of `%f` is not
  modelled, nor are `min` and `max`, which are never computed.
- Sampler.SessionConserves: the same.
- Server.BytesConserve: the same.
- Linker.CreateConf: its lists are sequences instead of the rings of NvList, names that are
  written once are constants of their objects, and the clean-up that follows
  (src/plugins/config/file.c:493-600) is NvList.Drain applied to each list.
- ConfigRoundTrip.PrintedConfigParses: strings that hold a NUL or a newline are not printed; the
  scanner and parser models do read them.
- Parser.DataSetsAreEnclosed: the structures that the actions share are passed along as a value
  instead of being overwritten in place.
- Shutdown: quit flags, pgsql_pool_free, the final clean-up of the repair thread.
- The pool's logging thread, and condition-variable signals: waits are polled with a time-out, and
  any waiter may retry.  Schedulers need not be fair, so between the locks a run may consist of
  polls alone from some point on.
- SQL text, libpq, sockets, errors of read and write, allocation failure, writen and readn, the two
  lines that greet a client.
- Replies as text, and the client's reading of their numbers.
- Storage dispatch, heartbeat threads, the sensor plugin, plugin loading, logging, option parsing.
