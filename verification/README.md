# Models of mini_grep, the bounded buffer, the chat server and is_prime

This project models four programs of the repository in Dafny and proves what their documentation, comments and
structure promise.

* **mini_grep** (`pp_2`) counts the tokens containing a search string in all files below a directory. `serial_search`
  is the simple form; `parallel_search_static` and `parallel_search_dynamic` are the fast ones. The file system is an
  immutable finite tree addressed by path names. The serial search is a method over the intrusive linked queue; the
  parallel searches are one transition system in which every write to a link, to the shared queue, to the mutex and
  every dealing step of the main thread is a step of its own. The main results: for every tree, number of threads and
  interleaving the fast forms search exactly the files the serial form searches, each once, and return the same count.
* **The bounded buffer** (`pe_3`): a producer and any number of consumers share 25 slots through a mutex semaphore, a
  token semaphore and a full-buffer handshake. It is a transition system with one program counter per process, each
  semaphore operation and each shared access being a step, and beside it a class whose methods perform those steps on
  the shared memory in place. The main results: the buffer is a stack, the handshake is exact, the shutdown has an exact
  outcome, and the system cannot deadlock with up to 100 consumers.
* **The chat server** (`pp_1_server`): a heap doubly linked list with two sentinels, and the request loop over it. The
  main results: the list refines a sequence; a broadcast that removes nodes while it walks serves exactly whom it should;
  over any sequence of requests and failures the registry keeps its shape and its membership is exactly described.
* **is_prime** (`pa_1`): trial division up to the square root in unsigned arithmetic.

| file | contents |
|---|---|
| Bits.dfy | conditions as numbers |
| Tokens.dfy | fgets, strtok and strstr on one file |
| TokenLaws.dfy | what its counts mean in terms of the text alone |
| FileTree.dfy | the tree, path names, what is reachable, how often the key occurs, also by recursion over the tree |
| ElementQueue.dfy | the intrusive queue as a class |
| SerialSearch.dfy | serial_search and what it visits in which order |
| LevelOrder.dfy | the visits, level by level |
| Dealing.dfy | round_up and the dealing loop |
| SearchThreads.dfy | the steps of the threads |
| SearchInvariant.dfy, SearchSteps.dfy | what every step keeps |
| SearchRaces.dfy | no two threads meet in one memory cell |
| SearchConservation.dfy | no file is lost or searched twice |
| SearchTermination.dfy | a measure that every step decreases |
| ParallelSearch.dfy | the parallel searches agree with the serial one |
| FileFinding.dfy | what the file threads find, and which trees there is room for |
| SearchScenarios.dfy | starts and runs on which they do not |
| BoundedBuffer.dfy | the producer/consumer transition system, the stack specification |
| BufferInvariant.dfy, BufferSafety.dfy | the invariant and what it says of every run |
| BufferItems.dfy | which items go through the buffer, and who takes them |
| BufferProgress.dfy | termination, deadlock freedom, shutdown |
| BufferScenarios.dfy | runs that strand consumers, leave some behind, or read outside the array |
| SharedBuffer.dfy | the same steps on shared memory, in place |
| PidList.dfy | the doubly linked list |
| ChatRegistry.dfy, ChatHistory.dfy | one request; any sequence of requests |
| ChatServer.dfy | the request loop over the list, for one request and for any sequence |
| Primes.dfy | is_prime |

## Where the code does something else than one would expect

* The parallel searches return 0 when the start is a plain file, where the serial search counts in it. `StaticAgreesIff`
  and `DynamicAgreesIff` give the exact condition, `StaticMisses` and `DynamicMisses` runs that return 0.
* The comment at `pp_2/mini_grep.c:937-939` says that the shared queue already holds the files of the starting directory
  and the other queue its directories. In the code all entries are in the other queue and the shared one is empty.
* A line longer than the buffer is searched in pieces. A cut inside a token makes two tokens of it, so counts can differ
  from a line-by-line count; `CountsByLineIff` says when they do not, for all keys at once, and `LongWords` gives the
  simplest lines on which they do.
* The 100 tokens posted at shutdown are meant to keep clients from getting stuck (`pe_3/producer.c:330-333`). That is
  true for every run exactly up to 100 consumers: `EverybodyLeavesIff`.
* A consumer that had read `is_finished` as false before it was set consumes once more than there is to consume. It reads
  outside the array (or an untouched slot when nothing was ever produced), and leaves `in` below zero: `AccessesInside`
  and `Outcome`. `ReadsOutsideIff` says for which numbers of items and consumers that can happen.
* The server's response buffer is reused. `resp_format_msg` never clears the system flag that every acknowledgement
  sets, and before the first acknowledgement nobody is registered, so every chat message goes out marked as a system
  message: `AlwaysSystem`.
* The number passed to `resp_format_OK` and `resp_format_FAIL` is not used: an acknowledgement carries the number and the
  origin of the last chat message, whoever sent that: `AckExact`.
* A thread's elements array is overrun as soon as there are more than 4096 elements per thread: `BlocksFit` and `Overruns`. For
  the second phase it is all regular files below the start that count, readable or not: `SecondFitsIff`.
* Where `unsigned long` has 32 bits, the loop of is_prime runs past the root of large primes, and a prime from 2^32 - 7 on
  would be reported as composite: `TestPrimeNarrow`.
* A sender addressing an unknown destination is answered OK although nothing was sent: `DirectExact`.

## Model

| member | source | states |
|---|---|---|
| Tokens.NextToken | pp_2/mini_grep.c:197-212 | strtok finds the first maximal delimiter-free run at or after its position, or says that there is none |
| Tokens.SearchLine | pp_2/mini_grep.c:197-213 | the strtok loop counts exactly the maximal delimiter-free runs of the buffer that contain the key |
| Tokens.SearchContent | pp_2/mini_grep.c:182-214 | the fgets loop adds up the counts of its buffers, each seen up to its first NUL |
| Tokens.FittingLinesCount | pp_2/mini_grep.c:182-213 | when every line of NUL-free content fits into the buffer, the count of the file is the sum over its lines |
| Tokens.CountsByLineIff | pp_2/mini_grep.c:182-213 | for content without NUL, reading through the 1024-byte buffer gives the line-by-line count for every key exactly when no full buffer ends inside a token |
| Tokens.CutsAreCounted | pp_2/mini_grep.c:182-213 | for the empty key the difference is exactly the number of tokens cut by the buffer |
| Tokens.LongWords | pp_2/mini_grep.c:182-213 | a line that is one word of n letters is counted once for each 1023 letters or part of them, so more than once exactly from 1024 letters on |
| Tokens.DelimiterNeverFound | pp_2/mini_grep.c:197-213 | a key containing a delimiter is counted zero times, for any content and any line lengths |
| TokenLaws.OccursIff | pp_2/mini_grep.c:200 | strstr finds the key in a token exactly when the token is some text, the key, and some more text |
| TokenLaws.OneWord | pp_2/mini_grep.c:197-213 | a word without delimiters counts once when it contains the key, however often, and otherwise not at all |
| TokenLaws.Separates | pp_2/mini_grep.c:197 | at each of the characters blank, comma, full stop and hyphen the count of a buffer is the sum of the counts of its two sides |
| TokenLaws.HitsArePieces | pp_2/mini_grep.c:197-213 | the count of a buffer is the number of non-empty pieces containing the key, when it is split at each of the four characters |
| TokenLaws.StopsAtNul | pp_2/mini_grep.c:184-197 | strtok sees the buffer up to its first NUL, all of it |
| TokenLaws.CountIsFound | pp_2/mini_grep.c:182-214 | however a file is cut into pieces of at most 1023 characters that end with a line, when full or with the file, its count is the number of tokens found in the pieces |
| TokenLaws.CutExists | pp_2/mini_grep.c:182-194 | every file can be cut so |
| FileTree.LookupChild | pp_2/mini_grep.c:156-159 | the path name built from a directory's path and an entry's name leads to that entry |
| FileTree.ReachedDistinct | pp_2/mini_grep.c:156-160 | every node reachable without links has a path name of its own |
| FileTree.OccurrencesAreTally | pp_2/mini_grep.c:105-226 | the occurrences summed over the reachable paths are the tally of the tree: the tokens of its readable files, added up by recursion over openable directories, without any path names |
| FileTree.SumPermutes | pp_2/mini_grep.c:1068-1072 | the total does not depend on the order in which the files are searched |
| ElementQueue.Queue.constructor | pp_2/queue_utils.c:15-22 | a new queue is well formed and empty |
| ElementQueue.Queue.Insert | pp_2/queue_utils.c:24-36 | insert_element appends to the FIFO sequence, for a queue whose tail is stale as well as for one with elements |
| ElementQueue.Queue.Remove | pp_2/queue_utils.c:38-47 | remove_element takes the first element of the sequence, or returns null for an empty queue |
| ElementQueue.Queue.NumElements | pp_2/queue_utils.c:61-71 | num_elements is the length of the sequence |
| SerialSearch.InsertEntries | pp_2/mini_grep.c:129-161 | reading a directory appends the paths of its entries, in order, to the queue |
| SerialSearch.Visit | pp_2/mini_grep.c:105-226 | one iteration appends the entries of an openable directory, or counts the tokens of a readable file, and nothing else |
| SerialSearch.Search | pp_2/mini_grep.c:77-230 | serial_search terminates, visits in breadth-first order, and returns the tally of the tree: the tokens with the key in all its reachable readable files |
| SerialSearch.VisitShrinks | pp_2/mini_grep.c:101-227 | the total size of the queued subtrees shrinks with every visit |
| SerialSearch.VisitsExactlyOnce | pp_2/mini_grep.c:101-227 | the walk visits every node reachable without links exactly once, and no other path |
| SerialSearch.VisitsByDepth | pp_2/mini_grep.c:101-227 | the walk visits the nodes in non-decreasing depth |
| LevelOrder.VisitsByLevel | pp_2/mini_grep.c:101-227 | the visits are the levels of the tree one after the other, and within a level follow the order in which the directories list their entries |
| SerialSearch.WalkSearchesFiles | pp_2/mini_grep.c:164-217 | the files searched on the walk are the reachable readable files, with multiplicity |
| Dealing.RoundUpIsCeiling | pp_2/mini_grep.c:232-235 | for non-negative ints the 32-bit unsigned computation does not wrap and gives the quotient rounded up |
| Dealing.BlocksFitIff | pp_2/mini_grep.c:30-40 | a thread's block fits into its 4096 elements exactly when there are at most 4096 elements per thread |
| Dealing.DealBlock | pp_2/mini_grep.c:540-551 | one thread gets a prefix of the queue, full unless the queue ran out |
| Dealing.DealOut | pp_2/mini_grep.c:516-553 | dealing loses and repeats nothing: the blocks in thread order are the queue, block k has what is left of the n elements up to the quotient of n and T rounded up, and the queue ends empty |
| SearchInvariant.InsertIsAppend | pp_2/queue_utils.c:24-36 | the three statements of insert_element on shared links append to the FIFO sequence, whatever the stale tail is |
| SearchInvariant.RemoveKeeps | pp_2/queue_utils.c:38-47 | remove_element takes the first item and leaves the others well linked |
| SearchSteps.StepFootprint | pp_2/mini_grep.c:265-274 | a worker's step changes no link and no ownership of what belongs to the main thread's queue or to another worker; the shared queue it touches only while holding the mutex |
| SearchSteps.StepKeeps | pp_2/mini_grep.c:237-423 | every step of every thread keeps all queues well linked, all elements in one place and the mutex with its holder |
| SearchSteps.RunKeeps | pp_2/mini_grep.c:531-571 | hence every interleaving of dealing and working does |
| SearchRaces.WritesOnlyCells | pp_2/mini_grep.c:70-75 | a statement changes no link, no end of the shared queue, no argument array and no slot of RESULTS but those it is listed to access |
| SearchRaces.ReadsOnlyCells | pp_2/mini_grep.c:70-75 | a statement has the same effect in any two states that agree on the thread's own variables and on the cells it is listed to access |
| SearchRaces.NoRaces | pp_2/mini_grep.c:531-579 | at no point of any run are two threads about to access the same link, argument array, slot of RESULTS or end of the shared queue, although only the shared queue has a mutex |
| SearchConservation.WorkerConserves | pp_2/mini_grep.c:705-840 | for every file, a worker's step keeps the number of times it is queued, in hand, published or searched |
| SearchConservation.MainConserves | pp_2/mini_grep.c:531-579 | so does every step of the main thread |
| SearchConservation.RunConserves | pp_2/mini_grep.c:531-579 | hence every run does |
| SearchConservation.DoneHoldings | pp_2/mini_grep.c:569-579 | at the end everything has been searched or handed on, and the total of RESULTS is the sum over the searched files |
| SearchTermination.StepDecreases | pp_2/mini_grep.c:271-418 | every step of every thread decreases one natural-number measure |
| SearchTermination.SomebodyCanMove | pp_2/mini_grep.c:569-571 | until the main thread has its result some thread can take a step |
| ParallelSearch.StaticAgrees | pp_2/mini_grep.c:237-582 | for every interleaving each reachable readable file below the start is searched exactly once, no other path is, and the result is the tally of the tree, which is what serial_search counts there, or 0 if the start is no directory |
| ParallelSearch.StaticAgreesIff | pp_2/mini_grep.c:466-514 | parallel_search_static returns the count of serial_search exactly when the start is not a readable file containing the key |
| ParallelSearch.SecondPhaseBegins | pp_2/mini_grep.c:997-1019 | after the file threads have been joined the shared queue is well linked, holds regular files only, and can be dealt out |
| ParallelSearch.DynamicAgrees | pp_2/mini_grep.c:705-1078 | for every interleaving of the file threads and then of the search threads each reachable readable file below the start is searched exactly once, no other path is, and the result is the tally of the tree, which is what serial_search counts there, or 0 if the start is no directory |
| ParallelSearch.DynamicAgreesIff | pp_2/mini_grep.c:889-935 | parallel_search_dynamic returns the count of serial_search exactly when the start is not a readable file containing the key |
| SearchScenarios.StaticMisses | pp_2/mini_grep.c:466-514 | on every start that is a readable file containing the key, with any number of threads, some run returns 0 where the serial count is positive |
| SearchScenarios.DynamicMisses | pp_2/mini_grep.c:889-935 | so does some run of the dynamic search |
| SearchScenarios.OneHit | pp_2/mini_grep.c:164-217 | a file holding just the letter looked for is such a start |
| ParallelSearch.ElementsMigrateSafely | pp_2/mini_grep.c:531-567 | workers relinking the elements dealt to them never change the queue the main thread is still dealing from, and dealing changes no link |
| ParallelSearch.DealsInOrder | pp_2/mini_grep.c:531-567 | at every point of every run what the threads have been dealt, in thread order, followed by what is still queued, is the same sequence, although the threads relink what they have been dealt |
| ParallelSearch.DealtFromStart | pp_2/mini_grep.c:516-553 | so dealing, with threads running, loses, repeats and reorders nothing, and once all threads exist they have been dealt the whole queue |
| ParallelSearch.BlocksFit | pp_2/mini_grep.c:30-38 | no run writes beyond the 4096 slots of a thread's elements array exactly when at most 4096 elements per thread are queued |
| SearchScenarios.Overruns | pp_2/mini_grep.c:540-551 | whenever the starting directory has more than 4096 entries per thread some run writes beyond the end of an elements array |
| SearchScenarios.CrowdOverruns | pp_2/mini_grep.c:540-551 | such directories exist for every number of threads |
| ParallelSearch.RunsReturn | pp_2/mini_grep.c:569-581 | no run is longer than the measure of its start, and a run that cannot go on has returned its result |
| ParallelSearch.CanFinish | pp_2/mini_grep.c:569-581 | from every point of every run the threads can go on to the result |
| ParallelSearch.BeginningExists | pp_2/mini_grep.c:452-514 | for every well-formed tree the insertions of the main thread build a start of the search |
| ParallelSearch.SecondStartExists | pp_2/mini_grep.c:1010-1019 | after the file threads the second phase can be set up |
| FileFinding.FilesFound | pp_2/mini_grep.c:705-840 | for every interleaving the file threads put every regular file below the start into the shared queue, readable or not, each exactly once and nothing else |
| FileFinding.FirstFitsIff | pp_2/mini_grep.c:516-551 | a static search, or the first phase of a dynamic one, fits into the threads' arrays exactly when the starting directory has at most 4096 entries per thread |
| FileFinding.SecondFitsIff | pp_2/mini_grep.c:1010-1047 | the second phase does exactly when there are at most 4096 regular files per thread below the start, readable or not |
| FileFinding.DynamicRuns | pp_2/mini_grep.c:843-1078 | for every well-formed tree that fits, and every number of threads, the whole dynamic search can be run |
| SharedBuffer.SharedMemory.constructor | pe_3/producer.c:59-114 | initialize_sems and initialize_buffer establish the initial state and the invariant |
| SharedBuffer.SharedMemory.ProducerWrite | pe_3/producer.c:299 | the write into the array, in place, replaces exactly the slot at in |
| SharedBuffer.SharedMemory.Producer | pe_3/producer.c:269-343 | whatever the producer does next is the step of the transition system and keeps the invariant; it takes up the very item drawn; its array write needs no test of the index; before shutdown the slots below in are the stack of unconsumed items, and only the increment of in pushes the item onto them |
| SharedBuffer.SharedMemory.ConsumerRead | pe_3/consumer.c:171 | the read delivers the slot at out when that is inside the array, and anything otherwise |
| SharedBuffer.SharedMemory.Consume | pe_3/consumer.c:150-190 | whatever a consumer does next is the step of the transition system and keeps the invariant; before shutdown what it reads is the newest unconsumed item, and the decrement of in pops that very item |
| SharedBuffer.ProducerPushes | pe_3/producer.c:298-301 | before shutdown a step of the producer changes the slots below in only by pushing the item |
| SharedBuffer.ConsumerPops | pe_3/consumer.c:171-173 | before shutdown a step of a consumer changes them only by popping the value it read, which was the newest |
| BoundedBuffer.StackConserves | pe_3/buffer.h:23-29 | a history that follows the stack discipline loses no item and repeats none |
| BufferInvariant.ProducerKeeps | pe_3/producer.c:269-343 | every step of the producer keeps the invariant tying in, out, is_full, the semaphores, the counters and the history together |
| BufferInvariant.ConsumerKeeps | pe_3/consumer.c:150-190 | every step of every consumer keeps it |
| BufferInvariant.RunKeeps | pe_3/producer.c:269-343 | hence every interleaving keeps it |
| BufferSafety.MutexExcludes | pe_3/producer.c:142-170 | sem_3 is free exactly when no process is between a lock and an unlock, and never are two of them there |
| BufferSafety.TokensMatchItems | pe_3/producer.c:279-305 | before shutdown, whenever the mutex is free, the value of sem_2 plus the tokens taken and not yet used is in, in is between 0 and 25, and out is in - 1 once something has been produced |
| BufferSafety.AccessesInside | pe_3/consumer.c:164-184 | the producer's write is always inside the array; a consumer's read is inside it exactly before shutdown, or when nothing was ever produced or consumed |
| BufferSafety.BufferIsStack | pe_3/consumer.c:171-174 | before shutdown each consume returned the newest unconsumed item, the slots below in are what is left, and produced = consumed + left as multisets |
| BufferSafety.FinishedMeansAllConsumed | pe_3/producer.c:324-328 | when is_finished was set all items had been produced and everything produced had been consumed exactly once |
| BufferSafety.HandshakeExact | pe_3/producer.c:285-296 | sem_1 never exceeds 1, settings of is_full are answered one by one, all are settled whenever the producer does not wait, and it comes back to a buffer with room |
| BufferSafety.CountersAddUp | pe_3/consumer.c:173-174 | the consumers' own counters plus in are the number of items produced, in every state |
| BufferItems.ProducedAsDrawn | pe_3/producer.c:269-301 | in every run the items counted into the buffer, followed by the one in hand, are exactly the items drawn from produce_work_item, in order |
| BufferItems.CountersExact | pe_3/consumer.c:171-174 | num_items_consumed of each consumer is the number of items that this consumer took, in every reachable state |
| BufferProgress.StepDecreases | pe_3/producer.c:269-343 | a natural-number measure decreases on every step but a failed poll, which keeps it |
| BufferProgress.RunsAreShort | pe_3/consumer.c:150-190 | any run of n items and N consumers has at most 30n + 1306 + 3N steps that are not failed polls |
| BufferProgress.Outcome | pe_3/producer.c:318-343 | where nobody can move the producer has exited, all stranded consumers but the first 100 served still wait, the others have exited, in is minus the number served, and the total consumed is the items produced plus that number |
| BufferProgress.NoDeadlock | pe_3/consumer.c:150-190 | with 1 to 100 consumers every reachable state in which somebody has not exited has a step other than a failed poll, at once or as soon as a poll under way has released the mutex |
| BufferProgress.ReleaseFrees | pe_3/producer.c:318-343 | such a poll can always be completed, and changes nothing but the mutex and the producer's position |
| BufferScenarios.EverybodyLeavesIff | pe_3/producer.c:330-337 | for every number of items, every run of n consumers that stops has let everybody leave exactly when n is at most 100 |
| BufferScenarios.AllStranded | pe_3/consumer.c:152-165 | for every number of items and consumers some run sets is_finished while all consumers have read it as false and wait |
| BufferScenarios.ReadsOutsideIff | pe_3/consumer.c:171 | there are runs in which a consumer reads outside the array exactly when there is a consumer, and something to produce or a second consumer |
| BufferProgress.RunsToEnd | pe_3/producer.c:269-343 | from every state of every run, with any number of consumers, the system can go on until the producer has left and nobody can move |
| BufferProgress.PassesAtMostOnce | pe_3/consumer.c:152-165 | once is_finished is set each consumer passes wait_for_producer at most once more, and only if it had read is_finished as false |
| PidList.ComparePid | pp_1_server/server.c:32-46 | compare_pidt is zero exactly for equal pids |
| PidList.NoCycle | pp_1_server/list.c:4 | nodes whose forward and backward links are mutually inverse from head to tail are pairwise distinct |
| PidList.LinkBetween | pp_1_server/list.c:69-75 | relinking two neighbours around a new node gives a well linked chain with the node between them |
| PidList.Join | pp_1_server/list.c:123-128 | relinking the neighbours of a node gives a well linked chain without it; the node keeps its own link |
| PidList.List.constructor | pp_1_server/list.c:17-49 | list_init gives the two sentinels linked to each other |
| PidList.List.Front | pp_1_server/list.c:51-54 | the first node, or the tail sentinel of an empty list |
| PidList.List.Back | pp_1_server/list.c:56-59 | the last node, or the head sentinel of an empty list |
| PidList.List.PushFront | pp_1_server/list.c:61-78 | keeps the shape and the count, and puts the pid before the sequence |
| PidList.List.PushBack | pp_1_server/list.c:80-96 | keeps the shape and the count, and puts the pid after the sequence |
| PidList.List.PopFront | pp_1_server/list.c:98-113 | keeps the shape and the count, and drops the first pid; an empty list stays as it is |
| PidList.List.PopBack | pp_1_server/list.c:152-168 | keeps the shape and the count, and drops the last pid; an empty list stays as it is |
| PidList.List.RemoveNode | pp_1_server/list.c:115-133 | removes exactly that node unless it is a sentinel; its own link stays what it was |
| PidList.List.RemovePid | pp_1_server/list.c:135-150 | removes the first node holding the pid, if there is one |
| PidList.List.Contains | pp_1_server/list.c:170-189 | membership in the sequence |
| ChatServer.Server.constructor | pp_1_server/server.c:163-178 | the server starts with no clients and number 0, whatever the response buffer holds |
| ChatServer.Server.ClientRemove | pp_1_server/server.c:105-116 | says whether the pid was registered, and removes its first occurrence; the removed node still leads to its old successor |
| ChatServer.Server.DropNode | pp_1_server/server.c:327-335 | removing an unreachable client by pid takes out the very node the walk stands on, and the walk goes on at the next one |
| ChatServer.Server.ServeNode | pp_1_server/server.c:311-360 | one client of the walk is skipped, dropped or served, and the walk stands on the next one |
| ChatServer.Server.SendGlobal | pp_1_server/server.c:306-360 | the walk over the changing list computes the broadcast over the sequence of clients |
| ChatServer.Server.HandleSystem | pp_1_server/server.c:212-302 | connect, disconnect and any other system request on the list are those on the sequence of pids |
| ChatServer.Server.SendDirect | pp_1_server/server.c:386-395 | a direct message is written to its destination if that is registered, else nothing happens and it counts as success |
| ChatServer.Server.HandleRequest | pp_1_server/server.c:206-429 | one round of the loop is one request of the registry, and keeps pids distinct and at most 100 |
| ChatServer.Server.Serve | pp_1_server/server.c:206-429 | serving a sequence of requests on the list leaves the registry, and sends the messages, that the histories speak of |
| ChatRegistry.WalkForwards | pp_1_server/server.c:340-357 | the i-th client served by a walk gets the i-th number after the one the walk began with |
| ChatRegistry.GlobalExact | pp_1_server/server.c:306-360 | a global message goes at most once to each client, and exactly to the clients other than the sender whose FIFO opens; the list afterwards is the old one in order without those that failed to open |
| ChatRegistry.FilterPieces | pp_1_server/server.c:306-360 | who stays and who is served is picked from the list piece by piece, so the order of the list is kept |
| ChatRegistry.FilterOne | pp_1_server/server.c:314-336 | and each client by itself is kept or dropped |
| ChatRegistry.GlobalCopies | pp_1_server/server.c:134-145 | the contents of every copy: consecutive numbers, the request's fields, and the system flag left over in the buffer |
| ChatRegistry.GlobalAnswer | pp_1_server/server.c:362-382 | the sender is answered OK exactly when every other client's message was written and its FIFO closed |
| ChatRegistry.AckExact | pp_1_server/server.c:118-145 | every request is answered with one system message to its sender if that one's FIFO opens; its number and origin are exactly those of the last chat message formatted, whether that was delivered or not |
| ChatRegistry.DirectExact | pp_1_server/server.c:386-428 | who gets a direct message, every field of the copy, when the sender is answered OK or FAIL, that nobody is dropped, and how the number advances |
| PidList.RemovesFirst | pp_1_server/list.c:135-150 | removing a pid takes out its first occurrence and nothing else, and nothing where there is none |
| ChatRegistry.RemoveIsFilter | pp_1_server/server.c:105-116 | among distinct pids removing the first match is removing the pid, and keeps the order |
| ChatRegistry.HandleKeeps | pp_1_server/server.c:206-429 | a request keeps pids distinct and at most 100, and changes who is registered exactly by connecting, disconnecting or failing to open |
| ChatRegistry.ConnectIff | pp_1_server/server.c:215-244 | connect answers OK exactly when the pid was new and there was room for it among 100, FAIL otherwise, and then leaves the list alone; the number advances once |
| ChatRegistry.DisconnectIff | pp_1_server/server.c:247-274 | disconnect answers OK exactly when the pid was present, FAIL otherwise, and leaves it absent and the others in order; the number advances once |
| ChatRegistry.OtherSystemOk | pp_1_server/server.c:277-302 | check_connection and every other system request is answered OK, forwards nothing, leaves the list alone and advances the number once |
| ChatHistory.AlwaysOk | pp_1_server/server.c:206-429 | over any sequence of requests and failures pids stay pairwise distinct and at most 100 |
| ChatHistory.RegisteredIff | pp_1_server/server.c:206-360 | a pid is registered exactly when it has joined at some time and since then neither disconnected nor failed to open for somebody's global message |
| ChatHistory.WrittenIffDue | pp_1_server/server.c:306-395 | a request writes a chat message exactly when it is due: to its registered destination or to every other registered client, as far as the FIFO opens, with the fields of the request and the number it has reached |
| ChatHistory.MessagesIff | pp_1_server/server.c:206-429 | over any sequence of requests and failures a chat message has been written exactly when some request made it due in the registry of that moment |
| ChatHistory.NumbersIncrease | pp_1_server/server.c:338-395 | with positive sequence lengths the messages carry strictly increasing numbers over all requests and clients |
| ChatHistory.AlwaysSystem | pp_1_server/server.c:118-145 | from the server's own start, for all sequences of requests and failures, every chat message ever delivered carries the system flag |
| Primes.TestPrime | pa_1/primes.c:130-148 | is_prime answers true exactly for the primes, for every 32-bit unsigned number |
| Primes.SquareFits | pa_1/primes.c:141 | the square in the loop test does not wrap around in 64 bits for any i the loop can reach |
| Primes.OthersAreProducts | pa_1/primes.c:130-148 | every number above 1 that is not prime, in the sense of the answer, is a product of two numbers above 1 |
| Primes.ProductsAreNotPrime | pa_1/primes.c:130-148 | and no such product is prime, nor are 0 and 1 |
| Primes.UpToTheRoot | pa_1/primes.c:141-146 | a number that nothing up to its square root divides is prime |
| Primes.TestPrimeNarrow | pa_1/primes.c:130-148 | where unsigned long has 32 bits is_prime still ends, and answers true exactly for the primes below 2^32 - 7 |

## Left out

- System calls, file descriptors, shared-memory and semaphore naming and unlinking, threads that cannot be created, sleeps, rand, timing, signals and printing; their effect on the modelled state is kept where there is one.
- The memory of the threads is sequentially consistent in the model; `SearchRaces.NoRaces` is why that is enough for the cells it lists.
- Allocation failure and the reuse of freed memory. Removed list nodes stay readable, although the server reads the link of a node it has just freed (`pp_1_server/server.c:331-333`).
- The variable `finished` is read uninitialised (`pe_3/producer.c:258`, `pe_3/consumer.c:123`); it is taken as false. The flag `flag_int` is never set.
- The producer has initialised the semaphores and the buffer before any consumer starts.
- A read of `work` outside the array after shutdown gives an arbitrary value, a parameter of the step.
- Overflow of `int` in counts, sequence numbers and list lengths; counts are unbounded.
- Buffer lengths: paths are shorter than 1024 characters and search strings shorter than the threads' copies.
- The start of a parallel search exists, and a directory can be opened (`ParallelSearch.StartsDefined`); otherwise the code goes on with uninitialised or null data (`pp_2/mini_grep.c:459-484`).
- There is at least one thread, and fewer than 2^31; with none, the code divides by zero (`pp_2/mini_grep.c:234`).
- The tree does not change while it is searched, hard-linked directories do not occur, and sibling names are distinct and without slashes. A directory that fails while it is read has only the entries delivered before; a file that fails while it is read has only the content delivered before.
- ParallelSearch.DynamicAgrees: assumes that there are at most 4096 entries of the starting directory per thread, and at most 4096 regular files below it per thread (`EntriesFit`, `FilesFit`), and `ParallelSearch.StaticAgrees` the former; beyond that the code writes past the end of an array, and the model, in which that array is a growing sequence, does not say what follows.
- SearchSteps.StepKeeps: the search of one file is a single step, because it touches nothing shared.
- BufferProgress.NoDeadlock: a failed poll under way is first completed, because at the moment when the producer holds the mutex to find the buffer not empty no other step may be possible.
- BufferProgress.RunsAreShort: failed polls are not counted; nothing in the code bounds them, it relies on the scheduler for that.
- Requests that cannot be read in full are discarded by the server and are no requests here. What a client does with its messages is not modelled.
- The 512 bytes that message texts are copied through; texts are strings of any length, and are passed on as they are.
- The circular buffer and the rest of `pa_1/primes.c`, the chat client, `pp_1`, `pe_2`, `hw_1`, `hw_1_2`, `test` and `test_2`: input and output, or copies of what is modelled.
