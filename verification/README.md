# A verified model of the distributed job queue

The program is a batch system of three kinds of processes. Clients submit jobs to a main
server, which keeps them in bounded queues and in a table of the last ten jobs; exec servers
ask the main server for work, run one job at a time and report how it went. This project
models the main server's scheduler, the session with an exec server and the message layer
between them, and proves what holds over whole runs.

## How the model is built

| module | models |
|---|---|
| `Words`, `Jobs` | unsigned counters that wrap, and the job as it is stored |
| `Ring` | one queue: fifteen slots and two free-running 32-bit counters; `Ring.Queue` is the object, with the loops of removeJob |
| `History` | the ten-slot job table indexed by 16-bit ids; `History.Table` is the object, with the loop of findJob |
| `Codec`, `Framing` | the packed messages, their setters and getters, and sendMsg / recvMsg over a stream that moves arbitrary pieces |
| `Monitor` | the two condition variables of a queue |
| `Scheduler` | the main server as a transition system: any number of handler threads, N queues (1 to 256), every critical section one step |
| `Conservation`, `Memory`, `Delivery`, `Wakeups`, `Lifecycle`, `QueueIndex`, `GlobalFifo` | what every run of the scheduler keeps |
| `Submissions`, `Outcomes` | from a client's submission to the message an exec server reads, and from the end of a process to the answer a client gets |
| `Races` | concrete runs that show why hypotheses are needed |
| `LockDiscipline` | the lock structure of the handler operations |
| `Session`, `Reports` | the handler loop and an exec server over two channels, and the same reports as the scheduler reads them |
| `Arguments` | how an exec server splits a command line |

A `Scheduler.Run` is a sequence of steps of arbitrary threads from the initial state. Threads
that wait may be woken by a signal or without one, and compete with threads that just arrived.
Whether an ACK comes before the timeout, how many bytes of a message get out before a
connection breaks, and how a job ends are free choices. Any idle thread may act as a client
handler or as an exec-server handler, which allows more runs than the program has.

A run stops before a step that is not `Sound`, because C or the queue gives no meaning to what
follows: a put right after the put counter wrapped with jobs queued, a removeJob that leaves its
array, a putJobBack that reads a job that was freed or frees one still in use, an unsubmit that
writes `job_array[-1]`. For each of these the exact condition is proved (`Ring.PutAppendsIff`,
`Ring.Queue.RemoveJob`, `Memory.MemorySafeIff`) and a state that meets it is given
(`Ring.CollidingPut`, `Ring.FaultingRemove`, `Races.ReadAfterFree`, `Races.FreedInQueue`,
`Races.MissingRecord`). Up to there no pointer to a freed job is followed
(`Memory.RunsAreMemorySafe`), so it makes no difference whether a later submission is given the
block of a freed job, and the model gives every submission an address of its own. Conservation,
at-most-once delivery, memory safety, wakeups and the full flag hold in all these runs; the
agreement of records with queues in those that are also `Timely`.

`Lifecycle` speaks of runs that are also `Benign`. Two steps write a state to a record that they
find by a 16-bit id, and they must write the right one: the end of unsubmit finds the record of a
job that is out of its queue, and a report finds no record, that of its own job, or one that
says already what the report says. Nothing is asked of removeJob. These two guards are exact:
in a state in which every record is right, the step keeps every record right if and only if its
guard holds (`Lifecycle.MarkRecordsIff`, `Lifecycle.ReportRecordsIff`). The guard on reports
holds while fewer than 65536 jobs were submitted after the one reported
(`Lifecycle.RecentReportsAreRight`). Runs in which they fail are `Races.LateUnsubmit` and
`Races.OverwrittenRecord`.

## What the proofs show about the code

- A ring put at counter 0 with jobs queued loses the newest job and queues the new one twice,
  because 2^32 mod 15 is 1 (`Ring.PutContents`, `Ring.CollidingPut`); these are the only puts
  that do not append (`Ring.PutAppendsIff`) or do not conserve jobs
  (`Conservation.PutConservesIff`).
- removeJob reads outside its array exactly when the queue is not empty and `put_idx % 15` is 0
  (`Ring.Queue.RemoveJob`). Elsewhere it deletes the first match if the occupied slots do not
  wrap, and drops the newest job otherwise, also when nothing matches (`Ring.RemoveContents`,
  `Ring.RemovesRequestedIff`, `Ring.WrongJobRemoved`). `Lifecycle.RemoveTakesNoOtherIff` says
  exactly when an unsubmit drops a job that nobody named.
- unsubmit is not atomic: a job can be marked UNSUBMITED while a handler goes on to send it
  (`Races.LateUnsubmit`), and after ten further submissions it writes outside the table
  (`Races.MissingRecord`). `Lifecycle.MarkRecordsIff` says exactly when there is a record and the
  mark is right, also after removeJob has dropped a job.
- putJobBack can read a job that another handler has sent and freed (`Races.ReadAfterFree`), and
  can free a job that is queued (`Races.FreedInQueue`). The read is safe exactly when the job was
  neither delivered nor unsubmitted since, and the free exactly when removeJob has dropped the
  job (`Memory.BackMarkSafeIff`, `Memory.BackFreeSafeIff`).
- A report can overwrite the record of another job once ids have wrapped
  (`Races.OverwrittenRecord`); `Lifecycle.ReportRecordsIff` says exactly when.
- With two or more queues a retained record can name the wrong queue for good, when one
  putJobBack is overtaken by another of the same job (`Races.StaleIndex`).
  `QueueIndex.BackMarkAgreesIff` gives the exact condition; with the configured single queue it
  always holds (`QueueIndex.OneQueueIsTimely`).
- The table is the last ten submissions except for nine submission counts after each wrap of
  the 16-bit id (`History.LastTenIff`), and each cycle of ids leaks ten records
  (`History.LiveRecords`).
- The queues together are first-in-first-out for every number of queues and for all values of
  the ticket counters, also past 2^32 and when N does not divide 2^32, because both counters
  lead to queues by the same function (`GlobalFifo.OneFifo`).

## Model

| member | source | states |
|---|---|---|
| Ring.PutContents | main_server.c:411-423 | a put appends to the sequence of queued jobs, except that at counter 0 with jobs queued it replaces the newest job and appends the new one; it keeps the full flag right |
| Ring.PutAppendsIff | main_server.c:411-423 | a put appends if and only if it does not collide (or rewrites the same job) |
| Ring.CollidingPut | main_server.c:420-420 | a concrete queue on which one put loses a job and duplicates another |
| Ring.GetContents | main_server.c:651-658 | a get takes the head of the sequence, leaves the tail and leaves the full flag right |
| Ring.SlotsDistinctIff | main_server.h:29-38 | occupied slots are pairwise different if and only if the window does not hold both 2^32 - 1 and 0 |
| Ring.LengthOfCounts | main_server.c:413-417 | the unsigned difference of the counters is the true number of puts minus gets, past every wrap |
| Ring.FullIffFifteen | main_server.c:411-423 | in every interleaving of puts, gets and removals, wraps and collisions included, the counter difference equals an unbounded reference count and the state is FULL exactly at fifteen |
| Ring.RemoveContents | main_server.c:511-538 | removeJob deletes the first match, keeping order, when the occupied slots do not wrap and one exists; in every other case where it stays in its array it drops the newest job |
| Ring.RemovesRequestedIff | main_server.c:517-529 | for a job that is queued, removeJob removes that job if and only if the slots do not wrap or it is the newest; for an absent job it drops the newest |
| Ring.TakesNoOtherIff | main_server.c:517-529 | whatever removeJob takes out has the requested id if and only if the newest job has it, or some job has it and the slots do not wrap |
| Ring.WrongJobRemoved | main_server.c:517-529 | two queued jobs in slots 14 and 0: asked for the older, removeJob drops the newer |
| Ring.FaultingRemove | main_server.c:525-528 | fifteen jobs put and none taken: a queue on which removeJob leaves its array |
| Ring.RemoveAliased | main_server.c:517-529 | what removeJob leaves in a window that a colliding put has corrupted, for every length and with or without a match |
| Ring.Queue.constructor | main_server.c:187-218 | a new queue is empty, with a right flag |
| Ring.Queue.PutJob | main_server.c:411-423 | waits exactly when fifteen jobs are queued; otherwise the queue is the put of the old one, and the job is appended unless it collides |
| Ring.Queue.GetJob | main_server.c:650-658 | waits exactly when the queue is empty; otherwise old contents are the returned job followed by the new contents |
| Ring.Queue.ScanFor | main_server.c:517-524 | stops at the first slot with the id between get and put positions, else at the end |
| Ring.Queue.ShiftFrom | main_server.c:525-528 | moves the later slots one place down; leaves the array exactly when its unsigned bound underflowed |
| Ring.Queue.RemoveJob | main_server.c:511-538 | an access outside the array happens exactly when the queue is not empty and the put position is 0; otherwise the new contents are the old ones without the victim |
| History.AppendAgrees | main_server.c:384-392 | adding a record keeps the table in agreement with the history of submissions, and the id is the submission number modulo 65536 |
| History.RetainedEarlier | main_server.c:384-392 | a record that is in the table has been there since its submission |
| History.FindIsDirect | main_server.c:540-555 | in every reachable table the scan equals the direct lookup of slot id % 10, and stays in the array |
| History.FindRetained | main_server.c:540-555 | every retained record is found by its id |
| History.FoundIsLatest | main_server.c:540-555 | a record that is found belongs to the latest submission with that id |
| History.FindRecent | main_server.c:540-555 | for one of the last 65536 submissions the lookup succeeds exactly if its own record is retained |
| History.RecentIsOwner | main_server.c:540-555 | while fewer than 65536 jobs were submitted after it, the id of a job finds no other job's record |
| History.UpdateOwner | main_server.c:765-793 | state changes, unsubmit marks and queue changes touch the record of the job that owns the id and no other |
| History.LastTenIff | main_server.c:385-392 | the table holds exactly the last ten submissions if and only if the ids have not just wrapped |
| History.NoNullInRange | main_server.c:800-815 | loops over min(history_putidx, 10) slots meet no null record |
| History.LiveRecords | main_server.c:385-392 | records allocated minus freed after n submissions are 10 * floor(n / 65536) + min(n mod 65536, 10) |
| History.FreedOnce | main_server.c:387-392 | no record is freed twice, and no freed record is in the table |
| History.UpdatesAgree | main_server.c:765-793 | state changes, unsubmit marks and queue changes keep the table in agreement |
| History.Table.constructor | main_server.c:137-147 | the table starts empty |
| History.Table.NewJob | main_server.c:383-393 | the table with the new record, its id, and which record is handed to free |
| History.Table.FindJob | main_server.c:540-555 | the loop returns the result of the scan |
| History.Table.ChangeState | main_server.c:765-793 | exactly the found record gets state and exit status |
| History.Table.Withdraw | main_server.c:497-500 | exactly the found record becomes UNSUBMITED; index -1 is used exactly when none is found |
| History.Table.ChangeQueue | main_server.c:750-760 | exactly the found record gets the queue index; reports whether there was one |
| Codec.RoundTrip | PROTO_DIST_QUEUE.h:119-423 | for every message type, the getters read back what the setters wrote |
| Codec.WireLayout | PROTO_DIST_QUEUE.h:41-117 | at which byte of a message each field is, for every message type |
| Codec.BareBytes | PROTO_DIST_QUEUE.h:288-301 | the bytes of the messages without a body |
| Codec.ClientBytes | PROTO_DIST_QUEUE.h:261-287 | the bytes of the short messages between clients and the main server |
| Codec.ReportBytes | PROTO_DIST_QUEUE.h:382-416 | the bytes of the reports: state 1 for RUN, 5 for the exit statuses 40 and 41, 2 for every other, 4 for a signal |
| Codec.StrNCpy | main_server.c:338-340 | a copy holds the bytes before the terminator, as many as fit, then zeros |
| Codec.CopiedTwice | main_server.c:338-340 | a copy of a copy is a copy of the original |
| Codec.CopyTwice | main_server.c:338-340 | copying a strncpy copy into a buffer of the same size changes nothing |
| Codec.RelayNoInter | main_server.c:335-345 | a batch submission reaches the exec server as type 9 with the assigned id; of both paths the bytes before the terminator, at most 256, then zeros |
| Codec.RelayInter | main_server.c:348-358 | an interactive submission keeps id, port, address and paths, and arrives as type 10 exactly when its address is not zero |
| Codec.MsgBuffer.Set | PROTO_DIST_QUEUE.h:239-423 | setting a message in place writes its encoding, leaves the rest of the union as it was, and decodes to the message |
| Framing.ParseIsAll | PROTO_DIST_QUEUE.c:41-61 | receiving until the stream runs dry skips nothing and reads nothing twice |
| Framing.ParseConcat | PROTO_DIST_QUEUE.c:41-61 | concatenated frames are recovered at their own boundaries whatever incomplete piece follows |
| Framing.CutIsIncomplete | PROTO_DIST_QUEUE.c:25-32 | a message of which bytes are missing is not a complete frame for the receiver |
| Framing.AnyPiece | PROTO_DIST_QUEUE.c:25-56 | a send or a receive may move any part of what can be moved |
| Framing.MoveKeeps | PROTO_DIST_QUEUE.c:19-61 | every partial send or receive keeps what was read, is in flight and is unsent equal to the messages sent |
| Framing.TransferIsFaithful | PROTO_DIST_QUEUE.c:19-61 | under every chunking and interleaving the frames received are a prefix of those sent, and all of them once nothing can move |
| Framing.MessagesArrive | PROTO_DIST_QUEUE.c:41-61 | the k-th message decoded is the k-th message that was set |
| Framing.Socket.SendMsg | PROTO_DIST_QUEUE.c:19-33 | goes on until all is sent or a send fails: returns 1 exactly if no send failed, and then the whole message is on the stream; otherwise the result of the send that failed, with a proper prefix on the stream |
| Framing.Socket.RecvMsg | PROTO_DIST_QUEUE.c:41-61 | goes on until a frame is in or a recv fails: returns 1 exactly if no recv failed, having consumed exactly a complete frame and left it in the buffer; otherwise the result of the recv that failed, having consumed less than a frame; a header that announces fewer than 5 or more than 525 bytes is a fault, and nothing else is; terminates by (header pending, bytes left) |
| Monitor.AnyMayWake | main_server.c:421-421 | a signal may wake any of the blocked threads, one or more |
| Monitor.StepKeepsWakeups | main_server.c:411-423 | put, get, remove and spurious wakeups keep the law that a blocked consumer implies occupancy at most the woken consumers, and dually for producers and free slots |
| Monitor.NeverBothStuck | main_server.c:651-661 | the law excludes both sides blocked with nobody woken |
| Scheduler.StepWF | main_server.c:371-793 | every step keeps queues, table, tickets and job numbering well-formed |
| Scheduler.FreeChoices | main_server.c:595-739 | what may happen next depends only on where a handler is: any request, any wakeup, an answer or none, any part of a message sent |
| Scheduler.JobFrameTells | main_server.c:669-675 | the message sent for a job decodes to its id, paths, port and address |
| Scheduler.QueueAnswerIsOccupancy | main_server.c:450-467 | in every run the bytes queueState answers say FULL exactly for a queue of fifteen jobs, and bad parameters exactly for a queue that does not exist |
| Conservation.StepConserves | main_server.c:371-793 | every step keeps each job in its one place |
| Conservation.JobsConserved | main_server.c:371-762 | in every run each accepted job is in exactly one place: on its way to a queue, queued, held by a sender, being withdrawn, delivered with reports pending, finished, unsubmitted, or dropped by removeJob |
| Conservation.PutConservesIff | main_server.c:411-423 | a put keeps every job in one place if and only if it does not collide |
| Memory.MemorySafeIff | main_server.c:639-762 | a step follows no pointer to a freed job, frees nothing twice or in use and writes no missing record if and only if it is not one of the unsafe ends of putJobBack and unsubmit |
| Memory.BackMarkSafeIff | main_server.c:750-751 | the look-up of putJobBack reads a live job if and only if the job was neither delivered nor unsubmitted since it was queued again, or was dropped by removeJob and not freed |
| Memory.BackFreeSafeIff | main_server.c:753-757 | the free of putJobBack, a step of its own after the unlock, is safe if and only if removeJob has dropped the job and nobody freed it |
| Memory.RunsAreMemorySafe | main_server.c:639-762 | every step of every run is safe for memory in this sense |
| Memory.FreedWhenDone | main_server.c:663-686 | in every run a job is freed at most once, and one that removeJob did not drop is freed exactly when no queue and no handler has it any more |
| Conservation.DeliveredAtMostOnce | main_server.c:639-687 | in every run no job is sent completely to two exec servers or twice to one |
| Delivery.StepWires | main_server.c:663-686 | a put-back leaves at most a cut message on its connection, on which nothing more is written |
| Delivery.JobMessagesAreDistinct | main_server.c:663-686 | the job messages an exec server can parse from the bytes of its connection are those of the jobs counted as sent, each job once over all connections |
| Delivery.HungUpStaysClosed | main_server.c:621-634 | a handler whose peer hung up stays closed and its connection untouched |
| Submissions.JobWasSubmitted | main_server.c:371-397 | in every run the k-th job has the payload of a submission whose ticket its handler had just taken, and the id k modulo 65536 |
| Submissions.AnswerNamesJob | main_server.c:360-369 | the bytes of the answer to a submission name the job, and asking for its state at once answers WAIT |
| Submissions.MessageIsSubmission | main_server.c:669-675 | in every run the a-th job message in the bytes of a connection decodes to the id, paths, port and address of the submission of the a-th job sent |
| Submissions.CheckedBeforeSent | main_server.c:663-677 | in every run a job message in the bytes of a connection comes right after a check |
| Submissions.RecordKnowsClient | main_server.c:402-409 | in every run a retained record has the address of its job's client |
| Wakeups.StepRefines | main_server.c:411-423 | every step of the scheduler is a step, or no step, of each queue's monitor |
| Wakeups.NoWakeupLost | main_server.c:651-661 | in every run, for every queue, no wakeup is lost and the two sides are never both stuck |
| Lifecycle.StepLife | main_server.c:469-509 | every benign step keeps records, places, reports and memory in order, whatever removeJob does |
| Lifecycle.RecentReportsAreRight | main_server.c:765-771 | a report writes no other job's record while fewer than 65536 jobs were submitted after the one reported |
| Lifecycle.RecordsFollowEdges | main_server.c:765-793 | in every benign run a record moves only from WAIT to RUN, ERROR or UNSUBMITED and from RUN to FINISHED, SIGNALED or ERROR, and in a terminal state keeps its exit status |
| Lifecycle.TerminalIsFinal | main_server.c:765-793 | a record that reached a terminal state keeps it and its exit status while it is in the table |
| Lifecycle.ReportsAreDefined | main_server.c:776-790 | in every run no report takes changeStateJob to its assert(0) |
| Lifecycle.AnswersTellPlace | main_server.c:425-447 | in a benign run the state byte jobState answers says where the job is: 1 if and only if RUN and no end was read, 2, 4 or 5 if and only if an end was read, 0 for every job that waits, 3 for an unsubmitted one and only for a job taken out of its queue |
| Lifecycle.LookGoesOnIff | main_server.c:474-489 | unsubmit goes on, with the queue the record names, if and only if there is a record for the id and it says WAIT; otherwise it changes nothing |
| Outcomes.RecordShowsOutcome | main_server.c:765-793 | in a benign run, once the end of a job was read, its record shows how the process ended: ERROR for exit 40, 41 and a failed fork, SIGNALED with the signal, FINISHED with every other exit status |
| Outcomes.AnswerShowsOutcome | main_server.c:437-441 | the same of the message jobState sends |
| Outcomes.AnswerIsLastReport | main_server.c:425-447 | state and exit value of that message are those of the last report about the job that was read |
| Lifecycle.RemoveTakesNoOtherIff | main_server.c:511-538 | the removal of unsubmit takes no job but one with the given id out of the queue if and only if the queue is empty, its newest job has the id, or some job has it and the slots do not wrap |
| Lifecycle.ReportRecordsIff | main_server.c:765-793 | changeStateJob keeps every record right if and only if it finds no record, that of the job reported, or one that says already what the report says |
| Lifecycle.MarkRecordsIff | main_server.c:497-500 | the end of unsubmit finds a record and keeps every record right if and only if the job of the record found is out of its queue, taken by this or another unsubmit or dropped |
| QueueIndex.StepIndex | main_server.c:741-762 | every timely step keeps the agreement of records with queues |
| QueueIndex.BackMarkAgreesIff | main_server.c:758-760 | the write of putJobBack keeps the agreement if and only if the job whose record it writes has not moved on to another queue in the meantime, other than by a putJobBack that has yet to write |
| QueueIndex.IndexAgrees | main_server.c:378-382 | in every timely run a queued job with a retained record is in the queue its record names, or a putJobBack into that queue is about to write it |
| QueueIndex.OneQueueIsTimely | main_server.h:6-6 | with one queue every run is timely |
| QueueIndex.UnsubmitSearchesRightQueue | main_server.c:488-495 | in every timely run, with no putJobBack of it in flight, unsubmit looks for a queued job with a retained record in the queue that holds it, unless the record does not say WAIT |
| Races.LateUnsubmit | main_server.c:488-500 | a run with one queue after which a record says UNSUBMITED while a handler holds the job |
| Races.MissingRecord | main_server.c:488-500 | a reachable state with one queue in which unsubmit is about to write job_array[-1] |
| Races.FreedInQueue | main_server.c:749-757 | a reachable state with one queue in which putJobBack is about to free a job that is in the queue |
| Races.OverwrittenRecord | main_server.c:765-793 | a reachable state with one queue in which a report about one job is about to turn the record of another from WAIT to RUN |
| Races.ReadAfterFree | main_server.c:749-751 | a reachable state with one queue and one job in which putJobBack is about to read a job that was sent and freed, with its record found |
| Races.StaleIndex | main_server.c:741-762 | a benign run with two queues after which, with nothing in flight, a record names the wrong queue |
| GlobalFifo.TicketsMatch | main_server.c:645-658 | when nobody overtakes on a queue, the get with ticket k is served the job put with ticket k, for every number of queues and all counter values |
| GlobalFifo.GetServesTicket | main_server.c:645-658 | the handler that fetches with ticket k goes on with the job put with ticket k |
| GlobalFifo.OneFifo | main_server.c:377-380 | when operations go through in ticket order, the jobs taken out of all queues are a prefix of the jobs put in, new or put back |
| LockDiscipline.OneMutexAtMost | main_server.c:371-538 | for any number of threads running checked operations: no thread owns two mutexes, unlocks and condition waits release a mutex the thread owns, socket calls and ended operations own none |
| LockDiscipline.OwnersRun | main_server.c:639-661 | a thread that cannot go on waits for a mutex whose owner can, so no cycle of waiting threads forms |
| LockDiscipline.NoDataRace | main_server.c:371-538 | no two threads running checked operations are ever at the same shared data |
| LockDiscipline.NewJobChecked | main_server.c:371-423 | newJob with putJob takes its three mutexes in order and passes the static check that all shared data is touched under its mutex |
| LockDiscipline.SendJobChecked | main_server.c:639-762 | sendJob with checkServerStatus and putJobBack takes its mutexes in order and passes the static check on every path |
| LockDiscipline.UnsubmitChecked | main_server.c:469-538 | unsubmit with removeJob takes its mutexes in order and passes the static check on every path |
| LockDiscipline.QueriesChecked | main_server.c:425-467 | jobState, queueState and changeStateJob pass the static check |
| Session.StepLockstep | main_server.c:595-739 | every step of either end keeps the two ends and the channels in one of the listed joint states |
| Session.StaysInStep | exec_server.c:78-187 | in every run of a connection neither end reaches its bad-type branch, exec_server_protocol nests at most twice per request, and at most one job is outstanding |
| Session.ReportsTellTheStory | exec_server.c:380-411 | each job taken is reported as RUN and one end, or as one failed fork with 41, in order and with the states and values its outcome asks for; the main server has read a prefix, and while the connection is up nothing is missing, nor the RUN of the job that is running |
| Session.TakenAsGiven | exec_server.c:104-118 | the a-th message an exec server starts on describes the a-th job given: id, paths, port and address |
| Session.RequestIsServed | exec_server.c:78-145 | request, check, ACK and job lead in these steps to the exec server starting on the job |
| Session.JobIsReported | exec_server.c:380-411 | a started job is reported as its outcome asks for, and both ends are back where they were |
| Session.StopIsHeard | exec_server.c:95-102 | an exec server that stops ends its handler |
| Session.FailureEnds | main_server.c:689-739 | an unanswered check, a closed connection and a failed send end the end that notices, and give out no job |
| Reports.HeardIsStory | main_server.c:603-616 | in every run of the scheduler the reports read on a connection are a prefix of those that the outcomes of the jobs sent on it ask for, in order |
| Reports.SessionIsStory | exec_server.c:167-187 | what the main server hears in a session is such a prefix for some way in which the jobs given end |
| Arguments.TokensSplit | exec_server.c:249-260 | the words are the maximal runs free of space and newline: each stands between such characters or the ends of the line, and together they are all the others, in order |
| Arguments.TokensAreTheLetters | exec_server.c:249-260 | the words are all characters other than space and newline, in order |
| Arguments.SplitJoin | exec_server.c:249-260 | splitting words joined by single spaces gives them back |
| Arguments.NextToken | exec_server.c:252-254 | each call returns the next maximal run and where to go on |
| Arguments.ParseArgs | exec_server.c:249-260 | the array of twenty holds the first nineteen at most of the maximal runs free of space and newline, then null pointers |
| Arguments.ArgumentsRoundTrip | exec_server.c:249-260 | re-splitting the arguments joined by spaces gives the same arguments |

## Left out

- Ring.Queue.RemoveJob: says nothing about the queue after an access outside the array, because C does not define it.
- Codec.MsgBuffer.Set: stands for all setters; one method per setter would only repeat it.
- Framing.Socket.RecvMsg: says nothing of the buffer beyond the header after a header that announces fewer than 5 or more than 525 bytes, because what recv may then write past the buffer is not defined; no setter writes such a header.
- Interrupted system calls (EINTR), where sendMsg and recvMsg move their cursor by -1.
- Runs past a step that is not `Sound`: what the program does after reading or freeing memory it should not, and with a queue after a colliding put.
- How a later run is affected once a record is wrong: `Lifecycle` says exactly which step makes it wrong and stops there.
- A send that the operating system reports complete on a connection that is already broken: the job then counts as delivered, and at-most-once delivery is not affected.
- Exec servers that do not follow the protocol: the reports the scheduler reads are those of `Session`, as `Reports` states.
- The 5-second wait and the 6-second sleep: whether the ACK comes in time is a free choice.
- The dispatch loop of client handlers and the answer to an unsubmit: any idle handler may start any client operation.
- The locks of the console's listing functions, and the listings themselves.
- Time stamps, creation of sockets and threads, initialisation and destruction of mutexes, failing allocations.
- The client's command loop and the relaying of interactive sessions.
- fork, wait, execvp and redirection: how a child ends is a free choice of exit status or signal.
