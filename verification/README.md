# A verified model of the message server

The server keeps users and messages in a tree of directories and files. A
client asks for one of five services over a connection: REGISTER, UNREGISTER,
CONNECT, DISCONNECT and SEND. A message to an online user is delivered at once;
otherwise it is filed in the recipient's mailbox and delivered when that user
connects. An accept loop hands connections to a pool of service threads
through a circular queue.

The project models four layers and proves that they fit together:

* **Queue.** `ConnectionQueue` is the circular array with its two critical
  sections; `QueueProtocol` is the whole monitor, one statement at a time, with
  the mutex, both condition variables, conditional signals and spurious wakeups,
  for any number of service threads.
* **Wire.** `ByteIO` has the loops over short and interrupted reads and writes,
  `Wire` the framing of requests and of the messages sent to listening clients,
  `Decimal` the printed identifiers.
* **Store.** `FileTree` has the tree and recursive removal, `Paths` the path
  strings, `Refinement` the relation between trees and a map from usernames to
  accounts, `Database` the operations in the form the server calls them.
* **Services.** `Protocol` gives each service as a whole step on accounts and a
  history of events; `Services` has the code statement by statement over the
  database and proves every service equal to its whole step. `Accounting`,
  `Lifecycle` and `Fates` prove what every serial run keeps. `Interleaving` cuts
  the services at every database call, lets any number of threads overtake each
  other and balances the account of every letter in every schedule; `Calls` shows
  that its steps are the database's operations. `Counters` says when identifiers
  keep count, `Acknowledgements` which identifier an acknowledgement carries, and
  `Schedules` links serial and interleaved runs and holds the races the code
  allows.

A letter is a message together with its recipient, compared by value, and the
history counts how often each letter was delivered, discarded by UNREGISTER,
accepted (its SEND was answered with success), acknowledged, or misread (see
below). All network outcomes, the order in which directories list their files,
and the values of variables that are read before being set are arbitrary; the
services take the outcomes and those values as arguments (`Services.Met`), so
their contracts say what each outcome leads to.

## Readings of the code

* `send_msg_reply.server_error_code` is never set before it is compared
  (src/services.c:432, src/services.c:451). It is an arbitrary value `flag`; a
  delivered letter whose `flag` is not success is counted as misread (`Stale`).
  Conservation holds for every value; the exactly-once results take success.
* REGISTER never sets the status or the address (src/services.c:254-256). The
  status is taken as disconnected, the address is arbitrary.
* CONNECT compares the reply code before setting it (src/services.c:340). It is
  taken as "no error yet".
* CONNECT drains the mailbox whatever its reply was (src/services.c:366-374).
* Nothing locks `mutex_db` (app/server.c:34, app/server.c:127). Results about
  serial runs are about the intended atomicity of services. Results about
  interleavings take each database call as the finest step.
* "Delivered" means that `clt_send_message` returned `SRV_SUCCESS`.
* `read_line` restarts an interrupted read (src/util.c:123); `read_bytes` takes
  an interruption for an error (src/util.c:95-102).
* A store does not collide only with a message one lap (4294967295
  identifiers) older: `Fates.CollidesTwoLapsOn` reaches a collision with one two
  laps older. `Lifecycle.CollisionIff` is exact with any positive number of laps.
* Three promises hold only under a condition, and each condition is exact.
  * A letter is lost exactly when its file is deleted for other letters more
    often than spare copies make up for (`Interleaving.LossIff`). In terms of
    requests, for a pool of any size: letters to a user nobody removes are safe
    exactly when at most one thread is given that user's CONNECTs
    (`Schedules.DrainersIff`; `Schedules.TwoReadersLose` is the losing schedule).
  * The counter of a user nobody removes equals the number of identifiers taken
    exactly when every thread that writes the user's data finds on file the
    counter it has read (`Counters.CountsIffFresh`). Requests that do not overlap
    are enough (`Counters.ApartCounts`); for a pool it holds in every schedule
    exactly when one thread serves alone (`Counters.PoolCountsIff`;
    `Schedules.OneIdTwice` is the schedule that shares an identifier).
  * No service thread sleeps while a socket is queued exactly in a pool of one
    (`QueueProtocol.NobodySleepsIff`; `QueueProtocol.SleepsWhileQueued` puts all
    but one to sleep beside a queue of any length). What every pool has is
    `QueueProtocol.NoLostWakeup`.

## Model

| member | source | states |
|---|---|---|
| ConnectionQueue.ContentsStore | app/server.c:179-181 | filling the cell behind the last queued socket appends it to the circular contents and disturbs none |
| ConnectionQueue.ContentsTake | app/server.c:61-63 | the cell at the service position holds the oldest socket; stepping on leaves the others in order |
| ConnectionQueue.PositionsLater | app/server.c:62 | positions that step modulo ten are operation counts modulo ten |
| ConnectionQueue.Queue.Enqueue | app/server.c:178-184 | the waiting sockets gain the new one at the end; the not-empty signal is given exactly when none waited |
| ConnectionQueue.Queue.Dequeue | app/server.c:60-66 | the oldest waiting socket is returned and removed; the not-full signal is given exactly when the queue was full |
| QueueProtocol.StepKeeps | app/server.c:54-68 | every statement of every thread keeps mutual exclusion, the contents of the ring, and the wakeup invariant |
| QueueProtocol.EnvironmentFree | app/server.c:58-58 | connections may arrive whenever the accept loop waits for one, sleepers may wake for no reason, and a signal may wake any sleepers but at least one |
| QueueProtocol.ServesWhatItTook | app/server.c:61-84 | in every reachable state the dequeued sockets are, one by one, those served and those that threads carry from taking to serving |
| QueueProtocol.FirstInFirstOut | app/server.c:171-186 | in every interleaving the sockets taken are a prefix of those accepted, the rest are the ring plus the one in hand, the size stays within 0..10, and positions are counts modulo ten |
| QueueProtocol.MutualExclusion | app/server.c:54-68 | no two threads are between locking and unlocking |
| QueueProtocol.NoLostWakeup | app/server.c:57-66 | a sleeping accept loop means a full queue and a waiting socket means an awake or signalled service thread, except while the thread about to signal holds the mutex |
| QueueProtocol.NoDeadlock | app/server.c:175-184 | in every reachable state that is not quiescent some thread has a step of its own |
| QueueProtocol.MeasureFalls | app/server.c:50-85 | every step but an arrival or spurious wakeup lowers (sockets in hand or queued, accept-loop stage, service-thread stages) |
| QueueProtocol.DrainsCompletely | app/server.c:50-85 | without arrivals and spurious wakeups a run is bounded by the measure, and where it cannot go on every accepted socket was taken in order and served exactly once, and everyone sleeps |
| QueueProtocol.SleepsWhileQueued | app/server.c:184-184 | in a pool of any size a reachable state with any number of queued sockets, one woken thread and all others asleep |
| QueueProtocol.NobodySleepsIff | app/server.c:57-66 | that no thread ever sleeps while a socket is queued and the mutex free holds if and only if the pool has one thread |
| ByteIO.WriteBytes | src/util.c:67-84 | for every schedule of short writes, success means exactly the buffer went out; an error leaves a prefix and comes exactly from a failed write |
| ByteIO.ReadBytes | src/util.c:87-104 | for every chunking, the longest available prefix of at most `len` bytes, the rest of buffer and stream untouched; an error comes exactly from a failed or interrupted read |
| ByteIO.ReadLine | src/util.c:107-142 | the first min(length, space-1) bytes before the terminator are kept and the stream is consumed exactly through it, whatever is interrupted; an error comes exactly from a read that failed otherwise |
| ByteIO.WriteEntry | src/dbms/dbmsUtil.c:122-135 | success means the whole entry is in the file, an error a strict prefix and a failed write |
| ByteIO.ReadEntry | src/dbms/dbmsUtil.c:102-119 | an error means an empty file or a failed or interrupted read; success overlays the entry with what the file has, up to the entry's size |
| ByteIO.SaveAndLoad | src/dbms/dbmsUtil.c:102-135 | an entry comes back byte for byte unless a write or read failed |
| Decimal.ReadSpelled | src/util.c:31-58 | blanks, an optional sign, digits and any tail read as that number if it fits a 64-bit `long`, and otherwise as nothing |
| Decimal.NoDigitsNoValue | src/util.c:54-57 | a text without digits after its blanks and sign has no value |
| Decimal.PortRead | src/services.c:330-342 | the stored port is the number read, reduced to 16 bits |
| Decimal.PrintedPortRead | src/services.c:330-342 | a port printed by a client is stored as that port |
| Decimal.PrintThenRead | src/util.c:37-41 | parsing the printed identifier returns it |
| Decimal.PrintInjective | src/dbms/dbms.c:100-100 | distinct identifiers have distinct file names |
| Decimal.PrintLength | src/dbms/dbms.c:92-95 | a printed number has at most k digits exactly below ten to the k |
| Decimal.IdNameFits | include/DS-Lab-Assignment/util.h:9-10 | a name has at most ten digits, and ten exactly from 1000000000 |
| Wire.FieldRoundTrip | src/netUtil.c:26-31 | a field arrives as sent with the stream in step if and only if it is free of terminators and at most 255 bytes long |
| Wire.FieldsRoundTrip | src/services.c:435-437 | any run of clean fields is received one by one, each cut to 255 bytes, so a long field never shifts the ones after it |
| Wire.RequestRoundTrip | app/server.c:73-84 | an encoded request of any length is decoded to the truncated request and nothing behind it is touched |
| Wire.StreamRoundTrip | app/server.c:72-84 | any sequence of requests on one stream decodes to those requests, truncated, consuming exactly their bytes |
| Wire.RequestSpelled | app/server.c:75-84 | the five requests in literal bytes, and the request each is decoded to with fields cut to 255 bytes |
| Wire.RequestsArriveAsSent | python/src/netUtil.py:20-59 | requests with clean fields of at most 255 bytes arrive exactly as sent |
| Wire.RecvString | src/netUtil.c:26-31 | unless a read fails, the next field of the stream, cut to 255 bytes, is received and the stream moves past its terminator |
| Wire.SendString | src/netUtil.c:17-22 | unless a write fails, the text and its NUL are written; otherwise a strict prefix |
| Wire.SendServerReply | src/netUtil.c:9-14 | unless a write fails, exactly the byte of the code is written |
| Wire.SendMessage | src/services.c:207-218 | unless a write fails, operation code, sender, identifier and content go out in that order |
| Wire.SendAck | src/services.c:232-236 | unless a write fails, operation code and identifier go out in that order |
| Wire.SendFirstAck | src/services.c:94-105 | unless a write fails, the code goes out, with the identifier behind it exactly if the code is success |
| Wire.FirstAckArrives | python/src/netUtil.py:62-65 | the client reads back the code, and on success the identifier |
| Wire.ReceiveRequest | app/server.c:73-84 | unless a read fails, the dispatcher's receive order decodes the connection's bytes; a stream that ends early is used up |
| Wire.ReceiveFields | src/services.c:310-311 | consecutive `recv_string` calls return consecutive fields and stop exactly at a failed read; a stream that ends early is used up |
| Wire.ClientSocket.SendHeader | python/src/netUtil.py:20-31 | operation code and username, each closed by a NUL |
| Wire.ClientSocket.SendRequestTo | python/src/netUtil.py:34-59 | the three sending functions write exactly the encoding that the server decodes |
| Wire.ClientSocket.ReceiveString | python/src/netUtil.py:68-82 | the text up to the first NUL, consumed with it |
| Wire.ClientSocket.ListenOnce | python/src/netUtil.py:96-112 | one turn of the listener decodes one notice from the stream |
| Wire.NoticeKinds | python/src/netUtil.py:96-112 | the operation code decides the listener's branch: exactly END_LISTEN_THREAD ends it, exactly an unknown code is invalid, and neither takes more of the stream |
| Wire.MessageArrives | src/services.c:210-213 | sender, identifier and content of a delivered message reach the listening client whole |
| Wire.AckArrives | src/services.c:235-236 | an acknowledgement reaches the listening client with its identifier |
| FileTree.OpenDirectoryLaw | src/dbms/dbmsUtil.c:28-56 | for every tree, path and mode the code, and that nothing changes or exactly the absent directory is made |
| FileTree.OpenFileLaw | src/dbms/dbmsUtil.c:11-25 | READ changes nothing, CREATE succeeds exactly on an absent path in a directory, MODIFY exactly on a file, which it empties |
| FileTree.FileSystem.ReadDirectory | src/dbms/dbmsUtil.c:75-76 | every name of the directory and the two dot names, each once, in any order |
| FileTree.FileSystem.Remove | src/dbms/dbmsUtil.c:98-98 | removes a present leaf that the system lets go, and nothing else |
| FileTree.FileSystem.RemoveRecursive | src/dbms/dbmsUtil.c:61-99 | terminates on every tree, succeeds exactly when the path exists and nothing in its subtree is refused, then removes exactly the subtree; a failure removes only descendants, and its code tells a missing path, refused contents and a refused path apart |
| FileTree.FileSystem.RemoveContents | src/dbms/dbmsUtil.c:75-87 | the listing loop removes exactly the children's subtrees, or stops with only descendants gone |
| Paths.PathsResolve | src/dbms/dbms.c:98-100 | for usernames without a slash every printed path names the intended node |
| Paths.PathsSpelled | include/DS-Lab-Assignment/util.h:85-87 | the printed paths in literal text |
| Paths.EntryPathFits | src/dbms/dbms.c:92-100 | the printed path and its NUL fit the buffer, with equality exactly for user data and ten-digit identifiers |
| Paths.PathOfInjective | src/dbms/dbms.c:98-100 | different users and identifiers never share a node |
| Refinement.AccountsDetermined | src/dbms/dbms.c:81-125 | a tree represents at most one map of accounts |
| Refinement.TreeDetermined | src/dbms/dbms.c:81-125 | trees representing the same accounts agree on everything below the database directory |
| Refinement.IoRefines | src/dbms/dbms.c:102-125 | read, create, modify and delete of user data and messages do on the tree what they do on the map, with the same code and entry |
| Refinement.UserDataDelete | src/dbms/dbms.c:103-106 | deleting user data leaves a tree that stands for some accounts if and only if the user was unknown |
| Refinement.ReadThenDelete | src/dbms/dbms.c:41-43 | the entry read by identifier deletes exactly the message it was read from |
| Refinement.TableCreated | src/dbms/dbms.c:142-159 | the three created nodes add exactly a fresh account |
| Refinement.TableRemoved | src/dbms/dbms.c:163-170 | removing a user's subtree removes exactly that account |
| Refinement.MailboxNames | src/dbms/dbms.c:37-43 | names in a mailbox directory are the printed identifiers of the pending messages and read back as them |
| Refinement.MissingIsENOENT | src/dbms/dbms.c:111-115 | a missing entry, mailbox or table is reported as missing, not as another error |
| Refinement.FreshDatabase | src/dbms/dbms.c:10-18 | initialising without a database directory yields the empty map |
| Refinement.StoredDatabase | src/dbms/dbms.c:14-17 | initialising over stored accounts succeeds and changes nothing |
| Database.InitDb | src/dbms/dbms.c:10-18 | a starting server finds the accounts on file, or the empty map; only a file in the directory's place is an error |
| Database.Dbms.UserExists | src/dbms/dbms.c:59-78 | true exactly for registered users |
| Database.Dbms.EntryIo | src/dbms/dbms.c:102-125 | on any well-formed tree the code, entry and tree after reading, creating, modifying or deleting at a path |
| Database.Dbms.IoOperation | src/dbms/dbms.c:81-125 | code, entry and accounts are those of the map operation, and the tree still represents the accounts |
| Database.Dbms.CreateTable | src/dbms/dbms.c:128-160 | an existing user is refused unchanged; otherwise exactly one empty account is added |
| Database.Dbms.DeleteTable | src/dbms/dbms.c:163-170 | reports exactly unknown users as missing; otherwise exactly that account is gone |
| Database.Dbms.GetPendingMessage | src/dbms/dbms.c:21-50 | finds a pending message exactly when there is one, whatever the listing order, and the overwritten entry still has its user, type and a filed identifier |
| Database.FreshTable | src/dbms/dbms.c:142-159 | on a fresh table the three creations all succeed |
| Services.Server.Register | src/services.c:245-272 | does to accounts and history what the whole step REGISTER does |
| Services.Server.Unregister | src/services.c:275-300 | does what the whole step UNREGISTER does, discarding the mailbox |
| Services.Server.Disconnect | src/services.c:378-424 | does what the whole step DISCONNECT does; success clears the address |
| Services.Server.Connect | src/services.c:303-375 | does what the whole step CONNECT does, for some listing order, each delivery attempt having the outcome it meets; success leaves the peer's address and the port the client printed on file |
| Services.Server.CltSendMessage | src/services.c:197-219 | the entry is refreshed from the database; the message is delivered, and success returned, exactly if the user exists and the attempt gets through |
| Services.Server.CltSendMessAck | src/services.c:222-241 | the attempt is recorded and the accounts are left alone; success exactly if the sender exists and is reached |
| Services.Server.SendOnePending | src/services.c:130-160 | one turn: exactly an attempt that gets through deletes its message alone and acknowledges it, a failure takes the user offline |
| Services.Server.SendPending | src/services.c:108-164 | the drain terminates for every order and failure pattern and equals the drain of the whole step, its k-th turn having the k-th outcome |
| Services.Server.SendInit | src/services.c:23-51 | both users must exist; then exactly the recipient's counter moves to the next identifier |
| Services.Server.SendMsgPass | src/services.c:54-91 | an online recipient is tried once; failure takes them offline and nothing else changes |
| Services.Server.SendSettle | src/services.c:451-481 | storing, answering and acknowledging as in the whole step |
| Services.Server.Send | src/services.c:427-482 | does what the whole step SEND does under the outcome and the unset code it meets, and returns the code its sender is told |
| Services.Server.Serve | app/server.c:75-84 | a dispatched request extends a serial run by exactly the step it asks for under the circumstances it meets, so every result about serial runs holds of the server |
| Accounting.ServiceBooks | src/services.c:65-89 | every service keeps each letter's books balanced |
| Accounting.Conservation | src/services.c:447-465 | in every serial run, deliveries, discards and the pending copy of a letter add up to its acceptances plus misread deliveries |
| Accounting.ExactlyOnce | src/services.c:451-462 | with the unset code read as success, acceptances are deliveries plus discards plus the pending copy, and nobody online has mail waiting |
| Accounting.SendAnswered | src/services.c:439-480 | a SEND is answered 1 if a user is unknown, 2 if it must be stored and its name is taken, otherwise 0; the acknowledgement follows exactly a delivery at once |
| Accounting.SendStale | src/services.c:451-451 | a SEND is misread exactly when it was delivered at once and the unset code is not success |
| Accounting.DrainOutcome | src/services.c:129-163 | at most one turn per message; full success empties the mailbox; the first failure keeps that and all unsent messages and disconnects the user; no other account changes |
| Accounting.DrainDelivers | src/services.c:143-152 | the drain delivers and acknowledges exactly the messages it removes, once each |
| Accounting.AcksSound | src/services.c:143-152 | between services acknowledgement attempts equal deliveries, and never exceed them in between |
| Accounting.AckNeedsDelivery | src/services.c:465-480 | an acknowledgement is attempted only after its letter's delivery and after the first reply to its SEND, directly or through the mailbox |
| Lifecycle.ServiceKept | src/services.c:245-482 | every service keeps accounts, standing, counters, filing positions and reply codes in agreement with the history |
| Lifecycle.RepliesFollowHistory | src/services.c:320-351 | registration, status and every reply code are functions of the history before |
| Lifecycle.EnrolmentsAlternate | src/services.c:259-289 | successful REGISTER and UNREGISTER of a user strictly alternate, REGISTER first |
| Lifecycle.ConnectionsEndBetween | src/services.c:325-326 | between two successful CONNECTs lies a DISCONNECT, a failed delivery to the user or an UNREGISTER |
| Lifecycle.NextIdCounts | src/services.c:46-46 | the next identifier is the count of takings modulo 4294967295, wrap-around included |
| Lifecycle.CounterFollowsHistory | src/services.c:46-47 | after n takings since registration the stored counter is n modulo 4294967295 |
| Lifecycle.CollisionIff | src/services.c:453-454 | a letter's file name is taken if and only if some pending message is a positive number of whole laps older |
| Lifecycle.FirstLapNeverCollides | src/services.c:62-62 | no collision before 4294967295 identifiers were taken |
| Fates.CollidesTwoLapsOn | src/services.c:46-62 | a reachable collision with nothing pending exactly one lap older |
| Fates.ServicePaid | src/services.c:39-50 | every acceptance of a letter is paid for by a taking of its identifier |
| Fates.TakenOnce | src/services.c:46-46 | within one registration and one lap no identifier is taken twice |
| Fates.OneFate | src/services.c:451-465 | within one registration and one lap a letter is accepted at most once, and then is exactly one of delivered once, discarded once, pending |
| Interleaving.ThreadStepBalances | src/services.c:447-465 | one database call, delivery or reply of any service balances each letter exactly, with misdirected deletions and spare copies counted |
| Interleaving.EveryScheduleBalances | src/services.c:129-161 | in every schedule, with no discipline: pending at first, accepted, claimed and spare copies equal those delivered, discarded, pending and deleted for another letter |
| Interleaving.LossIff | src/services.c:143-159 | a letter is lost if and only if its file was deleted for other letters more often than spare copies and unsettled claims make up for |
| Interleaving.StepSafe | src/services.c:129-161 | when letters of a mailbox are handled one at a time, a call keeps every letter being handled on file and deletes none for another |
| Interleaving.NoSilentLoss | src/services.c:143-159 | no orderly interleaving loses a letter, whatever the network and the unset code |
| Interleaving.DeliveredOrPending | src/services.c:129-161 | with at most one thread given the recipient's CONNECTs and no UNREGISTER of it, every letter pending or accepted was delivered or is pending |
| Schedules.AloneIsWhole | src/services.c:245-482 | a service whose database calls nobody overtakes is exactly its whole step |
| Schedules.SerialRunIsSchedule | app/server.c:50-85 | every serial run is a schedule of the interleaved model |
| Schedules.OneIdTwice | src/services.c:42-47 | in any pool two threads serving SENDs to any online user can take one identifier and have both letters accepted and delivered |
| Schedules.CounterRewound | src/services.c:391-406 | a DISCONNECT overtaken by a SEND puts the counter back behind a filed letter |
| Schedules.TwoReadersLose | src/services.c:129-149 | in any pool, from an empty database, two threads given CONNECTs of one user can delete an accepted letter undelivered |
| Schedules.DrainersIff | src/services.c:303-375 | for every pool and every set of threads given a user's CONNECTs, letters to that user are never lost if and only if the set has at most one member |
| Counters.StepCountsIff | src/services.c:42-47 | one call keeps the counter equal to the takings if and only if the counter its thread read is the one on file |
| Counters.CountsIffFresh | src/services.c:42-47 | for a user nobody removes the counter is the number of takings modulo 4294967295 throughout a schedule if and only if every write is fresh |
| Counters.TakenInOrder | src/services.c:46-62 | a schedule of fresh writes takes the identifiers one after the other |
| Counters.TakenDistinct | src/services.c:46-62 | a schedule of fresh writes takes no identifier twice within a lap |
| Counters.ApartCounts | src/services.c:39-50 | requests on one user that do not overlap keep count and take no identifier twice within a lap |
| Counters.PoolCountsIff | app/server.c:153-155 | in a pool of n threads all schedules keep count, and all take distinct identifiers within a lap, if and only if n is at most one |
| Calls.StepIsCall | src/dbms/dbms.c:21-170 | each step of the interleaved services changes the accounts as its database operation does, records it, and goes on from that operation's code and entry |
| Acknowledgements.AckCarries | src/services.c:472-480 | the second acknowledgement carries the identifier last read from the recipient's data, and is the letter's own exactly when that is the letter's identifier |
| Acknowledgements.TaggedIffOwn | src/services.c:472-472 | along a schedule every SEND to a user carries its own identifier if and only if each finds it on file when it reads the user's data again |
| Acknowledgements.ApartTagged | src/services.c:472-480 | requests on one user that do not overlap acknowledge the letters they delivered |

## Left out

- Socket setup, `accept`, `connect`, `getpeername`, signals, logging and shutdown: operating-system plumbing; outcomes are arbitrary inputs.
- The client shell, argument parsing, the SOAP whitespace service, request and reply accessors: user interface or plain getters.
- The connection a service's reply goes out on: the history records the reply code, and `Wire.SendServerReply` and `Wire.SendFirstAck` write it.
- `db_empty_db`, `set_server_error_code_std` and float parsing: the server never calls them.
- Failures of the file system other than missing or existing names: permissions, `NAME_MAX`, full disks and interrupted file I/O inside a database call.
- Raw bytes of entry files: the tree holds entries; `ByteIO.SaveAndLoad` covers the byte loops separately.
- The buffer length in `db_user_exists` (src/dbms/dbms.c:62), one byte short: not part of the fitting claim.
- A `write` that returns zero: every successful write is taken to move at least one byte.
- Interleaving inside a single database call, such as between truncating and writing a file: each call is one step.
- What a field holds when its stream ends before any byte of it: the code leaves the buffer as it was.
- Usernames with a slash: their printed paths have more names than the layout gives them, and mean no table of their own. This is the scope of each member below.
- Paths.PathsResolve: usernames without a slash only.
- Database.Dbms.UserExists: usernames without a slash only.
- Database.Dbms.IoOperation: usernames without a slash only; DELETE of user data only for unknown users, which is where accounts can follow (`Refinement.UserDataDelete`).
- Database.Dbms.CreateTable: usernames without a slash only.
- Database.Dbms.DeleteTable: usernames without a slash only.
- Database.Dbms.GetPendingMessage: usernames without a slash only.
- Services.Server.Register: usernames without a slash only.
- Services.Server.Unregister: usernames without a slash only.
- Services.Server.Disconnect: usernames without a slash only.
- Services.Server.Connect: usernames without a slash only.
- Services.Server.CltSendMessage: usernames without a slash only.
- Services.Server.SendOnePending: usernames without a slash only.
- Services.Server.SendPending: usernames without a slash only.
- Services.Server.SendInit: usernames without a slash only.
- Services.Server.SendMsgPass: usernames without a slash only.
- Services.Server.SendSettle: usernames without a slash only.
- Services.Server.Send: usernames without a slash only.
- Services.Server.Serve: usernames without a slash only; a receive error that ends a request early, which leaves accounts and history as they were, is not a step.
- Refinement.IoRefines: DELETE of user data only for unknown users, as `Refinement.UserDataDelete` makes exact.
- Accounting.AckNeedsDelivery: about serial runs only.
