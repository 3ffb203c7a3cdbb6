# Chat server and client: a verified model

A Dafny 4.11 model of the chat system: its length-prefixed framing, its multithreaded server and the part of
its client that answers the server on its own. `dafny verify dfyconfig.toml` checks everything.

The system is modelled three times, each time at the grain its properties need.

* **Bytes.** `Framing.dfy` is the wire format as a pure codec, with the header's shifts and masks on bit-vectors.
  `Sockets.dfy` has the read and write loops over an adversarial socket that moves any number of bytes per call or
  fails, and proves that they compute the codec.
* **Threads.** `Steps.dfy` is the server as a step relation: one handler thread per connection and the watchdog,
  with program counters, the two kinds of mutex, single reads and writes of session fields, and single `::send`
  calls. Any number of connections, any interleaving, fd numbers reused. Every socket carries a log of the
  `send_message` calls made on it and the bytes they got out. `Locks`, `Owners`, `Sessions`, `Wire`, `Replies`,
  `Calls`, `Statuses`, `Sweeps`, `Casts` and `Dms` each prove one invariant kept by every step; `Runs.dfy` states the results
  for every state of every run. `Requests.dfy` says what each request is to be answered with; `Answers` and `Ledger` keep
  notes of the requests each handler reads, beside the state, and prove that every step keeps the calls made and the
  calls to come equal to the answer due. `Undisciplined.dfy` shows where wire integrity stops, `Oversize.dfy` a broadcast that is
  too large for its readers, `Failures.dfy` what failed and partial writes do.
* **Handlers.** `Handlers.dfy` takes each handler call and each scan as one function of the server's state, with
  the clock. `ChatServer.dfy` is the server class, proved method by method against those functions, and its whole
  life against the runs of `History.dfy`, where status, activity and timing results are. `Promises.dfy` has runs that
  break two documented promises about activity. `Effects.dfy` holds the handlers to `Requests.dfy` too, and says what
  calls mean to the people involved.
  `Registry.dfy` and `UserList.dfy` are about the maps and the user list. `Client.dfy` has the window and the network
  thread, `Quiescence.dfy` the loop of server and clients, `Mirror.dfy` one client and its link, `Mismatch.dfy` two
  runs in which the client ends up wrong.

## What was found

* **Wire integrity is conditional.** A socket carries whole frames and at most one unfinished one in all runs if and
  only if no registered client sends a request that is answered without the send mutex. Besides an unknown type
  (src/server/server.cpp:204-210) these are a `Register` that does not parse and a `Register` with an empty name
  (295-306). `Undisciplined.IntactExactlyWhenDisciplined` is the equivalence; the mixed run it uses is concrete up to
  the serializer.
* **A message the server accepts can be too large to deliver.** A general message may have a payload of exactly 16 MiB
  (include/chat/protocol.h:136); its delivery carries the sender's name besides and goes over the limit. Then
  `recv_message` is false at every recipient, the sender included, and each client stops (src/client/network.cpp:36-41).
  `Oversize.LargestMessageIsLost` is such an input, `Oversize.OversizedBroadcastIsLost` the run. A FOR_DM has the same
  fault when the sender's name is longer than the one it was addressed to. `Runs.RunsReadAsSent` has the exact condition
  for every run, whatever the sizes: a reader gets the complete frames if and only if all of them fit; and it always
  gets those before the first that is over the limit.
* **Not every action restores a status.** docs/IMPLEMENTATION.md:54-59 says any real action of an automatically
  inactive user restores the status; lines 38-43 count asking for the user list or for user info as actions. The
  code restores on general and direct messages only. `History.RestoredExactly` says exactly when;
  `Promises.NotEveryActionRestores` is a run from the start that breaks the promise.
* **Automatic refreshes count as activity**, against lines 45-46 of the same document: after a 201 or 603 the client
  asks for the user list on its own, and the server renews the timestamp. `Promises.AutomaticRefreshesCount` is a run in
  which a scan therefore spares an idle user, `Promises.RefreshesPostponeMarking` the exact condition.
* **The client does not always show the server's status** (docs/instructions.md:24). A 201 makes the window take
  the status from its own box, which an automatic notice, or another pick, may have changed since the user chose.
  `Mirror.ShowsServerStatusExactly` gives the exact condition for every run, `Mirror.PatientUserSees` what is left of
  it for a user who waits for each answer; `Mismatch.NoticeOverwritesChoice` and `Mismatch.HastyChoice` are runs that
  end wrong.
* **A failed write ends no handler**, against docs/IMPLEMENTATION.md:121. `Failures.EndsExactly` says what does: a
  false `recv_message` or a Quit, and nothing else. (`EvHangUp` stands for every false `recv_message`: end of stream, an
  error, or a header over the limit.) `Failures.FailedReplyEndsNothing` is a run in which a handler's own reply fails
  and it goes back to reading.
* **A frame takes more than one write**, against docs/protocol_standard.md:107, exactly unless it has no
  payload and the first write takes the whole header: `Failures.OneWriteExactly` for a step of the thread model,
  `Sockets.SendMessage` for the loop.

## Assumptions

* A failed `::send` breaks its socket for good. In module Steps a connection is identified by its place in the
  order of acceptance, and a send to a closed connection fails; the registry still works on fd numbers, which are
  reused.
* Steps are sequentially consistent, one field access at a time.
* `Answers.Notes` observes a run and changes nothing in it (`Runs.ReachedIsHeard`). It notes a request with who sent it,
  and then what there was to see at the step that looks: the status fields at the test for an automatic INVISIBLE,
  everybody registered in the critical section, whether the session found is alive, the status described, the list.
* The serializer is any function from frames to bytes (`Env.ser`, `Serializer`), and frames may be of any size: one
  whose size does not fit the length field arrives cut to what the field announces (`Framing.Arriving`), one that
  announces more than 16 MiB ends the reading (`Framing.Readable`). Only the mixed run of `Undisciplined` asks for
  something, that its three short replies fit. Where decoding matters, `Undoes` says that parsing undoes the
  serializer.
* `Env.allow` is the set of requests registered clients send. `Disciplined` says that none of them is answered on
  the bare socket. Only the wire results need it.

## From code to functions

| code | model |
|---|---|
| handle_client, 170-217 | `Steps.Dispatch`, `Steps.Close`, `Handlers.Handle` |
| remove_session, 223-235 | `Steps.LeaveBody`, `Steps.EraseBody`, `Registry.Leave`, `Handlers.Leave` |
| get_session and the checks after it | `Steps.FetchBody`, `Steps.AfterFetch` |
| maybe_restore_activity, 248-264 | `Steps.Test`, `Steps.Restore1`, `Steps.Restore2`, `Handlers.Restore` |
| handle_register, 293-344 | `Steps.EnrolBody`, `Registry.Join`, `Handlers.JoinReply` |
| handle_message_general, 346-388 | `Steps.GatherBody`, `Handlers.General` |
| handle_message_dm, 390-442 | `Steps.SeekBody`, `Steps.DeliverDm`, `Handlers.Direct` |
| handle_change_status, 444-474 | `Steps.Change1`, `Steps.Change2`, `Handlers.Change` |
| handle_list_users, handle_get_user_info | `Steps.RollBody`, `Steps.InspectBody`, `Steps.DescribeUser`, `Handlers.List`, `Handlers.Info` |
| send_locked and send_message | `Steps.Take`, `Steps.Put`, `Steps.Finish`, `Steps.Resume` |
| watchdog_loop, 578-615 | `Steps.ScanBody`, `Steps.Visit`, `Steps.MarkIdle`, `Steps.EndSweep`, `Handlers.Scan` |
| onServerResponse, onChangeStatus | `Client.Receive`, `Client.React`, `Client.Choose` |

(Line numbers of src/server/server.cpp.)

## Model

| member | source | states |
|---|---|---|
| LengthField.JoinSplit | include/chat/protocol.h:110-113 | reassembling the four header bytes of any 32-bit length gives the length back |
| LengthField.SplitJoin | include/chat/protocol.h:130-133 | splitting the reassembly of any four bytes gives the bytes back |
| LengthField.SplitCast | include/chat/protocol.h:108-113 | the cast of a size to uint32 is, as a number, the size modulo 2^32, and the bytes shifted and masked out of it are the size's base-256 digits |
| LengthField.ValueJoin | include/chat/protocol.h:130-133 | the uint32 shifted and or-ed together from four bytes is, as a number, their big-endian number |
| LengthField.BigEndianDigits | include/chat/protocol.h:108-113 | digits denote the size modulo 2^32 |
| LengthField.DigitsBigEndian | include/chat/protocol.h:129-133 | the big-endian number of any four bytes has those bytes as digits |
| Framing.NextEncode | include/chat/protocol.h:100-141 | one frame of any size, followed by anything, is read as what its length field announces, or not at all if that is over 16 MiB; as it was sent exactly when its payload is at most 16 MiB |
| Framing.NextCut | include/chat/protocol.h:125-141 | a stream that ends inside a frame yields no message for it |
| Framing.ParseEncodeAll | include/chat/protocol.h:100-141 | acceptable messages in front of any bytes are all read back, in order, before the rest |
| Framing.ParseCut | include/chat/protocol.h:100-141 | whole frames followed by part of another read as the whole ones |
| Framing.ParseOverLimit | include/chat/protocol.h:135-136 | an over-limit header ends the reading and changes no earlier message |
| Framing.ParseAny | include/chat/protocol.h:100-141 | any messages at all, of any size, are read as they arrive up to the first over the limit |
| Framing.ReceivedAt | include/chat/protocol.h:135-136 | message i is among those exactly when it and all before it are within the limit |
| Framing.ReceivedExactly | include/chat/protocol.h:135-136 | the messages are read exactly as sent if and only if all of them fit |
| Framing.PrefixFree | include/chat/protocol.h:106-116 | no frame is a prefix of a different one, so encoding is injective |
| Framing.UniqueParse | include/chat/protocol.h:106-116 | a byte stream is the concatenation of at most one sequence of frames |
| Framing.ParsePrefix | include/chat/protocol.h:125-141 | a stream of frames cut at any byte reads as the messages that arrived whole |
| Framing.WholeBeforeExact | include/chat/protocol.h:125-141 | those are the longest run of frames inside the cut |
| Sockets.WriteExact | include/chat/protocol.h:85-95 | true means the whole buffer went out, in one ::send exactly when the first takes it all; false means a proper prefix did and the socket is broken |
| Sockets.ReadExact | include/chat/protocol.h:73-83 | true exactly when enough bytes arrive, which then fill the buffer; otherwise the stream is used up |
| Sockets.SendMessage | include/chat/protocol.h:101-118 | true means exactly the encoded frame was appended, in one ::send exactly when it has no payload and that call takes the whole header; false means a proper prefix of it and a broken socket, or nothing at all when the message does not serialize |
| Sockets.RecvMessage | include/chat/protocol.h:125-141 | true exactly when the stream starts with a whole acceptable frame, which is returned and consumed |
| Sockets.SendAll | include/chat/protocol.h:101-118 | sends on one socket whose results are ignored put a prefix of the encoded list on the wire, and all of it unless one failed |
| Sockets.ReceiveAll | include/chat/protocol.h:125-141 | repeated receiving up to the first false returns the parse of everything that arrives |
| Sockets.Transfer | include/chat/protocol.h:73-141 | whatever the write schedule, the cut and the read schedule: the receiver gets exactly the messages that arrived whole, and all of them if nothing failed or was cut |
| Registry.JoinKeepsInverse | src/server/server.cpp:308-337 | registration keeps the three maps mutually inverse |
| Registry.LeaveKeepsInverse | src/server/server.cpp:223-235 | so does removal |
| Registry.EqualSizes | include/chat/server.h:53-56 | inverse maps have equal sizes |
| Registry.JoinRefines | src/server/server.cpp:308-337 | registration on the maps is registration on the set of (fd, name, ip) triples: accepted exactly when none of the three occurs, with the same refusal otherwise |
| Registry.LeaveRefines | src/server/server.cpp:223-235 | removal on the maps removes the triple of that fd |
| Registry.FindRefines | src/server/server.cpp:412-422 | the two-step lookup equals a linear scan of the set, and its inner find never fails |
| Registry.RunRefines | src/server/server.cpp:223-344 | over any run of operations the maps answer exactly as the set does |
| Registry.ReleasedCanRejoin | src/server/server.cpp:223-235 | a released name and ip can be registered again at once |
| Steps.DoOk | src/server/server.cpp:170-615 | every step of every thread keeps the state well-formed |
| Locks.DoLocks | src/server/server.cpp:38-42 | every step keeps: a mutex is held by exactly the thread whose program counter says so |
| Locks.WaitingGoesDown | docs/IMPLEMENTATION.md:100-107 | a waiting thread's mutex is held by a thread lower in the lock order |
| Locks.NoWaitCycle | docs/IMPLEMENTATION.md:100-107 | the wait-for graph has no cycle of any length |
| Locks.NoDeadlock | src/server/server.cpp:308-343 | whenever a thread waits for a mutex, some thread can step |
| Owners.DoReg | src/server/server.cpp:214-235 | every step keeps: registered fds belong to open connections with a live handler, and the maps are inverse outside critical sections |
| Owners.FreshConnectionHasNoSession | src/server/server.cpp:214-217 | a connection accepted on a reused fd has no session |
| Sessions.DoOwn | src/server/server.cpp:170-212 | every step keeps: what a handler is about to do fits its own session, and a bare send is its own |
| Wire.DoWire | src/server/server.cpp:38-63 | every step keeps: the bytes of a socket are its calls' frames in log order, only the last unfinished, and its writer is the only one |
| Wire.WireShape | src/server/server.cpp:38-42 | a socket's bytes are complete frames and then part of at most one more |
| Wire.ReaderSeesWholeFrames | include/chat/protocol.h:125-141 | a reader gets the frames of the completed calls in order, up to the first over the limit: exactly them if and only if all of them fit |
| Wire.FragmentOwner | src/server/server.cpp:38-63 | the unfinished frame belongs to the send mutex's holder, or to the connection's own handler when it has no session |
| Replies.DoReplies | src/server/server.cpp:308-343 | every step keeps: a frame sent under a session's mutex comes after that connection's complete 200 |
| Replies.WelcomeComesFirst | src/server/server.cpp:308-343 | no byte of a broadcast, direct message, list, user info or 602, or of anything else sent under the session's mutex, precedes the complete 200 |
| Statuses.DoStatuses | src/server/server.cpp:256-263 | every step keeps the two-field invariant, with one watchdog write in credit for every restoration |
| Statuses.DoNotices | src/server/server.cpp:586-613 | every step keeps: 602s started and 602s owed add up to the watchdog's writes |
| Sweeps.DoSweeps | src/server/server.cpp:586-604 | every step keeps: whom the scan has left to visit, or is about to mark, is registered |
| Sweeps.ScanVisitsAll | src/server/server.cpp:586-604 | a whole scan, whatever the other threads do meanwhile, visits everybody registered when it began, each once |
| Casts.DoCasts | src/server/server.cpp:370-387 | every step keeps the account of each sender's broadcasts: sent in order, once each, to the snapshot, which is everybody registered |
| Casts.RegisteredAlive | src/server/server.cpp:223-235 | while a handler is in a critical section of its own, every registered session is alive |
| Casts.SnapshotIsEverybody | src/server/server.cpp:374-382 | so the test of `alive` leaves no registered session out of a snapshot |
| Casts.BroadcastReachesSnapshotOnce | src/server/server.cpp:370-387 | a finished broadcast has exactly one call on the socket of every session registered at its snapshot, alive or not, and none elsewhere; the sender is among them |
| Casts.BroadcastsStayInOrder | src/server/server.cpp:346-388 | two broadcasts of one sender have the same order in every log |
| Dms.DoDms | src/server/server.cpp:390-442 | every step keeps the account of each sender's direct messages |
| Dms.LookupAgrees | src/server/server.cpp:412-422 | in the thread model too, the two-step find succeeds exactly when a linear scan finds the name |
| Dms.FoundAlive | src/server/server.cpp:412-422 | a session found by the lookup is alive at that moment, because nobody is half removed while the lookup holds the lock |
| Dms.AnsweredOnceAndTruly | src/server/server.cpp:425-441 | a finished direct message has one answer: 202 if the name of its record was registered at the lookup, else 404 (that the record's name and text are the request's: `Runs.RunsAnswerDms`, `Runs.RunsForwardDmsOnce`) |
| Dms.ForwardedOnceToHolder | src/server/server.cpp:430-438 | a FOR_DM has its record's text, names its author's session, goes to the session that held the record's name, and is the only one |
| Dms.UntriedHolderIsGone | src/server/server.cpp:436-438 | a holder that was sent nothing was alive at the lookup and has been removed since |
| Dms.DmsStayInOrder | src/server/server.cpp:390-442 | two direct messages of one sender have the same order in every log that has both |
| Answers.EnrolCode | src/server/server.cpp:308-343 | a registration section queues one reply, with the code registration on the set of triples gives |
| Answers.HolderIsKnown | src/server/server.cpp:412-422 | the two-step find, by a thread holding the lock, finds exactly who is registered by that name |
| Answers.SnapshotCalls | src/server/server.cpp:374-387 | the calls queued by a broadcast are one to everybody registered, and none to others |
| Ledger.OwnServes | src/server/server.cpp:170-572 | every step of a handler keeps: the calls made and queued for its request are what is due so far, or the whole answer, and the handler is where the request takes it |
| Ledger.OwnFields | src/server/server.cpp:248-264 | every step of a handler keeps: the manual status is the one chosen by the requests before its current one, or with it once that is written |
| Ledger.DoAsks | src/server/server.cpp:170-615 | every step of every thread keeps the notes in agreement with the logs, the records of messages, the identities and the manual statuses |
| Runs.RunGood | src/server/server.cpp:170-615 | all the invariants above hold in the last state of every run |
| Runs.ReachedIsHeard | src/server/server.cpp:170-217 | every run can be noted |
| Runs.RunsAnswerRequests | src/server/server.cpp:293-572 | in every run, every request a handler is through with has had exactly the calls that answer it, in their order: whatever was asked, by whomever, whatever the other threads did |
| Runs.RunsNoteTruly | src/server/server.cpp:308-343 | the notes name people truly: who asked, under what name, and who was registered |
| Runs.RunsCallAsNoted | src/server/server.cpp:38-63 | on every socket a handler's calls are those noted with its requests, request after request, and no others |
| Runs.RunsRegister | src/server/server.cpp:308-343 | in every run a registration section has the client told, and does to the maps, what registration on the set of triples does |
| Runs.RunsKeepChoice | src/server/server.cpp:444-474 | in every run, between requests, the manual status is the one chosen by the requests read, and the status is that or INVISIBLE |
| Runs.RunsNeverWaitInACircle | docs/IMPLEMENTATION.md:100-107 | no reachable state has a circle of waiting threads |
| Runs.RunsNeverDeadlock | src/server/server.cpp:308-343 | in every reachable state in which a thread waits, some thread can step |
| Runs.RunsKeepRegistry | include/chat/server.h:53-56 | in every reachable state the maps are mutually inverse and of equal size, and each registered fd is an open connection with an active handler |
| Runs.RunsNeverInheritSessions | src/server/server.cpp:214-217 | no accepted connection starts with somebody's session |
| Runs.DisciplinedRunsAreIntact | src/server/server.cpp:38-63 | every reachable socket carries whole frames of its own log and at most one unfinished one |
| Runs.RunsReadAsSent | include/chat/protocol.h:125-141 | in every reachable state a reader gets the completed frames in order, up to the first over the limit: exactly them if and only if all of them fit |
| Runs.RunsFragmentHasOwner | src/server/server.cpp:38-63 | the unfinished frame has the owner the locking promises |
| Runs.RunsWelcomeFirst | src/server/server.cpp:341-343 | in every reachable state the complete 200 comes before any of those |
| Runs.RunsReadWelcomeFirst | src/client/main.cpp:80-106 | a reader gets the 200 before any broadcast, direct message, list, user info or 602, and before anything else sent under the session's mutex |
| Runs.RunsKeepStatusFields | src/server/server.cpp:256-263 | unless its handler is between two writes, status is the manual status or INVISIBLE; between the writes of v it is v or INVISIBLE |
| Runs.RunsAccountForNotices | src/server/server.cpp:586-613 | 602 frames started plus those owed equal the INVISIBLE writes, and restorations never exceed them |
| Runs.RunsMarkTheIdle | src/server/server.cpp:586-604 | in every run a visit of the scan is to somebody registered and alive, and marks the session exactly if it is visible and found idle |
| Runs.RunsReadAll | src/server/server.cpp:38-42 | with no failure and no send in progress the reader of a socket has the frames of its log up to the first over the limit: all of them if and only if all of them fit |
| Runs.RunsReadEach | include/chat/protocol.h:135-136 | there each frame of the log, a FOR_DM say, is read in its place exactly when neither it nor one before it is over the limit |
| Runs.RunsDeliverBroadcasts | src/server/server.cpp:361-387 | a finished broadcast, with the sender's session name and the text of the request, has exactly one place on the socket of every session registered at the snapshot and none on others; the reader gets it there exactly when neither it nor a frame before it is over the limit |
| Runs.RunsKeepBroadcastOrder | src/server/server.cpp:346-388 | on every socket one sender's broadcasts appear in the order issued |
| Runs.RunsAnswerDms | src/server/server.cpp:404-441 | in every run the handler's k-th well-formed direct message from a member, once finished, was answered once: 202 exactly when the name asked for was registered at the lookup |
| Runs.RunsForwardDmsOnce | src/server/server.cpp:404-438 | in every run at most one FOR_DM per message, with the text asked, to the one who had the name asked for at the lookup, in the sender's session name |
| Runs.RunsSkipOnlyTheGone | src/server/server.cpp:436-441 | in every run a 202 without a FOR_DM tried means that who had the name asked for, alive at the lookup, was removed after it |
| Runs.RunsKeepDmOrder | src/server/server.cpp:390-442 | on every socket one sender's direct messages appear in the order issued, and so do the answers to them |
| Undisciplined.BareRequestsMix | src/server/server.cpp:204-210 | one allowed request answered on the bare socket is enough for a run that garbles a registered client's stream |
| Undisciplined.IntactExactlyWhenDisciplined | src/server/server.cpp:204-306 | for any serializer under which the three replies of that run fit: all sockets of all runs are intact if and only if registered clients send no such request |
| Oversize.OversizedBroadcastIsLost | src/server/server.cpp:366-387 | for every text whose delivery is over the limit, a run in which the broadcast is finished and nothing failed, every call is complete and both threads are at rest, and the target's reader gets none of it |
| Oversize.LargestMessageIsLost | include/chat/protocol.h:136 | a text whose request has exactly 16 MiB, so that the server takes it, and which is lost that way |
| Failures.EndsExactly | src/server/server.cpp:170-217 | a handler starts to end exactly when `recv_message` is false or it reads a Quit, and then goes on to its end; no failed write makes it |
| Failures.FailedReplyEndsNothing | docs/IMPLEMENTATION.md:121 | a run in which a handler's reply fails and it goes back to reading requests |
| Failures.OneWriteExactly | docs/protocol_standard.md:107 | the first write of any call completes its frame exactly when there is no payload and it takes the whole header |
| Handlers.ApplyKeepsValid | src/server/server.cpp:223-344 | every handler call, hang-up and scan keeps the maps inverse |
| Handlers.JoinRegs | src/server/server.cpp:308-343 | registering changes the maps and answers as the registry does |
| Handlers.LeaveRegs | src/server/server.cpp:223-235 | removing changes the maps as the registry does |
| Effects.HandleAnswers | src/server/server.cpp:175-572 | whatever is asked, by whomever, the frames that go out are the answer that `Requests` gives, in its order |
| Effects.MembersAfter | src/server/server.cpp:175-344 | who is registered after a request: a well-formed Register is registration on the set of triples, any Quit is removal, and nothing else adds or removes anybody |
| Effects.GeneralReachesAll | src/server/server.cpp:361-387 | the text of a general message goes to every registered session, the sender's too, exactly once, under the sender's session name; no other broadcast goes out |
| Effects.DirectIsForwarded | src/server/server.cpp:404-441 | a direct message goes, with its text and the sender's name, to the one session with the name asked for and is answered 202; if there is none it is answered 404 and goes to nobody |
| Effects.InfoIsTrue | src/server/server.cpp:530-556 | the reply to a request for a name is the name, address and status of the one session with that name, and 404 exactly when there is none |
| Effects.LeftAlone | src/server/server.cpp:223-235 | through any events of other connections and scans a connection keeps its session, or has none; only its status can change, to INVISIBLE, by a scan |
| UserList.LessIsBefore | src/server/server.cpp:504-505 | the sort's comparison is the dictionary's: a proper beginning first, else the smaller character at the first difference |
| UserList.LessTotal | src/server/server.cpp:504-505 | the sort's comparison decides between any two different names |
| UserList.LessTransitive | src/server/server.cpp:504-505 | and is transitive |
| UserList.CollectedDistinct | src/server/server.cpp:497-502 | because of the registry invariant no two collected rows have the same name |
| UserList.SortedWalkIsUserList | src/server/server.cpp:493-512 | any walk of the map, sorted by anything that sorts, is increasing as a dictionary is, complete, and aligned with the statuses |
| UserList.OneUserList | src/server/server.cpp:493-512 | for given sessions there is only one such list |
| UserList.Sort | src/server/server.cpp:504-505 | a sort: a permutation of the rows in dictionary order of the names |
| ChatServers.ChatServer.RemoveSession | src/server/server.cpp:223-235 | the session dies and leaves all three maps; nothing else changes |
| ChatServers.ChatServer.MaybeRestoreActivity | src/server/server.cpp:248-264 | the account and the 603, as the specification has them; all other sessions unchanged |
| ChatServers.ChatServer.HandleRegister | src/server/server.cpp:293-344 | the new state and the reply, for every outcome |
| ChatServers.ChatServer.HandleMessageGeneral | src/server/server.cpp:346-388 | the new state, and one delivery to each registered session in some order of the map |
| ChatServers.ChatServer.HandleMessageDm | src/server/server.cpp:390-442 | the new state and the frames, for every outcome |
| ChatServers.ChatServer.HandleChangeStatus | src/server/server.cpp:444-474 | the new state and the reply, for every outcome |
| ChatServers.ChatServer.HandleListUsers | src/server/server.cpp:476-513 | the new timestamp, and a reply that is a sorted walk of the sessions |
| ChatServers.ChatServer.HandleGetUserInfo | src/server/server.cpp:515-557 | the new timestamp and the reply, for every outcome |
| ChatServers.ChatServer.HandleQuit | src/server/server.cpp:559-572 | a 203 exactly for a registered client's well-formed Quit |
| ChatServers.ChatServer.Dispatch | src/server/server.cpp:181-212 | any request at all does what the specification says |
| ChatServers.ChatServer.Scan | src/server/server.cpp:584-613 | exactly the idle sessions become INVISIBLE and are sent one 602 each |
| ChatServers.ChatServer.HandleClient | src/server/server.cpp:170-217 | requests are handled in the order they come, none after a Quit, and in the end the connection has no session |
| ChatServers.ChatServer.Receive | src/server/server.cpp:175-212 | the server's state and frames stay those of a run of module History |
| ChatServers.ChatServer.Watch | src/server/server.cpp:578-615 | so they do over a scan |
| ChatServers.ChatServer.ClientWasTold | src/server/server.cpp:256-262 | at any moment every session has the status its client was last told |
| History.StatusIsLastNotice | src/server/server.cpp:248-264 | over any run, a session's status is a fold of the notices sent to it: 200 and 603 ACTIVE, 201 its status, 602 INVISIBLE |
| History.ManualIsLastChoice | src/server/server.cpp:465-466 | over any run, the manual status is the last status the user chose or got back, whatever the watchdog did, and the status is that or INVISIBLE |
| History.LastIsLatestActivity | src/server/server.cpp:244-246 | over any run, a session's timestamp is the time of its latest activity |
| History.RestoredExactly | src/server/server.cpp:248-264 | an automatic INVISIBLE ends by a message, with a 603, or by choosing a visible status, and by nothing else |
| Promises.NotEveryActionRestores | docs/IMPLEMENTATION.md:54-59 | a run from the start, with its clock, in which an action that counts as activity leaves the user INVISIBLE |
| Promises.RefreshesExactly | src/client/mainwindow.cpp:480-524 | a request makes its sender's client ask for the list exactly when it ends an automatic INVISIBLE by a message or changes the status to one of the three, and no other client |
| Promises.ActionOrRefresh | src/server/server.cpp:489-491 | a session's timestamp is the later of its user's latest action and its client's latest automatic refresh |
| Promises.RefreshesPostponeMarking | docs/IMPLEMENTATION.md:45-46 | a scan spares a session whose user has been idle for the limit exactly when an automatic refresh came less than the limit ago |
| Promises.AutomaticRefreshesCount | docs/IMPLEMENTATION.md:45-46 | a run in which that happens after a 201 |
| History.WholeSecondsReach | src/server/server.cpp:595-598 | truncating to whole seconds does not blur a limit of a second or more, nor does activity later than the sample |
| History.MarkedExactly | src/server/server.cpp:591-604 | a scan marks exactly the sessions last told a visible status whose latest activity is at least the limit before the sample |
| History.NoticedInTime | src/server/server.cpp:578-606 | a client not told INVISIBLE was active less than the limit plus the scan period ago |
| Client.MainWindow.OnServerResponse | src/client/mainwindow.cpp:480-524 | what the window shows next and what it asks for, for every code |
| Client.MainWindow.OnChangeStatus | src/client/mainwindow.cpp:406-414 | a request goes out exactly when the entry differs from the current status |
| Client.MainWindow.Pick | src/client/mainwindow.cpp:82-86 | a user's choice changes the box, and signals only if it changes |
| Client.KnownKinds | src/client/network.cpp:43-93 | the kinds the thread's switch knows are exactly those the server sends, and no two forms of frame share one |
| Client.Listen | src/client/network.cpp:31-99 | the thread signals exactly the parsable messages of known kinds that arrive whole, in order |
| Client.StreamSignals | src/client/network.cpp:31-99 | of the frames put on a stream that is then cut, exactly those that arrived whole are signalled |
| Quiescence.DeliverShrinks | src/client/mainwindow.cpp:487-493 | every delivery, with all it causes, lowers the weight of the messages on their way |
| Quiescence.TrafficDiesOut | src/server/server.cpp:346-513 | with no user, timer or new connection the deliveries left are at most that weight, which is linear in the connections for a general message |
| Mirror.ActKeeps | src/client/mainwindow.cpp:406-524 | every act of the user, the link and the server keeps: the window is what the frames delivered and the picks made of it, and the server's status is the last one it named |
| Mirror.ShowsServerStatusExactly | src/client/mainwindow.cpp:480-524 | in every run, whenever the user picks: the window, after the frames on their way, shows the server's status unless the last frame that names a status is an answer that finds another one in the box, and then it does not |
| Mirror.AgreesAtRest | docs/instructions.md:24 | in every run, at rest the window's status and box agree, and they agree with the server under exactly that condition |
| Mirror.PatientUserSees | src/client/mainwindow.cpp:406-414 | for a user who waits for each answer the condition is that no automatic notice naming another status came last between a pick and its answer |
| Mismatch.NoticeOverwritesChoice | src/client/mainwindow.cpp:506-511 | a run that ends with the window wrong because of a 602 before the 201 |
| Mismatch.HastyChoice | src/client/mainwindow.cpp:406-414 | a run that ends with the window wrong because the user did not wait, with no automatic notice |

## Left out

- Serialization that fails, in modules Steps and Runs; `Sockets.SendMessage` has it.
- The `running_` flags and the `connectionLost` signal.
- Protobuf serialisation and parsing: generated code. Payloads are opaque bytes; a request that does not parse is `None` or `false`.
- Message texts, except the status a 201 names.
- Socket setup, `accept` failures, peer addresses, signals, argument parsing and logging. A peer's ip is any string.
- `stop()` and the destructor: they close descriptors that handlers also close. Runs are those before shutdown.
- Weak memory effects of the unsynchronised fields, and the 64-bit range of the clock.
- A send that reaches a reused descriptor after its connection was closed: in module Steps it fails instead.
- `send_server_response` and `send_to_client`: nothing calls them.
- Qt widgets other than the status box, and lines 495-500 of src/client/mainwindow.cpp, which no code reaches.
- The mutex of `NetworkSender`: one thread sends.
- Clock and user-list contents in module Steps, where a scan's idle test and a list's rows are arbitrary; modules Handlers, UserList and History have them.
- Interleaving inside a handler in module ChatServers, where one handler or scan runs at a time; module Steps has it.
- UserList.Sort: the library's algorithm is not modelled; `SortedWalkIsUserList` and `OneUserList` make it irrelevant.
- Quiescence.TrafficDiesOut: an upper bound; that the bound is reached is not shown.
