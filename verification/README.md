# go-socket-client, modelled in Dafny

go-socket-client is a C++ client for a small binary request and response protocol. This project
models the four parts of it that have state, arithmetic or concurrency of their own, and proves
what they keep:

- **The wire codec** (`encoding.dfy`, `messages.dfy`, `framing.dfy` on byte sequences;
  `refusals.dfy`, which exception is thrown on what; `packet_io.dfy`, `message_methods.dfy` as the
  buffers, readers and loops of the source, proved equal to them). The length code is the one of
  Remaining Length in section 2.2.3 of MQTT 3.1.1. The running counter is 32 bits wide and wraps.
  Compression is a parameter: a pair of functions, with `uncompress(compress(x)) == x` as a
  hypothesis where a round trip needs it.
- **The timer queue and the alarms** (`timer_list.dfy` on sequences; `message_queue.dfy` as linked
  nodes on the heap; `timer_loop.dfy` as the loop thread next to any number of posting and
  cancelling threads; `alarm.dfy`, `alarm_object.dfy` on top). Time is in ticks, any number of them
  per millisecond, and may be set back.
- **The connection race** (`connect_race.dfy`, `connect_safety.dfy`, `connect_bound.dfy`,
  `connect_found.dfy` as a function of what Select, the other system calls and the clock answer;
  `connectors.dfy` as the objects and loops).
- **The client** (`breaker.dfy`, `poll_events.dfy`; `breaker_life.dfy`, a breaker over the life of
  the client; `worker_life.dfy`, how one worker leads to the next, on top of the alarms and the
  timer loop; `client_worker.dfy`, the worker between API threads, timer thread and network;
  `client_returns.dfy`, when a disconnect is for good; `client_dial.dfy`, when it interrupts a
  connection attempt; `client_laws.dfy`, what its steps add up to;
  `request_table.dfy`, the requests in flight; `client_object.dfy`, the calls on a client, its
  callbacks and one pass of its worker as methods; `lock_order.dfy`, all mutexes and the join).

A concurrent part is a state, a set of steps and an invariant over every run; a step is one
critical section, or one access to an unlocked field; where a step is more than that, a comment
says why the order inside it does not matter. A class whose methods the source changes in
place is a class here, and its methods are tied to the functions of the state that the theorems
are about.

## What the code does not do

Some properties one would expect are false. Each is stated with the condition under which it
holds and with an input or a run that breaks it.

- The race does not keep to one interval per address plus one timeout. The iteration that starts
  an attempt waits for as long as that attempt may take, so silent addresses are tried one after
  the other: 30 seconds instead of 18 with the settings in `tcp_client.cpp:27-30`
  (`ConnectBound.ClientRace`). With timeouts in whole seconds it keeps to that time iff there is
  one address or the interval is no shorter than timeout and error interval
  (`ConnectBound.StaggeredIff`).
- A disconnect does not tell every request in flight. The loop at `tcp_client.cpp:188-196` returns
  at the first id without a callback, and a request without reply has the smallest id of all, 0
  (`RequestTable.EveryoneIsToldIff`, `RequestTable.NoReplyRun`). Two such requests share
  that id, and then one of their timeouts survives the disconnect
  (`RequestTable.SharedIdKeepsRunning`, `RequestTable.WriteSilencesIff`).
- Decoding does not always return or throw: some inputs make it declare an array of length -1
  (`Messages.UndefinedIff`, `Messages.UndefinedExample`).
- Not every message that can be encoded can be decoded: a SendReq with data sets a flag bit that
  the header decoder refuses, a ConnAck is sent as a Connect (`Framing.MessageRoundTripIff`), and a
  SendResp is sent without its header (`Refusals.SendRespWritten`).
- A disconnect for good is not always for good. The timeout of a request in flight also
  disconnects, but asks to reconnect, and until the worker has closed the connection it may come
  after the logout and win (`ClientReturns.LogoutUndone`, `ClientReturns.StopIsFinalIff`).
- A disconnect that comes between two workers is ignored, even one that asks not to reconnect
  (`ClientReturns.LostDisconnect`, `ClientReturns.GapIff`).
- A disconnect does not always interrupt the connection race: every Select clears the breaker
  behind its wait, and a signal that comes between a wait that saw nothing and its Clear is lost
  (`ClientDials.NextSelectIsLastIff`, `ClientDials.MissedStop`).
- An alarm that has rung keeps its id. Once the id has come round again, cancelling that alarm
  unlinks another one's message (`Alarms.StealsIff`, `Alarms.StaleIdHappens`).
- A breaker whose pipe is made anew, or closed, while its flag is up never signals again
  (`Breakers.AgreesIff`, `BreakerLives.DeafForGood`). DisconnectAsync closes a pipe after a Break
  that failed, which leaves the flag down; but a ping callback may break again before it is closed
  (`BreakerLives.DeafByPing`).
- A breaker that was closed does not work again with the next worker. The callback makes it anew
  only behind a worker that a DisconnectAsync has got to, and only if everyone in flight can be
  told about the lost connection; until both hold it stays closed (`BreakerLives.DecidesIff`,
  `BreakerLives.ClosedIff`, `BreakerLives.ClosedAndBack`).

## Model

| member | source | states |
|---|---|---|
| Encoding.LengthRoundTrip | packet/encoding.cpp:14-42 | decoding the code of any 32-bit length returns it and leaves what follows, in 1 to 4 bytes, below 2^28; from 2^28 on the code has 5 bytes and is refused |
| Encoding.LengthConsumption | packet/encoding.cpp:14-28 | a length that is read takes 1 to 4 bytes off the input and is below 2^28; it is refused iff the first four bytes all carry the continuation bit |
| Encoding.ReencodeIffMinimal | packet/encoding.cpp:14-42 | a decoded length encodes to the bytes it came from iff these were minimal |
| Encoding.LengthIgnoresSuffix | packet/encoding.cpp:14-28 | bytes behind a length do not change how it is read |
| Encoding.LengthIsDigitSum | packet/encoding.cpp:14-28 | a length that is read is the base-128 number of the low seven bits of its bytes, least significant first |
| Encoding.GetStringTakes | packet/encoding.cpp:74-89 | a string that is read takes its length code and its bytes, and the 32-bit counter moves by exactly that, modulo 2^32 |
| Encoding.GetGzipStringTakes | packet/encoding.cpp:97-121 | the same for a compressed field |
| Encoding.GetStringUndefinedIff | packet/encoding.cpp:74-84 | the array of length -1 is declared iff the length is refused and the counter is 2^32-2 before it |
| Encoding.Uint16RoundTrip | packet/encoding.cpp:58-72 | a 16-bit number written is read back |
| Encoding.Uint16Order | packet/encoding.cpp:68-72 | the two bytes of a number are ordered as the numbers are: the more significant one comes first |
| Encoding.StringRoundTrip | packet/encoding.cpp:74-95 | a string written is read back and the counter loses its size |
| Encoding.GzipStringRoundTrip | packet/encoding.cpp:97-131 | the same for a compressed string, for any pair of inverse functions |
| Messages.HeaderConsumption | packet/fix_header.cpp:23-42 | how many bytes a header takes, what its length can be, and when that is the 2^32-1 of a refused code |
| Messages.ExactConsumption | packet/message_manager.cpp:10-45 | whenever a message is accepted, exactly header plus announced length were consumed, although the counter may wrap; a length with four continuation bytes is never accepted |
| Messages.BodyTakes | packet/message.cpp:42-288 | an accepted body of any type takes exactly the bytes of its fields, fewer than 2^32-1, and leaves the counter at 0 |
| Messages.UndefinedIff | packet/encoding.cpp:74-89 | decoding returns or throws except on exactly the inputs that make the C++ declare an array of length -1: a SendReq whose type ends two bytes past the announced length and is at most one byte, followed by a refused length |
| Messages.UndefinedExample | packet/message.cpp:219-235 | one such input |
| Framing.FrameDecodes | packet/fix_header.cpp:12-42 | a header that is written is accepted by the header decoder iff flag bits 0 and 3 are clear, and then yields type, flags and length; otherwise it throws |
| Framing.WrittenLengthIsBodyLength | packet/message_base.cpp:13-34 | the length in a written header is below 2^28 and is the number of bytes that follow it |
| Framing.MessageRoundTripIff | packet/message.cpp:16-249 | decoding what was encoded, followed by anything, yields the message and leaves the rest iff the message is legal; any other message is thrown out |
| Framing.SendReqRoundTrip | packet/message.cpp:184-249 | the same for SendReq; with data it is refused by its own header |
| Framing.ConnectRoundTrip | packet/message.cpp:16-77 | the same for Connect; a wrong name or version is refused |
| Framing.ConnAckIsRefused | packet/message.cpp:79-93 | an encoded ConnAck announces itself as Connect and is thrown out |
| Framing.SendRespDecodes | packet/message.cpp:273-288 | a response that is framed is read with the id and the payload that were packed, and the rest is left |
| Framing.ConnAckDecodes | packet/message.cpp:95-110 | the answer to a login is read with its own return code iff its flags are 0 and the code is below 7 |
| Framing.StreamRoundTrip | packet/message_manager.cpp:10-49 | decoding any sequence of legal messages, the responses and login answers of a server included, followed by anything, yields exactly those messages in order and leaves the rest |
| Framing.DecodeIgnoresSuffix | packet/message_manager.cpp:10-45 | bytes that arrive later never change a message that was accepted |
| Framing.IncompleteIsNotAccepted | packet/message_manager.cpp:10-45 | no proper prefix of such a message is accepted |
| Framing.ConnectOnWire | packet/message.cpp:16-40 | a login, byte by byte |
| Framing.SendReqOnWire | packet/message.cpp:184-217 | requests with and without data, byte by byte |
| Framing.OthersOnWire | packet/message.cpp:79-182 | the other messages, and the two of a server, byte by byte |
| Refusals.StringRefused | packet/encoding.cpp:74-89 | which bytes make a string refused for the packet, which for the stream, and what it is otherwise |
| Refusals.GzipStringRefused | packet/encoding.cpp:97-121 | an empty field is not decompressed; any other one is, and is refused iff that fails |
| Refusals.HeaderRefused | packet/fix_header.cpp:23-42 | which bytes make a header refused, and with which exception; a length with four continuation bytes does not |
| Refusals.FrameNotWritten | packet/message_base.cpp:13-34 | a message is not written iff its body has 2^28 bytes or more, and then as too long |
| Refusals.ConnectRefused | packet/message.cpp:42-77 | the outcome of every login that is framed correctly: refused for its name, else its version, else its flags, else for what is behind it, else read |
| Refusals.TooLong | packet/message.cpp:79-182 | a message of fixed size with anything behind it in its frame is refused |
| Refusals.SendRespWritten | packet/message.cpp:251-271 | what the encoder of a response writes: its payload alone |
| PacketIo.Buffer.EncodeLength | packet/encoding.cpp:30-42 | the loop appends exactly the code of the length |
| PacketIo.Buffer.SetGzipString | packet/encoding.cpp:123-131 | appends length and compressed bytes, or throws and appends nothing |
| PacketIo.TcpReader.ReadFull | packet/tcp_io.cpp:19-31 | however the socket splits its data, the loop returns exactly the next bytes, or throws when the stream ends before |
| PacketIo.TcpReader.DecodeLength | packet/encoding.cpp:14-28 | the shifting loop computes the length code of the stream |
| PacketIo.TcpReader.GetString | packet/encoding.cpp:74-89 | reader and counter move as the field reader says, in every outcome |
| PacketIo.TcpReader.GetGzipString | packet/encoding.cpp:97-121 | the same for a compressed field |
| MessageMethods.DecodeMessage | packet/message_manager.cpp:10-45 | header, dispatch and body on a reader give exactly Decode of its bytes and leave the reader behind them |
| MessageMethods.DecodeSendReq | packet/message.cpp:219-249 | the body decoder on a reader computes the one on bytes |
| MessageMethods.DecodeConnect | packet/message.cpp:42-77 | the same for Connect |
| MessageMethods.WriteHeader | packet/message_base.cpp:13-34 | appends the fixed header and the variable one, or throws when the message is too long |
| MessageMethods.EncodeMessage | packet/message.cpp:16-271 | the encoders, buffer by buffer, write exactly Encode of the message |
| TimerList.NextIdOf | common/message_queue.cpp:105-109 | ids run through 1 to 2^32-2 and start over |
| TimerList.SameIdIff | common/message_queue.cpp:105-109 | two posts share an id iff their numbers differ by a multiple of 2^32-2 |
| TimerList.MillisDue | common/message_queue.cpp:42 | with truncation toward zero a message counts as due iff the clock is less than a millisecond before it, and one that is not due is at least 1 ms away |
| TimerList.BeforeIff | common/message_queue.cpp:113-116 | the search stops behind exactly the strictly earlier messages |
| TimerList.InsertSorted | common/message_queue.cpp:110-133 | inserting keeps the list sorted |
| TimerList.FindIff | common/message_queue.cpp:144-151 | the search finds the first message with the id, if there is one |
| TimerList.UnlinkExact | common/message_queue.cpp:152-165 | cancelling removes exactly that message and keeps the order of the others |
| TimerList.DueCountIff | common/message_queue.cpp:42-54 | the scan stops at the first message that is not due |
| TimerList.ScanTakesAllDue | common/message_queue.cpp:42-54 | on a sorted list that takes the whole set of due messages, not only a prefix |
| TimerList.CollectKeeps | common/message_queue.cpp:45-47 | a due message with a callback is in the batch unless a later one has its id |
| TimerList.CollectKeepsIff | common/message_queue.cpp:45-47 | a due message with a callback is the one in the batch under its id iff no later one that is due has that id |
| MessageQueueClass.MessageQueue.PostMessage | common/message_queue.cpp:94-138 | relinking puts a new node behind all strictly earlier messages and before all others; the list stays acyclic; id and counter advance |
| MessageQueueClass.MessageQueue.FindPlace | common/message_queue.cpp:110-116 | the two pointers end around that place |
| MessageQueueClass.MessageQueue.LinkIn | common/message_queue.cpp:117-133 | the pointer updates insert the node and nothing else |
| MessageQueueClass.MessageQueue.CancelMessage | common/message_queue.cpp:140-167 | unlinks exactly the node found, and records the id either way |
| MessageQueueClass.MessageQueue.LinkOut | common/message_queue.cpp:158-165 | the pointer updates remove that node and nothing else |
| MessageQueueClass.MessageQueue.Scan | common/message_queue.cpp:37-67 | takes the due nodes off the head, collects their callbacks, computes the waiting time and resets both flags |
| MessageQueueClass.MessageQueue.Decide | common/message_queue.cpp:79-90 | goes round again iff something was posted since the scan, otherwise waits for ever iff the scan found nothing left |
| TimerLoop.StepInv | common/message_queue.cpp:35-167 | every step of the loop thread and of posting and cancelling threads keeps the invariant |
| TimerLoop.RunInv | common/message_queue.cpp:35-92 | over all runs: the queue is sorted, every message is in one place, no callback starts twice, and the loop never sleeps past a message |
| TimerLoop.Partition | common/message_queue.cpp:45-77 | posted messages are partitioned into queued, batched, fired and cancelled, and each fires at most once |
| TimerLoop.TimedWakeProgress | common/message_queue.cpp:56-89 | when the loop wakes at or after its deadline and the head is unchanged, the scan takes at least one message |
| TimerLoop.ScanLosesNothing | common/message_queue.cpp:42-54 | a queued message leaves the queue iff it is due, and its callback is in the batch iff it has one and no later due message has its id; every other one stays |
| TimerLoop.CancelDooms | common/message_queue.cpp:140-167 | cancelling a queued or batched message means it has not been started |
| TimerLoop.CanceledNeverFires | common/message_queue.cpp:64-78 | and it never will be, although the set of cancelled ids is emptied by every scan |
| TimerLoop.GoesRoundIff | common/message_queue.cpp:79-90 | an iteration goes round again at once iff something was posted since its scan, otherwise it waits |
| TimerLoop.BatchInOrder | common/message_queue.cpp:69-77 | the callbacks of a batch are looked at in the order of their ids, each once |
| Alarms.HistoryInv | common/alarm.cpp:20-59 | over all histories of any number of alarms: the message id is 0 iff the alarm was never started or was cancelled |
| Alarms.ActionInv | common/alarm.cpp:20-59 | every critical section of Start, Cancel and the wrapper keeps that, and the queue invariant |
| Alarms.CanceledStaysCanceled | common/alarm.cpp:23-33 | after Cancel an alarm does not ring before it is started again |
| Alarms.StartedIsPending | common/alarm.cpp:36-45 | status Start means the message is queued, batched and not cancelled, or committed to run, as long as no other alarm or pending message holds an id that is given out |
| Alarms.BackedStep | common/alarm.cpp:36-59 | one step of that |
| Alarms.WindowIsFresh | common/message_queue.cpp:105-109 | an id is not held by others while everything of theirs that still holds one is among the last 2^32-2 posts |
| Alarms.StealsIff | common/alarm.cpp:36-59 | the exact step at which that fails: after alarm a starts, cancelling another idle alarm b unlinks the new message of a iff b still holds the id just given out and no earlier queued message has it; then a is started with nothing pending |
| Alarms.StaleIdUnlinksOther | common/alarm.cpp:52-59 | a rung alarm whose id has come round unlinks the message of another, started alarm when it is cancelled |
| Alarms.StaleIdHappens | common/alarm.cpp:23-59 | a run of two new alarms that gets there: one rings, the other is started and cancelled until its ids have come round |
| AlarmObjects.AlarmObject.Start | common/alarm.cpp:36-45 | on the fields: refused without a callback or while started, otherwise posts and remembers the id |
| AlarmObjects.AlarmObject.Cancel | common/alarm.cpp:52-59 | on the fields: cancels the message and forgets the id |
| AlarmObjects.AlarmObject.Enter | common/alarm.cpp:23-33 | on the fields: rings unless the id is 0 |
| ConnectSafety.RaceSafety | connect/complex_connect.cpp:55-148 | at every moment of every race: at most maxConnect sockets, attempts in order and spaced, no socket created twice, lost or closed twice |
| ConnectSafety.SpacingMeaning | connect/complex_connect.cpp:61-82 | spaced means: consecutive starts go up by one address and are at least the interval apart, or the error interval if some connector failed in between |
| ConnectSafety.RoundInv | connect/complex_connect.cpp:55-148 | one iteration keeps the invariant, whatever Select and the system calls answer |
| ConnectSafety.RoundEnds | connect/complex_connect.cpp:96-147 | which answer ends the race how; exhausted means every address was started and failed |
| ConnectSafety.RaceOutcome | connect/complex_connect.cpp:96-158 | when the race is over every socket was closed exactly once except the returned one; NULL is returned only for a select or breaker error, a break, or exhaustion |
| ConnectFound.RoundFindsIff | connect/complex_connect.cpp:96-147 | an iteration returns a connector iff Select neither failed nor was broken and it is the first of the started ones whose plain socket is reported writable, without error, and can be made blocking |
| ConnectFound.RoundJudges | connect/tcp_connector.cpp:87-135 | while the race goes on every started connector is judged by its own report: given up and logged iff it was not launched, has an error, cannot be made blocking or was silent for its timeout; the others keep socket and start time |
| ConnectFound.StartMeans | connect/complex_connect.cpp:66-88 | the next address starts iff there is room and its interval is over, and has a socket under way iff it is usable and was launched |
| ConnectFound.WaitMeans | connect/complex_connect.cpp:69-95 | an iteration waits, in whole seconds, for exactly as long as no started connector and no address that is due wants it back |
| ConnectFound.AnyAddressCanWin | tcp_client.cpp:27-30 | with the settings of the client there is, for every plain address, a race from its beginning that returns it |
| ConnectBound.TimeBound | connect/complex_connect.cpp:45-148 | with plain connectors the race ends within (n-1) * max(timeout, error interval) + timeout of entry |
| ConnectBound.SilentRace | connect/complex_connect.cpp:64-95 | that bound is reached by some behaviour of the network, for timeouts in whole seconds and addresses with an ip |
| ConnectBound.StaggeredIf | connect/complex_connect.cpp:64-95 | the race keeps to (n-1) * interval + timeout, for all behaviours of the network and any timeout, if there is one address or the interval is no shorter than timeout and error interval |
| ConnectBound.StaggeredIff | connect/complex_connect.cpp:64-95 | and only then, for timeouts in whole seconds and addresses with an ip |
| ConnectBound.ClientRace | tcp_client.cpp:27-30 | with the settings of the client three addresses can take 30 seconds, and nothing takes longer; the staggered time would be 18 |
| Breakers.AgreesIff | socket/socket_breaker.cpp:23-88 | over all histories: the flag is up iff exactly one unread byte is in the pipe, all along, iff every new pipe is made while the flag is down |
| Connectors.TcpConnector.PreConnectSelect | connect/tcp_connector.cpp:47-85 | status, socket and start time after launching an attempt, for every answer of the system |
| Connectors.TcpConnector.AfterConnectSelect | connect/tcp_connector.cpp:87-135 | status after Select: error, connected or timed out |
| Connectors.TcpConnector.Timeout | connect/tcp_connector.cpp:23-33 | the time an attempt has left |
| Connectors.TcpConnector.Close | connect/tcp_connector.cpp:35-41 | closes the socket, if there is one, once |
| Connectors.PreSelectAll | connect/complex_connect.cpp:83-90 | the loop prepares every started connector and computes the nearest timeout |
| Connectors.AfterSelectAll | connect/complex_connect.cpp:111-137 | the loop judges every started connector up to the first that is connected |
| Connectors.CountConnecting | connect/complex_connect.cpp:20-22 | counts the connectors that own a socket |
| Connectors.Iterate | connect/complex_connect.cpp:55-148 | one iteration on the vector of connectors is one round of the race |
| Connectors.ConnectImpatient | connect/complex_connect.cpp:24-159 | the loop ends and returns the result of the race that its environment decides |
| Breakers.SignalSurvives | socket/socket_breaker.cpp:62-88 | on an open pipe that works Break always succeeds and its byte stays until the next Clear |
| Breakers.ClearReads | socket/socket_breaker.cpp:77-88 | Clear takes up to 128 bytes and lowers the flag iff there was something to read |
| Breakers.RecreateAgreesIff | socket/socket_breaker.cpp:23-51 | a new pipe agrees with the flag iff the flag was down, which a failed Break guarantees; otherwise the breaker never signals again |
| Breakers.PingBetween | tcp_client.cpp:153-157 | a Break that fails, the Break of a ping callback before the pipe is closed, and the new pipe never carries a signal |
| Breakers.ClosedStaysClosed | socket/socket_breaker.cpp:53-75 | a closed pipe that is not made anew never carries a signal again, and Break says so |
| BreakerLives.RunLine | tcp_client.cpp:103-203 | over all runs of DisconnectAsync, signals, waits, reconnect callbacks and new workers: a breaker works, is closed with the flag down, or is deaf with the flag up; a closed one is marked iff a DisconnectAsync has got past it for this worker |
| BreakerLives.DecidesIff | tcp_client.cpp:187-198 | the reconnect callback decides to make a closed breaker anew iff everyone in flight can be told, behind a worker that a DisconnectAsync has got to |
| BreakerLives.ClosedIff | tcp_client.cpp:187-203 | over all runs: a closed breaker stays closed, over any number of workers, iff no callback carries out such a decision |
| BreakerLives.ClosedStep | tcp_client.cpp:153-203 | at the step that does it works again, and no other step changes it |
| BreakerLives.ClosedAndBack | tcp_client.cpp:117-131 | a run of a new client: a Break fails, the breaker stays closed over any number of workers that end without a disconnect, and works again behind one that is told to disconnect |
| BreakerLives.DeafForGood | socket/socket_breaker.cpp:62-88 | a deaf breaker stays deaf in every run, new pipes included |
| BreakerLives.DeafIff | tcp_client.cpp:153-203 | and a step makes it deaf iff it closes the pipe, or makes it anew, with the flag up |
| BreakerLives.DeafByPing | tcp_client.cpp:89-97 | a run of a new client to that: a ping callback breaks between the Break that failed and Close |
| BreakerLives.DeafByLateCallback | tcp_client.cpp:175-203 | another: a callback so late that it makes the pipe of the next worker anew |
| Breakers.SocketBreaker.Break | socket/socket_breaker.cpp:62-75 | on the fields: at most one byte is ever written |
| Breakers.SocketBreaker.Clear | socket/socket_breaker.cpp:77-88 | on the fields: empties the pipe and lowers the flag, unless there was nothing to read |
| PollEvents.PutExact | socket/socket_epoll.cpp:33-88 | setting one event of one socket changes that and no other; one entry per socket stays, the breaker first |
| PollEvents.WorkerWatches | tcp_client.cpp:478-491 | the worker waits for writability iff it saw a message, and always for reading, errors and the breaker |
| PollEvents.RegistrationExact | socket/socket_epoll.cpp:106-109 | what the kernel watches for a socket is its first entry since the object was made: a later ADD for the same socket is ignored |
| PollEvents.ReportedIff | socket/socket_epoll.cpp:133-158 | the report that is found is the first one on the socket, wherever it is among them |
| PollEvents.SocketEpoll.SetEvent | socket/socket_epoll.cpp:33-88 | on the vector: finds the entry or appends one, and sets its flag |
| PollEvents.SocketEpoll.ClearEvent | socket/socket_epoll.cpp:90-92 | on the vector: only the breaker is left |
| PollEvents.SocketEpoll.Register | socket/socket_epoll.cpp:106-109 | on the vector: the loop registers exactly that |
| PollEvents.SocketEpoll.Poll | socket/socket_epoll.cpp:98-131 | registers the entries, waits at most the timeout turned into milliseconds, keeps what was reported and clears the breaker after the wait, also on errors and timeouts |
| PollEvents.SocketEpoll.ReadFdIsSet | socket/socket_epoll.cpp:133-140 | true iff the first report on the socket, wherever it is, is readable or a hang-up |
| PollEvents.SocketEpoll.WriteFdIsSet | socket/socket_epoll.cpp:142-149 | true iff that report is writable |
| PollEvents.SocketEpoll.ExceptionFdIsSet | socket/socket_epoll.cpp:151-158 | true iff that report is an error |
| PollEvents.SocketEpoll.BreakerIsBreak | socket/socket_epoll.cpp:164-166 | the same for the breaker |
| WorkerLife.OneWorker | tcp_client.cpp:103-133 | over all runs: no worker is created while another exists, starting the reconnect alarm never fails, and the reconnect callback always finds the ended worker to join |
| WorkerLife.EveryWorkerIsReaped | tcp_client.cpp:79-88 | over all runs in which no other alarm or pending message holds an id that is given out: while _thread is set, the worker is before its reconnect alarm, or the message of that alarm is queued, batched or about to ring, or the callback is at the join |
| WorkerLife.StartKeeps | tcp_client.cpp:318 | the last step of a worker can always start the reconnect alarm |
| WorkerLife.RingKeeps | common/alarm.cpp:23-33 | the wrapper of the reconnect alarm never returns early |
| WorkerLife.FirstReaped | tcp_client.cpp:170-175 | the first worker of a client, once it has ended, is joined and _thread cleared by the steps of the timer alone |
| ClientWorker.NoLostWakeup | tcp_client.cpp:486-530 | over all interleavings: a worker asleep with an empty pipe, and no call between its change and its Break, has no stop code, no ping timeout, and no message unless it watches for writability |
| ClientWorker.EventInv | tcp_client.cpp:461-638 | every step of API threads, timer thread and worker keeps the invariant |
| ClientWorker.ClientSafety | tcp_client.cpp:274-319 | over all runs: statuses reported are a prefix of (Connecting (Connected or ConnectFailed or ConnectKickout) Disconnected)*, each middle one telling what __RunConnect returned; breakers agree, one worker, messages are written in the order queued and once |
| ClientWorker.StopEndsWorker | tcp_client.cpp:135-163 | after a disconnect a worker ends within 23 of its own steps, however the others interleave; one blocking call is one step, and the waits of the connection race do not count |
| ClientWorker.StopWakesWorker | socket/socket_epoll.cpp:98-131 | with a stop code and nobody inside _mutex the worker is in a blocking call, or has such a step to take that asks nothing of the network; it does not sleep in epoll_wait |
| ClientWorker.WorkerGoesOn | tcp_client.cpp:461-638 | the same in general: when nobody is inside _mutex it only waits in epoll_wait without a signal or in a blocking call, that is the pause, the query and the waits of a connection attempt, the exchange behind it, a write, a message that has begun to arrive, or a ping that is due |
| ClientWorker.AnyAnswerIsAStep | tcp_client.cpp:379-455 | and however such a call returns, by success, error or timeout, the worker is somewhere else then and not asleep in epoll_wait; how long the race can take is ConnectBound.ClientRace, a read or write of the socket ends after 5 seconds without progress |
| ClientWorker.ThreadIsReaped | tcp_client.cpp:170-175 | EveryWorkerIsReaped for the whole client |
| ClientReturns.StopIsFinalIff | tcp_client.cpp:135-163 | DisconnectAsync(code, false), code not None, is for good, whatever all threads do next short of asking for a connection, iff: with a worker, no timeout callback is about to disconnect, and the status is not Connected, or a timeout has disconnected before, or no request with a callback is in flight nor about to be written; without one, the client was not to reconnect and the callback has not decided to |
| ClientReturns.KickIsFinalIff | tcp_client.cpp:701-707 | the same for the kick that the worker itself handles |
| ClientReturns.RefusalIsFinal | tcp_client.cpp:341-347 | a connection refused with a kick, or given up without a network, is always for good |
| ClientReturns.LogoutUndone | tcp_client.cpp:567-571 | a run of a new client: it writes a request, is told to disconnect for good, the request times out, and it reconnects with no call that asks for it |
| ClientReturns.GapIff | tcp_client.cpp:138-147 | between two workers a disconnect changes nothing, and no run without a call that asks for a connection creates a worker iff the client was not to reconnect and the callback has not decided to |
| ClientReturns.LostDisconnect | tcp_client.cpp:170-175 | a run of a new client into that gap: the attempt fails, the worker is joined, the disconnect for good is ignored, and a second worker is created |
| ClientReturns.ComesBack | tcp_client.cpp:82-86 | from that gap the reconnect callback creates the next worker by its own steps |
| ClientLaws.InFlightIs | tcp_client.cpp:537-617 | over all runs from the creation of a worker to its join: the requests in flight are those with a callback that were written, minus the responses read and the timeouts run |
| ClientLaws.AnsweredIsFinal | tcp_client.cpp:135-163 | a run of a new client that writes a request and reads its response; told to disconnect then, it is for good |
| ClientLaws.PingIsLast | tcp_client.cpp:602-636 | over all runs the status of the ping timeout is what the last ping, ping response, ring or end of the loop has made it |
| ClientLaws.UnansweredPing | tcp_client.cpp:522-526 | a run of a new client that pings in vain: the connection is given up with the code of a ping timeout, and the client is to reconnect |
| ClientLaws.WatchesOnlyMessages | tcp_client.cpp:485-491 | over all runs the worker watches for writability only while a message is queued |
| ClientLaws.AcceptsConnected | tcp_client.cpp:210-272 | a message is accepted only while a worker is connected that can write it, and only a message that has come in kicks the client out |
| ClientLaws.MutexExcludes | tcp_client.cpp:104-163 | no thread gets into _mutex while another one is inside it |
| ClientLaws.ResolvesFirst | tcp_client.cpp:359-383 | a run of a new client that asks for the host, waits for the answer, and then for the race |
| ClientDials.SignalHeardIff | socket/socket_epoll.cpp:112-130 | over all runs from the Break of the connect breaker to the next Clear of it in the attempt: the wait before that Clear reports it iff it had reported a Break before, or had not returned yet and does not fail; the attempt ends there iff it is reported or the race ends anyway |
| ClientDials.NextSelectIsLastIff | connect/complex_connect.cpp:95-110 | a disconnect makes the next Select of the race its last, whatever all threads do, iff its Break does not fall between a wait that saw nothing and its Clear; while the host is resolved that is never sure, since that wait may fail |
| ClientDials.MissedStop | tcp_client.cpp:379-458 | a run of a new client through that window: the race goes on, and the client reports that it is connected with the stop code set |
| ClientObject.PassKeeps | tcp_client.cpp:469-637 | one pass of the loop keeps the invariant and writes the first queued message or nothing |
| ClientObject.TcpClient.ReadWritePass | tcp_client.cpp:469-637 | on the fields: one pass is the steps of the worker one after the other; the retry count is reset after five seconds, and the ping alarm is waiting unless it rang last, before line 622 or behind it |
| ClientObject.TcpClient.Reconnect | tcp_client.cpp:82-86 | on the fields: connects again iff it is to, and counts |
| ClientObject.TcpClient.MakeSureConnected | tcp_client.cpp:103-133 | on the fields: creates a worker iff there is none and status is not connected, and resets everything before, _timeoutDisconnect and the marks of failed breakers included |
| ClientObject.TcpClient.DisconnectAsync | tcp_client.cpp:135-163 | on the fields: with a worker records code and wish to reconnect and breaks both breakers, each of which is closed and marked iff its Break fails, whatever the other does; without one does nothing, or connects if asked to |
| ClientObject.TcpClient.TimeoutDisconnect | tcp_client.cpp:567-571 | on the fields: disconnects with reconnect iff connected and no timeout has done so before |
| ClientObject.TcpClient.WaitDisconnect | tcp_client.cpp:170-203 | on the fields: forgets the thread, tells the requests in flight, and makes a marked breaker anew iff everyone in flight can be told |
| ClientObject.LineSteps | tcp_client.cpp:117-203 | what the methods do to a breaker and its mark is what the steps of BreakerLives do |
| ClientObject.TcpClient.RenewBreakers | tcp_client.cpp:197-203 | makes exactly the marked breakers anew |
| ClientObject.TcpClient.Send | tcp_client.cpp:210-244 | on the fields: refused without connection, otherwise callback, queue, id and signal |
| ClientObject.TcpClient.PushAndBreak | tcp_client.cpp:246-272 | on the fields: the same without callback |
| ClientObject.TcpClient.SetConnectStatus | tcp_client.cpp:640-646 | reports a status iff it differs from the last |
| RequestTable.NextMsgIdIs | tcp_client.cpp:237-240 | request ids run through 1 to 65534 and start over |
| RequestTable.OneOutcome | tcp_client.cpp:648-661 | under all interleavings every accepted Send has its callback taken at most once, by its own id |
| RequestTable.SendWaits | tcp_client.cpp:223-240 | an accepted Send waits under the next id with its own callback and touches no other |
| RequestTable.WriteStarts | tcp_client.cpp:545-580 | a request that is written has its timeout running and recorded under its id |
| RequestTable.ResponseStops | tcp_client.cpp:675-697 | from any table a response stops the timeout of its id and takes the callback of its id, and no other |
| RequestTable.TimeoutTakes | tcp_client.cpp:550-566 | from any table a timeout drops the entry of its id and takes the callback of its id, and no other |
| RequestTable.AnsweredNeverTimesOut | tcp_client.cpp:678-686 | over all runs the timeout recorded for an id is never delivered after its response; if no request was written under an id in flight, none runs under that id |
| RequestTable.OverwritesIff | tcp_client.cpp:223-226 | a Send overwrites an earlier callback iff that request has the same id, and not while all waiting requests are among the last 65533 |
| RequestTable.SweepExact | tcp_client.cpp:187-196 | exactly what the disconnect loop does: serve the ids in order up to the first without a callback to call |
| RequestTable.EveryoneIsToldIff | tcp_client.cpp:187-196 | everybody in flight is told about the lost connection iff everybody in flight has a callback to call |
| RequestTable.NoReplySilencesAll | tcp_client.cpp:187-196 | one request without reply in flight, and nobody is told |
| RequestTable.NoReplyRun | tcp_client.cpp:246-262 | a run from the empty table: one request, one without reply, a disconnect, and nobody is told, with the callback left behind |
| RequestTable.DisconnectTellsExactly | tcp_client.cpp:176-196 | a disconnect leaves no timeout, tells everybody iff all can be told, and then leaves exactly the callbacks of requests not in flight |
| RequestTable.DisconnectStopsTimeouts | tcp_client.cpp:178-186 | over all runs: after a disconnect no timeout is delivered until another request is written, whatever happens, iff every running alarm is the one recorded for its id |
| RequestTable.SilencesIff | tcp_client.cpp:176-186 | over all runs: a disconnect stops every timeout iff every running alarm is the one recorded for its id |
| RequestTable.WriteSilencesIff | tcp_client.cpp:545-580 | over all runs, when a request is written: a disconnect right behind it stops every timeout iff one right before it would have and no timeout runs under its id |
| RequestTable.FreshIdsSilence | tcp_client.cpp:545-580 | which holds whenever no request was written under an id in flight |
| RequestTable.SharedIdKeepsRunning | tcp_client.cpp:578-580 | a run from the empty table: two requests under one id, and a timeout survives the disconnect |
| RequestTable.Requests.LoseConnection | tcp_client.cpp:176-196 | on the maps: both loops together do that, and say whether the second came to its end |
| RequestTable.Requests.HandleSendResp | tcp_client.cpp:675-697 | on the maps: cancels the timeout and takes the callback |
| RequestTable.Requests.OnTimeout | tcp_client.cpp:550-566 | on the maps: drops the timeout and takes the callback |
| RequestTable.Requests.GetCallback | tcp_client.cpp:648-661 | finds and erases |
| LockOrder.NoDeadlock | tcp_client.cpp:211-243 | over all runs of any number of threads: from every thread with something left to do such a chain leads to a thread that can go on, the join included |
| LockOrder.CodeDisciplined | tcp_client.cpp:178-186 | every path through the code locks upwards in rank, unlocks in reverse, and joins and ends holding nothing |
| LockOrder.StuckIff | tcp_client.cpp:211-243 | a thread with something left to do is stuck iff it waits for some thread: the holder of the mutex it wants, or the thread it joins |
| LockOrder.NoCycle | tcp_client.cpp:211-243 | over all runs no chain of threads that wait for each other closes |
| LockOrder.Climb | common/alarm.cpp:52-59 | the chain that starts at a thread ends, after at most four more, at a thread that can go on |
| LockOrder.SelfJoinIsStuck | tcp_client.cpp:165-168 | a worker that joined itself would wait for ever |

## Left out

- ConnectBound.TimeBound: bounds the race by (n-1) * max(timeout, error interval) + timeout, because (n-1) * interval + timeout is false; StaggeredIff says when that holds.
- ConnectBound.StaggeredIff: for timeouts in whole seconds, at least one connection allowed at a time and addresses with an ip, because Select waits for whole seconds only; SilentRace and ClientRace have the same hypotheses. StaggeredIf, the half that a caller relies on, does not need whole seconds.
- Alarms.StartedIsPending: assumes that no other alarm and no pending message of another holds an id when it is given out; WindowIsFresh says how far back that looks, StealsIff when exactly the next cancel breaks it, and StaleIdHappens that it can happen.
- Alarms.StealsIff: about the start, its end and one cancel. That a later cancel, or a message with the same id in the same batch, takes the message away as well is TimerLoop.ScanLosesNothing and TimerLoop.CancelDooms, not a converse of StartedIsPending.
- Alarms.BackedStep: makes the same assumption about the id of the step.
- WorkerLife.EveryWorkerIsReaped: makes the same assumption about ids; OneWorker does not.
- ClientWorker.ThreadIsReaped: makes the same assumption about ids; ClientSafety does not.
- Framing.MessageRoundTripIff: leaves out SendResp, whose encoder writes only its compressed payload (Refusals.SendRespWritten), so that what a reader sees depends on the compression format. A response that is framed, as a server does, is in SendRespDecodes and StreamRoundTrip.
- Stop codes: ClientReturns is about those other than kDisCodeNone. DisconnectAsync(kDisCodeNone, again) takes an earlier stop code back; the theorems count it as a call that asks for a connection.
- ClientReturns.StopIsFinalIff: says for a client that is not safe to stop that it may decide to reconnect, not that it gets to the next worker; LogoutUndone is a whole run to it.
- ClientReturns.KickIsFinalIff: the same.
- The callbacks of the requests in ClientWorker: it counts the requests in flight, whose ids are RequestTable. It assumes that a response is to a request that was written, and takes the sweep over the requests together with clearing `_thread`.
- How long a blocking call takes in ClientWorker: it has no clock. The race has its own (ConnectBound.ClientRace), the sockets a timeout of 5 seconds (tcp_client.cpp:32), and GetConnectInfo is the caller's.
- The endless loops around the methods: one pass of the worker and the two locked halves of the timer loop are methods, the repetition, and what other threads do in between, is the step systems ClientWorker and TimerLoop.
- Disconnect and the destructor (tcp_client.cpp:65-67, 165-168): a second thread that joins. LockOrder.SelfJoinIsStuck is the one thing said about it.
- A new worker that starts while the reconnect callback is still clearing the tables (tcp_client.cpp:175-196): WorkerLife allows it, RequestTable takes the clearing on its own.
- The ping alarms in full: ClientWorker sees the status of the ping timeout and the Break of either, not their messages. ClientObject has the status of the ping alarm, where a ring between tcp_client.cpp:622 and 475 is lost.
- Pipes that cannot be created, and a Break that fails while the worker runs: Breakers, BreakerLives and ClientObject have the latter, ClientWorker and ClientDials assume healthy pipes.
- What Close leaves behind (socket_breaker.cpp:53-60): the numbers of the closed descriptors stay in `_pipes`, so that a later Break may write into, and a second Close may close, a descriptor that has got the number since. In the model a closed pipe takes no byte.
- The race inside a run of the client: ClientWorker has its waits and what they watch, ConnectRace what happens between them. What ConnectRace takes as the outcome Broken is decided by ClientDials.SignalHeardIff.
- The pause before a connection is tried again and the reset of the retry count after five minutes (tcp_client.cpp:324-340).
- SSL connectors and sockets: their outcome depends on OpenSSL. A TLS address is modelled up to the end of its TCP connection.
- DNS lookup and HTTP DNS, except for the wait on the lookup, which ClientDials has.
- zlib: the two functions are parameters.
- The kqueue and poll back ends and the socket wrappers; what a wait reports is free, within what was asked for. A reader or writer without a socket is not part of the model.
- The object pool of alarms (object_pool.hpp), except for its mutex: RequestTable hands out a new alarm for every request. In the code the alarm of the first of two requests under one id goes back to the pool while it is still started; the next request to get it cannot start it (tcp_client.cpp:576) and times out early, under the old message.
- Memory order: unlocked fields are read and written one at a time in some order.
- The clock inside one iteration of the race: it moves only while Select waits, by at least a millisecond. Differences of clocks are unbounded, not cut to `int`.
- The memory a message takes: a string of up to 2^28-1 bytes is an array on the stack in the code (packet/encoding.cpp:84), which is taken to fit.
- Sizes of 2^31 and more for the compressed parts of one message, where the casts to `int32_t` go wrong.
- The fields of a message object after its decoder has thrown.
- Logging, the JNI layer, time_utils and the build.
