# udp2tcp_tunnel: a verified model

`udp2tcp_tunnel` carries UDP datagrams through one TCP connection per client. A datagram is
prefixed with its destination, framed with a length, queued, written one buffer at a time,
cut into arbitrary chunks by TCP, reassembled, split again and handed to a UDP socket. Around
that path stand a client that reconnects, a server with a table of clients, and a discipline of
cancellation that has to silence handlers that are already queued.

The project models that path and those state machines, and proves what the tunnel promises of
them over every run. It also models the Internet checksum that the program computes for ICMP
echo requests.

## How the model is built

* Every object is modelled twice: as a class whose fields and methods are those of the program,
  and as a value with step functions, over which runs are formed. Each class carries that value
  as ghost state; every method's contract says that the new value is the step function of the
  old one, and a predicate (`Coupled`, `Valid`) says that the fields agree with the value. The
  theorems over runs are then about the values. One method of the client and one of the server,
  `Handle`, takes any enabled event, keeps all invariants and ends in the step of that event;
  `Drive` takes all events of any run, one after the other, and ends where the run does.
  `TunnelObjects` says so of every run of the whole tunnel: each object, constructed anew and given
  its own events, ends in the state that the theorems speak of.
* The environment is nondeterministic. What is outstanding (connects, accepts, waits, reads,
  writes) is part of the state, each completion is an event of its own, and handlers never nest.
  A read yields between 1 byte and the 256 KiB of the read buffer; a failure may cut a stream at
  any byte. Connections from one address are accepted in the order in which they were attempted,
  possibly with gaps; the two ends of a connection may notice its end at different times or never.
* Objects that are let go of stay in the model, with all completions they still have queued. A
  handler holds its object, so the classes keep every object ever made in a field of the model,
  `parts` or `impls`. `Valid` says that it covers the state, with one object for each connect, wait
  and connection, and every method that adds to it says that nothing leaves it. What is proved of
  objects let go of is that their completions do nothing.

| module | models |
|---|---|
| `Wire`, `Errors` | bytes, endpoints, completion codes and their classification |
| `Framing` | the framing of messages as pure functions: `Decode`, `Frames` |
| `AutoCancel` | `enable_cancel_resource`, `auto_cancel_ptr` |
| `TransportSpec`, `UnderlyingTransport` | the transport: a queue with one writer, one reader, cancellation |
| `Sockets` | the fragment wrapper over its transport: one end of a connection |
| `Connecting`, `AsyncTimer` | the connector, the acceptor, the reconnect timer |
| `Encapsulation` | the destination prefix, and UDP sending and receiving |
| `ClientSpec`, `ClientRuns`, `TcpClient` | the reconnecting client: its steps, its runs, its object |
| `ServerSpec`, `TcpServer` | the server and its table of clients |
| `Tunnel`, `EndToEnd` | any number of clients, one server and the TCP between them; what they deliver |
| `Liveness` | when what is queued can still be delivered |
| `TunnelObjects` | the objects of the client and the server in any run of the tunnel |
| `Wires` | the same with the UDP sockets by which either side hands on what it received |
| `IcmpChecksum` | the ICMP header and its checksum |
| `Sequences`, `Options` | sequences, subsequences, options |

## What is proved

* Delivery. Over one connection the far side hands on a prefix of the datagrams that arrived at
  the near side while the connection was engaged, and all of them once the queue is empty and the
  bytes are read (`EndToEnd.ConnectionEndToEnd`). A connection in use can get there by successful
  writes and reads alone exactly if all was delivered already, or the receiver still reads and no
  failed write has left messages queued (`Liveness.CatchesUpExactly`).
  Over all connections of a client, whatever reconnects happened, it hands on a subsequence: in
  order, nothing twice, nothing made up from pieces of two connections (`EndToEnd.ClientToServer`,
  `EndToEnd.ServerToClient`). So it is down to the UDP sockets that send them on
  (`Wires.ClientToWire`, `Wires.ServerToWire`).
* Deframing. The loop of `on_receive` is `Decode`, whatever the chunks
  (`Sockets.FragmentWrapper.OnReceive`, `Sockets.ChunkingIndependence`), and that is the only way in
  which a stream can be read as frames (`Framing.DecodeExactly`).
* Fan-out. A message goes to every client in the table, or to the one that is named, and to no other
  (`ServerSpec.CallReachesExactly`, `ServerSpec.GivenExactly`).
* Cancellation. Each connection, connector and wait that is let go of has its socket or timer
  cancelled exactly once, those in use never, and whatever completions are still queued, nothing
  happens on it any more (`ClientRuns.DroppedForever`, `ServerSpec.DroppedForever`, and the two
  `SocketCancelledOnce`).
* Control. The client is in exactly one of four modes and moves between them exactly as
  `ClientRuns.Transitions` says; the server's table changes exactly as `ServerSpec.TableExactly`
  says; and a client may still reconnect exactly if it has neither stopped nor died
  (`ClientRuns.GivesUpExactly`).
* Refinement. The objects of the client and the server, with their cancellation, take the steps of
  the state machines over every run (`TcpClient.TcpClient.Drive`, `TcpServer.TcpServer.Drive`,
  `TunnelObjects.RunClientOf`, `TunnelObjects.RunServerOf`).
* Checksum. It is right exactly when the carries lost from the 32-bit sum cancel out, hence for
  every body of up to 131068 bytes and not for all bodies of any greater length.

## What the code does that a reader may not expect

* `size_hdr_t` is `int32_t`: a message of 2^31 bytes or more does not survive its frame, and a
  frame that announces a negative length stops its connection from ever delivering again
  (`Framing.FrameRoundTripExactly`, `Framing.WedgedExactly`).
* A failed write stops a transport for good, also for UDP, where nothing replaces the socket:
  later messages queue up and are never sent (`TransportSpec.FailureStopsWriting`).
* A failed accept is reported and no other is armed: the server accepts nobody from then on
  (`ServerSpec.AcceptingExactly`, `ServerSpec.AcceptsNobody`).
* A connect that fails with anything but a refusal or a time-out is only reported: the client
  never tries again (`ClientRuns.Transitions`, `ClientRuns.StoppedForever`).
* A connection error that `on_error` does not classify is only reported too, and ends only the loop
  in which it occurred. After one such error the client can still reconnect, through an error of
  the other loop. After one in each loop, of reading and of writing, it stays engaged with a dead
  socket and never tries again (`ClientRuns.DeathByTwoReports`, `ClientRuns.GivesUpExactly`).
* The port of an endpoint is a `size_t` but travels in 16 bits; the theorems narrow it.

## Model

| member | source | states |
|---|---|---|
| Wire.SerializeRoundTrip | net_common.h:49-60 | reading an endpoint back from its six bytes, whatever follows them, gives its address and its port modulo 2^16 |
| Wire.ParseRoundTrip | net_common.h:34-38 | every six bytes are the serialized form of the endpoint read from them: parsing loses nothing |
| Encapsulation.UniteWithEndpoint | tunnel_udp_service.cpp:9-20 | the buffer built step by step is the united message of the specification |
| Encapsulation.UniteRoundTrip | tunnel_udp_service.cpp:9-20 | splitting a united message at byte 6 gives back destination (port narrowed) and payload |
| Encapsulation.SplitRoundTrip | tunnel_udp_service.cpp:30-37 | uniting what `udp_sender::send` splits gives the message back: splitting is injective |
| Encapsulation.UnitedFits | tunnel_udp_service.cpp:49-53 | a datagram of at most 256 KiB gives a message whose length is not truncated and on which the far assertion holds |
| Encapsulation.StreamFormat | tunnel_udp_service.cpp:9-20 | a datagram on the TCP stream byte by byte: length, address and port, each with the lowest byte first, and the payload |
| Encapsulation.SplitSubsequence | tunnel_udp_service.cpp:30-37 | messages selected in order from united datagrams all hold an endpoint and split into the same selection of the datagrams |
| Encapsulation.UdpReceiver.OnReceive | tunnel_udp_service.cpp:49-53 | the message passed on splits into the configured destination and the received bytes, fits the frame header, and goes to the configured client |
| Encapsulation.UdpSender.Send | tunnel_udp_service.cpp:30-37 | the payload without the first six bytes is queued for the endpoint in them; the queue still carries exactly the messages handed over, in order |
| Encapsulation.UdpSender.OnSent | underlying_transport_impl.h:72-92 | takes the step `OnSend` of the transport: the next message is sent, or, after an error, none any more |
| Encapsulation.HandAllKeeps | tunnel_udp_service.cpp:30-37 | messages handed over one after the other are carried in that order, behind those handed over before |
| Encapsulation.WireIsPrefix | udp_service.cpp:36-43 | what the UDP socket was told to send, whatever its default peer, is a prefix of what the messages say, and all of it when the transport is ready |
| Framing.AnnouncedHeader | tcp_service.h:35 | the length read from a header is the conversion of the size to `int32_t` |
| Framing.AnnouncedBytes | tcp_service.cpp:169 | the length read from four bytes, byte by byte: the lowest first, negative if the highest bit is set |
| Framing.DecodeAppend | tcp_service.cpp:158-178 | decoding a stream in two parts, resuming from the left-over bytes alone, is decoding it at once, for every stream |
| Framing.DecodeRestIncomplete | tcp_service.cpp:160-177 | what is left over never holds a whole frame |
| Framing.DecodeExactly | tcp_service.cpp:150-178 | for every stream, what is decoded is the one way in which the stream is the frames of messages that fit, followed by less than a frame |
| Framing.FrameRoundTripExactly | tcp_service.cpp:150-156 | a frame decodes to exactly its message if and only if the message is shorter than 2^31 |
| Framing.NegativeLengthWedges | tcp_service.cpp:167-176 | a buffer announcing a negative length yields no message, whatever bytes follow |
| Framing.WedgedExactly | tcp_service.cpp:158-178 | a buffer without a whole frame can be continued to a message if and only if it does not announce a negative length |
| Framing.DecodeFrames | tcp_service.cpp:150-178 | decoding the frames of any messages gives the messages and no left-over |
| Framing.DecodePrefix | tcp_service.cpp:158-178 | cut anywhere, a stream of frames decodes to the longest list of whole messages, and the left-over is a proper prefix of the next frame |
| AutoCancel.EnableCancelResource.Cancel | auto_cancel.h:11-17 | the flag is set for good and the resource cancelled once more if it is still attached |
| AutoCancel.EnableCancelResource.DetachResource | auto_cancel.h:19-22 | later cancels leave the resource alone; the flag is unchanged |
| AutoCancel.AutoCancelPtr.Reset | auto_cancel.h:53-62 | what the pointer held is cancelled before the new object is held |
| TransportSpec.SendKeeps | underlying_transport_impl.h:36-55 | sending keeps the queue invariant, appends to what was accepted and only extends what was started |
| TransportSpec.OnSendKeeps | underlying_transport_impl.h:72-92 | the completion of a write keeps the invariant, accepts nothing and only extends what was started |
| TransportSpec.RunKeeps | underlying_transport_impl.h:36-92 | the queue invariant over every run, with what was accepted being what was sent along it |
| TransportSpec.ReadsUntilFirstFailure | underlying_transport_impl.h:95-112 | over every run one read is outstanding exactly as long as no read failed and none completed after the cancel; once it is not, it never is again |
| TransportSpec.QueueRefinement | underlying_transport_impl.h:36-92 | over every run: completed, lost, in-flight and queued messages are the messages sent, in order; one write at most is outstanding; the transport is ready exactly when none is outstanding and none failed, and then its queue is empty; one read at most is outstanding |
| TransportSpec.NoLostWakeup | underlying_transport_impl.h:43-92 | without error or cancel, as many successful completions as there are messages in flight and queued drain the transport and make it ready again, and no fewer do |
| TransportSpec.DrainedExactly | underlying_transport_impl.h:43-92 | over every run without failed write or cancel, sends, completions and reads in any order: what completed is the first of what was sent, one message for each completion, and the transport is ready exactly when there were as many completions as sends |
| TransportSpec.FailureFreezes | underlying_transport_impl.h:77-81 | after a failed write no run starts another |
| TransportSpec.FailureStopsWriting | underlying_transport_impl.h:43-81 | after a failed write all later messages stay queued behind those already queued, in order |
| TransportSpec.CancelledIsSilent | underlying_transport_impl.h:74-98 | once cancelled, no completion, queued success or not, runs a callback of the owner, over every run |
| TransportSpec.CancelledFreezes | underlying_transport_impl.h:72-92 | once cancelled, no completion, queued success or not, starts the next write, over every run; what is queued stays queued in order |
| TransportSpec.SocketCancels | auto_cancel.h:11-17 | over every run the socket is cancelled as often as the transport, and the flag is set exactly if it was |
| UnderlyingTransport.Transport.constructor | underlying_transport_impl.h:24-34 | a new transport is ready, its queue empty, one read armed |
| UnderlyingTransport.Transport.AsyncSend | tcp_service.cpp:12-23 | the first message only is popped and written; the buffers of an outstanding write are not overwritten |
| UnderlyingTransport.Transport.Send | underlying_transport_impl.h:36-55 | takes the step `Send`: a write starts at once exactly if the transport is ready and nothing is queued |
| UnderlyingTransport.Transport.OnSend | underlying_transport_impl.h:72-92 | takes the step `OnSend`, passes on the error that step says, and starts nothing once cancelled |
| UnderlyingTransport.Transport.OnReceive | underlying_transport_impl.h:95-112 | takes the step `OnReceive`: only a delivery re-arms the read, an error is passed on unless cancelled |
| UnderlyingTransport.Transport.Cancel | auto_cancel.h:11-17 | takes the step `Cancel`: the flag is set and the socket itself cancelled once more; nothing queued is touched |
| Sockets.SendMessageKeeps | tcp_service.cpp:150-156 | sending keeps header and body adjacent in the queue, and what is on the wire only grows |
| Sockets.ReceiveKeeps | tcp_service.cpp:158-178 | receiving keeps the invariant that what was delivered, and the buffer, are the decoding of all bytes read |
| Sockets.ReadFailedKeeps | tcp_service.cpp:87-103 | a failed read keeps the invariant, which counts exactly one error for each loop that has ended, unless the wrapper was destroyed |
| Sockets.WriteDoneKeeps | tcp_service.cpp:87-103 | so does the completion of a write |
| Sockets.ReadRaisesExactly | tcp_service.cpp:87-103 | a failed read raises a disconnect exactly if the error is classified as one and the wrapper still exists |
| Sockets.WriteRaisesExactly | tcp_service.cpp:87-103 | the same for the completion of a write |
| Sockets.StreamOfFrames | tcp_service.cpp:150-156 | the bytes put on the wire are a prefix of the frames of the messages sent, and all of them when nothing is queued |
| Sockets.Delivery | tcp_service.cpp:150-193 | for any writes, cuts and chunks, what one end delivered is a prefix of what the other was given; all of it, with an empty buffer, once nothing is queued and every byte was read |
| Sockets.ChunkingIndependence | tcp_service.cpp:158-193 | feeding any chunks of a stream gives the same messages and the same left-over as decoding the whole stream |
| Sockets.MissingBytes | tcp_service.cpp:169-171 | the subtraction in `size_t` does not wrap for a non-negative length, asks for more than can arrive for a negative one, and hits zero exactly when the frame is whole |
| Sockets.FragmentWrapper.constructor | tcp_service.cpp:136-148 | a new end has sent, read and delivered nothing and its buffer is empty |
| Sockets.FragmentWrapper.Send | tcp_service.cpp:150-156 | takes the step `SendMessage`: header, then body |
| Sockets.FragmentWrapper.FillBuffer | tcp_service.cpp:180-193 | moves the smaller of what is wanted and what is there, loses and repeats no byte, and says whether all that was wanted was moved |
| Sockets.FragmentWrapper.OnReceive | tcp_service.cpp:158-178 | the loop delivers the messages, and leaves the buffer, that `Decode` gives for the old buffer followed by the chunk; it terminates and stays inside the chunk |
| Sockets.FragmentWrapper.OnError | tcp_service.cpp:87-103 | exactly end of file, reset and broken pipe, by their numbers, raise a disconnect; any other error is only reported |
| Sockets.FragmentWrapper.OnReadDone | underlying_transport_impl.h:95-112 | takes the step `Receive` and returns the messages it delivers; nothing once closed |
| Sockets.FragmentWrapper.OnReadFailed | underlying_transport_impl.h:95-106 | takes the step `ReadFailed` and says whether a disconnect is raised |
| Sockets.FragmentWrapper.OnWriteDone | underlying_transport_impl.h:72-92 | takes the step `WriteDone` and says whether a disconnect is raised |
| Sockets.FragmentWrapper.Close | auto_cancel.h:48-62 | destroying the wrapper cancels its transport and, once more, its socket |
| AsyncTimer.WaitKeeps | async_timer.cpp:53-61 | after `wait` exactly the new wait can still fire, after `cancel` none can |
| AsyncTimer.DoneKeeps | async_timer.cpp:28-34 | a completion disarms its own wait and no other |
| AsyncTimer.FiringDiscipline | async_timer.cpp:28-61 | over every run, a completion fires if and only if it is a success of the latest wait, not stopped since; each wait fires at most once, and waits fire in order |
| AsyncTimer.WaitCancelledOnce | auto_cancel.h:48-62 | over every run, every wait but the current one has cancelled its timer exactly once, and the current one never |
| AsyncTimer.Impl.OnTimer | async_timer.cpp:28-34 | runs the callback exactly for a success that was not cancelled |
| AsyncTimer.AsyncTimer.constructor | async_timer.cpp:43-47 | a new timer has no wait |
| AsyncTimer.AsyncTimer.Wait | async_timer.cpp:53-56 | takes the step `Rearmed`: exactly one new shot is made and started, then the old one cancelled; every shot there ever was is kept and keeps its state but for that |
| AsyncTimer.AsyncTimer.Cancel | async_timer.cpp:58-61 | takes the step `Disarmed`: the held shot is cancelled and no shot is forgotten |
| AsyncTimer.AsyncTimer.OnTimer | async_timer.cpp:28-34 | takes the step `Done` for the wait that completes, be it the current one or not, and says whether it fires |
| Connecting.Connector.OnConnected | connecting.cpp:37-59 | ignored when cancelled; exactly a refusal or time-out, by their numbers, raises `on_refused`, any other error is reported, a success passes the socket on |
| Connecting.AcceptorImpl.StartAsyncAccept | connecting.cpp:109-115 | one more accept is outstanding |
| Connecting.AcceptorImpl.OnAccept | connecting.cpp:117-130 | takes the step `AfterAccept`: the next accept is armed exactly if this one is passed on |
| Connecting.ClosedIsSilent | connecting.cpp:117-120 | over every run, each completion after the acceptor was let go is ignored and arms nothing |
| Connecting.AcceptsUntilFirstFailure | connecting.cpp:90-130 | over every run at most one accept is outstanding, and one is exactly if no completion failed or came after the acceptor was let go |
| ClientSpec.StepControl | tunnel_tcp_service.cpp:21-51 | every event keeps the client's control invariant, the four exclusive modes included |
| ClientSpec.StepData | tunnel_tcp_service.cpp:21-51 | every event keeps: each socket's invariant, and the output is what the sockets delivered one after the other |
| ClientSpec.StepGiven | tunnel_tcp_service.cpp:15-19 | every event keeps that each socket was given exactly the messages of the calls of `send` while it was in `sock_`, in order |
| ClientRuns.ModesExclusive | tunnel_tcp_service.cpp:21-51 | after every run the client is connecting, engaged, waiting or stopped, exactly one of them; no other connect or wait can still call back, and no other transport is uncancelled |
| ClientRuns.Transitions | tunnel_tcp_service.cpp:21-51 | after every run and for every event, the next mode, exactly: success engages, refusal waits, any other failure stops, a lost connection waits, the end of the wait connects, and nothing else changes the mode |
| ClientRuns.LosesExactly | tcp_service.cpp:87-103 | after every run, an error of either loop of the engaged socket leads to waiting exactly for end of file, reset and broken pipe, given by number; otherwise the client stays engaged |
| ClientRuns.RefusedExactly | connecting.cpp:37-59 | after every run, the connect in progress leads to waiting exactly for a refusal or a time-out, given by number, to being engaged exactly for a success, and to stopping otherwise |
| ClientRuns.DroppedConnectorsAreSilent | connecting.cpp:37-59 | after every run exactly the connectors but the last are cancelled, a late completion of theirs does nothing, and a connector that is dropped cancels its socket once unless that was moved away |
| ClientRuns.DroppedForever | underlying_transport_impl.h:72-112 | a socket that was dropped stays dropped, and over every later run nothing is written, read, delivered, given or reported on it, queued completions or not |
| ClientRuns.SocketCancelledOnce | auto_cancel.h:11-17 | after every run, each dropped socket was cancelled exactly once and the engaged one never |
| ClientRuns.ErrorsPerSocket | tcp_service.cpp:87-103 | over every run a socket raises `on_disconnected` at most once and has at most two errors; the engaged one has raised none, and each of its loops goes on unless it ended with an error that was reported |
| ClientRuns.GivenExactly | tunnel_tcp_service.cpp:15-19 | after every run, what a socket's transport was ever given is header and body of exactly the messages sent while it was in `sock_`, in order; up to the latest call for the engaged one |
| ClientRuns.CallsAreRecorded | tunnel_tcp_service.cpp:15-19 | the calls that these statements speak of are those along the run |
| ClientRuns.IntervalsAreEngagements | tunnel_tcp_service.cpp:35-51 | after every run and for every event, the interval of calls of a socket begins with its being put into `sock_` and ends with its being dropped |
| ClientRuns.DeadForever | tcp_service.cpp:87-103 | a client whose engaged socket has both loops ended by reported errors keeps that socket, never connects and never delivers again |
| ClientRuns.DeathByTwoReports | tcp_service.cpp:87-103 | that state is reached: connect, a read error that is only reported, a send, a write error that is only reported |
| ClientRuns.GivesUpExactly | tunnel_tcp_service.cpp:21-51 | after every run, some run starts another connect if and only if the client has neither stopped nor died |
| ClientRuns.StoppedForever | connecting.cpp:42-53 | a client that stopped never connects and never delivers again |
| TcpClient.TcpClient.constructor | tunnel_tcp_service.cpp:6-12 | a new client has started its first connect and nothing else |
| TcpClient.TcpClient.Send | tunnel_tcp_service.cpp:15-19 | takes the step `Send`: the engaged socket gets the message, and without one it is dropped |
| TcpClient.TcpClient.StartConnect | tunnel_tcp_service.cpp:21-28 | takes the step `StartConnect`: the old connector is cancelled before a new one is made; exactly that one is added to those kept |
| TcpClient.TcpClient.DropSock | tunnel_tcp_service.cpp:37-37 | `sock_.reset()`: the transport of the socket is cancelled, all other sockets keep their state |
| TcpClient.TcpClient.OnDisconnected | tunnel_tcp_service.cpp:35-41 | takes the step `OnDisconnected`: the socket is closed and the reconnect timer armed |
| TcpClient.TcpClient.OnEstablished | tunnel_tcp_service.cpp:43-51 | a new socket replaces the old one, which is closed and kept, and the connector lets go of the moved socket; exactly the new one is added |
| TcpClient.TcpClient.OnConnected | connecting.cpp:37-59 | takes the step `ConnectDone` for the connector that completes, be it the current one or not; at most one socket or one shot is added and none is forgotten |
| TcpClient.TcpClient.OnTimer | async_timer.cpp:28-34 | takes the step `TimerDone`: a wait that fires starts a connect; at most one connector is added and none is forgotten |
| TcpClient.TcpClient.HandOver | tunnel_tcp_service.cpp:30-33 | the messages of a chunk go to the UDP sender, in order |
| TcpClient.TcpClient.OnReadDone | tunnel_tcp_service.cpp:30-33 | takes the step `ReadDone` for the socket that reads, closed or not |
| TcpClient.TcpClient.OnReadFailed | tunnel_tcp_service.cpp:35-41 | takes the step `ReadFailed`: exactly an error that raises a disconnect closes the engaged socket |
| TcpClient.TcpClient.OnWriteDone | tunnel_tcp_service.cpp:35-41 | takes the step `WriteDone` |
| TcpClient.TcpClient.Handle | tunnel_tcp_service.cpp:15-51 | for every enabled event, of a current object or one let go of: the client takes the step of that event, all invariants are kept, no object is forgotten, and what is added is new |
| TcpClient.TcpClient.Drive | tunnel.cpp:25-28 | for every run of enabled events whose reads are safe, each passed to the object it is for: the client ends in the state in which the run ends |
| TcpClient.RunClient | tunnel_tcp_service.cpp:6-51 | the same from the construction of the client |
| TcpClient.TcpClient.OnUdpSent | underlying_transport_impl.h:72-92 | the completion of a UDP write takes the step of the transport and changes nothing else |
| ServerSpec.StepKeeps | tunnel_tcp_service.cpp:61-98 | every event keeps the invariant of every address: its connections, their occupant, what each was given and what they delivered |
| ServerSpec.FanOut | tunnel_tcp_service.cpp:61-75 | after every run, what a connection's transport was ever given is header and body of exactly the messages broadcast or addressed to its key while it occupied it, in order |
| ServerSpec.CallReachesExactly | tunnel_tcp_service.cpp:61-75 | after every run and for every call and connection: it is sent the message if it is the occupant of its key and the call names nobody or that key; otherwise it does not notice |
| ServerSpec.GivenExactly | tunnel_tcp_service.cpp:61-75 | after every run, what a connection was given is the messages of exactly those calls while it occupied its key that named nobody or that key, in order; none of a call that named another |
| ServerSpec.CallsAreLogged | tunnel_tcp_service.cpp:61-75 | the calls that these statements speak of are those along the run |
| ServerSpec.TableSafety | tunnel_tcp_service.cpp:77-98 | after every run the uncancelled transports are exactly the occupants of the table, the occupant is the latest connection of its address, and a connection raises at most one disconnect and two errors; an occupant has raised none, and each of its loops goes on unless it ended with an error that was reported |
| ServerSpec.DroppedForever | underlying_transport_impl.h:72-112 | a connection that left the table stays out of it, and over every later run nothing is written, read, delivered, given or reported on it, queued completions or not |
| ServerSpec.SocketCancelledOnce | auto_cancel.h:11-17 | after every run, the socket of each occupant was never cancelled, and that of any other connection exactly once |
| ServerSpec.TableExactly | tunnel_tcp_service.cpp:77-98 | after every run and for every event, the next table, exactly: an accept puts the newcomer in, a connection error erases its key only if raised by the occupant itself, and nothing else changes it |
| ServerSpec.ErasesExactly | tcp_service.cpp:87-103 | after every run, an error of either loop of an occupant erases its key exactly for end of file, reset and broken pipe, given by number, and otherwise leaves the table alone |
| ServerSpec.AcceptingExactly | connecting.cpp:117-130 | after every run of the server, one accept is outstanding if and only if no accept has failed, and never more than one |
| ServerSpec.AcceptsNobody | connecting.cpp:122-126 | from then on, over every run, no connection is added and no key enters the table |
| ServerSpec.SentIsSubsequence | tunnel_tcp_service.cpp:61-98 | what the connections of one address were given, one after the other, is a subsequence of the messages for that address |
| ServerSpec.IntervalsAreOccupancies | tunnel_tcp_service.cpp:77-98 | after every run and for every event, the interval of a connection that `FanOut` speaks of begins with its entering the table and ends with its leaving it |
| TcpServer.TcpServer.constructor | tunnel_tcp_service.cpp:55-59 | a new server listens and has no clients |
| TcpServer.TcpServer.SendToAll | tunnel_tcp_service.cpp:63-67 | the loop sends to every occupant of the table once and to no other wrapper |
| TcpServer.TcpServer.Send | tunnel_tcp_service.cpp:61-75 | takes the step `Send`: every occupant sends if nobody is named, else the occupant of the name alone, if there is one; no other connection notices |
| TcpServer.TcpServer.Join | tunnel_tcp_service.cpp:77-87 | takes the step `OnAccept`: the newcomer replaces the occupant of its address, which is closed and kept; exactly the newcomer is added |
| TcpServer.TcpServer.OnAccept | connecting.cpp:117-130 | takes the step `AcceptDone`; at most one wrapper is added and none is forgotten |
| TcpServer.TcpServer.OnDisconnected | tunnel_tcp_service.cpp:94-98 | takes the step `OnDisconnected`: the key is erased and its occupant closed |
| TcpServer.TcpServer.HandOver | tunnel_tcp_service.cpp:89-92 | the messages of a chunk go to the UDP sender, in order |
| TcpServer.TcpServer.OnReadDone | tunnel_tcp_service.cpp:89-92 | takes the step `ReadDone` for the connection that reads, replaced or not |
| TcpServer.TcpServer.OnReadFailed | tunnel_tcp_service.cpp:94-98 | takes the step `ReadFailed` for the connection that fails, replaced or not |
| TcpServer.TcpServer.OnWriteDone | tunnel_tcp_service.cpp:94-98 | takes the step `WriteDone` for the connection that completes, replaced or not |
| TcpServer.TcpServer.Handle | tunnel_tcp_service.cpp:61-98 | for every enabled event, of a current wrapper or a replaced one: the server takes the step of that event, all invariants are kept, no object is forgotten, and what is added is new |
| TcpServer.TcpServer.Drive | tunnel.cpp:25-28 | for every run of enabled events whose reads are safe, each passed to the object it is for: the server ends in the state in which the run ends |
| TcpServer.RunServer | tunnel_tcp_service.cpp:55-98 | the same from the construction of the server |
| TcpServer.TcpServer.OnUdpSent | underlying_transport_impl.h:72-92 | the completion of a UDP write takes the step of the transport and changes nothing else |
| Tunnel.StepKeeps | tunnel_tcp_service.cpp:15-98 | every event of the whole tunnel keeps both ends of every connection fitting: each has read a prefix of what the other wrote on that connection |
| EndToEnd.ConnectionDelivery | tcp_service.cpp:150-193 | for every connection, in both directions, the messages delivered are a prefix of those sent, and all of them once nothing is queued and every byte was read |
| EndToEnd.ClientGave | tunnel_udp_service.cpp:49-53 | a socket was given exactly the united datagrams that arrived while it was in `sock_`, up to the latest for the engaged one |
| EndToEnd.ServerGave | tunnel_tcp_service.cpp:61-75 | a connection was given exactly the united datagrams that were broadcast or addressed to its client while it was in the table, up to the latest for the occupant |
| EndToEnd.RequestsExactly | tunnel_tcp_service.cpp:61-75 | the datagrams for a client are exactly those of receivers that name nobody or that client, in order |
| EndToEnd.ConnectionEndToEnd | tunnel_udp_service.cpp:30-53 | after every run, for every connection ever accepted and in both directions: the destinations and payloads handed to the far UDP side are a prefix of the datagrams that arrived at the near side while the connection was engaged (or in the table and addressed), ports narrowed, and all of them once nothing is queued and every byte was read |
| Liveness.CatchesUpExactly | underlying_transport_impl.h:43-112 | after every run, for a connection engaged at the client and in the table, and in either direction: some run of successful writes and of reads alone delivers every datagram that arrived for it, if and only if all were delivered already, or the receiver still reads and no failed write has left messages queued |
| EndToEnd.ClientReadsSafely | tunnel_udp_service.cpp:30-36 | over every run, whatever a client reads next keeps its buffer small and completes only messages that satisfy the assertion of `udp_sender::send` |
| EndToEnd.ServerReadsSafely | tunnel_udp_service.cpp:30-36 | the same for whatever the server reads next |
| EndToEnd.ClientToServer | tunnel_tcp_service.cpp:15-98 | over every run with any reconnects, the server hands on of each client an in-order, duplicate-free subsequence of the datagrams that client was given, ports narrowed |
| EndToEnd.ServerToClient | tunnel_tcp_service.cpp:15-98 | the same towards each client, of the datagrams broadcast or addressed to it |
| EndToEnd.AllOutSplittable | tunnel_udp_service.cpp:30-36 | after every run, every message that the server hands on satisfies the assertion of `udp_sender::send` |
| TunnelObjects.ClientPart | tunnel_tcp_service.cpp:15-51 | the events of one client in any run of the tunnel are a run of that client that ends in its state, and all its reads are safe |
| TunnelObjects.ServerPart | tunnel_tcp_service.cpp:61-98 | the same of the server |
| TunnelObjects.RunClientOf | tunnel.cpp:25-28 | for every run of the tunnel and every client: the client object, made and given its events, ends in the state that the theorems speak of |
| TunnelObjects.RunServerOf | tunnel.cpp:25-28 | the same of the server object |
| Wires.NetRun | udp_service.cpp:36-43 | the UDP queues and their completions change nothing about the run of the tunnel |
| Wires.ServerToWire | udp_service.cpp:36-43 | over every run, UDP completions included: what leaves by a client's UDP socket is a prefix of what the client handed on, all of it when the transport is ready, and a subsequence of the datagrams broadcast or addressed to it |
| Wires.ClientToWire | udp_service.cpp:36-43 | over every run: what leaves by the server's UDP socket is a prefix of what the server handed on, all of it when the transport is ready, and the part of it from each client is a subsequence of the datagrams that client was given |
| IcmpChecksum.FoldIsResidue | icmp_header.h:86-87 | repeated end-around carry gives the representative modulo 65535, zero only for zero |
| IcmpChecksum.WordAt | icmp_header.h:78-84 | the words that are summed: each of two bytes, the first one higher, with a zero after an odd last byte |
| IcmpChecksum.TwoFoldsSuffice | icmp_header.h:86-87 | for every 32-bit sum, the low 16 bits after two folds are the fixpoint of folding, congruent to the sum modulo 65535, and zero only if it is |
| IcmpChecksum.VerifiesExactly | icmp_header.h:71-89 | header and body verify if and only if the number of carries lost from the 32-bit sum is divisible by 65535; always if none was lost |
| IcmpChecksum.SharpBound | icmp_header.h:71-89 | the checksum is right for all headers and bodies of a length if and only if that is at most 131068 |
| IcmpChecksum.SumOfParts | icmp_header.h:78-87 | section 2 of RFC 1071: the sum of a body cut at an even offset is the one's complement sum of the sums of its parts |
| IcmpChecksum.OrderOfWordsIrrelevant | icmp_header.h:78-87 | section 2 of RFC 1071: permuting the words of the body changes neither the checksum nor whether it verifies |
| IcmpChecksum.IcmpHeader.Encode | icmp_header.h:62-66 | the two bytes are written and nothing else, and `decode` reads the value back |
| IcmpChecksum.IcmpHeader.AddUp | icmp_header.h:78-84 | the loop computes the sum of the words of the body, the odd byte padded, in 32 bits |
| IcmpChecksum.IcmpHeader.ComputeChecksum | icmp_header.h:71-89 | changes only the checksum field; header and body then verify exactly under the condition above, and always up to 131068 bytes |

## Left out

- Sockets, `io_service`, socket options, name resolution, threads: replaced by the events of the environment.
- Object lifetime and aliasing (the `strat_` reference, callbacks destroyed while they run, moved sockets, use after free): the model keeps every object and models the `cancelled_` flag and `detach_resource`.
- The `io_service` itself: `parts` and `impls`, and the numbers beside them, stand for the handlers it holds and keep what they keep alive; `Drive` gives it the order of completions. The completions of UDP writes are no events of `Drive`; `OnUdpSent` of either object takes them, and `Wires` has them in its runs.
- A `size_t` of 64 bits is assumed where the subtraction of `on_receive` wraps (`Sockets.Missing`) and where a buffer is bounded by the most a vector can hold.
- Calls back into the owner from inside a loop: `FragmentWrapper.OnReceive` returns the messages of a chunk, and the owner hands them on afterwards; the order of that against re-arming the read and detaching the connector is not modelled, as nothing runs between them.
- Exceptions from asio (`remote_endpoint`, bind, `set_option`) and from callbacks.
- The abort of `assert(size >= hdr_size)`, and a buffer beyond the most a vector can hold, on bytes from a peer that is no tunnel: `Handle` and `Drive` require `SafeToRead` of a chunk; for tunnels on both ends `TunnelObjects.ClientPart` and `TunnelObjects.ServerPart` prove it of every run.
- Pointers held by optional and shared_ptr members: `AutoCancelPtr` is used for the timer; the owners of wrappers and connectors cancel what they hold directly.
- The host is little-endian on both ends, and error numbers are those of Linux.
- Which accepts belong to which connects: connections of one address are accepted in the order in which they were attempted, and clients have distinct addresses.
- A wait is aborted only if it was cancelled, and a process is never out of memory.
- The read side of `udp_sender` and the loss of datagrams in the network itself.
- `endpoint(string)`, `operator<` and `config_parser.cpp`: text handling.
- `ping.cpp`, `ipv4_header.h`: clock and socket plumbing, field accessors.
- `client.cpp`, `server.cpp`, `main.cpp`, `tunnel.cpp`, `posix_stacktrace.h`, logging: programs, wiring and output.
