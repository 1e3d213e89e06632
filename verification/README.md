# A verified model of marko

marko is a small datagram messaging library: UDP and Unix datagram sockets, request/reply and
publish/subscribe objects on top of them, an address language, and three small codecs. This project models
those parts in Dafny and proves what they promise, or exactly when they keep it. `dafny verify dfyconfig.toml`
checks all of it.

## How it is built

| modules | what they model |
|---|---|
| `Wire`, `Sockets` | the receive buffer, the two transports, the descriptor's life, and address dispatch in `bind`/`connect`; the kernel answers arbitrarily (`Sockets.AnyResult`, `Sockets.AnyReceive`) |
| `RequestReply`, `PubSub` | the Request, Reply, Publisher and Subscriber objects, as classes over a `Socket` |
| `Calls`, `CallLedger`, `CallSafety`, `CallOrder`, `CallLiveness`, `CallFate`, `CallHistory`, `TypedCall` | request/reply as a distributed step system: any number of clients and servers, any interleaving, and an environment (`Wire.Env`) that may time out, lose and reorder |
| `Fanout` | publish/subscribe over the same kind of network |
| `CallObjects`, `PubSubObjects` | the objects in the step systems: every run is, for each object, a run of its methods; and what goes from `publish` to the callbacks |
| `Regex`, `Patterns`, `Scanner`, `SockAddr`, `Hosts`, `AddressLaws`, `Printers` | the address language: a reference matcher for the default std::regex grammar (section 15.10.2 of ECMA-262, 3rd edition), scanners without backtracking that find the same matches, the parser, the printers, and the laws between them |
| `Ascii`, `Messages` | the separator codec, the struct codec and the byte printer |
| `Text`, `Queues` | decimal numerals and character runs; sequences used as queues |

Environment of both step systems: a datagram that was accepted may be lost (when `lossy`), may be overtaken
(unless `ordered`, which keeps the order between the same two sockets, as Unix datagrams do), is never
duplicated and never altered, and only reply servers send to clients. A receive that returns -1 for any reason
is a timeout. Datagrams carry no numbers in the source and none here: the field `id` of a packet is
bookkeeping that no step reads.

The two socket classes differ in two methods only. `Sockets.Socket` is both, told apart by its `transport`;
Request, Reply, Publisher and Subscriber hold their socket in a field where the source inherits from it. The
field `log` is a history of the system calls an object made.

## Main results

* **Whose answer is it.** Requests carry no sequence numbers and a client does not look at the sender.
  `CallSafety.OwnAnswer`: with blocking sockets, or with Unix sockets and any timeouts, every completed call
  returns what the server it asked made of that very request. `CallSafety.NeverStaleExactlyWhen`: this holds of
  a system *exactly when* a call cannot outlive its timeout, or nothing but empty messages can be exchanged; on
  UDP with timeouts `CallSafety.UdpTimeoutsGoStale` gives the run in which a call gets the previous call's
  answer. `CallOrder.OwnRequestsOnce` and `CallOrder.AnswersInOrder` say what is left then.
* **Which callback answers.** `CallHistory.EveryAnswer`: on any network, a result that came from a server is what
  the callback of the last registration before the server's receive made of that very request, as the actions
  of the run alone determine it.
* **Everything is accounted for.** `CallLedger.ReplyLedger` and `Fanout.PublishConservation`.
* **Who can still return.** `CallFate.ReturnsExactlyWhen`: in every reachable state of every network, a waiting
  caller can return *exactly when* receives can time out, or its request is neither lost nor empty at its server.
* **Everyone is served.** `Fanout.FanOutReachesAll`: each call of publish offers its data to exactly the addresses
  registered before it, in order, again as the actions alone determine them.
* **From publish to the callbacks.** `PubSubObjects.PublishersAreHeard`: on an ordered network the log of every
  callback is an interleaving of one subsequence of what each publisher published for its subscriber; without
  loss, for a callback that was there from the start, of a beginning of each, and of all of it once nothing is
  under way.
* **The systems are made of the objects.** `CallObjects.ClientObject`, `CallObjects.ServerObject`,
  `PubSubObjects.PublisherObject`, `PubSubObjects.SubscriberObject`: over every run, the system calls made for each
  client, server, publisher and subscriber are those of its object's methods, in order, timeouts and calls on
  closed sockets included, and each descriptor is held as long as the system says.
* **Every schedule finishes.** `CallLiveness.EverySchedule`: four steps for each call, never stuck before, all
  answers correct after.
* **The scanners are the regular expressions.** `Scanner.ScanProto`, `Scanner.ScanIpPort`.
* **The parser computes a plain meaning.** `AddressLaws.ParserMeaning`: for every text, without regular
  expressions and with every exception. `AddressLaws.ParsesToInet` says exactly which texts mean an internet
  address, and which one, down to octets and bytes; over these `AddressLaws.NormalForm` gives each address one
  printed form.
* **Round trips.** `AddressLaws.InetRoundTrip` for every internet address; `AddressLaws.UnixRoundTrip`: a path is
  printed back exactly when it is not empty, wholly accepted and shorter than 108 characters.
* **Ports.** `AddressLaws.DocumentedPorts`: for every port text, when the parser agrees with the documentation.
  `AddressLaws.PortFaithful`: a numeral is read as written exactly when it is at most 65535.

## Where the code differs from its documentation

* The readme gives ports as 1-65535 or `*`. The parser takes any run of `*`, `,` and digits: with a numeral in
  front that is at most 2147483647 it keeps that numeral's low 16 bits, whatever follows it, so `8*` is port 8,
  `80,443` is port 80 and `65536` is port 0; a larger numeral, and a text other than `*` that does not start with
  a digit, leaves by an exception of stoi (`AddressLaws.PortTexts`, `AddressLaws.DocumentedPorts`,
  `AddressLaws.UndocumentedPorts`).
* A hyphen is not accepted in an address, although the pattern's text seems to list one
  (`Patterns.HyphenIsNotAccepted`).
* `filter` returns a reference to a local object. The model returns the object's value, as intended.
* The guard after `sendto` gets a truth value and never fires: a failed send is a lost message, and
  neither closes the socket nor throws (`Sockets.Socket.SendTo`).
* A comment in gtests/test_rr.cpp says a Reply can have more than one callback. It keeps the last one
  (`RequestReply.Reply.RegisterCb`).
* The source never shrinks a receive buffer to the bytes received: a result is empty or has exactly `msg_size`
  bytes, so the size check in `Reply::once` only ever rejects the empty message (`Wire.FitShape`).

## Model

| member | source | states |
|---|---|---|
| Wire.FitShape | src/include/marko/socket_udp.hpp:24-46 | a receive yields nothing, or exactly the buffer size: the datagram cut or padded with zeros; nothing exactly for an empty datagram or buffer |
| CallSafety.OwnAnswer | src/include/marko/request_reply.hpp:33-75 | any clients, servers, loss and reordering, without UDP timeouts: a completed call returned what a callback of the server it asked, in force since it asked, made of that very request, each hop cut or padded |
| CallSafety.OwnAnswerOf | src/include/marko/request_reply.hpp:28-75 | if no other callback was registered at that server, the result is exactly its callback applied to that request, each hop cut or padded |
| CallHistory.EveryAnswer | src/include/marko/request_reply.hpp:28-75 | on any network: a result that consumed a reply is exactly what the callback in force at that server, when it received that request, made of it, each hop cut or padded; in force is the last registration among the actions before; without UDP timeouts the request is the call's own |
| CallHistory.RunLast | src/include/marko/request_reply.hpp:28 | over every run a server's callback is that of the last registration among the actions, or the one it started with |
| CallSafety.StepOneOutstanding | src/include/marko/request_reply.hpp:66-75 | without UDP timeouts every step keeps: all items of a client, across queues, servers' hands and inboxes, belong to the call it waits in, or to the first call that threw if it is closed |
| CallSafety.AtMostOneItem | src/include/marko/request_reply.hpp:66-75 | without UDP timeouts, in every reachable state, a client has at most one item in all queues, servers' hands and inboxes together |
| CallSafety.NeverStaleExactlyWhen | src/include/marko/request_reply.hpp:66-75 | no run ever returns another call's answer if and only if timeouts are off, or close the socket, or all buffers on one side are empty |
| CallSafety.UdpTimeoutsGoStale | src/include/marko/socket_udp.hpp:42-50 | on UDP with timeouts, from any start in which a client and a server have buffers, some run returns a stale answer |
| CallSafety.ClosedIsFinal | src/include/marko/socket_uds.hpp:37-48 | in any run, once a timeout closed a client it stays closed, and every result it gets from then on is an exception |
| CallOrder.OwnRequestsOnce | src/include/marko/request_reply.hpp:66-75 | on any network with any timeouts, a non-empty result answers one of the client's own requests sent no later, and no other result has that answer |
| CallOrder.AnswersInOrder | src/include/marko/socket_udp.hpp:42-50 | on a lossy ordered network, for any client and any server: of two results that answer requests to that server, the later one answers the later request |
| CallOrder.StepLine | src/include/marko/request_reply.hpp:33-75 | on an ordered network every step keeps the results, inbox, hand and queue between a client and a server one increasing line |
| CallLedger.ReplyLedger | src/include/marko/request_reply.hpp:33-48 | requests sent = lost + queued + held + discarded + under way back + answered, each exactly once; discarded ones arrived empty; every reply is a callback's output on its request, addressed to that request's sender |
| CallLedger.StepInv | src/include/marko/request_reply.hpp:33-75 | every step keeps that ledger and the origin of every packet and result |
| CallLiveness.EverySchedule | src/include/marko/request_reply.hpp:33-75 | without loss or timeouts, with non-empty requests and buffers: no schedule is longer than four steps per call, one that is shorter can go on, and one of that length has answered every call correctly |
| CallLiveness.StepDrops | src/include/marko/request_reply.hpp:33-75 | every step takes exactly one off a measure of the work left |
| CallLiveness.NoDeadlock | src/include/marko/request_reply.hpp:33-75 | until all calls are finished some send, serve or receive step is enabled |
| CallFate.ReturnsExactlyWhen | src/include/marko/request_reply.hpp:66-75 | in every reachable state, with any loss, order and timeouts: a waiting caller has a continuation in which it returns if and only if receives can time out, or its request was not lost and does not arrive empty |
| CallFate.RequestsGetLost | src/include/marko/socket_udp.hpp:52-64 | on a lossy network without timeouts, from any start, some run loses a first request and its caller can never return |
| CallFate.RepliesGetLost | src/include/marko/request_reply.hpp:33-48 | and some run serves the request, loses the reply, and the caller can never return |
| TypedCall.TypedCallReturns | src/include/marko/message.hpp:25-37 | with matching sizes, a call whose callback unpacks, computes f and packs returns bytes that unpack to f of the value packed |
| RequestReply.Reply.Once | src/include/marko/request_reply.hpp:33-48 | one receive, and one send of the callback's result to the recorded sender exactly when the message has the full size; the descriptor is kept |
| RequestReply.Reply.RegisterCb | src/include/marko/request_reply.hpp:28 | the last registered callback replaces the one before |
| RequestReply.Request.Request | src/include/marko/request_reply.hpp:66-75 | one send and one receive; the value or exception is the receive's; a Unix timeout closes the socket, and on a closed one every request throws |
| CallObjects.ServerObject | src/include/marko/request_reply.hpp:28-48 | over every run of the system: a server's system calls are those of its object in calls of once, timed-out ones included, and the callback of each is that of the last registration before its receive, or the first one, said from the actions; while a reply is in its hand the last call has received that request and not yet sent that reply |
| CallObjects.ClientObject | src/include/marko/request_reply.hpp:66-75 | over every run of the system: a client's system calls are those of its object in calls of request, one for each request asked, with the recorded results; a waiting client has sent and not yet received; the descriptor is given back exactly when the client is closed, and later calls are refused |
| Fanout.PublishConservation | src/include/marko/pub_sub.hpp:34-60 | over every run, what was published for an address is what failed, was dropped, is under way or was received, message by message, plus what the publish under way still owes |
| Fanout.ExpandCount | src/include/marko/pub_sub.hpp:56-60 | publications times registrations of the address is the number of messages owed to it |
| Fanout.FanOutReachesAll | src/include/marko/pub_sub.hpp:56-60 | in every reachable state with no publish under way, whatever else happened in between and whichever sends failed: each call of publish among the actions offered its data to each address registered before it, in order, and nothing else was offered |
| Fanout.RunHistory | src/include/marko/pub_sub.hpp:56-60 | over every run a publisher's addresses are those of the start and of every registration, and its publications those of every call of publish with the addresses registered before it, said from the actions |
| Fanout.PublicationsGetLost | src/include/marko/pub_sub.hpp:56-58 | on a lossy network some run loses a publication: it is owed, nothing is under way, nothing was received |
| Fanout.ReceivedInOrder | src/include/marko/pub_sub.hpp:34-60 | on an ordered network a subscriber receives a subsequence of what was published for it |
| Fanout.ReceivedPrefix | src/include/marko/pub_sub.hpp:34-60 | without loss it receives a beginning of that sequence, and with matching sizes sees it unchanged |
| Fanout.StepInOrder | src/include/marko/pub_sub.hpp:34-60 | every step keeps received and under way a subsequence of what was offered, and equal to it without loss while the subscriber is open |
| PubSub.Publisher.Publish | src/include/marko/pub_sub.hpp:56-58 | one send of the data to each registered address, whatever the sends before it came to |
| PubSub.FanOutIsComplete | src/include/marko/pub_sub.hpp:56-58 | a fan-out logs one send per address, in order and no more, and leaves the descriptor as it was |
| PubSub.Publisher.RegisterAddr | src/include/marko/pub_sub.hpp:60 | addresses are added at the end, repeats included |
| PubSub.Subscriber.Once | src/include/marko/pub_sub.hpp:34-38 | a non-empty message goes to every callback in registration order, and what each call puts out is returned; an empty one goes to none; a Unix timeout throws |
| PubSub.Subscriber.RegisterCb | src/include/marko/pub_sub.hpp:29 | callbacks are added at the end |
| PubSub.HeardSince | src/include/marko/pub_sub.hpp:34-38 | over any run a callback hears exactly the non-empty messages received since its registration, once each and in order |
| PubSub.CallbacksAgree | src/include/marko/pub_sub.hpp:29-38 | an earlier callback's log is a later one's, preceded by exactly the messages from between the two registrations |
| PubSub.CallAllInOrder | src/include/marko/pub_sub.hpp:37 | for one message the callbacks run in the order of registration, each once, and the log shows what each put out |
| PubSub.CallsAreGenuine | src/include/marko/pub_sub.hpp:29-38 | over any run every logged call was made with a registered callback and shows what that callback puts out for its message |
| PubSubObjects.PublishersAreHeard | src/include/marko/pub_sub.hpp:29-60 | over every run on an ordered network, with any publishers: a callback's log is an interleaving in which each publisher's part is a subsequence of what it published for the subscriber, cut or padded and without empty messages; without loss, for a callback registered before the first message, a beginning of it, and all of it once nothing is under way; what was published is said from the actions |
| PubSubObjects.PublishedIsHeard | src/include/marko/pub_sub.hpp:29-60 | with one publisher the whole log is that publisher's part |
| PubSubObjects.HeardIsReceived | src/include/marko/pub_sub.hpp:34-38 | on any network and with any publishers: a callback's log is what the subscriber received, cut or padded, but for the messages before its registration |
| PubSubObjects.PublisherObject | src/include/marko/pub_sub.hpp:56-60 | over every run: a publisher's sends are those of its object in calls of publish, one for each publish among the actions, with the addresses registered before it; the last may be under way |
| PubSubObjects.SubscriberObject | src/include/marko/pub_sub.hpp:34-38 | over every run: a subscriber's system calls are those of its object in its calls of once, timeouts and calls on an already closed Unix socket included; the object holds its descriptor exactly as long as the system has it open |
| Sockets.Socket.RecvFrom | src/include/marko/socket_udp.hpp:24-46 | empty on a timeout, otherwise the padded or cut datagram and its sender; never closes |
| Sockets.Socket.Recv | src/include/marko/socket_uds.hpp:37-48 | UDP turns a timeout into an empty message; a Unix socket closes and throws |
| Sockets.Socket.SendTo | src/include/marko/socket_uds.hpp:50-60 | one send; no failure closes the socket or throws |
| Sockets.Socket.SetSocket | src/include/marko/socket.hpp:144-177 | bind and connect on any text: without a match the descriptor is closed and the call throws; a port that stoi rejects throws and changes nothing; otherwise a Unix path is unlinked, then the kernel is asked to do exactly what was asked for, with the parser's address, and only its refusal closes and throws; nothing is promised for a Unix path over 108 characters, which the source writes past its buffer |
| Sockets.Socket.SetOption | src/include/marko/socket.hpp:47-58 | an option change is one system call; its refusal closes an open descriptor and throws, otherwise the descriptor stays |
| Sockets.Socket.Guard | src/include/marko/socket.hpp:131-137 | a negative result closes the descriptor and throws, any other does nothing |
| Sockets.Socket.Shutdown | src/include/marko/socket.hpp:38-43 | closes at most once and leaves the error value |
| Sockets.Lifecycle | src/include/marko/socket.hpp:35-43 | over any life with any kernel answers: the descriptor is closed exactly once by the end of the destructor, and no call names it afterwards or names any other |
| Sockets.ClosedForGood | src/include/marko/socket.hpp:131-137 | after a failed guard, whatever is called and whatever the kernel answers, the field keeps the error value and no later system call names a descriptor |
| Sockets.ClosedRaises | src/include/marko/socket.hpp:131-177 | with a kernel that refuses the error value, exactly the later option changes, binds, connects and Unix receives throw, and no send succeeds |
| Sockets.DispatchAgrees | src/include/marko/socket.hpp:144-177 | for every text: invalid exactly when the first pattern matches nowhere, the Unix branch exactly when the parser yields a Unix address, always with the same path, the other branch never with one, and exceptions exactly the parser's |
| Scanner.ScanProto | src/include/marko/sockaddr.hpp:51-60 | the scanner returns what the reference matcher's search with the first pattern returns, for every text |
| Scanner.ScanIpPort | src/include/marko/sockaddr.hpp:71-77 | the same for the second pattern |
| Scanner.ProtoSearch | src/include/marko/sockaddr.hpp:51-55 | the search finds the leftmost scheme followed by a non-empty path, and takes the longest path |
| Scanner.ProtoSearchFails | src/include/marko/sockaddr.hpp:51-60 | it fails exactly when no position has a match |
| Scanner.IpPortSearch | src/include/marko/sockaddr.hpp:71-75 | the search finds the leftmost host run that ends in a colon and a port character, and takes the longest port |
| Scanner.IpPortSearchFails | src/include/marko/sockaddr.hpp:71-77 | it fails exactly when no position has a match |
| Scanner.ProtoCaptures | src/include/marko/sockaddr.hpp:51-68 | what is captured is one of the three schemes and a non-empty text of accepted characters |
| Patterns.PathClass | src/include/marko/sockaddr.hpp:51 | the characters the first pattern accepts, read from the text of its class |
| Patterns.HyphenIsNotAccepted | src/include/marko/sockaddr.hpp:51 | a hyphen is not one of them |
| Patterns.HostClass | src/include/marko/sockaddr.hpp:71 | the host characters of the second pattern, read from the text of its class |
| Patterns.PortClass | src/include/marko/sockaddr.hpp:71 | the port characters of the second pattern |
| SockAddr.Filter | src/include/marko/sockaddr.hpp:49-92 | the parser computes what the two searches of the reference matcher determine, exceptions included |
| Printers.Inet2String | src/include/marko/sockaddr.hpp:104-115 | what is printed for an internet address is an address text for the same address, under any C library; nothing is printed for other families |
| Printers.Unix2String | src/include/marko/sockaddr.hpp:117-131 | the longest part of the path before its first terminator; nothing for other families |
| Hosts.HtonsSwaps | src/include/marko/sockaddr.hpp:87 | the two bytes of a port are swapped |
| Hosts.HostMeaning | src/include/marko/sockaddr.hpp:78-80 | for every host text: `*` is 0, `bc` is 0xFFFFFFFF, a strict dotted decimal a.b.c.d is a + 256 b + 65536 c + 16777216 d, and any other text is what the C library makes of it |
| AddressLaws.SpecialHosts | src/include/marko/sockaddr.hpp:68-90 | with every accepted port text, host `*` gives address 0 and host `bc` gives 0xFFFFFFFF |
| AddressLaws.QuadAddress | src/include/marko/sockaddr.hpp:68-90 | with every accepted port text, four octets below 256 with dots give their value in memory order, and the port its bytes swapped |
| AddressLaws.PrintedAddress | src/include/marko/sockaddr.hpp:104-115 | such an address is printed octet by octet, with the port in host order |
| AddressLaws.TestAddresses | gtests/test_rr.cpp:10-14 | `udp://*:9999`, `udp://127.0.0.1:9999` and `unix://./unix.rr.uds` mean the addresses the tests rely on |
| AddressLaws.InetRoundTrip | src/include/marko/sockaddr.hpp:68-115 | for every IPv4 address and port, parsing the printed text gives the address back |
| AddressLaws.ParserMeaning | src/include/marko/sockaddr.hpp:49-92 | for every text and every result or exception: the parser gives it if and only if it is the text's meaning, said by the leftmost scheme with a path, then the leftmost host that ends in a colon and a port, the host's octets, the port's leading numeral with its bytes swapped, and for `unix` the path with terminators up to 108 characters |
| AddressLaws.ParsesToInet | src/include/marko/sockaddr.hpp:49-92 | a text parses to an internet address if and only if its leftmost scheme with a path is udp or tcp, the leftmost host and port of that path exist, the port is accepted, and the address is the one these give |
| AddressLaws.NormalForm | src/include/marko/sockaddr.hpp:49-115 | for all texts of that kind, with any junk in front, any spelling of the host and any port text: the printed address means the same as the text, and two texts mean the same address exactly when their addresses print alike |
| AddressLaws.TextAddress | src/include/marko/sockaddr.hpp:68-90 | udp or tcp with any non-empty accepted host and port text: the address or exception is the one the host and the port give |
| AddressLaws.PortTexts | src/include/marko/sockaddr.hpp:76-87 | every port text: exactly a star is 0, no leading digit is an invalid argument, a leading numeral above the int range is out of range, otherwise its low 16 bits |
| AddressLaws.DocumentedPorts | readme.md:49-55 | every documented port is read as written; the parser accepts exactly the documented ones if and only if the text is not a numeral in the int range that is followed by something, 0, or above 65535 |
| AddressLaws.UndocumentedPorts | src/include/marko/sockaddr.hpp:76-87 | `8*` is read as 8, `80,443` as 80 and `65536` as 0, and none of them is a documented port |
| AddressLaws.PortFaithful | readme.md:49-55 | for any accepted host and any numeral, zero-padded or not: the port written is the port read if and only if it is at most 65535 |
| AddressLaws.UnixRoundTrip | src/include/marko/sockaddr.hpp:60-131 | for every path text: parsing and printing gives it back if and only if it is not empty, all its characters are accepted, and it is shorter than 108 characters |
| AddressLaws.UnixPrefix | src/include/marko/sockaddr.hpp:60-66 | a path text that starts with an accepted character stores its longest accepted prefix, even with a scheme inside, followed by terminators up to 108 characters |
| Ascii.Ascii.Unpack | src/include/marko/ascii.hpp:27-40 | the tokens of this text, whatever was unpacked before |
| Ascii.Ascii.Pack | src/include/marko/ascii.hpp:42-48 | the tokens with separators between them |
| Ascii.UnpackPack | src/include/marko/ascii.hpp:27-48 | for every non-empty list of separator-free tokens, unpacking the packed text gives the list, without its last token exactly when that is empty |
| Ascii.PackUnpack | src/include/marko/ascii.hpp:27-48 | for every non-empty text, packing its tokens gives the text, without its final separator exactly when it ends in one |
| Messages.Pack | src/include/marko/message.hpp:25-30 | the byte image of the struct, as long as the sum of the field widths |
| Messages.Unpack | src/include/marko/message.hpp:32-37 | the well-typed value read from a message of the right size |
| Messages.StructRoundTrip | src/include/marko/message.hpp:25-37 | for every list of field widths, unpacking a packed well-typed value gives it back |
| Messages.ImageRoundTrip | src/include/marko/message.hpp:25-37 | every message of the right size is the image of the value read from it |
| Messages.ImageByte | src/include/marko/message.hpp:25-30 | byte j of field i stands after all bytes of the fields before it and is the field's value divided by 256 to the power of j, modulo 256 |
| Messages.Msg2String | src/include/marko/message.hpp:39-50 | the loop prints brackets around decimal bytes, each closed by a comma; nothing for the empty message |
| Messages.Brackets | src/include/marko/message.hpp:39-50 | the printed text of a message with bytes starts with an opening bracket and ends with a comma and a closing one |
| Messages.PrintedExactly | src/include/marko/message.hpp:39-50 | a strict parser, which takes only brackets around one or more numerals below 256 without needless zeros, each closed by a comma, or the empty text, reads a message from a text if and only if the text is printed for that message |
| Messages.PrintingLosesNothing | src/include/marko/message.hpp:39-50 | the strict parser recovers every message from its printed text |
| Messages.PrintingIsInjective | src/include/marko/message.hpp:39-50 | two messages of any lengths that print alike are equal |

## Left out

- System calls, errno, select, ioctl and socket options: only their results matter here, and those are arbitrary. The result of unlink is ignored, as in the source, and what it does to the file system is not modelled. `available` and `availableForWrite` are not modelled.
- Duplicated datagrams and datagrams from strangers: the environment excludes them; with them a client without sequence numbers can be handed anything.
- `SocketInfo`, stream output, console printing, host name and IP discovery: display, or foreign effects.
- `Event`, `SignalFunc`, sleeping and the endless `loop` wrappers: the model speaks of runs of `once` instead.
- `get_time`: one line of arithmetic; a timeout is an event that may happen at any time.
- `SocketBC`: a thin use of the address parser and `sendto`; it would add only easy members.
- Undefined behaviour: packing an empty list of tokens, unpacking a message of another size, a Reply without a callback and copied sockets are excluded by preconditions or by construction; a Unix path over 108 characters is the parser's result `PathOverrun`, and `Sockets.Lifecycle` takes a bind or connect with one to leave the object as it was.
- SockAddr.InetAddr: strict dotted decimals are computed; every other host text goes to an arbitrary function `libc`, because inet_addr's octal, hexadecimal and short forms are the C library's.
- SockAddr.Htons: swaps bytes, as on a little-endian host.
- SockAddr.NulPadded: all of sun_path behind the path is zero, as compilers leave a union initialised with `{0}`.
- Messages.Image: fields are unsigned integers, least significant byte first; a double is eight bytes whose value has no meaning here.
- Sockets.Socket.constructor: where the source's constructor throws because socket() failed, the model's leaves an object that holds no descriptor.
- PubSub.Subscriber.Once: a callback is a function from a message to what it puts out; what it does to other objects, or to the subscriber itself, is not modelled.
- Objects used from several threads at once: a publish, a `once` or a request of one object is never interleaved with another call on that object.
- The texts of the two patterns are taken apart by hand into concatenation, alternation, repetition and groups; the bracketed classes are read from their text.
