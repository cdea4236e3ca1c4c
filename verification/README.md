# The sans-I/O core of caproto, verified in Dafny

caproto implements the EPICS Channel Access protocol (Channel Access Protocol
Specification, "CAproto") without doing any I/O in its core: commands go in, bytes
come out, and the other way round. This project models that core and proves what it is
for. Dafny checks everything; nothing was executed.

`dafny verify dfyconfig.toml` checks the whole project. No proof uses an assumption.

## What is modelled

| files | part of caproto |
|---|---|
| `Protocol`, `States`, `Circuit` | commands, transition tables, one virtual circuit as a value: what one command does to the five tables, step by step, with the partially updated state left behind by every exception |
| `LockStep`, `Expected`, `TablesKept`, `Runs`, `CancelRace`, `DownCircuit`, `Blame`, `RawFields`, `Handshake` | properties of one circuit over whole runs, with the connection up and lost, what each class of command does in terms of the fields of its header, whom errors blame, and the opening exchange of versions on both ends |
| `Session`, `Refinement`, `Endpoint`, `TwoParty`, `ChannelDelivery`, `CircuitDelivery`, `ServerDrop` | a reference protocol with one guard and one effect per command; a circuit refines it; a client and a server circuit behind two FIFO queues, and what arrives in every interleaving |
| `Ids`, `VirtualCircuits` | the id counter; the circuit, its shared state object and its channels as the mutable objects they are, each method proved equal to the function on values |
| `ByteStrings`, `Headers`, `Messages`, `Stream`, `RoundTrips`, `DataTypes`, `Datagrams`, `Delivery`, `EndToEnd` | the wire codec with the layouts of headers, elements and metadata, the TCP stream parser, the UDP datagram parser, the broadcaster, and the link from the arguments at one end through bytes to the circuit at the other |
| `Batching`, `StringArrays` | greedy batching of search requests; arrays of 40-byte strings |
| `Alarms`, `Caches`, `Publications`, `Subscriptions`, `ServerData` | the alarm latch; server-side data with cached conversions, who is told what by which operation, as values over whole histories and as linked mutable objects |

A command is what a circuit reads from it: its class and the header fields. A channel
object is named by its position in the list of all channel objects ever made, so that an
object that lost its table entry still exists. Exceptions are outcomes: protocol errors,
`KeyError`, `AttributeError`, `ValueError` (an unknown data type code) and the error of
the channel-name filter. Data conversions, and whether a record filter in a channel name
is well formed, are parameters. The lock of the id counter is the atomicity of its method.

The two-party theorems cover the commands about channels and about the circuit, and the
loss of the connection at either end at any time. About commands of the circuit they assume
only that requests come from the client and responses from the server: a version request
may carry any priority, and a version response may come before the request. About channels
they assume what the protocol asks of the ends: fresh ids (which the allocator is proved to
supply), one cancel per subscription, no empty updates, well-formed names, and no channel
dropped on the server's own account. Then every command about a channel arrives
(`ChannelDelivery.EverySentChannelCommandIsAccepted`), every response about the circuit
arrives, and it is said exactly which requests about the circuit do not
(`CircuitDelivery.WhatArrives`). If the opening exchange is orderly (the client asks with its
own priority, the server does not answer before), everything arrives and both ends agree on
the phases as well (`TwoParty.EverySentCommandIsAccepted`). What goes wrong when a server
drops a channel itself is proved apart.

## Where the code does not do what it says

* `caproto/_utils.py:195-198` promises that sending or receiving a command raises protocol
  errors "and never any other error". Exact conditions: `Runs.StrayErrors` for channel
  commands while the circuit is up (`Runs.StrayErrorIs` says which error), `DownCircuit.StrayErrorsWhileDown` after the loss of
  the connection, `Runs.CircuitCommandsNeverStray` for the other commands, and
  `Stream.ParserRaises` for the parser, with `RoundTrips.UnknownTypeRaises` as an input.
* `caproto/_state.py:177-183` tolerates a late EventCancelResponse on a closed channel, but
  the circuit no longer finds that channel: `Runs.LateConfirmationRejected`, and
  `Runs.EmptyUpdateAfterClose` for the form it has on the wire.
* A disconnect does not close every channel: exactly those in the cid table
  (`LockStep.DisconnectClosesExactly`), which are all that are not closed yet if ids were
  fresh (`TablesKept.LossClosesAll`); `LockStep.OverwrittenChannelSurvives` is an input.
* A server that drops a channel on its own account makes requests in flight fail:
  `ServerDrop.RequestAfterDrop` says exactly which.
* A version response that the server sends before it is asked is accepted by both tables
  (`caproto/_state.py:43-46`, `:83-86`). Arriving before the request is sent it changes
  nothing (`CircuitDelivery.ResponseMoves`). If it crosses the request, the client is
  established while the server still has to answer (`CircuitDelivery.UnpromptedResponseBreaksDelivery`): until it does, exactly the
  host name and client name requests get through (`CircuitDelivery.LostWhileUnanswered`).
* A version request with the wrong priority is refused only after both roles have moved
  on (`Handshake.RequestProcessed`, `CircuitDelivery.WrongPriorityBreaksDelivery`): the
  client may then send exactly the two name requests, and the server refuses both until it
  has been asked (`CircuitDelivery.LostBeforeAsked`). With an early response on top of that,
  exactly another version request gets through (`CircuitDelivery.LostWhileNeverAsked`).
  These are the only requests that are lost in any interleaving; commands about channels and
  responses never are (`CircuitDelivery.WhatArrives`).
* The role whose table refuses a command sets the point of view of the error
  (`caproto/_state.py:282-292`), so that the kind of protocol error can name the wrong end:
  exactly for an echo that passes a client's circuit too early
  (`Blame.CircuitCommandBlame`, `Blame.EarlyEchoBlamesServer`), and for channel commands
  never while the circuit is up (`Blame.ChannelCommandBlame`, `Blame.StepBlame` otherwise).
* The buffers that `send` emits for a command that was parsed before lack the padding
  announced in the header: `Messages.SentIsEncoded` says exactly when, `RoundTrips.SentAgain`
  for values that the stream parser returned, and `RoundTrips.OneIntegerSentAgain` is an input.
* `batch_requests` documents a bound of less than the maximum; the code allows equality.
  `Batching.OneBatch` is an input, and `Batching.BelowLimit` the exact condition on the
  items: their running size never reaches the maximum. An empty batch is yielded exactly
  when the very first item is too long (`Batching.BatchRequests`).
* The stream parser skips an announced payload of a class that has none, the datagram
  parser does not: `Datagrams.PiecesAgree`.
* A severity that a handler sets aside is dropped when the status that the alarm has
  already is set aside with it (`caproto/_data.py:988-996`): `Caches.SeveritySetAside`.

## Model

| member | source | states |
|---|---|---|
| ChannelDelivery.EverySentChannelCommandIsAccepted | caproto/_circuit.py:228-415 | In every interleaving of two circuits joined by FIFO queues, with early version responses and version requests of any priority, each command about a channel that the sender's own circuit accepted is accepted by the receiver's circuit when it arrives; also while a channel is being closed with responses in flight, and after the other end has lost the connection. |
| CircuitDelivery.WhatArrives | caproto/_state.py:38-125 | In every interleaving each response is accepted when it arrives, and a request if and only if it is not one about the circuit that reaches a server that was not asked for its version (but for a version request) or has not answered yet (but for the two name requests). |
| ChannelDelivery.NextKeepsChannels | caproto/_circuit.py:228-447 | Every step of either end keeps the invariant: the commands about channels in both queues can be delivered, and that would bring both ends to the same session. |
| ChannelDelivery.HistoriesKeepChannels | caproto/_circuit.py:228-447 | That invariant holds in every reachable state of the two ends. |
| ChannelDelivery.CircuitCommandShowsNothing | caproto/_circuit.py:417-447 | A command about the circuit leaves channels, ids, transactions and subscriptions alone, be it accepted, refused, or refused with the phases moved on. |
| ChannelDelivery.QuietChannelsAgree | caproto/_circuit.py:228-447 | With nothing about channels in flight, the two ends agree on channels, ids, open transactions and subscriptions, in every interleaving. |
| CircuitDelivery.NextKeepsAnyOrder | caproto/_state.py:38-125 | Every step keeps how far the two ends are in the opening exchange consistent with what is in flight between them. |
| CircuitDelivery.LostWhileUnanswered | caproto/_state.py:38-125 | Client established, server not yet answered: the client accepts what is listed while connected, the server exactly the two name requests. |
| CircuitDelivery.LostBeforeAsked | caproto/_state.py:38-125 | Client waiting for its version, server never asked: the client accepts exactly the two name requests, and the server neither. |
| CircuitDelivery.LostWhileNeverAsked | caproto/_state.py:38-125 | Client established, server never asked: the server accepts exactly a version request with a fitting priority. |
| CircuitDelivery.EstablishedTakes | caproto/_state.py:61-82 | An established circuit accepts every command about the circuit, of either direction, but for those between repeaters, beacons, the synchronous read, and a version request with another priority. |
| TwoParty.EverySentCommandIsAccepted | caproto/_circuit.py:228-447 | In every interleaving with an orderly opening exchange (the client asks with its own priority, the server sends no version before that), each command that the sender's own circuit accepted, about a channel or about the circuit, is accepted by the receiver's circuit when it arrives; also while a channel is being closed with responses in flight, and after the other end has lost the connection. The general case is CircuitDelivery.WhatArrives. |
| TwoParty.NextKeepsInv | caproto/_circuit.py:228-447 | One orderly step of either end keeps the distributed invariant: both queues can be delivered, and delivering both brings the two ends to the same view, phases included. |
| TwoParty.HistoriesKeepInv | caproto/_circuit.py:228-447 | The invariant holds in every state of every orderly history of the two ends. |
| TwoParty.NewCircuitsStart | caproto/_circuit.py:71-104 | Two new circuits, about to exchange versions and with empty queues, are a start state of those histories. |
| TwoParty.QuietEndsAgree | caproto/_circuit.py:228-447 | With nothing in flight in an orderly history, the two ends agree on the phases of the circuit, the channels, ids, open transactions and subscriptions. |
| ChannelDelivery.TransactionsConserved | caproto/_circuit.py:295-302 | In every interleaving, an ioid the client waits for is in exactly one of request queue, server table, response queue, unless the confirmation of clearing its channel is in flight; and the server's table and the queues never hold one the client has dropped. |
| TwoParty.RequestAccepted | caproto/_circuit.py:285-294 | The request at the head of the queue is accepted, and delivering it keeps the invariant. |
| TwoParty.ResponseAccepted | caproto/_circuit.py:295-336 | The response at the head of the queue is accepted, and delivering it keeps the invariant. |
| CircuitDelivery.UnpromptedResponseBreaksDelivery | caproto/_state.py:38-125 | A version response that crosses the version request is accepted by both ends; of what follows, the server then accepts exactly the two name requests, while the client would send an echo, for one. |
| CircuitDelivery.WrongPriorityBreaksDelivery | caproto/_circuit.py:419-430 | A version request with a wrong priority is refused with the phases moved on; the client then accepts exactly the two name requests, and the server neither. |
| ServerDrop.RequestAfterDrop | caproto/_circuit.py:386-393 | When the server drops a channel itself, a request that was acceptable before is accepted afterwards if and only if it is not about that channel, by its sid, its subscription or its cid. |
| Endpoint.RefinesView | caproto/_circuit.py:228-447 | Given what the ends are assumed to observe, the right priority and no version response before the request, a circuit accepts exactly the commands that the guards of its view allow, about channels or about the circuit; an accepted one has exactly the effect on the view, a refused one none. |
| Endpoint.CircuitCommandRefines | caproto/_circuit.py:417-447 | A command about the circuit, with any priority and prompted or not, is accepted if and only if the tables of both roles list it and its priority fits, and what it changes of the view are the phases, also when only the priority is wrong. |
| Endpoint.RequestsCommute | caproto/_state.py:38-251 | A request and a response that are possible at the same end can cross, whatever they are about (but for a version response before the request). |
| Session.RequestsCommute | caproto/_state.py:164-176 | The same for commands about channels: either order is possible and has the same result. |
| Refinement.Refines | caproto/_circuit.py:228-415 | Given what the ends are assumed to observe, a circuit accepts exactly the commands that the reference protocol's guards allow, and accepting one has exactly the reference's effect. |
| Refinement.RefusalKeepsSession | caproto/_circuit.py:372-376 | A refused command leaves the session as it was, although a native type may have been recorded and an id removed on the way. |
| Refinement.ProcessKeepsLive | caproto/_circuit.py:404-412 | Accepted or refused, a command keeps cancels matched to their subscriptions and sets no rights on a channel nobody asked for. |
| Expected.ProcessAsExpected | caproto/_circuit.py:281-412 | On well-kept tables, stepping two roles and removing ids before validation comes to the same as checking one guard first and then changing the tables, for every channel command, its errors included. |
| Expected.BothTablesForm | caproto/_state.py:128-251 | From matched states the tables of both roles agree about every channel command. |
| TablesKept.ProcessKeepsGood | caproto/_circuit.py:376-412 | With fresh ids every command, accepted or rejected, keeps the sid table the exact index of the open channels, and the other tables within it. |
| TablesKept.RunsKeepTables | caproto/_circuit.py:376-447 | The same over whole runs up to a disconnect, with a version that only decreases. |
| TablesKept.VersionOnlyDecreases | caproto/_circuit.py:423-447 | No command raises the protocol version. |
| TablesKept.SidTableIsIndex | caproto/_circuit.py:382-389 | A sid leads to a channel exactly when that channel is listed, open and has this sid. |
| Blame.CircuitCommandBlame | caproto/_state.py:282-292 | The error of a refused circuit command names the wrong end exactly for an echo on a client's circuit between version request and response. |
| Blame.EarlyEchoBlamesServer | caproto/_state.py:282-292 | A client's echo before the version response raises the error that blames the server. |
| Blame.ChannelCommandBlame | caproto/_state.py:282-292 | While the circuit is up, a protocol error of a channel command names the right end. |
| Blame.StepBlame | caproto/_state.py:282-319 | Exactly when the second role is the one to refuse, in all matched states, the circuit being down included. |
| Blame.ChannelErrorNamesSender | caproto/_state.py:340-364 | Refused with a protocol error while the circuit is up, a channel command raises LocalProtocolError if our own role is registered as the sender of its class, and RemoteProtocolError if it is not. |
| Blame.CircuitErrorNamesSender | caproto/_state.py:282-292 | The same for commands about the circuit, in either direction and with the one exception of the early echo. |
| Blame.FaultOfSender | caproto/_state.py:340-364 | The error is the local one exactly for classes that our own role sends; a beacon, registered for both, counts as the server's. |
| RawFields.TransactionOpened | caproto/_circuit.py:395-398 | A read or a write with answer is accepted if and only if parameter1 is the sid of a channel that the client may use, and records the ioid in parameter2 for that channel. |
| RawFields.TransactionClosed | caproto/_circuit.py:295-302 | An answer is accepted if and only if the ioid in parameter2 is open, and removes exactly that one. |
| RawFields.WriteUnanswered | caproto/_circuit.py:285-294 | A write without answer is accepted under the same condition and changes nothing. |
| RawFields.SubscriptionOpened | caproto/_circuit.py:399-403 | A subscription is remembered under the id in parameter2 if parameter1 is the sid of a usable channel. |
| RawFields.RunsKeepSubscriptions | caproto/_circuit.py:399-403 | In every run each subscription is remembered as the EventAddRequest that carries its id. |
| RawFields.CancelRequested | caproto/_circuit.py:338-370 | A cancel is accepted if and only if its id is that of a subscription with the same sid and data type on a usable channel, and is then noted. |
| RawFields.UpdateReceived | caproto/_circuit.py:312-361 | An update is accepted if and only if the subscription of its id is on an open channel and asked for this data type and count (or for no particular count); it changes nothing. |
| RawFields.ConfirmationReceived | caproto/_circuit.py:241-268 | While that subscription is being cancelled, an empty update removes both entries. |
| RawFields.ConfirmationProcessed | caproto/_circuit.py:410-412 | A confirmation under its own class removes the subscription if sid and data type fit; if no cancel was requested it raises a KeyError after that. |
| RawFields.CreationRequested | caproto/_circuit.py:325-333 | The cid is parameter1; a new channel object is listed under it unless one is waiting there. |
| RawFields.CreationConfirmed | caproto/_circuit.py:382-385 | The channel of cid parameter1 becomes connected with sid parameter2, the native type and count of the header and the version of the circuit. |
| RawFields.ChannelMoved | caproto/_circuit.py:333-336 | A request to clear a channel names it in parameter2, a failed creation in parameter1; exactly the awaited phase is left. |
| RawFields.RightsGranted | caproto/_circuit.py:380-381 | The rights in parameter2 go to the channel of cid parameter1, from its creation request until it is closed. |
| RawFields.ChannelForgotten | caproto/_circuit.py:386-393 | A confirmed clearing (cid in parameter2) and a dropped channel (cid in parameter1) remove the channel, its sid and exactly its open transactions. |
| RawFields.VersionRequested | caproto/_circuit.py:423-434 | The priority is the data type field, the version the data count field; the smaller version is kept. |
| RawFields.VersionAnswered | caproto/_circuit.py:436-447 | The version announced in the data count field lowers the circuit's, unless it is 0. |
| Handshake.VersionsAgree | caproto/_circuit.py:417-447 | The opening exchange of versions is accepted by both ends, establishes both, fixes the priority and informs the listed channels; the ends agree on the version exactly when the announced version does not leave the server below what the client takes over. |
| Handshake.RequestProcessed | caproto/_circuit.py:419-434 | A version request moves both roles before the priority is checked, so a wrong priority raises with the state moved on; otherwise the version becomes the smaller one. |
| LockStep.RunsKeepLockStep | caproto/_circuit.py:540-559 | In every reachable state the roles of the circuit and of every channel are matched, although they are stepped one after the other and the second step may raise. |
| LockStep.StepBothRolesInLockStep | caproto/_circuit.py:545-552 | Stepping both roles keeps them matched even when the second refuses after the first was written. |
| LockStep.UpdateIdleWhileUp | caproto/_state.py:307-319 | While the circuit is up, update changes nothing. |
| LockStep.UpdateNeverWritesCircuit | caproto/_state.py:307-311 | The write-back of state-triggered transitions never alters the circuit's own state. |
| LockStep.DisconnectIsFinal | caproto/_state.py:253-270 | After a disconnect, whatever commands and new channels follow, the circuit stays disconnected, no channel becomes connected again and a closed one stays closed. |
| LockStep.DisconnectClosesListed | caproto/_state.py:334-338 | A disconnect closes the client side of every listed channel. |
| LockStep.DisconnectClosesExactly | caproto/_state.py:334-338 | After a disconnect a channel is closed on the client side if and only if it is listed or was closed before. |
| TablesKept.LossClosesAll | caproto/_state.py:334-338 | With fresh ids a disconnect closes every channel there is. |
| TablesKept.ClosedEverAfter | caproto/_state.py:253-270 | Over runs with fresh ids up to the loss, every channel that exists at the loss is closed in all later states, no channel is connected, and the circuit stays down. |
| LockStep.OverwrittenChannelSurvives | caproto/_circuit.py:496-500 | A channel object whose cid was reused keeps its Connected state through a disconnect. |
| LockStep.ExecKeepsWf | caproto/_circuit.py:228-415 | No step, accepted or rejected, leaves a table entry without its channel object. |
| Runs.AnsweredOnce | caproto/_circuit.py:295-302 | An accepted read or write response answers an earlier accepted request with its ioid on the channel it is delivered to, and nothing answered that request in between. |
| Runs.LiveResponseAccepted | caproto/_circuit.py:295-302 | While the circuit is up, a response is accepted if and only if its ioid is live, so removing the ioid before validation loses nothing. |
| Runs.UpdateBelongsToSubscription | caproto/_circuit.py:312-361 | An accepted update belongs to a subscription that was requested and not yet confirmed cancelled, with the requested type and (if non-zero) count. |
| CancelRace.RaceOverRuns | caproto/_circuit.py:241-268 | Over runs, with any other commands in between: after an accepted cancel request no response on the subscription raises if and only if none with data follows an empty one, and the confirmation is exactly the first empty one. |
| CancelRace.OthersKeepEntries | caproto/_circuit.py:281-412 | Any command that neither names the subscription nor removes its channel leaves the subscription and the pending cancel as they are. |
| Runs.CancelRace | caproto/_circuit.py:241-268 | For a list of responses without anything in between, the resulting circuit as well. |
| Runs.CancelRequestAccepted | caproto/_circuit.py:404-409 | An accepted cancel request brings the circuit into the situation of the cancel race. |
| Runs.ConflationUndone | caproto/_circuit.py:241-268 | Processing the empty update that a confirmation looks like on the wire equals processing the confirmation, exactly under a stated condition on sid and data type. |
| Runs.CreationRecorded | caproto/_circuit.py:540-559 | A creation response is accepted exactly while one is awaited, and then connects both roles and enters the sid; accepted or refused, it records the native type and count. |
| Runs.StrayErrors | caproto/_utils.py:195-198 | While the circuit is up and ids are fresh: the exact condition under which a channel command raises something other than a protocol error. |
| Runs.StrayErrorIs | caproto/_circuit.py:303-336 | Which error that is: KeyError, AttributeError, ValueError or that of the channel-name filter. |
| DownCircuit.StrayErrorsWhileDown | caproto/_utils.py:195-198 | The exact condition after the loss of the connection. |
| DownCircuit.SettledEverAfter | caproto/_state.py:253-270 | A circuit that loses its connection with fresh ids is in the situation of that condition in every later state. |
| Stream.ParserRaises | caproto/_commands.py:354-392 | Reading a command raises, and which error, exactly as its header says: unknown command id, unknown data type of a value, or a payload too small for its structure. |
| RoundTrips.UnknownTypeRaises | caproto/_commands.py:114-129 | A framed write of an unknown data type makes the receiver raise a KeyError while parsing. |
| Runs.CircuitCommandsNeverStray | caproto/_utils.py:195-198 | A command about the circuit as a whole raises nothing but protocol errors. |
| Runs.LateConfirmationRejected | caproto/_state.py:177-183 | A confirmation for a subscription whose channel is gone raises, in spite of the table entry that tolerates it. |
| Runs.EmptyUpdateAfterClose | caproto/_circuit.py:312-324 | With the channel gone, an empty update is refused if and only if its subscription is still remembered; the circuit does not change. |
| VirtualCircuits.VirtualCircuit.Make | caproto/_circuit.py:71-104 | A new circuit is the initial value, with an empty receive buffer; a client without a priority is refused. |
| VirtualCircuits.VirtualCircuit.ProcessCommand | caproto/_circuit.py:228-447 | The objects after one command, and its outcome, are those of the function on values. |
| VirtualCircuits.VirtualCircuit.ProcessForChannel | caproto/_circuit.py:281-415 | The same for the commands of one channel. |
| VirtualCircuits.VirtualCircuit.Identify | caproto/_circuit.py:285-336 | Which channel object a command is about, with the ids removed or the channel created on the way. |
| VirtualCircuits.VirtualCircuit.PurgeTransactions | caproto/_circuit.py:392-393 | The loop removes exactly the transactions of this channel object. |
| VirtualCircuits.VirtualCircuit.RemoveChannel | caproto/_circuit.py:386-393 | The removals of a closed channel, with what is left when one of them fails. |
| VirtualCircuits.VirtualCircuit.ProcessForCircuit | caproto/_circuit.py:417-447 | The commands about the circuit: both roles are stepped, listed channels follow, then the version and priority are negotiated. |
| VirtualCircuits.VirtualCircuit.Disconnect | caproto/_state.py:334-338 | Both roles go down and every listed channel, and no other, is updated. |
| VirtualCircuits.VirtualCircuit.Recv | caproto/_circuit.py:182-217 | The commands, the left-over bytes and the number of missing bytes are those of the stream parser on everything received; no bytes mean the connection closed; an exception discards the commands parsed in that call. |
| VirtualCircuits.VirtualCircuit.Send | caproto/_circuit.py:148-180 | Commands are processed in order up to a refusal, which keeps the effect of the earlier ones and sends nothing; otherwise the joined buffers are the bytes of all the commands. |
| VirtualCircuits.VirtualCircuit.NewChannelId | caproto/_circuit.py:457-460 | The next id that no channel in the role's table uses; it meets what the two-party model assumes of a fresh cid or sid. |
| VirtualCircuits.VirtualCircuit.NewIoid | caproto/_circuit.py:469-474 | The next ioid that no open transaction uses; any request with it meets what the two-party model assumes. |
| VirtualCircuits.VirtualCircuit.NewSubscriptionId | caproto/_circuit.py:462-467 | The next id that no subscription uses; any EventAddRequest with it meets what the two-party model assumes. |
| VirtualCircuits.ChannelObject.ProcessCommand | caproto/_circuit.py:540-559 | The native type is recorded first, then our role and the other one are stepped; a refusal of the second leaves the first step in place. |
| VirtualCircuits.ChannelObject.Update | caproto/_state.py:317-319 | Both roles' state-triggered transitions fire, on the channel and the shared circuit state. |
| Ids.Counter.Next | caproto/_utils.py:963-974 | From any position and any table that leaves a free id, the loop ends with the cyclically next free id. |
| Ids.NextIsUnique | caproto/_utils.py:963-974 | There is only one such id. |
| Ids.DistinctIds | caproto/_utils.py:946-974 | While the table does not change, calls hand out distinct ids, and as many calls as there are free ids hand out all of them. |
| Ids.CyclicOrder | caproto/_utils.py:946-974 | They come in cyclic order, leaving none out. |
| Batching.BatchRequests | caproto/_utils.py:922-943 | The batches concatenate to the items in order, each within the limit or a single oversized item, none able to take the item that opens the next; an empty batch comes out exactly when the first item is too long. |
| Batching.GreedyIsOptimal | caproto/_utils.py:922-943 | No order-preserving split into acceptable batches uses fewer (non-empty) batches. |
| Batching.LimitKept | caproto/_utils.py:922-943 | Every batch keeps to the limit if and only if every item does. |
| Batching.BelowLimit | caproto/_utils.py:922-943 | Every batch stays below the documented limit if and only if the running size of the items, which starts anew where an item would take it above the limit, never reaches the limit. |
| Batching.FillingIsPart | caproto/_utils.py:934-943 | After each item, that running size is the size of its batch so far. |
| Batching.OneBatch | caproto/_utils.py:922-943 | Two items that add up to the limit come out as one batch that reaches it. |
| Datagrams.SearchDatagramFits | caproto/threading/client.py:884-887 | A version request and any batch of searches made for the remaining space fit into one datagram. |
| Headers.HeaderRoundTrip | caproto/_commands.py:319-351 | A reader recovers either kind of header, whatever follows it, if and only if it is not a normal header that looks like the sentinel. |
| Headers.PaddedNeverAmbiguous | caproto/_headers.py:333-339 | A header built for a payload size that is a multiple of 8 never looks like the sentinel. |
| Headers.WireLayout | caproto/_headers.py:22-56 | Each field of either layout is at its documented offset, with its documented size, most significant byte first. |
| ByteStrings.PaddingsAgree | caproto/_commands.py:132-150 | The two padding computations give the same bytes, the shortest extension to a multiple of 8. |
| Messages.RegistryInvertsIds | caproto/_commands.py:405-427 | Within one direction the command id determines the class, with the one conflation of confirmation and update. |
| Messages.Identifiers | caproto/_commands.py:531-1771 | The identifier of every class. |
| Messages.PayloadsByIdentifier | caproto/_commands.py:583-1771 | What follows the header of each class: a text, a value, another structure or nothing. |
| Messages.ToBytes | caproto/_commands.py:493-504 | The loop over the buffers yields the header followed by the trimmed and padded payload. |
| Messages.FromWireRebuilds | caproto/_commands.py:114-129 | A padded payload that is read back gives an equal command if and only if it holds nothing but padding beyond what data type and count call for. |
| Messages.SentIsEncoded | caproto/_circuit.py:177-179 | What is sent equals the encoding if and only if the payload is padded already. |
| RoundTrips.BuiltIsSendable | caproto/_commands.py:230-269 | Whatever the constructors build from proper arguments, with normal or extended header, is validated, padded and survives the wire. |
| RoundTrips.ArgumentsReadBack | caproto/_headers.py:60-891 | Whatever the constructors build, encoded and read from a stream, carries the parameters, data type and data count it was built from, within the width of the fields of either layout. |
| RoundTrips.PayloadReadBack | caproto/_commands.py:132-150 | And its payload: the text or the copied header and complaint up to zero padding, the mask, the version, or metadata and data without padding. |
| RoundTrips.ReadBack | caproto/_commands.py:354-392 | One command on a stream is read back as an equal one, leaving the rest, if and only if its payload survives. |
| RoundTrips.ListReadBack | caproto/_commands.py:354-392 | A list of commands comes back as an equal list with nothing left over. |
| RoundTrips.SentIsEncodedList | caproto/_circuit.py:173-180 | The joined buffers of a list of commands are their concatenated encodings. |
| RoundTrips.SentAgain | caproto/_circuit.py:177-179 | A value that the stream parser returned is sent again as its encoding if and only if its metadata and data need no padding. |
| RoundTrips.OneIntegerSentAgain | caproto/_circuit.py:177-179 | A write of one 16-bit integer, read from the stream and sent again, does not give its encoding. |
| RoundTrips.SentAndReceived | caproto/_circuit.py:148-217 | What is sent, cut anywhere and received, is an equal list. |
| DataTypes.ElementSize | caproto/_dbr.py:404-436 | The element size of every data type is the length of an encoded element of its native type. |
| DataTypes.ElementsSize | caproto/_dbr.py:404-436 | A list of elements is as long as the data count says. |
| DataTypes.MetadataSize | caproto/_dbr.py:440-818 | The metadata of every data type is as long as the fields of its structure, special types and the two string types that stand in for others included. |
| DataTypes.ElementsAreProper | caproto/_commands.py:114-129 | Elements of the native type behind metadata of that size are a proper value for every class that carries one. |
| Stream.ChunksDoNotMatter | caproto/_circuit.py:199-217 | For any bytes and any cuts, successive calls yield the commands and the error of a single call, and without an error the same left-over bytes and byte count. |
| Stream.DrainWithMore | caproto/_commands.py:354-392 | Reading first one part and then the rest is reading the whole. |
| Stream.NeverAsksTooMuch | caproto/_commands.py:319-351 | With fewer bytes than asked for no command can be read, and once the header is known the number is exact. |
| Stream.DrainedIsDrained | caproto/_circuit.py:205-217 | After a drain without error, bytes are missing and nothing more can be read. |
| Datagrams.ReadDatagram | caproto/_commands.py:293-316 | The loop computes the commands of one datagram, or the first error. |
| Datagrams.PiecesAgree | caproto/_commands.py:293-316 | The two parsers cut out a command in the same way if and only if its header is normal and a class without payload announces none. |
| Datagrams.ParsersAgree | caproto/_commands.py:293-392 | On a whole datagram of such commands the two parsers agree. |
| Datagrams.BroadcastReadBack | caproto/_broadcaster.py:70-137 | What one broadcaster sends, another receives as an equal list. |
| Datagrams.Broadcaster.Send | caproto/_broadcaster.py:70-97 | The concatenated encodings, with the registration flag set by a confirmation. |
| Datagrams.Broadcaster.Recv | caproto/_broadcaster.py:99-137 | The commands of the datagram, or a protocol error for every kind of failure; the flag is not touched. |
| Delivery.BytesCarryCommands | caproto/_circuit.py:148-217 | However the bytes are cut, the receiving circuit gets to see exactly the commands that the queues of the two-party model carry. |
| Delivery.ConfirmationSurvives | caproto/_commands.py:1022-1035 | A confirmation encoded, read back as an empty update and processed has the effect of the confirmation itself, exactly under the stated condition. |
| EndToEnd.ReadArrives | caproto/_circuit.py:395-398 | A read built for a sid and an ioid, encoded, parsed and processed is accepted if and only if that sid is usable at the server, which then waits to answer that ioid on that channel. |
| EndToEnd.AnswerArrives | caproto/_circuit.py:295-302 | An answer built for an ioid, encoded, parsed and processed is accepted if and only if the client waits for that ioid, and it then no longer does. |
| Alarms.LatchHoldsHighest | caproto/_data.py:197-230 | Over any history, the severity to acknowledge is the highest written since the last reset, or what that reset left. |
| Alarms.UnlatchedNeverExceeds | caproto/_data.py:205-222 | While transient alarms need not be acknowledged it never exceeds the current severity, given a start where it does not; an acknowledgement leaves 0. |
| Alarms.FieldsAreLastWritten | caproto/_data.py:193-233 | After any writes, status, severity, the need to acknowledge and the text are the last ones given, or the initial ones. |
| Alarms.LatchByArgument | caproto/_data.py:197-225 | What each argument by itself does to the severity to acknowledge. |
| Alarms.AtOnceIsOneByOne | caproto/_data.py:191-233 | Several arguments in one write come to the same as one write each, in the order of the source. |
| Alarms.FlagsByArgument | caproto/_data.py:193-230 | Which kinds of subscription a write adds: values for a status, alarms for the rest, for an acknowledgement only if it reaches the new severity. |
| Caches.NewSubscriberSeesFreshRead | caproto/_data.py:464-489 | After any operations on any channels that share alarms, the first update to a new subscriber is what a fresh read gives. |
| Caches.StepFresh | caproto/_data.py:792-844 | After every operation all caches are transparent, and everything sent during it agrees with a fresh read at its end. |
| Caches.HistoriesAreTransparent | caproto/_data.py:809-844 | All caches are transparent between any operations. |
| ServerData.ChannelAlarm.Write | caproto/_data.py:171-233 | The alarm's new data and, when published, what every channel sharing it has sent. |
| ServerData.ChannelAlarm.Publish | caproto/_data.py:235-249 | Every channel but the excepted ones publishes. |
| ServerData.ChannelData.Publish | caproto/_data.py:792-844 | The cache is cleared and refilled by type, and each group with subscriptions gets one fresh update. |
| ServerData.ChannelData.Subscribe | caproto/_data.py:464-489 | The first update comes from the cache or from a conversion that then is cached. |
| ServerData.ChannelData.WriteMetadata | caproto/_data.py:886-954 | Fields of this channel, status and severity of the shared alarm, and who publishes. |
| ServerData.ChannelData.Write | caproto/_data.py:731-783 | The state after a value was taken, skipped or refused by its handlers, on this channel, its alarm and the other channels of that alarm. |
| Caches.SeveritySetAside | caproto/_data.py:988-996 | After a new value is taken, the alarm has the severity that was set aside if and only if the status it has already was not set aside with it or the severity is the same; nothing stays set aside. |
| Publications.PublishedTells | caproto/_data.py:792-844 | One publication sends one update for each group with subscriptions, with its queue, data type, subscriptions, the flags and the reading of the current data, in the order of the groups, and nothing else; it changes no data. |
| Publications.WriteAlarmTells | caproto/_data.py:171-249 | A write to an alarm makes every channel of that alarm publish once, with the flags of the arguments; channels of other alarms stay as they are. |
| Publications.MetadataTells | caproto/_data.py:886-954 | The fields and the time after a write of metadata; the channel publishes once as a change of properties, before that once with its alarm if that is concerned, and the other channels of that alarm once; nobody else. |
| Publications.ValueTells | caproto/_data.py:745-783 | Value, time, fields and alarm after a new value; the channel publishes once, the other channels of its alarm once if status or severity are named, nobody else. |
| Publications.RefusalTells | caproto/_data.py:753-763 | A refused value leaves the data alone, puts the alarm into WRITE and MAJOR and makes all its channels publish that; a skipped one does nothing; what was set aside is gone in both cases. |
| Publications.SetAsideIsTaken | caproto/_data.py:966-996 | What a handler sets aside is told to nobody and goes to the alarm with the next value. |
| Subscriptions.SpecAdded | caproto/_data.py:476-477 | A subscription joins those of its queue and data type, and no others. |
| Subscriptions.SpecRemoved | caproto/_data.py:502-503 | Only the given subscription is removed. |
| Subscriptions.ListedIfSubscribed | caproto/_data.py:464-503 | After any operations a subscription is listed if and only if it was made and not taken back since. |
| Subscriptions.OneUpdatePerType | caproto/_data.py:792-801 | In a publication there is an update for a queue and a data type if and only if there are subscriptions, then exactly one, for all of them, with a fresh reading. |
| Subscriptions.SubscriberIsTold | caproto/_data.py:731-844 | While a subscription is open, each value taken reaches it in exactly one of the updates of its queue and data type, with the flags of the write and what a fresh read gives. |
| StringArrays.FromBuffer | caproto/_dbr.py:212-231 | The loop yields the strings of the slots; empty ones beyond the end of the buffer. |
| StringArrays.StringsRoundTrip | caproto/_dbr.py:212-236 | Each string comes back cut at 40 bytes and at its first NUL, also when the search for NUL runs into the next slot. |
| StringArrays.WhenIdentity | caproto/_dbr.py:212-236 | It is the identity exactly on NUL-free strings of at most 40 bytes, and the count may be left out exactly for a non-empty list. |
| StringArrays.KeptIsUnique | caproto/_dbr.py:218-223 | What is kept of a string is determined: its longest NUL-free prefix of at most 40 bytes. |

## Left out

- TwoParty.EverySentCommandIsAccepted: an orderly opening exchange is required, because requests about the circuit are lost without it; CircuitDelivery.WhatArrives says which, for every interleaving.
- CircuitDelivery.WhatArrives: a server that drops a channel itself is outside the steps of the two-party model; ServerDrop.RequestAfterDrop covers it for one drop.
- Runs.StrayErrors: a circuit whose caller reuses ids that are still in use is not covered.
- Runs.CancelRace: nothing else happens in between; CancelRace.RaceOverRuns is the general form.
- Delivery.AsCommand: whether a channel name's record filter parses is a parameter; the filter parser and the JSON library are not modelled.
- Ids.Counter.Next: without a free id the source loops for ever, so a free id is required; a start below -1 is not modelled.
- Caches.Converter: conversions are total functions of the current data; a conversion that raises in the middle of a publication is not modelled.
- Caches.Step: unpublished writes by themselves, replacing a channel's alarm, state snapshots and sync filters, and interleavings inside an unfinished write.
- ServerData.ChannelData: the queues are one list of everything put on them; enum checks of status and severity values are left to the types.
- RoundTrips.Build: values are given as the bytes they convert to; ids beyond 32 bits are cut as ctypes does, ranges checked by constructors (priority, record name length) are not modelled.
- The subclasses of ChannelData and ChannelAlarm, with their own fields and write hooks.
- Channel state-change callbacks, logging, and the convenience methods that compose commands.
- Sockets, event loops, threads, command-line tools and IOC examples.
- Text encodings, numpy and ctypes memory views, float and time conversions.
- The search-result cache of the clients, whose two maps are not kept in agreement.
- Type conversion by dynamic dispatch, and the finite tables of promoted types and status codes beyond the sizes used by the codec.
