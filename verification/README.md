# A verified model of envisilab

envisilab is a location-sharing publish/subscribe server. Clients report where they are; the server
publishes each report on the channel of the S2 cell the client occupies and on the channels of its
groups, and hands every connection the messages of the cells around it or of one group. This project
models the parts of it that keep state, and proves what they keep.

**Subscription engine.** `Backend` is the log of calls to Redis. `SubscriberSpec` says, as relations
that include every pattern of backend errors and every order in which Go may range over a map, what
the Subscriber's operations do; `Subscribers` is the class itself, updated in place and proved against
those relations. `SubscriberProps` and `SubscriberRuns` hold the invariants, the frame, and whole
runs; `SubscriberOutcomes` tells from the state before a call what the backend's answers can make of
it. `Topologies` joins a cell and a group Subscriber; `Subscriptions` is the loop of one connection
together with `Wanted`, an independent definition of where a connection belongs after a history of
events; `Sessions` interleaves any number of connections, with every move split into its two
separately locked halves. `Cells` and `Entities` model the cell cache with Go's slices over shared
arrays; `Simulators` models the synthetic peers, `SimulatorDelivery` counts what they
deliver, and `SimulatorRuns` runs the loop of a connection over them.

**Outbound queue.** `WebSockets` is the bounded queue, the pump and its snapshot-size drain under any
interleaving of `Write`; `Framing` and `Json` show when a frame can be split again, for messages of
any bytes, and that JSON texts (RFC 8259) always can.

**Binary protocol.** `Bytes`, `Locations`, `Buffers`, `Messages` and `Sinks` model the headers,
payloads, streams and the count-prefixed list, and `MessageLayout` says where every byte lies; floats
are bit patterns. **Token map.**
`Endpoints` interleaves the steps of concurrent session creations with token expiry.

Where the code departs from its evident intent, the model follows the code and says exactly when the
intent is met:

- "stop" does not stop: the `break` at core/subscriber.go:72 leaves only the type switch, so the
  unsubscribe at core/subscriber.go:79 is never reached. `Subscriptions.React` and
  `Subscriptions.Subscription.Start` follow this, and `Sessions.StopClearsIff` says when a stopped
  connection is in no channel. The act `Close` of `Sessions` is the intended exit, labelled as such.
- The cell "copy" handed to a subscription (core/entity.go:49) shares its array with the original.
  `Cells.MoveWhileShared` gives what it shows after any series of `Update` and `Changed` calls, and
  `Cells.CopyIntactIff` when that is the old group throughout. The results on subscriptions take events to carry isolated
  values (`CellValue`).
- Backend errors are ignored by the topology. `Topologies.CellMoveApartIff`,
  `Topologies.GroupMoveApartIff` and `SubscriberOutcomes.MirrorKeptIff` give conditions on the state
  before a call that decide whether the memberships stay apart, and the indexes mirror each other,
  for every answer of the backend; `SubscriberRuns.SubscribeDeliversIff` says when a subscribe that
  reports success delivers anything.
- A short read is taken for a full one (core/message.go:87, core/message.go:238):
  `Messages.InStepIffFullReads`. A payload length is cut to 32 bits (core/message.go:200):
  `Messages.DataResponseIff`.

An error-free run is one in which `NoErrors` holds of the backend log. A failed backend call is taken
to have no effect at the backend.

## Model

| member | source | states |
|---|---|---|
| `Decimal.RenderInjective` | core/topology.go:241 | two cells share a decimal channel name exactly when they are the same cell |
| `Decimal.RenderAppend` | core/topology.go:241 | one more decimal digit multiplies by ten, for every number |
| `Decimal.RenderDigits` | core/topology.go:241 | a rendering is all digits, and begins with a zero for zero alone |
| `Decimal.NamedIffMember` | core/subscriber.go:189-191 | a cell's name is among the channels of a group exactly when the cell is in the group |
| `Decimal.ChannelCount` | core/subscriber.go:189-191 | a connection gets as many channels as its group has distinct cells |
| `Backend.LiveByChannel` | core/subscriber.go:229 | whether the backend delivers a channel depends on the calls for that channel alone |
| `Backend.LiveAt` | core/subscriber.go:229-258 | a channel is delivered exactly from an accepted subscribe until the next accepted unsubscribe |
| `Backend.TurnsBalance` | core/subscriber.go:229-258 | for calls that take turns, subscribes minus unsubscribes is 0 or 1, and 1 exactly while the channel is up |
| `Subscribers.Subscriber.SubscribeNoLock` | core/subscriber.go:218-237 | the new indexes and the backend call made, success and refusal |
| `Subscribers.Subscriber.UnsubscribeNoLock` | core/subscriber.go:252-266 | the new indexes and exactly one call per emptied channel, for any order of the channels and an error at any of them |
| `Subscribers.Subscriber.Subscribe` | core/subscriber.go:203-213 | both halves, an error of the first being ignored |
| `Subscribers.Subscriber.SubscribeToCell` | core/subscriber.go:178-197 | both halves, an error of the first or of any subscribe ending the operation there |
| `Subscribers.Subscriber.Dispatch` | core/subscriber.go:157-163 | a message is written exactly once to each connection in its channel's set and to nobody else |
| `SubscriberProps.UnsubscribeMirrored` | core/subscriber.go:252-266 | from mirrored indexes, an unsubscribe leaves them mirrored exactly when it reports no error |
| `SubscriberProps.AddedMirrored` | core/subscriber.go:218-237 | the same for a subscribe |
| `SubscriberProps.UnsubscribeDisciplined` | core/subscriber.go:252-266 | an error-free unsubscribe keeps the calls of every channel taking turns, in step with the open channels |
| `SubscriberProps.UnsubscribeRecorded` | core/subscriber.go:252-266 | under any error, watchers stay recorded and every open channel stays recorded by somebody |
| `SubscriberProps.AddedRecorded` | core/subscriber.go:218-237 | the same for a subscribe, refused or not |
| `SubscriberProps.BackendFollowsIndex` | core/subscriber.go:226-262 | the backend is subscribed to exactly the keys of the channel index |
| `SubscriberProps.CallBalance` | core/subscriber.go:226-262 | calls made minus calls undone is 1 for a channel somebody holds and 0 for any other |
| `SubscriberRuns.OthersSame` | core/subscriber.go:178-266 | frame: whatever fails, a request changes neither record, dispatch nor backend calls of any other connection |
| `SubscriberRuns.OthersReceive` | core/subscriber.go:178-266 | other connections receive the same channels before and after, shared ones included |
| `SubscriberRuns.VisitReplaces` | core/subscriber.go:178-197 | a successful SubscribeToCell leaves exactly the new channels, and no entry for an empty group |
| `SubscriberRuns.VisitHands` | core/subscriber.go:178-197 | a successful SubscribeToCell hands the connection all the channels, whatever failed before |
| `SubscriberRuns.JoinReports` | core/subscriber.go:203-213 | Subscribe reports success exactly when the connection is handed the channel, and without unsubscribing first keeps all other channels |
| `SubscriberRuns.LeaveClears` | core/subscriber.go:242-266 | after any earlier errors, a successful Unsubscribe removes the connection from every channel and from the connection index |
| `SubscriberRuns.SubscribeDeliversIff` | core/subscriber.go:226-236 | a successful subscribe makes messages arrive exactly when the channel was not open or was live |
| `SubscriberRuns.RefusalSilencesChannel` | core/subscriber.go:226-236 | a concrete run: one refused subscribe leaves the channel silent for the next connection |
| `SubscriberRuns.VisitMirrored` | core/subscriber.go:178-197 | SubscribeToCell keeps the mirror exactly when it reports no error |
| `SubscriberRuns.JoinMirrored` | core/subscriber.go:203-213 | Subscribe with its ignored error keeps the mirror exactly when the first half succeeded or had reached only the channel subscribed to again |
| `SubscriberOutcomes.LeaveMayFailIff` | core/subscriber.go:252-266 | an unsubscribe can fail exactly when the connection holds a channel nobody else watches |
| `SubscriberOutcomes.MirrorKeptIff` | core/subscriber.go:178-266 | a request keeps the mirror for every answer of the backend exactly when the connection leaves no channel empty and every channel asked for is open |
| `SubscriberOutcomes.QuietKeepsMirror` | core/subscriber.go:178-266 | such a request makes no backend call and cannot fail |
| `SubscriberRuns.PerformsStrong` | core/subscriber.go:178-266 | every public operation without a backend error keeps the mirror and the call discipline |
| `SubscriberRuns.RunKeepsRecorded` | core/subscriber.go:178-266 | in every state of every run, with any errors, the failure-tolerant invariant holds |
| `SubscriberRuns.RunKeepsTraced` | core/subscriber.go:178-266 | in every state of every run, with any errors, a channel is open exactly when the last call made for it was a subscribe |
| `SubscriberRuns.RunReceivesIff` | core/subscriber.go:226-262 | in any run a watched channel delivers unless its last call, a subscribe, was refused while the backend was not delivering it anyway |
| `SubscriberRuns.RunKeepsStrong` | core/subscriber.go:178-266 | in every state of an error-free run the indexes mirror each other, no inner map is empty, calls take turns and the backend set equals the channel keys |
| `SubscriberRuns.QuietAfterLeave` | core/subscriber.go:157-163 | after a successful Unsubscribe nothing reaches the connection until it makes a request again |
| `Topologies.Topology.SubscribeToCell` | core/topology.go:197-203 | group half first with its error ignored, then the cell half |
| `Topologies.Topology.SubscribeToGroup` | core/topology.go:209-215 | cell half first with its error ignored, then the group half |
| `Topologies.Topology.Unsubscribe` | core/topology.go:228-233 | both halves, both errors ignored |
| `Topologies.Topology.Broadcast` | core/topology.go:238-253 | exactly the entity's cell and then each of its groups in order is published on, with the message, or only the cell if that fails |
| `Topologies.CellMoveApart` | core/topology.go:197-203 | however the cell half ends, the memberships stay apart exactly when the group half succeeded or the cell group is empty |
| `Topologies.CellMoveApartIff` | core/topology.go:197-203 | they stay apart for every answer of the backend exactly when the cell group is empty or somebody shares each group of the connection |
| `Topologies.GroupMoveApart` | core/topology.go:209-215 | the memberships stay apart exactly when the cell half succeeded |
| `Topologies.GroupMoveApartIff` | core/topology.go:209-215 | they do for every answer of the backend exactly when somebody shares each cell channel of the connection |
| `Subscriptions.ReactRefinesWanted` | core/subscriber.go:38-76 | the loop's change detection is enough: acting only then leads to the membership wanted by the whole history |
| `Subscriptions.CellDecidesFirst` | core/subscriber.go:29-57 | before any filter arrives the last cell decides, and without a cell the connection belongs nowhere |
| `Subscriptions.FilterDecidesLater` | core/subscriber.go:45-67 | afterwards the last filter decides: its group, the last cell's group, or what was wanted before it for an unknown type or without a cell |
| `Subscriptions.CellMoves` | core/subscriber.go:45-52 | a cell makes the loop subscribe to it exactly while the filter is local, as it is at first |
| `Subscriptions.FilterMoves` | core/subscriber.go:54-67 | a filter moves the connection only if it differs from the one before, and where to |
| `Subscriptions.Subscription.Receive` | core/subscriber.go:42-75 | one round of the loop updates cell and filter and makes exactly the call the event asks for |
| `Subscriptions.Subscription.Start` | core/subscriber.go:38-76 | after any events processed without backend errors the connection is exactly where the history wants it; without a filter that is the last cell's group |
| `Subscriptions.MovesCorrectly` | core/topology.go:197-215 | an error-free move replaces the earlier membership and leaves the other index |
| `Sessions.ActorRight` | core/subscriber.go:38-101 | whatever step a connection takes, it ends where its events want it or on the way with the other index already left |
| `Sessions.NextGood` | core/topology.go:197-233 | one step of one connection keeps every connection right and both Subscribers strong |
| `Sessions.RunGood` | core/topology.go:197-233 | in every error-free interleaving of any number of connections every connection is right, with the processed events a subsequence of those sent |
| `Sessions.RunRecorded` | core/topology.go:197-233 | with any errors and any interleaving, both Subscribers keep the failure-tolerant invariant |
| `Sessions.MutualExclusion` | core/topology.go:197-233 | no error-free interleaving of the locked halves puts a connection in both indexes |
| `Sessions.StopClearsIff` | core/subscriber.go:69-79 | a received "stop" changes nothing, so the connection is in no channel exactly when it wanted none |
| `Sessions.StopLeavesGroup` | core/subscriber.go:69-79 | a concrete run in which a connection receives "stop" and is still in its group |
| `Sessions.DeliveredOnce` | core/subscriber.go:157-163 | a waiting connection gets one copy of what is published on its channels and nothing else |
| `Sessions.LocalDelivery` | core/subscriber.go:178-197 | a local subscriber gets a cell's publication exactly when the cell is in its group, and has one channel per distinct cell |
| `Sessions.ClosedIsQuiet` | core/topology.go:228-233 | once both halves of the closing unsubscribe have succeeded, the connection is delivered nothing, whatever failed before and whatever others do |
| `Cells.Cell.Append` | core/cell.go:57-59 | Go's append: in place while there is room, otherwise into a fresh array with the old one untouched |
| `Cells.Cell.UpdateBoundingCells` | core/cell.go:49-60 | the group becomes the covering, and the old array is overwritten by as much of it as fits |
| `Cells.Cell.Changed` | core/cell.go:36-44 | reports exactly a change of cell, recomputes only then, and keeps group and id in agreement |
| `Cells.MoveWhileShared` | core/cell.go:30-60 | after any series of `Update` and `Changed` calls the cache agrees with its id, and a shallow copy shows the shared view, its own group throughout exactly under the condition of `CopyIntactIff` |
| `Cells.CopyIntactIff` | core/entity.go:49-50 | a copy keeps its group through a series of moves exactly when every covering, up to the first that outgrows the array, agrees with it as far as both go |
| `Entities.Entity.Update` | core/entity.go:42-51 | the entity moves; its subscription is offered a copy, sharing the array of the cell, exactly when the cell changed |
| `Entities.CopyNotIsolated` | core/entity.go:42-51 | a concrete entity that moves twice: the copy its subscription got shows neither the old nor the new group, nor either's channels |
| `Simulators.MakePeers` | simulator/context.go:20-43 | one peer, without groups, per covering cell other than the occupied one |
| `Simulators.BroadcastPeers` | simulator/context.go:45-64 | every peer moves to the cell of its centre, notifies exactly if that is another cell, and publishes once on it |
| `Simulators.BroadcastRounds` | simulator/context.go:45-64 | over any number of rounds a peer notifies nobody exactly when its centre maps back, and then keeps its cell; if all do, each publishes once per round on its own cell and nothing else is published |
| `Simulators.SimulatorContext.SubscribeToCell` | simulator/context.go:122-129 | the entity's peers are replaced by newly made ones around the cell, the connection leaves its groups and visits the cell, and an error of the visit is returned |
| `Simulators.SimulatorContext.SubscribeToGroup` | simulator/context.go:134-137 | the connection leaves its cells and joins the group; the peers stay |
| `Simulators.SimulatorContext.Unsubscribe` | simulator/context.go:150-160 | the entity's peers go and the connection leaves both Subscribers |
| `Simulators.SimulatorContext.Broadcast` | simulator/context.go:178-191 | the own publications, then one round of the peers unless the first failed; who moved and who was notified |
| `Simulators.PeerStableIff` | simulator/context.go:45-51 | the number of a peer's notifications after any rounds is unchanged exactly when its centre maps back |
| `Simulators.AnnouncedAt` | simulator/context.go:45-64 | if all centres map back and all reports have a JSON form, publication i is on the cell of peer i, about its client, at the centre of the cell and the time of the round |
| `Simulators.SpeakersPublish` | simulator/context.go:45-64 | in general a cell is published on once for every peer that moves to it and whose report has a JSON form |
| `SimulatorDelivery.DueDelivered` | core/subscriber.go:157-163 | what is due to a local connection from a stretch of publications is delivered but for the refused ones |
| `SimulatorDelivery.BroadcastExactly` | simulator/context.go:178-191 | one `Broadcast` gives every local connection exactly one message per cell of the duplicate-free covering, each cell being published on once, exactly when no publication on these cells is refused; no peer moves or notifies |
| `SimulatorDelivery.BroadcastToGroups` | core/topology.go:238-253 | a member of a group gets one message for each time the entity is in that group and the publication is accepted |
| `SimulatorDelivery.WaitingIsMember` | core/subscriber.go:38-76 | in every good state a waiting connection that filters by a group is a member of it |
| `SimulatorDelivery.WaitingIsLocal` | core/subscriber.go:38-76 | in every good state a waiting connection that filters by its cell is local to it |
| `SimulatorDelivery.BroadcastOver` | simulator/context.go:178-191 | the same over any number of broadcasts; a neighbouring cell is published on once in each that got past the own report, the own cell once in every one |
| `SimulatorRuns.LocalVisited` | core/subscriber.go:38-76 | a connection that filters by its cell has last moved to the cell it knows, whatever came before |
| `SimulatorRuns.Run` | simulator/context.go:122-191 | events received by the loop, moves and broadcasts of its entity in any order: the peers lie around the cell of the latest move to a cell, or where the rounds since have taken them, and the connection is where its events want it |
| `SimulatorRuns.RunSurrounds` | simulator/context.go:122-129 | at any point of a run the peers of a local connection's entity are around its cell |
| `SimulatorRuns.Report` | simulator/context.go:178-191 | at any point of a run a broadcast of the entity in that cell gives its local connection exactly one message per cell, exactly when none is refused, and the run may go on |
| `SimulatorRuns.SubscribeThenBroadcast` | simulator/context.go:122-191 | a subscription without backend errors from any strong Subscribers, and then a broadcast: the same exact delivery |
| `WebSockets.NextConserves` | core/http.go:157-200 | every step of a writer or of the pump keeps conservation, order and the bounds |
| `WebSockets.RunConserves` | core/http.go:151-200 | in every interleaving, accepted messages are those sent, those held by the pump and those queued, in order; frames hold 1 to 101 messages |
| `WebSockets.AcceptsWithRoom` | core/http.go:194-200 | a Write enqueues while fewer than 100 are queued and drops otherwise; no other step accepts or drops |
| `WebSockets.RunAccepts` | core/http.go:194-200 | over any run the accepted messages are, in order, those written while there was room, the dropped ones the others |
| `WebSockets.FrameIsSnapshot` | core/http.go:171-184 | a frame sent holds the message taken first and exactly what was queued at the snapshot, in order, whatever is written meanwhile |
| `WebSockets.PumpGoesOn` | core/http.go:157-184 | in any run the pump is stuck only when it has exited or waits with an empty queue |
| `WebSockets.DropsWhenFull` | core/http.go:194-200 | a message is dropped exactly by a Write that finds 100 queued |
| `WebSockets.DrainNeverBlocks` | core/http.go:175-179 | while the drain has messages left to take, one is queued |
| `WebSockets.ClientSeesPrefix` | core/http.go:151-200 | what a client splits out of all frames is a prefix of the accepted JSON messages, in every state of every run |
| `WebSockets.WebSocketConnection.Write` | core/http.go:194-200 | with fewer than 100 queued the message is enqueued, otherwise dropped, and nothing else changes |
| `WebSockets.WebSocketConnection.DrainQueue` | core/http.go:174-179 | with other writers at work, the snapshot-size loop adds to the frame exactly the messages queued at its start, in order |
| `WebSockets.WebSocketConnection.PumpOnce` | core/http.go:159-184 | a round sends one frame beginning with everything queued at its start, in order, or ends the pump without sending |
| `Framing.UnframeIff` | core/http.go:171-180 | for messages of any bytes, a frame gives back its batch exactly when no message has a top level comma and all but the last close what they open |
| `Framing.FrameAt` | core/http.go:171-180 | the bytes of a frame: bracket, each message in its place after a comma, bracket |
| `Framing.SplitParts` | core/http.go:171-180 | whatever a text is split into is splittable, and joining gives the text back |
| `Framing.FrameInjective` | core/http.go:171-180 | splittable batches with the same frame are the same |
| `Json.ValueClosed` | core/http.go:171-180 | every JSON value of section 3 of RFC 8259 closes what it opens and has no comma at its own depth |
| `Json.JsonFrame` | core/http.go:171-180 | a frame of JSON messages is a JSON array (section 5 of RFC 8259) and gives back exactly its batch |
| `Json.SampleIsJson` | core/http.go:171-180 | a concrete text with a bracket and a comma inside is JSON |
| `Json.LeadingZeroNotJson` | core/http.go:171-180 | a concrete text that is not |
| `Json.AmbiguousFrame` | core/http.go:171-180 | two concrete batches, one not JSON, with the same frame |
| `Bytes.PutGet` | core/message.go:39-46 | a number that fits is read back from its big-endian bytes |
| `Bytes.GetPut` | core/message.go:245 | any bytes are the big-endian form of the number read from them |
| `Bytes.PutWords` | core/message.go:39-46 | the 4 and 8 bytes of a number one by one, most significant first |
| `Locations.ParseSerialize` | core/location.go:30-41 | a location, bit patterns and signed timestamp included, is read back from its 32 bytes |
| `Locations.SerializeParse` | core/location.go:30-41 | every 32 bytes are the form of exactly one location |
| `MessageLayout.LocationLayout` | core/location.go:30-36 | where each field of a location lies, the timestamp in two's complement |
| `Buffers.Deserialize` | core/location.go:39-41 | a whole location is read, or a short buffer is used up and the location left as it was |
| `Messages.ReadHeader` | core/message.go:235-250 | with 8 bytes or more it fails exactly when the first two are not 101 and 1; with fewer it keeps the header without an error, and on an empty stream fails |
| `Messages.SyncRequestMsg.Write` | core/message.go:69-76 | Length is set to the payload size and exactly header and payload are sent |
| `Messages.SyncRequestMsg.Read` | core/message.go:79-95 | fields, rest of the stream and error for every input and every short read |
| `Messages.SyncResponseMsg.Write` | core/message.go:113-120 | Length is set to the payload size and exactly header and payload are sent |
| `Messages.SyncResponseMsg.Read` | core/message.go:123-140 | fields, rest of the stream and error for every input and every short read |
| `Messages.DataRequestMsg.Write` | core/message.go:157-163 | Length is set to the payload size and exactly header and payload are sent |
| `Messages.DataRequestMsg.Read` | core/message.go:166-181 | fields, rest of the stream and error for every input and every short read |
| `Messages.DataResponseMsg.Write` | core/message.go:198-204 | Length is the payload size cut to 32 bits, then header and payload are sent |
| `Messages.DataResponseMsg.Read` | core/message.go:207-223 | fields, rest of the stream and error for every input and every short read |
| `Messages.HeaderRoundTrip` | core/message.go:39-46 | a header written field by field is read back whole |
| `Messages.HeaderUnique` | core/message.go:235-250 | every 24 bytes are the form of exactly one header |
| `Messages.RejectedRead` | core/message.go:79-83 | a rejected header makes Read fail before the payload, with only the header field changed |
| `MessageLayout.HeaderLayout` | core/message.go:39-46 | where each field of a header lies |
| `MessageLayout.WireHeader` | core/message.go:69-76 | the header on the wire, with lengths 48, 32, 32 or that of the data |
| `MessageLayout.WirePayload` | core/message.go:69-204 | the payload of each type of message, field by field |
| `MessageLayout.HeaderFields` | core/message.go:244-245 | a header that got at least 8 bytes, taken apart, missing bytes being zero |
| `MessageLayout.OtherTypeRead` | core/message.go:81-83 | a good header of another type ends the Read without an error before the payload |
| `MessageLayout.PayloadRead` | core/message.go:85-95 | a good header of the right type: the payload read, the rest of the stream, and the error at its end |
| `MessageLayout.FieldsTaken` | core/message.go:92-94 | each field is taken from its place in the payload if that is long enough, and is left as it was otherwise |
| `Messages.MessageRoundTrip` | core/message.go:69-95 | under full reads every message comes back with all fields, using up exactly 24 + Length bytes of the stream |
| `Messages.DataResponseIff` | core/message.go:198-223 | a data response is read back exactly when its payload is shorter than 2^32 bytes |
| `Messages.StreamRoundTrip` | core/message.go:69-223 | any mix of messages written back to back is read back in order and the stream is left empty |
| `Messages.InStepIffFullReads` | core/message.go:87-88 | reading into a fresh struct ends at the next message exactly when both reads were full |
| `Sinks.MarshalData` | sink/sink.go:16-33 | for any buffer, one line per decoded location |
| `Sinks.LinesInOrder` | sink/sink.go:22-30 | the text has one line per location, in order, each ended by a newline |
| `Sinks.CountAt` | sink/sink.go:18-21 | the count is read from the first four bytes, and is 0 when there are fewer |
| `Sinks.DecodeTruncated` | sink/sink.go:18-30 | of the counted locations exactly the whole records are decoded and the rest are zero |
| `Sinks.DecodeEncodeIff` | sink/sink.go:18-30 | decoding inverts count-prefixed encoding exactly when the count fits in 32 bits |
| `Endpoints.TokenTextInjective` | core/http.go:281 | different tokens have different texts |
| `Endpoints.TokenTextAt` | core/http.go:281 | a token's text has 36 characters: two hexadecimal digits per byte, and dashes after bytes 4, 6, 8 and 10 |
| `Endpoints.NextGood` | core/http.go:264-283 | every step of a creation, and token expiry, keeps sessions under their own token with the client it was issued to |
| `Endpoints.RunGood` | core/http.go:264-283 | so in every state of every run of concurrent creations with fresh tokens |
| `Endpoints.LookupAgrees` | core/http.go:289-300 | a lookup that succeeds gives the session of that token and its client, and no step replaces or removes it |
| `Endpoints.AddedIsFound` | core/http.go:281-300 | a session that is added is found under its token's text in every later state |
| `Endpoints.FoundIffAdded` | core/http.go:289-300 | a lookup by any text succeeds exactly when some step so far added a session whose token has it |
| `Endpoints.CreationIsFound` | core/http.go:264-283 | when the three steps of a request succeed, whatever others do in between, its token finds a session with that token and client |
| `Endpoints.CreationIsPossible` | core/http.go:264-283 | a concrete such run for every client and token |

## Left out

- Redis, PostgreSQL, TCP and websocket mechanics: the backend is a log of calls that may fail, the publisher a log of publications, the token store a map, connections byte streams. Messages in flight between publication and dispatch are not modelled: deliveries are counted for one state.
- S2 geometry and floating-point arithmetic: cell lookup, covering and centre are arbitrary functions (`Geometry`); results that need the own cell in its covering, no duplicates, or centres that map back say so.
- HTTP routing, headers, JSON marshalling of structs, deadlines and ping timing. JSON rendering of locations is a parameter.
- Random tokens and client ids are parameters or arbitrary; `Endpoints` requires new tokens to be fresh.
- `Endpoints` is modelled on values, not as a class, since its point is the interleaving of three separately atomic steps of many requests.
- `Sessions` and `WebSockets.Next` are transition systems on values for the same reason. `Topology` and `Subscription` are proved against the relations that `Sessions` interleaves; `WebSocketConnection` keeps the invariant of the queue, and its `Write` is the same function.
- Unsynchronised data races on entity, cell and simulator fields, and several loops on one subscription: calls on one entity are taken as serialised and each connection has one loop.
- Sessions.ClosedIsQuiet: the closing unsubscribe is reached only through the intended loop exit, which the code does not take.
- SimulatorDelivery.BroadcastExactly: takes the peers' centres to map back and their reports to have a JSON form, as the exact count does not hold otherwise.
- SimulatorRuns.Run: one connection and its entity; `Sessions` interleaves many connections, without peers. The events it receives are any, so offers that were dropped and filters set by hand are covered.
- Buffers.NetConn.Read: a connection that fails with bytes left to deliver is not modelled; the only error is reading at the end of the stream.
- Json.JsonFrame: the grammar of RFC 8259 over bytes, without its requirement of valid UTF-8 (section 8.1), so the messages admitted are more than JSON texts.
- Messages.StreamRoundTrip: assumes full reads, since the code takes a short read for a full one; Messages.InStepIffFullReads says what happens otherwise.
- The growth factor of append is fixed to a little over two; the results use only that a full array is replaced by a fresh one.
- Errors of `w.Write` inside a frame are ignored by the code and by the model; a frame whose closing fails counts as not sent.
- Delegation and getters (core/context.go), `SimulatorContext.Standby`, `Display`, `inSync`, `Cleanup`, `Cleaner`, expiry of entities, the message constructors and the main programs are not modelled.
- core/core_test.go exercises an interface that the current code does not have, so nothing is taken from it.
