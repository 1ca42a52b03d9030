# Model of the minnatropolis relay server

minnatropolis relays game state between the players of a game that speaks the YNO wire
protocol, and carries chat beside it. This project models the parts of it that keep
several copies of one thing and must keep them equal, and proves that they do:

- **Codec** (`Delimiters`, `Leaves`, `Schema`, `RoundTrip`, `Acceptance`, `Codec`, `Messages`,
  `Wire`, `Layout`): a printer and a parser directed by type descriptions, under two delimiters of
  three bytes. Types and values are datatypes, the printer and parser are functions, and the
  loops are methods that return what the functions say. `Layout` has the text of each message.
- **Room engine** (`Packets`, `Validate`, `Views`, `World`, `Agreement`, `RoomChange`,
  `Engine`, `Relays`, `Lifecycle`, `BlockLists`, `Runs`, `Failures`): a state machine over values. A
  `World` holds the rooms, the registry, one `Player` per connection and one `View` per
  client. A view is the fold of all packets handed to that client, so it is what the client
  shows. `Relays` says what each message does by its own fields, and `Failures` holds the
  runs in which a screen goes wrong.
- **Room server** (`Sending`, `RoomServer`, `Gateway`, `Client`): the same as classes that
  are updated in place. A `Handler` keeps a ghost history of its steps; `Valid()` says that
  the history is a run of the state machine and that the heap is what the run led to.
  `Client` uses it as a caller would.
- **Pictures** (`LatePictures`): queued packets point to pictures that later moves overwrite.
- **Batcher** (`Batcher`, `Outbound`) and **rate limiter** (`RateLimit`, `Allowance`): timed
  state machines. `Outbound` says which flushed batches read back. The limiter's buckets and
  table are classes; `Allowance` gives its answers by the times of the requests alone.
- **Tables and chat** (`DataStore`, `Copies`, `Chat`, `Api`, `MapChat`, `RoomLists`,
  `JointRuns`, `StaleRuns`): party and block tables under serial transactions, the copies of
  them that the two servers keep, the HTTP handlers that change both, runs of all three parts
  together, and map chat against what players see. `StaleRuns` holds the joint runs in which
  a copy goes stale.

Go strings are byte strings, so texts are `Bytes`; party names are counted in characters
and are `string`. Every handler call is one atomic step, and packets are folded in the order
in which the calls hand them over.

Where the code does less than one might expect, the exact condition is stated:

- A list of messages reads back exactly if no string holds a delimiter and no slice is empty
  (`Codec.ByteRoundTrip`); an empty list and a message without fields never read back as
  printed (`Codec.NoMessagesDoNotRoundTrip`, `Codec.EmptyStructDoesNotRoundTrip`).
- A flushed batch reads back exactly if something was queued for it and all of it is clean;
  a newcomer who meets nobody queues an empty list, which can be flushed alone
  (`Outbound.FlushReadsBack`, `Outbound.EmptyFlush`).
- In a game with maps, introductions carry the whole appearance in every reachable state
  exactly if the empty string is not a known sprite (`Failures.AssetsNeeded`), and screens
  are right after every guarded run exactly if it is not, or no map shows players at all
  (`Failures.ScreensNeedAssets`).
- A block-list change leaves all screens right exactly if every newly unblocked roommate may
  be shown: it does not block the user itself, is another player, and the room is not
  singleplayer (`BlockLists.UpdateIsExact`). `UpdateBlockList` looks at none of these, so
  there are runs after which screens are wrong (`Failures.UnblockedTooEarly`,
  `Failures.UnblockedAlone`).
- Opening a connection keeps the copies equal to the tables exactly if the account is refused
  or what `Authorize` looked up is still what the tables say (`RoomLists.OpenCopies` for the
  room server's block lists, `Chat.Handler.OnOpen` for chat's lists and parties); a change in
  between goes unnoticed, and so does a lookup that failed in the room server
  (`StaleRuns.StaleListShows`, `StaleRuns.StalePartyShows`).
- A party is created or joined although the answer is an error exactly if the lookup of its
  members fails after the commit (`Api.PartiesHandlers.HandleCreate`, `HandleJoin`).
- Eviction is unobservable exactly if a bucket refills within the eviction time
  (`RateLimit.EvictionIsUnobservable`).

The comment in `api/room/handler.go:242-244` says that a packet is
applied entirely or not at all; the guard counter is set before parsing and stays set when
the packet is refused, and the model follows the code (`Gateway.OnMessage`).

## Model

| member | source | states |
|---|---|---|
| `Delimiters.DelimitersAreSeparable` | api/room/protocol/protocol.go:8-11 | neither delimiter has a border and no occurrence of one can share bytes with an occurrence of the other |
| `Delimiters.SplitOfJoin` | api/room/protocol/deserialize.go:146-147 | joining parts that do not contain an unbordered delimiter and splitting again gives the same parts |
| `Delimiters.JoinOfSplit` | api/room/protocol/deserialize.go:184 | splitting loses nothing, and no part contains the delimiter |
| `Delimiters.JoinKeepsAbsence` | api/room/protocol/serialize.go:110-123 | parameters joined by one delimiter hold no occurrence of the other if no part does |
| `Leaves.UintText` | api/room/protocol/serialize.go:65-66 | an unsigned integer prints to its decimal text without leading zeros, whose digits by place make the number, and to no other |
| `Leaves.IntText` | api/room/protocol/serialize.go:63-64 | an integer prints to the decimal text of its size, after a minus if it is negative, and to no other |
| `Leaves.UintAccepted` | api/room/protocol/deserialize.go:97-102 | which texts are read as unsigned integers, for 32 and 64 bits, and as which: digits only, whose value by place fits |
| `Leaves.IntAccepted` | api/room/protocol/deserialize.go:90-95 | the same for integers: a plus, a minus or no sign, then digits, whose value fits |
| `Leaves.UuidText` | api/room/protocol/serialize.go:68-70 | a UUID prints to lower-case digits, two for each byte in order, with dashes at the four places of section 4 of RFC 9562, and to no other text |
| `Leaves.UuidAccepted` | api/room/protocol/deserialize.go:120-125 | which texts are read as a UUID: the same layout with digits of either case |
| `Leaves.BoolText` | api/room/protocol/deserialize.go:105-117 | the text of false is 0 and of true 1, and nothing else is read as either |
| `Leaves.ParseFormatInt` | api/room/protocol/deserialize.go:90-95 | a decimal integer reads back as itself within its width, for 32 and 64 bits |
| `Leaves.ParseFormatUint` | api/room/protocol/deserialize.go:97-102 | the same for unsigned integers |
| `Leaves.ParseFormatUuid` | api/room/protocol/deserialize.go:120-125 | the hex-and-dash text of section 4 of RFC 9562 reads back as the UUID |
| `Schema.ParsedIsTyped` | api/room/protocol/deserialize.go:58-140 | a parsed value inhabits its type, and every string in it is one of the parts |
| `Schema.FromCleanParts` | api/room/protocol/deserialize.go:91-93 | parts without delimiters give a value without delimiters |
| `RoundTrip.FixedRoundTrip` | api/room/protocol/deserialize.go:43-56 | a value of a slice-free type reads back from its own parts whatever follows them |
| `RoundTrip.TailRoundTrip` | api/room/protocol/deserialize.go:13-41 | with slices only in tail position a value reads back exactly if it holds no empty slice |
| `RoundTrip.CleanPrint` | api/room/protocol/serialize.go:42-92 | printing a clean value puts no delimiter into its parts |
| `Acceptance.ParseIsFlatRead` | api/room/protocol/deserialize.go:43-140 | for slice-free types the recursive parser is a walk over the flattened list of leaves |
| `Acceptance.FlatReadCases` | api/room/protocol/deserialize.go:58-140 | the walk succeeds exactly if there are enough parts and each parses; it runs out of bounds exactly if a well-parsed prefix ends too early |
| `Acceptance.NeverHangs` | api/room/protocol/deserialize.go:18-38 | parsing ends if every slice element consumes at least one part |
| `Acceptance.EmptyElementHangs` | api/room/protocol/deserialize.go:18-38 | the loop over a slice of empty structs makes no progress |
| `Codec.SerializeSlice` | api/room/protocol/serialize.go:10-25 | the loop builds the printed elements joined by the parameter delimiter |
| `Codec.SerializeStruct` | api/room/protocol/serialize.go:26-41 | the same for the fields of a struct |
| `Codec.SerializeAny` | api/room/protocol/serialize.go:42-92 | the dispatch on the kind of value builds the value's parts, joined; for a string, an integer, a boolean and a UUID, what the text is |
| `Codec.SerializeOne` | api/room/protocol/serialize.go:95-107 | name, delimiter and value of a registered message |
| `Codec.Serialize` | api/room/protocol/serialize.go:110-125 | the loop builds the messages joined by the message delimiter |
| `Codec.DeserializeSlice` | api/room/protocol/deserialize.go:13-41 | the loop with its running count returns what the recursive reading returns, including its errors and the endless loop |
| `Codec.DeserializeStruct` | api/room/protocol/deserialize.go:43-56 | the same for the fields of a struct |
| `Codec.DeserializeAny` | api/room/protocol/deserialize.go:58-140 | the dispatch on types returns the reading of the type, its error, or the out-of-bounds read |
| `Codec.DeserializeOne` | api/room/protocol/deserialize.go:144-178 | unknown names, bad fields and surplus parts are errors; otherwise name and value |
| `Codec.Deserialize` | api/room/protocol/deserialize.go:181-197 | all messages in order, or the first error |
| `Codec.MessageRoundTrip` | api/room/protocol/deserialize.go:144-178 | a well-formed clean message reads back exactly if it holds no empty slice |
| `Codec.ByteRoundTrip` | api/room/protocol/serialize.go:10-125 | any non-empty list of well-formed messages reads back through both delimiter layers exactly if no string holds a delimiter and no slice is empty |
| `Codec.NoMessagesDoNotRoundTrip` | api/room/protocol/serialize.go:110-125 | an empty list prints to no bytes, which do not read as an empty list |
| `Codec.EmptyStructDoesNotRoundTrip` | api/room/protocol/serialize.go:104-106 | the delimiter after the name of a message without fields reads as a surplus field; the name alone is accepted |
| `Codec.RelayClosure` | api/room/protocol/deserialize.go:144-196 | for any bytes and registry, whatever is deserialised is of its registered type and free of both delimiters |
| `Codec.ExactAcceptance` | api/room/protocol/deserialize.go:144-178 | a slice-free message is accepted exactly if the part count is the leaf count and every leaf parses; the out-of-bounds read happens exactly on too few parts after a well-parsed prefix |
| `Wire.BatchRoundTrip` | api/room/protocol/messages.go:299-324 | any non-empty batch of outgoing messages reads back under the server's own registry exactly if each is clean |
| `Wire.ReadsBack` | api/room/protocol/messages.go:206-280 | laying a client message out as fields and reading it as a typed message gives it back |
| `Wire.ReadingIsWhole` | api/room/protocol/messages.go:206-280 | every message of its registered type is laid out again as it was: its typed reading loses nothing |
| `Wire.AcceptedIsClean` | api/room/protocol/deserialize.go:144-196 | every message accepted from any bytes can be relayed: its strings hold no delimiter |
| `Wire.ClientIsUnderstood` | api/room/protocol/deserialize.go:144-178 | every clean client message is accepted from its text and read as itself, also the one without fields |
| `Wire.AcceptedExactly` | api/room/protocol/messages.go:326-343 | exact acceptance for the registry of client messages and any bytes |
| `Layout.SentText` | api/room/protocol/messages.go:10-184 | the text of each message that the server sends: its registered name and its fields in declared order, those of an embedded picture included, between parameter delimiters |
| `Layout.BatchText` | api/room/protocol/serialize.go:110-125 | the text of a batch: those texts between message delimiters |
| `Layout.ClientTextIs` | api/room/protocol/messages.go:186-280 | the text of each message that a client sends, in the same way |
| `Layout.ReceivedAs` | api/room/protocol/messages.go:326-343 | a text with these parts is accepted and read as the message with these fields, for all clean messages |
| `Gateway.CounterBytes` | api/room/handler.go:228 | the counter is the number whose bytes these are, most significant first |
| `Gateway.MeaningIsClean` | api/room/handler.go:236-240 | whatever bytes a body holds, the messages handed to the room engine are clean |
| `Gateway.MeaningIsWhole` | api/room/handler.go:236-240 | the typed messages of any body, laid out again, are exactly what the deserialiser returned |
| `Gateway.ParseBody` | api/room/handler.go:236-240 | the typed messages of the body, or nothing if it is refused |
| `Gateway.OnMessage` | api/room/handler.go:203-257 | every frame leaves the server valid, and is one step of the run if it has guard data; one that does not count changes nothing; one that counts moves the counter, and then, if it is a list of messages that a legitimate client can send, all of them are processed, and otherwise nothing else changes, for any bytes |
| `Gateway.BodyIsUnderstood` | api/room/protocol/deserialize.go:181-197 | any non-empty list of clean messages in one frame is understood as that list |
| `Validate.AcceptableIsLegitimate` | api/room/validate.go:9-261 | each message is accepted exactly if its fields are in the ranges of the source, its room exists and its assets are known |
| `Views.IntroFold` | api/room/user/user.go:140-179 | folding an introduction, in any order of the picture map, adds exactly the player's introduced look |
| `Views.IntroIsFaithful` | api/room/user/user.go:157-159 | the introduced look is the whole look exactly if sprite name and index are both default or both not |
| `Views.IntroIsSendable` | api/room/user/user.go:140-179 | a player whose strings are clean has an introduction that the wire can carry |
| `Failures.AssetsNeeded` | api/room/user/user.go:157-159 | for a game with maps: in every run everybody connected is introduced as it is, exactly if the empty string is not a known sprite |
| `Agreement.RelayConveys` | api/room/process.go:36-85 | each relayed message keeps the player in range, and its packet turns the old look into the new one |
| `Agreement.ShowConveys` | api/room/process.go:87-97 | the same for showing a picture, one-shot or not |
| `Agreement.MoveConveys` | api/room/process.go:98-110 | the same for moving a stored picture |
| `Agreement.EraseConveys` | api/room/process.go:13-16 | the same for removing a picture |
| `Agreement.ReachableIntro` | api/room/user/user.go:140-179 | in a reachable state the introduction conveys the look of the player |
| `Agreement.PictureCount` | api/room/process.go:18-24 | at most one stored picture per valid ID |
| `Agreement.AudienceSees` | api/room/rooms.go:97-115 | packets about a player go exactly to those in the same multiplayer room with no block either way |
| `Agreement.PublishedKeeps` | api/room/process.go:36-85 | a change that was told to exactly those who see the player keeps all screens right |
| `RoomChange.EnterRelocates` | api/room/rooms.go:37-67 | moving takes the player out of the one list it was in and puts it once into the new one; nobody else moves |
| `RoomChange.MeetResult` | api/room/rooms.go:147-160 | the newcomer's screen then holds exactly the members that are not skipped, as introduced |
| `RoomChange.ChangeRoomIs` | api/room/rooms.go:123-163 | what a room change does to every screen: the player leaves the old room's, joins those in the new one that can see it, and shows that room |
| `RoomChange.ChangeRoomKeeps` | api/room/rooms.go:123-163 | a room change keeps the partition, and all screens right if they were |
| `Engine.ProcessKeeps` | api/room/process.go:26-123 | every acceptable message keeps the server in order, and all screens right if they were |
| `Engine.PacketKeeps` | api/room/handler.go:203-257 | so does every packet |
| `Relays.ProcessRelays` | api/room/process.go:36-118 | any message but a room switch: which fields of the player become which fields of the message, and no other; what that does to its look and pictures on the screens of exactly those who see it; what is played or drawn once there; nobody else's screen changes |
| `Relays.SwitchMoves` | api/room/process.go:31-34 | a room switch moves the player to the room that the message names, and nowhere else |
| `Engine.AcceptedStaysAcceptable` | api/room/handler.go:242-256 | acceptability does not change while a packet is processed: each message's room still exists when its turn comes |
| `Lifecycle.NewIsAsNew` | api/room/user/user.go:94-136 | a new player has what was looked up for it, block list included, and otherwise the defaults of the source |
| `Lifecycle.AuthorizeKeeps` | api/room/handler.go:66-123 | letting a connection in, or not, keeps the server in order, and all screens right if they were |
| `Lifecycle.OpenIs` | api/room/handler.go:125-201 | opening the first connection of an account registers it and changes nobody's data but its phase |
| `Lifecycle.OpensAs` | api/room/handler.go:125-201 | a second connection of an account is refused and changes nothing else; the first is registered, and its client is sent its own data and key and, each once, the picture names as kind 0, the prefixes as kind 1 and the animations, if there are any |
| `Lifecycle.OpenKeeps` | api/room/handler.go:125-201 | opening keeps the server in order, and all screens right if they were, also when the account is already connected |
| `Lifecycle.FarewellReaches` | api/room/handler.go:263-281 | everybody who could see a closing player is sent the disconnect packet |
| `Lifecycle.CloseIs` | api/room/handler.go:259-279 | a closed connection is in no room, registered only if another one of its account is, and cannot be sent to |
| `Lifecycle.CloseKeeps` | api/room/handler.go:259-282 | closing keeps the server in order, and all screens right if they were, also for a connection refused as a duplicate |
| `BlockLists.UpdateReblocks` | api/room/interop.go:48-86 | on every pair of screens: who disappears, who appears and who stays as it was |
| `BlockLists.UpdateServes` | api/room/interop.go:48-86 | a block-list change keeps rooms, registry and player state in order whatever the lists say |
| `BlockLists.UpdateIsExact` | api/room/interop.go:15-86 | a block-list change keeps all screens right exactly if every newly unblocked roommate may be shown |
| `BlockLists.UpdateHides` | api/room/interop.go:73-76 | newly blocked roommates are gone from both screens whatever else holds; screens of other pairs are untouched |
| `Failures.UnblockedTooEarly` | api/room/interop.go:78-80 | a run: two players in a map block each other, guarded so far, then one of them unblocks, and a screen is wrong |
| `Failures.UnblockedAlone` | api/room/interop.go:78-80 | a run: in a singleplayer map one player blocks another, then unblocks it, and a screen is wrong |
| `Runs.ReplicaAgreement` | api/room/rooms.go:97-163 | after any run with guarded block-list changes every client in the game shows exactly the players visible to it, each as the server has it |
| `Failures.ScreensNeedAssets` | api/room/rooms.go:147-162 | all screens are right after every guarded run exactly if the empty string is not a known sprite or every map is singleplayer |
| `Runs.RunServer` | api/room/handler.go:125-282 | every run, guarded or not, keeps rooms, registry and player state in order |
| `Runs.RoomPartition` | api/room/rooms.go:37-67 | in every run a connection is in a member list exactly if it is in the game and in that room, once, registered under its own account with an open outbox |
| `Runs.RoomSizes` | api/room/handler.go:27-41 | in every run the room sizes sum to the registry size |
| `Runs.BoundedState` | api/room/validate.go:10-49 | in every run each player's state is in the ranges of the source and holds at most 1001 pictures, all persistent, known, in range and under their own ID |
| `Runs.TraceIsRun` | api/room/handler.go:125-282 | a recorded sequence of worlds is a run of the steps |
| `RoomServer.ClientData.constructor` | api/room/user/user.go:94-136 | field by field, what was looked up for the connection and the defaults of the source |
| `RoomServer.ClientData.GetIntroMessages` | api/room/user/user.go:140-179 | returns one of the introductions of the player's state, for some order of the picture map |
| `RoomServer.ClientData.GetPicturePackets` | api/room/user/user.go:174-176 | one packet for each active picture, each once |
| `RoomServer.ClientData.Accept` | api/room/process.go:36-85 | which fields become which fields of the message and that no other changes, and the packet about it |
| `RoomServer.ClientData.UpdatePicture` | api/room/process.go:18-24 | stores a picture unless it is one-shot |
| `RoomServer.User.Send` | api/room/user/user.go:255-257 | needs an open outbox; the client's view becomes the fold over the packets |
| `RoomServer.Handler.constructor` | api/room/handler.go:43-64 | an empty room per map, nobody connected, and an empty history |
| `RoomServer.Handler.Deliver` | api/room/rooms.go:105-114 | the loop hands the packets to exactly the members that are not skipped, each once |
| `RoomServer.Handler.ShareToRoom` | api/room/rooms.go:97-116 | exactly the audience of the player is handed the packets |
| `RoomServer.Handler.UnsetRoom` | api/room/rooms.go:37-47 | the list of the room that the data names loses the connection ID; nothing else changes |
| `RoomServer.Handler.SetRoom` | api/room/rooms.go:55-67 | the player leaves its list, is appended to the new one, and its data names it |
| `RoomServer.Handler.Introductions` | api/room/rooms.go:148-158 | the packets gathered over a member list show exactly the members not skipped |
| `RoomServer.Handler.ChangeRoom` | api/room/rooms.go:123-163 | the heap after a room change is the model's room change of the heap before |
| `RoomServer.Handler.RemovePicture` | api/room/process.go:13-16 | deletes the picture and tells the audience |
| `RoomServer.Handler.ShowPicture` | api/room/process.go:87-97 | removes a picture with that ID first, then stores and shows the new one |
| `RoomServer.Handler.MovePicture` | api/room/process.go:98-110 | overwrites the base of a stored picture and tells the audience; ignores one that is not stored |
| `RoomServer.Handler.ErasePicture` | api/room/process.go:112-118 | removes a stored picture, ignores any other |
| `RoomServer.Handler.ProcessMessage` | api/room/process.go:26-123 | the heap after a message is the model's processing of it: a room switch moves the player to the room that the message names; any other message of a player in a room is stored by its fields and brought to exactly those who see the player, as in `Relays.ProcessRelays` |
| `RoomServer.Handler.ValidateAll` | api/room/handler.go:245-250 | true exactly if every message is one that a legitimate client can send, by its fields |
| `RoomServer.Handler.ApplyPacket` | api/room/handler.go:242-256 | the whole list is processed if all messages are acceptable, and otherwise nothing changes |
| `RoomServer.Handler.HandlePacket` | api/room/handler.go:216-256 | hash, counter, parsing and validation in the code's order, with the whole resulting world |
| `RoomServer.Handler.Authorize` | api/room/handler.go:66-123 | refused exactly if the room is unknown or the account connected, and then nothing changes; otherwise a new connection that has, field by field, what was looked up and the defaults, which can be opened, recorded as the authorising step |
| `RoomServer.Handler.OnOpen` | api/room/handler.go:125-201 | is the opening step of the run, and keeps a guarded history guarded |
| `RoomServer.Handler.OnPacket` | api/room/handler.go:216-257 | is the receiving step of the run, and keeps a guarded history guarded |
| `RoomServer.Handler.OnClose` | api/room/handler.go:259-282 | is the closing step of the run; the outbox is closed, after leaving room and registry |
| `RoomServer.Handler.SendToListDifferences` | api/room/interop.go:15-44 | the loop over the map exchanges packets with exactly the online roommates in the first list and not in the second, in both directions |
| `RoomServer.Handler.UpdateBlockList` | api/room/interop.go:48-86 | is the blocking step of the run |
| `RoomServer.Handler.GetRoommates` | api/room/interop.go:90-115 | the accounts of the room, the account alone in a singleplayer map, nothing if it is not in the game |
| `RoomServer.Handler.Served` | api/room/handler.go:125-282 | a valid handler has what every run keeps |
| `RoomServer.Handler.ScreensAgree` | api/room/rooms.go:97-163 | on the objects: a player's screen shows another exactly if visible, and then with each field of its look as its data has it, if the history was guarded |
| `Client.Meet` | api/room/rooms.go:147-162 | two accounts enter a multiplayer map of a new server, neither on the list that was looked up for the other: the second shows the first as it is |
| `Client.KeepApart` | api/room/rooms.go:74-95 | two accounts enter the same map of a new server, and one is on the list that was looked up for the other: neither shows the other |
| `Sending.ReadyForNext` | api/room/handler.go:252-256 | each message of an accepted packet meets the needs of processing when its turn comes |
| `Sending.TellOneMore` | api/room/rooms.go:105-114 | one more member of the list is told or skipped, and nobody is told twice |
| `LatePictures.OverwriteIsLocal` | api/room/process.go:106 | overwriting a queued picture's base changes nothing on the final screen but that picture's base |
| `LatePictures.MoveSettles` | api/room/process.go:108-109 | the move packet that follows removes the difference |
| `LatePictures.Sharing.ShowPicture` | api/room/process.go:87-97 | the picture is stored as sent, unless it is one-shot, in place of the one with its ID; screens made by late and by immediate serialisation end equal, and hold all active pictures as they are |
| `LatePictures.Sharing.MovePicture` | api/room/process.go:98-110 | also when a move overwrites a picture that is still queued: only its base changes |
| `LatePictures.Sharing.ErasePicture` | api/room/process.go:112-118 | also when it is erased |
| `LatePictures.Sharing.Introduce` | api/room/user/user.go:174-176 | also for a viewer who is introduced: it ends with all active pictures |
| `LatePictures.Sharing.Flush` | api/room/user/user.go:234-242 | flushing serialises the pictures as they are then; the screen is the one of serialising when sent, and holds all active pictures as they are |
| `Batcher.SendLoop` | api/room/user/user.go:203-246 | the loop flushes the batches and holds the buffer that the model says, for any events |
| `Batcher.Conservation` | api/room/user/user.go:206-245 | flushed batches and pending buffer are the received messages in order; close discards exactly the pending suffix |
| `Batcher.DeadlineWindow` | api/room/user/user.go:18-36 | the deadline of a batch lies 50 to 100 ms after its first item, however many arrive |
| `Batcher.DeadlineIsLastExtension` | api/room/user/user.go:224-229 | the deadline is 50 ms after the last item that came early enough to extend it |
| `Batcher.FlushLatency` | api/room/user/user.go:234-242 | with prompt timers every item is flushed within 100 ms of the first of its batch |
| `Batcher.Spacing` | api/room/user/user.go:203-246 | flushes are at least 50 ms apart, also when timers are late |
| `Batcher.RateBound` | api/room/user/user.go:18-36 | at most W/50+1 flushes in any window of W ms |
| `Outbound.FlushReadsBack` | api/room/user/user.go:234-242 | what a timer flushes reads back exactly if some list queued since the last flush is not empty and every message in them is clean |
| `Outbound.EmptyFlush` | api/room/user/user.go:234-250 | an empty list alone in its batch is flushed on time as a frame without bytes, which does not read back |
| `RateLimit.SameAnswers` | api/web/ratelimit.go:45-73 | with a refill within the eviction time, any requests and sweeps get the answers of a limiter that never forgets |
| `RateLimit.ForgettingShows` | api/web/ratelimit.go:62-73 | with a slower refill there are requests and a sweep that get different answers |
| `RateLimit.EvictionIsUnobservable` | api/web/ratelimit.go:45-99 | no operations tell the two limiters apart exactly if a bucket refills within the eviction time |
| `RateLimit.ConfiguredLimitersForgetSafely` | api/api.go:17-26 | the four configured limiters forget safely |
| `Allowance.AnsweredByRequests` | api/web/ratelimit.go:45-99 | for any addresses, requests and sweeps: a request is allowed exactly if, from each earlier request of its address on, the allowed ones and itself are no more than a full bucket and what flowed in since; a refused one costs nothing |
| `Allowance.ConfiguredAnswers` | api/api.go:17-26 | that for the four limiters, with their bursts and seconds |
| `RateLimit.TokenBucket.Allow` | api/web/ratelimit.go:86-99 | the bucket after a request and the answer: an allowed one costs one token, a refused one leaves the bucket as it was |
| `RateLimit.Limiter.GetOrCreate` | api/web/ratelimit.go:45-60 | the table after an address was seen: a known one keeps its bucket, a new one gets a full one, and the time is noted; no two addresses share a bucket |
| `RateLimit.Limiter.Sweep` | api/web/ratelimit.go:62-73 | the loop deletes exactly the entries not seen for more than an hour |
| `RateLimit.Limiter.Check` | api/web/ratelimit.go:86-99 | answer and table of one request; a refused one leaves the bucket of its address as it was |
| `DataStore.PartyListsItsMembers` | sql/query.sql:55-66 | a party lists exactly the users whose party it is |
| `DataStore.CreateMeans` | datastore/datastore.go:243-277 | creating works exactly with a name of 1 to 32 characters, an unused ID and a known user without a party; the party is new, has the user as its only member, and nobody else moved |
| `DataStore.JoinMeans` | datastore/datastore.go:280-311 | joining works exactly for a known user without a party and a known party, and appends the user to its members and to no other's |
| `DataStore.LeaveMeans` | datastore/datastore.go:314-337 | leaving works exactly for a user with a party; it moves nobody else, leaves the others in their order, and deletes the party exactly with its last member |
| `DataStore.BlockMeans` | datastore/datastore.go:148-181 | works exactly for two known users without the relation; only this pair's relation is added |
| `DataStore.UnblockMeans` | datastore/datastore.go:183-213 | works exactly for a relation that is there; only this pair's relation is removed |
| `DataStore.RunKeeps` | sql/migrations/00002_parties.sql:6-23 | every run of transactions, committed or not, keeps the tables in order |
| `DataStore.PartyTables` | datastore/datastore.go:243-337 | in every run each user is in at most one party, which exists and lists them, and exactly the existing parties have members |
| `DataStore.Store.CreateUser` | datastore/datastore.go:53-68 | one more account, or none if its ID is taken or the call fails |
| `DataStore.Store.GetUserParty` | datastore/datastore.go:215-227 | the party of the user's row with its name, if there is one |
| `DataStore.Store.GetPartyMembers` | sql/query.sql:66-71 | the members of the rows of a party, in the order in which they joined |
| `DataStore.Store.GetBlockedUsers` | datastore/datastore.go:131-146 | exactly the users of the relations |
| `DataStore.Store.CreateParty` | datastore/datastore.go:243-277 | statement by statement with rollback: an error, or a failure at any call, leaves the tables as they were; errors in the database's order |
| `DataStore.Store.InsertPartyMember` | datastore/datastore.go:280-311 | the same for joining |
| `DataStore.Store.DeletePartyMember` | datastore/datastore.go:314-337 | the same for leaving |
| `DataStore.Store.InsertBlockRelation` | datastore/datastore.go:148-181 | the same for blocking; returns exactly the list after it |
| `DataStore.Store.DeleteBlockRelation` | datastore/datastore.go:183-213 | the same for unblocking |
| `Chat.Handler.Authorize` | api/chat/handler.go:52-86 | refused exactly if one of the two lookups fails; otherwise the new connection, not registered yet, knows what the tables say |
| `Chat.Handler.OnOpen` | api/chat/handler.go:88-95 | registers this connection with what was looked up for it; all copies are right afterwards exactly if the others were and its own still is |
| `Chat.Handler.OnClose` | api/chat/handler.go:132-139 | removes this connection and touches no copy |
| `Chat.Handler.ForEachConnOf` | api/chat/interop.go:12-22 | changes the copies of all connections of the account and of no other |
| `Chat.Handler.UpdateBlockList` | api/chat/interop.go:25-37 | the account's copies have the block list of the tables, whatever they had, and no other copy changes |
| `Chat.Handler.UpdateParty` | api/chat/interop.go:40-46 | the same for the party |
| `Chat.Handler.Broadcast` | api/chat/process.go:65-80 | exactly the connections that should get the message and are not blocked either way get it, once |
| `Chat.Handler.ProcessMessage` | api/chat/process.go:13-62 | what each connection is sent, by the copies as they are; and while the copies are right, by the tables and rooms: who gets the message, or that only the sender gets an error |
| `Chat.DueIs` | api/chat/process.go:18-62 | for each channel, what a connection is due by tables and rooms: the message with its author and content, nothing for blocked pairs, or the error to the sender alone |
| `Chat.PartyReaches` | api/chat/process.go:35-44 | a party message is for the listed members less blocked pairs |
| `Api.PartiesHandlers.SendPartyOK` | api/parties.go:35-58 | the party's ID and name with its members as the tables list them, unless the lookup fails |
| `Api.PartiesHandlers.HandleCreate` | api/parties.go:79-110 | for any failing database call: the tables afterwards, unchanged exactly if the transaction failed; chat's copies of the user are right if it did not, and all stay right if they were; if only the lookup after it fails, the answer is an error; which error when, and otherwise the party with the user in it |
| `Api.PartiesHandlers.HandleJoin` | api/parties.go:114-142 | the same for joining |
| `Api.PartiesHandlers.HandleLeave` | api/parties.go:146-162 | the same for leaving, where nothing is looked up for the answer |
| `Api.UsersHandlers.HandleBlockListAdd` | api/users.go:72-105 | on tables, room server and chat together it is the joint step of blocking, recorded in the room server's history, and nothing changes on an error; exactly the one account is added and no other list or party changes, the answer is the list; both servers' copies of it are right whatever they were, all stay right if they were; which error when |
| `Api.UsersHandlers.HandleBlockListRemove` | api/users.go:109-141 | the same for removing |
| `Copies.RoomFollows` | api/users.go:95-97 | the room server's list of the account is right after the update, whatever it was, and every other list is as right as it was |
| `Copies.CopiesFollow` | api/users.go:95-97 | after what chat is told about a change of the tables, copies that were right are right, and the account's is right in what changed, whatever it was |
| `MapChat.MapIsVisibility` | api/chat/process.go:23-33 | with agreeing lists an account in the game gets a map message exactly if it sees the sender |
| `MapChat.MapNeedsTheGame` | api/room/interop.go:90-115 | an account that is not in the game gets no map message of another |
| `MapChat.MapToOneself` | api/chat/process.go:23-33 | a sender in the game gets its own map message unless it blocks itself |
| `MapChat.MapAlone` | api/room/interop.go:101-105 | in a singleplayer map nobody else gets it |
| `MapChat.WriteOnMap` | api/chat/process.go:23-33 | on the objects, while all copies are right and list changes were guarded: a map message reaches exactly those connections of other accounts whose player has the sender's on its screen; a sender that is not in the game is told so |
| `RoomLists.OpenCopies` | api/room/handler.go:125-154 | opening keeps the block lists of the connected players equal to the tables exactly if the account is refused or the list looked up for it is still current |
| `RoomLists.AdmittedCopies` | api/room/handler.go:92-119 | a connection let in with the list that the tables have, which opens before they change, keeps all lists equal to the tables, and its own is the whole list |
| `JointRuns.StepIsExact` | api/users.go:72-141 | whatever step room server, tables or chat server take, the server, the screens, the tables and all copies of block lists and parties stay right together exactly if the step is guarded |
| `JointRuns.MapChatEqualsView` | api/chat/process.go:65-80 | after any guarded joint run, by the copies that the chat connections then hold: one gets a map message of another account exactly if its account is in the game and shows the sender; a sender that is not in the game is told so |
| `JointRuns.PartyChatEqualsTables` | api/chat/process.go:35-44 | after any guarded joint run, by those copies: one gets a party message exactly if the tables list its account in the sender's party, less blocked pairs; a sender without a party is told so |
| `JointRuns.GlobalChatEqualsTables` | api/chat/process.go:20-21 | after any guarded joint run, by those copies: one gets every global message, less blocked pairs |
| `StaleRuns.StaleListShows` | api/room/handler.go:92-109 | a joint run: a list is looked up, then the account blocks a player, then the connection opens; lists and tables differ, and the two see each other although chat keeps them apart |
| `StaleRuns.StalePartyShows` | api/chat/handler.go:68-95 | a joint run: an account is looked up, then joins a party, then its chat connection opens; the copy is wrong and it gets no message of the party that the tables list it in |

## Left out

- Handler calls are atomic: goroutine interleavings, locks and the reads made without a lock are not modelled.
- Wire order between `SendImmediate` and packets still queued: packets are folded in call order.
- Repeating flash is no part of a look: the server only ever sets its copy to nil (`api/room/process.go:78-82`).
- The room server's `Picture` is a value; sharing between queue and state is modelled in `LatePictures`.
- RoomServer.User.Send: its effect on the outbox channel is modelled by the view; batching is modelled in `Batcher`.
- Gateway.OnMessage: the SHA-1 comparison is a boolean parameter; a panic while parsing, which the websocket library recovers from, is a refused body.
- RoomServer.Handler.Authorize: requires fewer than 2^31 connections so far, so the ID counter does not wrap around; session and block list lookups are parameters.
- RoomServer.Handler.OnPacket: only for connections in the game; messages of connections that were refused in `OnOpen` are not modelled.
- Leaves.ParseFormatUuid: `uuid.Parse` also accepts the URN, braced and undashed forms, which the model's parser refuses.
- Codec.SerializeAny: single bytes, byte slices and the panic on integers of unspecified size, which no message uses, are not modelled.
- RoomServer.Handler.ChangeRoom: the event packet of Collective Unconscious, which depends on the date and changes no player's look, is not sent.
- RoomServer.Handler.OnOpen: the time and weather packets of Collective Unconscious are not sent either, and there is no background ticker.
- `filters.Load` and map names: known assets are parameters, required to hold no delimiter where they are sent to clients.
- RateLimit.TokenBucket.Allow: the token bucket of `golang.org/x/time/rate` over real numbers, asked at the time of the lookup.
- Batcher.SendLoop: the two clock reads of one iteration are equal.
- DataStore.Store.CreateParty: a commit that fails is a rollback; the database's own IDs and the trimming of names are parameters.
- DataStore.Store.InsertPartyMember: transactions are serial.
- Chat.Handler.Authorize: the session lookup, which also refuses guests, is a parameter.
- DataStore.Store.CreateUser: user names, their uniqueness and passwords.
- Api.PartiesHandlers.SendPartyOK: the party's time of creation and the members' names are not part of the answer.
- Chat.Handler.ProcessMessage: JSON, message IDs, author names and times, the per-connection rate limit and the check for empty or control characters.
- Accounts, passwords, sessions, cookies, HTTP routing, JSON and the websocket library.
