# A verified model of the Shure-to-NMOS gateway

The gateway discovers Shure wireless receivers, talks to them in their text protocol, and presents them to an
NMOS network: as control objects (MS-05-02 and IS-12), as resources (IS-04), as event sources (IS-07) and as
connections (IS-05). This project models the parts of it that hold state, recursion and arithmetic, and proves
what they promise, for all inputs, all runs and all interleavings.

| modules | what they model |
|---|---|
| Text, Tpci, Framing | the command printer, the stream reader and the report parser |
| MessageBus | the bus between device readers and the gateway: two bounded channels, a forwarder, a shutdown |
| BlockGraph, RolePaths, Nca, Searches | control blocks, workers, the registry, and the member searches |
| Forests, ShureModels, DeviceLayout, Collisions, Growth, Site, Addressing, Routing, Wiring, Gateway | the control objects of each receiver: identifiers, trees, role paths, report routing, arrival and removal |
| Ncp, Is07 | control and event subscriptions |
| Metering | the events a receiver's reports are broadcast as |
| Resources, Registration, Reregistration, Unregistration, Lifecycle | the resource store and its life in a registry |
| Discovery, Liveness | reading announcements, their throttle, and the reaper |
| Presentation | the description, label, tags and controls a receiver's reports leave on its device |
| Is05, ClassKeys | connection activation; the table of control classes and the two forms of their descriptors |

Objects whose methods update fields are classes, and each method is tied to a function of the old state; the
theorems are about those functions. Concurrent parts (the bus, the unregistration, the two subscription
servers) are state machines over atomic steps, and their theorems quantify over every run. A lock-protected
handler is one step. Times are natural numbers of nanoseconds, integers are unbounded except where decimal
text is read into 64 bits, and text is ASCII.

Where a promise is false of the code, the exact condition under which it holds is proved instead:

- A printed report is not always read back: Tpci.ParseInvertsPrint and Tpci.ParseInvertsToken say exactly when.
- Control object identifiers collide from the 101st receiver on, for some families: exactly on the conditions of
  Collisions.ShareIffClash.
- A new receiver is not always filed over free identifiers: places go by the number connected, so after removals
  they are handed out again while the objects of before are still registered. In every run of arrivals and
  removals the next receiver's identifiers are all free exactly when as many are connected as places were ever
  handed out and no earlier place clashes with the next, and while fewer than a hundred are connected the first
  half decides (Gateway.Gateway.NextReceiverFree; for the device block alone Gateway.Gateway.NextPlaceTaken, which
  is not enough, Gateway.Gateway.FreeBlockIsNotEnough). Gateway.FirstRemoved and Gateway.AddedAfterRemoval are
  runs that end with the next block taken and with two connected receivers at one place.
- A receiver announced while the reaper is between its two locks is forgotten although it was just seen
  (Gateway.AnnouncedTooLate; the reaper forgets exactly those it collected, Gateway.Gateway.RemoveStale).
- All device blocks have the role "Device", so role paths from the root invert exactly while there is at most one
  receiver (Site.LookupInvertsIffOneDevice).
- A set sent back on a report is not always for the channel and parameter the report names: exactly not when the
  report spells a channel worker's routing key (Routing.SendsWhatItHears; for the lines the gateway sends,
  Gateway.Gateway.LineNamesReportIff; "REP 2 1_FREQUENCY" on a QLX-D is such a report, Routing.KeySpelledOut).
- A replica breaks exactly when an object is replaced by one with another value or a write fails
  (Ncp.StepAgreesIff).
- An event broadcast without subscribers is not cached, so the answer to a later subscription can be outdated
  (Is07.CacheIsLastHeard says what the cache holds, Is07.OutdatedAnswer gives a run).
- A device is unregistered exactly when a sender, flow, source or receiver names it, so a registry is emptied
  exactly when that holds of all devices (Unregistration.DeviceRequestedIffChild, Lifecycle.EmptiedIffNamed).
- The registry's copy of a device can stay behind the node's, because its posts overtake each other: with one
  background post per meter, in any order, it is sure to end as the node's exactly when there is at most one meter
  (Registration.AlwaysCurrentIff), so it is sure for no receiver (Registration.NoReceiverIsSure);
  Registration.StaleSchedule is a run that leaves it with the first sender only. What the registry ends with is
  the version that arrived last (Registration.RegistryHasLastVersion).
- The throttle does not look at ports, so one of several receivers at an address can starve: a port is safe
  whatever the others announce exactly when it keeps a single receiver's bounds and there is no other port, or all
  its announcements are at one moment and are handled within two minutes (Liveness.PortSafeIff).
- Not every registered event source can have an event: while a receiver is taken for the family it was added as, the
  reports feed all of its sources but the two antennas of an Axient Digital, whose samples are broadcast under a
  name that is not registered (Metering.NeverFedIff); and a ULX-D's or QLX-D's audio level only a report of its own
  feeds, no sample (Metering.SampleFeedsIff).
- The device manager's class declares writable exactly what can be set (ClassKeys.WritableIff); of a worker the one
  property its class declares writable of its own is refused (ClassKeys.WorkerEnabledRefused).
- A message accepted before shutdown can be lost (MessageBus.MessageLost gives a run); closing an open bus is sure
  to lose nothing exactly when the send channel is empty and the forwarder holds no message
  (MessageBus.NothingLostIff).
- Converting a class descriptor from the controller's form and back loses its descriptions, so it is the identity
  exactly on those without any (ClassKeys.PlainThenFullIff).
- A control keeps the value of the first report of its parameter, so it shows the current one exactly when the last
  report has the same value (Presentation.ControlCurrentIff; Presentation.ControlStays is a mute that stays on).

In the repository, blocks in the running gateway resolve members to adapters, so that recursive searches there
do not descend, although the block type alone, with a resolver that hands out blocks, does. The registry has a
flag for this, `direct`; the search theorems cover both.

## Model

| member | source | states |
|---|---|---|
| Tpci.ShureCommandBuilder.constructor | internal/infrastructure/shure_commands.go:19-25 | A new command is upper-cased, has no index and no parameter. |
| Tpci.ShureCommandBuilder.WithIndex | internal/infrastructure/shure_commands.go:29-32 | Sets the index and nothing else. |
| Tpci.ShureCommandBuilder.WithParam | internal/infrastructure/shure_commands.go:39-42 | Files the value under the upper-cased key, replacing what it had. |
| Tpci.ShureCommandBuilder.Build | internal/infrastructure/shure_commands.go:44-145 | The line lists every parameter exactly once, in some order, each with its value in the notation of its type. |
| Tpci.SingleParameterLine | internal/infrastructure/shure_commands.go:44-145 | With one parameter there is only one line the builder can print. |
| Tpci.ParseInvertsPrint | internal/infrastructure/shure_commands.go:44-145 | A printed one-parameter report parses back to the same kind, index, key and value if and only if the key is one word that occurs in neither kind nor index, is no number when there is no index, and the value has neither blank nor brace at its ends. |
| Tpci.ParseInvertsToken | internal/infrastructure/shure_commands.go:44-145 | A printed one-parameter report of a number, switch, gain or other bare text, of one word or more, parses back as it was meant if and only if the key is one word that occurs in neither kind nor index and is no number when there is no index, or is a zero printed like the first word of its value, which reads back by accident. |
| Tpci.SingleTokenLine | internal/infrastructure/shure_commands.go:44-145 | With one such parameter there is only one line the builder can print. |
| Tpci.PrintedAreTokens | internal/infrastructure/shure_commands.go:61-145 | Every number, switch and gain is printed as one word without frame characters or braces: numbers and gains so that they read back, gains with three characters at least and no more than needed, switches as ON and OFF. |
| Tpci.WordKeyRead | internal/infrastructure/shure_commands.go:480-528 | For a key that is one word and no misplaced number, reading back depends exactly on where the key first occurs and on the ends of the value. |
| Tpci.NumericKeyMisread | internal/infrastructure/shure_commands.go:500-504 | Without an index a numeric key is always taken for the channel. |
| Tpci.EmptyKeyMisread | internal/infrastructure/shure_commands.go:484-513 | An empty key is never read back, with or without index. |
| Tpci.SpacedKeyMisread | internal/infrastructure/shure_commands.go:485-513 | A key with a blank in it is never read back. |
| Tpci.HeadRead | internal/infrastructure/shure_commands.go:482-513 | A report that ends after its index has neither parameter nor value, and one of a single word is none. |
| Tpci.OnlyReports | internal/infrastructure/shure_commands.go:480-498 | Only reports of the two kinds REP and SAMPLE are read, and what is read keeps its line. |
| Framing.ReadEvents | internal/infrastructure/shure_controller_impl.go:159-199 | Whenever the reading loop is stopped it has yielded exactly the messages of the part of the stream that ends just behind as many message ends as it had turns, or behind the last end where there are fewer; and their reports. |
| Framing.ReportsExactly | internal/infrastructure/shure_controller_impl.go:159-199 | The reports among any messages are those of the messages that parse, each once, in order. |
| Framing.FramingExact | internal/infrastructure/shure_controller_impl.go:159-199 | For any messages with arbitrary junk between them, the reader yields exactly those messages, once each, in order, before whatever the tail yields. |
| Framing.IncompleteTail | internal/infrastructure/shure_controller_impl.go:170-188 | A last message that is never closed yields nothing. |
| Framing.ReportsDelivered | internal/infrastructure/shure_controller_impl.go:159-199 | From the builder's lines, with quoted values or bare text, through reader and parser: all the reports meant, in order, and no other, whatever junk is between them. |
| MessageBus.InMemoryMessageBus.constructor | internal/infrastructure/message_bus.go:43-51 | The bus starts empty, open and forwarding. |
| MessageBus.InMemoryMessageBus.Send | internal/infrastructure/message_bus.go:74-81 | One attempt to send accepts the message, reports cancellation, blocks on a full open bus, or panics on a closed one, each exactly when the state and the choice between ready cases say so; only accepting changes anything. |
| MessageBus.InMemoryMessageBus.Forward | internal/infrastructure/message_bus.go:53-69 | One turn of the forwarding goroutine is one of its three moves, or there is none it could make; it stops exactly when cancelled and preferred, or with nothing else to do. |
| MessageBus.InMemoryMessageBus.Receive | internal/infrastructure/message_bus.go:84-86 | The reader gets the oldest forwarded message whenever there is one, and an end exactly once the channels are closed and empty. |
| MessageBus.InMemoryMessageBus.CancelContext | internal/infrastructure/message_bus.go:89-91 | The first half of closing cancels and keeps all messages; a second time it changes nothing. |
| MessageBus.InMemoryMessageBus.CloseChannels | internal/infrastructure/message_bus.go:92-98 | The second half closes both channels once the forwarder has stopped, and keeps what is in them. |
| MessageBus.RunKeepsInv | internal/infrastructure/message_bus.go:43-99 | In every interleaving, accepted messages are, in order, those delivered, those waiting for the reader, the one held or dropped, and those waiting for the forwarder. |
| MessageBus.DeliveredIsPrefixOfAccepted | internal/infrastructure/message_bus.go:43-99 | In every interleaving what is delivered is a prefix of what Send accepted, for all sources together and for each, and at most 201 messages are in between. |
| MessageBus.StepRefinesFifo | internal/infrastructure/message_bus.go:43-99 | Every step is one step of a single queue, or none. |
| MessageBus.OpenBusDeliversAll | internal/infrastructure/message_bus.go:43-99 | Before Close each accepted message takes exactly three moves; until all are delivered a move is possible, so a reader that keeps reading gets everything. |
| MessageBus.ShutdownLoss | internal/infrastructure/message_bus.go:89-99 | After Close with the reader drained, exactly the last accepted messages are missing, at most 101, and no step can deliver one. |
| MessageBus.MessageLost | internal/infrastructure/message_bus.go:53-99 | A run that loses its only message: accepted, and the bus cancelled, its forwarder stopped and its channels closed before it is taken. |
| MessageBus.NothingLostIff | internal/infrastructure/message_bus.go:53-99 | From any reachable open state, every continuation without new messages that ends closed and drained delivers everything if and only if the send channel is empty and the forwarder holds nothing. |
| Nca.Block.AddItem | internal/nca/nca_model.go:752-759 | A member is added last, unless it is listed already. |
| Nca.Block.GetMemberDescriptors | internal/nca/nca_model.go:644-659 | The loop with its recursive calls returns the descriptors of the preorder below the block, or of its direct members. |
| Nca.Block.FindMembersByRole | internal/nca/nca_model.go:684-716 | The same traversal filtered by role: whole or part of it, with or without case, order kept. |
| Nca.Block.FindMembersByClassId | internal/nca/nca_model.go:718-735 | The same traversal filtered by class identifier, derived classes included or not, order kept. |
| Nca.Block.FindMembersByPath | internal/nca/nca_model.go:661-682 | At each level the first member with the role decides, without backtracking; behind adapters no path longer than one resolves. |
| Nca.MatchesClassId | internal/nca/nca_model.go:737-750 | True exactly when the searched identifier is a prefix, or equal when derived classes are not wanted. |
| Searches.FoundByRole | internal/nca/nca_model.go:684-716 | With a resolver, a role search finds a description if and only if a member it goes through has it, direct or, searching recursively, reached by some path, and its role is the one searched for, is it up to case, contains it, or contains it up to case, as asked. |
| Searches.FoundByClass | internal/nca/nca_model.go:718-750 | A class search likewise, for the members whose class identifier is the one searched for or, with derived classes, continues it. |
| Searches.FoundInOrder | internal/nca/nca_model.go:644-735 | What a search finds is the plain listing without the members that do not match, in its order, as often as listed. |
| Searches.ResolvedExactly | internal/nca/nca_model.go:644-659 | Without recursion the listing goes through the members in their order, leaving out what is not registered. |
| Searches.FirstDecides | internal/nca/nca_model.go:661-682 | At each level of a path the first registered member with the role decides, whatever later ones hold. |
| Searches.ClassesTell | internal/nca/nca_model.go:718-750 | Among the registered objects of any receivers searches by the block, manager and worker classes fit exactly the blocks, the two managers and all others. |
| Nca.Worker.SetProperty | internal/nca/nca_model.go:795-807 | A tied worker sends its line first; only an accepted value, or a textual label, changes anything, and only that. |
| Nca.Registry.Register | internal/infrastructure/nmos_controller.go:1232-1246 | Files an object under its own identifier, replacing what had it, and lets a block resolve here; every other object's place in the graph stays. |
| BlockGraph.BelowShrinks | internal/nca/nca_model.go:644-659 | In an acyclic graph a member block reaches strictly less than the list it is in, so the searches terminate. |
| BlockGraph.FindStep | internal/nca/nca_model.go:644-735 | Every search of a list is what its first member adds, then the search of the rest. |
| BlockGraph.PreorderIsLexicographic | internal/nca/nca_model.go:644-659 | Recursive listing, described without recursion: the ends of all paths by position, each path once, in lexicographic order. |
| BlockGraph.BeforeIff | internal/nca/nca_model.go:644-659 | That order is by the first place at which two paths differ, a path before what extends it. |
| RolePaths.LookupSound | internal/nca/nca_model.go:661-682 | What a lookup finds is one object at the end of a path with those roles. |
| RolePaths.LookupInvertsIffRolesDiffer | internal/nca/nca_model.go:661-682 | Lookup inverts all role paths if and only if sibling roles differ at every level below. |
| RolePaths.ExactlyOneRolePath | internal/nca/nca_model.go:661-682 | In a tree with differing sibling roles exactly one role path finds each object. |
| RolePaths.LookupIsListed | internal/nca/nca_model.go:644-682 | Whatever a lookup finds, the recursive listing holds. |
| RolePaths.PreorderReaches | internal/nca/nca_model.go:644-659 | The listing names exactly the objects some path reaches. |
| RolePaths.TreeListedOnce | internal/nca/nca_model.go:644-659 | In a tree the listing names every object below exactly once. |
| Forests.ForestAcyclic | internal/nca/nca_model.go:644-659 | A graph made of one member tree with distinct identifiers has no cycle. |
| Forests.ForestIsTree | internal/nca/nca_model.go:644-682 | Such a graph has one path to each member, no repeated list entry, and no path longer than the tree is high. |
| Forests.ListingIsForest | internal/nca/nca_model.go:644-659 | Recursive listing gives back the tree's own order. |
| Forests.RolesApartMeans | internal/nca/nca_model.go:661-682 | Differing roles in the member tree are differing sibling roles in the object graph, and conversely. |
| ShureModels.MaxChannelsFromModel | internal/infrastructure/shure_commands.go:185-234 | Every model name gives one to four channels, and every QLX-D name exactly one; the count itself is in the two rows that follow. |
| ShureModels.LongestNameDecides | internal/infrastructure/shure_commands.go:185-234 | Whatever the order of the tests, the longest known name that starts a model's decides its number of channels. |
| ShureModels.FamilyDecides | internal/infrastructure/shure_commands.go:185-234 | Where no known name starts the model's, its family decides. |
| ShureModels.FamilyIff | internal/infrastructure/shure_commands.go:244-263 | Which models are of which family, independently of the order of the tests: by the letters they start with, in either case, and by whether there is a plus in the name. |
| ShureModels.ChannelDistinct | internal/infrastructure/ncp_workers.go:133-186 | In every family no two parameters of a channel share a name, nested blocks included, and no two workers of a channel block share a role. |
| ShureModels.DeviceParamsElsewhere | internal/infrastructure/ncp_workers.go:232-244 | No QLX-D device parameter is also a channel parameter. |
| ShureModels.MeteredReadOnly | internal/infrastructure/shure_commands.go:429-446 | No parameter with a worker is both metered and settable, in any family. |
| Wiring.SettableIff | internal/infrastructure/ncp_workers.go:133-186 | The settable parameters of a channel: gain and frequency in every family, mute in all but QLX-D, and the name and the group each under one of two names. |
| Wiring.DeviceSettableIff | internal/infrastructure/ncp_workers.go:232-244 | Of a QLX-D device block exactly the device identifier and the encryption can be set. |
| Wiring.GroupIff | internal/infrastructure/ncp_workers.go:133-186 | A channel has a worker for GROUP_CHANNEL in the two SLX-D families and one for GROUP_CHAN in the others, never both. |
| Wiring.ClassNumbers | internal/infrastructure/ncp_workers.go:133-186 | The worker classes are numbered through, table by table, from 10, 19, 23 and 31. |
| DeviceLayout.DeviceOids | internal/module/gateway.go:573-701 | The identifiers made for a receiver are exactly those of the closed form, each once, for any model and place. |
| Collisions.ShareIffClash | internal/module/gateway.go:183-184 | Two receivers share an identifier exactly when their places and families meet one of four arithmetic conditions. |
| Collisions.BlockOwnedIff | internal/module/gateway.go:183-184 | A later place's device block gets an identifier of an earlier one's exactly on three arithmetic conditions. |
| Collisions.AllDistinctIffClashFree | internal/module/gateway.go:183-184 | All identifiers with the three reserved ones are pairwise distinct exactly when no two places clash. |
| Collisions.HundredAreDistinct | internal/module/gateway.go:183-184 | Any hundred receivers added in a row have distinct identifiers. |
| Collisions.HundredAndOne | internal/module/gateway.go:183-184 | With a hundred and one it fails exactly when the first and the last are QLX-D, in 111001. |
| Routing.SameKeySameTie | internal/infrastructure/ncp_workers.go:189-218 | The routing keys of a receiver tell all its workers apart. |
| Wiring.ChannelKeyIff | internal/infrastructure/ncp_workers.go:189-218 | The routing table has a key for a parameter of a channel if and only if the receiver has that channel and its family's channels have a worker for it. |
| Wiring.OwnReportHeard | internal/module/gateway.go:1137-1165 | Every worker hears the report of its own parameter on its own channel. |
| Wiring.LineWords | internal/infrastructure/ncp_workers.go:199-212 | The words of the line a set sends: the frame, SET, the channel if any, the parameter, and the words of the value. |
| Wiring.ShownMeans | internal/infrastructure/ncp_workers.go:199-212 | Text is sent as it is, numbers so that they read back, switches as true and false. |
| Wiring.LabelWords | internal/infrastructure/ncp_workers.go:189-218 | A worker's label has the words of its channel and nested block, if any, and of its name. |
| Routing.RouteReport | internal/module/gateway.go:1137-1165 | The chain of table lookups gives exactly the one worker that hears a report, if there is one, for any channel number and any parameter text. |
| Routing.OneHears | internal/module/gateway.go:1137-1165 | No report is heard by two workers. |
| Routing.SendsWhatItHears | internal/infrastructure/ncp_workers.go:189-218 | What a settable worker would send for a report it hears is for the very channel and parameter named, if and only if the worker is the whole device's or the report does not spell its routing key. |
| Routing.KeySpelledOut | internal/module/gateway.go:1137-1165 | The report "REP 2 1_FREQUENCY" of a QLX-D is heard by the worker for channel 1, which would send for channel 1. |
| Routing.LineTellsSetter | internal/infrastructure/ncp_workers.go:189-218 | Two lines for one value are equal only if they are for the same channel and parameter. |
| Routing.MeteredNoSetter | internal/module/gateway.go:1115-1130 | The worker a metered report finds under its channel's key has no setter, so setting it sends nothing. |
| Growth.SiteGrows | internal/module/gateway.go:573-709 | Adding a receiver where no place clashes leaves exactly the larger layout registered. |
| Site.SiteIsTree | internal/module/gateway.go:573-709 | While no places clash the registered objects are a tree under the root, at most four levels deep: acyclic, every listed identifier resolves, no list repeats, and the recursive listing is the layout in order. |
| Site.LookupInvertsIffOneDevice | internal/module/gateway.go:573-575 | All device blocks have the same role, so role paths from the root invert exactly while there is at most one receiver. |
| Site.DeviceApart | internal/module/gateway.go:573-701 | Within one receiver sibling roles always differ. |
| Addressing.ChannelFound | internal/module/gateway.go:573-607 | With one receiver the role path of a channel, and of each of its workers, finds the object with the identifier, label and class the layout gives it. |
| Addressing.NestedFound | internal/module/gateway.go:608-701 | With one QLX-D the role paths of the three nested blocks and of their workers find the identifiers the layout gives them. |
| Site.TieFiled | internal/infrastructure/ncp_workers.go:189-357 | Every worker is registered under its identifier with its own description and setter. |
| Site.ArrivalReplacesNothing | internal/module/gateway.go:573-701 | While no places clash a new receiver replaces no registered object, so none of its registrations is a silent change to a subscribed client. |
| Site.RegisteredMore | internal/module/gateway.go:573-709 | Whatever identifiers are taken already, adding a receiver registers exactly what it owns at its place besides what was registered. |
| Gateway.CreateWorkers | internal/infrastructure/ncp_workers.go:189-218 | One worker per table entry, numbered from the base, settable ones tied to their parameter, and the table that routes reports to them. |
| Gateway.Gateway.constructor | internal/infrastructure/nmos_controller.go:194-208 | The gateway starts with exactly three objects: the root block and the two managers it lists, under these roles and class identifiers. |
| Gateway.Gateway.SetUpNested | internal/module/gateway.go:610-677 | The three nested QLX-D blocks with their workers are filed and listed in order; everything else stays. |
| Gateway.Gateway.SetUpChannel | internal/module/gateway.go:588-699 | A channel block with its workers, and its nested blocks on QLX-D, is filed and listed by its device. |
| Gateway.Gateway.SetupDeviceNCP | internal/module/gateway.go:573-709 | All of a receiver's objects are filed as the closed form says and the root lists its block once, even when identifiers are taken already; every other object stays. |
| Gateway.Gateway.AddShureController | internal/module/gateway.go:155-207 | A new address is recorded at the place after the receivers now connected, with its routing table; of a known address the time seen is refreshed; a failed connection changes nothing. In every run what every receiver ever added owns is registered and nothing else; while nothing was removed and no places clash exactly the layout is. After adding any model that starts with ULXD, in either case, each of its channels has a routing key for GROUP_CHAN and none for GROUP_CHANNEL. |
| Gateway.GroupKeys | internal/infrastructure/ncp_workers.go:189-218 | For every model, in terms of its name alone: under which of the two names its channels' groups have a routing key, and that no other channel number has one. |
| Growth.ChannelMapIs | internal/module/gateway.go:588-607 | The remembered channel blocks are those of the receiver's channels, each with its block's identifier. |
| Gateway.Gateway.Reap | internal/module/gateway.go:1426-1448 | With both halves in one step, exactly the receivers not seen for more than two minutes are forgotten, and nothing else changes: their objects stay registered. |
| Gateway.Gateway.StaleAddrs | internal/module/gateway.go:1426-1434 | The first half collects exactly the addresses not seen for more than two minutes, and changes nothing. |
| Gateway.Gateway.RemoveStale | internal/module/gateway.go:1435-1448 | The second half forgets exactly those collected, even when they were announced or added again since, and keeps every invariant of the gateway. |
| Gateway.AnnouncedTooLate | internal/module/gateway.go:1426-1448 | A run in which a receiver is announced between the halves and forgotten at the very time it was seen. |
| Gateway.Gateway.NextPlaceTaken | internal/module/gateway.go:183-184 | In every run of additions and removals, the next receiver's device block gets an identifier registered already if and only if fewer are connected than places were ever handed out, or, with a hundred connected or more, an earlier place owns it. |
| Site.NextReceiverFreeIff | internal/module/gateway.go:183-184 | Of the objects registered for any receivers at places that were all handed out, none has an identifier of the next receiver if and only if as many are connected as places were handed out and no earlier place clashes with the next. |
| Gateway.Gateway.NextReceiverFree | internal/module/gateway.go:183-184 | In every run of additions and removals, all identifiers of the next receiver are free if and only if as many are connected as places were ever handed out and no earlier place clashes with the next; below a hundred connected, if and only if the first. |
| Gateway.Gateway.FreeBlockIsNotEnough | internal/module/gateway.go:183-184 | With a hundred connected, none ever removed, and a QLX-D at place 1 and next, the next device block is free and yet 111001, which the next receiver owns, is registered. |
| Gateway.FirstRemoved | internal/module/gateway.go:183-184 | A run of two arrivals and the removal of the first, after which the next device block is registered already. |
| Gateway.AddedAfterRemoval | internal/module/gateway.go:183-184 | That run with a third arrival: two connected receivers have one device block. |
| Gateway.Gateway.RootReady | internal/nca/nca_model.go:644-659 | In every state reached by adding receivers without a clash, the searches' premise holds for the root, and its listings are, in closed form, all descriptions in the layout's order, or those of the direct members. |
| Gateway.Gateway.TargetIs | internal/module/gateway.go:1137-1180 | All workers that hear a report are one, and while nothing was removed and no places clash it is registered with the description and setter of that parameter. |
| Gateway.Gateway.WorkerFor | internal/module/gateway.go:1137-1180 | The worker the chain of lookups finds for a report is its target, and none is found when there is none. |
| Gateway.Gateway.MeteredWorker | internal/module/gateway.go:1122-1130 | The worker a metered report finds under its channel's key is its target, and none is found when the key is not in the table. |
| Gateway.Gateway.SetWorkers | internal/module/gateway.go:1115-1184 | A REP report sets its target, and a metered one, of any kind, its target under the channel's key; each set of a settable worker first sends the worker's own line, and takes the value only if that is accepted; no other worker changes. |
| Gateway.Gateway.HandleReport | internal/module/gateway.go:967-1212 | The same for a report from any address, a report from an unknown one changing nothing; and a report of the model, of a stored device, changes the family the receiver is taken for, and so which reports its workers hear. |
| Gateway.Gateway.LineNamesReportIff | internal/module/gateway.go:1137-1184 | End to end, in such a state: a REP report that reaches a settable worker makes the gateway send one line, and that line is for the channel and parameter the report names if and only if the worker is the whole device's or the report does not spell its routing key. |
| Presentation.DevicePresentation.Apply | internal/module/gateway.go:1190-1282 | After any reports the description names the last model, the label is the last device identifier, tags and controls are those of the reports in order, and the registry is patched on a device identifier only. |
| Presentation.DevicePresentation.AddControl | internal/module/gateway.go:1228-1260 | A parameter outside the three excluded gets a control the first time it is reported, typed by its value, and never another. |
| Presentation.TagIsLast | internal/module/gateway.go:1190-1282 | After any reports a tag has what was last said for it, by a field of a whole sample in the order the device sends them, or as the value of the parameter of that name, or what it had before. |
| Presentation.ControlIsFirst | internal/module/gateway.go:1228-1260 | After any reports each reported parameter outside the three has exactly one control, with the type and value of its first report. |
| Presentation.ControlTyped | internal/module/gateway.go:1228-1260 | Every control is of a parameter outside the three, and its kind is a boolean exactly for ON and OFF, a text exactly for what starts with a brace, and else a number. |
| Presentation.ControlsOnlyGrow | internal/module/gateway.go:1228-1260 | No later report moves, changes or removes a control. |
| Presentation.ControlCurrentIff | internal/module/gateway.go:1228-1260 | A control shows the value its tag shows if and only if the last report of its parameter has the value of the first. |
| Ncp.NmosController.HandleSubscriptions | internal/infrastructure/nmos_controller.go:1440-1468 | The registered ones among the objects are subscribed under the next identifiers, which are returned in order; the client is subscribed to nothing else, and other clients' subscriptions stay. |
| Ncp.NmosController.BroadcastNCPNotification | internal/infrastructure/nmos_controller.go:1200-1230 | Each connected client gets the notification once if it is subscribed to the object and its write works, and nothing otherwise; nobody is disconnected. |
| Ncp.NmosController.RegisterNCPObject | internal/infrastructure/nmos_controller.go:1232-1246 | Replaces the object and tells no client. |
| Ncp.NmosController.SetProperty | internal/infrastructure/nmos_controller.go:1401-1423 | For objects of every kind and all their properties: a set of the value of a worker with a setter sends that worker's line first; a set that works changes that property and notifies, and one that is refused leaves the whole server as it was. |
| Nca.Block.SetProperty | internal/nca/nca_model.go:342-368 | Of a block only the label can be set, and only to text. |
| Nca.Manager.SetProperty | internal/nca/nca_model.go:947-973 | Of a manager the label, and of the device manager its three texts, can be set, only to text, and nothing else changes. |
| Ncp.NmosController.DisconnectClient | internal/infrastructure/nmos_controller.go:1300-1308 | A client that leaves takes its subscriptions along. |
| Ncp.RunKeepsInv | internal/infrastructure/nmos_controller.go:1440-1468 | In every run live subscription identifiers are pairwise distinct, already given out, and owned by connected clients. |
| Ncp.OnlySubscribed | internal/infrastructure/nmos_controller.go:1215-1223 | A step writes at most one notification to a client, of an object it is subscribed to, set by that step to that value. |
| Ncp.NothingUnasked | internal/infrastructure/nmos_controller.go:1215-1223 | In every run a client that does not subscribe to an object is never notified of it, whatever others set. |
| Ncp.StepAgreesIff | internal/infrastructure/nmos_controller.go:1200-1246 | After a step a following client's replica is right if and only if the step is not a silent change: an object replaced by one with another value, or a new value whose write to it fails. |
| Ncp.ReplicaAgrees | internal/infrastructure/nmos_controller.go:1200-1246 | Over every run without a silent change, the value read at the start and the notifications since give the current value of any property of any object. |
| Is07.EventServer.HandleSubscription | internal/infrastructure/nmos_controller.go:1704-1735 | The client's sources are replaced and the cached events of the listed ones are written to it, in order, those left out whose write fails. |
| Is07.CachedExactly | internal/infrastructure/nmos_controller.go:1704-1735 | The answer to a subscription has one event for each listed source with a cached one, in the order listed. |
| Is07.WrittenExactly | internal/infrastructure/nmos_controller.go:1704-1735 | Of it exactly the events whose write works arrive, each once, in order. |
| Is07.EventServer.BroadcastEvent | internal/infrastructure/nmos_controller.go:1864-1921 | With an audience the event is cached, written once to each client subscribed now, and the clients that cannot be written to are dropped; all other clients stay as they are; with no audience nothing happens. |
| Is07.StepCoherentIff | internal/infrastructure/nmos_controller.go:1704-1735 | A step keeps every view right if and only if it is not a subscription in whose answer all events of some source are lost that the client has not seen. |
| Is07.RunCoherent | internal/infrastructure/nmos_controller.go:1864-1921 | In every run without such a loss, each client subscribed to a source has last received exactly its cached event. |
| Is07.NothingOutside | internal/infrastructure/nmos_controller.go:1704-1735 | In every run from the start, whatever answers are lost, between two subscriptions a client receives events of its current sources only. |
| Is07.CacheIsLastHeard | internal/infrastructure/nmos_controller.go:1864-1905 | The cache holds the last event of a source that had an audience, and is filled exactly when there was one. |
| Is07.OutdatedAnswer | internal/infrastructure/nmos_controller.go:1882-1905 | Not every answer is current: an event broadcast while nobody listens is never seen by the next subscriber. |
| Resources.ResourceStore.RegisterResource | internal/infrastructure/nmos_controller.go:2519-2618 | A resource replaces its predecessor in place or is appended, its device lists it once, and the posts made at once and later are exactly these; one without identifier is refused. |
| Resources.UpsertIsMapUpdate | internal/infrastructure/nmos_controller.go:2523-2540 | Registering is a map update by identifier, keeps identifiers unique and moves nothing. |
| Resources.StoredIsLast | internal/infrastructure/nmos_controller.go:2519-2618 | After any run of registrations, of every kind but devices the resource stored under an identifier is the one registered last under it, or what was stored before. |
| Resources.DeviceIsRun | internal/infrastructure/nmos_controller.go:2519-2618 | After any run of registrations a stored device is the one last registered with, in order and each once, the senders and receivers registered for it since, or for what was stored before. |
| Resources.DeviceListsIff | internal/infrastructure/nmos_controller.go:2542-2596 | While a device is not registered again it lists what it listed and each sender and receiver registered for it since, each once, and nothing else of it changes. |
| Resources.LaterIsChange | internal/infrastructure/nmos_controller.go:2583-2596 | Registering a sender or receiver starts a background post if and only if it changes its device, and the post is of the device as it then is stored; other registrations start none. |
| Registration.RegisterTriple | internal/module/gateway.go:862-933 | Source, flow and sender of one meter are registered in that order. |
| Registration.RegisterModel | internal/module/gateway.go:250-290 | A connected receiver registers its device, then source, flow and sender of every metered parameter of every channel, each once; these are posted at once, in this order, and in the background the device once for each meter, with the senders up to that one. |
| Registration.StartedByMeters | internal/infrastructure/nmos_controller.go:2583-2596 | Registering a new receiver with any meters starts one background post for each, of the device with the senders up to it, in order. |
| Registration.MetersIff | internal/module/gateway.go:250-290 | Each channel of the receiver has each parameter of its family's, and there are no other meters. |
| Metering.SampleEvents | internal/module/gateway.go:987-1110 | A sample that parses gives one event for each parameter it carries that has a source, and no other. |
| Metering.ReportEvents | internal/module/gateway.go:986-1120 | A report gives the events of a whole sample, and one for a metered parameter with a source reported by itself. |
| Metering.NeverFedIff | internal/infrastructure/shure_commands.go:450-478 | Of the sources registered for a receiver exactly those of an Axient Digital's two antennas can never have an event while it is taken for the family it was added as. |
| Metering.SampleFeedsIff | internal/infrastructure/shure_commands.go:450-478 | A whole sample can feed all registered sources but those two and the audio level of ULX-D and QLX-D. |
| Registration.EagerNeverRejected | internal/module/gateway.go:254-290 | With the node registered, no post of an eager registration is rejected. |
| Registration.BackgroundPostsAreHarmless | internal/infrastructure/nmos_controller.go:2586-2591 | However background posts of devices interleave with it, still none is rejected. |
| Registration.DeviceListsItsSenders | internal/infrastructure/nmos_controller.go:2542-2596 | Afterwards the device lists exactly its sender identifiers, in order, each once, whatever the store held before. |
| Registration.RegistryHasLastVersion | internal/infrastructure/nmos_controller.go:2583-2596 | However the background posts of a new receiver's device fall between the others and overtake each other, the registry's copy is the version that arrived last; it lists all senders if and only if that one was written out after all were listed. |
| Registration.OnePostPerMeter | internal/infrastructure/nmos_controller.go:2542-2596 | Of each meter's three registrations only the sender's starts a background post, of the device with the senders up to its own. |
| Registration.StaleSchedule | internal/infrastructure/nmos_controller.go:2583-2596 | For any receiver with two meters or more, a schedule of one post per meter that leaves the registry's copy with the first sender only. |
| Registration.AlwaysCurrentIff | internal/infrastructure/nmos_controller.go:2583-2596 | Every schedule of one post per meter, each of its own version or a later one, in any order and between any other posts, leaves the registry's copy equal to the node's if and only if there is at most one meter. |
| Registration.NoReceiverIsSure | internal/module/gateway.go:250-290 | So of no receiver, of any model, the registry's copy is sure to end up current. |
| Reregistration.ReRegisterAll | internal/infrastructure/nmos_controller.go:462-485 | Posts the node, and if that gets through devices, sources, flows, senders and receivers, going on after a rejection. |
| Reregistration.TakenIffComplete | internal/infrastructure/nmos_controller.go:462-485 | An empty registry takes all of it if and only if everything a resource refers to is in the store. |
| Reregistration.MirrorsIffComplete | internal/infrastructure/nmos_controller.go:462-485 | Then, and only then, the registry equals the local store. |
| Reregistration.GatewayStoreIsTaken | internal/module/gateway.go:829-942 | After any receivers in any order, repeated or not, re-registration is taken whole and mirrors the store. |
| Unregistration.SortStrings | internal/infrastructure/nmos_controller.go:661 | The device identifiers, each once, every one before another when at the first difference it ends or has the smaller character. |
| Unregistration.LessIff | internal/infrastructure/nmos_controller.go:661 | The order used is by the first character that differs, a text before what extends it. |
| Unregistration.Plan | internal/infrastructure/nmos_controller.go:630-676 | The collecting loops give one group for each device some child names, in sorted order, with all its children. |
| Unregistration.ChildrenIff | internal/infrastructure/nmos_controller.go:630-655 | The collected children are exactly the resources with an identifier and a device. |
| Unregistration.RunKeepsInv | internal/infrastructure/nmos_controller.go:664-714 | In every interleaving at most four deletions are in flight, and the requests so far are whole groups, each with its device last, and part of the next. |
| Unregistration.AtMostFour | internal/infrastructure/nmos_controller.go:664-690 | In every interleaving at most four goroutines hold a slot at any moment. |
| Unregistration.WaitsForChildren | internal/infrastructure/nmos_controller.go:664-714 | Whenever a device or the node can be deleted, or the next group begun, every child's goroutine before it has come to its end. |
| Unregistration.NeverStuck | internal/infrastructure/nmos_controller.go:664-714 | No interleaving is ever stuck before the node is deleted, and all take the same number of steps. |
| Unregistration.UnregisteredInOrder | internal/infrastructure/nmos_controller.go:664-714 | At the end the requests are, device after device, all its children in some order and then the device, and last the node. |
| Unregistration.ChildOnceBeforeDevice | internal/infrastructure/nmos_controller.go:630-714 | Each child with identifier and device is requested exactly once, before its device. |
| Unregistration.DeviceRequestedIffChild | internal/infrastructure/nmos_controller.go:643-655 | A device is unregistered if and only if some child names it. |
| Lifecycle.StoreChildren | internal/infrastructure/nmos_controller.go:643-655 | The collecting loops' children of a tidy store are exactly its receivers, senders, flows and sources, no two with one deletion request. |
| Lifecycle.RequestedIff | internal/infrastructure/nmos_controller.go:630-714 | At the end of every unregistration run, of all the node's resources exactly the devices no child names have not been requested to be deleted. |
| Lifecycle.EmptiedIffNamed | internal/infrastructure/nmos_controller.go:630-714 | In every interleaving, a registry that holds exactly what the store has, in whatever version, and applies the deletions is empty at the end if and only if every device in the store is named by some child. |
| Lifecycle.NothingIsLeft | internal/infrastructure/nmos_controller.go:462-714 | A whole life: whatever receivers with something to meter arrived, in any order and repeated, what a registry took of the store is all gone once unregistration has come to its end, in any interleaving. |
| Lifecycle.EagerCovers | internal/infrastructure/nmos_controller.go:2542-2596 | However background posts of devices fall between those of any arrivals, no post is rejected and the registry holds exactly what the store has. |
| Lifecycle.NothingIsLeftOfEager | internal/module/gateway.go:250-290 | The eager life: what a registry was sent as receivers with something to meter arrived, background posts and stale devices included, is all gone once unregistration has come to its end, in any interleaving. |
| Lifecycle.ModelMeters | internal/module/gateway.go:936-942 | Every model has something to meter. |
| Discovery.ExtractIPFromPayload | internal/infrastructure/mdns_discovery.go:212-235 | The loop over the delimiters gives what follows the first marker up to the first delimiter of any kind, and nothing without a marker. |
| Discovery.ExtractValue | internal/infrastructure/mdns_discovery.go:194-210 | What follows the key's first occurrence up to a closing parenthesis, or else a comma, or else all of it. |
| Discovery.AddressFound | internal/infrastructure/mdns_discovery.go:212-235 | An address after the first marker is found whole, up to a colon, slash, comma or closing parenthesis or the end, whatever follows it. |
| Discovery.ValueFound | internal/infrastructure/mdns_discovery.go:194-210 | A value is found whole up to a closing parenthesis, commas included; without one up to the first comma; and without that to the end. |
| Liveness.ShureDiscoverer.SendDevice | internal/infrastructure/mdns_discovery.go:175-192 | An announcement passes unless one of the same address passed less than 30 seconds before; over any run, what passes for an address is at least 30 seconds apart. |
| Liveness.ThroughIff | internal/infrastructure/mdns_discovery.go:176-184 | An announcement passes if and only if every earlier one that passed is at least thirty seconds before it. |
| Liveness.ListenShureDiscovery | internal/infrastructure/mdns_discovery.go:122-172 | Fed with packets of any payloads, in time order, the listening loop lets exactly those through that carry the protocol's mark and an address, find room in the channel, and are allowed by the earlier ones of their own address. |
| Liveness.CollectStale | internal/module/gateway.go:1426-1434 | Exactly the receivers not seen for more than two minutes. |
| Liveness.SafeIff | internal/infrastructure/mdns_discovery.go:175-192 | Throttle and reaper together never take a receiver that was added and keeps announcing itself if and only if announcement gap and handling delay sum to at most 90 seconds and a nanosecond; with all announcements at one moment, if and only if the delay is at most 120 seconds. |
| Liveness.PortSafeIff | internal/infrastructure/mdns_discovery.go:175-192 | Whatever the other ports of its address announce, a receiver that was added and keeps announcing itself is never found stale if and only if it keeps the bounds of a single receiver and there is no other port; with all its announcements at one moment, if and only if the delay is at most 120 seconds. |
| Liveness.SecondPortStarves | internal/infrastructure/mdns_discovery.go:176-184 | For any bounds a second port can take all the throttle's turns, so that a receiver that was added and keeps announcing itself is found stale. |
| Liveness.SecondPortNeverPasses | internal/infrastructure/mdns_discovery.go:176-184 | Two receivers at one address announced in turn: the second never passes. |
| Is05.ConnectionApi.PatchStaged | internal/infrastructure/nmos_controller.go:3018-3063 | One patch merges into what is staged, activates when its mode is immediate, and clears that mode; a bad request changes nothing. |
| Is05.HistoryDecides | internal/infrastructure/nmos_controller.go:2994-3068 | After any history, each sender's staged and active parameters are exactly what its own patches say: the last enabling, the last parameters given, the activation last given with the time it asks for, and the last immediate activation. |
| Is05.ActivatesIffImmediate | internal/infrastructure/nmos_controller.go:3044-3058 | What is active changes exactly when the patch itself asks for immediate activation; active implies staged, and staged is never immediate. |
| ClassKeys.ClassIdToKey | internal/nca/nca_model.go:1162-1171 | The class manager's loop computes the dotted key. |
| ClassKeys.ControllerClassIdToKey | internal/infrastructure/ncp_objects.go:389-398 | The controller's loop computes the same key. |
| ClassKeys.KeyInjective | internal/nca/nca_model.go:1162-1171 | Different lists of integers, of any length and sign, have different keys. |
| ClassKeys.StandardKeys | internal/nca/nca_model.go:1025-1107 | The literal keys of the five standard classes are the keys the loop computes for their identifiers. |
| ClassKeys.Numbered | internal/nca/nca_model.go:1025-1107 | Properties, methods and events of each standard class are numbered from one at the level of the class. |
| ClassKeys.WritableIff | internal/nca/nca_model.go:947-973 | Of the object's and the device manager's declared properties exactly those not declared read-only can be set, under these names, and they are texts. |
| ClassKeys.WorkerEnabledRefused | internal/nca/nca_model.go:795-807 | What a worker's class declares writable of its own is neither its label nor its value, so it is refused, and its value is declared by no standard class. |
| ClassKeys.ClassManager.constructor | internal/nca/nca_model.go:1007-1107 | The class manager starts with exactly the five standard classes, whole, each under its literal key. |
| ClassKeys.ClassManager.RegisterClass | internal/nca/nca_model.go:1158-1160 | Registering files a class under its key so that the key table is a table by identifier. |
| ClassKeys.ClassManager.GetControlClass | internal/nca/nca_model.go:1123-1137 | The class most recently registered under exactly that identifier, or none. |
| ClassKeys.LatestIs | internal/nca/nca_model.go:1123-1137 | That class is the last entry under the identifier, and there is none exactly when nothing was registered under it. |
| ClassKeys.NcClassDescriptorToClassDescriptor | internal/infrastructure/ncp_objects.go:39-93 | The conversion's loops copy every part, dropping its description. |
| ClassKeys.ClassDescriptorToNcClassDescriptor | internal/infrastructure/ncp_objects.go:96-150 | The loops of the other direction copy every part, with an empty description. |
| ClassKeys.FullThenPlain | internal/infrastructure/ncp_objects.go:39-150 | From the class manager's form to the controller's and back is the identity. |
| ClassKeys.PlainThenFullIff | internal/infrastructure/ncp_objects.go:39-150 | From the controller's form and back is the identity if and only if no part has a description. |
| ClassKeys.NmosController.RegisterClass | internal/infrastructure/nmos_controller.go:1248-1257 | Files a converted class with object 3 if that is the class manager, and does nothing otherwise. |

## Left out

- Text: characters beyond ASCII (white space, case folding) and invalid UTF-8.
- Tpci.ShureCommandBuilder.Build: the value types that print as their own text, and those printed by the default format, are one case here; with several parameters only the set of entries is fixed, since the source iterates over a map.
- Tpci.ParseInvertsToken: of a value printed without quotes that ends in a frame character, has blanks at its ends or stands in braces nothing is said, nor of lines with several parameters.
- MessageBus.InMemoryMessageBus.Send: one attempt at a time; a blocked sender is one that tries again, and which of two ready cases is taken is an input.
- Nca.Worker.SetProperty: the other property identifiers only ever refuse.
- Gateway.Gateway.AddShureController: the commands sent to a new receiver, the pauses between them and the database entry are left out; whether the connection works is an input.
- Gateway.Gateway.HandleReport: the events broadcast for a report are in Metering and Is07, and what it leaves on the device in Presentation; whether the device is stored is an input.
- Gateway.CreateWorkers: the three creating functions differ in label, key and line only, and are one method with a scope.
- Gateway.Gateway.SetUpNested: the two methods of the gain worker that step the gain up and down.
- Metering.SampleEvents: whether a sample parses and which optional antennas it has are inputs, and the values of the events are left out; the branch for a family that was never detected cannot be reached.
- Resources.ResourceStore.RegisterResource: the database copy, the notification of websocket clients and the peer-to-peer version counters.
- Registration.EagerNeverRejected: the registry is an ideal one that refuses only references to what it does not have; transport failures are not modelled. UUID derivation is an uninterpreted function, injective where identifiers must differ.
- Unregistration.Plan: deletion requests are what is ordered; whether the registry answers in time is not. Nothing is unregistered when the node never was, which is not modelled.
- Liveness.SafeIff: clocks are exact, and every announcement that passes the throttle finds room in the discovery channel (Liveness.ListenShureDiscovery has the one that does not, which still blocks its address for 30 seconds).
- Liveness.ListenShureDiscovery: how the address in a packet parses, and is written as a key, is an input.
- Presentation.DevicePresentation.Apply: the version stamp, and controls set by other means than reports.
- Sequence methods of control objects: no property is ever a generic sequence, so they only report that.
- The database, HTTP routing, websockets, multicast discovery, logging, JSON and the command-line programs.
- Lock discipline: two places nest read and write locks; the data effect is modelled as one step.
- The meaning of fields in metering samples, and the many one-line command structures.
