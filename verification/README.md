# Vumi Go in Dafny: routing, billing and three small concurrent machines

A model of the parts of Vumi Go where a wrong step is expensive, with proofs about whole runs
rather than single calls. Verify it with `dafny verify dfyconfig.toml`.

## What is modelled

**Routing.** An account's routing table is a nested dictionary from connector and endpoint to a
target (`RoutingTables`), edited in place and searched with worklists (`Reachability`). Messages
keep the list of hops they made (`Messages`). The dispatcher is an object that works out a
message's source, finds its destination and overwrites the message on the way (`Dispatching`);
each of its methods is proved equal to a function on values (`Passes`), and so are the billing and
router workers (`Workers`). `Journeys` then follows one message through dispatcher, routers and
billing: a journey is a list of legs, one for each time a worker gives the message back, and each
leg has its own routing table, since an account can replace its table while a message is under way.
A router hands the message back on any endpoint, so the theorems hold whatever routers do. Three
results stand on this:

- the path invariant (`Journeys`), for all valid tables and every list of legs;
- the event retrace (`EventRetrace`), which never mentions a table: events undo the hops of the
  message as the store has it;
- the billing detour (`BillingDetour`), which compares every journey with billing on to the same
  journey with billing off: it stops short exactly where billing drops the message, and is otherwise the same.

`Connections` is about the names of connectors: that a message is published where a worker of its
destination's kind listens. `PassEffects` is about everything a pass does besides the path: metadata,
opting out, being paid for, and what events learn from their messages.

`Connectors` and `EndpointUuids` prove when the text forms of connectors and endpoints can be read
back. `RoutingUpdates` is the API call that replaces a table; what it accepts is shown to satisfy
everything that the routing theorems ask of a table.

**Billing.** `Credits` has the cost arithmetic and the rounding bound, `LowCredit` the notification
levels and alerts, `Ledger` the account whose balance is always what its transactions add up to;
`AccountAlerts` follows that account from one top-up to the next.
`Summaries`, `Statements`, `StatementCredits` and `Invoices` follow the money from the
transactions to the line items and the sections of an invoice; `Currency` prints it. Credit amounts
are integers counting millionths of a credit, costs are exact reals.

**Small machines.** `BulkSend` (a send that is taken up again after crashes), `ConcurrencyLimits`
(a limit for each key, with waiters) and `ModelCache` (a cache whose entries expire by timer, with
fetches in flight). Each is a class proved against a step function, and a theorem about every run.

`Text`, `Ordering` and `Wrappers` hold splitting and joining, the order of strings with stable
sorting, and optional values.

## What turned out not to hold

The code is modelled as it is. Where a promise fails there is a lemma that says exactly when it holds.

- `parse(str(c)) == c` fails for parts that hold a `:`; endpoint uuids cannot be read back when the
  endpoint holds `::` or starts with `:`.
- `remove_endpoint` leaves references behind when more than one entry leads to the endpoint
  (go/vumitools/routing_table.py:261-267), as `SecondReferenceStays` shows of one table.
- An event about a reply to an unroutable message is dropped early exactly when the reply's path
  repeats its first hop (go/vumitools/routing.py:173-192); `LoopingReplyIsDropped` is such a journey.
- The billing detour forgets the endpoint of a table entry that leads to a transport
  (go/vumitools/routing.py:640-649); tables accepted by the API have none but the default there.
- A bulk send whose first contact key is the empty string would start over after a crash
  (go/apps/bulk_message/vumi_app.py:139). Contact keys are `uuid4().get_hex()`
  (go/vumitools/contact/models.py:182, 376), so the contact store makes no such key, and for the keys
  it makes every send can be resumed.
- A notification level that is configured twice, below the highest, stops the table from advancing
  (go/billing/api.py:112-134). After a top-up that leaves a negative balance an alert fails where some
  level is 100 percent or more, and only there; the charge is then taken back with it
  (go/billing/api.py:437-471). With lower levels, such as those of
  go/billing/tests/test_api.py:107, no such run alerts about anything.
- A session shorter than half a millisecond is charged for its length but missing from the statement,
  because its stored length is zero (go/billing/tasks.py:105, go/billing/models.py:374-376), as
  `BriefSessionIsDropped` shows of one.

One comment disagrees with the code: the configuration documents `router_inbound_connector_mapping`
as the connectors that inbound messages are published to, while `set_destination` looks the connector
up by the flipped direction (go/vumitools/routing.py:428-438). The model follows the code.

## Model

| member | source | states |
|---|---|---|
| Connectors.FlipIsInvolution | go/vumitools/routing_table.py:73-81 | Flipping fails exactly for connectors that are not routers, keeps a router's type and key, turns its direction round, and flipping twice gives the connector back. |
| Connectors.StrIsWritten | go/vumitools/routing_table.py:46-67 | How each kind of connector is written: its type, its parts and its side, with a `:` between any two. |
| Connectors.StrOfParse | go/vumitools/routing_table.py:114-132 | `str(parse(s)) == s` for every string that parses, and what parses has no separator inside its parts. |
| Connectors.ParseOfStr | go/vumitools/routing_table.py:114-132 | `parse(str(c)) == c` if and only if no part of `c` holds a `:`. |
| Connectors.StrIsInjective | go/vumitools/routing_table.py:46-67 | Comparing connectors by their strings is comparing them: two clean connectors are equal exactly when their strings are. |
| EndpointUuids.ParseOfFormat | go/api/go_api/api_types.py:44-51 | `parse_uuid(format_uuid(c, e)) == (c, e)` if and only if `e` holds no `::` and does not start with `:`. |
| EndpointUuids.FormatOfParse | go/api/go_api/api_types.py:48-51 | `format_uuid(parse_uuid(u)) == u` if and only if `u` holds a separator. |
| RoutingTables.FlattenDeterminesTable | go/vumitools/routing_table.py:163-190 | A nested table without empty inner dictionaries is determined by its flat map of entries, so the flat map is a full account of it. |
| RoutingTables.RoutingTable.constructor | go/vumitools/routing_table.py:179-182 | A table starts with the entries it was stored with. |
| RoutingTables.RoutingTable.ValidateAllEntries | go/vumitools/routing_table.py:391-410 | Succeeds exactly when every entry links connectors of opposite directions. |
| RoutingTables.RoutingTable.LookupTarget | go/vumitools/routing_table.py:192-197 | The target that the flat map has for the source, or none. |
| RoutingTables.RoutingTable.LookupTargets | go/vumitools/routing_table.py:199-204 | Exactly the (endpoint, target) pairs of the source connector. |
| RoutingTables.RoutingTable.LookupSource | go/vumitools/routing_table.py:206-211 | Some source whose entry is the target, and none only if no entry is. |
| RoutingTables.RoutingTable.LookupSources | go/vumitools/routing_table.py:213-219 | Exactly the entries whose target is at the connector. |
| RoutingTables.RoutingTable.AddEntry | go/vumitools/routing_table.py:231-241 | Refuses entries between connectors of the same direction and leaves the table alone; otherwise updates the flat map at that one source. Keeps the table valid and without empty inner dictionaries. |
| RoutingTables.RoutingTable.RemoveEntry | go/vumitools/routing_table.py:243-259 | Takes exactly that entry out of the flat map, drops an inner dictionary that becomes empty, and returns the removed target. |
| RoutingTables.RoutingTable.RemoveEndpoint | go/vumitools/routing_table.py:261-267 | Removes the endpoint's own entry and at most one entry that leads to it. |
| RoutingTables.RemoveEndpointClearsReferences | go/vumitools/routing_table.py:261-267 | When `remove_endpoint` finds an entry that leads to the endpoint, nothing refers to the endpoint afterwards if and only if that was the only one. |
| RoutingTables.SecondReferenceStays | go/vumitools/routing_table.py:261-267 | A valid table with two entries leading to one endpoint: whichever of them is dropped, the other still leads there. |
| RoutingTables.RoutingTable.RemoveConnector | go/vumitools/routing_table.py:269-289 | Exactly the filter that drops every entry mentioning the connector as source or target. |
| RoutingTables.RoutingTable.RemoveRouter | go/vumitools/routing_table.py:299-306 | The filter for both sides of the router. |
| RoutingTables.RoutingTable.RemoveTransportTag | go/vumitools/routing_table.py:308-315 | The filter for the tag's connector. |
| RoutingTables.RoutingTable.ApplyAll | go/vumitools/routing_table.py:231-315 | Any sequence of edits, failed ones included, leaves the nested table equal to the same edits done on the flat map, valid and without empty inner dictionaries. |
| RoutingTables.EditsEntries | go/vumitools/routing_table.py:231-315 | Which entries there are after an edit, entry by entry: the one it adds, and of those there were exactly the ones that it does not name as source or target. |
| RoutingTables.RemoveUndoesAdd | go/vumitools/routing_table.py:231-259 | Removing an entry that was added where there was none gives the table back. |
| Reachability.LinksAreEntries | go/vumitools/routing_table.py:317-352 | One connector links to another exactly if some entry leads from one of its endpoints to one of the other's. |
| Reachability.ReachableIsLeastClosed | go/vumitools/routing_table.py:317-352 | A set is what is reachable by chains of entries if and only if it is closed (targets of the source; targets of the far side of every router in it) and contained in every closed set. |
| Reachability.Duality | go/vumitools/routing_table.py:317-389 | For every table and all connectors, following entries forwards from `a` finds `b` exactly when following them backwards from `b` finds `a`. |
| Reachability.TransitiveTargets | go/vumitools/routing_table.py:317-352 | The worklist search terminates on every table, cycles included, and returns exactly the reachable connectors, although the seen-set is seeded with an object that no later string equals. |
| Reachability.TransitiveSources | go/vumitools/routing_table.py:354-389 | The backwards search terminates and returns exactly the connectors that lead to the destination. |
| Reachability.Expand | go/vumitools/routing_table.py:341-351 | One round records all connectors found and queues exactly the far sides of routers that were not seen before. |
| Reachability.NewlySeen | go/vumitools/routing_table.py:338-351 | A round that queues anything uses up part of the finite set of strings that can ever be seen. |
| Messages.Message.PushSource | go/vumitools/routing.py:91-104 | Appends a half hop, and refuses when one is pending already. |
| Messages.Message.PushDestination | go/vumitools/routing.py:106-117 | Completes the pending half hop and nothing else; refuses when there is none. |
| Messages.Message.NextHop | go/vumitools/routing.py:119-139 | The source of the outbound hop that the event undoes next, provided that the event came from that hop's destination. |
| Dispatching.Dispatcher.AcquireSource | go/vumitools/routing.py:516-574 | Works out the source connector from the connector type and the message's metadata and pushes it as a hop; a connector type that the direction does not allow is refused as such. |
| Dispatching.Dispatcher.FindDestination | go/vumitools/routing.py:440-510 | Checks the allowed types, then writes the destination's metadata, transport name and transport type included, and finds the connector that the configuration names for it (`Journeys.NamedFor`); each refusal leaves what was written before it. |
| Dispatching.Dispatcher.Deliver | go/vumitools/routing.py:440-514 | Finding the destination, completing the hop, storing and publishing, for every target, direction and message state. |
| Dispatching.Dispatcher.PublishOutbound | go/vumitools/routing.py:651-663 | An outbound message is stored exactly when it leaves on a transport connector and such messages are to be stored; the copy is the message before the endpoint is stamped on it. |
| Dispatching.Dispatcher.ProcessInbound | go/vumitools/routing.py:710-760 | One inbound pass: account, the opt-out verdict where none was given before, connector type, source, then billing, opt-out or the routing table. |
| Dispatching.Dispatcher.SendInbound | go/vumitools/routing.py:738-760 | The inbound choice between billing, the opt-out worker, and lookup from the tag or from the source. |
| Dispatching.Dispatcher.ProcessOutbound | go/vumitools/routing.py:762-817 | One outbound pass. |
| Dispatching.Dispatcher.SendOutbound | go/vumitools/routing.py:785-817 | The outbound choice between opt-out replies, traffic back from billing, and the routing table. |
| Dispatching.Dispatcher.SendReply | go/vumitools/routing.py:584-618 | A reply of the opt-out worker goes to the transport of the message it replies to, by way of billing if billing is on; without that message it is refused. |
| Dispatching.Dispatcher.SendFromBilling | go/vumitools/routing.py:640-649 | Back from billing the message is delivered to the transport of its tag, at the default endpoint. |
| Dispatching.Dispatcher.RouteOutbound | go/vumitools/routing.py:799-816 | With billing on, whatever is bound for a transport goes to billing with that transport's tag; everything else goes where the table says. |
| Dispatching.Dispatcher.SetEventMetadata | go/vumitools/routing.py:819-868 | Copies account, hops and routing metadata of the outbound message to the event, or fails when they are missing. |
| Dispatching.Dispatcher.ProcessEvent | go/vumitools/routing.py:870-916 | One pass of an event: metadata, the check for finished unroutable replies, source, next hop, publishing. |
| Workers.BillingWorker.ProcessInbound | go/vumitools/billing_worker.py:223-251 | Marks the message paid when a transaction was made and passes it on at the default endpoint. |
| Workers.BillingWorker.ProcessOutbound | go/vumitools/billing_worker.py:253-283 | The same outbound; a message whose credit has run out is dropped, or turned into the closing message of its session. |
| Workers.BillingWorker.HandleCreditCutoff | go/vumitools/billing_worker.py:285-293 | Only messages that continue a session survive, with the session closed and the content replaced. |
| Workers.BillingWorker.ProcessEvent | go/vumitools/billing_worker.py:295-301 | Events only have their endpoint set to the default. |
| Workers.RouterWorker.HandleEvent | go/vumitools/app_worker.py:587-593 | Publishes the event at its next router endpoint if there is one. |
| Connections.KindsAreNamed | go/vumitools/routing.py:403-418 | A connector's name stands for the first kind, of billing, applications, routers, transports and opt-out, that the configuration gives it to, and for none exactly if it is given to none. |
| Connections.TransportsAreNamed | go/vumitools/routing.py:341-344 | The connectors on which messages leave for good are those configured as transports, but not as routers' or billing's. |
| Connections.PassArrivesOnItsKind | go/vumitools/routing.py:403-510 | Where no name is given to two kinds, a published message is on a connector of its destination's kind, the kind that the worker hands it back as. |
| Connections.BillingHasAName | go/vumitools/routing.py:738-815 | A message goes to billing only where billing's connector has a name that is not empty. |
| Journeys.PassAddsHop | go/vumitools/routing.py:440-574 | A pass that publishes adds exactly one hop, from the acquired source to the target the message was destined for, and sets exactly that target's metadata. |
| Journeys.SourceIsHeld | go/vumitools/routing.py:516-566 | A message comes from a connector exactly if that is of the kind it came in on, faces it, and is the one its metadata names. |
| PassEffects.PassChanges | go/vumitools/routing.py:440-510 | What a pass changes besides the path, field by field: the account, the destination's metadata, the opt-out verdict if there was none, and `paid`, which is reset for what conversations and routers send when billing is on; content, session event and all else stay. |
| PassEffects.VerdictDecides | go/vumitools/routing.py:738-759 | An inbound message that is not on its way to billing goes to the opt-out worker exactly if the verdict says so, the one it came with or else the helper's, and otherwise where the table says. |
| Journeys.PassKeepsPath | go/vumitools/routing.py:710-817 | One pass through a valid table adds one hop, keeps the path invariant and publishes the message on the connector that the configuration names for its destination (its type's application, the router type's connector on that side, its pool's transport), if it names one. It fails only if the table has no entry for where the message stands, there is no replied-to message, or the transport is unusable, each with its own error: never because of a connector's type, a half hop or missing metadata. |
| Journeys.JourneyKeepsPath | go/vumitools/routing.py:440-574 | Over every run of a message through dispatcher, routers and billing, replies that first come from billing included, with the table replaced by any valid one between passes: each source is across the worker from the previous destination (`flip_direction` for routers), every destination has the message's direction, and the allowed-types, half-hop and metadata checks never fail. |
| Journeys.JourneyStaysReachable | go/vumitools/routing.py:710-817 | Over every run every destination is the billing detour, or is among the transitive targets of where the message started, or is the opt-out worker for an inbound message that opts out, or the replied-to transport for that worker's reply, or the transport that a reply which first comes from billing is for. Where tables are replaced on the way, the targets are those of any table that has the links of all of them. |
| EventRetrace.JourneyIsDelivered | go/vumitools/routing.py:440-514 | Every journey that ends at a transport leaves a message that can be retraced; the stored copy can be retraced too, has the same hops, and is written at a transport and nowhere else. |
| EventRetrace.PassIsDelivered | go/vumitools/routing.py:651-663 | The same of one pass, from any well-routed message. |
| EventRetrace.WorkerSuppliesStop | go/vumitools/app_worker.py:587-593 | After every pass the worker that got the event hands it back from the very stop the next check asks for. |
| EventRetrace.PassUndoesHop | go/vumitools/routing.py:870-916 | One pass undoes one more outbound hop, for every kind of worker it may come from, and publishes on the connector that the configuration names for that hop's source. |
| EventRetrace.EventUndoesHops | go/vumitools/routing.py:870-916 | After `p` passes the event's hops are the last `p` outbound hops, reversed and swapped, it has the message's account and tag, and it was published on the connector named for the last of them; the routing table takes no part. |
| EventRetrace.WrongEndpointIsRefused | go/vumitools/routing.py:119-139 | The first pass succeeds if and only if the event comes in on the endpoint that the message went out by; else it is unroutable. |
| EventRetrace.NoHopBeyondSource | go/vumitools/routing.py:870-916 | With all hops undone the next pass is refused, or finished for replies to unroutable messages; no worker sends the event on. |
| EventRetrace.EventReturnsToSource | go/vumitools/routing.py:119-156 | The whole retrace: in exactly as many passes as there are hops the event is at the message's first source, on the connector named for it, with the source's metadata, the message's account and all hops undone, and no further pass publishes it. It fails only for a reply to an unroutable message whose path repeats its first hop, and then always. |
| EventRetrace.StopsAtRepeat | go/vumitools/routing.py:173-192 | Such an event is taken to be finished as soon as it undoes a copy of the first hop. |
| PassEffects.EventLearns | go/vumitools/routing.py:819-868 | An event that knows its hops, account and tag keeps them; any other gets them from its message, and is refused exactly if that cannot be found or lacks a tag, or an account it needs. |
| PassEffects.EventChanges | go/vumitools/routing.py:870-916 | A published event is what it has learnt with one more hop and its destination's metadata, and nothing else is changed. |
| PassEffects.ReplyWithoutHopsIsDone | go/vumitools/routing.py:134-156 | An event about a reply that went straight to a transport is finished at once. |
| EventRetrace.LoopingReplyIsDropped | go/vumitools/routing.py:173-192 | A journey of such a reply: through a valid table, from a router to another one, back, and over the same hop again to the transport, each pass publishing it on a connector. The event about it never gets back to the source. |
| BillingDetour.MergedAppend | go/vumitools/routing.py:619-649 | Merging detours may be done path by path, as long as no path is cut inside a detour. |
| BillingDetour.PassToBilling | go/vumitools/routing.py:619-638 | With billing on, a detouring pass adds a hop to billing and carries the transport's tag, in both directions. |
| BillingDetour.PassSamePath | go/vumitools/routing.py:785-816 | One pass with its detour ends where the pass with billing off ends, opt-out traffic included, and leaves the same copy in the store but for its endpoint and the detours in its hops; it stops if and only if billing drops the message. |
| BillingDetour.BillingIsTransparent | go/vumitools/routing.py:738-816 | Over whole journeys: with billing on, the message stops if and only if billing drops it at some detour. Otherwise, with its detours merged, the path with billing on is the path with billing off, with the same end, for all tables met on the way and whatever routers do. |
| BillingDetour.DetourForgetsEndpoint | go/vumitools/routing.py:640-649 | With a table entry that leads to a transport, and unless billing drops the message, the detour arrives where the table said if and only if that was the default endpoint. |
| PassEffects.BillingStopsExactly | go/vumitools/billing_worker.py:253-293 | Billing drops a message exactly if it is outbound, credit has run out, and it is not part of a session that was opened before. |
| PassEffects.BilledIsRight | go/vumitools/billing_worker.py:223-293 | What billing hands back counts as paid if it was charged for, is closed with an apology if credit has run out, and is otherwise as it was. |
| PassEffects.DetouredIsPaid | go/vumitools/routing.py:785-816 | What a conversation or a router sends to a transport leaves as paid exactly if billing charged for it, whatever it said of itself before. |
| RoutingUpdates.CheckRoutingTable | go/api/go_api/go_api.py:188-213 | Accepts exactly the lists whose every entry links an endpoint of the account to one facing it. |
| RoutingUpdates.AcceptsFacingEndpoints | go/api/go_api/go_api.py:164-213 | An entry is accepted exactly if both its ends are endpoints of the account, default or extra ones on their side of a worker, and face each other. |
| RoutingUpdates.ExtraEndpointsFace | go/api/go_api/api_types.py:163-190 | From the side of a router that faces conversations, an extra endpoint may lead to one exactly if it is an extra outbound endpoint. |
| RoutingUpdates.ParseOfUuid | go/api/go_api/api_types.py:44-51 | An endpoint's identifier reads back as that connector and endpoint if and only if its names hold none of the separators. |
| RoutingUpdates.AddUnparsed | go/vumitools/routing_table.py:231-241 | Adding an entry given as strings fails exactly when a string does not parse or the directions agree. |
| RoutingUpdates.PopulateRoutingTable | go/api/go_api/go_api.py:215-227 | Fails exactly when some entry does not parse; otherwise the table holds the last target of each source. |
| RoutingUpdates.ReadBackIsSubmitted | go/api/go_api/go_api.py:70-83 | What is read back are exactly the submitted entries that no later entry with the same source replaces. |
| RoutingUpdates.AcceptedTableIsRoutable | go/api/go_api/go_api.py:164-227 | An accepted table is valid, has no entry leading to billing, and leads to transports at the default endpoint only: what the routing theorems ask of a table. |
| RoutingUpdates.UpdateRoutingTable | go/api/go_api/go_api.py:157-241 | The whole update: refused by the check if and only if some entry does not link facing endpoints of the account; after that saved if and only if every entry parses, as the valid table of the last target for each source. Where names hold no separators `add_entry` never raises, the saved table is routable, and reading it back gives the submitted entries, the last one winning. |
| BulkSend.KeyedSendIsResumable | go/apps/bulk_message/vumi_app.py:116-152 | With contact keys as the store makes them, never empty: after any number of crashes anywhere and one completed run, the log with adjacent repeats collapsed is the uninterrupted log, and longer by at most one message for each crash. |
| BulkSend.BulkSender.SendTo | go/apps/bulk_message/vumi_app.py:146-149 | The message and then the marker are written, unless the worker dies first. |
| BulkSend.BulkSender.Run | go/apps/bulk_message/vumi_app.py:116-152 | The command's loop, for every place where it may be interrupted: sends what remains after the marker, in order, the marker following behind, and clears the marker only at the end. |
| BulkSend.SentExactly | go/apps/bulk_message/vumi_app.py:128-149 | A message is sent exactly if it is a contact's, to the contact's address, and, if addresses are to be deduplicated, no earlier contact has that address. |
| BulkSend.NoAddressTwice | go/apps/bulk_message/vumi_app.py:133-137 | With deduplication no two messages go to one address. |
| BulkSend.EachAddressReached | go/apps/bulk_message/vumi_app.py:133-137 | With deduplication every contact's address is sent to, for the contact or one with a smaller key. |
| BulkSend.EachContactOnce | go/apps/bulk_message/vumi_app.py:128-149 | Without deduplication there is exactly one message for each contact, in their order, to its own address. |
| BulkSend.NextContact | go/apps/bulk_message/vumi_app.py:128-149 | What an interrupted loop has still to send is what the uninterrupted loop sends after the marker; skipped contacts still count as seen. |
| BulkSend.EmptyKeyStartsOver | go/apps/bulk_message/vumi_app.py:139-144 | A marker holding the empty string, which is not a key that the contact store makes, would count as none: with an empty first key and two messages there is a crash after which messages are repeated out of turn. |
| BulkSend.ResumedSendIsComplete | go/apps/bulk_message/vumi_app.py:116-152 | For sorted unique keys, any addresses and either setting of `dedupe`, the send is resumable if and only if no key is empty or only one message is sent. |
| ConcurrencyLimits.ConcurrencyLimiter.CheckConcurrent | go/apps/http_api_nostream/vumi_app.py:112-118 | Fires the first waiter when there is one and there is room for it. |
| ConcurrencyLimits.ConcurrencyLimiter.Start | go/apps/http_api_nostream/vumi_app.py:126-145 | Fires at once without a limit, never with a limit of zero, and else queues and checks. |
| ConcurrencyLimits.ConcurrencyLimiter.Stop | go/apps/http_api_nostream/vumi_app.py:147-161 | Fails when nothing is active; else frees a place and checks. |
| ConcurrencyLimits.ConcurrencyLimitManager.Start | go/apps/http_api_nostream/vumi_app.py:189-198 | Changes the named key as a permanent limiter would and no other key; keeps no idle limiter. |
| ConcurrencyLimits.ConcurrencyLimitManager.Stop | go/apps/http_api_nostream/vumi_app.py:200-209 | The same for stopping. |
| ConcurrencyLimits.LimitIsKept | go/apps/http_api_nostream/vumi_app.py:112-161 | Over every legal run and for every key: exactly min(starts, stops + limit) operations fired, in start order; never more than `limit` active; nobody waits while there is room. |
| ConcurrencyLimits.SpecialLimits | go/apps/http_api_nostream/vumi_app.py:126-161 | Without a limit everything fires at once; with a limit of zero nothing ever does. |
| ConcurrencyLimits.RunAll | go/apps/http_api_nostream/vumi_app.py:178-209 | The manager, which deletes idle limiters, behaves over every legal run as a total map of permanent limiters. |
| ModelCache.ModelObjectCache.EvictModelEntry | go/vumitools/model_object_cache.py:14-19 | Takes the key out of both dictionaries; fails when it is in either of them no longer. |
| ModelCache.ModelObjectCache.ScheduleEviction | go/vumitools/model_object_cache.py:21-31 | Sets a timer unless the key has one. |
| ModelCache.ModelObjectCache.ModelFetched | go/vumitools/model_object_cache.py:44-64 | A fetched model is stored and timed, or only returned when the time to live is not positive. |
| ModelCache.ModelObjectCache.Cleanup | go/vumitools/model_object_cache.py:33-42 | Cancels all timers, overdue ones included, and evicts all models, in any order of the keys, without failing. |
| ModelCache.CleanupLeavesNothing | go/vumitools/model_object_cache.py:33-42 | Cleaning up a consistent cache succeeds and leaves no model, no evictor and no pending timer. |
| ModelCache.StepKeepsConsistent | go/vumitools/model_object_cache.py:14-64 | Every event that can happen, the clock passing any deadline included, succeeds and keeps models, evictors and pending timers in step. |
| ModelCache.EveryInterleaving | go/vumitools/model_object_cache.py:14-64 | Over every interleaving of lookups, fetch completions, timers and cleanups, however late timers fire: nothing fails, models and evictors have the same keys, a cached model was stored at most the time to live ago plus what its timer is late, and a time to live of zero or less stores nothing. |
| ModelCache.PromptTimersKeepFresh | go/vumitools/model_object_cache.py:14-64 | While no timer is overdue, a cached model was stored at most the time to live ago. |
| ModelCache.ServedIsLastFetched | go/vumitools/model_object_cache.py:44-64 | Over every run the model served for a key is the one that was fetched for it last, stored when it was fetched. |
| ModelCache.EntriesLiveOut | go/vumitools/model_object_cache.py:21-31 | Over every run a key's timer is due exactly the time to live after the key came into the cache, and has stayed there since; fetching it again does not put that off. |
| Credits.RoundHalfEven | go/billing/models.py:83-93 | The nearest integer; of two equally near ones the even one; integers stay. |
| Credits.RoundingBound | go/billing/models.py:149-167 | For every price, message and conversion factor, the charge differs from the sum of its separately rounded parts by at most two quanta. |
| Credits.BoundIsMet | go/billing/models.py:149-167 | A price and factor for which it differs by two: the bound cannot be improved. |
| Credits.DefaultFactorIsExact | go/billing/models.py:149-167 | With factor 10 and prices as the database stores them, the charge is exactly the sum of its parts. |
| Credits.MarkupIsCharged | go/billing/models.py:83-93 | A markup is charged on everything: with stored prices and factor 10 the charge is to the one without markup as 100 plus the markup to 100, for every markup. |
| Credits.MarkupIsNearlyCharged | go/billing/models.py:83-93 | With any prices and any factor the same, within the rounding of both charges. |
| Credits.ListPriceIsCharged | go/billing/models.py:149-167 | Without a markup the charge is the sum of the message's, its storage's and its session's costs times the factor, to half a quantum. |
| Credits.StartedUnitsAreCharged | go/billing/models.py:140-147 | A session's length costs the least number of units that covers it, at the price of a unit. |
| LowCredit.CreateNotificationMapping | go/billing/api.py:112-134 | The table has the least level at or above every percentage if and only if no level below the highest is repeated. |
| LowCredit.LevelIsLeastAbove | go/billing/api.py:417-435 | For every percentage, inside the table or not, the level found is the least one at or above it. |
| LowCredit.CeilPercentIsLeast | go/billing/api.py:437-438 | The percentage of a balance is the least whole one that the balance is no more than. |
| LowCredit.LevelOfBalance | go/billing/api.py:417-438 | After a positive top-up a balance stands at the least configured level that it is no more than, of what the top-up left. |
| LowCredit.AlertsTellLevel | go/billing/api.py:417-471 | Over every run of non-negative charges while the last top-up balance is positive, from whatever balance it starts, the alerted levels strictly fall, none fails, and the last one is the current level whenever that is not the first. |
| LowCredit.AlertsTellLevelExactly | go/billing/api.py:417-471 | Over all runs of charges from a top-up on, this holds if and only if the balance after the top-up was positive, or no configured level is as high as 100 percent. |
| LowCredit.NegativeTopUpFails | go/billing/api.py:417-471 | After a top-up that leaves a negative balance, where some level is 100 percent or more, a charge is given, made from that very balance, whose alert fails. |
| LowCredit.NothingToAlert | go/billing/api.py:417-471 | After such a top-up with all levels below 100 percent no run of charges alerts about anything, and none fails. |
| Ledger.Account.CreateTransaction | go/billing/api.py:219-394 | Refuses for want of a price; cuts off an outbound message exactly if the cutoff is on and what is left is not even a percentage point below the lowest level of the last top-up balance; raises if there is no level to compare to or the alert fails; and then changes nothing. Otherwise it writes the message's transaction, takes its credits off the balance, and says whether credit has run out now and which alert is due; without a top-up to compare to, neither. |
| Ledger.Account.LoadCredits | go/billing/django_utils.py:146-160 | A top-up adds its transaction and its amount, and becomes the last top-up balance. |
| Ledger.CutoffIsLowestLevel | go/billing/api.py:275-284 | With the configured levels, a positive top-up and integer amounts: credit has run out exactly if a hundred times the balance is at most the lowest level less one times the top-up balance. |
| Ledger.StoredLengthIsNearest | go/billing/models.py:374-376 | A session's length is stored as the nearest number of thousandths, ties away from zero. |
| AccountAlerts.ChargeAll | go/billing/api.py:219-471 | Any sequence of requests between two top-ups, refused and failing ones included: the levels alerted are those of the charges that were made, so with a positive top-up balance they strictly fall and the last one tells where the account's balance stands. |
| AccountAlerts.AnswerIsRecorded | go/billing/api.py:368-471 | One request keeps the record: the balance is the start less the charges, and the alerts so far are those of the charges. |
| Summaries.Summary.Incr | go/billing/django_utils.py:92-108 | Counts the model and adds its values to the totals; missing values do not count as zero. |
| Summaries.Summaries.Ensure | go/billing/django_utils.py:50-61 | Finds the key's summary or makes an empty one, sharing no summary between keys. |
| Summaries.Summaries.Incr | go/billing/django_utils.py:40-48 | One more model in the summary of its key and in no other. |
| Summaries.Summaries.Serialize | go/billing/django_utils.py:71-78 | One row for each key, with the totals of its models, in the order of the keys. |
| Summaries.Summarize | go/billing/django_utils.py:163-170 | One row for each key of the models, each with the count and totals of exactly the models with that key, in the order of the keys. |
| Summaries.SummariesConserve | go/billing/django_utils.py:35-108 | The rows' credits add up to the models' credits. |
| Statements.KeysAreOrdered | go/billing/django_utils.py:71-78 | The keys that statements are grouped by, compared field by field with missing values first, are totally ordered, so there is one order of the rows. |
| Statements.MessagesInOrder | go/billing/django_utils.py:71-78 | The rows for messages are ordered by tag pool, then tag, provider, direction, cost, credits and markup, unknown providers first. |
| Statements.SessionsInOrder | go/billing/django_utils.py:71-78 | Those for sessions by tag pool, tag, provider, cost, credits and markup. |
| Statements.LengthsInOrder | go/billing/django_utils.py:71-78 | Those for session lengths by tag pool, tag, provider, unit time, unit cost and markup, missing ones first. |
| Statements.StorageInOrder | go/billing/django_utils.py:71-78 | Those for storage by cost and credits. |
| Statements.GroupsAreAlike | go/billing/tasks.py:46-120 | Two transactions are in one group of a category exactly if they agree in all fields that the category selects by. |
| Statements.GroupCost | go/billing/tasks.py:143-193 | The summed cost of every group is its units at the one price that all its transactions have. |
| Statements.ItemIsExact | go/billing/tasks.py:259-306 | For every group units times unit cost is exactly the cost, the unit cost is the transactions' own price, session-length units are whole, and nothing is divided by zero. |
| Statements.GenerateStatementItems | go/billing/tasks.py:309-352 | The items are those of messages, sessions, session lengths and storage, in that order, one for each group, and within a category in the order of the groups' keys. |
| Statements.StatementTotals | go/billing/tasks.py:309-352 | The credits of a statement are what its transactions bring to the four categories. |
| StatementCredits.WrittenIsPriced | go/billing/models.py:140-147 | The session-length cost the billing API writes is a whole number of started units at the unit price, and never with a unit price of zero. |
| StatementCredits.StatementItemIsExact | go/billing/tasks.py:167-193 | Session-length units, recovered by dividing a summed cost by the unit cost, are the integer sum of the sessions' ceilings. |
| StatementCredits.ItemShowsItsEvents | go/billing/tasks.py:123-306 | Every charge that has a part in an item is shown by it: the item has its tag as the channel, its tag pool's name and channel type, its unit price, and a description that reads as its direction or unit time and its provider. |
| StatementCredits.CreditsFollowCosts | go/billing/api.py:243-256 | In what is written for a charge the credits of every part are those for its cost with the markup written beside them. |
| StatementCredits.EventConserves | go/billing/api.py:243-256 | One charge is what its transaction brings to the statement plus the session length that is dropped: exactly with stored prices and the default factor, to two quanta with any. |
| StatementCredits.StatementConserves | go/billing/tasks.py:344-352 | The credits on a statement and those dropped are exactly what was taken off the balance, with stored prices and the default factor. |
| StatementCredits.StatementNearlyConserves | go/billing/tasks.py:344-352 | With any prices and any factor they differ by at most two quanta for each charge. |
| StatementCredits.BalanceIsStated | go/billing/api.py:352-363 | A statement over all transactions of an account explains its balance: opening balance and top-ups, less the items' credits and what was dropped. |
| StatementCredits.StatementIsComplete | go/billing/tasks.py:101-120 | The items' credits equal the total taken if no session with a priced length lasted less than half a millisecond, which is stored as a length of zero and left out; and only then, where no unit price and no mark-up takes a charge below zero. Unit lengths and sessions may be negative. |
| StatementCredits.AllStatementsAreComplete | go/billing/tasks.py:101-120 | For prices of any sign: the statements of an account after each of its transactions all have the total taken until then if and only if no such session was that short. |
| StatementCredits.BriefSessionIsDropped | go/billing/tasks.py:101-120 | Such a session: of the ten credits charged for four tenths of a millisecond nothing gets onto a statement. |
| Ordering.SortingIsStable | go/billing/views.py:13-15 | Sorting orders by key and leaves values with the same key in the order they came in. |
| Ordering.LeIsLexicographic | go/billing/views.py:13-15 | Text is ordered by the first character that differs, and before what it is the beginning of. |
| Invoices.GroupByCollects | go/billing/views.py:13-15 | `groupby` gives ascending keys without repeats, and under each exactly the values with that key, in their order; no value is lost. |
| Invoices.SectionsConserve | go/billing/views.py:35-45 | The totals of the sections add up to the totals of the items, in cost and in credits. |
| Invoices.SectionsAreExact | go/billing/views.py:35-45 | Each section has exactly the items of its channel, ordered by description, and their totals. |
| Invoices.AllBillersConserve | go/billing/views.py:48-52 | The section totals of all billers add up to `totals_from_items` of all items. |
| Invoices.BillersFromItems | go/billing/views.py:48-64 | All billers, by name, the system biller last if there is one; moving it changes neither the billers nor the totals. |
| Invoices.InvoiceIsExact | go/billing/views.py:35-64 | Each section of each biller has exactly the items of that biller and that channel. |
| Invoices.SectionHoldsItems | go/billing/views.py:35-64 | An item is in a section as often as it is on the statement if it is billed by that biller and on that channel, and else not at all; a section's items are in the order of their descriptions. |
| Invoices.BillerShowsChannelType | go/billing/views.py:48-52 | A biller is shown with the channel type of its first item. |
| Invoices.InvoiceIsComplete | go/billing/views.py:22-64 | From charge to invoice: the credits of all sections of all billers equal the total taken off the balance if no session was too short to be stored, and only then, where no unit price and no mark-up takes a charge below zero. |
| Currency.FormatCurrency | go/base/utils.py:216-257 | The text that popping digits and reversing pieces gives is sign, symbol, grouped digits, point and padded fraction, for every value, negative zero included, every rounding mode, number of places and set of symbols. |
| Currency.BuildWhole | go/base/utils.py:246-254 | The loop with the counter groups the digits in threes from the right and prints a zero where there are none. |
| Currency.BuildFraction | go/base/utils.py:242-243 | The first loop prints exactly the last `places` digits, padded with zeros, and leaves the rest. |
| Currency.AllPlacesRead | go/base/utils.py:236-254 | The digits before and behind the point, read together, are the scaled number, for every number of places. |
| Currency.GroupedInThrees | go/base/utils.py:246-254 | The whole digits are a first group of one to three digits and further groups of exactly three, with a separator between any two. |
| Currency.ReadBack | go/base/utils.py:216-257 | Taking off the signs, stripping the separators and reading the digits gives back the sign, the scaled number and the number of places, for every style with single-character separators, no digits in its symbols and signs that differ. |
| Currency.ReadBackExactly | go/base/utils.py:216-257 | With such separators and symbols all amounts can be read back if and only if the signs differ or there is a trailing one. |
| Currency.QuantizedIsNear | go/base/utils.py:235-236 | The number printed is within one unit of the last place of the value, and by default cut off toward zero. |
| Currency.QuantizedKeepsMode | go/base/utils.py:235-236 | Each of the eight rounding modes keeps its promise: toward or away from zero, toward positive or negative infinity, to the nearest with its rule for ties, or away from zero on a last digit of 0 or 5. |
| Currency.ModesDecide | go/base/utils.py:235-236 | No two numbers keep the same mode's promise for one value. |

## Left out

- Riak, Redis, AMQP, HTTP, Twisted deferreds, Django views and forms, Celery, e-mail and S3: each store operation is an atomic step on a value, and what a lookup finds (a stored outbound message, the tag of the message that is replied to, a contact's address, a price, a fetched model) is a parameter.
- Termination of message forwarding: cyclic tables are legal, and a journey may be of any length. Termination is claimed for events and for the two searches.
- The reply that is generated for an unroutable inbound message (go/vumitools/routing.py:667-703); events about such replies are modelled.
- Dispatching.Dispatcher.Deliver: a message for a type of conversation or router that the configuration maps to no connector ends with no connector; what becomes of it there is up to the worker framework, which is not part of this model. `PassKeepsPath` says exactly when that happens.
- Dispatching.Dispatcher.ProcessInbound: what the opt-out helper says of a message that it has not seen before is a parameter; the rules it goes by are not part of this model.
- Stored tables that hold connector strings which do not parse: tables are keyed by connector values, and the bijection between clean connectors and their strings is proved in `Connectors`.
- Sharing of one hop list between a message and its stored copy: a message's view is a value, and the copy is the message as it is when it is stored.
- Messages.Message.NextHop: the next hop is a stop, whose connector the source keeps as a string.
- An outbound hop that was stored without a destination: the source raises a TypeError in `next_router_endpoint`, the model finds no endpoint.
- BillingDetour.BillingIsTransparent: asks that tables lead to transports at the default endpoint, that messages come in from transports at the default endpoint and that no tag pool names a billing connector as its transport; `DetourForgetsEndpoint` shows that the first of these is needed, and accepted tables meet it. A detour meets the same table as the pass it belongs to.
- Finding the account, its channels, routers and conversations in the store, and the campaign argument of the API call.
- BulkSend.BulkSender.Run: contact keys are taken as sorted and unique, which the source establishes with `sort` and says of its contact store; the marker's expiry after a week and crashes after it is cleared are left out.
- The sends of one window: they are a log; flow control of the window manager is not part of this model.
- Callbacks that run inside `callback` on a waiter, before `_check_concurrent` returns; tickets stand for deferreds.
- The `get_cost` SQL: the price that it finds is a parameter, and an account without a row is not part of this model.
- Races between `load_account_credits`, which reads and then writes, and charges: the ledger takes one operation at a time.
- Decimal contexts with 28 digits and the float conversion in `_ceil_percent`: numbers are exact.
- What a failing alert or a missing level leaves behind outside the database, which takes its own changes back.
- LowCredit.CreateNotificationMapping: levels come sorted; the source sorts them first.
- Statements.GenerateStatementItems: transactions have session-length costs that are whole numbers of units, as the billing API writes them (`WrittenIsPriced`); dates, statement rows and the account fee item are not part of this model.
- Transactions with a direction other than inbound and outbound, and with missing costs or credits, which the API does not write.
- Line items without a biller, which `generate_statement_items` does not make.
- Currency.FormatCurrency: numbers of places below zero are not part of this model.
- Currency.ReadBack: separators are single characters, as they are wherever amounts are printed.
- Scheduler, token manager, metrics, streaming backlog, contact merges: they would only add easier members.
