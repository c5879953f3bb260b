# A verified model of the MQTT protocol engine

The engine speaks MQTT 3.1.1 and 5.0 without doing any I/O: every call changes one connection record and
returns a list of events for the host (send this packet, hand this packet over, set this timer, this
identifier is free again). This project models that engine and proves what it promises over every run.

* `Packets.dfy` holds packets, frames and events.
* `Engine.dfy` specifies every operation of the connection, for both versions, as a function from state and
  argument to new state and events. A failed assert, unwrap or unreachable arm of the implementation shows
  up as the flag `panicked`.
* `Connection.dfy` is the connection as an object. It owns an identifier pool, a packet store, the two alias
  tables and a packet builder, works step by step with the loops of the implementation, and is proved to
  compute exactly the functions of `Engine.dfy`, down from the bytes it is fed. `ValueAllocator.dfy`,
  `PacketIds.dfy`, `TopicAlias.dfy`, `AliasMaps.dfy`, `Store.dfy` and `PacketStore.dfy` are those parts.
* `ExactlyOnce.dfy` and `FlowControl.dfy` join two connections by FIFO channels and prove exactly-once
  delivery (section 4.3.3 of MQTT 3.1.1) and flow control (section 4.9 of MQTT 5.0) for every interleaving.
  `AliasAgreement.dfy` does the same for topic aliases (section 3.3.2.3.4 of MQTT 5.0). `Qos2.dfy` says what
  one call does to the QoS 2 exchanges, `Tokens.dfy` counts the packets of an exchange, `Traffic.dfy` picks
  packets and notifications out of an event list, and `Handshake.dfy` reaches the starting states by calls.
* `Laws.dfy`, `Session.dfy`, `Runs.dfy`, `Releases.dfy`, `Retransmission.dfy`, `Duplicates.dfy` and
  `Restoring.dfy` prove what every call keeps and what follows for whole runs: timers, released identifiers,
  the order of a server's packets, consistency of identifiers and store, retransmission order, the duplicate
  filter, restoring.
  They rest on `Frames.dfy`, which says what each operation of the engine can change.
* `Receptions.dfy`, `Sendings.dfy`, `Settings.dfy`, `Holdings.dfy` and `Tables.dfy` together fix every call, in both
  versions and from any state, by tables that call no operation of the engine: what the host is handed and what goes
  out, with which timers; the session, the limits, the intervals and the duplicate filter; where every identifier
  stands and what is stored under it; and what every topic alias stands for. `AtLeastOnce.dfy` joins two ends again
  and proves at-least-once delivery (section 4.3.2 of MQTT 3.1.1).
* `Session5.dfy`, `SendCount.dfy` and `Panics.dfy` do the same for what v5.0 adds and breaks: which calls put
  identifiers and store out of step, what the send count counts after a reconnection, and which calls panic.
  `Boundaries.dfy` and `Abandonment.dfy` settle further edges, and `Mishaps.dfy` reaches the failures by calls from a
  new connection.
* `Framing.dfy`, `Vbi.dfy`, `Fields.dfy`, `Properties.dfy`, `PublishCodec.dfy`, `ConnectCodec.dfy` and
  `Wire.dfy` cover the way from bytes to packets and back.

Some promises do not hold as one would expect. For each the exact condition is proved under which it does,
with an input on which it does not:

| what fails | exactly when | an input |
|---|---|---|
| v5.0: identifiers, acknowledgement sets and store fall out of step | `Session5.StepKeepsIff`, `Releases.OrphanIff` | `Mishaps.OrphanedIs`, `GivenBackTwice`, `ConnackWipes`, `PubrelUnawaited`, `CloseForgets` |
| v5.0: publishing again under an identifier that was given back panics | `Panics.SendPanicsIff`, `Releases.OrphanIff` | `Mishaps.ReusePanics` |
| v5.0: a call panics | `Panics.StepPanicsIff`, `Panics.RunPanicsIff` | `Mishaps.ResentUnderflows`, `ConnectPanics`, `PublishPanics5` |
| v5.0: an identifier is reported free that was free already | `Releases.ReleaseLawIff`, `Releases.ReleasesCounted` | `Mishaps.GivenBackTwice` |
| v5.0: the send count underflows, as resent packets are not counted and their acknowledgements are | `SendCount.AckPanicsIff`, `SendCount.SendCountLaw` | `Mishaps.ResentUnderflows` |
| freeing a value twice overflows | `ValueAllocator.OverflowIff` | `Mishaps.GivenBackTwice` |
| a CONNACK is believed in every status and may wipe out awaited requests | `Session.ConnackKeepsIff`, `Session5.ReceiveConnackIff` | `Mishaps.ConnackWipes` |
| automatic topic alias mapping loses the topic | `AliasAgreement.UnderstoodIff` | `AliasAgreement.AutoMapMisdelivers` |
| a binding is recorded before the quota refuses the packet that carries it | `AliasAgreement.UnderstoodIff` | `Mishaps.BindingUnheard` |
| the will QoS, will retain after several `will_message` calls | `ConnectCodec.WillQosIff`, `WillRetainIff` | `WillQosLost`, `WillRetainKept` |
| bodies with a four-byte length, which section 2.2.3 of MQTT 3.1.1 allows, are refused by `feed` | `Framing.StreamRoundTrip` and `LongBodyRefused` | every body of 128^3 bytes or more |
| `build` of a PUBLISH panics: the payload is checked, the sum is not | `PublishCodec.BuildPanicsIff` | `PublishCodec.BuildPanics` |
| a received v5.0 CONNECT panics | `Boundaries.ConnectPanicsIff` | `Mishaps.ConnectPanics` |
| a received PUBLISH panics, as its automatic response does not build | `Session.PublishPanicsIff`, `Boundaries.PublishPanicsIff5` | `Mishaps.PublishPanics`, `Mishaps.PublishPanics5` |
| a new session swallows a QoS 2 message, as `clear_store_related` leaves the filter alone | `Boundaries.NewServerSession`, `NewClientSession` | `Mishaps.NewSessionSwallows` |
| a publish is taken and then neither sent nor stored | `Retransmission.PublishLostIff`, `Boundaries.PublishLostIff5` | `Mishaps.PublishLost` |
| v3.1.1: an open exchange is dropped without a report | `ExactlyOnce.LostWithoutSession` | `Mishaps.MessageLost` |
| v3.1.1: an identifier is not given back | `ExactlyOnce.AbandonedIff`, `Abandonment.StaysAbandoned` | `Mishaps.IdentifierAbandoned` |

Where code and documentation differ the model follows the code.

## Model

| member | source | states |
|---|---|---|
| `ExactlyOnce.ExactlyOnceDelivery` | src/mqtt/connection/core.rs:2734-2751 | At every moment of every run of two v3.1.1 endpoints that started as strangers (any interleaving of host calls, deliveries, accepted and rejected connections, DISCONNECTs and cuts), in both directions and for every identifier: the receiving host was handed exactly the QoS 2 messages the sender took, in order, without repetition, except perhaps the last one while its identifier is still in use; and nothing panics |
| `ExactlyOnce.RunInv` | src/mqtt/connection/core.rs:724-787 | The invariant of the composed system holds in every state of every run |
| `ExactlyOnce.NextKeeps` | src/mqtt/connection/core.rs:1182-1199 | Every enabled move keeps the invariant: at most one packet of each exchange is under way, none while the sender is down on no network, the stored packet is the one the receiver still lacks, and handshake and channel contents go together; a CONNACK may lack the session whenever the client has no message open |
| `ExactlyOnce.SenderReceives` | src/mqtt/connection/core.rs:2993-3023 | A delivery to the sender moves each identifier from PUBREC to PUBREL to PUBCOMP without losing or doubling a packet of the exchange |
| `ExactlyOnce.ReceiverReceives` | src/mqtt/connection/core.rs:3071-3097 | A delivery to the receiver hands a QoS 2 message over exactly when it was not handed over before, and answers it |
| `ExactlyOnce.LostWithoutSession` | src/mqtt/connection/core.rs:2599-2621 | A QoS 1 or 2 exchange open while connecting, at whatever stage, is given up exactly if the accepting CONNACK brings no session: no longer awaited, not stored, its identifier free without a report |
| `ExactlyOnce.AbandonedIff` | src/mqtt/connection/core.rs:3002-3010 | An expected PUBREC leaves its identifier in use, awaited by nothing and stored nowhere exactly if there is no connection, as between DISCONNECT and the close |
| `Abandonment.StaysAbandoned` | src/mqtt/connection/core.rs:3002-3010 | In every v3.1.1 run from there the identifier stays in use and awaited by nothing, unless the host gives it back or uses it or a new session starts |
| `Mishaps.MessageLost` | src/mqtt/connection/core.rs:2610-2614 | By calls: a client that took a QoS 2 message before a CONNACK without session drops it and reports nothing but the CONNACK |
| `Mishaps.IdentifierAbandoned` | src/mqtt/connection/core.rs:3002-3010 | By calls: publish, DISCONNECT, PUBREC, and the identifier is abandoned |
| `ExactlyOnce.FirstConnection` | src/mqtt/connection/core.rs:1255-1376 | The first handshake of two strangers, with session present 0, is a run of that system and connects both ends |
| `FlowControl.QuotaExact` | src/mqtt/connection/core.rs:1651-1665 | In every run of two v5.0 endpoints on a clean connection: `publish_send_count` equals the number of QoS 1 and 2 messages sent and unfinished, stays within the peer's Receive Maximum, is above zero whenever an acknowledgement lowers it, and the next PUBLISH finds a free slot, so ReceiveMaximumExceeded is never reached |
| `FlowControl.NextKeeps` | src/mqtt/connection/core.rs:2961-2991 | Every host call and every delivery, in either direction, keeps the quota invariant |
| `FlowControl.SlotFree` | src/mqtt/connection/core.rs:2782-2787 | While a counted PUBLISH is under way the receiver has fewer open receptions than its Receive Maximum |
| `FlowControl.NoUnderflow` | src/mqtt/connection/core.rs:2976-2978 | An acknowledgement that ends an exchange finds the send count above zero |
| `FlowControl.FlowStart` | src/mqtt/connection/core.rs:1300-1345 | CONNECT and CONNACK with any Receive Maximum on each side lead to a start of those runs |
| `SendCount.SendCountLaw` | src/mqtt/connection/core.rs:1651-1665 | In every v5.0 run, reconnections included and against any peer, as long as the count has not failed: it is the number of exchanges begun under the quota since the last CONNECT and not acknowledged less the acknowledgements of others, such as resent ones, and the next acknowledgement underflows it exactly if the two are equal |
| `SendCount.StepCount` | src/mqtt/connection/core.rs:2961-2991 | Every v5.0 call: a CONNECT sets the count to 0, a PUBLISH that is not turned away adds one, an expected ending acknowledgement takes one off, anything else leaves it |
| `SendCount.AckPanicsIff` | src/mqtt/connection/core.rs:2976-2978 | An expected PUBACK, PUBCOMP or failing PUBREC panics exactly if there is a quota and the count is 0 |
| `Mishaps.ResentUnderflows` | src/mqtt/connection/core.rs:2976-2978 | By calls: publish, lose the connection, resume the session under a Receive Maximum, and the PUBACK of the resent message panics |
| `Framing.PacketBuilder.constructor` | src/mqtt/connection/packet_builder.rs:120-129 | A new builder is in the fresh state |
| `Framing.PacketBuilder.Reset` | src/mqtt/connection/packet_builder.rs:132-139 | Resetting gives the fresh state, whatever came before |
| `Framing.PacketBuilder.IsPublishPacket` | src/mqtt/connection/packet_builder.rs:151-153 | True exactly for packet type 3 |
| `Framing.PacketBuilder.Feed` | src/mqtt/connection/packet_builder.rs:156-262 | One call of `feed` terminates and leaves exactly the state, result and cursor position of pushing bytes one at a time until the first result |
| `Framing.PacketBuilder.TakeHeaderByte` | src/mqtt/connection/packet_builder.rs:166-216 | The header and length arms of `feed`: a fourth length byte resets the builder and is an error, a length of 0 completes a packet |
| `Framing.PacketBuilder.TakeBody` | src/mqtt/connection/packet_builder.rs:226-257 | Taking a stretch of the body equals taking its bytes one at a time |
| `Framing.PacketBuilder.ReadBody` | src/mqtt/connection/packet_builder.rs:217-259 | The payload arm of `feed` reads no further than the body |
| `Framing.PacketBuilder.FeedChunk` | src/mqtt/connection/packet_builder.rs:156-262 | Feeding a chunk until it is used up gives the results of its bytes one at a time |
| `Framing.PacketBuilder.FeedChunks` | src/mqtt/connection/packet_builder.rs:156-262 | However a stream is cut, results and final state are those of one byte at a time |
| `Framing.BytewiseIsFrames` | src/mqtt/connection/packet_builder.rs:156-262 | One byte at a time equals a simple recursive frame parser, and the builder is left with the unfinished packet and nothing else |
| `Framing.Receive` | src/mqtt/connection/packet_builder.rs:156-262 | For every stream and every cutting: exactly the packets of the simple frame parser come out |
| `Framing.StreamRoundTrip` | src/mqtt/connection/packet_builder.rs:183-221 | A stream of printed packets with bodies under 128^3 bytes reads back as those packets, in order, with nothing left over |
| `Framing.LongBodyRefused` | src/mqtt/connection/packet_builder.rs:185-191 | A body of 128^3 bytes or more, which has a four-byte length, is an error after five bytes |
| `Framing.PublishDataIsType3` | src/mqtt/connection/packet_builder.rs:194-256 | The publish form of the packet data is used exactly for packet type 3 |
| `Framing.NextDataKind` | src/mqtt/connection/packet_builder.rs:156-262 | The same for a single `feed`, from any state of the builder |
| `Framing.Cursor.ReadByte` | src/mqtt/common/cursor.rs:315-326 | Reads the next byte and advances, or reads nothing at the end |
| `Framing.Cursor.Read` | src/mqtt/common/cursor.rs:272-283 | Reads as much as there is, up to the wanted length, and advances by that |
| `Session.StepKeeps` | src/mqtt/connection/core.rs:1453-1508 | Every allowed call on a v3.1.1 connection keeps it consistent: the five acknowledgement sets are disjoint and in use, every stored identifier sits in the set its expected response names, the store is empty unless it is needed; no assert or unwrap fails |
| `Session.PublishKeeps` | src/mqtt/connection/core.rs:1481-1498 | Storing and awaiting a publish keeps consistency; the identifier is never stored twice |
| `Session.ReceivePubrecKeeps` | src/mqtt/connection/core.rs:2993-3023 | A PUBREC, expected or not, keeps consistency, also when PUBREL is sent automatically |
| `Session.ClosedKeeps` | src/mqtt/connection/core.rs:724-787 | Draining the sets on close keeps consistency, with and without a stored session |
| `Session.ConnackKeepsIff` | src/mqtt/connection/core.rs:2599-2621 | A CONNACK, in whatever status it comes, keeps consistency exactly if it does not wipe out SUBSCRIBE or UNSUBSCRIBE identifiers that are awaited |
| `Mishaps.ConnackWipes` | src/mqtt/connection/core.rs:2610-2614 | By calls: a second CONNACK without session on a connected client frees the identifier of a SUBSCRIBE that is still awaited |
| `Session5.StepKeepsIff` | src/mqtt/connection/core.rs:1510-1676 | Every allowed call on a v5.0 connection, whatever the peer sends, keeps the five sets disjoint and in use and every stored identifier in the set its response names, exactly if it is not a publish turned away late, a PUBREL stored unawaited, a resend that drops a packet, a CONNACK that wipes out awaited requests, or a close that keeps the store but not the identifiers |
| `Session5.PublishIff` | src/mqtt/connection/core.rs:1541-1661 | A v5.0 PUBLISH keeps that exactly if it is not stored or awaited first and then turned away by its alias or the quota |
| `Session5.SendStoredIff` | src/mqtt/connection/core.rs:1182-1199 | Resending keeps that exactly if every stored packet fits |
| `Session5.ClosedIff` | src/mqtt/connection/core.rs:724-787 | A close keeps that exactly if the session is stored or nothing is |
| `Session5.ReceiveConnackIff` | src/mqtt/connection/core.rs:2627-2701 | A v5.0 CONNACK keeps that exactly if it wipes out no awaited request and the stored packets fit the size it announces |
| `Mishaps.PubrelUnawaited` | src/mqtt/connection/core.rs:1767-1833 | By calls: a PUBREL for an identifier in use while the connection is down is stored and not awaited |
| `Mishaps.CloseForgets` | src/mqtt/connection/core.rs:724-787 | By calls: publish on a kept session, close, CONNECT without keeping it, close: the identifier is free and its packet still stored |
| `Session5.RunStaysConsistent5` | src/mqtt/connection/core.rs:963-975 | In every v5.0 run without such a call the agreement holds throughout and the reports of released identifiers match those that went free |
| `Session.LeastFreeInRange` | src/mqtt/connection/packet_id_manager.rs:47-51 | The acquired identifier is the least free one in range, and none is given only when all are used |
| `Runs.RunStaysConsistent` | src/mqtt/connection/core.rs:1158-1179 | No v3.1.1 run, whatever acknowledgements the peer sends, ever breaks consistency or panics |
| `Session.PublishPanicsIff` | src/mqtt/connection/core.rs:2716-2751 | A received v3.1.1 PUBLISH fails an unwrap exactly if it carries identifier 0 and is answered automatically |
| `Mishaps.PublishPanics` | src/mqtt/connection/core.rs:2716-2732 | By calls: a connected client is sent a PUBLISH with identifier 0 |
| `Boundaries.ConnectPanicsIff` | src/mqtt/connection/core.rs:2549-2568 | A received v5.0 CONNECT fails the allocator assert exactly if it is taken up and its properties hold a Topic Alias Maximum of 0 |
| `Mishaps.ConnectPanics` | src/mqtt/connection/core.rs:2555-2557 | Such a CONNECT as first packet on a new server |
| `Boundaries.PublishPanicsIff5` | src/mqtt/connection/core.rs:2890-2906 | A received v5.0 PUBLISH fails an unwrap exactly if it carries identifier 0, gets past the quota and topic checks and is answered automatically |
| `Mishaps.PublishPanics5` | src/mqtt/connection/core.rs:2890-2906 | By calls: a connected v5.0 client is sent a PUBLISH with identifier 0 |
| `ValueAllocator.CompareIsPosition` | src/mqtt/common/value_allocator.rs:65-74 | In an ordered pool the overlap-as-equal order is the order of positions, so searching by it is sound |
| `ValueAllocator.Canonical` | src/mqtt/common/value_allocator.rs:118-150 | An ordered, maximally merged pool is determined by the set of values it stands for |
| `ValueAllocator.IntervalsAreRuns` | src/mqtt/common/value_allocator.rs:179-181 | The number of intervals is the number of maximal runs of free values |
| `ValueAllocator.Allocator.constructor` | src/mqtt/common/value_allocator.rs:90-99 | A new pool holds exactly the whole range |
| `ValueAllocator.Allocator.Search` | src/mqtt/common/value_allocator.rs:65-74 | Binary search by the overlap-as-equal order finds the overlapping interval if there is one, and otherwise its place |
| `ValueAllocator.Allocator.Allocate` | src/mqtt/common/value_allocator.rs:101-112 | Gives the least free value and takes exactly it out; fails exactly when nothing is free |
| `ValueAllocator.Allocator.FirstVacant` | src/mqtt/common/value_allocator.rs:114-116 | The least free value, or none exactly when nothing is free |
| `ValueAllocator.Allocator.Deallocate` | src/mqtt/common/value_allocator.rs:118-150 | Adds exactly the value to the free set and keeps the pool sorted, disjoint and merged; freeing a free value changes nothing; no sum leaves the integer type |
| `ValueAllocator.OverflowIff` | src/mqtt/common/value_allocator.rs:134-146 | `value + 1` overflows exactly if the value is the largest of its type and free already |
| `ValueAllocator.Allocator.UseValue` | src/mqtt/common/value_allocator.rs:152-167 | Succeeds exactly for a free value and takes exactly it out |
| `ValueAllocator.Allocator.IsUsed` | src/mqtt/common/value_allocator.rs:169-171 | True exactly for values not in the free set, so also outside the range |
| `ValueAllocator.Allocator.Clear` | src/mqtt/common/value_allocator.rs:173-177 | The whole range is free again |
| `ValueAllocator.Allocator.IntervalCount` | src/mqtt/common/value_allocator.rs:179-181 | The number of maximal free runs |
| `PacketIds.PacketIdManager.AcquireUniqueId` | src/mqtt/connection/packet_id_manager.rs:47-51 | Gives the least free identifier of 1 to 65,535 and marks it used |
| `PacketIds.PacketIdManager.RegisterId` | src/mqtt/connection/packet_id_manager.rs:55-60 | Succeeds exactly for a free identifier in range |
| `PacketIds.PacketIdManager.IsUsedId` | src/mqtt/connection/packet_id_manager.rs:63-65 | Identifiers in use and identifiers out of range count as used |
| `PacketIds.PacketIdManager.ReleaseId` | src/mqtt/connection/packet_id_manager.rs:68-70 | Frees exactly the given identifier in range, in use or not; only 65,535 must be in use, where freeing it twice would overflow |
| `PacketIds.PacketIdManager.Clear` | src/mqtt/connection/packet_id_manager.rs:73-75 | No identifier is in use |
| `TopicAlias.InsertKeeps` | src/mqtt/packet/topic_alias_send.rs:74-105 | Binding an alias keeps the two maps exact inverses without duplicates or empty lists and the allocator in step, and changes that alias only |
| `TopicAlias.TouchKeeps` | src/mqtt/packet/topic_alias_send.rs:114-127 | Looking an alias up keeps all that and changes no binding |
| `TopicAlias.FindMeansPeek` | src/mqtt/packet/topic_alias_send.rs:153-159 | `find_by_topic` answers with an alias of the topic, and with none only if there is none |
| `TopicAlias.HistoryMeans` | src/mqtt/packet/topic_alias_send.rs:74-127 | After any sequence of operations every alias stands for the topic it was last bound to, and the bindings are listed from least to most recently used |
| `TopicAlias.LruIsOldest` | src/mqtt/packet/topic_alias_send.rs:178-192 | The alias to bind next is the least one never bound or, when all are bound, the one whose last insert or `get` is oldest |
| `AliasMaps.TopicAliasSend.Insert` | src/mqtt/packet/topic_alias_send.rs:74-105 | The object stays consistent and stands for the map with the new binding |
| `AliasMaps.TopicAliasSend.Get` | src/mqtt/packet/topic_alias_send.rs:114-127 | Gives the topic and makes the alias the most recently used |
| `AliasMaps.TopicAliasSend.Find` | src/mqtt/packet/topic_alias_send.rs:153-159 | An alias of the topic, and none exactly if no alias stands for it |
| `AliasMaps.TopicAliasSend.GetLruAlias` | src/mqtt/packet/topic_alias_send.rs:178-192 | The least vacant alias or else the least recently used one |
| `AliasMaps.TopicAliasSend.Clear` | src/mqtt/packet/topic_alias_send.rs:162-167 | No alias is bound and all are vacant |
| `AliasMaps.TopicAliasRecv.Insert` | src/mqtt/packet/topic_alias_recv.rs:62-68 | The alias stands for the topic, every other alias as before |
| `AliasMaps.TopicAliasRecv.Clear` | src/mqtt/packet/topic_alias_recv.rs:99-102 | No alias stands for anything |
| `AliasAgreement.UnderstoodIff` | src/mqtt/connection/core.rs:1584-1665 | One v5.0 publish on a connection whose maps agree is read as meant and keeps the maps equal if and only if automatic mapping does not pick a new alias for it and the quota does not refuse it after a new binding |
| `AliasAgreement.ReceptionResolves` | src/mqtt/connection/core.rs:2830-2889 | Reception accepts a packet under the topic its alias resolves to, learns its binding, and answers an unresolvable one with TopicAliasInvalid |
| `AliasAgreement.AliasesAgree` | src/mqtt/connection/core.rs:1584-1647 | In every run of publishes that pass the condition above, delivered in order: each packet is read as the topic it was meant for, the receiving host is handed that packet under that topic unless it is a duplicate, and once all are delivered both maps are equal |
| `AliasAgreement.AliasStart` | src/mqtt/connection/core.rs:2627-2650 | A handshake with any Topic Alias Maximum above 0 leads to a start of those runs |
| `AliasAgreement.AutoMapMisdelivers` | src/mqtt/connection/core.rs:1631-1633 | After a handshake and one publish to "a", automatic mapping sends a publish to "b" as the bare alias, and the server hands it to its host as a message for "a" |
| `Mishaps.BindingUnheard` | src/mqtt/connection/core.rs:1651-1661 | By calls: the quota refuses the PUBLISH that binds an alias, the bare alias is sent all the same, and every server whose table is still empty answers TopicAliasInvalid |
| `Laws.StepLawful` | src/mqtt/connection/core.rs:2241-2260 | Every call, in either version and against any peer: running its timer requests from the old flags gives the new flags, only armed timers are cancelled, durations are positive, and packets other than CONNACK and AUTH follow an acceptance; in v3.1.1 each reported release matches one identifier that went free |
| `Laws.PostSendLawful` | src/mqtt/connection/core.rs:2241-2260 | After sending, the PINGREQ timer is restarted with its positive interval, and the flag follows |
| `Laws.RefreshLawful` | src/mqtt/connection/core.rs:3551-3563 | Restarting the receive timer keeps flag and requests in step |
| `Laws.OtherLawful` | src/mqtt/connection/core.rs:810-831 | Setting the PINGREQ interval arms the timer, cancels an armed one or does neither, and the flag follows; the same law for releases and options |
| `Runs.TimersFollowEvents` | src/mqtt/connection/core.rs:3551-3578 | In every run of either version each timer flag is true exactly when the last request or firing of its kind left the timer armed; cancels go out only for armed timers and durations are positive |
| `Runs.ServerWaits` | src/mqtt/connection/core.rs:1350-1451 | In every run of a server, each packet sent but CONNACK and AUTH comes after an accepting CONNACK with no other CONNECT taken up in between, also within one call |
| `Releases.ReleasesMatch` | src/mqtt/connection/core.rs:963-975 | In every v3.1.1 run, whatever is reused, released, restored or received, and for every identifier: the number of release reports equals the number of times it went from used to free other than by a new session |
| `Releases.StepReady` | src/mqtt/connection/core.rs:1453-1508 | Every call keeps what that rests on: no size limit appears and every stored packet can be encoded |
| `Releases.ReleasesCounted` | src/mqtt/connection/core.rs:1182-1199 | In every run of either version, from a store without double identifiers: the reports of an identifier are the times it went from used to free and the times a stored packet of it was dropped although it was free |
| `Releases.ReleaseLawIff` | src/mqtt/connection/core.rs:1182-1199 | Resending reports exactly the identifiers it frees if and only if no packet it drops has a free identifier (65,535 aside, where that panics) |
| `Mishaps.GivenBackTwice` | src/mqtt/connection/core.rs:1182-1199 | By calls, for every identifier but the first: it is given back by a refused publish, and resuming under a small Maximum Packet Size drops its packet and reports it free again; for 65,535 that overflows |
| `Releases.StepSteps` | src/mqtt/connection/store.rs:48-55 | No call of either version stores an identifier twice |
| `Releases.OrphanIff` | src/mqtt/connection/core.rs:1541-1661 | A v5.0 PUBLISH under an identifier that is not stored leaves every stored identifier in use exactly if it is not stored and then turned away |
| `Frames.PublishPasses` | src/mqtt/connection/core.rs:1510-1676 | A v5.0 QoS 1 or 2 PUBLISH in terms of its checks: refused at once, or stored and awaited and then turned away with its identifier given back, or stored, awaited and counted |
| `Mishaps.OrphanedIs` | src/mqtt/connection/core.rs:1651-1661 | By calls: under a full quota a publish is stored, refused and its identifier given back |
| `Panics.SendPanicsIff` | src/mqtt/connection/core.rs:1541-1676 | Sending a v5.0 QoS 1 or 2 PUBLISH fails an unwrap or overflows exactly if it gets past the first checks and is to be stored under an identifier that is stored already, or under the topic of an alias that holds a wildcard, or is not turned away while the send count is 65,535 |
| `Panics.StepPanicsIff` | src/mqtt/connection/core.rs:386-1102 | Every allowed call on a v5.0 connection whose identifiers and store agree, whatever the peer sends, panics exactly if it is one of those publishes, a CONNECT or CONNACK with a limit of 0 where that is not allowed, a PUBLISH or PUBREL with identifier 0 that is answered, or an acknowledgement at send count 0; the table of sent aliases stays well-formed |
| `Panics.RunPanicsIff` | src/mqtt/connection/core.rs:386-1102 | A v5.0 run without a call that puts identifiers and store out of step gets through without a panic exactly if none of its calls is one of these |
| `Mishaps.ReusePanics` | src/mqtt/connection/core.rs:1559-1563 | By calls: for every identifier but the first, publishing again under it fails the unwrap of `store.add` |
| `Runs.UnreachableIsDead` | src/mqtt/connection/core.rs:2453-2482 | In every run in which only armed timers fire, the arms for an undetermined version are never reached |
| `Runs.NoUnreachableArm` | src/mqtt/connection/core.rs:2759-2761 | From a new connection neither those arms nor, for any stream of bytes, the arms for a PUBLISH in the wrong packet form are reached |
| `Retransmission.ResendsOutstanding` | src/mqtt/connection/core.rs:1182-1199 | Reconnecting after any v3.1.1 run resends exactly the packets still unacknowledged, in the order in which they became due, every PUBLISH with DUP set; a server sends its CONNACK first |
| `Retransmission.StoreIsOutstanding` | src/mqtt/connection/store.rs:48-113 | After every v3.1.1 run the store is exactly the list of unacknowledged packets of the history |
| `Retransmission.InOrder` | src/mqtt/connection/store.rs:110-112 | That list holds each packet that became due and was neither acknowledged nor dropped since, once, in the order of becoming due |
| `Retransmission.StepTracks` | src/mqtt/connection/core.rs:1481-1486 | Every call changes the store exactly as the events of its exchange say, PUBRELs taking their place when the PUBREC comes in |
| `Retransmission.PublishLostIff` | src/mqtt/connection/core.rs:1481-1505 | A QoS 1 or 2 publish taken without an error is neither sent nor stored exactly if there is no connection and either nothing is to be stored or, while disconnected, offline publishing is off |
| `Boundaries.PublishLostIff5` | src/mqtt/connection/core.rs:1541-1676 | A v5.0 publish that is not turned away is neither sent nor stored exactly if there is no connection and it is not stored |
| `Mishaps.PublishLost` | src/mqtt/connection/core.rs:1481-1505 | By calls: a publish after offline publishing was switched on and off again is awaited, but neither sent nor stored |
| `AtLeastOnce.AtLeastOnceDelivery` | src/mqtt/connection/core.rs:2721-2737 | In every run of two v3.1.1 endpoints that started as strangers and in both directions: every PUBACK that arrives frees its identifier, and by then the receiver's host was handed the message that the sender took last under that identifier, after it was taken |
| `AtLeastOnce.RunProgress` | src/mqtt/connection/core.rs:2961-2991 | At every moment of every run: a PUBACK is under way only for a message that was handed over, and an identifier that awaits PUBACK keeps its message stored until then |
| `AtLeastOnce.NextAck` | src/mqtt/connection/core.rs:1481-1498 | Every enabled move keeps the state of each QoS 1 exchange, whether the message was lost on the way, is under way again or was heard |
| `Receptions.ReceptionShows` | src/mqtt/connection/core.rs:2292-2486 | Everything a packet that arrives makes the engine show but cancelled timers and released identifiers, for every packet, either version and any state: the objection to it, or its answer, the receive timer at one and a half keep alives, and then the packet itself unless it is a QoS 2 duplicate; a CONNACK has the stored packets that fit sent before it is handed over |
| `Receptions.HandedOver` | src/mqtt/connection/core.rs:2703-2930 | The host is handed an arriving packet exactly once, and under the topic its alias stands for, if nothing is wrong with it and it is no QoS 2 duplicate, and nothing at all otherwise |
| `Receptions.MessageHeard` | src/mqtt/connection/core.rs:2716-2737 | A QoS 0 or 1 PUBLISH to a v3.1.1 connection in any state shows the PUBACK and the PINGREQ timer if one is due, then the receive timer, and then exactly one notification |
| `Receptions.UnreadShows` | src/mqtt/connection/core.rs:2305-2486 | A frame that does not parse or is not let through: nothing is handed over and an error comes last |
| `Receptions.BadConnectShows` | src/mqtt/connection/core.rs:2488-2597 | A CONNECT that does not parse is answered by a refusing CONNACK and a close, or is a protocol error if there was a CONNECT before |
| `Settings.StepTerms` | src/mqtt/connection/core.rs:386-1102 | Every call, in either version and from any state, leaves version, status, options, session keeping, duplicate filter, open receptions, quotas, size limits, alias maxima and timer intervals exactly at the stated values; what is not read can only cost the connection and settle the version |
| `Settings.PubrecForgets` | src/mqtt/connection/core.rs:1737-1765 | A v5.0 PUBREC takes its identifier out of the filter and the open receptions if it goes out and its reason code is 128 or more, and leaves both alone otherwise |
| `Settings.FilterIff` | src/mqtt/connection/core.rs:724-787 | After any call the filter holds an identifier exactly if its QoS 2 PUBLISH came in just now, or it held it before and neither its PUBREL came, nor such a PUBREC went out, nor a session that is not kept was closed, nor the host restored another filter |
| `Settings.KeptIff` | src/mqtt/connection/core.rs:2549-2568 | After any call the session is kept exactly if: a v5.0 CONNECT that was sent or taken up just now holds a session expiry interval above 0, a v3.1.1 one has no clean session flag; or, without a CONNECT, it was kept before or the host turned offline publishing on |
| `Settings.LimitsOfConnect` | src/mqtt/connection/core.rs:1291-1345 | A v5.0 CONNECT binds one side by the last Receive Maximum, Maximum Packet Size and Topic Alias Maximum in its list and leaves the other side without quota and aliases |
| `Settings.LimitsOfConnack` | src/mqtt/connection/core.rs:2627-2660 | An accepting v5.0 CONNACK binds the other side by the last property of each kind and keeps what it does not mention |
| `Sendings.SendingShows` | src/mqtt/connection/core.rs:386-588 | Everything a call to send makes the engine show but cancelled timers and released identifiers, for every packet, either version and any state: the one error that refuses it, or the packet with the identifier to give back if it cannot be sent, the stored packets behind a CONNACK, and the timers that start, in the order host, server, CONNECT of their intervals |
| `Sendings.RolesAgree` | src/mqtt/connection/core.rs:2270-2290 | A client may send exactly what a server takes, and the other way round |
| `Sendings.BadAliasMeans` | src/mqtt/connection/core.rs:1584-1628 | A topic alias that is sent is refused exactly if it is 0, above the peer's maximum or, without a topic, stands for nothing |
| `Sendings.RequestAwaitedIff` | src/mqtt/connection/core.rs:1876-1942 | A SUBSCRIBE or UNSUBSCRIBE is awaited, in its own set, exactly if it goes out, and goes out exactly if there is a connection that takes it and its identifier is in use |
| `Sendings.RequestAnswered` | src/mqtt/connection/core.rs:3235-3383 | The acknowledgement of a request that went out frees its identifier with one report and is handed to the host; the other kind of acknowledgement is a protocol error and frees nothing |
| `Sendings.AckEnds` | src/mqtt/connection/core.rs:3329-3383 | A SUBACK or UNSUBACK in any state: awaited, it ends the request; otherwise it is a protocol error |
| `Sendings.ExpiryShows` | src/mqtt/connection/core.rs:630-710 | The PINGREQ timer makes a connected client send PINGREQ; the other two have v3.1.1 close and a connected v5.0 end send DISCONNECT with Keep Alive timeout and close |
| `Sendings.NothingLeftArmed` | src/mqtt/connection/core.rs:3565-3579 | No timer stays armed behind a DISCONNECT in either direction, a refusing CONNACK, a framing error or a close |
| `Sendings.PingrespStops` | src/mqtt/connection/core.rs:3439-3480 | A PINGRESP stops the timer that waits for it and changes nothing else |
| `Sendings.IntervalShows` | src/mqtt/connection/core.rs:810-831 | The host's PINGREQ interval: 0 stops the timer, another value starts it on a connection, none lets it run on |
| `Sendings.ConnackStops` | src/mqtt/connection/core.rs:1390-1425 | The last server keep alive of an accepting v5.0 CONNACK starts or, being 0, stops the PINGREQ timer of the client that has no interval of its own, and the receive timer of the server that announces it |
| `Holdings.StepPlaces` | src/mqtt/connection/core.rs:386-1102 | Every call, in either version and for every identifier: whether it is in use, in which exchange it is awaited and which packet is stored under it afterwards, from where it stood before; so a PUBLISH is awaited for PUBACK or PUBREC by its QoS and stored if there is a session to keep, an acknowledgement ends exactly its own exchange, and a close, a new session or a resend drops exactly what it should |
| `Holdings.PublishPlace` | src/mqtt/connection/core.rs:1453-1676 | A PUBLISH that is let in is awaited and, with a session to keep, stored under the topic of its alias; one that is turned away late stays so while its identifier is given back; one refused at once changes no more than that |
| `Holdings.StoreResumed` | src/mqtt/connection/core.rs:1182-1199 | Resending drops exactly the stored packets that exceed the peer's size limit and frees their identifiers |
| `Tables.StepTables` | src/mqtt/connection/core.rs:1584-1647 | Every call, in either version: what both alias tables are afterwards. A named PUBLISH binds its alias, a bare one uses it, automatic mapping binds the next alias to a topic without one, a received one is learnt if it is understood, and tables start empty with the last maximum announced |
| `Duplicates.Separated` | src/mqtt/connection/core.rs:2734-2751 | In either version and against any peer, between two notifications of a QoS 2 PUBLISH with the same identifier lies a received PUBREL for it, a failing v5.0 PUBREC sent for it, a close without stored session, or `restore_qos2_publish_handled` |
| `Duplicates.StepFiltered` | src/mqtt/connection/core.rs:2809-2824 | A call notifies at most one QoS 2 PUBLISH, last of all, only if the filter did not hold it and holds it from then on; and the filter forgets an identifier only by one of the four resets |
| `Duplicates.Forgotten` | src/mqtt/connection/core.rs:3071-3097 | If an identifier was in the filter and later is not, a reset happened in between |
| `Boundaries.ToldIff` | src/mqtt/connection/core.rs:2809-2824 | A QoS 2 PUBLISH that no other check stops reaches the host exactly if the filter does not hold its identifier |
| `Boundaries.NewServerSession` | src/mqtt/connection/core.rs:1173-1179 | After a clean CONNECT the first QoS 2 PUBLISH of an identifier reaches the host exactly if the old session had not left it in the filter |
| `Boundaries.NewClientSession` | src/mqtt/connection/core.rs:1173-1179 | The same after a CONNACK without session |
| `Mishaps.NewSessionSwallows` | src/mqtt/connection/core.rs:1173-1179 | A server that lost the connection before PUBREL and then takes a clean CONNECT swallows the next message under that identifier |
| `Restoring.RestoreGives` | src/mqtt/connection/core.rs:1009-1090 | Restoring any list with distinct non-zero identifiers and no QoS 0: the store equals the list in order, the used identifiers are exactly its identifiers, and the three publish sets hold them by expected response |
| `Restoring.SetsPartition` | src/mqtt/packet/enum_store_packet.rs:148-173 | Those three sets are disjoint and together hold every identifier of the list |
| `Restoring.SessionMoves` | src/mqtt/connection/core.rs:1100-1102 | The stored packets of any consistent v3.1.1 connection, restored into a new one, are stored and awaited as they were |
| `PacketStore.PacketStore.Add` | src/mqtt/connection/store.rs:48-55 | Appends a packet, or refuses it exactly if its identifier is stored |
| `PacketStore.PacketStore.EraseResponse` | src/mqtt/connection/store.rs:59-67 | Removes the packet of an identifier exactly if it waits for that response |
| `PacketStore.PacketStore.ForEach` | src/mqtt/connection/store.rs:93-107 | The two loops leave exactly the packets the visitor keeps, in order |
| `PacketStore.PacketStore.Clear` | src/mqtt/connection/store.rs:87-89 | Nothing is stored |
| `Store.EraseRemoves` | src/mqtt/connection/store.rs:59-67 | Erasing by the awaited response cuts out exactly that entry, wherever it stands, and leaves the rest as it was |
| `Vbi.FromU32` | src/mqtt/packet/variable_byte_integer.rs:42-59 | The loop gives the seven-bits-a-byte encoding, or none above 0x0FFF_FFFF |
| `Vbi.ToU32` | src/mqtt/packet/variable_byte_integer.rs:62-70 | The loop gives the number the field spells, without saturating |
| `Vbi.DecodeStream` | src/mqtt/packet/variable_byte_integer.rs:101-128 | The loop decodes a field of at most four bytes, asks for more, or reports a malformed one; its overflow exits are never taken |
| `Vbi.RoundTrip` | src/mqtt/packet/variable_byte_integer.rs:101-128 | Decoding an encoding gives the number back and stops exactly at its end, whatever follows |
| `Vbi.EncodeSize` | src/mqtt/packet/variable_byte_integer.rs:73-75 | The length of an encoding is 1, 2, 3 or 4 by range |
| `Vbi.ShortestForm` | src/mqtt/packet/variable_byte_integer.rs:115-118 | A decoded number, encoded again, takes no more bytes than were read |
| `Vbi.SpecExample` | src/mqtt/packet/variable_byte_integer.rs:42-59 | 321 is 65 + 2 * 128 and is spelled with the least significant byte first, as section 2.2.3 of MQTT 3.1.1 has it |
| `Fields.StringRoundTrip` | src/mqtt/packet/mqtt_string.rs:441-478 | A string field reads back, whatever follows it |
| `Fields.StringPrints` | src/mqtt/packet/mqtt_string.rs:441-478 | A decoded string is valid, and printing it gives the bytes that were read |
| `Fields.FieldLayout` | src/mqtt/packet/mqtt_string.rs:441-478 | A printed field is its length, as quotient and remainder by 256, and its contents |
| `Fields.BinaryRoundTrip` | src/mqtt/packet/mqtt_binary.rs:220-249 | A binary field reads back, whatever follows it |
| `Fields.BinaryPrints` | src/mqtt/packet/mqtt_binary.rs:220-249 | Printing a decoded binary field gives the bytes that were read |
| `Properties.ListRoundTrip` | src/mqtt/packet/property.rs:2430-2461 | Length prefix, encodings and any trailing bytes parse back to the same list of valid properties, consuming exactly prefix plus size |
| `Properties.ParseStopsAtEnd` | src/mqtt/packet/property.rs:2453-2461 | Any successful parse ends exactly at the declared end, yields valid properties only, and printed again they fit and parse to the same list |
| `Properties.ParseProperties` | src/mqtt/packet/property.rs:2430-2461 | The parsing loop terminates and computes the recursive parser |
| `Properties.ToContinuousBuffer` | src/mqtt/packet/property.rs:2354-2364 | The printing loop concatenates the encodings, and `size` is the length of the result |
| `Properties.OneRoundTrip` | src/mqtt/packet/property.rs:2182-2301 | Each valid property reads back, whatever follows it, and has the announced size |
| `Properties.OneWithin` | src/mqtt/packet/property.rs:2182-2301 | Whatever parses is a valid property, moves forward and stays within the bytes given |
| `Properties.ZerosMean` | src/mqtt/packet/property.rs:2182-2301 | For every identifier byte, what it means with four zero bytes behind it: its value type, that 0 is no value for it, or that there is no such property |
| `Properties.NumberLayout` | src/mqtt/packet/property.rs:2182-2301 | Numbers of two and four bytes are printed behind their identifier, high byte first |
| `PublishCodec.PublishRoundTrip` | src/mqtt/packet/v3_1_1/publish.rs:1015-1037 | Any sequence of setters that builds a PUBLISH with a body under 2,097,152 bytes: it prints into `size()` bytes, framing cuts it out of any stream as type 3, and it parses back to an equal packet |
| `PublishCodec.ParsePrints` | src/mqtt/packet/v3_1_1/publish.rs:620-676 | Printing a parsed body gives that body back |
| `PublishCodec.ParsesIff` | src/mqtt/packet/v3_1_1/publish.rs:620-676 | Exactly which bodies parse; none under 2^28 bytes panics |
| `PublishCodec.ParsePublish` | src/mqtt/packet/v3_1_1/publish.rs:620-676 | The cursor-based parser computes the specification |
| `PublishCodec.ToContinuousBuffer` | src/mqtt/packet/v3_1_1/publish.rs:564-576 | The buffer is the header, the length field and the body |
| `PublishCodec.HeaderMeans` | src/mqtt/packet/v3_1_1/publish.rs:759-841 | The header byte is 3 in its upper four bits and says in the others what each setter was last told, in whatever order they were called: DUP is bit 3, QoS 0, 1 or 2 the number in bits 2 and 1, RETAIN bit 0 |
| `PublishCodec.FlagsTravel` | src/mqtt/packet/v3_1_1/publish.rs:298-306 | The QoS, DUP and RETAIN read from the printed packet are those the builder was told last |
| `PublishCodec.BodyLayout` | src/mqtt/packet/v3_1_1/publish.rs:564-576 | The body byte by byte: the length of the topic, high byte first, the topic, the identifier of a QoS 1 or 2 message, high byte first, the payload |
| `PublishCodec.BuildGives` | src/mqtt/packet/v3_1_1/publish.rs:917-1037 | A built packet has the fields that were set, an identifier exactly if its QoS is not 0, and the remaining length of its body |
| `PublishCodec.BuildPanicsIff` | src/mqtt/packet/v3_1_1/publish.rs:1015-1029 | `build` fails its unwrap exactly if the fields validate and topic, identifier and payload together exceed the largest length |
| `PublishCodec.BuildPanics` | src/mqtt/packet/v3_1_1/publish.rs:1024-1028 | The topic "t" with a payload of 268,435,455 bytes is such a packet |
| `PublishCodec.SetDupTravels` | src/mqtt/packet/v3_1_1/publish.rs:400-407 | `set_dup` changes the DUP flag alone and the packet still round-trips |
| `ConnectCodec.ConnectRoundTrip` | src/mqtt/packet/v3_1_1/connect.rs:983-1037 | Every CONNECT that builds prints into `size()` bytes, is cut out of any stream as one packet, and parses back to an equal packet |
| `ConnectCodec.CutRefused` | src/mqtt/packet/v3_1_1/connect.rs:523-631 | No body of a CONNECT that is cut short parses, and the field in which it is cut decides on the error |
| `ConnectCodec.ParsePrints` | src/mqtt/packet/v3_1_1/connect.rs:523-631 | Printing a parsed CONNECT gives exactly the bytes that were read; trailing bytes are ignored |
| `ConnectCodec.ParseConnect` | src/mqtt/packet/v3_1_1/connect.rs:523-600 | The cursor-based parser computes the specification, with its error for each field |
| `ConnectCodec.FinishParse` | src/mqtt/packet/v3_1_1/connect.rs:588-631 | The end of the parser: user name, password and the check of the two flags |
| `ConnectCodec.ToContinuousBuffer` | src/mqtt/packet/v3_1_1/connect.rs:461-486 | The buffer holds each optional field exactly if its flag is set |
| `ConnectCodec.FlagsByte` | src/mqtt/packet/v3_1_1/connect.rs:461-486 | The connect flags bit by bit, from user name in bit 7 to clean session in bit 1 |
| `ConnectCodec.BodyLayout` | src/mqtt/packet/v3_1_1/connect.rs:461-486 | The body byte by byte: name "MQTT" and level 4, the flags, keep alive and the length of the client identifier, high byte first, the identifier, and then will, user name and password as the flags announce them |
| `ConnectCodec.BuildGives` | src/mqtt/packet/v3_1_1/connect.rs:925-1037 | After setters that succeeded, `build` fails exactly if there is a password without a user name |
| `ConnectCodec.FlagsMean` | src/mqtt/packet/v3_1_1/connect.rs:712-790 | The flags of a builder in terms of the calls: clean as last told, will, will QoS and will retain bits as ever asked for |
| `ConnectCodec.WillQosIff` | src/mqtt/packet/v3_1_1/connect.rs:769-790 | The will QoS is the one asked for last if and only if no earlier call left another bit behind |
| `ConnectCodec.WillQosLost` | src/mqtt/packet/v3_1_1/connect.rs:784-790 | Asking for QoS 1 and then for QoS 2 builds a will of QoS 0 |
| `ConnectCodec.WillRetainIff` | src/mqtt/packet/v3_1_1/connect.rs:784-788 | Will retain is as asked for last if and only if it was asked for last or never before |
| `ConnectCodec.WillRetainKept` | src/mqtt/packet/v3_1_1/connect.rs:784-788 | Asking for retain and then against it builds a will with retain |
| `Wire.Transmit` | src/mqtt/connection/packet_builder.rs:156-262 | Whatever CONNECT and PUBLISH packets are sent and however their bytes are cut, the same packets are parsed at the other end, in order |
| `Wire.PublishSize` | src/mqtt/packet/v3_1_1/publish.rs:564-576 | The size by which the engine judges a v3.1.1 PUBLISH is the number of bytes it prints into |
| `Wire.PublishSize5` | src/mqtt/packet/property.rs:2354-2364 | The remaining length by which the engine judges a v5.0 PUBLISH is that of its fields and its printed property list, a topic alias included |
| `Connection.GenericConnection.Call` | src/mqtt/connection/core.rs:386-600 | Every call of the host ends in the state and with the events the engine specification gives, while the connection works through its identifier pool, store, alias tables and packet builder |
| `Connection.GenericConnection.Drive` | src/mqtt/connection/core.rs:386-1102 | After any sequence of calls the object stands for the final state of the run and has reported its events; so its timer flags mirror the requests, and its reports match the identifiers that went free and the strays that were dropped |
| `Connection.GenericConnection.SendPacket` | src/mqtt/connection/core.rs:386-588 | Sending: version and role checks, then the operation of the packet type |
| `Connection.GenericConnection.Recv` | src/mqtt/connection/core.rs:596-612 | Receiving bytes: the builder and the cursor advance as one byte at a time would, and a complete packet, judged by the number of its body bytes, an incomplete one and a broken frame each have their effect |
| `Connection.GenericConnection.RecvFrame` | src/mqtt/connection/core.rs:2292-2486 | Receiving a frame: size, direction and version checks, then the operation of the packet type |
| `Connection.GenericConnection.RecvBroken` | src/mqtt/connection/core.rs:596-612 | A framing error cancels the armed timers, asks to close and reports |
| `Connection.GenericConnection.NotifyTimerFired` | src/mqtt/connection/core.rs:630-710 | A timer that fires is disarmed, then PINGREQ, close or DISCONNECT |
| `Connection.GenericConnection.NotifyClosed` | src/mqtt/connection/core.rs:724-787 | Closing: limits and aliases reset, sets drained, timers cancelled |
| `Connection.GenericConnection.DropAll` | src/mqtt/connection/core.rs:755-775 | Without a stored session the filter and the three publish sets are dropped and their identifiers released |
| `Connection.GenericConnection.ReleaseAll` | src/mqtt/connection/core.rs:735-753 | Draining a set releases its identifiers one by one and reports each |
| `Connection.GenericConnection.AcquirePacketId` | src/mqtt/connection/core.rs:930-932 | Out of the interval pool comes the least identifier not in use |
| `Connection.GenericConnection.DropUnsendable` | src/mqtt/connection/core.rs:1182-1199 | The walk over the store keeps exactly the packets that fit |
| `Connection.GenericConnection.RestoreStored` | src/mqtt/connection/core.rs:1009-1090 | Restoring a list packet by packet |
| `Connection.GenericConnection.SendStoredPackets` | src/mqtt/connection/core.rs:1182-1199 | The walk over the store: resend what fits, drop and release the rest |
| `Connection.GenericConnection.ProcessSendConnect` | src/mqtt/connection/core.rs:1255-1348 | Sending CONNECT in either version |
| `Connection.GenericConnection.ProcessSendConnack` | src/mqtt/connection/core.rs:1350-1451 | Sending CONNACK in either version, the stored packets behind it |
| `Connection.GenericConnection.ApplySent` | src/mqtt/connection/core.rs:1300-1345 | The property loops of CONNECT and CONNACK that are sent |
| `Connection.GenericConnection.ApplyReceived` | src/mqtt/connection/core.rs:2549-2590 | The property loops of CONNECT and CONNACK that are received |
| `Connection.GenericConnection.ProcessSendPublishV3` | src/mqtt/connection/core.rs:1453-1508 | Sending a v3.1.1 PUBLISH: refuse and release, store, await, send |
| `Connection.GenericConnection.ProcessSendPublishV5` | src/mqtt/connection/core.rs:1510-1583 | Sending a v5.0 PUBLISH: size, identifier and store, with the topic of an alias put back before storing |
| `Connection.GenericConnection.SendByAlias` | src/mqtt/connection/core.rs:1584-1649 | The alias part of a v5.0 PUBLISH: check, bind, replace or map |
| `Connection.GenericConnection.SendUnderQuota` | src/mqtt/connection/core.rs:1651-1676 | The Receive Maximum part of a v5.0 PUBLISH |
| `Connection.GenericConnection.ProcessSendResponse` | src/mqtt/connection/core.rs:1678-1765 | Responses: a receive slot is freed, a failing PUBREC ends the exchange |
| `Connection.GenericConnection.ProcessSendPubrel` | src/mqtt/connection/core.rs:1767-1833 | Sending PUBREL: stored if the session is, awaited only while connected |
| `Connection.GenericConnection.ProcessSendRequest` | src/mqtt/connection/core.rs:1876-1942 | SUBSCRIBE and UNSUBSCRIBE |
| `Connection.GenericConnection.ProcessSendPingreq` | src/mqtt/connection/core.rs:2088-2138 | PINGREQ and its response timer |
| `Connection.GenericConnection.ProcessSendDisconnect` | src/mqtt/connection/core.rs:2178-2218 | DISCONNECT cancels the timers and asks to close |
| `Connection.GenericConnection.ProcessSendAuth` | src/mqtt/connection/core.rs:2220-2239 | AUTH in any status but disconnected |
| `Connection.GenericConnection.ProcessRecvFrame` | src/mqtt/connection/core.rs:2292-2486 | A parsed packet, or the error path of a body that does not parse |
| `Connection.GenericConnection.ProcessRecvConnect` | src/mqtt/connection/core.rs:2488-2597 | Receiving CONNECT in either version |
| `Connection.GenericConnection.ProcessRecvConnack` | src/mqtt/connection/core.rs:2599-2701 | Receiving CONNACK in either version, whatever the status |
| `Connection.GenericConnection.ProcessRecvPublishV3` | src/mqtt/connection/core.rs:2703-2765 | Receiving a v3.1.1 PUBLISH with the duplicate filter |
| `Connection.GenericConnection.ProcessRecvPublishV5` | src/mqtt/connection/core.rs:2767-2828 | Receiving a v5.0 PUBLISH: receive quota and duplicate filter |
| `Connection.GenericConnection.ResolveTopic` | src/mqtt/connection/core.rs:2830-2889 | The alias part of receiving a v5.0 PUBLISH |
| `Connection.GenericConnection.TakePublish` | src/mqtt/connection/core.rs:2890-2930 | The response and the hand-over of a v5.0 PUBLISH |
| `Connection.GenericConnection.ProcessRecvPuback` | src/mqtt/connection/core.rs:2932-2991 | An expected PUBACK erases the stored packet, frees the identifier and a send slot; another is a protocol error |
| `Connection.GenericConnection.ProcessRecvPubcomp` | src/mqtt/connection/core.rs:3136-3195 | The same for PUBCOMP |
| `Connection.GenericConnection.ProcessRecvSuback` | src/mqtt/connection/core.rs:3235-3289 | An expected SUBACK frees its identifier; another is a protocol error |
| `Connection.GenericConnection.ProcessRecvUnsuback` | src/mqtt/connection/core.rs:3329-3383 | The same for UNSUBACK |
| `Connection.GenericConnection.ProcessRecvPubrec` | src/mqtt/connection/core.rs:2993-3069 | PUBREC: a failing one ends a v5.0 exchange, otherwise PUBREL follows |
| `Connection.GenericConnection.ProcessRecvPubrel` | src/mqtt/connection/core.rs:3071-3134 | PUBREL: the filter forgets the identifier, PUBCOMP follows |
| `Connection.GenericConnection.ProcessRecvPingreq` | src/mqtt/connection/core.rs:3385-3437 | PINGREQ is answered by a connected server with automatic ping responses |
| `Connection.GenericConnection.HandleError` | src/mqtt/connection/core.rs:3537-3549 | v3.1.1 asks to close, v5.0 sends DISCONNECT first |
| `Connection.GenericConnection.CancelAllTimers` | src/mqtt/connection/core.rs:3565-3579 | Exactly the armed timers are cancelled |

## Left out

- Packet bodies other than v3.1.1 CONNECT and PUBLISH and property lists: the engine reads their fields from a parsed frame; v5.0 bodies are reduced to the fields the engine looks at plus their size.
- Connection.GenericConnection.Recv: takes the parser of packet bodies as a parameter, for every parser whose frames have the type and the length of the raw packet, because most packet bodies are not modelled.
- Packet identifiers are 16 bits wide; the 32-bit variant is not modelled.
- Arithmetic overflow is a panic, as in a build with overflow checks; a build in which it wraps is not modelled.
- ExactlyOnce.ExactlyOnceDelivery: assumes automatic responses, hosts that leave an identifier alone while its message is unfinished, no publish that PublishLostIff says is lost, a client that asks to keep its session, and a CONNACK without session only while the client has no message open (LostWithoutSession says what becomes of one).
- AtLeastOnce.AtLeastOnceDelivery: assumes what ExactlyOnceDelivery assumes; LostWithoutSession says what becomes of an open message in a new session.
- Holdings.StepPlaces: assumes that no identifier is stored twice, which StepSteps keeps.
- FlowControl.QuotaExact: is about two endpoints with nothing stored; SendCountLaw says what the count is after a reconnection. Automatic responses are on and no Maximum Packet Size is set.
- Session.StepKeeps: is stated for v3.1.1 (Session5.StepKeepsIff for v5.0); it assumes PUBREL only after PUBREC and while connected, and a CONNACK that ConnackKeepsIff calls harmless.
- Releases.ReleasesMatch: is stated for v3.1.1 (ReleasesCounted and RunStaysConsistent5 for v5.0); identifiers dropped by a new session are not reported and not counted.
- AliasAgreement.AliasesAgree: deliveries assume that the receiver has set no Receive Maximum and takes packets of that size.
- Retransmission.ResendsOutstanding: starts from an empty store; restored packets are the subject of Restoring.
- PacketStore.PacketStore.ForEach: the visitor is a pure test; collecting events while visiting is modelled in SendStoredPackets. `erase_publish` and the host call `regulate_for_store`, which puts the topic of an alias back, are not modelled.
- ValueAllocator.Allocator.Search: the ordered set of the standard library is a sorted sequence searched through the interval order only; its tree is not modelled.
- Hash sets yield their members in an arbitrary order; draining takes that order as an argument.
- Strings and payloads are plain byte sequences: the small-buffer variants and shared payload slices are not modelled.
- Compile-time dispatch tables, serde, Display and Debug output, tracing, vectored buffers, result-code and packet-type tables, and the fixed packets PINGREQ and PINGRESP would only add easy members.
- Clocks and sockets: timers fire when the host says so, and what was asked to be sent is sent by the host.
