# A verified model of the MQTT 3.1.1 to NATS bridge

The bridge lets MQTT clients publish and subscribe through a NATS network. A QoS 1 publish becomes a NATS request
whose reply subject spells out who published it (client, session, packet id, flags); a subscriber's PUBACK is sent
back on that subject and becomes the publisher's PUBACK. This project models that protocol, the life cycle of a
client connection, the packet codec, the packet id allocator, the translation of topics, the retained messages and
the state file, and proves what the code and its documentation promise of them. Every statement is for all inputs,
all runs or all interleavings.

Operations are functions on values (a session, a connection's link to NATS, a table, a store, a byte string, a token
sequence). Where the source changes things in place there is a class or a method with a loop that is proved equal to
the function, and the laws are lemmas about the functions.

| file | what it models |
|---|---|
| `Basics`, `Strconv` | bytes, 16-bit ids; `strings.Split`, `strconv.Itoa`, `strconv.Atoi` |
| `Wire`, `Packets`, `Codec`, `CodecLaws` | `mqtt/reader.go`, `mqtt/writer.go`, `mqtt/pkg/*.go`, the packet dispatch |
| `WireFormat` | the bytes of MQTT 3.1.1, by value, against what is written and accepted |
| `IdManager` | `mqtt/pkg/idmanager.go` |
| `Topics` | `mqtt/topic.go`, with MQTT's and NATS's notions of a match |
| `ReplyTopics` | `bridge/replytopic.go` |
| `Nats`, `Sessions`, `Clients`, `AckLaws` | live subscriptions and sent messages; `bridge/session.go`; `bridge/nats.go` |
| `Exchange` | what requests put on NATS and what messages become, by header bits, subjects and messages |
| `Protocol`, `ProtocolLaws`, `FreshnessLaws`, `Limits` | all sessions, connections and messages together, with restarts |
| `StepLaws`, `Resumption`, `Journeys` | what each step does without naming its handler; resumed sessions; the way to an ack |
| `WriteLoop`, `LifeCycle`, `LifeCycleLaws`, `Wills` | `client.writeLoop`; reader, writer, drain and callbacks interleaved |
| `Replies`, `Endings` | nothing queued is lost; return codes, and how a connection ends |
| `Retained` | `bridge/retained.go`, `server.HandleRetain` |
| `Json`, `Records`, `Persistence`, `Loading`, `Saving`, `FileFormat` | the state file at the level of JSON tokens |

Main results, hardest first:

- **End-to-end QoS 1 safety** (`ProtocolLaws.EndToEnd`, `Limits`): over every run, with restarts and resumed sessions,
  a PUBACK reaches a publisher's session only after it published that id, some session was sent a delivery that carries
  the publish's reply subject, and that session's PUBACK of it arrived, in this order. The one exception is a publish to
  a subject that the configured request topic matches: the handler of retained requests answers it without any
  subscriber. A topic is safe exactly when it is not of that kind, and without a request topic all are. Conversely,
  from every reachable state a publish that a live subscription matches can be acknowledged in four steps
  (`Journeys.PublishIsAcknowledged`).
- **Resumed sessions** (`Resumption.SessionSurvives`): a client that comes back unclean finds the session it had, across
  anything but a clean CONNECT or the end of a clean connection of its id, and is owed exactly the deliveries that the
  history says it has not acknowledged. Any other CONNECT starts with nothing (`Resumption.OthersStartAnew`).
- **Stale replies and forwarding** (`FreshnessLaws`): while fewer than 2^32 sessions were created, a reply for a
  replaced or removed session changes nothing, and an ack goes to the reply subject of the latest unacknowledged
  delivery with its id.
- **Life cycle** (`LifeCycleLaws`): in every interleaving the state byte never goes back, one CONNECT is let through,
  one sentinel is queued, one CONNACK comes first, no handler finds an unset field, and the wire carries the queue up
  to the sentinel. What passed queueForWrite's check is, with repetitions, what is on the queue or in some thread's
  hands (`Replies.RepliesAreKept`). `Wills` says exactly when a DISCONNECT deletes the will under whoever is publishing
  it, which ends the process, and exactly when the will of a refused client is published.
- **Codec** (`CodecLaws.StreamRoundTrip`, `CodecLaws.PrintingUndoesParsing`): streams of packets of all fourteen kinds
  come back exactly when every packet is well formed; what was parsed from an exact frame prints as the same bytes.
  `WireFormat` ties both to the literal bytes of the standard.
- **State file** (`Persistence.RestoredIffSavable`): a fresh server that loads the file knows everything again exactly
  when every session's loaded acks had been subscribed to again before the save, no message is marked `sentByUs`, and
  the session that is current for the server's own client id knows what the server's own session does.
- **Topics** (`Topics.TranslationPreservesMatching`, `Topics.AgreementIsExact`): for every filter that MQTT allows, what
  translation loses is `/#` against its parent level, filters with a literal `*` or `>`, and empty levels. NATS and MQTT
  disagree exactly on pairs whose levels match where either something is lost or the topic's `$` excludes it, not both.
- **Allocator** (`IdManager.GrantsAreFresh`, `IdManager.ReuseIsLate`), **acks and subscriptions of one connection**
  (`AckLaws`), **retained store** (`Retained.StoreIsFold`).

Where the code falls short of a promise the model keeps the code, and there is a lemma with the exact condition and one
with an input at which it fails:

| the code fails | exactly when | shown on |
|---|---|---|
| to ask a subscriber before it acknowledges | `Limits.SafeExactlyOffTheRequestTopic` | `Limits.AcknowledgedWithoutSubscriber` |
| to keep the session of another connection | `Limits.CloseTakesOthersSession` | `Limits.SecondConnectionLosesItsSession` |
| to survive a DISCONNECT during the disconnection | `Wills.CrashExactly` | `Wills.DisconnectCrashes` |
| to withhold a will without an accepted CONNECT | `Wills.RefusedWill` | `Wills.RefusedWillIsPublished` |
| to keep ack subscriptions exact | `AckLaws.PublishKeepsExact` | `AckLaws.ReuseOrphansASubscription` |
| to keep data subscriptions exact | `AckLaws.SubscribeIsExact` | `AckLaws.DuplicateOrphansASubscription` |
| to match as MQTT does | `Topics.AgreementIsExact` | `Topics.DisagreementsExist` |
| to save all it knows | `Persistence.RestoredIffSavable` | `Persistence.UnresumedAcksAreLost` |

Two more differences from MQTT 3.1.1 are kept as they are: a PUBREL is written with 0 in its low nibble where section
3.6.1 asks for 2 (`WireFormat.LowNibble`), and a delivery that goes out again does not get the DUP flag that section
3.3.1.1 asks for (`Exchange.ResentAt`).

What callers and the environment must keep, stated where it is used: client ids are one NATS token without wildcards
or whitespace (`Protocol.ValidName`); no MQTT client publishes below `_INBOX/`; subscriptions that were cancelled
deliver nothing more; strings are bytes, each modelled by the character with its code (`Basics`).

## Model
| member | source | states |
|---|---|---|
| `ReplyTopics.ReplyRoundTrip` | bridge/replytopic.go:26-64 | Parsing a printed reply subject gives back the same client, session, id and flags, exactly when both names hold no dot. |
| `ReplyTopics.ReplyInjective` | bridge/replytopic.go:62-64 | Different tuples with dot-free names have different reply subjects. |
| `ReplyTopics.ReplyFormat` | bridge/replytopic.go:62-64 | The subject is `_INBOX`, client, session, packet id and flags, joined by dots, the numbers in decimal. |
| `Strconv.SplitJoin` | bridge/replytopic.go:26-39 | Splitting joined parts that hold no separator gives the parts back. |
| `Strconv.JoinSplit` | bridge/replytopic.go:26-39 | Joining what was split gives the string back, for every string. |
| `Strconv.AtoiItoa` | bridge/replytopic.go:26-64 | Reading a printed number gives it back, up to the limit of int. |
| `Strconv.ItoaInjective` | bridge/session.go:293-300 | Different numbers print differently, so different seeds give different session ids. |
| `Topics.ToNATS` | mqtt/topic.go:47-63 | The loop rewrites character by character: `/` and `.` change places, nothing else changes. |
| `Topics.ToNATSSubscription` | mqtt/topic.go:66-90 | The same with `+` and `*`, `#` and `>` changing places too. |
| `Topics.RewriteTwice` | mqtt/topic.go:92-105 | Both translations are their own inverse on every string, so the From functions undo them. |
| `Topics.RewrittenCharacters` | mqtt/topic.go:47-90 | Position by position: which characters become which in topics and in filters, and that no other is touched. |
| `Topics.TranslationPreservesMatching` | mqtt/topic.go:47-105 | For every filter and topic that MQTT allows, literal `*` and `>` included, NATS matches the translated pair exactly when MQTT's level-by-level match holds, the filter is not `x/#` against its parent `x`, the filter holds no literal `*` or `>`, and no level is empty. |
| `Topics.AgreementIsExact` | mqtt/topic.go:47-105 | With section 4.7.2 of MQTT 3.1.1 as well: NATS and MQTT disagree on a pair if and only if its levels match and it is either lost in translation or excluded for its `$`, but not both. |
| `Topics.NatsWildcardLoses` | mqtt/topic.go:47-90 | A filter that holds a literal `*` or `>` anywhere matches no topic in NATS after translation. |
| `Topics.DisagreementsExist` | mqtt/topic.go:47-105 | A pair for each kind of disagreement, and one where two kinds cancel out. |
| `Topics.LiteralPattern` | bridge/nats.go:42-54 | A subject without wildcards and empty tokens is matched by itself alone, one with an empty token by nothing; reply subjects are of the first kind. |
| `IdManager.IDManager.constructor` | mqtt/pkg/idmanager.go:28-31 | The cursor starts at 1 with nothing in flight. |
| `IdManager.IDManager.NextFreePacketID` | mqtt/pkg/idmanager.go:33-50 | Grants the first free non-zero id in cyclic order behind the cursor, across the 16-bit wrap; ends whenever some id is free, by the cyclic distance to it. |
| `IdManager.IDManager.ReleasePacketID` | mqtt/pkg/idmanager.go:52-56 | Only the released id leaves the set in flight. |
| `IdManager.FreeIffNotFull` | mqtt/pkg/idmanager.go:33-50 | The search can end exactly when fewer than 65535 non-zero ids are in flight. |
| `IdManager.InFlightIsHeld` | mqtt/pkg/idmanager.go:33-56 | Over every run, in flight are exactly the ids granted and not released since. |
| `IdManager.GrantsAreFresh` | mqtt/pkg/idmanager.go:33-56 | Over every run no granted id is zero or held. |
| `IdManager.ReuseIsLate` | mqtt/pkg/idmanager.go:33-56 | Between two grants of an id every other non-zero id was granted, or was in flight when the cursor passed it. |
| `Wire.Reader.ReadByte` | mqtt/reader.go:25-32 | Takes the first byte off the stream, or fails at its end. |
| `Wire.Reader.ReadVarInt` | mqtt/reader.go:38-58 | The loop reads groups of seven bits and fails behind the fourth, as the specification function does. |
| `Wire.Reader.ReadUint16` | mqtt/reader.go:63-70 | Takes two bytes, big end first. |
| `Wire.Reader.ReadBytes` | mqtt/reader.go:76-96 | Takes a length and that many bytes, with the rest and the errors of the specification. |
| `Wire.Reader.ReadExact` | mqtt/reader.go:101-111 | Takes exactly n bytes or fails, and says what is left in both cases. |
| `Wire.Reader.ReadPacket` | mqtt/reader.go:134-142 | A fresh reader over the next n bytes; the outer one stands behind them. |
| `Wire.Writer.WriteVarInt` | mqtt/writer.go:46-58 | The loop appends the groups of seven bits of the value. |
| `Wire.Writer.WriteU16` | mqtt/writer.go:23-26 | Appends two bytes, big end first. |
| `Wire.Writer.WriteString` | mqtt/writer.go:29-35 | Appends the length truncated to 16 bits and then all bytes. |
| `Wire.Writer.WriteBytes` | mqtt/writer.go:38-42 | The same for a byte slice. |
| `Wire.VarIntRoundTrip` | mqtt/writer.go:46-58 | Written and read back, v and the untouched rest return exactly when v is at most 268435455, which is when it takes at most four bytes; larger ones are rejected on reading. |
| `Wire.VarIntTaken` | mqtt/reader.go:38-58 | No accepted input yields more than 268435455, and the minimal form is never longer than what was read. |
| `Wire.BytesRoundTrip` | mqtt/reader.go:76-96 | A string of at most 65535 bytes comes back with the untouched rest. |
| `Wire.BytesTaken` | mqtt/reader.go:76-96 | What was read as a string is what would be written for it. |
| `Codec.WriteConnect` | mqtt/pkg/connect.go:194-229 | Appends the encoding of a CONNECT: header, length, protocol, flags, and the fields the flags choose. |
| `Codec.WritePublish` | mqtt/pkg/publish.go:239-251 | Appends the encoding of a PUBLISH; the id only at QoS 1 and 2. |
| `Codec.WriteSubscribe` | mqtt/pkg/subscribe.go:119-132 | Appends the encoding of a SUBSCRIBE with its topics in order. |
| `Codec.WriteUnsubscribe` | mqtt/pkg/unsubscribe.go:50-62 | Appends the encoding of an UNSUBSCRIBE with its names in order. |
| `Codec.WriteSubAck` | mqtt/pkg/subscribe.go:201-206 | Appends the encoding of a SUBACK. |
| `Codec.WriteConnAck` | mqtt/pkg/connect.go:337-342 | Appends the encoding of a CONNACK. |
| `Codec.WriteId` | mqtt/pkg/publish.go:281-387 | Appends the encoding of the five packets that are an id alone. |
| `Codec.WriteEmpty` | mqtt/pkg/connect.go:361-364 | Appends the encoding of the packets without a body. |
| `Codec.WritePacket` | bridge/client.go:391-399 | Appends the encoding of any packet. |
| `Codec.ParseConnect` | mqtt/pkg/connect.go:105-174 | Result, error and unread rest are those of the specification of CONNECT. |
| `Codec.ParsePublish` | mqtt/pkg/publish.go:72-92 | The same for PUBLISH. |
| `Codec.ParseSubscribe` | mqtt/pkg/subscribe.go:34-63 | The same for SUBSCRIBE; the loop reads topics until the frame is used up. |
| `Codec.ParseUnsubscribe` | mqtt/pkg/unsubscribe.go:24-47 | The same for UNSUBSCRIBE. |
| `Codec.ParseSubAck` | mqtt/pkg/subscribe.go:146-159 | The same for SUBACK. |
| `Codec.ParseIdPacket` | mqtt/pkg/publish.go:257-365 | The same for the packets that are an id alone. |
| `Codec.ParseConnAckPacket` | mqtt/pkg/connect.go:307-318 | The same for CONNACK. |
| `Codec.Parse` | test/packet/parse.go:17-67 | Header, length and body dispatch over all packet types gives what the specification gives. |
| `CodecLaws.DeclaredLength` | mqtt/pkg/publish.go:239-251 | For every packet, also with over-long strings, the declared remaining length is the number of bytes then written. |
| `CodecLaws.PacketRoundTrip` | test/packet/parse.go:17-67 | A well-formed packet is parsed back from its encoding, whatever follows, and nothing of what follows is touched. |
| `CodecLaws.StreamRoundTrip` | test/packet/parse.go:17-67 | Packets written back to back are parsed back to exactly that sequence with nothing left over, if and only if all of them are well formed. |
| `CodecLaws.ParsedIsWellFormed` | test/packet/parse.go:17-67 | Whatever bytes parse, the packet is well formed and at least one byte was used. |
| `CodecLaws.PrintingUndoesParsing` | mqtt/reader.go:134-142 | Parsing an exactly framed packet uses exactly the declared frame, and writing the result reproduces the same body and length. |
| `WireFormat.WrittenAsStandard` | mqtt/pkg/packet.go:6-50 | Every packet is written as chapters 2 and 3 of MQTT 3.1.1 lay it out by value: type number and reserved bits, the length in one to four bytes, `00 04 MQTT`, and each field where it belongs. |
| `WireFormat.StandardIsParsed` | test/packet/parse.go:17-67 | Those bytes of a well-formed packet are parsed as that packet, and what follows is untouched. |
| `WireFormat.ConnectIsRead` | mqtt/pkg/connect.go:105-174 | Whatever is accepted as a CONNECT is that layout of the packet it yields, followed by what is left over. |
| `WireFormat.ConnectIsRefused` | mqtt/pkg/connect.go:110-128 | A readable protocol name is refused if and only if it is not `00 04 4d 51 54 54`, and a level if and only if it is not 4. |
| `WireFormat.FirstByteDecides` | test/packet/parse.go:17-67 | A packet is refused for its type, its reserved bits or the length of an id packet exactly as the tables of the standard say. |
| `WireFormat.RealConnect` | mqtt/pkg/connect.go:105-174 | The CONNECT of an actual client, byte by byte, and what it is parsed as. |
| `WireFormat.FlagBits` | mqtt/pkg/connect.go:12-19 | Which bit of the flags of a PUBLISH and of a CONNECT means what. |
| `WireFormat.LongLengths` | mqtt/reader.go:38-58 | A remaining length is refused exactly when its first four bytes all announce another one. |
| `WireFormat.ShortReads` | mqtt/reader.go:25-111 | What is cut short is used up and answered with the end-of-file error of its kind. |
| `CodecLaws.NewConnectSurvives` | mqtt/pkg/connect.go:75-102 | For any arguments, the flags that NewConnect computes agree with the will exactly when its QoS is below 4 and its strings are short, and with the credentials exactly when theirs are short, the password is not an empty one, and there is a user or a password or the will's QoS spills into their flags. |
| `CodecLaws.DeleteWillKeeps` | mqtt/pkg/connect.go:284-289 | Deleting the will clears its flags, keeps the others, and leaves a well-formed packet well formed. |
| `Nats.NatsConn.Subscribe` | bridge/nats.go:42-54 | A successful subscription is live with an identity of its own; a failed one changes nothing. |
| `Sessions.Session.AckRequested` | bridge/session.go:188-195 | The id is awaited with this subscription. |
| `Sessions.Session.AwaitsAck` | bridge/session.go:197-205 | True exactly for awaited ids. |
| `Sessions.Session.AckReceived` | bridge/session.go:175-186 | The id is no longer awaited and its subscription, if any, is returned. |
| `Sessions.Session.ClientAckRequested` | bridge/session.go:224-231 | The delivery is filed under its own packet id. |
| `Sessions.Session.ClientAckReceived` | bridge/session.go:207-222 | A filed delivery is dropped and its reply subject notified; nothing happens for other ids. |
| `Sessions.Session.Destroy` | bridge/session.go:254-264 | All ack subscriptions are cancelled and forgotten. |
| `Sessions.SessionManager.Create` | bridge/session.go:293-300 | The seed wraps at 2^32; a fresh empty session replaces the client's previous one in the map. |
| `Sessions.SessionManager.Get` | bridge/session.go:285-291 | The client's current session, or none. |
| `Sessions.SessionManager.Remove` | bridge/session.go:348-357 | The client's session leaves the map and is destroyed; other sessions stay. |
| `Sessions.SessionIDsDistinct` | bridge/session.go:293-300 | Different seeds give different session ids. |
| `Clients.Client.NatsPublish` | bridge/nats.go:11-40 | The link to NATS afterwards and the error, in every case of DUP, QoS and refusals by NATS. |
| `Clients.Client.AckArrived` | bridge/nats.go:42-54 | Only the session that the subject names, and only if it is current, loses the awaited ack; then its subscription is cancelled and a PUBACK queued. |
| `Clients.Client.CancelNatsSubscriptions` | bridge/nats.go:56-63 | Exactly the given subscriptions are no longer live. |
| `Clients.Client.NatsSubscribe` | bridge/nats.go:65-109 | Table and live subscriptions afterwards; the SUBACK holds one code per filter in order, min(QoS, 1) or 0x80. |
| `Clients.Client.NatsUnsubscribe` | bridge/nats.go:111-125 | The named subscriptions leave the table and are cancelled; an UNSUBACK is queued. |
| `Clients.Client.NatsResponse` | bridge/nats.go:127-145 | Id and flags come from the reply subject, or a fresh id at QoS 1 for other reply subjects; the delivery is recorded when the effective QoS is above 0. |
| `Clients.Client.PublishResponse` | bridge/client.go:415-420 | Recorded at QoS above 0, and queued while connected. |
| `Clients.Client.QueueForWrite` | bridge/client.go:360-364 | Queued exactly while connected. |
| `Clients.Client.RestoreAckSubscriptions` | bridge/session.go:161-173 | Every loaded subject that NATS accepts becomes a live ack subscription of its own, and none is left to restore. |
| `Clients.Client.ResendClientUnack` | bridge/session.go:233-244 | Every unacknowledged delivery is queued once; what is awaited does not change. |
| `Clients.HandleConnect` | bridge/client.go:323-344 | An unclean client gets the session that its id has, untouched, and a CONNACK with session present; any other a fresh one that awaits nothing. |
| `Clients.Client.PubAckReceived` | bridge/client.go:272-278 | The delivery is no longer awaited, its reply subject gets one message, and the packet id is free again. |
| `Exchange.DroppedPublish` | bridge/nats.go:11-40 | A publish with header bit 3 whose id is awaited changes nothing and is no error; QoS 2 and 3 change nothing and are one. |
| `Exchange.FireAndForget` | bridge/nats.go:22-24 | At QoS 0 exactly one message is sent, with the topic's subject, the payload and no reply subject, and nothing else changes. |
| `Exchange.RequestIsSent` | bridge/nats.go:25-33 | At QoS 1 exactly one request is sent, its reply subject parses to session, id and flags, and that subject is subscribed to and awaited under the id; without the subscription nothing happens. |
| `Exchange.PlainDelivery` | bridge/nats.go:127-145 | To a subscriber at QoS 0, or without a reply subject, a message goes out under its topic with its payload, without id and flags, at QoS 0. |
| `Exchange.BridgedDelivery` | bridge/nats.go:127-145 | With a reply subject of the bridge it carries the id and flags spelled out there, at the lower of their QoS and the subscriber's. |
| `Exchange.ForeignDelivery` | bridge/nats.go:134-144 | With any other reply subject it carries the granted id at QoS 1, without DUP and RETAIN, and the message's topic, payload and reply subject. |
| `Exchange.ResentAt` | bridge/session.go:233-244 | A delivery is sent again with the flags it had, once for each place in the order. |
| `Exchange.DeliveryMirrorsPublish` | bridge/nats.go:11-145 | Out of the message that was sent for it, a publish is delivered with its own topic and payload; at QoS 1, to a subscriber at QoS above 0, also with its own id and flags, otherwise with neither. |
| `AckLaws.PublishKeepsExact` | bridge/nats.go:11-54 | A publish keeps live ack subscriptions and awaited ones in step if and only if it reuses no awaited id. |
| `AckLaws.ReuseOrphansASubscription` | bridge/nats.go:11-54 | From a new session, a second publish of an awaited id without DUP leaves two live ack subscriptions, and one of them stays when the ack has come and nothing is awaited. |
| `AckLaws.AckKeepsExact` | bridge/session.go:175-186 | Processing an ack keeps them in step. |
| `AckLaws.AckConservation` | bridge/nats.go:11-63 | Over any sequence of publishes and acks without such a reuse: the live ack subscriptions are the awaited ones, accepted publishes of an id are its acks plus one if it is awaited, and no more requests for it reach NATS than were accepted. |
| `AckLaws.SubscribeIsExact` | bridge/nats.go:65-109 | After a SUBSCRIBE the live data subscriptions are exactly the values of the table, one per subject, if and only if no accepted filter was named twice; the table then holds the old filters, less the named, plus the accepted. |
| `AckLaws.DuplicateOrphansASubscription` | bridge/nats.go:65-109 | A SUBSCRIBE that names one filter twice leaves a live subscription that the table does not hold. |
| `AckLaws.UnsubscribeIsExact` | bridge/nats.go:111-125 | An UNSUBSCRIBE keeps that and removes exactly the named filters. |
| `Exchange.SubscribeMakesLive` | bridge/nats.go:65-109 | Live after a SUBSCRIBE are the subscriptions it does not name and those made for its filters, and nothing is sent. |
| `Exchange.SubscribeEntry` | bridge/nats.go:65-109 | The last accepted filter of a subject is in the table, live, and at the lower of its QoS and 1; a refused one is not; other entries stay. |
| `Exchange.SubAckAnswers` | bridge/nats.go:88-107 | The SUBACK holds in order the lower of QoS and 1, or 0x80. |
| `Exchange.UnsubscribeCancels` | bridge/nats.go:111-125 | An UNSUBSCRIBE cancels the connection's data subscriptions of the named subjects, and no other one. |
| `Exchange.SubscriberIsReached` | bridge/nats.go:11-109 | What was sent for a publish matches a granted filter's subscription exactly when the filter matches the topic level by level and nothing is lost in translation. |
| `ProtocolLaws.StepKeepsInv` | bridge/nats.go:11-145 | Every handler, the will, the retained request handler and a restart keep the invariant: each awaited ack, recorded delivery, live ack subscription and message in flight is backed by an earlier publish, and only what the request topic matches is answered by the bridge. |
| `ProtocolLaws.RunKeepsInv` | bridge/server.go:415-484 | It holds in every state of every run. |
| `ProtocolLaws.ReloadKeepsInv` | bridge/session.go:74-173 | Saving and loading keeps it. |
| `ProtocolLaws.EndToEnd` | bridge/nats.go:11-54 | A PUBACK is queued for a session only after its publish, a recorded delivery with the same reply subject and that delivery's PUBACK, in this order; or after the handler of retained requests answered the publish, whose subject then is one that the configured request topic matches. |
| `Journeys.PublishIsAcknowledged` | bridge/nats.go:11-145 | From every state that keeps the invariant: a QoS 1 publish that a live subscription at QoS above 0 matches can be sent, delivered, acknowledged and answered by a PUBACK in four enabled steps, with one request and one answer on NATS and nothing awaited afterwards. |
| `Limits.SubscriberAlwaysAcks` | bridge/server.go:224-230 | In a run in which nothing that asks for an ack goes to the request topic, and in every run without one, each PUBACK has such a publish, delivery and PUBACK behind it. |
| `Limits.SafeExactlyOffTheRequestTopic` | bridge/server.go:224-230 | A topic outside `_INBOX/` promises that in all runs if and only if the request topic does not match its subject. |
| `Limits.AcknowledgedWithoutSubscriber` | bridge/server.go:224-268 | For every other topic, a run of four steps: a client publishes to it and gets its PUBACK though nobody has subscribed. |
| `Limits.CloseTakesOthersSession` | bridge/client.go:99-101 | The end of a connection takes the current session from another one if and only if it was clean and of the same client id. |
| `Limits.SecondConnectionLosesItsSession` | bridge/client.go:99-101 | A run in which that happens to a client that connects again before its first connection has ended. |
| `ProtocolLaws.DeliveriesAreFiledByID` | bridge/session.go:224-231 | In every run the key under which a delivery is filed is its own packet id. |
| `ProtocolLaws.OutsideInbox` | bridge/nats.go:20-24 | A topic that is not below `_INBOX/` is never translated to a reply subject. |
| `FreshnessLaws.RunKeepsFresh` | bridge/session.go:293-300 | With fewer than 2^32 sessions created, no two sessions of a run share client and session id, and what each awaits from its client is what the history says. |
| `FreshnessLaws.AcksGoToLatestDelivery` | bridge/session.go:207-231 | Each forwarded ack goes to the reply subject of the session's latest delivery with that id since the previous PUBACK for it. |
| `FreshnessLaws.RepeatedPubAckIsIdle` | bridge/session.go:207-222 | A PUBACK changes nothing exactly when no delivery with its id is pending by the history, as for a repeated one. |
| `FreshnessLaws.StaleReplyIsIdle` | bridge/nats.go:43-53 | A reply to a connection whose session was replaced or removed queues no PUBACK and changes no session. |
| `FreshnessLaws.ReplyReachesOwnSession` | bridge/nats.go:43-53 | A reply to a connection with a current session takes the ack of that session alone, and cancels just its subscription. |
| `Resumption.UncleanResumes` | bridge/client.go:327-336 | In every run an unclean CONNECT of a client with a current session gets that session, which awaits exactly what the history says. |
| `Resumption.OthersStartAnew` | bridge/client.go:327-336 | Any other CONNECT gets a new session that awaits nothing and that the history knows nothing of. |
| `Resumption.SessionSurvives` | bridge/client.go:64-103 | Between two points of a run the session of a client id stays the current one through everything but a clean CONNECT or the end of a clean connection of that id, restarts included. |
| `StepLaws.ConnectGives` | bridge/client.go:323-336 | Which session a CONNECT gets, by clean flag and current session, and that no other session changes. |
| `StepLaws.CloseEnds` | bridge/client.go:64-103 | What is live, current and awaited after the end of a clean and of an unclean connection. |
| `StepLaws.RestartKeeps` | bridge/session.go:74-159 | A restart keeps every current session under its client id with its name, its unacknowledged deliveries and the subjects it awaits acks on. |
| `StepLaws.RestoreResumes` | bridge/session.go:161-173 | A remembered ack is forgotten as such, and subscribed to and awaited if NATS accepts it. |
| `StepLaws.PublishPlain` | bridge/nats.go:11-24 | A declined publish changes nothing; one at QoS 0 sends one message that carries it. |
| `StepLaws.PublishRequests` | bridge/nats.go:25-33 | Any other publish at QoS 1 is entered in the history, awaited by a subscription of its own and sent as one request, all three with one reply subject that spells it out. |
| `StepLaws.BridgedIsAwaited` | bridge/nats.go:127-145 | A message of the bridge is awaited under the id that its reply subject spells out. |
| `StepLaws.ForeignIsAwaited` | bridge/nats.go:134-144 | A request from outside is awaited at QoS 1 under the granted id. |
| `StepLaws.PubAckForwards` | bridge/session.go:207-222 | A PUBACK of a pending delivery takes off that one and sends one message to its reply subject, if there is one; any other does nothing. |
| `StepLaws.ForeignRequestIsAnswered` | bridge/nats.go:134-144 | A request from outside, delivered and acknowledged, is answered on its own reply subject, and nothing stays pending. |
| `StepLaws.WillIsSent` | bridge/server.go:291-319 | A will is sent as a message at QoS 0 and as a request of the server's own session above. |
| `WriteLoop.WriteBulk` | bridge/client.go:389-399 | The buffer holds the encodings of the bulk up to a sentinel, and the loop goes on exactly when there was none. |
| `WriteLoop.Fill` | bridge/client.go:378-388 | The bulk is the next packets of the queue: one, and as many more as are ready, as there are, and as 1024 has room for. |
| `WriteLoop.Run` | bridge/client.go:366-413 | For any schedule of bulks and failures, the cuts between bulks are where the size of each bulk puts them, every write but the last has succeeded, the bytes sent are the encodings up to the last cut and the first sentinel, and the outcome says why the loop stopped there: sentinel, failed write of the next bulk, or nothing more to do. |
| `WriteLoop.EndedHasWrittenAll` | bridge/client.go:391-412 | A loop that stopped at the sentinel has sent everything that was queued in front of it. |
| `WriteLoop.EncodeAllAppend` | bridge/client.go:366-413 | Writing in bulks and writing one at a time give the same bytes. |
| `WriteLoop.UpToAppend` | bridge/client.go:391-397 | What is queued behind a sentinel is never part of what is sent. |
| `LifeCycleLaws.StepKeepsInv` | bridge/client.go:147-420 | Every step of reader, writer, drain and callbacks keeps the invariant of a connection. |
| `LifeCycleLaws.RunKeepsInv` | bridge/client.go:147-420 | It holds after every interleaving. |
| `LifeCycleLaws.StateNeverGoesBack` | bridge/client.go:134-178 | The state never goes from connected to infant, nor anywhere from disconnected. |
| `LifeCycleLaws.OneConnect` | bridge/client.go:224-266 | After one CONNECT, accepted, refused or malformed, no other is let through. |
| `LifeCycleLaws.OneSentinel` | bridge/client.go:147-178 | However many threads call SetDisconnected, one sentinel is queued, and none while the state is not disconnected. |
| `LifeCycleLaws.ConnAckComesFirst` | bridge/client.go:255-266 | There is at most one CONNACK and it is first; behind a refusal there is only the sentinel; nothing is handled, resent or called back unless an accepting one is there. |
| `LifeCycleLaws.ConnAckIsNotSkipped` | bridge/client.go:343-364 | The check of the state before a CONNACK never holds it back. |
| `LifeCycleLaws.HandlersFindTheirFields` | bridge/client.go:242-310 | Every handler but that of CONNECT, every callback and the drain finds connect packet, session and NATS connection set. |
| `LifeCycleLaws.WireFollowsQueue` | bridge/client.go:366-413 | What is on the wire is a prefix of the queue up to the sentinel, all of it when the writer stops at the sentinel, and the bytes are the packets' encodings. |
| `Replies.RepliesAreKept` | bridge/client.go:360-364 | In every interleaving, what found the state connected when it was to be queued is, with repetitions, what handlers and callbacks have queued and what they are about to send. |
| `Replies.ReaderKeepsOrder` | bridge/client.go:360-364 | The reader's own packets stand in the queue in the order in which they passed the check. |
| `Replies.DeliveryReachesWire` | bridge/client.go:360-413 | A run in which a callback's PUBLISH reaches the wire behind the CONNACK. |
| `Endings.ReturnCodeTells` | bridge/client.go:255-266 | The CONNACK says 1 if the protocol level was refused, 3 if NATS refused the connection, and 0 otherwise. |
| `Endings.NothingAfterTheEnd` | bridge/client.go:201-311 | After a failed read or handler, a refusal or a DISCONNECT the reader does nothing but disconnect. |
| `Endings.EndsAreSeen` | bridge/client.go:147-178 | Once the reader closes, the drain comes or a write fails with more to come, the state is disconnected for good. |
| `Endings.StoppedIsSeen` | bridge/client.go:366-413 | The writer never stops while the state is not disconnected. |
| `LifeCycleLaws.WillIsPublishedUnlessDiscarded` | bridge/client.go:157-165 | The will is handed to PublishWill at most once, never after a DISCONNECT that came before the disconnection, and always by the end of SetDisconnected when it was not discarded. |
| `Wills.CrashExactly` | bridge/client.go:157-165 | The will is read as nil if and only if a DISCONNECT was handled between two reads of it by SetDisconnected: between HasWill and Will for PublishWill, or between that and Will for the log. |
| `Wills.DisconnectCrashes` | bridge/client.go:242-248 | A run in which the drain meets a DISCONNECT this way. |
| `Wills.RefusedWill` | bridge/client.go:312-341 | A will is published without an accepting CONNACK if and only if NATS refused the connection; once all is over, a client without an accepting CONNACK has had its will published exactly if it has one. |
| `Wills.RefusedWillIsPublished` | bridge/client.go:312-341 | A run in which NATS refuses the client and its will is published. |
| `Retained.RetainedMessages.Add` | bridge/retained.go:71-81 | Replaces the topic's message; a new topic goes to the end of the order. |
| `Retained.RetainedMessages.Drop` | bridge/retained.go:83-102 | The topic leaves the map and the order, the others keep their places. |
| `Retained.RetainedMessages.HandleRetain` | bridge/server.go:486-499 | An empty retained message deletes and loses its flag, another one is stored; other messages pass. |
| `Retained.RetainedMessages.MatchingMessages` | bridge/retained.go:121-150 | The messages and QoS values of the nested loops are those of the picks, aligned. |
| `Retained.RetainedMessages.PublishMatching` | bridge/retained.go:113-119 | All matching messages are queued in order while connected, and those of filters above QoS 0 are recorded, whatever QoS the message has. |
| `Retained.Picks` | bridge/retained.go:137-147 | The picks are every pair of a filter and a retained topic it matches, once, by filter and then by order. |
| `Retained.RequestedIsLast` | bridge/retained.go:113-119 | Of the messages that go out at QoS above 0 the session awaits the last one of each id, and nothing else of it changes. |
| `Retained.RequestedElsewhere` | bridge/retained.go:113-119 | Under an id that none of them has it awaits what it did before. |
| `Retained.ResetRetainClears` | bridge/server.go:486-499 | Resetting the flag clears bit 0 and keeps every other bit and field. |
| `Retained.StoreIsFold` | bridge/server.go:486-499 | After any history each topic holds its last retained message unless that was empty; the order lists each topic once, by when it was first retained since its last drop. |
| `Retained.SinceUnique` | bridge/retained.go:71-102 | That time is unique, so the order is determined by the history. |
| `Retained.RetainedHaveNoReply` | bridge/server.go:486-499 | When every message that HandleRetain was given was parsed from a client's bytes or made of a will, no retained message carries a reply subject. |
| `Records.PublishRoundTrip` | mqtt/pkg/publish.go:139-236 | A saved PUBLISH loads as itself, less the mark that this server sent it. |
| `Records.PayloadRoundTrip` | mqtt/pkg/publish.go:150-158 | Empty, printable and other payloads all come back. |
| `Records.CredentialsRoundTrip` | mqtt/pkg/credentials.go:22-58 | Saved credentials load as themselves; no password and an empty one stay apart. |
| `Records.NatsPubRoundTrip` | bridge/natspub.go:22-52 | A saved tracked publish loads with its packet and its credentials. |
| `Persistence.IdsRoundTrip` | mqtt/pkg/idmanager.go:58-112 | Cursor and ids in flight come back for any iteration order, whatever the loading manager's cursor was. |
| `Persistence.RetainedRoundTrip` | bridge/retained.go:38-69 | Retained messages come back in their order. |
| `Persistence.SessionRoundTrip` | bridge/session.go:74-159 | A session comes back with its ids, with its awaited acks as subjects, and with its unacknowledged deliveries. |
| `Persistence.ManagerRoundTrip` | bridge/session.go:302-346 | The seed and every session come back, on top of the sessions that are there. |
| `Persistence.PubEntriesRoundTrip` | bridge/server.go:462-475 | Tracked publishes come back under their packet ids. |
| `Persistence.TimestampSkipped` | bridge/server.go:448-476 | The unhandled key `ts` and its string value are both read as keys and skipped. |
| `Persistence.ServerRoundTrip` | bridge/server.go:415-484 | Loading what any server saved into any other gives exactly the stated server, for all iteration orders. |
| `Persistence.RestoredIffSavable` | bridge/server.go:415-484 | A fresh server knows everything again if and only if all loaded acks had been resumed before the save, no message is marked as sent by this server, and the session current for its own client id is as good as its own. |
| `Persistence.UnresumedAcksAreLost` | bridge/session.go:74-108 | A server that saves before the client of a loaded session has come back loses the acks that session awaits. |
| `FileFormat.PublishWritten` | mqtt/pkg/publish.go:139-160 | The tokens of a saved PUBLISH one by one; what is empty is left out, and a payload is encoded unless all its bytes are from 32 to 127. |
| `FileFormat.FileWritten` | bridge/server.go:415-440 | The whole file of a server that has one of everything, token by token. |
| `Loading.BridgeServer.UnmarshalFromJSON` | bridge/server.go:442-484 | For all token sequences the loop over the keys of a server returns, leaves unread and panics as the specification does, and the server's own session is then the one its manager holds. |
| `Saving.Snapshot` | bridge/server.go:342-353 | The ids of the tracked publishes, each once, ascending. |
| `Saving.WriteServer` | bridge/server.go:415-440 | Appends the tokens of the whole server, its maps in some order; what is empty is left out. |
| `Saving.Restart` | bridge/server.go:536-570 | What one server persists, another loads without a panic, and ends as stated by the round trip. |

## Left out

The other members of `Loading` and `Saving` are the readers and writers that `UnmarshalFromJSON` and `WriteServer` call,
each proved equal to its function in `Records` or `Persistence`; they have no rows above.

- NATS itself, sockets, TLS, files, signals, timers, deadlines, the command line and logging. NATS is a set of live
  subscriptions and the messages ever sent; any of them may be delivered any number of times to a matching one.
- `SubscriptionToRegexp` (mqtt/topic.go:22-41): its pattern is not MQTT's match. The match of a filter against a
  retained topic is a parameter.
- JSON text and base64: the state file is a sequence of tokens, and base64 is any pair in which decoding undoes
  encoding. Runes that are not valid UTF-8 are not told apart; the translation of topics works on characters.
- The source of the `jsonstream` decoder is not part of this model; its methods are modelled by how they are used.
- The CONNACK's session-present flag is part of `Clients.HandleConnect`; in `LifeCycle` it is any value.
- Races outside the locks, such as the result of `NextFreePacketID` read after unlocking or the timer that is reset.
- `Protocol.Apply`: a handler is one step here. Its interleavings with the writer, the drain and the callbacks of the
  same connection are the subject of `LifeCycle`.
- `LifeCycle.Apply`: what a handler does to sessions and to NATS is not part of the steps; a failing write sends
  nothing, where a socket may have taken a part of the bytes.
- `readLoop`, `handleConnect` and `SetDisconnected` are steps of `LifeCycle` and handlers of `Protocol`, not methods:
  what matters about them is how they interleave. `NextFreePacketID` is one step.
- `Wills.CrashExactly`: the first read of a deleted will ends the run; what `PublishWill` and the process do then is not
  modelled.
- `PublishWill` and `republish` (bridge/server.go:291-319, 372-413) are one step of `Protocol` that publishes for the
  server's session; the table of tracked publishes is modelled for the state file only, without its timer.
- `Protocol.DoRestart`: a shutdown that saves and a start that loads. A crash that leaves an older file is not modelled.
- `FreshnessLaws.RunKeepsFresh`: for runs with fewer than 2^32 sessions, since the seed wraps around then.
- `AckLaws.AckConservation`: one connection with one session. Acks awaited across a reconnect without a reload keep
  the subscriptions of the closed connection, and nothing is claimed about their arrival.
- `CodecLaws.PrintingUndoesParsing`: for PUBLISH, SUBSCRIBE, UNSUBSCRIBE and SUBACK. CONNECT ignores bytes behind its
  last field, and the other packets do not compare the declared length with what they read in all cases.
- `Topics.TranslationPreservesMatching`: for filters that section 4.7.1 of MQTT 3.1.1 allows. A topic that holds `+` or
  `#`, which section 3.3.2.1 forbids, is covered where the filter holds no literal `*` or `>`.
- `ProtocolLaws.EndToEnd`: the request topic and the other options are the same over a run, restarts included.
- `Saving.Snapshot`: `sort.Slice` is modelled by taking the least id that is left.
- `Retained.RetainedMessages.HandleRetain`, `CodecLaws.DeleteWillKeeps`: packets are values. That `SetDup`,
  `ResetRetain` and `DeleteWill` change a packet others may hold is not captured.
- No claim is made that ids awaited from clients are held in the allocator: delivered ids are copied from reply
  subjects (bridge/nats.go:131-133), so two deliveries may share one.
- QoS 2 (stubs in the source), `String` and `Equals`, `messagesMatchingRetainRequest` and the JSON reply of the retained
  request handler, and the list of managed clients.
