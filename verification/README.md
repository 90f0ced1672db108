# Wisp, verified

A Dafny model of Wisp, the ZeroMQ message broker that meshes, with proofs of what the system promises
over whole runs. `dafny verify dfyconfig.toml` checks the whole project.

Sockets are FIFO channels whose sends may be refused, threads are interleaved atomic steps, and
timeouts are events that may happen at any moment. Code that updates state in place is modelled by
classes whose methods are proved equal to functions on values; the properties are proved of those
functions, step by step and then for every run.

| files | what they model |
|---|---|
| `Keys`, `Text`, `Bytes` | scopes and reserved keys; the order of `std::string`; byte strings |
| `Registry`, `Dedup` | the two-index subscription registry; the open-addressed id set and its two rotating windows |
| `Replica` | one session seen from both ends: subscriptions replicated over a FIFO channel, forgotten and rebuilt by RESET. Used for peer links and for application clients |
| `Interest`, `BrokerCore`, `Broker` | what a broker wants from its peers; its state as a value; the broker class |
| `Mesh` | the control plane of any number of brokers: links dialed, forgotten, rebuilt, hung up and dialed again |
| `Aggregation`, `Cycle`, `Rest`, `Witness` | what it adds up to over many hops; what a dial cycle changes; coming to rest; runs that show what is not promised |
| `Flood`, `Reach`, `Origins` | the data plane: flooding, termination, reach, at-most-once delivery, and what local means |
| `Worker`, `WorkerLoop` | the client worker's loop as a state machine over producers, and as the loop itself |
| `Client`, `Application` | registrations, the union subscription, dispatch; the same on a broker of a running mesh |
| `Discovery` | who dials whom on which beacons |
| `AnyFrame`, `Recording` | the `google.protobuf.Any` frame and the capture file |

## What was found on the way

- Interest does not always have a source. From any rest, some run that keeps the links ends at rest
  with a new topic wanted and no reason for it anywhere if and only if links lead from some broker
  back to itself (`Cycle.SourcelessIffCycle`). Links made by discovery, where the smaller uuid dials,
  never do (`Aggregation.InterestHasSourceUphill`).
- A link that hung up leaves its topics wanted until its DISCONNECT arrives or the acceptor times it
  out (`Witness.HangUpLeavesInterest`). Such a session counts as a reason of its own kind, not as a
  subscriber.
- A link takes the same identity when it is dialed again, and a CONNECT clears nothing. If the acceptor
  still has the old session, topics it holds that the dialer no longer wants stay until the session is
  forgotten (`Witness.RedialKeepsStaleTopic`). The link starts on its goal if and only if the session
  holds nothing the dialer does not want (`Mesh.DialOnGoalIff`).
- Without a dial cycle the control plane comes to rest (`Rest.ComesToRest`). On one it need not: a topic
  asked for and given up before the first message is received can go round for ever
  (`Witness.NewsChasesItself`).
- A broker calls traffic local unless it came down a link the broker dialed; a client compares the
  broker id stamped on the message with its own broker's. They disagree exactly about what came up an
  inbound link (`Origins.DisagreeIffInbound`), which callbacks scoped to mesh traffic then miss
  (`Origins.MeshOnlyMissesInbound`). When every callback still gets what it is owed is
  `Client.UnionRefinesCallbacks`.
- common/connectionmanager.cpp:484-490 says an unknown broker id leaves every callback triggered. The
  code below that comment takes such a message for local, so callbacks scoped to mesh traffic are not
  called. The model follows the code; `Client.UnknownBrokerCallsAll` says when all are.
- A capture record reads back exactly when it is within the limits the reader enforces, which the
  writer does not check (`Recording.ReadsBackIff`).

## Model

| member | source | states |
|---|---|---|
| `Keys.ScopeRoundTrip` | common/messagekeys.h:97-109 | every scope survives the wire; the empty one widens to Any |
| `Keys.DecodedScopeAsksForSomething` | common/messagekeys.h:103-109 | no payload decodes to a scope that wants nothing |
| `Registry.SubscriptionRegistry.Subscribe` | server/subscriptionregistry.h:30-44 | the relation gains exactly this pair with this scope, both indices stay exact inverses, and the answer is true iff the relation changed |
| `Registry.SubscriptionRegistry.Unsubscribe` | server/subscriptionregistry.h:47-57 | the relation loses exactly this pair; true iff it was there |
| `Registry.SubscriptionRegistry.RemoveClient` | server/subscriptionregistry.h:59-68 | the relation loses exactly this client's pairs |
| `Registry.SubscriptionRegistry.DropSubscriber` | server/subscriptionregistry.h:105-121 | swap-with-back removal takes out one client and leaves no duplicate and no empty vector |
| `Registry.SwapOutMembers` | server/subscriptionregistry.h:113-117 | overwriting an entry by the last one and popping keeps every other subscriber, once |
| `Registry.SubscriptionRegistry.HasMeshSubscriber` | server/subscriptionregistry.h:87-93 | true iff some subscriber of the topic accepts mesh traffic |
| `Dedup.MaskIsModulo` | server/broker.h:58-79 | masking by the capacity less one is reduction modulo the capacity, so a masked step goes to the next slot or wraps |
| `Dedup.FreeSlot` | server/broker.h:129-140 | fewer ids than slots: every probe sequence meets a free slot |
| `Dedup.PlaceInsert` | server/broker.h:69-79 | writing an id at the first free slot of its probe sequence keeps every stored id reachable without crossing a free slot, across the wrap |
| `Dedup.MessageIdSet.Contains` | server/broker.h:58-67 | true iff the id was inserted since the last clear |
| `Dedup.MessageIdSet.Insert` | server/broker.h:69-79 | the contents gain exactly the id; every probe loop ends |
| `Dedup.MessageIdSet.Clear` | server/broker.h:83-86 | the contents are empty again |
| `Dedup.MessageIdSet.Size` | server/broker.h:81 | the number of ids held |
| `Dedup.RemembersRecent` | server/broker.h:343-348 | between N and 2N of the latest ids are remembered, all of them while fewer than 2N were accepted |
| `Dedup.WindowStep` | server/broker.cpp:683-701 | one more id fills the current window or rotates the two |
| `Dedup.AcceptedAtMostOnce` | server/broker.cpp:683-701 | two acceptances of one id have at least N others between them, and the later is never among the first 2N |
| `Dedup.DuplicateFilter.IsDuplicate` | server/broker.cpp:683-701 | true iff the normalised id is in the remembered suffix of the history; otherwise it joins the history |
| `Replica.ReceiveKeeps` | server/broker.cpp:474-535 | receiving the oldest message, with or without drawing a RESET, keeps the session on its goal, and the message is never refused |
| `Replica.ForgetKeeps` | server/broker.cpp:938-963 | forgetting the session at any moment and losing any prefix in flight keeps it on its goal |
| `Replica.PushKeeps` | server/broker.cpp:986-1095 | sending what a change of goal requires moves the session to the new goal |
| `Replica.RestoreKeeps` | server/broker.cpp:847-853 | sending everything, led by CONNECT or not, completes a session in any state |
| `Replica.OnTrackReceive` | server/broker.cpp:474-535 | the same for a session taken over with stale topics in it, and even past the broker's limits nothing else gets in |
| `Replica.OnTrackForget` | server/broker.cpp:938-963 | forgetting such a session rids it of what was stale |
| `Replica.OnTrackTakeover` | server/broker.cpp:812-889 | a link dialed onto a session is on its goal but for what the session holds outside it |
| `Interest.ChangeTracks` | server/broker.cpp:1034-1044 | one topic gaining or losing its last mesh subscriber keeps the interest equal to the topics wanted, through saturation and the wildcard |
| `Interest.LoseUnwantedTracks` | server/broker.cpp:938-963 | so do all the topics a removed client held, revisited in turn |
| `Interest.ChangeCarries` | server/broker.cpp:986-1095 | what is sent to the links for that change takes every remote from the old interest to the new |
| `Interest.SnapshotRestores` | server/broker.cpp:1097-1119 | the snapshot completes any remote: "*" alone when wide, each topic otherwise |
| `BrokerCore.HandleOk` | server/broker.cpp:466-536 | any control message keeps interest and registry in step and every subscriber known |
| `BrokerCore.RemoveOk` | server/broker.cpp:938-963 | so does removing a client with any number of topics |
| `BrokerCore.HandleView` | server/broker.cpp:474-535 | a control message moves only its sender's subscriptions, within the broker's limits, and draws a RESET iff the session is unknown and it is not a CONNECT |
| `Broker.Broker.NoteTopicSubscribed` | server/broker.cpp:986-1032 | the interest and what every link is sent are those of a gained topic |
| `Broker.Broker.NoteTopicUnsubscribed` | server/broker.cpp:1046-1095 | likewise for a lost one, the wildcard's snapshot included |
| `Broker.Broker.NoteMeshInterestChange` | server/broker.cpp:1034-1044 | acts iff the registry's answer for the topic moved |
| `Broker.Broker.RemoveClient` | server/broker.cpp:938-963 | the broker is what it was without the client, and every link is told |
| `Broker.Broker.HandleControl` | server/broker.cpp:474-535 | state, link traffic and RESET of a CONNECT, SUBSCRIBE or UNSUBSCRIBE |
| `Broker.Broker.CanAdd` | server/broker.cpp:658-664 | true iff the client already holds the topic or has a free place |
| `Broker.Broker.DeliverToSubscribers` | server/broker.cpp:558-623 | exactly the recipients are sent the message, each once |
| `Broker.Broker.FloodPeers` | server/broker.cpp:625-643 | exactly the links not told to unlink are flooded |
| `Broker.Broker.AddPeer` | server/broker.cpp:809-919 | a link opens iff neither key nor address is linked, and starts with CONNECT and the snapshot |
| `Broker.Broker.AnswerReset` | server/broker.cpp:847-853 | a RESET is answered with the whole interest |
| `Broker.Broker.HandleClientMessage` | server/broker.cpp:466-536 | the whole session half of a message |
| `Broker.Broker.ProcessMessage` | server/broker.cpp:410-464 | duplicates go first; sessions move for local senders only; a routed message goes to each recipient once and up every active link |
| `Mesh.StepKeeps` | server/broker.cpp:410-556 | every event of the control plane, hanging up and dialing again included, keeps every broker and every link right, and no broker ever leaves saturation |
| `Mesh.RunKeeps` | server/broker.cpp:986-1032 | the same over any run |
| `Mesh.GoneKeeps` | server/broker.cpp:921-936 | a departed link's DISCONNECT, or its timeout, keeps every other link on its goal |
| `Mesh.DialOnGoalIff` | server/broker.cpp:809-919 | a link starts on its goal iff the session it meets holds nothing outside what its broker wants |
| `Mesh.InterestMirrorsRegistry` | server/broker.cpp:516-535 | in every reachable mesh: the wildcard flag iff a "*" subscriber takes mesh traffic; until saturation the interest is exactly the propagatable topics with such a subscriber, at most 1000 |
| `Mesh.SubscribersAreRecipients` | server/broker.cpp:474-476 | in every reachable mesh no subscriber is unknown, so a subscription alone decides delivery |
| `Mesh.LinkConverges` | server/broker.cpp:986-1119 | in every reachable mesh the remote of a link will hold nothing outside the dialer's interest but what was stale when it was dialed; and unless it forgot the link, a RESET is owed or it is too full of stale topics, "*" when the dialer is wide and its whole interest otherwise, exactly that when nothing was stale |
| `Mesh.LinkNeverRefused` | server/broker.cpp:504-514 | the remote's set for a link never exceeds 1002 besides what was stale, and while that leaves room the next subscription is always accepted |
| `Aggregation.InterestTravels` | server/broker.h:257-260 | in a mesh at rest a topic wanted at a broker is wanted at every broker its dial edges lead to, and sent down each link on the way |
| `Aggregation.InterestHasSource` | server/broker.h:257-260 | every interest at rest leads back to an own subscriber, something a link left behind, a saturated broker or a dial cycle |
| `Aggregation.InterestHasSourceUphill` | server/discovery.cpp:36-40 | with the smaller uuid dialing there is no cycle, so every interest has a source |
| `Aggregation.SourceIsSubscriber` | server/broker.h:257-260 | with nothing left behind that source is a subscriber or saturation |
| `Cycle.CycleKeepsInterest` | server/broker.cpp:1034-1095 | for every mesh at rest, every way back from a broker to itself and every topic nobody wants and all have room for: a run that keeps the links and ends at rest with the topic wanted and no source |
| `Cycle.SourcelessIffCycle` | server/broker.cpp:1034-1095 | such a run exists iff links lead from some broker back to itself |
| `Cycle.WaveEnds` | server/broker.cpp:986-1032 | the news of a topic runs out on any topology, each broker passing it on once |
| `Rest.AcyclicRanked` | server/discovery.cpp:36-40 | links without a cycle can be ranked |
| `Rest.ComesToRest` | server/broker.cpp:474-535 | without a cycle, receiving, answering RESETs and signs of life from forgotten links can go on for only so long |
| `Rest.SettlesDown` | server/broker.cpp:847-853 | and some such run settles the mesh |
| `Witness.HangUpLeavesInterest` | server/broker.cpp:921-936 | after a hang-up a topic no client asked for is wanted, with no link left |
| `Witness.RedialKeepsStaleTopic` | server/broker.cpp:128-140 | after a redial nothing is in flight, no RESET is owed, and the acceptor sends a topic the dialer does not want |
| `Witness.InterestOutlivesItsSubscriber` | server/broker.cpp:1046-1095 | a reachable mesh of two brokers at rest with a topic wanted that has no source |
| `Witness.NewsChasesItself` | server/broker.cpp:1034-1095 | on a cycle four receipts can lead back to the same state |
| `Flood.RoutingIsFiltering` | server/broker.cpp:416-464 | for a known sender the duplicate filter alone decides whether a message is routed |
| `Flood.RoutedAtMostOnce` | server/broker.cpp:683-701 | on any topology a broker that routes an id twice accepted at least N other ids between, and at least 2N before the second time |
| `Flood.FloodingEnds` | server/broker.cpp:625-643 | with nothing new published a run is no longer than copies in flight plus 2 * links * unseen (broker, id) pairs |
| `Reach.MeshReach` | server/broker.cpp:558-643 | once nothing is in flight, a message on a propagatable topic has reached every other client that takes it from anywhere, wherever some broker is led to by both ends |
| `Reach.DeliveredAtMostOnce` | server/broker.cpp:558-643 | until some broker has accepted 2N ids no client is delivered a message twice, whatever is published on whatever topology |
| `Origins.DisagreeIffInbound` | server/broker.cpp:574 | about a routed message broker and client disagree iff it came up an inbound link |
| `Origins.MeshOnlyMissesInbound` | common/connectionmanager.cpp:491-495 | then callbacks scoped to mesh traffic are owed it and not called |
| `Worker.DataNeverOvertakesControl` | common/zmqworker.cpp:394-459 | for any interleaving: when data is put on the socket, every control message accepted before it was already sent or counted as dropped |
| `Worker.NothingLostOrReordered` | common/zmqworker.cpp:293-319 | per kind, sent or dropped + backlogged + in hand + queued is everything accepted, once and in order |
| `Worker.AnswersRunAhead` | common/zmqworker.cpp:525-531 | the k-th answer belongs to a heartbeat of index at least k, even if some were refused |
| `Worker.SyncMeansProcessed` | common/zmqworker.cpp:125-159 | when sync() returns true, everything accepted before it was sent or dropped before a heartbeat the broker has answered |
| `WorkerLoop.SafeQueue.Push` | common/safequeue.h:94-116 | accepted iff running and not full, at the back; tells whether it was empty |
| `WorkerLoop.SafeQueue.TryPop` | common/safequeue.h:42-54 | the front, if any |
| `WorkerLoop.SafeQueue.DrainTo` | common/safequeue.h:59-69 | everything, in order |
| `WorkerLoop.ZmqWorker.Enqueue` | common/zmqworker.cpp:166-183 | a producer's push is a move of the machine |
| `WorkerLoop.ZmqWorker.Receive` | common/zmqworker.cpp:351-388 | what a poll brings is a move of the machine |
| `WorkerLoop.ZmqWorker.DrainControlQueue` | common/zmqworker.cpp:394-398 | likewise taking the control queue |
| `WorkerLoop.ZmqWorker.TrimControlBacklog` | common/zmqworker.cpp:399-406 | likewise giving up the oldest control beyond the limit |
| `WorkerLoop.ZmqWorker.FlushControl` | common/zmqworker.cpp:311-319 | likewise sending control, producers interleaved; it stops short only when the pipe refuses |
| `WorkerLoop.ZmqWorker.DrainOutboundQueue` | common/zmqworker.cpp:416 | likewise taking the data queue when online |
| `WorkerLoop.ZmqWorker.PlaceDrained` | common/zmqworker.cpp:421-434 | likewise sending a batch directly or holding it |
| `WorkerLoop.ZmqWorker.SendBatch` | common/zmqworker.cpp:293-300 | likewise sending or dropping each of the batch |
| `WorkerLoop.ZmqWorker.SendHeldData` | common/zmqworker.cpp:455-459 | likewise the held data, only behind all control |
| `WorkerLoop.ZmqWorker.SendHeartbeat` | common/zmqworker.cpp:525-531 | a heartbeat is counted whether or not the pipe takes it |
| `WorkerLoop.ZmqWorker.CheckSyncRequest` | common/zmqworker.cpp:480-492 | the barrier's heartbeat goes out iff nothing waits anywhere |
| `WorkerLoop.ZmqWorker.TickClock` | common/zmqworker.cpp:494-506 | periodic heartbeat and going offline |
| `WorkerLoop.ZmqWorker.RunLoop` | common/zmqworker.cpp:326-506 | any number of rounds of the loop is a run of the machine, so all of the above holds of the code |
| `WorkerLoop.ZmqWorker.SyncAnswered` | common/zmqworker.cpp:152-158 | the answer sync() gives implies the barrier |
| `Client.UnionAccepts` | common/connectionmanager.cpp:29-35 | the union accepts an origin iff some callback does |
| `Client.UnionScope` | common/connectionmanager.cpp:29-35 | the loop computes the union |
| `Client.ConnectionManager.CreateSubscribeEnvelope` | common/connectionmanager.cpp:590-597 | a SUBSCRIBE carries the union, as the broker decodes it |
| `Client.ConnectionManager.PerformRegistration` | common/connectionmanager.cpp:525-540 | the callback is last in its list, the broker is told iff connected, and the scoped count stays the number of non-Any registrations |
| `Client.ConnectionManager.PerformUnregistration` | common/connectionmanager.cpp:542-584 | the instance's callbacks go; the last one sends UNSUBSCRIBE even offline, a changed union SUBSCRIBE; the scoped count follows |
| `Client.ConnectionManager.StatusHandler` | common/connectionmanager.cpp:221-241 | going online sends CONNECT and every subscription |
| `Client.ConnectionManager.ResubscribeAll` | common/connectionmanager.cpp:357-364 | a RESET is answered with every subscription |
| `Client.StepSafely` | common/connectionmanager.cpp:525-584 | whatever is registered, no event strands a topic or takes a session past the broker's limits |
| `Client.StepKeeps` | common/connectionmanager.cpp:525-584 | within the broker's limits every event of client or broker keeps the session on what the registrations want |
| `Client.ReplicaConverges` | common/connectionmanager.cpp:221-241 | in every run the broker never ends up with a topic without a callback, online or not; within its limits, connected and with no RESET owed it ends up with exactly each topic's union |
| `Client.ExactNeedsCaps` | server/broker.cpp:504-514 | at rest an exact view means the registrations are within the limits |
| `Client.ConnectionManager.HandleMessage` | common/connectionmanager.cpp:456-523 | exact then wildcard callbacks whose scope accepts the origin are called in order; skipping the origin test when nothing is scoped is invisible |
| `Client.UnionRefinesCallbacks` | common/connectionmanager.cpp:456-523 | broker's union plus client's filter call each callback exactly as often as it is owed iff both agree on the origin, or nothing is registered, or some callback wants what the broker takes the origin for |
| `Application.RunsAlone` | server/broker.cpp:466-536 | whatever the rest of a mesh does, the session a broker keeps for a client runs as it would alone |
| `Application.EveryRunDispatches` | common/connectionmanager.cpp:456-523 | so at the end of any run of the mesh with nothing in flight every callback is called once per registration iff its own scope accepts the message |
| `Client.UnknownBrokerCallsAll` | common/connectionmanager.cpp:491-495 | a message taken for local calls every callback iff none is scoped to mesh traffic only |
| `Client.UnscopedIgnoresOrigin` | common/connectionmanager.cpp:491-495 | with no scoped registration the origin changes nothing |
| `Discovery.BrokerDiscovery.OnDatagram` | server/discovery.cpp:28-71 | dial, refresh or ignore, as the beacon calls for |
| `Discovery.BrokerDiscovery.SetCluster` | server/discovery.cpp:73-93 | a new name drops every link once, in some order |
| `Discovery.BrokerDiscovery.ExpireStale` | server/discovery.cpp:95-113 | exactly the peers silent for more than five seconds are dropped, each once |
| `Discovery.DiscoveryBooks` | server/discovery.cpp:28-113 | after any history the links dialed and not dropped are the table, at most 64, all greater than the own uuid, none dialed twice without a drop, each last refreshed in the current cluster by the beacon its entry describes |
| `Discovery.LinkedIffHeard` | server/discovery.cpp:28-113 | unless the table has been full, a peer is linked iff its uuid is greater and its last beacon was heard in the current cluster, since the last swap and in time for every expiry pass |
| `Discovery.OneSideDials` | server/discovery.cpp:36-40 | of two brokers at most one ever dials the other |
| `Discovery.LivePeerKept` | server/discovery.cpp:48-58 | a linked peer that keeps beaconing keeps its link whatever else is heard |
| `AnyFrame.VarintRoundTrip` | common/anyframe.h:41-54 | every 64-bit number reads back from its varint whatever follows |
| `AnyFrame.ParseConcat` | common/anyframe.h:58-101 | after a message whatever follows parses as it would alone |
| `AnyFrame.ReadConcat` | common/anyframe.h:58-101 | reading a ++ b succeeds iff b does once a does, b's fields overriding a's |
| `AnyFrame.AnyRoundTrip` | common/connectionmanager.h:185-196 | the reader gets back exactly the type url and body the encoder wrote |
| `AnyFrame.ReadVarint` | common/anyframe.h:41-54 | at most ten bytes, 64 bits, cursor past the last |
| `AnyFrame.ReadField` | common/anyframe.h:60-99 | one field of each wire type, its view when length-delimited |
| `AnyFrame.Read` | common/anyframe.h:39-103 | terminates on every byte string with both views inside it, showing the last type url and value |
| `AnyFrame.TypeNameOf` | common/anyframe.h:109-118 | a name iff the bytes parse and the url has the prefix |
| `AnyFrame.AppendLengthDelimited` | common/connectionmanager.h:121-130 | appends tag, varint length and bytes |
| `AnyFrame.EncodePayload` | common/connectionmanager.h:185-196 | the frame of a protobuf value |
| `Recording.LeRoundTrip` | cli/recording.cpp:22-49 | little-endian numbers read back |
| `Recording.AppendLe32` | cli/recording.cpp:22-26 | appends four bytes, lowest first |
| `Recording.AppendLe64` | cli/recording.cpp:28-33 | appends eight, two's complement |
| `Recording.ReadLe` | cli/recording.cpp:35-49 | the byte loop computes the number |
| `Recording.RecordWriter.Open` | cli/recording.cpp:62-75 | the file starts with the magic |
| `Recording.RecordWriter.Write` | cli/recording.cpp:77-107 | while no write falls short the file is exactly the capture of the records, the first at offset 0 |
| `Recording.RecordReader.Open` | cli/recording.cpp:127-141 | succeeds iff the file starts with the magic |
| `Recording.RecordReader.Read` | cli/recording.cpp:143-189 | the next record, a clean end or the kind of damage |
| `Recording.ReadsBackIff` | cli/recording.cpp:143-189 | a record reads back from what was written for it iff it is within the limits |
| `Recording.CutRecord` | cli/recording.cpp:143-189 | a cut record is reported by the part the cut falls in |
| `Recording.WholeIsMost` | cli/recording.h:79-84 | the records counted as wholly before a cut are as many as fit |
| `Recording.TruncatedFile` | cli/recording.h:79-84 | cut anywhere after the magic, a capture yields exactly the records wholly before the cut, and a clean end iff the cut is on a record boundary |

## Left out

Assumptions the proofs rest on:

- Each of noteTopicSubscribed, noteTopicUnsubscribed, addPeer, the RESET reply and each discovery call is one atomic step; the code holds no lock across the first four.
- common/zmqworker.cpp:480-489 is one atomic step; the code holds no lock across those lines either. Everywhere else producers interleave between the loop's steps.
- Control queues of links and clients never refuse a message, and RESETs are lost only together with the session that drew them.
- Identities at one acceptor differ, and no ordinary client uses a link's. A link is dialed again once what was in flight on the old connection has arrived or is lost.
- The data plane runs over a control plane at rest; publishers have sessions; a message is published under an id no broker has accepted and no copy carries, and stamped with the broker it is published at. A client knows its broker's id.
- Header encoding round-trips; whether a captured header decodes is a parameter.
- Iteration over `std::set` and `std::map` is in string order; iteration over a hash table is in any order.

Not modelled, or stated weaker:

- WorkerLoop.SafeQueue.Push: waiting for room and waking waiters are left out; a push that would wait is refused, as one that waited out its timeout is.
- Broker.Broker.HandleClientMessage: SET_CLUSTER and the answer to a heartbeat are left out.
- Broker.Broker.ProcessMessage: stamping a fresh message with id and broker, the inspector tap and SET_CLUSTER are left out; ids come stamped.
- WorkerLoop.ZmqWorker.CheckSyncRequest: the emptiness test of the pre-encoded queue is left out with that queue.
- WorkerLoop.ZmqWorker.RunLoop: the pre-encoded queue's part of a round is left out.
- Mesh.LinkConverges: the complete half holds while a link's stale topics leave room for 1002 more, which can be read off at the dial; past that the acceptor may refuse some.
- Client.ReplicaConverges: the exact half is stated for registrations within what a broker grants one client, 10000 topics of 1 to 512 bytes, all along; Client.ExactNeedsCaps says they must be at the end.
- Rest.ComesToRest: what departed links still have in flight is not counted; SettlesDown starts with none of it.
- Reach.MeshReach: stated for subscribers that take any origin; scoped ones depend on the path a copy takes.
- Reach.DeliveredAtMostOnce: stated while no broker has accepted 2N ids; after that eviction can let a copy through again.
- Flood.FloodingEnds: stated for fewer than 2N distinct ids, so that nothing is evicted.
- What the loop does once it is told to stop (common/zmqworker.cpp:508-523).
- Pre-encoded peer data and its order against control (common/zmqworker.cpp:461-470).
- SET_CLUSTER and sending UNLINK; receiving UNLINK is the link's `active` flag, which only stops flooding to it.
- Uuid generation, FNV hashing of ids and beacon text: ids, uuids and decoded beacons are taken as given.
- Registrations made before the connection manager exists, request/reply topics, exceptions in callbacks.
- Statistics, logging, throttles, the inspector, language bindings, command-line tools: they would only add easy members.
