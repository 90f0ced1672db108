/** The broker itself (server/broker.cpp): sessions, interest bookkeeping, delivery and flooding,
    each method tied to what it does to the state as a value. */
module Broker {
  import opened Keys
  import opened Registry
  import opened Replica
  import opened Interest
  import opened BrokerCore
  import opened Dedup
  import Text

  /** A link this broker dialed; `control` is everything queued on its control channel so far. */
  datatype PeerLink = PeerLink(address: string, linkId: ClientId, control: seq<Ctl>, active: bool)

  type Peers = map<string, PeerLink>

  function Queued(link: PeerLink, out: seq<Ctl>): PeerLink {
    link.(control := link.control + out)
  }

  /** Every link told the same messages. */
  function Broadcast(peers: Peers, out: seq<Ctl>): Peers {
    map k | k in peers :: Queued(peers[k], out)
  }

  lemma BroadcastNothing(peers: Peers)
    ensures Broadcast(peers, []) == peers
  {
    forall k | k in peers ensures Queued(peers[k], []) == peers[k] {
      assert peers[k].control + [] == peers[k].control;
    }
  }

  lemma BroadcastTwice(peers: Peers, a: seq<Ctl>, b: seq<Ctl>)
    ensures Broadcast(Broadcast(peers, a), b) == Broadcast(peers, a + b)
  {
    forall k | k in peers ensures Queued(Queued(peers[k], a), b) == Queued(peers[k], a + b) {
      assert peers[k].control + a + b == peers[k].control + (a + b);
    }
  }

  predicate Accepts(rel: Relation, c: ClientId, t: Topic, isLocal: bool) {
    (c, t) in rel && ScopeAccepts(rel[(c, t)], isLocal)
  }

  /** Who gets a routed message: every known client whose exact or wildcard subscription accepts its
      origin, except a local sender. */
  predicate Recipient(b: Core, t: Topic, sender: ClientId, fromPeer: bool, c: ClientId) {
    && (fromPeer || c != sender)
    && c in b.clients
    && (Accepts(b.rel, c, t, !fromPeer) || Accepts(b.rel, c, WILDCARD, !fromPeer))
  }

  datatype Message = Message(id: MessageId, key: string, topic: Topic)

  /** What reaches the broker, from a local client or across a peer link. */
  datatype Inbound = Disconnect | Heartbeat | Control(ctl: Ctl) | Publish(msg: Message)

  /** What processing does: the new state and history, what every link is sent, whether the sender
      is sent a RESET, and whether the message is routed on. */
  datatype Processed = Processed(core: Core, history: seq<MessageId>, out: seq<Ctl>, reset: bool, routed: bool)

  function ClientEffect(b: Core, m: Inbound, sender: ClientId): Effect {
    match m
    case Disconnect => Remove(b, sender)
    case Control(ctl) => Handle(b, sender, ctl)
    case Heartbeat => Touch(b, sender, false)
    case Publish(_) => Touch(b, sender, false)
  }

  /** Duplicates go first, before the session is touched; control keys act for local clients only;
      a reserved key nobody recognised is dropped rather than routed. */
  function Process(b: Core, h: seq<MessageId>, m: Inbound, sender: ClientId, fromPeer: bool): Processed {
    var data := m.Publish? && !IsReserved(m.msg.key);
    if data && Normalise(m.msg.id) in Remembered(h) then Processed(b, h, [], false, false)
    else
      var h' := if data then Observe(h, m.msg.id) else h;
      if fromPeer then Processed(b, h', [], false, data)
      else
        var e := ClientEffect(b, m, sender);
        Processed(e.core, h', e.out, e.reset, data)
  }

  predicate NoRepeats<T(==)>(s: seq<T>) {
    forall i, j :: 0 <= i < j < |s| ==> s[i] != s[j]
  }

  lemma NoRepeatsConcat<T>(a: seq<T>, b: seq<T>)
    requires NoRepeats(a) && NoRepeats(b) && forall x :: x in a ==> x !in b
    ensures NoRepeats(a + b)
  {
    forall i, j | 0 <= i < j < |a + b|
      ensures (a + b)[i] != (a + b)[j]
    {
      if i < |a| <= j { assert a[i] in a && b[j - |a|] in b; }
    }
  }

  /** Some entry of the vector is this client's and accepts the origin. */
  predicate Serves(subs: seq<Subscriber>, c: ClientId, isLocal: bool) {
    exists i :: 0 <= i < |subs| && subs[i].client == c && ScopeAccepts(subs[i].scope, isLocal)
  }

  function Vector(ts: TopicSubscribers, t: Topic): seq<Subscriber> {
    if t in ts then ts[t] else []
  }

  /** The vectors the delivery loops walk say what the relation says. */
  lemma VectorServes(ct: ClientTopics, ts: TopicSubscribers, c: ClientId, t: Topic, isLocal: bool)
    requires Linked(ct, ts)
    ensures Serves(Vector(ts, t), c, isLocal) <==> Accepts(RelationOf(ct), c, t, isLocal)
  {
    var subs := Vector(ts, t);
    RelationLookup(ct, (c, t));
    if Serves(subs, c, isLocal) {
      var i :| 0 <= i < |subs| && subs[i].client == c && ScopeAccepts(subs[i].scope, isLocal);
      assert subs[i] in ts[t];
    }
    if Accepts(RelationOf(ct), c, t, isLocal) {
      var s := Subscriber(c, ct[c][t]);
      assert s in subs;
      var i :| 0 <= i < |subs| && subs[i] == s;
    }
  }

  lemma ServesSnoc(subs: seq<Subscriber>, s: Subscriber, isLocal: bool)
    ensures forall c :: Serves(subs + [s], c, isLocal) <==>
              Serves(subs, c, isLocal) || (s.client == c && ScopeAccepts(s.scope, isLocal))
  {
    var all := subs + [s];
    assert all[|subs|] == s;
    assert forall i :: 0 <= i < |subs| ==> all[i] == subs[i];
  }

  lemma ServesAt(subs: seq<Subscriber>, c: ClientId, pos: nat, isLocal: bool)
    requires Distinct(subs) && pos <= |subs|
    requires if pos < |subs| then subs[pos].client == c else forall s :: s in subs ==> s.client != c
    ensures Serves(subs, c, isLocal) <==> pos < |subs| && ScopeAccepts(subs[pos].scope, isLocal)
  {
    if Serves(subs, c, isLocal) {
      var i :| 0 <= i < |subs| && subs[i].client == c && ScopeAccepts(subs[i].scope, isLocal);
      assert subs[i] in subs;
    }
  }

  lemma VectorsServe(ct: ClientTopics, ts: TopicSubscribers, t: Topic, isLocal: bool)
    requires Linked(ct, ts)
    ensures forall c :: Serves(Vector(ts, t), c, isLocal) <==> Accepts(RelationOf(ct), c, t, isLocal)
  {
    forall c
      ensures Serves(Vector(ts, t), c, isLocal) <==> Accepts(RelationOf(ct), c, t, isLocal)
    {
      VectorServes(ct, ts, c, t, isLocal);
    }
  }

  lemma ServesNobody(isLocal: bool)
    ensures forall c :: !Serves([], c, isLocal)
  {
  }

  lemma HeldTopics(ct: ClientTopics, c: ClientId)
    ensures TopicsOf(RelationOf(ct), c) == if c in ct then ct[c].Keys else {}
  {
    forall t
      ensures t in TopicsOf(RelationOf(ct), c) <==> c in ct && t in ct[c]
    {
      RelationLookup(ct, (c, t));
    }
  }

  lemma NoChange(i: Interest, t: Topic, now: bool)
    ensures Change(i, t, now, now) == Noted(i, [])
  {
  }

  class Broker {
    var clients: set<ClientId>
    const subscriptions: SubscriptionRegistry
    var topics: set<Topic>
    var saturated: bool
    var wildcard: bool
    var peers: Peers

    ghost function Wants(): Interest
      reads this
    {
      Interest(topics, saturated, wildcard)
    }

    ghost function View(): Core
      reads this, subscriptions
    {
      Core(clients, subscriptions.Rel(), Wants())
    }

    ghost predicate Valid()
      reads this, subscriptions
    {
      subscriptions.Valid() && Ok(View())
    }

    constructor ()
      ensures Valid() && fresh(subscriptions)
      ensures View() == FRESH && peers == map[]
    {
      subscriptions := new SubscriptionRegistry();
      clients, topics, saturated, wildcard, peers := {}, {}, false, false, map[];
      new;
      FreshOk();
    }

    /** Queues the messages on one link, in order. */
    static method Send(link: PeerLink, ms: seq<Ctl>) returns (link': PeerLink)
      ensures link' == Queued(link, ms)
    {
      link' := Queued(link, []);
      for i := 0 to |ms|
        invariant link' == Queued(link, ms[..i])
      {
        link' := link'.(control := link'.control + [ms[i]]);
        assert ms[..i + 1] == ms[..i] + [ms[i]];
        assert link.control + ms[..i] + [ms[i]] == link.control + (ms[..i] + [ms[i]]);
      }
      assert ms[..|ms|] == ms;
    }

    /** Queues the messages on every link. */
    method Tell(ms: seq<Ctl>)
      modifies this`peers
      ensures peers == Broadcast(old(peers), ms)
    {
      hide Queued;
      var left := peers.Keys;
      while left != {}
        invariant peers.Keys == old(peers).Keys && left <= peers.Keys
        invariant forall k :: k in peers ==>
          peers[k] == if k in left then old(peers)[k] else Queued(old(peers)[k], ms)
      {
        var k :| k in left;
        var link := Send(peers[k], ms);
        peers := peers[k := link];
        left := left - {k};
      }
    }

    method NoteTopicSubscribed(t: Topic)
      modifies this`topics, this`saturated, this`wildcard, this`peers
      ensures Wants() == Gain(old(Wants()), t).interest
      ensures peers == Broadcast(old(peers), Gain(old(Wants()), t).out)
    {
      BroadcastNothing(peers);
      if t == WILDCARD {
        if wildcard {
          return;
        }
        wildcard := true;
        Tell([Sub(WILDCARD, ANY)]);
        return;
      }
      if !Propagatable(t) || saturated || t in topics {
        return;
      }
      topics := topics + {t};
      var saturatedNow := false;
      if |topics| > MAX_INTEREST {
        saturated := true;
        saturatedNow := true;
      }
      Tell([Sub(if saturatedNow then WILDCARD else t, ANY)]);
    }

    method NoteTopicUnsubscribed(t: Topic)
      modifies this`topics, this`saturated, this`wildcard, this`peers
      ensures Wants() == Lose(old(Wants()), t).interest
      ensures peers == Broadcast(old(peers), Lose(old(Wants()), t).out)
    {
      BroadcastNothing(peers);
      if t == WILDCARD {
        if !wildcard {
          return;
        }
        wildcard := false;
        if saturated {
          return;
        }
        Tell([Unsub(WILDCARD)] + SubAll(Text.Sorted(topics)));
        return;
      }
      if !Propagatable(t) || saturated || t !in topics {
        return;
      }
      topics := topics - {t};
      Tell([Unsub(t)]);
    }

    method NoteMeshInterestChange(t: Topic, before: bool)
      requires subscriptions.Valid()
      modifies this`topics, this`saturated, this`wildcard, this`peers
      ensures Wants() == Change(old(Wants()), t, before, t in Wanted(subscriptions.Rel())).interest
      ensures peers == Broadcast(old(peers), Change(old(Wants()), t, before, t in Wanted(subscriptions.Rel())).out)
    {
      BroadcastNothing(peers);
      var now := subscriptions.HasMeshSubscriber(t);
      if now == before {
        return;
      }
      if now {
        NoteTopicSubscribed(t);
      } else {
        NoteTopicUnsubscribed(t);
      }
    }

    /** The topics the client holds that somebody here wants from the mesh. */
    method HeldMeshTopics(c: ClientId) returns (held: seq<Topic>)
      requires subscriptions.Valid()
      ensures held == Text.Sorted(TopicsOf(subscriptions.Rel(), c) * Wanted(subscriptions.Rel()))
    {
      hide Text.Sorted, RelationOf, Linked, TopicsOf, Wanted;
      ghost var wanted := Wanted(subscriptions.Rel());
      HeldTopics(subscriptions.clientTopics, c);
      held := [];
      if c !in subscriptions.clientTopics {
        Text.IncreasingIsSorted([], {});
        return;
      }
      var all := Text.Sorted(subscriptions.clientTopics[c].Keys);
      Text.FilterSorted(subscriptions.clientTopics[c].Keys, wanted);
      for i := 0 to |all|
        invariant held == Text.Filter(all[..i], wanted)
      {
        var meshWanted := subscriptions.HasMeshSubscriber(all[i]);
        if meshWanted { held := held + [all[i]]; }
        assert all[..i + 1][..i] == all[..i];
      }
      assert all[..|all|] == all;
    }

    method RemoveClient(c: ClientId)
      requires Valid()
      modifies this, subscriptions
      ensures Valid()
      ensures View() == Remove(old(View()), c).core
      ensures peers == Broadcast(old(peers), Remove(old(View()), c).out)
    {
      var meshTopics := HeldMeshTopics(c);
      subscriptions.RemoveClient(c);
      clients := clients - {c};
      NoteGone(meshTopics);
      RemoveOk(old(View()), c);
    }

    /** Revisits topics that were wanted until now, in turn. */
    method NoteGone(gone: seq<Topic>)
      requires subscriptions.Valid()
      modifies this`topics, this`saturated, this`wildcard, this`peers
      ensures Wants() == LoseUnwanted(old(Wants()), gone, Wanted(subscriptions.Rel())).interest
      ensures peers == Broadcast(old(peers), LoseUnwanted(old(Wants()), gone, Wanted(subscriptions.Rel())).out)
    {
      ghost var wanted := Wanted(subscriptions.Rel());
      ghost var sent: seq<Ctl> := [];
      BroadcastNothing(peers);
      for i := 0 to |gone|
        invariant LoseUnwanted(old(Wants()), gone, wanted).interest == LoseUnwanted(Wants(), gone[i..], wanted).interest
        invariant LoseUnwanted(old(Wants()), gone, wanted).out == sent + LoseUnwanted(Wants(), gone[i..], wanted).out
        invariant peers == Broadcast(old(peers), sent)
      {
        ghost var step := Change(Wants(), gone[i], true, gone[i] in wanted);
        assert gone[i..][1..] == gone[i + 1..];
        NoteMeshInterestChange(gone[i], true);
        BroadcastTwice(old(peers), sent, step.out);
        sent := sent + step.out;
      }
      assert gone[|gone|..] == [] && sent + [] == sent;
    }

    /** A CONNECT, SUBSCRIBE or UNSUBSCRIBE from a client; true when it is owed a RESET. */
    method HandleControl(sender: ClientId, m: Ctl) returns (reset: bool)
      requires Valid()
      modifies this, subscriptions
      ensures Valid()
      ensures View() == Handle(old(View()), sender, m).core
      ensures peers == Broadcast(old(peers), Handle(old(View()), sender, m).out)
      ensures reset == Handle(old(View()), sender, m).reset
    {
      HandleOk(View(), sender, m);
      BroadcastNothing(peers);
      reset := sender !in clients && !m.Connect?;
      clients := clients + {sender};
      if m.Sub? {
        HandleSubscribe(sender, m.topic, m.scope);
      } else if m.Unsub? {
        HandleUnsubscribe(sender, m.topic);
      }
    }

    method HandleSubscribe(sender: ClientId, t: Topic, scope: Origin)
      requires subscriptions.Valid()
      modifies this`topics, this`saturated, this`wildcard, this`peers, subscriptions
      ensures subscriptions.Valid() && subscriptions.Rel() == Record(old(subscriptions.Rel()), sender, Sub(t, scope))
      ensures var n := Change(old(Wants()), t, t in old(Wanted(subscriptions.Rel())), t in Wanted(subscriptions.Rel()));
              Wants() == n.interest && peers == Broadcast(old(peers), n.out)
    {
      hide RelationOf, Wanted, Change;
      NoChange(Wants(), t, t in Wanted(subscriptions.Rel()));
      BroadcastNothing(peers);
      if !LegalTopic(t) {
        return;
      }
      var allowed := CanAdd(sender, t);
      if !allowed {
        return;
      }
      var before := subscriptions.HasMeshSubscriber(t);
      var changed := subscriptions.Subscribe(sender, t, scope);
      if changed { NoteMeshInterestChange(t, before); }
    }

    method HandleUnsubscribe(sender: ClientId, t: Topic)
      requires subscriptions.Valid()
      modifies this`topics, this`saturated, this`wildcard, this`peers, subscriptions
      ensures subscriptions.Valid() && subscriptions.Rel() == Record(old(subscriptions.Rel()), sender, Unsub(t))
      ensures var n := Change(old(Wants()), t, t in old(Wanted(subscriptions.Rel())), t in Wanted(subscriptions.Rel()));
              Wants() == n.interest && peers == Broadcast(old(peers), n.out)
    {
      hide RelationOf, Wanted, Change;
      NoChange(Wants(), t, t in Wanted(subscriptions.Rel()));
      BroadcastNothing(peers);
      var before := subscriptions.HasMeshSubscriber(t);
      var existed := subscriptions.Unsubscribe(sender, t);
      if existed {
        NoteMeshInterestChange(t, before);
      } else {
        assert subscriptions.Rel() == old(subscriptions.Rel());
      }
    }

    method CanAdd(c: ClientId, t: Topic) returns (ok: bool)
      requires subscriptions.Valid()
      ensures ok <==> CanSubscribe(subscriptions.Rel(), c, t)
    {
      hide RelationOf, TopicsOf;
      HeldTopics(subscriptions.clientTopics, c);
      if c !in subscriptions.clientTopics {
        return true;
      }
      var held := subscriptions.clientTopics[c];
      return t in held || |held| < MAX_SUBSCRIPTIONS;
    }

    /** One delivery loop: everyone in `subs` who accepts the message, except the local sender,
        strangers and those `served` already accounts for. */
    static method DeliverTo(subs: seq<Subscriber>, served: seq<Subscriber>, known: set<ClientId>,
                            sender: ClientId, fromPeer: bool)
      returns (sends: seq<ClientId>)
      requires Distinct(subs) && Distinct(served)
      ensures NoRepeats(sends)
      ensures forall c :: c in sends <==>
                Serves(subs, c, !fromPeer) && (fromPeer || c != sender) && c in known && !Serves(served, c, !fromPeer)
    {
      sends := [];
      for i := 0 to |subs|
        invariant NoRepeats(sends)
        invariant forall c :: c in sends <==>
          Serves(subs[..i], c, !fromPeer) && (fromPeer || c != sender) && c in known && !Serves(served, c, !fromPeer)
      {
        var c := subs[i].client;
        assert subs[..i + 1] == subs[..i] + [subs[i]];
        assert forall k :: 0 <= k < i ==> subs[..i][k].client != c;
        ServesSnoc(subs[..i], subs[i], !fromPeer);
        var pos := SubscriptionRegistry.Find(served, c);
        var skip := pos < |served| && ScopeAccepts(served[pos].scope, !fromPeer);
        assert skip <==> Serves(served, c, !fromPeer) by { ServesAt(served, c, pos, !fromPeer); }
        if !skip && (fromPeer || c != sender) && ScopeAccepts(subs[i].scope, !fromPeer) && c in known {
          sends := sends + [c];
        }
      }
      assert subs[..|subs|] == subs;
    }

    /** Every client that is to have the message, each once: exact subscribers first, then wildcard
        subscribers their exact subscription did not already serve. */
    method DeliverToSubscribers(t: Topic, sender: ClientId, fromPeer: bool) returns (sends: seq<ClientId>)
      requires Valid()
      ensures NoRepeats(sends)
      ensures forall c :: c in sends <==> Recipient(View(), t, sender, fromPeer, c)
    {
      var exact := Vector(subscriptions.topicSubscribers, t);
      var wild := if t == WILDCARD then [] else Vector(subscriptions.topicSubscribers, WILDCARD);
      assert Distinct(exact) && Distinct(wild);
      hide Linked, RelationOf, Serves, Accepts, Ok;
      VectorsServe(subscriptions.clientTopics, subscriptions.topicSubscribers, t, !fromPeer);
      VectorsServe(subscriptions.clientTopics, subscriptions.topicSubscribers, WILDCARD, !fromPeer);
      ServesNobody(!fromPeer);
      var a := DeliverTo(exact, [], clients, sender, fromPeer);
      var b := DeliverTo(wild, exact, clients, sender, fromPeer);
      sends := a + b;
      NoRepeatsConcat(a, b);
    }

    /** The links the message is flooded to: all that have not been told to unlink. */
    method FloodPeers() returns (targets: set<string>)
      ensures targets == set k | k in peers && peers[k].active
    {
      targets := {};
      var left := peers.Keys;
      while left != {}
        invariant left <= peers.Keys
        invariant targets == set k | k in peers && peers[k].active && k !in left
      {
        var k :| k in left;
        if peers[k].active { targets := targets + {k}; }
        left := left - {k};
      }
    }

    /** Opens a link unless the key or the address is already linked. */
    method AddPeer(key: string, address: string, linkId: ClientId) returns (added: bool)
      modifies this`peers
      ensures added <==> key !in old(peers) && forall k :: k in old(peers) ==> old(peers)[k].address != address
      ensures peers == if added then old(peers)[key := PeerLink(address, linkId, [Connect] + Snapshot(Wants()), true)]
                       else old(peers)
    {
      var link := Send(PeerLink(address, linkId, [Connect], true),
                       if saturated || wildcard then [Sub(WILDCARD, ANY)] else SubAll(Text.Sorted(topics)));
      if key in peers {
        return false;
      }
      var left := peers.Keys;
      while left != {}
        invariant left <= peers.Keys
        invariant forall k :: k in peers && k !in left ==> peers[k].address != address
      {
        var k :| k in left;
        if peers[k].address == address {
          return false;
        }
        left := left - {k};
      }
      peers := peers[key := link];
      return true;
    }

    /** The remote has forgotten the link and asks for its subscriptions again. */
    method AnswerReset(key: string)
      requires key in peers
      modifies this`peers
      ensures peers == old(peers)[key := Queued(old(peers)[key], Snapshot(Wants()))]
    {
      var link := Send(peers[key], if saturated || wildcard then [Sub(WILDCARD, ANY)] else SubAll(Text.Sorted(topics)));
      peers := peers[key := link];
    }

    /** The session half: applies to local clients only. */
    method HandleClientMessage(m: Inbound, sender: ClientId) returns (reset: bool)
      requires Valid()
      modifies this, subscriptions
      ensures Valid()
      ensures var e := ClientEffect(old(View()), m, sender);
              View() == e.core && peers == Broadcast(old(peers), e.out) && reset == e.reset
    {
      BroadcastNothing(peers);
      match m
      case Disconnect =>
        RemoveClient(sender);
        reset := false;
      case Control(ctl) =>
        reset := HandleControl(sender, ctl);
      case Heartbeat =>
        reset := sender !in clients;
        clients := clients + {sender};
      case Publish(_) =>
        reset := sender !in clients;
        clients := clients + {sender};
    }

    method ProcessMessage(filter: DuplicateFilter, m: Inbound, sender: ClientId, fromPeer: bool)
      returns (sends: seq<ClientId>, floods: set<string>, reset: bool)
      requires Valid() && filter.Valid()
      modifies this, subscriptions
      modifies filter, filter.current, filter.current.slots, filter.previous, filter.previous.slots
      ensures Valid() && filter.Valid()
      ensures var p := Process(old(View()), old(filter.history), m, sender, fromPeer);
              && View() == p.core && filter.history == p.history && reset == p.reset
              && peers == Broadcast(old(peers), p.out)
              && NoRepeats(sends)
              && (forall c :: c in sends <==> p.routed && Recipient(p.core, m.msg.topic, sender, fromPeer, c))
              && floods == if p.routed then (set k | k in peers && peers[k].active) else {}
    {
      hide Remove, Handle, Remembered, Recipient, Touch;
      hide Ok, Linked, RelationOf, Placed, Genuine, CurrentWindow, PreviousWindow, Elements;
      sends, floods, reset := [], {}, false;
      BroadcastNothing(peers);
      var data := m.Publish? && !IsReserved(m.msg.key);
      if data {
        var duplicate := filter.IsDuplicate(m.msg.id);
        if duplicate {
          return;
        }
      }
      if !fromPeer {
        reset := HandleClientMessage(m, sender);
      }
      if data {
        sends := DeliverToSubscribers(m.msg.topic, sender, fromPeer);
        floods := FloodPeers();
      }
    }
  }
}
