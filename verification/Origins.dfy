/** Local or not: a broker goes by the link a message came over, a client by the broker it was
    published at. Where the two differ (server/broker.cpp, common/connectionmanager.cpp). */
module Origins {
  import opened Keys
  import opened BrokerCore
  import opened Mesh
  import opened Aggregation
  import opened Dedup
  import opened Broker
  import opened Flood
  import Reach
  import Client

  /** A copy just published, on its way to its own broker. */
  predicate Published(s: State, c: Copy) {
    !c.fromPeer && !LinkIdAt(s, c.to, c.sender) && c.to == c.origin
  }

  /** A copy on its way between brokers: its own broker has routed it, and it goes down a link its
      receiver dialed or up one it accepted. */
  predicate Relayed(s: State, f: Traffic, c: Copy) {
    && c.origin in f.seen && Normalise(c.msg.id) in f.seen[c.origin]
    && (c.fromPeer || LinkIdAt(s, c.to, c.sender))
  }

  ghost predicate Stamped(s: State, f: Traffic) {
    forall c :: c in f.flight ==> Published(s, c) || Relayed(s, f, c)
  }

  lemma FanRelayed(s: State, live: set<LinkKey>, f: Traffic, c: Copy, f': Traffic)
    requires c.to in s.brokers && (Published(s, c) || Relayed(s, f, c))
    requires c.to in f'.seen && Normalise(c.msg.id) in f'.seen[c.to]
    requires forall b :: b in f.seen ==> b in f'.seen && forall id :: id in f.seen[b] ==> id in f'.seen[b]
    ensures forall x :: x in Fan(s, live, c) ==> Relayed(s, f', x)
  {
    hide Fan, Recipient, Normalise;
    FanOf(s, live, c);
    forall x | x in Fan(s, live, c)
      ensures Relayed(s, f', x)
    {
      var k :| k in s.links && x in OverLink(s, live, c, k);
      assert LinkIdAt(s, s.links[k].acceptor, s.links[k].id);
    }
  }

  lemma AfterStamped(s: State, live: set<LinkKey>, f: Traffic, m: Move)
    requires Sane(s, f) && Stamped(s, f) && CanMove(s, f, m)
    ensures Stamped(s, After(s, live, f, m))
  {
    var f' := After(s, live, f, m);
    match m
    case Submit(at, client, msg) =>
    case Arrive(i) =>
      var c := f.flight[i];
      assert c in f.flight;
      ArriveEffect(s, live, f, i);
      hide After, Fan, Served, Genuine, SaneCopy, Normalise, Remembered;
      if Normalise(c.msg.id) !in Remembered(f.seen[c.to]) {
        FanRelayed(s, live, f, c, f');
      }
      Reach.WithoutMembers(f.flight, i);
  }

  lemma {:induction false} FlowsStamped(s: State, live: set<LinkKey>, f: Traffic, ms: seq<Move>, f': Traffic)
    requires Mesh.Inv(s) && Settled(s) && Sane(s, f) && Stamped(s, f) && Flows(s, live, f, ms, f')
    ensures Stamped(s, f')
    decreases |ms|
  {
    hide Mesh.Inv, Settled, Sane, Stamped, After, CanMove;
    if ms == [] {
    } else {
      AfterStamped(s, live, f, ms[0]);
      AfterSane(s, live, f, ms[0]);
      FlowsStamped(s, live, After(s, live, f, ms[0]), ms[1..], f');
    }
  }

  /** What the client takes a message for, given that it knows its broker's id. */
  predicate LocalToClient(c: Copy) { c.origin == c.to }

  predicate LocalToBroker(c: Copy) { !c.fromPeer }

  /** Broker and client disagree about a message the broker routes exactly when it came up an inbound
      link: the broker calls it local, the client does not. */
  lemma DisagreeIffInbound(s: State, live: set<LinkKey>, ms: seq<Move>, f: Traffic, i: nat)
    requires Mesh.Reachable(s) && Settled(s) && Flows(s, live, Quiet(s), ms, f) && Reach.Short(f) && i < |f.flight|
    requires f.flight[i].to in f.seen && Normalise(f.flight[i].msg.id) !in Remembered(f.seen[f.flight[i].to])
    ensures var c := f.flight[i];
            && (LocalToBroker(c) != LocalToClient(c) <==> !c.fromPeer && LinkIdAt(s, c.to, c.sender))
            && (LocalToBroker(c) != LocalToClient(c) ==> LocalToBroker(c) && !LocalToClient(c))
  {
    hide Mesh.Inv, Mesh.Reachable, Settled, Flows, SaneCopy, InNet, Genuine;
    ReachableInv(s);
    QuietSane(s);
    FlowsSane(s, live, Quiet(s), ms, f);
    FlowsStamped(s, live, Quiet(s), ms, f);
    var c := f.flight[i];
    assert c in f.flight;
    RemembersRecent(f.seen[c.to]);
  }

  /** And then a callback scoped to mesh traffic misses it: no callback for the topic wants anything
      else, so the broker does not send the client a message all of them are owed. */
  lemma MeshOnlyMissesInbound(b: Core, me: ClientId, h: Client.Handlers, c: Copy)
    requires Client.InStep(b, me, h) && me != c.sender && LocalToBroker(c) && !LocalToClient(c)
    requires Client.Concerned(h, c.msg.topic) != []
    requires forall e :: e in Client.Concerned(h, c.msg.topic) ==> e.scope == MESH_ONLY
    ensures Client.Called(b, me, h, c.msg.topic, c.sender, c.fromPeer, LocalToClient(c)) == []
    ensures forall e :: e in Client.Concerned(h, c.msg.topic) ==> Client.Owed(h, c.msg.topic, LocalToClient(c), e) > 0
  {
    Client.DeliveredIffWanted(b, me, h, c.msg.topic, c.sender, c.fromPeer);
  }
}
