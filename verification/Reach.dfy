/** Mesh reach: a message goes up dial edges by flooding and down them by subscription, so it is
    delivered wherever some broker is led to by both the publisher's and the subscriber's
    (server/broker.cpp). */
module Reach {
  import opened Keys
  import opened Registry
  import opened Interest
  import opened BrokerCore
  import opened Mesh
  import opened Aggregation
  import opened Dedup
  import opened Broker
  import opened Flood
  import Text

  /** One message followed through the mesh, and who published it. */
  datatype Traced = Traced(msg: Message, at: BrokerId, author: ClientId)

  predicate Same(c: Copy, x: Traced) { Normalise(c.msg.id) == Normalise(x.msg.id) }

  predicate Routed(f: Traffic, x: Traced, b: BrokerId) {
    b in f.seen && Normalise(x.msg.id) in f.seen[b]
  }

  /** The broker has routed the message or a copy is on its way to it. */
  predicate Reaching(f: Traffic, x: Traced, b: BrokerId) {
    Routed(f, x, b) || exists c :: c in f.flight && c.to == b && Same(c, x)
  }

  /** A client of the broker, not a link, whose exact or wildcard subscription takes any origin. */
  predicate TakesAll(s: State, b: BrokerId, c: ClientId, t: Topic) {
    && b in s.brokers && !PeerIdAt(s, b, c)
    && (HoldsAny(ViewOf(s.brokers[b].rel, c), t) || HoldsAny(ViewOf(s.brokers[b].rel, c), WILDCARD))
  }

  /** Where a copy of the message can come from: a peer, its publisher, or a link whose own broker has
      routed it. */
  predicate Accounted(s: State, f: Traffic, x: Traced, c: Copy) {
    && c.msg == x.msg
    && (c.fromPeer || (c.to, c.sender) == (x.at, x.author)
        || exists k :: k in s.links && s.links[k].acceptor == c.to && s.links[k].id == c.sender
                       && Routed(f, x, s.links[k].dialer))
  }

  /** Whatever a broker routes is flooded up every link it dialed. */
  ghost predicate Climbs(s: State, live: set<LinkKey>, f: Traffic, x: Traced) {
    forall k :: k in s.links && k in live ==>
      (Routed(f, x, s.links[k].dialer) ==> Reaching(f, x, s.links[k].acceptor))
  }

  /** And sent down every link that subscribed to it. */
  ghost predicate Descends(s: State, f: Traffic, x: Traced)
    requires Wf(s)
  {
    forall k :: k in s.links && Subscribed(s, k, x.msg.topic) ==>
      (Routed(f, x, s.links[k].acceptor) ==> Reaching(f, x, s.links[k].dialer))
  }

  /** And delivered to every client that takes any origin, save its publisher. */
  ghost predicate Delivers(s: State, f: Traffic, x: Traced) {
    forall b, c :: TakesAll(s, b, c, x.msg.topic) && (b, c) != (x.at, x.author) ==>
      (Routed(f, x, b) ==> Delivery(b, c, x.msg) in f.log)
  }

  ghost predicate AllAccounted(s: State, f: Traffic, x: Traced) {
    forall c :: c in f.flight && Same(c, x) ==> Accounted(s, f, x, c)
  }

  ghost predicate Track(s: State, live: set<LinkKey>, f: Traffic, x: Traced) {
    && Wf(s) && !LinkIdAt(s, x.at, x.author)
    && Reaching(f, x, x.at)
    && AllAccounted(s, f, x) && Climbs(s, live, f, x) && Descends(s, f, x) && Delivers(s, f, x)
  }

  lemma HoldsAnyAccepts(rel: Relation, c: ClientId, t: Topic)
    requires HoldsAny(ViewOf(rel, c), t)
    ensures forall isLocal :: Accepts(rel, c, t, isLocal)
    ensures (c, t) in rel
  {
  }

  /** A subscription that takes any origin makes its holder a recipient, unless it is the sender. */
  lemma TakesAllRecipient(s: State, b: BrokerId, c: ClientId, t: Topic, sender: ClientId, fromPeer: bool)
    requires Mesh.Inv(s) && b in s.brokers
    requires HoldsAny(ViewOf(s.brokers[b].rel, c), t) || HoldsAny(ViewOf(s.brokers[b].rel, c), WILDCARD)
    requires fromPeer || c != sender
    ensures Recipient(s.brokers[b], t, sender, fromPeer, c)
  {
    assert Ok(s.brokers[b]);
    if HoldsAny(ViewOf(s.brokers[b].rel, c), t) {
      HoldsAnyAccepts(s.brokers[b].rel, c, t);
    } else {
      HoldsAnyAccepts(s.brokers[b].rel, c, WILDCARD);
    }
  }

  lemma {:induction false} LocalsMembers(s: State, c: Copy, clients: seq<ClientId>)
    requires c.to in s.brokers
    ensures forall d :: d in Locals(s, c, clients) <==>
              d.at == c.to && d.msg == c.msg && d.client in clients
              && Recipient(s.brokers[c.to], c.msg.topic, c.sender, c.fromPeer, d.client) && !PeerIdAt(s, c.to, d.client)
    decreases |clients|
  {
    hide Recipient, LinkIdAt;
    if clients == [] {
    } else {
      LocalsMembers(s, c, clients[1..]);
      assert forall x :: x in clients <==> x == clients[0] || x in clients[1..];
    }
  }

  lemma ServedMembers(s: State, c: Copy)
    requires c.to in s.brokers
    ensures forall d :: d in Served(s, c) <==>
              d.at == c.to && d.msg == c.msg
              && Recipient(s.brokers[c.to], c.msg.topic, c.sender, c.fromPeer, d.client) && !PeerIdAt(s, c.to, d.client)
  {
    LocalsMembers(s, c, Text.Sorted(s.brokers[c.to].clients));
  }

  /** Publishing a message under an unused id starts the trace. */
  lemma TrackStarts(s: State, live: set<LinkKey>, f: Traffic, x: Traced)
    requires Wf(s) && Sane(s, f) && CanMove(s, f, Submit(x.at, x.author, x.msg))
    ensures Track(s, live, After(s, live, f, Submit(x.at, x.author, x.msg)), x)
  {
    hide Genuine, TakesAll, Subscribed;
    var f' := After(s, live, f, Submit(x.at, x.author, x.msg));
    var c := Copy(x.at, x.msg, x.author, false, x.at);
    assert f'.flight[|f.flight|] == c;
    assert forall b :: !Routed(f', x, b);
    forall d | d in f'.flight && Same(d, x)
      ensures Accounted(s, f', x, d)
    {
      assert d == c;
    }
  }

  /** Nothing published later can carry the traced id, so it leaves the trace alone. */
  lemma TrackSubmit(s: State, live: set<LinkKey>, f: Traffic, x: Traced, m: Move)
    requires Sane(s, f) && Track(s, live, f, x) && m.Submit? && CanMove(s, f, m)
    ensures Track(s, live, After(s, live, f, m), x)
  {
    hide Genuine, TakesAll, Subscribed, LinkIdAt;
    var f' := After(s, live, f, m);
    var c := Copy(m.at, m.msg, m.client, false, m.at);
    assert f'.flight == f.flight + [c];
    assert !Same(c, x);
    ReachingOnlyGrows(f, f', x);
    forall d | d in f'.flight && Same(d, x)
      ensures Accounted(s, f', x, d)
    {
      assert d in f.flight;
      assert Accounted(s, f, x, d);
    }
  }

  lemma ReachingOnlyGrows(f: Traffic, f': Traffic, x: Traced)
    requires f'.seen == f.seen && forall c :: c in f.flight ==> c in f'.flight
    ensures forall b :: Reaching(f, x, b) ==> Reaching(f', x, b)
    ensures forall b :: Routed(f, x, b) <==> Routed(f', x, b)
  {
  }

  // A copy arrives.

  lemma WithoutMembers(flight: seq<Copy>, i: nat)
    requires i < |flight|
    ensures forall c :: c in Without(flight, i) ==> c in flight
    ensures forall c :: c in flight && c != flight[i] ==> c in Without(flight, i)
  {
    forall c | c in flight && c != flight[i]
      ensures c in Without(flight, i)
    {
      var j :| 0 <= j < |flight| && flight[j] == c;
      assert Without(flight, i)[if j < i then j else j - 1] == c;
    }
  }

  /** The trace only grows: brokers that have routed the message stay so, and a copy that leaves the
      flight leaves behind a broker that has. */
  ghost predicate Advances(f: Traffic, f': Traffic, x: Traced) {
    && (forall b :: Routed(f, x, b) ==> Routed(f', x, b))
    && (forall b :: Reaching(f, x, b) ==> Reaching(f', x, b))
    && (forall d :: d in f.log ==> d in f'.log)
  }

  lemma ArriveAdvances(s: State, live: set<LinkKey>, f: Traffic, i: nat, x: Traced)
    requires Sane(s, f) && i < |f.flight|
    ensures Advances(f, After(s, live, f, Arrive(i)), x)
    ensures forall b :: Routed(After(s, live, f, Arrive(i)), x, b) ==>
              Routed(f, x, b) || (b == f.flight[i].to && Same(f.flight[i], x)
                                  && Normalise(x.msg.id) !in Remembered(f.seen[b]))
  {
    hide Genuine, Fan, Served, SaneCopy;
    var c := f.flight[i];
    var f' := After(s, live, f, Arrive(i));
    ArriveEffect(s, live, f, i);
    hide After;
    WithoutMembers(f.flight, i);
    assert Normalise(c.msg.id) in f'.seen[c.to];
    forall b | Reaching(f, x, b)
      ensures Reaching(f', x, b)
    {
      if !Routed(f, x, b) {
        var d :| d in f.flight && d.to == b && Same(d, x);
        if d == c { assert Routed(f', x, b); } else { assert d in f'.flight; }
      }
    }
  }

  /** A copy of another message, or of this one at a broker that remembers it, changes nothing for the
      trace but which copies are in flight. */
  lemma TrackIdle(s: State, live: set<LinkKey>, f: Traffic, i: nat, x: Traced)
    requires Mesh.Inv(s) && Settled(s) && Sane(s, f) && Track(s, live, f, x) && i < |f.flight|
    requires Same(f.flight[i], x) ==> Normalise(x.msg.id) in Remembered(f.seen[f.flight[i].to])
    ensures Track(s, live, After(s, live, f, Arrive(i)), x)
  {
    hide Mesh.Inv, Settled, Genuine, Fan, Served, TakesAll, Subscribed, LinkIdAt, Remembered;
    var c := f.flight[i];
    var f' := After(s, live, f, Arrive(i));
    assert c in f.flight;
    ArriveAdvances(s, live, f, i, x);
    ArriveEffect(s, live, f, i);
    FanSane(s, live, c);
    WithoutMembers(f.flight, i);
    hide After, Normalise, SaneCopy;
    forall d | d in f'.flight && Same(d, x)
      ensures Accounted(s, f', x, d)
    {
      assert d in f.flight;
      assert Accounted(s, f, x, d);
    }
  }

  /** A broker that does not remember the message routes it. */
  ghost predicate Routes(s: State, live: set<LinkKey>, f: Traffic, i: nat, x: Traced) {
    && Mesh.Inv(s) && Settled(s) && Sane(s, f) && Track(s, live, f, x) && i < |f.flight|
    && Same(f.flight[i], x) && Normalise(x.msg.id) !in Remembered(f.seen[f.flight[i].to])
  }

  lemma RoutesEffect(s: State, live: set<LinkKey>, f: Traffic, i: nat, x: Traced)
    requires Routes(s, live, f, i, x)
    ensures var c := f.flight[i]; var f' := After(s, live, f, Arrive(i));
            && c.to in s.brokers && c in f.flight && c.msg == x.msg && Accounted(s, f, x, c)
            && Routed(f', x, c.to) && Advances(f, f', x)
            && (forall b :: Routed(f', x, b) ==> Routed(f, x, b) || b == c.to)
            && (forall d :: d in f'.flight ==> d in f.flight || d in Fan(s, live, c))
            && (forall d :: d in Fan(s, live, c) ==> d in f'.flight && d.msg == x.msg)
            && f'.log == f.log + Served(s, c)
  {
    hide Mesh.Inv, Settled, Genuine, Fan, Served, TakesAll, Subscribed, LinkIdAt, Remembered;
    var c := f.flight[i];
    assert c in f.flight;
    assert Accounted(s, f, x, c);
    ArriveAdvances(s, live, f, i, x);
    ArriveEffect(s, live, f, i);
    FanSane(s, live, c);
    WithoutMembers(f.flight, i);
  }

  lemma RouteClimbs(s: State, live: set<LinkKey>, f: Traffic, i: nat, x: Traced)
    requires Routes(s, live, f, i, x)
    ensures Climbs(s, live, After(s, live, f, Arrive(i)), x)
  {
    hide After, Genuine, SaneCopy, Settled, Mesh.Inv, Fan, Served, Remembered, Recipient;
    RoutesEffect(s, live, f, i, x);
    var c := f.flight[i];
    var f' := After(s, live, f, Arrive(i));
    forall k | k in s.links && k in live && Routed(f', x, s.links[k].dialer)
      ensures Reaching(f', x, s.links[k].acceptor)
    {
      if !Routed(f, x, s.links[k].dialer) {
        var up := Copy(s.links[k].acceptor, c.msg, s.links[k].id, false, c.origin);
        assert up in OverLink(s, live, c, k);
        FanOf(s, live, c);
        assert up in f'.flight;
      }
    }
  }

  /** Only the link a copy came up is not sent it back down, and its broker has routed it already. */
  lemma RouteDescends(s: State, live: set<LinkKey>, f: Traffic, i: nat, x: Traced)
    requires Routes(s, live, f, i, x)
    ensures Descends(s, After(s, live, f, Arrive(i)), x)
  {
    hide After, Genuine, SaneCopy, Settled, Mesh.Inv, Fan, Served, Remembered, Recipient, ViewOf;
    RoutesEffect(s, live, f, i, x);
    var c := f.flight[i];
    var f' := After(s, live, f, Arrive(i));
    forall k | k in s.links && Subscribed(s, k, x.msg.topic) && Routed(f', x, s.links[k].acceptor)
      ensures Reaching(f', x, s.links[k].dialer)
    {
      var l := s.links[k];
      if !Routed(f, x, l.acceptor) {
        if !c.fromPeer && c.sender == l.id {
          assert LinkIdAt(s, l.acceptor, l.id);
          assert Routed(f, x, l.dialer);
        } else {
          TakesAllRecipient(s, l.acceptor, l.id, x.msg.topic, c.sender, c.fromPeer);
          var down := Copy(l.dialer, c.msg, PEER, true, c.origin);
          assert down in OverLink(s, live, c, k);
          FanOf(s, live, c);
          assert down in f'.flight;
        }
      }
    }
  }

  lemma RouteDelivers(s: State, live: set<LinkKey>, f: Traffic, i: nat, x: Traced)
    requires Routes(s, live, f, i, x)
    ensures Delivers(s, After(s, live, f, Arrive(i)), x)
  {
    hide After, Genuine, SaneCopy, Settled, Mesh.Inv, Fan, Served, Remembered, Recipient, ViewOf;
    RoutesEffect(s, live, f, i, x);
    var c := f.flight[i];
    var f' := After(s, live, f, Arrive(i));
    forall b, a | TakesAll(s, b, a, x.msg.topic) && (b, a) != (x.at, x.author) && Routed(f', x, b)
      ensures Delivery(b, a, x.msg) in f'.log
    {
      if !Routed(f, x, b) {
        assert c.fromPeer || a != c.sender;
        TakesAllRecipient(s, b, a, x.msg.topic, c.sender, c.fromPeer);
        ServedMembers(s, c);
        assert Delivery(b, a, x.msg) in Served(s, c);
      }
    }
  }

  lemma RouteAccounted(s: State, live: set<LinkKey>, f: Traffic, i: nat, x: Traced)
    requires Routes(s, live, f, i, x)
    ensures AllAccounted(s, After(s, live, f, Arrive(i)), x)
  {
    hide After, Genuine, SaneCopy, Settled, Mesh.Inv, Fan, Served, Remembered, Recipient;
    RoutesEffect(s, live, f, i, x);
    var c := f.flight[i];
    var f' := After(s, live, f, Arrive(i));
    FanOf(s, live, c);
    forall d | d in f'.flight && Same(d, x)
      ensures Accounted(s, f', x, d)
    {
      if d in f.flight {
        assert Accounted(s, f, x, d);
      } else {
        var k :| k in s.links && d in OverLink(s, live, c, k);
      }
    }
  }

  lemma TrackArrive(s: State, live: set<LinkKey>, f: Traffic, i: nat, x: Traced)
    requires Mesh.Inv(s) && Settled(s) && Sane(s, f) && Track(s, live, f, x) && i < |f.flight|
    ensures Track(s, live, After(s, live, f, Arrive(i)), x)
  {
    hide After, Genuine, SaneCopy, Settled, Mesh.Inv, Climbs, Descends, Delivers, AllAccounted, LinkIdAt;
    assert f.flight[i].to in f.seen;
    if Same(f.flight[i], x) && Normalise(x.msg.id) !in Remembered(f.seen[f.flight[i].to]) {
      assert Routes(s, live, f, i, x);
      RoutesEffect(s, live, f, i, x);
      RouteAccounted(s, live, f, i, x);
      RouteClimbs(s, live, f, i, x);
      RouteDescends(s, live, f, i, x);
      RouteDelivers(s, live, f, i, x);
    } else {
      TrackIdle(s, live, f, i, x);
    }
  }

  // Whole runs.

  lemma {:induction false} FlowsTrack(s: State, live: set<LinkKey>, f: Traffic, ms: seq<Move>, f': Traffic, x: Traced)
    requires Mesh.Inv(s) && Settled(s) && Sane(s, f) && Track(s, live, f, x) && Flows(s, live, f, ms, f')
    ensures Track(s, live, f', x)
    decreases |ms|
  {
    hide After, Sane, Settled, Mesh.Inv, Track;
    if ms == [] {
    } else {
      AfterSane(s, live, f, ms[0]);
      if ms[0].Submit? {
        TrackSubmit(s, live, f, x, ms[0]);
      } else {
        TrackArrive(s, live, f, ms[0].index, x);
      }
      FlowsTrack(s, live, After(s, live, f, ms[0]), ms[1..], f', x);
    }
  }

  /** Once nothing is in flight, everywhere the publisher's broker leads has routed the message. */
  lemma {:induction false} ClimbsPath(s: State, live: set<LinkKey>, f: Traffic, x: Traced, y: BrokerId, ks: seq<LinkKey>, z: BrokerId)
    requires Climbs(s, live, f, x) && f.flight == [] && Routed(f, x, y)
    requires Path(s, y, ks, z) && forall i :: 0 <= i < |ks| ==> ks[i] in live
    ensures Routed(f, x, z)
    decreases |ks|
  {
    if ks == [] {
    } else {
      ClimbsPath(s, live, f, x, s.links[ks[0]].acceptor, ks[1..], z);
    }
  }

  /** And so has every broker the topic is drawn to that leads to one that has. */
  lemma {:induction false} DescendsPath(s: State, f: Traffic, x: Traced, y: BrokerId, ks: seq<LinkKey>, z: BrokerId)
    requires Mesh.Inv(s) && Settled(s) && Descends(s, f, x) && f.flight == [] && Propagatable(x.msg.topic)
    requires y in s.brokers && Draws(s.brokers[y], x.msg.topic) && Path(s, y, ks, z) && Routed(f, x, z)
    ensures Routed(f, x, y)
    decreases |ks|
  {
    hide Mesh.Inv, Settled, Draws;
    if ks == [] {
    } else {
      Hop(s, ks[0], x.msg.topic);
      AcceptorThere(s, ks[0]);
      DescendsPath(s, f, x, s.links[ks[0]].acceptor, ks[1..], z);
    }
  }

  lemma TakesAllDraws(s: State, b: BrokerId, c: ClientId, t: Topic)
    requires TakesAll(s, b, c, t)
    ensures Draws(s.brokers[b], t)
  {
    var held := if HoldsAny(ViewOf(s.brokers[b].rel, c), t) then t else WILDCARD;
    HoldsAnyAccepts(s.brokers[b].rel, c, held);
    assert (c, held) in s.brokers[b].rel;
  }

  /** Mesh reach. In a mesh whose links are in sync, a message published at broker y on a propagatable
      topic has, by the time nothing is in flight, been delivered to every client of every broker
      that takes the topic from anywhere, its publisher aside, provided some broker z is led to by
      both: from y over links not told to unlink, from the subscriber's broker over any. Whatever
      else is published before, meanwhile or after. */
  lemma MeshReach(s: State, live: set<LinkKey>, before: seq<Move>, f: Traffic, x: Traced, later: seq<Move>, f': Traffic,
                  up: seq<LinkKey>, z: BrokerId, down: seq<LinkKey>, b: BrokerId, c: ClientId)
    requires Mesh.Reachable(s) && Settled(s) && Flows(s, live, Quiet(s), before, f)
    requires Flows(s, live, f, [Submit(x.at, x.author, x.msg)] + later, f') && f'.flight == []
    requires Path(s, x.at, up, z) && (forall i :: 0 <= i < |up| ==> up[i] in live) && Path(s, b, down, z)
    requires Propagatable(x.msg.topic) && TakesAll(s, b, c, x.msg.topic) && (b, c) != (x.at, x.author)
    ensures Delivery(b, c, x.msg) in f'.log
  {
    hide After, Settled, Sane, Mesh.Inv, Mesh.Reachable, TakesAll, Path, Draws;
    ReachableInv(s);
    QuietSane(s);
    FlowsSane(s, live, Quiet(s), before, f);
    InvWf(s);
    var m := Submit(x.at, x.author, x.msg);
    assert ([m] + later)[1..] == later;
    TrackStarts(s, live, f, x);
    AfterSane(s, live, f, m);
    FlowsTrack(s, live, After(s, live, f, m), later, f', x);
    hide Flows;
    ClimbsPath(s, live, f', x, x.at, up, z);
    TakesAllDraws(s, b, c, x.msg.topic);
    TakesAllThere(s, b, c, x.msg.topic);
    DescendsPath(s, f', x, b, down, z);
  }

  lemma TakesAllThere(s: State, b: BrokerId, c: ClientId, t: Topic)
    requires TakesAll(s, b, c, t)
    ensures b in s.brokers
  {
  }

  // And no more than once.

  /** No client has been given a message twice, and only what its broker has routed. */
  ghost predicate Once(f: Traffic) {
    && NoRepeats(f.log)
    && forall d :: d in f.log ==> d.at in f.seen && Normalise(d.msg.id) in f.seen[d.at]
  }

  /** No broker has accepted enough ids to have forgotten any. */
  predicate Short(f: Traffic) {
    forall b :: b in f.seen ==> |f.seen[b]| < 2 * HISTORY
  }

  lemma {:induction false} LocalsNoRepeats(s: State, c: Copy, clients: seq<ClientId>)
    requires c.to in s.brokers && NoRepeats(clients)
    ensures NoRepeats(Locals(s, c, clients))
    decreases |clients|
  {
    hide Recipient, LinkIdAt;
    if clients == [] {
    } else {
      LocalsNoRepeats(s, c, clients[1..]);
      LocalsMembers(s, c, clients[1..]);
      forall x | x in clients[1..] ensures x != clients[0] { }
      NoRepeatsConcat(Locals(s, c, clients)[..|Locals(s, c, clients)| - |Locals(s, c, clients[1..])|], Locals(s, c, clients[1..]));
    }
  }

  lemma ArriveOnce(s: State, live: set<LinkKey>, f: Traffic, i: nat)
    requires Sane(s, f) && Once(f) && Short(f) && i < |f.flight|
    ensures Once(After(s, live, f, Arrive(i)))
  {
    hide Genuine, Fan, Served, SaneCopy, Normalise, Once;
    var c := f.flight[i];
    ArriveEffect(s, live, f, i);
    RemembersRecent(f.seen[c.to]);
    hide After, Remembered;
    var id := Normalise(c.msg.id);
    if id !in f.seen[c.to] {
      RoutedOnce(s, f, c, Without(f.flight, i) + Fan(s, live, c));
    } else {
      OnceSame(f, f.(flight := Without(f.flight, i)));
    }
  }

  lemma OnceSame(f: Traffic, f': Traffic)
    requires Once(f) && f'.log == f.log && f'.seen == f.seen
    ensures Once(f')
  {
  }

  lemma RoutedOnce(s: State, f: Traffic, c: Copy, flight: seq<Copy>)
    requires Once(f) && c.to in s.brokers && c.to in f.seen && Normalise(c.msg.id) !in f.seen[c.to]
    ensures Once(Traffic(f.seen[c.to := f.seen[c.to] + [Normalise(c.msg.id)]], flight, f.log + Served(s, c)))
  {
    hide Served, Recipient, PeerIdAt, Normalise;
    ServedOnce(s, c);
    ServedMembers(s, c);
    NoRepeatsConcat(f.log, Served(s, c));
  }

  lemma ServedOnce(s: State, c: Copy)
    requires c.to in s.brokers
    ensures NoRepeats(Served(s, c))
  {
    Text.SortedDistinct(s.brokers[c.to].clients);
    LocalsNoRepeats(s, c, Text.Sorted(s.brokers[c.to].clients));
  }

  lemma {:induction false} FlowsOnce(s: State, live: set<LinkKey>, f: Traffic, ms: seq<Move>, f': Traffic)
    requires Mesh.Inv(s) && Settled(s) && Sane(s, f) && Once(f) && Flows(s, live, f, ms, f') && Short(f')
    ensures Once(f') && Short(f)
    decreases |ms|
  {
    hide Settled, Mesh.Inv, Once, Genuine, SaneCopy;
    if ms == [] {
    } else {
      var f1 := After(s, live, f, ms[0]);
      AfterSane(s, live, f, ms[0]);
      NeverShrinks(s, live, f, ms[0]);
      ShortBefore(s, live, f1, ms[1..], f');
      assert Short(f);
      if ms[0].Arrive? { ArriveOnce(s, live, f, ms[0].index); } else { SubmitOnce(s, live, f, ms[0]); }
      FlowsOnce(s, live, f1, ms[1..], f');
    }
  }

  lemma SubmitOnce(s: State, live: set<LinkKey>, f: Traffic, m: Move)
    requires InNet(s, f) && Once(f) && m.Submit? && CanMove(s, f, m)
    ensures Once(After(s, live, f, m))
  {
  }

  lemma NeverShrinks(s: State, live: set<LinkKey>, f: Traffic, m: Move)
    requires Sane(s, f) && CanMove(s, f, m)
    ensures forall b :: b in f.seen ==> b in After(s, live, f, m).seen && |f.seen[b]| <= |After(s, live, f, m).seen[b]|
  {
    hide Genuine, Fan, Served, SaneCopy;
    if m.Arrive? { ArriveEffect(s, live, f, m.index); }
  }

  lemma {:induction false} ShortBefore(s: State, live: set<LinkKey>, f: Traffic, ms: seq<Move>, f': Traffic)
    requires Mesh.Inv(s) && Settled(s) && Sane(s, f) && Flows(s, live, f, ms, f') && Short(f')
    ensures Short(f)
    decreases |ms|
  {
    hide Settled, Mesh.Inv, After, Genuine, SaneCopy;
    if ms == [] {
    } else {
      AfterSane(s, live, f, ms[0]);
      NeverShrinks(s, live, f, ms[0]);
      ShortBefore(s, live, After(s, live, f, ms[0]), ms[1..], f');
    }
  }

  /** Whatever is published, until some broker has accepted 2 * HISTORY ids no client is delivered any
      message twice. */
  lemma DeliveredAtMostOnce(s: State, live: set<LinkKey>, ms: seq<Move>, f: Traffic)
    requires Mesh.Reachable(s) && Settled(s) && Flows(s, live, Quiet(s), ms, f) && Short(f)
    ensures NoRepeats(f.log)
  {
    ReachableInv(s);
    QuietSane(s);
    FlowsOnce(s, live, Quiet(s), ms, f);
  }
}
