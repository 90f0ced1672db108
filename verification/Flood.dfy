/** The data plane of a mesh whose control plane is at rest: messages flood up dial edges and follow
    subscriptions down them, each broker routing an id it does not remember (server/broker.cpp). */
module Flood {
  import opened Keys
  import opened Registry
  import opened Interest
  import opened BrokerCore
  import opened Mesh
  import opened Aggregation
  import opened Dedup
  import opened Broker
  import Text

  /** A message on its way to a broker: flooded up by the link `sender` or published by the client
      `sender`, or, from a peer, sent down a link by the broker it subscribed at. `origin` is the
      broker it was published at, stamped there. */
  datatype Copy = Copy(to: BrokerId, msg: Message, sender: ClientId, fromPeer: bool, origin: BrokerId)

  datatype Delivery = Delivery(at: BrokerId, client: ClientId, msg: Message)

  /** `seen`: each broker's accepted ids; `flight`: copies on their way; `log`: deliveries to clients. */
  datatype Traffic = Traffic(seen: map<BrokerId, seq<MessageId>>, flight: seq<Copy>, log: seq<Delivery>)

  datatype Move = Submit(at: BrokerId, client: ClientId, msg: Message) | Arrive(index: nat)

  const PEER: ClientId := "PEER"

  /** What routing a copy sends over one link: up it if its broker dialed it and it is not unlinked,
      down it if its broker accepted it and the link is a recipient. */
  function OverLink(s: State, live: set<LinkKey>, c: Copy, k: LinkKey): seq<Copy>
    requires k in s.links && c.to in s.brokers
  {
    var l := s.links[k];
    (if l.dialer == c.to && k in live then [Copy(l.acceptor, c.msg, l.id, false, c.origin)] else [])
    + (if l.acceptor == c.to && Recipient(s.brokers[c.to], c.msg.topic, c.sender, c.fromPeer, l.id)
       then [Copy(l.dialer, c.msg, PEER, true, c.origin)] else [])
  }

  function Outgoing(s: State, live: set<LinkKey>, c: Copy, keys: seq<LinkKey>): seq<Copy>
    requires (forall k :: k in keys ==> k in s.links) && c.to in s.brokers
  {
    if keys == [] then [] else OverLink(s, live, c, keys[0]) + Outgoing(s, live, c, keys[1..])
  }

  /** The deliveries routing a copy makes to its broker's own clients. */
  function Locals(s: State, c: Copy, clients: seq<ClientId>): seq<Delivery>
    requires c.to in s.brokers
  {
    if clients == [] then []
    else
      (if Recipient(s.brokers[c.to], c.msg.topic, c.sender, c.fromPeer, clients[0]) && !PeerIdAt(s, c.to, clients[0])
       then [Delivery(c.to, clients[0], c.msg)] else [])
      + Locals(s, c, clients[1..])
  }

  function Fan(s: State, live: set<LinkKey>, c: Copy): seq<Copy>
    requires c.to in s.brokers
  {
    Outgoing(s, live, c, Text.Sorted(s.links.Keys))
  }

  function Served(s: State, c: Copy): seq<Delivery>
    requires c.to in s.brokers
  {
    Locals(s, c, Text.Sorted(s.brokers[c.to].clients))
  }

  function Without(flight: seq<Copy>, i: nat): seq<Copy>
    requires i < |flight|
  {
    flight[..i] + flight[i + 1..]
  }

  predicate InNet(s: State, f: Traffic) {
    && f.seen.Keys == s.brokers.Keys
    && forall i :: 0 <= i < |f.flight| ==> f.flight[i].to in s.brokers
  }

  /** A client publishes under an id no broker has accepted and no copy carries. */
  predicate Unused(f: Traffic, id: MessageId) {
    && (forall b :: b in f.seen ==> Normalise(id) !in f.seen[b])
    && (forall i :: 0 <= i < |f.flight| ==> Normalise(f.flight[i].msg.id) != Normalise(id))
  }

  predicate CanMove(s: State, f: Traffic, m: Move) {
    match m
    case Submit(at, client, msg) =>
      && at in s.brokers && client in s.brokers[at].clients && !PeerIdAt(s, at, client)
      && !IsReserved(msg.key) && Unused(f, msg.id)
    case Arrive(i) => i < |f.flight|
  }

  function After(s: State, live: set<LinkKey>, f: Traffic, m: Move): Traffic
    requires InNet(s, f) && CanMove(s, f, m)
  {
    match m
    case Submit(at, client, msg) => f.(flight := f.flight + [Copy(at, msg, client, false, at)])
    case Arrive(i) =>
      var c := f.flight[i];
      var p := Process(s.brokers[c.to], f.seen[c.to], Publish(c.msg), c.sender, c.fromPeer);
      var rest := Without(f.flight, i);
      if p.routed then
        Traffic(f.seen[c.to := p.history],
                rest + Fan(s, live, c),
                f.log + Served(s, c))
      else f.(seen := f.seen[c.to := p.history], flight := rest)
  }

  /** A copy with an application key, from a peer or from a client its broker knows. */
  predicate SaneCopy(s: State, c: Copy) {
    c.to in s.brokers && !IsReserved(c.msg.key) && (c.fromPeer || c.sender in s.brokers[c.to].clients)
  }

  /** Every copy carries an application key and comes from a peer or from a client its broker knows. */
  ghost predicate Sane(s: State, f: Traffic) {
    && InNet(s, f)
    && (forall c :: c in f.flight ==> SaneCopy(s, c))
    && (forall b :: b in f.seen ==> Genuine(f.seen[b]))
  }

  function Quiet(s: State): Traffic { Traffic(map b | b in s.brokers :: [], [], []) }

  /** Routing a copy from a known sender leaves the sessions alone: it is the duplicate filter alone
      that decides. */
  lemma RoutingIsFiltering(b: Core, h: seq<MessageId>, c: Copy)
    requires !IsReserved(c.msg.key) && (c.fromPeer || c.sender in b.clients)
    ensures var p := Process(b, h, Publish(c.msg), c.sender, c.fromPeer);
            && p.core == b && p.out == [] && !p.reset
            && p.routed == (Normalise(c.msg.id) !in Remembered(h))
            && p.history == Observe(h, c.msg.id)
  {
    assert c.sender in b.clients ==> b.clients + {c.sender} == b.clients;
  }

  lemma {:induction false} OutgoingOf(s: State, live: set<LinkKey>, c: Copy, keys: seq<LinkKey>)
    requires (forall k :: k in keys ==> k in s.links) && c.to in s.brokers
    ensures forall x :: x in Outgoing(s, live, c, keys) <==> exists k :: k in keys && x in OverLink(s, live, c, k)
    ensures |Outgoing(s, live, c, keys)| <= 2 * |keys|
    decreases |keys|
  {
    if keys == [] {
    } else {
      OutgoingOf(s, live, c, keys[1..]);
      assert forall k :: k in keys <==> k == keys[0] || k in keys[1..];
    }
  }

  lemma FanOf(s: State, live: set<LinkKey>, c: Copy)
    requires c.to in s.brokers
    ensures forall x :: x in Fan(s, live, c) <==> exists k :: k in s.links && x in OverLink(s, live, c, k)
    ensures |Fan(s, live, c)| <= 2 * |s.links|
  {
    OutgoingOf(s, live, c, Text.Sorted(s.links.Keys));
    assert |s.links.Keys| == |s.links|;
  }

  /** A remembered id is dropped; any other is recorded, fanned out and served. */
  lemma ArriveEffect(s: State, live: set<LinkKey>, f: Traffic, i: nat)
    requires Sane(s, f) && i < |f.flight|
    ensures var c := f.flight[i]; var h := f.seen[c.to];
            After(s, live, f, Arrive(i)) ==
            if Normalise(c.msg.id) in Remembered(h) then f.(flight := Without(f.flight, i))
            else Traffic(f.seen[c.to := h + [Normalise(c.msg.id)]], Without(f.flight, i) + Fan(s, live, c), f.log + Served(s, c))
  {
    var c := f.flight[i];
    assert c in f.flight;
    RoutingIsFiltering(s.brokers[c.to], f.seen[c.to], c);
    assert f.seen[c.to := f.seen[c.to]] == f.seen;
  }

  lemma FanSane(s: State, live: set<LinkKey>, c: Copy)
    requires Mesh.Inv(s) && Settled(s) && SaneCopy(s, c)
    ensures forall x :: x in Fan(s, live, c) ==> SaneCopy(s, x) && x.msg == c.msg
  {
    hide Mesh.Inv, Recipient, Fan;
    FanOf(s, live, c);
    forall x | x in Fan(s, live, c)
      ensures SaneCopy(s, x) && x.msg == c.msg
    {
      var k :| k in s.links && x in OverLink(s, live, c, k);
      AcceptorThere(s, k);
    }
  }

  lemma AfterSane(s: State, live: set<LinkKey>, f: Traffic, m: Move)
    requires Mesh.Inv(s) && Settled(s) && Sane(s, f) && CanMove(s, f, m)
    ensures Sane(s, After(s, live, f, m))
  {
    hide Mesh.Inv, Settled, Fan, Served, Genuine, Remembered;
    var f' := After(s, live, f, m);
    if m.Arrive? {
      var c := f.flight[m.index];
      ArriveEffect(s, live, f, m.index);
      ObserveGenuine(f.seen[c.to], c.msg.id);
      FanSane(s, live, c);
      hide After, Process;
      forall x | x in f'.flight
        ensures SaneCopy(s, x)
      {
        assert x in f.flight || x in Fan(s, live, c);
      }
    }
  }

  // Whole runs.

  ghost predicate Flows(s: State, live: set<LinkKey>, f: Traffic, ms: seq<Move>, f': Traffic)
    decreases |ms|
  {
    if ms == [] then f == f'
    else InNet(s, f) && CanMove(s, f, ms[0]) && Flows(s, live, After(s, live, f, ms[0]), ms[1..], f')
  }

  lemma {:induction false} FlowsSane(s: State, live: set<LinkKey>, f: Traffic, ms: seq<Move>, f': Traffic)
    requires Mesh.Inv(s) && Settled(s) && Sane(s, f) && Flows(s, live, f, ms, f')
    ensures Sane(s, f')
    decreases |ms|
  {
    hide Mesh.Inv, Settled, Sane, After, CanMove;
    if ms == [] {
    } else {
      AfterSane(s, live, f, ms[0]);
      FlowsSane(s, live, After(s, live, f, ms[0]), ms[1..], f');
    }
  }

  lemma QuietSane(s: State)
    ensures Sane(s, Quiet(s))
  {
  }

  /** At most once: on any topology, with cycles and duplicate links, and whatever is published, a
      broker that routes an id again has accepted at least HISTORY other ids since, and at least
      2 * HISTORY ids in all. */
  lemma RoutedAtMostOnce(s: State, live: set<LinkKey>, ms: seq<Move>, f: Traffic, b: BrokerId, i: nat, j: nat)
    requires Reachable(s) && Settled(s) && Flows(s, live, Quiet(s), ms, f)
    requires b in f.seen && i < j < |f.seen[b]| && f.seen[b][i] == f.seen[b][j]
    ensures j - i > HISTORY && j >= 2 * HISTORY
  {
    hide Mesh.Inv, Reachable, Settled, Flows, Quiet, SaneCopy, InNet, Genuine;
    ReachableInv(s);
    QuietSane(s);
    FlowsSane(s, live, Quiet(s), ms, f);
    GenuineApart(f.seen[b], i, j);
  }

  // Termination.

  ghost predicate Ids(f: Traffic, ids: set<MessageId>) {
    && (forall c :: c in f.flight ==> Normalise(c.msg.id) in ids)
    && (forall b :: b in f.seen ==> forall id :: id in f.seen[b] ==> id in ids)
  }

  ghost function Unseen(f: Traffic, ids: set<MessageId>): set<(BrokerId, MessageId)> {
    set b, id | b in f.seen && id in ids && id !in f.seen[b] :: (b, id)
  }

  /** What is left to do: the copies in flight, and for every (broker, id) pair not yet routed the
      copies routing it can make. */
  ghost function Potential(s: State, f: Traffic, ids: set<MessageId>): nat {
    |f.flight| + 2 * |s.links| * |Unseen(f, ids)|
  }

  /** With fewer than 2 * HISTORY ids about, nothing is ever evicted. */
  lemma NoEviction(h: seq<MessageId>, ids: set<MessageId>)
    requires Genuine(h) && (forall id :: id in h ==> id in ids) && |ids| < 2 * HISTORY
    ensures |h| < 2 * HISTORY && Remembered(h) == h
  {
    if |h| >= 2 * HISTORY {
      var g := h[..2 * HISTORY];
      forall i, j | 0 <= i < j < |g| ensures g[i] != g[j] {
        assert RememberedStart(j) == 0;
      }
      ElementsSize(g);
      Text.SubsetSize(Elements(g), ids);
    }
  }

  lemma ArriveProgress(s: State, live: set<LinkKey>, f: Traffic, i: nat, ids: set<MessageId>)
    requires Mesh.Inv(s) && Settled(s) && Sane(s, f) && i < |f.flight|
    requires Ids(f, ids) && |ids| < 2 * HISTORY
    ensures Ids(After(s, live, f, Arrive(i)), ids)
    ensures Potential(s, After(s, live, f, Arrive(i)), ids) < Potential(s, f, ids)
  {
    hide Mesh.Inv, Settled, Fan, Served, After, Remembered, Normalise, SaneCopy, Genuine;
    var c := f.flight[i];
    assert c in f.flight;
    var h, id := f.seen[c.to], Normalise(c.msg.id);
    NoEviction(h, ids);
    ArriveEffect(s, live, f, i);
    if id !in h {
      FanIds(s, live, f, i, ids, f.log + Served(s, c));
      hide Ids;
      FanOf(s, live, c);
      UnseenShrinks(f, ids, c.to, id);
      MulStep(2 * |s.links|, |Unseen(f, ids)|);
    }
  }

  lemma FanIds(s: State, live: set<LinkKey>, f: Traffic, i: nat, ids: set<MessageId>, log: seq<Delivery>)
    requires Mesh.Inv(s) && Settled(s) && Sane(s, f) && i < |f.flight| && Ids(f, ids)
    ensures var c := f.flight[i]; var id := Normalise(c.msg.id);
            Ids(Traffic(f.seen[c.to := f.seen[c.to] + [id]], Without(f.flight, i) + Fan(s, live, c), log), ids)
  {
    hide Mesh.Inv, Settled, Fan, Normalise, SaneCopy, Genuine;
    var c := f.flight[i];
    assert c in f.flight;
    FanSane(s, live, c);
  }

  lemma MulStep(k: nat, n: nat)
    requires n > 0
    ensures k * n == k * (n - 1) + k
  {
  }

  lemma UnseenShrinks(f: Traffic, ids: set<MessageId>, b: BrokerId, id: MessageId)
    requires b in f.seen && id in ids && id !in f.seen[b]
    ensures var f' := f.(seen := f.seen[b := f.seen[b] + [id]]);
            forall g: Traffic :: g.seen == f'.seen ==> |Unseen(g, ids)| == |Unseen(f, ids)| - 1
    ensures |Unseen(f, ids)| > 0
  {
    var f' := f.(seen := f.seen[b := f.seen[b] + [id]]);
    assert (b, id) in Unseen(f, ids);
    assert Unseen(f', ids) == Unseen(f, ids) - {(b, id)};
    forall g: Traffic | g.seen == f'.seen
      ensures Unseen(g, ids) == Unseen(f', ids)
    {
    }
  }

  /** Flooding ends: with nothing new published, a run takes no more steps than the potential it
      starts from. */
  lemma {:induction false} FloodingEnds(s: State, live: set<LinkKey>, f: Traffic, ms: seq<Move>, f': Traffic, ids: set<MessageId>)
    requires Mesh.Inv(s) && Settled(s) && Sane(s, f) && Flows(s, live, f, ms, f')
    requires Ids(f, ids) && |ids| < 2 * HISTORY
    requires forall i :: 0 <= i < |ms| ==> ms[i].Arrive?
    ensures |ms| + Potential(s, f', ids) <= Potential(s, f, ids)
    decreases |ms|
  {
    hide Mesh.Inv, Settled, Sane, After, Potential, Ids;
    if ms == [] {
    } else {
      AfterSane(s, live, f, ms[0]);
      ArriveProgress(s, live, f, ms[0].index, ids);
      FloodingEnds(s, live, After(s, live, f, ms[0]), ms[1..], f', ids);
    }
  }
}
