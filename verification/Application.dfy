/** An application client on a broker of a mesh: its registrations and its session there, while the
    rest of the mesh does what it does (common/connectionmanager.cpp, server/broker.cpp). */
module Application {
  import opened Keys
  import opened Registry
  import opened Interest
  import opened BrokerCore
  import opened Mesh
  import Broker
  import Client
  import Replica

  /** Which client of which broker. */
  datatype Seat = Seat(at: BrokerId, me: ClientId)

  /** `chan` and `resets` are in flight between the client and its broker. */
  datatype Joint = Joint(mesh: State, client: Client.Client, chan: seq<Replica.Ctl>, resets: nat)

  /** The client's own events, and anybody else's. */
  datatype Event = Mine(e: Client.Event) | Others(m: Mesh.Event)

  /** The client and its session, as the broker's state has it. */
  function Own(j: Joint, seat: Seat): Client.State
    requires seat.at in j.mesh.brokers
  {
    var b := j.mesh.brokers[seat.at];
    Client.State(j.client, Replica.Session(seat.me in b.clients, ViewOf(b.rel, seat.me), j.chan, j.resets))
  }

  /** The event does not act for the client, nor take its name. */
  predicate Elsewhere(m: Mesh.Event, seat: Seat) {
    && (m.Client? ==> (m.at, m.c) != (seat.at, seat.me))
    && (m.Dial? ==> (m.acceptor, m.id) != (seat.at, seat.me))
  }

  predicate Seated(j: Joint, seat: Seat) {
    seat.at in j.mesh.brokers && !PeerIdAt(j.mesh, seat.at, seat.me)
  }

  predicate Able(j: Joint, seat: Seat, e: Event)
    requires Seated(j, seat)
  {
    match e
    case Mine(c) => Client.Enabled(Own(j, seat), c)
    case Others(m) => Mesh.Enabled(j.mesh, m) && Elsewhere(m, seat)
  }

  /** What the broker gets to see of a client's event: the next message, a heartbeat, or nothing more
      of it. */
  function Seen(j: Joint, c: Client.Event): seq<Broker.Inbound>
    requires c.Arrives? ==> j.chan != []
  {
    match c
    case Arrives => [Broker.Control(j.chan[0])]
    case Heard => [Broker.Heartbeat]
    case Forgets(_, _) => [Broker.Disconnect]
    case _ => []
  }

  function Act(j: Joint, seat: Seat, e: Event): Joint
    requires Mesh.Wf(j.mesh) && Seated(j, seat) && Able(j, seat, e)
  {
    match e
    case Mine(c) =>
      var next := Client.Step(Own(j, seat), c);
      var seen := Seen(j, c);
      var mesh := if seen == [] then j.mesh else Mesh.Step(j.mesh, Mesh.Client(seat.at, seat.me, seen[0]));
      Joint(mesh, next.client, next.session.chan, next.session.resets)
    case Others(m) => j.(mesh := Mesh.Step(j.mesh, m))
  }

  /** What reaches the broker does to its state what the session model says. */
  lemma MineActs(j: Joint, seat: Seat, c: Client.Event)
    requires Mesh.Inv(j.mesh) && Mesh.Wf(j.mesh) && Seated(j, seat) && Able(j, seat, Mine(c))
    ensures var j' := Act(j, seat, Mine(c));
            Mesh.Inv(j'.mesh) && Seated(j', seat) && Own(j', seat) == Client.Step(Own(j, seat), c)
  {
    hide Mesh.Inv, ViewOf, Replica.Accept, Handle, Remove, Replica.Apply;
    var b := j.mesh.brokers[seat.at];
    match c
    case Arrives =>
      var e := Mesh.Client(seat.at, seat.me, Broker.Control(j.chan[0]));
      HandleView(b, seat.me, j.chan[0]);
      ClientMoves(j.mesh, seat.at, seat.me, Broker.Control(j.chan[0]));
    case Heard =>
      ClientMoves(j.mesh, seat.at, seat.me, Broker.Heartbeat);
    case Forgets(lost, kept) =>
      RemoveView(b, seat.me);
      ClientMoves(j.mesh, seat.at, seat.me, Broker.Disconnect);
    case _ =>
  }

  lemma ClientMoves(s: State, at: BrokerId, c: ClientId, m: Broker.Inbound)
    requires Mesh.Inv(s) && Wf(s) && at in s.brokers && !PeerIdAt(s, at, c)
    ensures var s' := Mesh.Step(s, Mesh.Client(at, c, m));
            && Mesh.Inv(s') && at in s'.brokers && s'.brokers[at] == Broker.ClientEffect(s.brokers[at], m, c).core
            && !PeerIdAt(s', at, c)
  {
    hide Mesh.Inv, Broker.ClientEffect;
    StepKeeps(s, Mesh.Client(at, c, m));
    var f := Broker.ClientEffect(s.brokers[at], m, c);
    SpreadWf(s, at, f.core, f.out);
  }

  /** Nobody else's event moves the client's session. */
  lemma OthersLeave(s: State, seat: Seat, m: Mesh.Event)
    requires Mesh.Inv(s) && Wf(s) && Mesh.Enabled(s, m) && Elsewhere(m, seat)
    requires seat.at in s.brokers && !PeerIdAt(s, seat.at, seat.me)
    ensures var s' := Mesh.Step(s, m);
            && Mesh.Inv(s') && seat.at in s'.brokers
            && ViewOf(s'.brokers[seat.at].rel, seat.me) == ViewOf(s.brokers[seat.at].rel, seat.me)
            && (seat.me in s'.brokers[seat.at].clients <==> seat.me in s.brokers[seat.at].clients)
            && !PeerIdAt(s', seat.at, seat.me)
  {
    StepKeeps(s, m);
    OthersSession(s, seat, m);
    OthersNames(s, seat, m);
  }

  /** Apart from the client a step acts for, no broker's view of any client moves. */
  ghost predicate Apart(b: Core, b': Core, d: ClientId) {
    ViewOf(b'.rel, d) == ViewOf(b.rel, d) && (d in b'.clients <==> d in b.clients)
  }

  lemma ClientApart(b: Core, m: Broker.Inbound, c: ClientId, d: ClientId)
    requires c != d
    ensures Apart(b, Broker.ClientEffect(b, m, c).core, d)
  {
    match m
    case Disconnect => RemoveView(b, c);
    case Control(ctl) => HandleView(b, c, ctl);
    case Heartbeat =>
    case Publish(_) =>
  }

  /** Another client's core at broker `at`: the seat's view is apart from it, there or elsewhere. */
  lemma ElsewhereApart(s: State, at: BrokerId, core: Core, out: seq<Replica.Ctl>, seat: Seat)
    requires seat.at in s.brokers && (at == seat.at ==> Apart(s.brokers[at], core, seat.me))
    ensures var brokers := Spread(s, at, core, out).brokers;
            seat.at in brokers && Apart(s.brokers[seat.at], brokers[seat.at], seat.me)
  {
  }

  lemma OthersSession(s: State, seat: Seat, m: Mesh.Event)
    requires Wf(s) && Mesh.Enabled(s, m) && Elsewhere(m, seat)
    requires seat.at in s.brokers && !PeerIdAt(s, seat.at, seat.me)
    ensures seat.at in Mesh.Step(s, m).brokers && Apart(s.brokers[seat.at], Mesh.Step(s, m).brokers[seat.at], seat.me)
  {
    hide ViewOf, Handle, Remove, Broker.ClientEffect, Snapshot, Stale, Spread;
    match m
    case Client(at, c, inbound) =>
      var f := Broker.ClientEffect(s.brokers[at], inbound, c);
      if at == seat.at { ClientApart(s.brokers[at], inbound, c, seat.me); }
      ElsewhereApart(s, at, f.core, f.out, seat);
    case Receive(k) => LinkSession(s, seat, m, k);
    case Poke(k) => LinkSession(s, seat, m, k);
    case Forget(k, _, _) => LinkSession(s, seat, m, k);
    case Trail(at, id) => DepartedSession(s, seat, m, at, id);
    case Farewell(at, id) => DepartedSession(s, seat, m, at, id);
    case TimeOut(at, id) => DepartedSession(s, seat, m, at, id);
    case _ =>
  }

  lemma LinkSession(s: State, seat: Seat, m: Mesh.Event, k: LinkKey)
    requires Wf(s) && Mesh.Enabled(s, m) && (m.Receive? || m.Poke? || m.Forget?) && m.key == k
    requires seat.at in s.brokers && !PeerIdAt(s, seat.at, seat.me)
    ensures seat.at in Mesh.Step(s, m).brokers && Apart(s.brokers[seat.at], Mesh.Step(s, m).brokers[seat.at], seat.me)
  {
    hide ViewOf, Handle, Remove, Spread;
    var l := s.links[k];
    var b := s.brokers[l.acceptor];
    var f := if m.Receive? then Handle(b, l.id, l.chan[0]) else if m.Poke? then Touch(b, l.id, false) else Remove(b, l.id);
    if l.acceptor == seat.at {
      assert l.id != seat.me;
      if m.Receive? { HandleView(b, l.id, l.chan[0]); }
      RemoveView(b, l.id);
    }
    var l' := if m.Receive? then l.(chan := l.chan[1..], resets := l.resets + if f.reset then 1 else 0)
              else if m.Poke? then l.(resets := l.resets + if f.reset then 1 else 0)
              else l.(chan := l.chan[m.lost..], resets := m.kept, stale := {});
    ElsewhereApart(WithLink(s, k, l'), l.acceptor, f.core, f.out, seat);
  }

  lemma DepartedSession(s: State, seat: Seat, m: Mesh.Event, at: BrokerId, id: ClientId)
    requires Wf(s) && Mesh.Enabled(s, m) && (m.Trail? || m.Farewell? || m.TimeOut?) && m.at == at && m.id == id
    requires seat.at in s.brokers && !PeerIdAt(s, seat.at, seat.me)
    ensures seat.at in Mesh.Step(s, m).brokers && Apart(s.brokers[seat.at], Mesh.Step(s, m).brokers[seat.at], seat.me)
  {
    hide ViewOf, Handle, Remove, Spread;
    var b := s.brokers[at];
    var f := if m.Trail? then Handle(b, id, s.departed[(at, id)].chan[0]) else Remove(b, id);
    if at == seat.at {
      assert id != seat.me;
      if m.Trail? { HandleView(b, id, s.departed[(at, id)].chan[0]); }
      RemoveView(b, id);
    }
    ElsewhereApart(s, at, f.core, f.out, seat);
  }

  /** A name no link had is no link's or departed one's after a step that does not dial under it. */
  lemma OthersNames(s: State, seat: Seat, m: Mesh.Event)
    requires Wf(s) && Mesh.Enabled(s, m) && Elsewhere(m, seat) && !PeerIdAt(s, seat.at, seat.me)
    ensures !PeerIdAt(Mesh.Step(s, m), seat.at, seat.me)
  {
    hide Handle, Remove, Broker.ClientEffect, Snapshot, Stale;
    var s' := Mesh.Step(s, m);
    forall k | k in s'.links && s'.links[k].acceptor == seat.at
      ensures s'.links[k].id != seat.me
    {
      if m.Dial? && k == m.key {
      } else {
        assert k in s.links && s'.links[k].acceptor == s.links[k].acceptor && s'.links[k].id == s.links[k].id;
      }
    }
    if m.HangUp? {
      assert (s.links[m.key].acceptor, s.links[m.key].id) != (seat.at, seat.me);
    }
  }

  // Runs.

  ghost predicate Proceeds(j: Joint, seat: Seat, es: seq<Event>, j': Joint)
    decreases |es|
  {
    if es == [] then j' == j
    else
      && Mesh.Wf(j.mesh) && Seated(j, seat) && Able(j, seat, es[0])
      && Proceeds(Act(j, seat, es[0]), seat, es[1..], j')
  }

  /** The client's own part of a run. */
  function Part(es: seq<Event>): seq<Client.Event> {
    if es == [] then [] else (if es[0].Mine? then [es[0].e] else []) + Part(es[1..])
  }

  lemma ActKeeps(j: Joint, seat: Seat, e: Event)
    requires Mesh.Inv(j.mesh) && Mesh.Wf(j.mesh) && Seated(j, seat) && Able(j, seat, e)
    ensures var j' := Act(j, seat, e);
            && Mesh.Inv(j'.mesh) && Mesh.Wf(j'.mesh) && Seated(j', seat)
            && Own(j', seat) == (if e.Mine? then Client.Step(Own(j, seat), e.e) else Own(j, seat))
  {
    hide Mesh.Inv, ViewOf;
    match e
    case Mine(c) => MineActs(j, seat, c); InvWf(Act(j, seat, e).mesh);
    case Others(m) => OthersLeave(j.mesh, seat, m); InvWf(Act(j, seat, e).mesh);
  }

  lemma InvWf(s: State)
    requires Mesh.Inv(s)
    ensures Wf(s)
  {
  }

  /** Whatever the rest of the mesh does, the client's session runs as it would alone. */
  lemma {:induction false} RunsAlone(j: Joint, seat: Seat, es: seq<Event>, j': Joint)
    requires Mesh.Inv(j.mesh) && Seated(j, seat) && Proceeds(j, seat, es, j')
    ensures Mesh.Inv(j'.mesh) && Seated(j', seat)
    ensures Client.Runs(Own(j, seat), Part(es), Own(j', seat))
    decreases |es|
  {
    hide Mesh.Inv, Seated, Own, Client.Step, Client.Enabled, Act;
    if es == [] {
    } else {
      SeatThere(j, seat);
      ActKeeps(j, seat, es[0]);
      var j1 := Act(j, seat, es[0]);
      RunsAlone(j1, seat, es[1..], j');
      if es[0].Mine? { assert Part(es)[1..] == Part(es[1..]); } else { assert Part(es) == Part(es[1..]); }
    }
  }

  lemma SeatThere(j: Joint, seat: Seat)
    requires Seated(j, seat)
    ensures seat.at in j.mesh.brokers
  {
  }

  /** The client starts on a mesh that has not heard of it. */
  predicate Fresh(j: Joint, seat: Seat) {
    && Seated(j, seat) && seat.me !in j.mesh.brokers[seat.at].clients
    && j.client == Client.START.client && j.chan == [] && j.resets == 0
  }

  /** In any run of a mesh with the client on one of its brokers, from any reachable mesh on: connected,
      with nothing in flight and no RESET owed, and with its registrations within the broker's
      limits, the client gets every message to exactly the callbacks it is owed to. */
  lemma EveryRunDispatches(j: Joint, seat: Seat, es: seq<Event>, j': Joint, t: Topic, sender: ClientId, fromPeer: bool)
    requires Reachable(j.mesh) && Fresh(j, seat) && Proceeds(j, seat, es, j')
    requires Client.StaysCapped(Client.START, Part(es))
    requires j'.client.connected && j'.chan == [] && j'.resets == 0 && (fromPeer || seat.me != sender)
    ensures Seated(j', seat)
    ensures var b := j'.mesh.brokers[seat.at];
            seat.me in b.clients ==>
              Client.AsOwed(Client.Called(b, seat.me, j'.client.handlers, t, sender, fromPeer, !fromPeer), j'.client.handlers, t, !fromPeer)
  {
    hide Mesh.Inv, Reachable;
    ReachableInv(j.mesh);
    StartsAlone(j, seat);
    RunsAlone(j, seat, es, j');
    var b, own := j'.mesh.brokers[seat.at], Own(j', seat);
    if seat.me in b.clients {
      Client.ReplicaConverges(Part(es), own);
      Client.UnionRefinesCallbacks(b, seat.me, j'.client.handlers, t, sender, fromPeer, !fromPeer);
    }
  }

  lemma StartsAlone(j: Joint, seat: Seat)
    requires Mesh.Inv(j.mesh) && Fresh(j, seat)
    ensures Own(j, seat) == Client.START
  {
    StrangerHoldsNothing(j.mesh.brokers[seat.at], seat.me);
  }
}
