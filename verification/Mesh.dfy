/** The control plane of a whole mesh: any number of brokers dialing each other, each link's
    subscriptions replicated into the acceptor's registry over a FIFO channel, links forgotten and
    rebuilt at any time (server/broker.cpp). Each event is one atomic step. */
module Mesh {
  import opened Keys
  import opened Registry
  import opened Interest
  import opened BrokerCore
  import Replica
  import Broker

  type BrokerId = string
  type LinkKey = string

  /** A link from the broker that dialed to the one that accepted. `id` is the client identity it
      presents there, `chan` its control messages still in flight, `resets` the RESETs on their way
      back. `stale` are the topics its identity already held there, outside what the dialer wants,
      when the link was dialed onto a session the acceptor still had. */
  datatype Link = Link(dialer: BrokerId, acceptor: BrokerId, id: ClientId, chan: seq<Replica.Ctl>, resets: nat,
                       stale: set<Topic>)

  /** What is still in flight from a link that hung up, and whether a DISCONNECT comes last. */
  datatype Departed = Departed(chan: seq<Replica.Ctl>, farewell: bool)

  const SILENT := Departed([], false)

  /** `departed`: the identities links left behind, by acceptor, until it has noticed. */
  datatype State = State(brokers: map<BrokerId, Core>, links: map<LinkKey, Link>,
                         departed: map<(BrokerId, ClientId), Departed>)

  datatype Event =
    | Client(at: BrokerId, c: ClientId, m: Broker.Inbound)
    | Receive(key: LinkKey)
    | Poke(key: LinkKey)
    | Forget(key: LinkKey, lost: nat, kept: nat)
    | Answer(key: LinkKey)
    | Dial(key: LinkKey, dialer: BrokerId, acceptor: BrokerId, id: ClientId)
    | HangUp(key: LinkKey)
    // The acceptor receives a departed link's next message, or its DISCONNECT; the rest of it is lost;
    // the acceptor times its session out.
    | Trail(at: BrokerId, id: ClientId)
    | Farewell(at: BrokerId, id: ClientId)
    | CutOff(at: BrokerId, id: ClientId)
    | TimeOut(at: BrokerId, id: ClientId)

  predicate LinkIdAt(s: State, b: BrokerId, c: ClientId) {
    exists k :: k in s.links && s.links[k].acceptor == b && s.links[k].id == c
  }

  /** The identity is, or was, a link's. */
  predicate PeerIdAt(s: State, b: BrokerId, c: ClientId) {
    LinkIdAt(s, b, c) || (b, c) in s.departed
  }

  predicate Enabled(s: State, e: Event) {
    match e
    case Client(at, c, m) => at in s.brokers && !PeerIdAt(s, at, c)
    case Receive(k) => k in s.links && s.links[k].chan != []
    case Poke(k) => k in s.links
    case Forget(k, lost, kept) => k in s.links && lost <= |s.links[k].chan| && kept <= s.links[k].resets
    case Answer(k) => k in s.links && s.links[k].resets > 0
    case Dial(k, dialer, acceptor, id) =>
      && k !in s.links && dialer in s.brokers && acceptor in s.brokers
      && !LinkIdAt(s, acceptor, id)
      && if (acceptor, id) in s.departed then s.departed[(acceptor, id)] == SILENT
         else id !in s.brokers[acceptor].clients
    case HangUp(k) => k in s.links
    case Trail(at, id) => (at, id) in s.departed && s.departed[(at, id)].chan != []
    case Farewell(at, id) => (at, id) in s.departed && s.departed[(at, id)] == Departed([], true)
    case CutOff(at, id) => (at, id) in s.departed
    case TimeOut(at, id) => (at, id) in s.departed
  }

  /** Links only ever run between brokers of the mesh, no two present one identity to a broker, and
      none presents one that departed. */
  ghost predicate Wf(s: State) {
    && (forall k :: k in s.links ==> s.links[k].dialer in s.brokers && s.links[k].acceptor in s.brokers)
    && (forall j, k :: j in s.links && k in s.links && j != k && s.links[j].acceptor == s.links[k].acceptor ==>
          s.links[j].id != s.links[k].id)
    && (forall d :: d in s.departed ==> d.0 in s.brokers && !LinkIdAt(s, d.0, d.1))
  }

  /** Broker b moves to `core` and tells every link it dialed. */
  function Spread(s: State, b: BrokerId, core: Core, out: seq<Replica.Ctl>): State {
    s.(brokers := s.brokers[b := core],
       links := map k | k in s.links ::
                  if s.links[k].dialer == b then s.links[k].(chan := s.links[k].chan + out) else s.links[k])
  }

  function WithLink(s: State, k: LinkKey, l: Link): State { s.(links := s.links[k := l]) }

  /** Topics a session holds outside what the dialer wants. */
  function Stale(acceptor: Core, id: ClientId, wants: Interest): set<Topic> {
    ViewOf(acceptor.rel, id).Keys - LinkGoal(wants).may
  }

  function Step(s: State, e: Event): State
    requires Wf(s) && Enabled(s, e)
  {
    match e
    case Client(at, c, m) =>
      var f := Broker.ClientEffect(s.brokers[at], m, c);
      Spread(s, at, f.core, f.out)
    case Receive(k) =>
      var l := s.links[k];
      var f := Handle(s.brokers[l.acceptor], l.id, l.chan[0]);
      Spread(WithLink(s, k, l.(chan := l.chan[1..], resets := l.resets + if f.reset then 1 else 0)),
             l.acceptor, f.core, f.out)
    case Poke(k) =>
      var l := s.links[k];
      var f := Touch(s.brokers[l.acceptor], l.id, false);
      Spread(WithLink(s, k, l.(resets := l.resets + if f.reset then 1 else 0)), l.acceptor, f.core, f.out)
    case Forget(k, lost, kept) =>
      var l := s.links[k];
      var f := Remove(s.brokers[l.acceptor], l.id);
      Spread(WithLink(s, k, l.(chan := l.chan[lost..], resets := kept, stale := {})), l.acceptor, f.core, f.out)
    case Answer(k) =>
      var l := s.links[k];
      WithLink(s, k, l.(resets := l.resets - 1, chan := l.chan + Snapshot(s.brokers[l.dialer].interest)))
    case Dial(k, dialer, acceptor, id) =>
      var i := s.brokers[dialer].interest;
      WithLink(s, k, Link(dialer, acceptor, id, [Replica.Connect] + Snapshot(i), 0, Stale(s.brokers[acceptor], id, i)))
        .(departed := s.departed - {(acceptor, id)})
    case HangUp(k) =>
      var l := s.links[k];
      s.(links := s.links - {k}, departed := s.departed[(l.acceptor, l.id) := Departed(l.chan, true)])
    case Trail(at, id) =>
      var d := s.departed[(at, id)];
      var f := Handle(s.brokers[at], id, d.chan[0]);
      Spread(s, at, f.core, f.out).(departed := s.departed[(at, id) := d.(chan := d.chan[1..])])
    case Farewell(at, id) =>
      var f := Remove(s.brokers[at], id);
      Spread(s, at, f.core, f.out).(departed := s.departed - {(at, id)})
    case CutOff(at, id) => s.(departed := s.departed[(at, id) := SILENT])
    case TimeOut(at, id) =>
      var f := Remove(s.brokers[at], id);
      Spread(s, at, f.core, f.out).(departed := if s.departed[(at, id)] == SILENT then s.departed - {(at, id)} else s.departed)
  }

  /** The link's session as its acceptor sees it. */
  function SessionOf(s: State, k: LinkKey): Replica.Session
    requires k in s.links && s.links[k].acceptor in s.brokers
  {
    var l := s.links[k];
    var acceptor := s.brokers[l.acceptor];
    Replica.Session(l.id in acceptor.clients, ViewOf(acceptor.rel, l.id), l.chan, l.resets)
  }

  ghost predicate LinkOk(s: State, k: LinkKey)
    requires Wf(s) && k in s.links
  {
    Replica.OnTrack(SessionOf(s, k), LinkGoal(s.brokers[s.links[k].dialer].interest), s.links[k].stale, LINK_BOUND)
  }

  ghost predicate LinksOk(s: State) {
    Wf(s) && forall k :: k in s.links ==> LinkOk(s, k)
  }

  /** What holds in every reachable state. */
  ghost predicate Inv(s: State) {
    LinksOk(s) && forall b :: b in s.brokers ==> Ok(s.brokers[b])
  }

  /** The dialer's interest moves and all its links are told: every link stays on its goal. */
  lemma SpreadKeeps(s: State, b: BrokerId, core: Core, out: seq<Replica.Ctl>)
    requires LinksOk(s) && b in s.brokers && Sized(core.interest)
    requires core.clients == s.brokers[b].clients && core.rel == s.brokers[b].rel
    requires Replica.Carries(LinkGoal(s.brokers[b].interest), LinkGoal(core.interest), out, LINK_BOUND)
    ensures LinksOk(Spread(s, b, core, out))
  {
    MayFits(core.interest);
    hide Replica.OnTrack, LinkGoal, Replica.Carries, ViewOf, Sized, Replica.Sound;
    var s' := Spread(s, b, core, out);
    SpreadWf(s, b, core, out);
    forall k | k in s'.links
      ensures LinkOk(s', k)
    {
      assert LinkOk(s, k);
      var l := s.links[k];
      if l.dialer == b {
        Replica.OnTrackPush(SessionOf(s, k), LinkGoal(s.brokers[b].interest), LinkGoal(core.interest), l.stale, out, LINK_BOUND);
        assert s'.links[k] == l.(chan := l.chan + out);
        assert SessionOf(s', k) == Replica.Push(SessionOf(s, k), out);
      } else {
        assert SessionOf(s', k) == SessionOf(s, k);
      }
    }
  }

  lemma SpreadWf(s: State, b: BrokerId, core: Core, out: seq<Replica.Ctl>)
    requires Wf(s) && b in s.brokers
    ensures Wf(Spread(s, b, core, out))
    ensures forall a, c :: LinkIdAt(Spread(s, b, core, out), a, c) <==> LinkIdAt(s, a, c)
  {
    var s' := Spread(s, b, core, out);
    assert s'.links.Keys == s.links.Keys;
    forall k | k in s.links
      ensures s'.links[k].dialer == s.links[k].dialer && s'.links[k].acceptor == s.links[k].acceptor && s'.links[k].id == s.links[k].id
    {
    }
    assert forall a, c :: LinkIdAt(s', a, c) <==> LinkIdAt(s, a, c);
  }

  /** What departed plays no part in a link's session. */
  lemma DepartedKeeps(s: State, departed: map<(BrokerId, ClientId), Departed>)
    requires LinksOk(s) && departed.Keys <= s.departed.Keys
    ensures LinksOk(s.(departed := departed))
  {
    hide Replica.OnTrack, LinkGoal, ViewOf;
    var s' := s.(departed := departed);
    assert forall a, c :: LinkIdAt(s', a, c) <==> LinkIdAt(s, a, c);
    forall k | k in s'.links
      ensures LinkOk(s', k)
    {
      assert LinkOk(s, k);
      assert SessionOf(s', k) == SessionOf(s, k);
    }
  }

  /** A broker's registry changes for one client: only that client's link, if it is one, notices. */
  lemma AcceptorKeeps(s: State, b: BrokerId, c: ClientId, core: Core)
    requires LinksOk(s) && b in s.brokers && !LinkIdAt(s, b, c)
    requires core.interest == s.brokers[b].interest
    requires forall d :: d != c ==> ViewOf(core.rel, d) == ViewOf(s.brokers[b].rel, d)
    requires forall d :: d != c ==> (d in core.clients <==> d in s.brokers[b].clients)
    ensures LinksOk(s.(brokers := s.brokers[b := core]))
  {
    hide Replica.OnTrack, LinkGoal, ViewOf;
    var s' := s.(brokers := s.brokers[b := core]);
    assert forall a, c :: LinkIdAt(s', a, c) <==> LinkIdAt(s, a, c);
    forall k | k in s'.links
      ensures LinkOk(s', k)
    {
      assert LinkOk(s, k);
      assert SessionOf(s', k) == SessionOf(s, k);
    }
  }

  /** The two together: the broker moves for a client that is no link, and tells its links. */
  lemma OutsiderKeeps(s: State, b: BrokerId, c: ClientId, f: Effect)
    requires LinksOk(s) && b in s.brokers && !LinkIdAt(s, b, c) && Sized(f.core.interest)
    requires Replica.Carries(LinkGoal(s.brokers[b].interest), LinkGoal(f.core.interest), f.out, LINK_BOUND)
    requires forall d :: d != c ==> ViewOf(f.core.rel, d) == ViewOf(s.brokers[b].rel, d)
    requires forall d :: d != c ==> (d in f.core.clients <==> d in s.brokers[b].clients)
    ensures LinksOk(Spread(s, b, f.core, f.out))
  {
    hide LinkOk, LinkGoal, ViewOf, Replica.Carries, LinkIdAt, Sized;
    var mid := f.core.(interest := s.brokers[b].interest);
    AcceptorKeeps(s, b, c, mid);
    var s1 := s.(brokers := s.brokers[b := mid]);
    SpreadKeeps(s1, b, f.core, f.out);
    assert Spread(s1, b, f.core, f.out) == Spread(s, b, f.core, f.out);
  }

  /** The same for a link's own client, whose session steps from one invariant state to another. */
  lemma LinkKeeps(s: State, k: LinkKey, l: Link, core: Core)
    requires LinksOk(s) && k in s.links
    requires l.dialer == s.links[k].dialer && l.acceptor == s.links[k].acceptor && l.id == s.links[k].id
    requires core.interest == s.brokers[l.acceptor].interest
    requires forall d :: d != l.id ==> ViewOf(core.rel, d) == ViewOf(s.brokers[l.acceptor].rel, d)
    requires forall d :: d != l.id ==> (d in core.clients <==> d in s.brokers[l.acceptor].clients)
    requires Replica.OnTrack(Replica.Session(l.id in core.clients, ViewOf(core.rel, l.id), l.chan, l.resets),
                             LinkGoal(s.brokers[l.dialer].interest), l.stale, LINK_BOUND)
    ensures LinksOk(s.(brokers := s.brokers[l.acceptor := core], links := s.links[k := l]))
  {
    hide Replica.OnTrack, LinkGoal, ViewOf;
    var s' := s.(brokers := s.brokers[l.acceptor := core], links := s.links[k := l]);
    LinkWf(s, k, l, core);
    forall j | j in s'.links
      ensures LinkOk(s', j)
    {
      if j != k {
        assert LinkOk(s, j);
        assert SessionOf(s', j) == SessionOf(s, j);
      }
    }
  }

  lemma LinkWf(s: State, k: LinkKey, l: Link, core: Core)
    requires Wf(s) && k in s.links
    requires l.dialer == s.links[k].dialer && l.acceptor == s.links[k].acceptor && l.id == s.links[k].id
    ensures Wf(s.(brokers := s.brokers[l.acceptor := core], links := s.links[k := l]))
  {
    var s' := s.(brokers := s.brokers[l.acceptor := core], links := s.links[k := l]);
    forall a, c | LinkIdAt(s', a, c)
      ensures LinkIdAt(s, a, c)
    {
      var j :| j in s'.links && s'.links[j].acceptor == a && s'.links[j].id == c;
      assert j in s.links && s.links[j].acceptor == a && s.links[j].id == c;
    }
  }

  /** The two together: the acceptor's state moves for link k's client, and the acceptor's own links
      are told what that changed. */
  lemma AcceptKeeps(s: State, k: LinkKey, l: Link, core: Core, out: seq<Replica.Ctl>)
    requires LinksOk(s) && k in s.links && Sized(core.interest)
    requires l.dialer == s.links[k].dialer && l.acceptor == s.links[k].acceptor && l.id == s.links[k].id
    requires forall d :: d != l.id ==> ViewOf(core.rel, d) == ViewOf(s.brokers[l.acceptor].rel, d)
    requires forall d :: d != l.id ==> (d in core.clients <==> d in s.brokers[l.acceptor].clients)
    requires Replica.OnTrack(Replica.Session(l.id in core.clients, ViewOf(core.rel, l.id), l.chan, l.resets),
                             LinkGoal(s.brokers[l.dialer].interest), l.stale, LINK_BOUND)
    requires Replica.Carries(LinkGoal(s.brokers[l.acceptor].interest), LinkGoal(core.interest), out, LINK_BOUND)
    ensures LinksOk(Spread(WithLink(s, k, l), l.acceptor, core, out))
  {
    hide Replica.OnTrack, LinkGoal, ViewOf, Replica.Carries, Sized;
    var mid := core.(interest := s.brokers[l.acceptor].interest);
    LinkKeeps(s, k, l, mid);
    var s1 := s.(brokers := s.brokers[l.acceptor := mid], links := s.links[k := l]);
    SpreadKeeps(s1, l.acceptor, core, out);
    assert Spread(s1, l.acceptor, core, out) == Spread(WithLink(s, k, l), l.acceptor, core, out);
  }

  lemma ReceiveKeeps(s: State, k: LinkKey)
    requires Inv(s) && Enabled(s, Receive(k))
    ensures LinksOk(Step(s, Receive(k)))
  {
    hide ViewOf, LinkGoal, Replica.OnTrack, Replica.Carries, Ok, Handle, Replica.Accept, Spread, Sized;
    var l := s.links[k];
    var a := s.brokers[l.acceptor];
    var f := Handle(a, l.id, l.chan[0]);
    var l' := l.(chan := l.chan[1..], resets := l.resets + if f.reset then 1 else 0);
    HandleOk(a, l.id, l.chan[0]);
    OkSized(f.core);
    HandleView(a, l.id, l.chan[0]);
    assert LinkOk(s, k);
    Replica.OnTrackReceive(SessionOf(s, k), LinkGoal(s.brokers[l.dialer].interest), l.stale, LINK_BOUND);
    assert Replica.Receive(SessionOf(s, k)) == Replica.Session(true, ViewOf(f.core.rel, l.id), l'.chan, l'.resets);
    AcceptKeeps(s, k, l', f.core, f.out);
  }

  lemma PokeKeeps(s: State, k: LinkKey)
    requires Inv(s) && Enabled(s, Poke(k))
    ensures LinksOk(Step(s, Poke(k)))
  {
    hide ViewOf, LinkGoal, Replica.OnTrack, Replica.Carries, Ok, Spread, Sized;
    var l := s.links[k];
    var a := s.brokers[l.acceptor];
    var f := Touch(a, l.id, false);
    assert LinkOk(s, k);
    OkSized(a);
    Replica.OnTrackPoke(SessionOf(s, k), LinkGoal(s.brokers[l.dialer].interest), l.stale, LINK_BOUND);
    NothingCarries(LinkGoal(a.interest));
    AcceptKeeps(s, k, l.(resets := l.resets + if f.reset then 1 else 0), f.core, f.out);
  }

  lemma ForgetKeeps(s: State, k: LinkKey, lost: nat, kept: nat)
    requires Inv(s) && Enabled(s, Forget(k, lost, kept))
    ensures LinksOk(Step(s, Forget(k, lost, kept)))
  {
    hide ViewOf, LinkGoal, Replica.OnTrack, Replica.Carries, Ok, Remove, Spread, Sized;
    var l := s.links[k];
    var a := s.brokers[l.acceptor];
    var f := Remove(a, l.id);
    RemoveOk(a, l.id);
    OkSized(f.core);
    RemoveView(a, l.id);
    assert LinkOk(s, k);
    Replica.OnTrackForget(SessionOf(s, k), LinkGoal(s.brokers[l.dialer].interest), l.stale, LINK_BOUND, lost, kept);
    AcceptKeeps(s, k, l.(chan := l.chan[lost..], resets := kept, stale := {}), f.core, f.out);
  }

  lemma ClientKeeps(s: State, at: BrokerId, c: ClientId, m: Broker.Inbound)
    requires Inv(s) && Enabled(s, Client(at, c, m))
    ensures LinksOk(Step(s, Client(at, c, m)))
  {
    hide ViewOf, LinkOk, LinkGoal, Replica.Carries, Ok, Broker.ClientEffect, LinkIdAt, Sized;
    var f := Broker.ClientEffect(s.brokers[at], m, c);
    ClientEffectOk(s.brokers[at], m, c);
    OkSized(f.core);
    OutsiderKeeps(s, at, c, f);
  }

  lemma TrailKeeps(s: State, at: BrokerId, id: ClientId)
    requires Inv(s) && Enabled(s, Trail(at, id))
    ensures LinksOk(Step(s, Trail(at, id)))
  {
    hide ViewOf, LinkOk, LinkGoal, Replica.Carries, Ok, Handle, LinkIdAt, Sized, Spread;
    var d := s.departed[(at, id)];
    var f := Handle(s.brokers[at], id, d.chan[0]);
    HandleOk(s.brokers[at], id, d.chan[0]);
    HandleView(s.brokers[at], id, d.chan[0]);
    OkSized(f.core);
    OutsiderKeeps(s, at, id, f);
    SpreadDeparted(s, at, f.core, f.out);
    DepartedKeeps(Spread(s, at, f.core, f.out), s.departed[(at, id) := d.(chan := d.chan[1..])]);
  }

  /** A DISCONNECT and a timeout alike. */
  lemma GoneKeeps(s: State, at: BrokerId, id: ClientId, departed: map<(BrokerId, ClientId), Departed>)
    requires Inv(s) && (at, id) in s.departed && departed.Keys <= s.departed.Keys
    ensures var f := Remove(s.brokers[at], id); LinksOk(Spread(s, at, f.core, f.out).(departed := departed))
  {
    hide ViewOf, LinkOk, LinkGoal, Replica.Carries, Ok, Remove, LinkIdAt, Sized, Spread;
    var f := Remove(s.brokers[at], id);
    RemoveOk(s.brokers[at], id);
    RemoveView(s.brokers[at], id);
    OkSized(f.core);
    OutsiderKeeps(s, at, id, f);
    SpreadDeparted(s, at, f.core, f.out);
    DepartedKeeps(Spread(s, at, f.core, f.out), departed);
  }

  lemma SpreadDeparted(s: State, b: BrokerId, core: Core, out: seq<Replica.Ctl>)
    ensures Spread(s, b, core, out).departed == s.departed
  {
  }

  /** Whatever a client sends, the broker's state stays right, its links are told what they need, and
      no other client's subscriptions move. */
  lemma ClientEffectOk(b: Core, m: Broker.Inbound, c: ClientId)
    requires Ok(b)
    ensures var f := Broker.ClientEffect(b, m, c);
            && Ok(f.core)
            && (b.interest.saturated ==> f.core.interest.saturated)
            && Replica.Carries(LinkGoal(b.interest), LinkGoal(f.core.interest), f.out, LINK_BOUND)
            && (forall d :: d != c ==> ViewOf(f.core.rel, d) == ViewOf(b.rel, d))
            && (forall d :: d != c ==> (d in f.core.clients <==> d in b.clients))
  {
    match m
    case Disconnect => RemoveOk(b, c); RemoveView(b, c);
    case Control(ctl) => HandleOk(b, c, ctl); HandleView(b, c, ctl);
    case Heartbeat => NothingCarries(LinkGoal(b.interest));
    case Publish(_) => NothingCarries(LinkGoal(b.interest));
  }

  lemma AnswerKeeps(s: State, k: LinkKey)
    requires Inv(s) && Enabled(s, Answer(k))
    ensures LinksOk(Step(s, Answer(k)))
  {
    hide ViewOf, LinkGoal, Replica.OnTrack, Replica.Restores, Snapshot, Sized;
    var l := s.links[k];
    var a, i := s.brokers[l.acceptor], s.brokers[l.dialer].interest;
    assert LinkOk(s, k) && Ok(s.brokers[l.dialer]);
    SnapshotRestores(i);
    Replica.OnTrackAnswer(SessionOf(s, k), LinkGoal(i), l.stale, Snapshot(i), LINK_BOUND);
    LinkKeeps(s, k, l.(resets := l.resets - 1, chan := l.chan + Snapshot(i)), a);
    assert s.brokers[l.acceptor := a] == s.brokers;
  }

  lemma DialKeeps(s: State, k: LinkKey, dialer: BrokerId, acceptor: BrokerId, id: ClientId)
    requires Inv(s) && Enabled(s, Dial(k, dialer, acceptor, id))
    ensures LinksOk(Step(s, Dial(k, dialer, acceptor, id)))
  {
    hide LinkGoal, Replica.OnTrack, Snapshot, Sized, Ok, ViewOf, Stale;
    var s' := Step(s, Dial(k, dialer, acceptor, id));
    DialedLink(s.brokers[dialer], s.brokers[acceptor], id);
    DialWf(s, k, dialer, acceptor, id);
    forall j | j in s'.links
      ensures LinkOk(s', j)
    {
      if j != k {
        assert LinkOk(s, j);
        assert SessionOf(s', j) == SessionOf(s, j);
      }
    }
  }

  lemma DialWf(s: State, k: LinkKey, dialer: BrokerId, acceptor: BrokerId, id: ClientId)
    requires Wf(s) && Enabled(s, Dial(k, dialer, acceptor, id))
    ensures Wf(Step(s, Dial(k, dialer, acceptor, id)))
  {
    hide Snapshot, Stale;
    var s' := Step(s, Dial(k, dialer, acceptor, id));
    forall j | j in s.links && s.links[j].acceptor == acceptor ensures s.links[j].id != id {
      assert !LinkIdAt(s, acceptor, id);
    }
    forall d | d in s'.departed
      ensures d.0 in s'.brokers && !LinkIdAt(s', d.0, d.1)
    {
      assert !LinkIdAt(s, d.0, d.1);
    }
  }

  /** A new link starts on its goal but for what its identity already holds. */
  lemma DialedLink(dialer: Core, acceptor: Core, id: ClientId)
    requires Ok(dialer) && Ok(acceptor)
    ensures var i := dialer.interest;
            Replica.OnTrack(Replica.Session(id in acceptor.clients, ViewOf(acceptor.rel, id), [Replica.Connect] + Snapshot(i), 0),
                            LinkGoal(i), Stale(acceptor, id, i), LINK_BOUND)
  {
    var i := dialer.interest;
    OkSized(dialer);
    MayFits(i);
    SnapshotRestores(i);
    if id !in acceptor.clients { StrangerHoldsNothing(acceptor, id); }
    hide Replica.OnTrack, Replica.Restores, Snapshot, Sized, LinkGoal, Ok, ViewOf, Replica.Sound;
    Replica.OnTrackTakeover(id in acceptor.clients, ViewOf(acceptor.rel, id), LinkGoal(i), Stale(acceptor, id, i), Snapshot(i), LINK_BOUND);
  }

  lemma HangUpKeeps(s: State, k: LinkKey)
    requires LinksOk(s) && k in s.links
    ensures LinksOk(Step(s, HangUp(k)))
  {
    hide Replica.OnTrack, LinkGoal, ViewOf;
    var s' := Step(s, HangUp(k));
    HangUpWf(s, k);
    forall j | j in s'.links
      ensures LinkOk(s', j)
    {
      assert LinkOk(s, j);
      assert SessionOf(s', j) == SessionOf(s, j);
    }
  }

  lemma HangUpWf(s: State, k: LinkKey)
    requires Wf(s) && k in s.links
    ensures Wf(Step(s, HangUp(k)))
  {
    var s' := Step(s, HangUp(k));
    var l := s.links[k];
    forall d | d in s'.departed
      ensures d.0 in s'.brokers && !LinkIdAt(s', d.0, d.1)
    {
      if d != (l.acceptor, l.id) { assert !LinkIdAt(s, d.0, d.1); }
    }
  }

  lemma StepKeeps(s: State, e: Event)
    requires Inv(s) && Enabled(s, e)
    ensures Inv(Step(s, e))
    ensures forall b :: b in s.brokers ==>
              b in Step(s, e).brokers && (s.brokers[b].interest.saturated ==> Step(s, e).brokers[b].interest.saturated)
  {
    StepKeepsLinks(s, e);
    hide Ok, LinksOk, Wf;
    assert Wf(s);
    StepMoves(s, e);
    var s' := Step(s, e);
    hide Step;
    forall b | b in s'.brokers
      ensures b in s.brokers && Ok(s'.brokers[b]) && (s.brokers[b].interest.saturated ==> s'.brokers[b].interest.saturated)
    {
      MoveOk(s.brokers[b], s'.brokers[b]);
    }
  }

  lemma StepKeepsLinks(s: State, e: Event)
    requires Inv(s) && Enabled(s, e)
    ensures LinksOk(Step(s, e))
  {
    hide LinkOk, Spread, Handle, Remove, Snapshot, Stale;
    match e
    case Client(at, c, m) => ClientKeeps(s, at, c, m);
    case Receive(k) => ReceiveKeeps(s, k);
    case Poke(k) => PokeKeeps(s, k);
    case Forget(k, lost, kept) => ForgetKeeps(s, k, lost, kept);
    case Answer(k) => AnswerKeeps(s, k);
    case Dial(k, dialer, acceptor, id) => DialKeeps(s, k, dialer, acceptor, id);
    case HangUp(k) => HangUpKeeps(s, k);
    case Trail(at, id) => TrailKeeps(s, at, id);
    case Farewell(at, id) => GoneKeeps(s, at, id, s.departed - {(at, id)});
    case CutOff(at, id) => DepartedKeeps(s, s.departed[(at, id) := SILENT]);
    case TimeOut(at, id) =>
      GoneKeeps(s, at, id, if s.departed[(at, id)] == SILENT then s.departed - {(at, id)} else s.departed);
  }

  /** What one event can do to one broker: nothing, a client's message, a control message from a peer's
      link, a sign of life, or a removal. */
  ghost predicate Moves(b: Core, b': Core) {
    || b' == b
    || (exists m, c :: b' == Broker.ClientEffect(b, m, c).core)
    || (exists c, m :: b' == Handle(b, c, m).core)
    || (exists c :: b' == Touch(b, c, false).core)
    || (exists c :: b' == Remove(b, c).core)
  }

  /** One broker's core replaced. */
  lemma SpreadMoves(s: State, at: BrokerId, core: Core, out: seq<Replica.Ctl>)
    requires at in s.brokers && Moves(s.brokers[at], core)
    ensures var brokers := Spread(s, at, core, out).brokers;
            brokers.Keys == s.brokers.Keys && forall b :: b in s.brokers ==> Moves(s.brokers[b], brokers[b])
  {
    hide Broker.ClientEffect, Handle, Touch, Remove;
  }

  lemma StepMoves(s: State, e: Event)
    requires Wf(s) && Enabled(s, e)
    ensures Step(s, e).brokers.Keys == s.brokers.Keys
    ensures forall b :: b in s.brokers ==> Moves(s.brokers[b], Step(s, e).brokers[b])
  {
    hide Broker.ClientEffect, Handle, Touch, Remove, Snapshot, Stale, Spread;
    match e
    case Client(at, c, m) =>
      var f := Broker.ClientEffect(s.brokers[at], m, c);
      SpreadMoves(s, at, f.core, f.out);
    case Receive(k) => LinkMoves(s, e);
    case Poke(k) => LinkMoves(s, e);
    case Forget(k, lost, kept) => LinkMoves(s, e);
    case Trail(at, id) =>
      var f := Handle(s.brokers[at], id, s.departed[(at, id)].chan[0]);
      SpreadMoves(s, at, f.core, f.out);
    case Farewell(at, id) => SpreadMoves(s, at, Remove(s.brokers[at], id).core, Remove(s.brokers[at], id).out);
    case TimeOut(at, id) => SpreadMoves(s, at, Remove(s.brokers[at], id).core, Remove(s.brokers[at], id).out);
    case _ =>
  }

  lemma LinkMoves(s: State, e: Event)
    requires Wf(s) && Enabled(s, e) && (e.Receive? || e.Poke? || e.Forget?)
    ensures Step(s, e).brokers.Keys == s.brokers.Keys
    ensures forall b :: b in s.brokers ==> Moves(s.brokers[b], Step(s, e).brokers[b])
  {
    hide Handle, Touch, Remove, Spread;
    var l := s.links[e.key];
    var b := s.brokers[l.acceptor];
    match e
    case Receive(k) =>
      var f := Handle(b, l.id, l.chan[0]);
      SpreadMoves(WithLink(s, k, l.(chan := l.chan[1..], resets := l.resets + if f.reset then 1 else 0)), l.acceptor, f.core, f.out);
    case Poke(k) =>
      var f := Touch(b, l.id, false);
      SpreadMoves(WithLink(s, k, l.(resets := l.resets + if f.reset then 1 else 0)), l.acceptor, f.core, f.out);
    case Forget(k, lost, kept) =>
      var f := Remove(b, l.id);
      SpreadMoves(WithLink(s, k, l.(chan := l.chan[lost..], resets := kept, stale := {})), l.acceptor, f.core, f.out);
  }

  lemma MoveOk(b: Core, b': Core)
    requires Ok(b) && Moves(b, b')
    ensures Ok(b') && (b.interest.saturated ==> b'.interest.saturated)
  {
    hide Ok, Broker.ClientEffect, Handle, Remove, Replica.Carries;
    if m, c :| b' == Broker.ClientEffect(b, m, c).core {
      ClientEffectOk(b, m, c);
    } else if c, m :| b' == Handle(b, c, m).core {
      HandleOk(b, c, m);
    } else if c :| b' == Touch(b, c, false).core {
      TouchOk(b, c);
    } else if c :| b' == Remove(b, c).core {
      RemoveOk(b, c);
    }
  }

  lemma TouchOk(b: Core, c: ClientId)
    requires Ok(b)
    ensures Ok(Touch(b, c, false).core)
  {
  }

  // Whole runs.

  /** Brokers start with no clients, no interest and no links, present or past. */
  predicate Initial(s: State) {
    s.links == map[] && s.departed == map[] && forall b :: b in s.brokers ==> s.brokers[b] == FRESH
  }

  ghost predicate Runs(s: State, es: seq<Event>, s': State)
    decreases |es|
  {
    if es == [] then s == s'
    else Wf(s) && Enabled(s, es[0]) && Runs(Step(s, es[0]), es[1..], s')
  }

  lemma {:induction false} RunKeeps(s: State, es: seq<Event>, s': State)
    requires Inv(s) && Runs(s, es, s')
    ensures Inv(s')
    ensures forall b :: b in s.brokers ==>
              b in s'.brokers && (s.brokers[b].interest.saturated ==> s'.brokers[b].interest.saturated)
    decreases |es|
  {
    hide Ok, LinksOk, Step, Enabled;
    if es == [] {
    } else {
      StepKeeps(s, es[0]);
      RunKeeps(Step(s, es[0]), es[1..], s');
    }
  }

  lemma {:induction false} RunsSnoc(s: State, es: seq<Event>, s': State, e: Event)
    requires Runs(s, es, s') && Wf(s') && Enabled(s', e)
    ensures Runs(s, es + [e], Step(s', e))
    decreases |es|
  {
    hide Step, Enabled, Wf;
    if es == [] {
    } else {
      assert (es + [e])[1..] == es[1..] + [e];
      RunsSnoc(Step(s, es[0]), es[1..], s', e);
    }
  }

  lemma {:induction false} RunsConcat(s: State, es: seq<Event>, s1: State, es': seq<Event>, s2: State)
    requires Runs(s, es, s1) && Runs(s1, es', s2)
    ensures Runs(s, es + es', s2)
    decreases |es|
  {
    hide Step, Enabled, Wf;
    if es == [] {
      assert es + es' == es';
    } else {
      assert (es + es')[1..] == es[1..] + es';
      RunsConcat(Step(s, es[0]), es[1..], s1, es', s2);
    }
  }

  ghost predicate Reachable(s: State) {
    exists start, es :: Initial(start) && Runs(start, es, s)
  }

  lemma ReachableOn(s: State, es: seq<Event>, s': State)
    requires Reachable(s) && Runs(s, es, s')
    ensures Reachable(s')
  {
    var start, before :| Initial(start) && Runs(start, before, s);
    RunsConcat(start, before, s, es, s');
  }

  lemma InitialInv(s: State)
    requires Initial(s)
    ensures Inv(s)
  {
    FreshOk();
  }

  lemma ReachableInv(s: State)
    requires Reachable(s)
    ensures Inv(s)
  {
    var start, es :| Initial(start) && Runs(start, es, s);
    InitialInv(start);
    RunKeeps(start, es, s);
  }

  /** There is room for all a dialer may want beside what its link was dialed onto. */
  predicate Roomy(stale: set<Topic>) { |stale| <= MAX_SUBSCRIPTIONS - LINK_BOUND }

  /** Convergence. In every reachable mesh, once what is in flight on a link has arrived, its remote
      holds no topic outside the dialer's interest, nor "*" unless the dialer takes everything, save
      what was stale when the link was dialed. And unless the remote has forgotten the link or owes
      it a RESET round, or is too full of stale topics, it then holds "*" when the dialer takes
      everything, and its whole interest otherwise. */
  lemma LinkConverges(s: State, k: LinkKey)
    requires Reachable(s) && k in s.links
    ensures Wf(s)
    ensures var l := s.links[k];
            var i, held := s.brokers[l.dialer].interest, Replica.Pending(SessionOf(s, k));
            && (forall t :: t in held ==> t in l.stale || if t == WILDCARD then Wide(i) else t in i.topics)
            && (Replica.Steady(SessionOf(s, k)) && Roomy(l.stale) ==>
                  if Wide(i) then HoldsAny(held, WILDCARD) else forall t :: t in i.topics ==> HoldsAny(held, t))
            && (Replica.Steady(SessionOf(s, k)) && l.stale == {} && !Wide(i) ==> held == map t | t in i.topics :: ANY)
  {
    hide Replica.OnTrack, Replica.Pending, Replica.Steady, LinkGoal, Ok, Reachable, ViewOf, Sized;
    ReachableInv(s);
    assert LinkOk(s, k);
    OkSized(s.brokers[s.links[k].dialer]);
    OnGoal(SessionOf(s, k), s.brokers[s.links[k].dialer].interest, s.links[k].stale);
  }

  /** Dialing puts a link on its goal exactly when the session it meets holds nothing outside what the
      dialer wants; a session the acceptor does not know holds nothing. */
  lemma DialOnGoalIff(s: State, k: LinkKey, dialer: BrokerId, acceptor: BrokerId, id: ClientId)
    requires Reachable(s) && Wf(s) && Enabled(s, Dial(k, dialer, acceptor, id))
    ensures var s', i := Step(s, Dial(k, dialer, acceptor, id)), s.brokers[dialer].interest;
            && (Replica.Inv(SessionOf(s', k), LinkGoal(i), LINK_BOUND) <==>
                ViewOf(s.brokers[acceptor].rel, id).Keys <= LinkGoal(i).may)
            && (id !in s.brokers[acceptor].clients ==> ViewOf(s.brokers[acceptor].rel, id) == map[])
  {
    hide Reachable, Ok, LinkGoal, ViewOf, Snapshot, Replica.Inv, Stale;
    ReachableInv(s);
    TakeoverIff(s.brokers[dialer], s.brokers[acceptor], id);
  }

  lemma TakeoverIff(d: Core, a: Core, id: ClientId)
    requires Ok(d) && Ok(a)
    ensures var x := Replica.Session(id in a.clients, ViewOf(a.rel, id), [Replica.Connect] + Snapshot(d.interest), 0);
            Replica.Inv(x, LinkGoal(d.interest), LINK_BOUND) <==> ViewOf(a.rel, id).Keys <= LinkGoal(d.interest).may
    ensures id !in a.clients ==> ViewOf(a.rel, id) == map[]
  {
    if id !in a.clients { StrangerHoldsNothing(a, id); }
    DialedLink(d, a, id);
    hide Ok, LinkGoal, ViewOf, Snapshot, Replica.OnTrack, Replica.Inv, Replica.Apply;
    var x := Replica.Session(id in a.clients, ViewOf(a.rel, id), [Replica.Connect] + Snapshot(d.interest), 0);
    if Stale(a, id, d.interest) == {} {
      OnTrackClean(x, LinkGoal(d.interest));
    } else if Replica.Inv(x, LinkGoal(d.interest), LINK_BOUND) {
      SnapshotOnlyAdds(x.view, d.interest);
      Replica.InvSafe(x, LinkGoal(d.interest), LINK_BOUND);
    }
  }

  lemma OnTrackClean(x: Replica.Session, g: Replica.Goal)
    requires Replica.OnTrack(x, g, {}, LINK_BOUND)
    ensures Replica.Inv(x, g, LINK_BOUND)
  {
    assert g.may + {} == g.may;
    assert Replica.Wider(g, {}) == g;
  }

  lemma SnapshotOnlyAdds(v: Replica.View, i: Interest)
    ensures v.Keys <= Replica.Apply(v, [Replica.Connect] + Snapshot(i)).Keys
  {
    OnlyAdds(v, [Replica.Connect] + Snapshot(i));
  }

  lemma {:induction false} OnlyAdds(v: Replica.View, ms: seq<Replica.Ctl>)
    requires forall j :: 0 <= j < |ms| ==> !ms[j].Unsub?
    ensures v.Keys <= Replica.Apply(v, ms).Keys
    decreases |ms|
  {
    if ms == [] {
    } else {
      OnlyAdds(Replica.Apply1(v, ms[0]), ms[1..]);
    }
  }

  predicate WantsFromMesh(rel: Relation, c: ClientId, t: Topic) {
    (c, t) in rel && ScopeAccepts(rel[(c, t)], false)
  }

  /** In every reachable mesh each broker's wildcard flag says whether some subscriber of "*" takes mesh
      traffic; and until it saturates, its interest is exactly the propagatable topics with a
      subscriber that does, at most MAX_INTEREST of them. */
  lemma InterestMirrorsRegistry(s: State, b: BrokerId)
    requires Reachable(s) && b in s.brokers
    ensures var core := s.brokers[b];
            && (core.interest.wildcard <==> exists c :: WantsFromMesh(core.rel, c, WILDCARD))
            && (!core.interest.saturated ==>
                  && |core.interest.topics| <= MAX_INTEREST
                  && forall t :: t in core.interest.topics <==>
                       Propagatable(t) && exists c :: WantsFromMesh(core.rel, c, t))
  {
    ReachableInv(s);
    var core := s.brokers[b];
    assert Tracks(core.interest, Wanted(core.rel));
    forall t
      ensures t in Wanted(core.rel) <==> exists c :: WantsFromMesh(core.rel, c, t)
    {
      if t in Wanted(core.rel) {
        var k :| k in core.rel && core.rel[k].mesh && k.1 == t;
        assert WantsFromMesh(core.rel, k.0, t);
      }
    }
  }

  /** In every reachable mesh a subscription alone makes a recipient: no subscriber is unknown. */
  lemma SubscribersAreRecipients(s: State, b: BrokerId, t: Topic, sender: ClientId, fromPeer: bool, c: ClientId)
    requires Reachable(s) && b in s.brokers
    ensures var rel := s.brokers[b].rel;
            Broker.Recipient(s.brokers[b], t, sender, fromPeer, c) <==>
            (fromPeer || c != sender) && (Broker.Accepts(rel, c, t, !fromPeer) || Broker.Accepts(rel, c, WILDCARD, !fromPeer))
  {
    ReachableInv(s);
  }

  /** A remote never refuses a link's subscription, unless the link was dialed onto a session too full
      for it: the next message, if it is one, names a topic the acceptor takes and finds a free
      place. */
  lemma LinkNeverRefused(s: State, k: LinkKey)
    requires Reachable(s) && k in s.links && Roomy(s.links[k].stale)
    ensures Wf(s)
    ensures var l := s.links[k]; var rel := s.brokers[l.acceptor].rel;
            && |TopicsOf(rel, l.id)| <= MAX_INTEREST + 2 + |l.stale|
            && (l.chan != [] && l.chan[0].Sub? ==>
                  LegalTopic(l.chan[0].topic) && CanSubscribe(rel, l.id, l.chan[0].topic))
  {
    hide Replica.OnTrack, LinkGoal, Ok, Reachable, ViewOf, TopicsOf, Replica.Fits;
    ReachableInv(s);
    assert LinkOk(s, k);
    var l := s.links[k];
    NoRefusal(SessionOf(s, k), LinkGoal(s.brokers[l.dialer].interest), l.stale);
    ViewTopics(s.brokers[l.acceptor].rel, l.id);
  }

  lemma NoRefusal(x: Replica.Session, g: Replica.Goal, stale: set<Topic>)
    requires Replica.OnTrack(x, g, stale, LINK_BOUND) && Roomy(stale)
    ensures |x.view| <= LINK_BOUND + |stale|
    ensures x.chan != [] && x.chan[0].Sub? ==>
              LegalTopic(x.chan[0].topic) && (x.chan[0].topic in x.view || |x.view| < MAX_SUBSCRIPTIONS)
  {
    if x.chan != [] && x.chan[0].Sub? && x.chan[0].topic !in x.view {
      var v' := Replica.Apply1(x.view, x.chan[0]);
      assert Replica.Fits(v', x.chan[1..], LINK_BOUND + |stale|);
      assert v'.Keys == x.view.Keys + {x.chan[0].topic};
      assert |v'| == |v'.Keys| && |x.view| == |x.view.Keys|;
    }
  }

  lemma OnGoal(x: Replica.Session, i: Interest, stale: set<Topic>)
    requires Replica.OnTrack(x, LinkGoal(i), stale, LINK_BOUND) && Sized(i)
    ensures var held := Replica.Pending(x);
            && (forall t :: t in held ==> t in stale || if t == WILDCARD then Wide(i) else t in i.topics)
            && (Replica.Steady(x) && Roomy(stale) ==>
                  if Wide(i) then HoldsAny(held, WILDCARD) else forall t :: t in i.topics ==> HoldsAny(held, t))
            && (Replica.Steady(x) && stale == {} && !Wide(i) ==> held == map t | t in i.topics :: ANY)
  {
    hide Replica.Apply, Replica.Fits, Replica.Steady;
    var held := Replica.Pending(x);
    var g := LinkGoal(i);
    assert Replica.Safe(Replica.Wider(g, stale), held);
    if Replica.Steady(x) && Roomy(stale) {
      assert Replica.Exact(Replica.Wider(g, stale), held);
      assert forall t :: t in g.must ==> t in held && held[t] == g.must[t];
      if stale == {} && !Wide(i) {
        assert held.Keys == i.topics;
      }
    }
  }
}
