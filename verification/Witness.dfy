/** Runs between two brokers that show what the mesh does not promise: a departed link's session, or
    one dialed again, keeps topics nobody wants; and on a dial cycle an interest can outlive its
    reasons, or news chase itself for ever (server/broker.cpp). */
module Witness {
  import opened Keys
  import opened Registry
  import opened Interest
  import opened BrokerCore
  import opened Mesh
  import opened Aggregation
  import opened Cycle
  import Replica
  import Broker
  import Text

  /** Brokers x and y; link p from x to y under identity i, link q from y to x under identity j; a
      client c of x; a topic t. */
  datatype Names = Names(x: BrokerId, y: BrokerId, p: LinkKey, q: LinkKey, i: ClientId, j: ClientId, c: ClientId, t: Topic)

  predicate Apart(n: Names) {
    n.x != n.y && n.p != n.q && n.c != n.i && n.c != n.j && LegalTopic(n.t) && Propagatable(n.t)
  }

  const HELLO: seq<Replica.Ctl> := [Replica.Connect]

  function Knows(ids: set<ClientId>): Core { Core(ids, map[], NO_INTEREST) }

  function Keen(ids: set<ClientId>, c: ClientId, t: Topic): Core {
    Core(ids, map[(c, t) := ANY], Interest({t}, false, false))
  }

  lemma KnowsOk(ids: set<ClientId>)
    ensures Ok(Knows(ids))
  {
    assert Wanted(Knows(ids).rel) == {};
  }

  lemma Greeting()
    ensures [Replica.Connect] + Snapshot(NO_INTEREST) == HELLO && HELLO[1..] == []
  {
    assert Text.Sorted({}) == [];
  }

  /** The first subscriber. */
  lemma Asks(ids: set<ClientId>, c: ClientId, t: Topic)
    requires LegalTopic(t) && Propagatable(t)
    ensures Handle(Knows(ids), c, Replica.Sub(t, ANY)) == Effect(Keen(ids + {c}, c, t), [Replica.Sub(t, ANY)], c !in ids)
  {
    KnowsOk(ids);
    assert TopicsOf(Knows(ids).rel, c) == {};
    Catching(Knows(ids), c, t);
    assert {} + {t} == {t};
  }

  /** And its leaving. */
  lemma GivesUp(ids: set<ClientId>, c: ClientId, t: Topic)
    requires c in ids && LegalTopic(t) && Propagatable(t)
    ensures Handle(Keen(ids, c, t), c, Replica.Unsub(t)) == Effect(Knows(ids), [Replica.Unsub(t)], false)
  {
    var rel: Relation := map[(c, t) := ANY];
    assert (c, t) in rel && t in Wanted(rel);
    assert rel - {(c, t)} == map[] && Wanted(map[]) == {};
    assert {t} - {t} == {};
    assert ids + {c} == ids;
  }

  lemma Greets(ids: set<ClientId>, c: ClientId)
    ensures Handle(Knows(ids), c, Replica.Connect) == Effect(Knows(ids + {c}), [], false)
  {
  }

  lemma Next(s: State, e: Event, s': State)
    requires Reachable(s) && Wf(s) && Enabled(s, e) && Step(s, e) == s'
    ensures Reachable(s') && Wf(s')
  {
    hide Step, Enabled, Wf, Initial, Inv;
    assert Runs(s', [], s');
    assert Runs(s, [e], s') by { assert [e][1..] == []; }
    ReachableOn(s, [e], s');
    ReachableInv(s');
    InvWf(s');
  }

  // One link.

  /** The two brokers, link p with `chan` in flight and `stale`, and nothing else. */
  function One(n: Names, a: Core, b: Core, chan: seq<Replica.Ctl>, stale: set<Topic>): State {
    State(map[n.x := a, n.y := b], map[n.p := Link(n.x, n.y, n.i, chan, 0, stale)], map[])
  }

  /** The same after p hung up. */
  function Gone(n: Names, a: Core, b: Core, d: Departed): State {
    State(map[n.x := a, n.y := b], map[], map[(n.y, n.i) := d])
  }

  lemma OneWf(n: Names, a: Core, b: Core, chan: seq<Replica.Ctl>, stale: set<Topic>)
    ensures Wf(One(n, a, b, chan, stale))
    ensures forall d, e :: LinkIdAt(One(n, a, b, chan, stale), d, e) <==> (d, e) == (n.y, n.i)
  {
    var s := One(n, a, b, chan, stale);
    assert n.p in s.links;
  }

  lemma OneClient(n: Names, a: Core, b: Core, chan: seq<Replica.Ctl>, stale: set<Topic>, m: Replica.Ctl)
    requires Apart(n)
    ensures var s, f := One(n, a, b, chan, stale), Handle(a, n.c, m);
            && Wf(s) && Enabled(s, Client(n.x, n.c, Broker.Control(m)))
            && Step(s, Client(n.x, n.c, Broker.Control(m))) == One(n, f.core, b, chan + f.out, stale)
  {
    hide Handle;
    OneWf(n, a, b, chan, stale);
    hide LinkIdAt;
    var f := Handle(a, n.c, m);
    assert Spread(One(n, a, b, chan, stale), n.x, f.core, f.out) == One(n, f.core, b, chan + f.out, stale);
  }

  lemma OneReceive(n: Names, a: Core, b: Core, chan: seq<Replica.Ctl>, stale: set<Topic>)
    requires Apart(n) && chan != [] && !Handle(b, n.i, chan[0]).reset
    ensures var s := One(n, a, b, chan, stale);
            && Wf(s) && Enabled(s, Receive(n.p))
            && Step(s, Receive(n.p)) == One(n, a, Handle(b, n.i, chan[0]).core, chan[1..], stale)
  {
    hide Handle;
    OneWf(n, a, b, chan, stale);
    var f := Handle(b, n.i, chan[0]);
    var s1 := One(n, a, b, chan[1..], stale);
    assert WithLink(One(n, a, b, chan, stale), n.p, s1.links[n.p]) == s1;
    assert Spread(s1, n.y, f.core, f.out) == One(n, a, f.core, chan[1..], stale);
  }

  function Apart0(n: Names): State { State(map[n.x := FRESH, n.y := FRESH], map[], map[]) }

  lemma AtFirst(s: State)
    requires Initial(s)
    ensures Reachable(s)
  {
    assert Runs(s, [], s);
  }

  lemma Linked1(n: Names)
    requires Apart(n)
    ensures Reachable(One(n, FRESH, Knows({n.i}), [], {}))
  {
    hide Reachable, Handle;
    var s0 := Apart0(n);
    AtFirst(s0);
    Greeting();
    FirstDial(n);
    Next(s0, Dial(n.p, n.x, n.y, n.i), One(n, FRESH, FRESH, HELLO, {}));
    Greets({}, n.i);
    assert Knows({}) == FRESH && {} + {n.i} == {n.i};
    OneReceive(n, FRESH, FRESH, HELLO, {});
    Next(One(n, FRESH, FRESH, HELLO, {}), Receive(n.p), One(n, FRESH, Knows({n.i}), [], {}));
  }

  lemma FirstDial(n: Names)
    requires Apart(n)
    ensures var s := Apart0(n);
            && Wf(s) && Enabled(s, Dial(n.p, n.x, n.y, n.i))
            && Step(s, Dial(n.p, n.x, n.y, n.i)) == One(n, FRESH, FRESH, HELLO, {})
  {
    hide Step, Enabled;
    DialsFresh(Apart0(n), n.p, n.x, n.y, n.i);
  }

  lemma Subscribed1(n: Names)
    requires Apart(n)
    ensures Reachable(One(n, Keen({n.c}, n.c, n.t), Keen({n.i}, n.i, n.t), [], {}))
  {
    hide Reachable, Handle;
    Linked1(n);
    Asks({}, n.c, n.t);
    assert Knows({}) == FRESH && {} + {n.c} == {n.c};
    var chan := [Replica.Sub(n.t, ANY)];
    assert [] + chan == chan && chan[1..] == [];
    OneClient(n, FRESH, Knows({n.i}), [], {}, chan[0]);
    Next(One(n, FRESH, Knows({n.i}), [], {}), Client(n.x, n.c, Broker.Control(chan[0])),
         One(n, Keen({n.c}, n.c, n.t), Knows({n.i}), chan, {}));
    Asks({n.i}, n.i, n.t);
    assert {n.i} + {n.i} == {n.i};
    OneReceive(n, Keen({n.c}, n.c, n.t), Knows({n.i}), chan, {});
    Next(One(n, Keen({n.c}, n.c, n.t), Knows({n.i}), chan, {}), Receive(n.p),
         One(n, Keen({n.c}, n.c, n.t), Keen({n.i}, n.i, n.t), [], {}));
  }

  lemma HangsUp(n: Names, a: Core, b: Core)
    requires Apart(n)
    ensures var s := One(n, a, b, [], {});
            Wf(s) && Enabled(s, HangUp(n.p)) && Step(s, HangUp(n.p)) == Gone(n, a, b, Departed([], true))
  {
    OneWf(n, a, b, [], {});
  }

  lemma GoneClient(n: Names, a: Core, b: Core, d: Departed, m: Replica.Ctl)
    requires Apart(n)
    ensures var s := Gone(n, a, b, d);
            && Wf(s) && Enabled(s, Client(n.x, n.c, Broker.Control(m)))
            && Step(s, Client(n.x, n.c, Broker.Control(m))) == Gone(n, Handle(a, n.c, m).core, b, d)
  {
    hide Handle;
    var f := Handle(a, n.c, m);
    assert Spread(Gone(n, a, b, d), n.x, f.core, f.out) == Gone(n, f.core, b, d);
  }

  /** What a link that hung up leaves: until its DISCONNECT arrives, or the acceptor times it out, a
      topic is wanted that no client has asked for, though no link is left, let alone a cycle. */
  lemma HangUpLeavesInterest(n: Names)
    requires Apart(n)
    ensures var s := Gone(n, Knows({n.c}), Keen({n.i}, n.i, n.t), Departed([], true));
            && Reachable(s) && s.links == map[]
            && n.t in Wanted(s.brokers[n.y].rel)
            && (forall b :: !HasOwnSubscriber(s, b, n.t)) && LeftBehind(s, n.y, n.t)
    ensures var s := Gone(n, Knows({n.c}), Keen({n.i}, n.i, n.t), SILENT);
            Reachable(s) && Settled(s) && LeftBehind(s, n.y, n.t) && forall b :: !HasOwnSubscriber(s, b, n.t)
  {
    hide Reachable, Handle;
    Subscribed1(n);
    var a, b := Keen({n.c}, n.c, n.t), Keen({n.i}, n.i, n.t);
    HangsUp(n, a, b);
    Next(One(n, a, b, [], {}), HangUp(n.p), Gone(n, a, b, Departed([], true)));
    GivesUp({n.c}, n.c, n.t);
    GoneClient(n, a, b, Departed([], true), Replica.Unsub(n.t));
    var s := Gone(n, Knows({n.c}), b, Departed([], true));
    Next(Gone(n, a, b, Departed([], true)), Client(n.x, n.c, Broker.Control(Replica.Unsub(n.t))), s);
    var s' := Gone(n, Knows({n.c}), b, SILENT);
    assert s.departed[(n.y, n.i) := SILENT] == s'.departed;
    Next(s, CutOff(n.y, n.i), s');
    LeftAtY(n, Departed([], true));
    LeftAtY(n, SILENT);
  }

  lemma LeftAtY(n: Names, d: Departed)
    requires Apart(n)
    ensures var s := Gone(n, Knows({n.c}), Keen({n.i}, n.i, n.t), d);
            && n.t in Wanted(s.brokers[n.y].rel) && LeftBehind(s, n.y, n.t)
            && forall b :: !HasOwnSubscriber(s, b, n.t)
  {
    var s := Gone(n, Knows({n.c}), Keen({n.i}, n.i, n.t), d);
    assert (n.i, n.t) in s.brokers[n.y].rel;
    assert Holder(s, n.y, n.i, n.t) && (n.y, n.i) in s.departed;
    forall b, c | Holder(s, b, c, n.t)
      ensures (b, c) in s.departed
    {
    }
  }

  /** And what dialing again onto it does: the link is up, nothing is in flight, no RESET is owed, and
      the acceptor goes on sending a topic the dialer does not want. */
  lemma RedialKeepsStaleTopic(n: Names)
    requires Apart(n)
    ensures var s := One(n, Knows({n.c}), Keen({n.i}, n.i, n.t), [], {n.t});
            && Reachable(s) && Settled(s) && Replica.Steady(SessionOf(s, n.p))
            && Subscribed(s, n.p, n.t) && n.t !in Wanted(s.brokers[n.x].rel) && n.t !in s.brokers[n.x].interest.topics
  {
    hide Reachable, Handle;
    HangUpLeavesInterest(n);
    var a, b := Knows({n.c}), Keen({n.i}, n.i, n.t);
    Greeting();
    RedialStep(n, a, b);
    Next(Gone(n, a, b, SILENT), Dial(n.p, n.x, n.y, n.i), One(n, a, b, HELLO, {n.t}));
    GreetsAgain(n, b);
    OneReceive(n, a, b, HELLO, {n.t});
    Next(One(n, a, b, HELLO, {n.t}), Receive(n.p), One(n, a, b, [], {n.t}));
    StaleView(n);
  }

  lemma GreetsAgain(n: Names, b: Core)
    requires n.i in b.clients
    ensures Handle(b, n.i, Replica.Connect) == Effect(b, [], false)
  {
    assert b.clients + {n.i} == b.clients;
  }

  lemma StaleView(n: Names)
    requires Apart(n)
    ensures var s := One(n, Knows({n.c}), Keen({n.i}, n.i, n.t), [], {n.t});
            && Settled(s) && Replica.Steady(SessionOf(s, n.p))
            && Subscribed(s, n.p, n.t) && n.t !in Wanted(s.brokers[n.x].rel) && n.t !in s.brokers[n.x].interest.topics
  {
    var rel: Relation := map[(n.i, n.t) := ANY];
    assert (n.i, n.t) in rel && n.t in TopicsOf(rel, n.i);
    assert HoldsAny(ViewOf(rel, n.i), n.t);
  }

  lemma RedialStep(n: Names, a: Core, b: Core)
    requires Apart(n) && a.interest == NO_INTEREST && b == Keen({n.i}, n.i, n.t)
    ensures var s := Gone(n, a, b, SILENT);
            && Wf(s) && Enabled(s, Dial(n.p, n.x, n.y, n.i))
            && Step(s, Dial(n.p, n.x, n.y, n.i)) == One(n, a, b, HELLO, {n.t})
  {
    Greeting();
    hide Snapshot;
    assert TopicsOf(b.rel, n.i) == {n.t} by { assert (n.i, n.t) in b.rel; }
    assert Stale(b, n.i, NO_INTEREST) == {n.t};
    var s := Gone(n, a, b, SILENT);
    assert s.departed - {(n.y, n.i)} == map[];
  }

  // Both links: the brokers dialed each other.

  function Both(n: Names, a: Core, b: Core, up: seq<Replica.Ctl>, down: seq<Replica.Ctl>): State {
    State(map[n.x := a, n.y := b],
          map[n.p := Link(n.x, n.y, n.i, up, 0, {}), n.q := Link(n.y, n.x, n.j, down, 0, {})], map[])
  }

  /** The pair seen from the other side. */
  function Flip(n: Names): Names { Names(n.y, n.x, n.q, n.p, n.j, n.i, n.c, n.t) }

  lemma Flipped(n: Names, a: Core, b: Core, up: seq<Replica.Ctl>, down: seq<Replica.Ctl>)
    requires Apart(n)
    ensures Both(Flip(n), b, a, down, up) == Both(n, a, b, up, down) && Apart(Flip(n))
  {
    var s, s' := Both(n, a, b, up, down), Both(Flip(n), b, a, down, up);
    assert s.brokers == s'.brokers && s.links == s'.links;
  }

  lemma BothWf(n: Names, a: Core, b: Core, up: seq<Replica.Ctl>, down: seq<Replica.Ctl>)
    requires Apart(n)
    ensures Wf(Both(n, a, b, up, down))
    ensures forall d, e :: LinkIdAt(Both(n, a, b, up, down), d, e) <==> (d, e) == (n.y, n.i) || (d, e) == (n.x, n.j)
  {
    var s := Both(n, a, b, up, down);
    assert n.p in s.links && n.q in s.links;
  }

  lemma BothClient(n: Names, a: Core, b: Core, up: seq<Replica.Ctl>, down: seq<Replica.Ctl>, m: Replica.Ctl)
    requires Apart(n)
    ensures var s, f := Both(n, a, b, up, down), Handle(a, n.c, m);
            && Wf(s) && Enabled(s, Client(n.x, n.c, Broker.Control(m)))
            && Step(s, Client(n.x, n.c, Broker.Control(m))) == Both(n, f.core, b, up + f.out, down)
  {
    hide Handle;
    BothWf(n, a, b, up, down);
    hide LinkIdAt;
    var f := Handle(a, n.c, m);
    BothSpread(n, a, b, up, down, f.core, f.out);
  }

  lemma BothSpread(n: Names, a: Core, b: Core, up: seq<Replica.Ctl>, down: seq<Replica.Ctl>, core: Core, out: seq<Replica.Ctl>)
    requires Apart(n)
    ensures Spread(Both(n, a, b, up, down), n.x, core, out) == Both(n, core, b, up + out, down)
  {
    var s, s' := Spread(Both(n, a, b, up, down), n.x, core, out), Both(n, core, b, up + out, down);
    assert s.brokers == s'.brokers;
    assert s.links == s'.links;
  }

  /** The broker y hears the next message of p and tells q. */
  lemma BothReceive(n: Names, a: Core, b: Core, up: seq<Replica.Ctl>, down: seq<Replica.Ctl>)
    requires Apart(n) && up != [] && !Handle(b, n.i, up[0]).reset
    ensures var s, f := Both(n, a, b, up, down), Handle(b, n.i, up[0]);
            && Wf(s) && Enabled(s, Receive(n.p))
            && Step(s, Receive(n.p)) == Both(n, a, f.core, up[1..], down + f.out)
  {
    hide Handle;
    BothWf(n, a, b, up, down);
    var f := Handle(b, n.i, up[0]);
    var s, s1 := Both(n, a, b, up, down), Both(n, a, b, up[1..], down);
    assert WithLink(s, n.p, s1.links[n.p]) == s1;
    Flipped(n, a, b, up[1..], down);
    BothSpread(Flip(n), b, a, down, up[1..], f.core, f.out);
    Flipped(n, a, f.core, up[1..], down + f.out);
  }

  /** Dialing a broker that knows nobody. */
  lemma DialsFresh(s: State, k: LinkKey, d: BrokerId, a: BrokerId, id: ClientId)
    requires Wf(s) && k !in s.links && d in s.brokers && a in s.brokers && s.departed == map[]
    requires s.brokers[d].interest == NO_INTEREST && s.brokers[a] == FRESH && !LinkIdAt(s, a, id)
    ensures Enabled(s, Dial(k, d, a, id))
    ensures Step(s, Dial(k, d, a, id)) == s.(links := s.links[k := Link(d, a, id, HELLO, 0, {})])
  {
    hide LinkIdAt, Wf;
    Greeting();
    hide Snapshot;
    assert Stale(FRESH, id, NO_INTEREST) == {};
    assert s.departed - {(a, id)} == map[];
  }

  lemma SecondDial(n: Names)
    requires Apart(n)
    ensures var s := One(n, FRESH, Knows({n.i}), [], {});
            && Wf(s) && Enabled(s, Dial(n.q, n.y, n.x, n.j))
            && Step(s, Dial(n.q, n.y, n.x, n.j)) == Both(n, FRESH, Knows({n.i}), [], HELLO)
  {
    OneWf(n, FRESH, Knows({n.i}), [], {});
    hide Wf, LinkIdAt, Step, Enabled;
    DialsFresh(One(n, FRESH, Knows({n.i}), [], {}), n.q, n.y, n.x, n.j);
  }

  lemma Linked2(n: Names)
    requires Apart(n)
    ensures Reachable(Both(n, Knows({n.j}), Knows({n.i}), [], []))
  {
    hide Reachable, Handle, Step, Enabled, Wf;
    Linked1(n);
    SecondDial(n);
    var s1, s2 := Both(n, FRESH, Knows({n.i}), [], HELLO), Both(n, Knows({n.j}), Knows({n.i}), [], []);
    Next(One(n, FRESH, Knows({n.i}), [], {}), Dial(n.q, n.y, n.x, n.j), s1);
    AnswersBack(n);
    Next(s1, Receive(n.q), s2);
  }

  const SILENCE: seq<Replica.Ctl> := []

  lemma AnswersBack(n: Names)
    requires Apart(n)
    ensures var s1, s2 := Both(n, FRESH, Knows({n.i}), [], HELLO), Both(n, Knows({n.j}), Knows({n.i}), [], []);
            Wf(s1) && Enabled(s1, Receive(n.q)) && Step(s1, Receive(n.q)) == s2
  {
    hide Handle, Step, Enabled, Wf;
    Greeting();
    Greets({}, n.j);
    assert Knows({}) == FRESH && {} + {n.j} == {n.j} && SILENCE + SILENCE == SILENCE;
    Flipped(n, FRESH, Knows({n.i}), [], HELLO);
    Flipped(n, Knows({n.j}), Knows({n.i}), [], []);
    hide Both;
    BothReceive(Flip(n), Knows({n.i}), FRESH, HELLO, []);
  }

  /** Two brokers that dialed each other: some run leaves them at rest, both links up, with a topic
      wanted that has no source. */
  lemma InterestOutlivesItsSubscriber(n: Names) returns (s: State)
    requires Apart(n)
    ensures Reachable(s) && Settled(s) && s.links.Keys == {n.p, n.q} && Sourceless(s, n.t)
  {
    var s0 := Both(n, Knows({n.j}), Knows({n.i}), [], []);
    Linked2(n);
    BothNovel(n);
    BothCycle(n);
    assert s0.links.Keys == {n.p, n.q};
    hide Reachable, Novel, Settled, Source, Runs, Path, Both, Wanted;
    var es;
    es, s := CycleKeepsInterest(s0, n.x, [n.p, n.q], n.t);
    ReachableOn(s0, es, s);
  }

  lemma BothCycle(n: Names)
    requires Apart(n)
    ensures Path(Both(n, Knows({n.j}), Knows({n.i}), [], []), n.x, [n.p, n.q], n.x)
  {
    var s := Both(n, Knows({n.j}), Knows({n.i}), [], []);
    assert [n.p, n.q][1..] == [n.q] && [n.q][1..] == [];
    assert Path(s, n.x, [], n.x);
    assert Path(s, n.y, [n.q], n.x);
  }

  lemma BothNovel(n: Names)
    requires Apart(n)
    ensures var s := Both(n, Knows({n.j}), Knows({n.i}), [], []); Novel(s, n.t) && Settled(s)
  {
    assert Wanted(map[]) == {};
  }

  /** News a broker passes on and takes back again at once. */
  function Twice(t: Topic): seq<Replica.Ctl> { [Replica.Sub(t, ANY), Replica.Unsub(t)] }

  /** The pair of messages on one link ends up on the other, with nothing else changed. */
  lemma Passing(n: Names, a: Core, ids: set<ClientId>)
    requires Apart(n) && n.i in ids
    ensures Runs(Both(n, a, Knows(ids), Twice(n.t), []), [Receive(n.p), Receive(n.p)], Both(n, a, Knows(ids), [], Twice(n.t)))
  {
    hide Handle;
    var sub, unsub := Replica.Sub(n.t, ANY), Replica.Unsub(n.t);
    var s0 := Both(n, a, Knows(ids), Twice(n.t), []);
    var s1 := Both(n, a, Keen(ids, n.i, n.t), [unsub], [sub]);
    var s2 := Both(n, a, Knows(ids), [], Twice(n.t));
    Asks(ids, n.i, n.t);
    assert ids + {n.i} == ids && Twice(n.t)[1..] == [unsub] && [] + [sub] == [sub];
    BothReceive(n, a, Knows(ids), Twice(n.t), []);
    GivesUp(ids, n.i, n.t);
    assert [unsub][1..] == [] && [sub] + [unsub] == Twice(n.t);
    BothReceive(n, a, Keen(ids, n.i, n.t), [unsub], [sub]);
    hide Step, Enabled, Wf;
    var es := [Receive(n.p), Receive(n.p)];
    assert es[1..] == [Receive(n.p)] && [Receive(n.p)][1..] == [];
    assert Runs(s1, [Receive(n.p)], s2);
  }

  /** A cycle need not come to rest: a topic asked for and given up before the first message is received
      goes round for ever, every step of it a message received. */
  lemma NewsChasesItself(n: Names)
    requires Apart(n)
    ensures var s := Both(n, Knows({n.j, n.c}), Knows({n.i}), Twice(n.t), []);
            var round := [Receive(n.p), Receive(n.p), Receive(n.q), Receive(n.q)];
            Reachable(s) && Runs(s, round, s)
  {
    hide Reachable, Handle, Runs;
    var a, b := Knows({n.j, n.c}), Knows({n.i});
    Passing(n, a, {n.i});
    Flipped(n, a, b, [], Twice(n.t));
    Flipped(n, a, b, Twice(n.t), []);
    Passing(Flip(n), b, {n.j, n.c});
    var up, down := [Receive(n.p), Receive(n.p)], [Receive(n.q), Receive(n.q)];
    RunsConcat(Both(n, a, b, Twice(n.t), []), up, Both(n, a, b, [], Twice(n.t)), down, Both(n, a, b, Twice(n.t), []));
    assert up + down == [Receive(n.p), Receive(n.p), Receive(n.q), Receive(n.q)];
    AskedAndGivenUp(n);
  }

  lemma AskedAndGivenUp(n: Names)
    requires Apart(n)
    ensures Reachable(Both(n, Knows({n.j, n.c}), Knows({n.i}), Twice(n.t), []))
  {
    hide Reachable, Handle;
    Linked2(n);
    var b, ids := Knows({n.i}), {n.j, n.c};
    var sub, unsub := Replica.Sub(n.t, ANY), Replica.Unsub(n.t);
    Asks({n.j}, n.c, n.t);
    assert {n.j} + {n.c} == ids && [] + [sub] == [sub] && [sub] + [unsub] == Twice(n.t);
    BothClient(n, Knows({n.j}), b, [], [], sub);
    Next(Both(n, Knows({n.j}), b, [], []), Client(n.x, n.c, Broker.Control(sub)), Both(n, Keen(ids, n.c, n.t), b, [sub], []));
    GivesUp(ids, n.c, n.t);
    BothClient(n, Keen(ids, n.c, n.t), b, [sub], [], unsub);
    Next(Both(n, Keen(ids, n.c, n.t), b, [sub], []), Client(n.x, n.c, Broker.Control(unsub)), Both(n, Knows(ids), b, Twice(n.t), []));
  }
}
