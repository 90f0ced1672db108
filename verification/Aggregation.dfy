/** What hop-by-hop replication adds up to over a whole mesh at rest: interest follows dial edges
    from subscribers to every broker they lead to, and nowhere else unless the edges form a cycle
    (server/broker.h, server/broker.cpp). */
module Aggregation {
  import opened Keys
  import opened Registry
  import opened Interest
  import opened BrokerCore
  import opened Mesh
  import Replica
  import Broker
  import Text

  /** Nothing in flight on any link, present or past, no remote has forgotten one, and none is too full
      of stale topics to hold what its dialer wants. */
  predicate Settled(s: State) {
    && (forall k :: k in s.links ==>
          && s.links[k].chan == [] && s.links[k].resets == 0
          && s.links[k].acceptor in s.brokers && s.links[k].id in s.brokers[s.links[k].acceptor].clients
          && Roomy(s.links[k].stale))
    && (forall d :: d in s.departed ==> s.departed[d] == SILENT)
  }

  /** The links of `ks` lead from broker x to broker z, each dialed by the broker the last one reached. */
  predicate Path(s: State, x: BrokerId, ks: seq<LinkKey>, z: BrokerId)
    decreases |ks|
  {
    if ks == [] then x == z
    else ks[0] in s.links && s.links[ks[0]].dialer == x && Path(s, s.links[ks[0]].acceptor, ks[1..], z)
  }

  lemma PathCons(s: State, k: LinkKey, ks: seq<LinkKey>, z: BrokerId)
    requires k in s.links && Path(s, s.links[k].acceptor, ks, z)
    ensures Path(s, s.links[k].dialer, [k] + ks, z)
  {
    assert ([k] + ks)[1..] == ks;
  }

  /** At least one link leads from x to z. */
  ghost predicate LeadsTo(s: State, x: BrokerId, z: BrokerId) {
    exists ks :: ks != [] && Path(s, x, ks, z)
  }

  lemma LeadsToCons(s: State, k: LinkKey)
    requires k in s.links
    ensures LeadsTo(s, s.links[k].dialer, s.links[k].acceptor)
    ensures forall z :: LeadsTo(s, s.links[k].acceptor, z) ==> LeadsTo(s, s.links[k].dialer, z)
  {
    PathCons(s, k, [], s.links[k].acceptor);
    forall z | LeadsTo(s, s.links[k].acceptor, z)
      ensures LeadsTo(s, s.links[k].dialer, z)
    {
      var ks :| ks != [] && Path(s, s.links[k].acceptor, ks, z);
      PathCons(s, k, ks, z);
    }
  }

  /** A broker the topic is drawn to: somebody there wants it, or everything, from the mesh. */
  predicate Draws(b: Core, t: Topic) {
    t in Wanted(b.rel) || WILDCARD in Wanted(b.rel)
  }

  /** The link's acceptor sends it the topic, by name or as part of everything. */
  predicate Subscribed(s: State, k: LinkKey, t: Topic)
    requires k in s.links && s.links[k].acceptor in s.brokers
  {
    var v := ViewOf(s.brokers[s.links[k].acceptor].rel, s.links[k].id);
    HoldsAny(v, t) || HoldsAny(v, WILDCARD)
  }

  lemma SettledGoal(s: State, k: LinkKey)
    requires Inv(s) && Settled(s) && k in s.links
    ensures var i := s.brokers[s.links[k].dialer].interest;
            var v := ViewOf(s.brokers[s.links[k].acceptor].rel, s.links[k].id);
            && (forall t :: t in v ==> t in s.links[k].stale || if t == WILDCARD then Wide(i) else t in i.topics)
            && (if Wide(i) then HoldsAny(v, WILDCARD) else forall t :: t in i.topics ==> HoldsAny(v, t))
  {
    hide Replica.OnTrack, LinkGoal, Ok, ViewOf, Sized;
    assert LinkOk(s, k);
    OkSized(s.brokers[s.links[k].dialer]);
    OnGoal(SessionOf(s, k), s.brokers[s.links[k].dialer].interest, s.links[k].stale);
  }

  /** One hop: a topic drawn to the dialer is sent down the link, and drawn to the acceptor. */
  lemma Hop(s: State, k: LinkKey, t: Topic)
    requires Inv(s) && Settled(s) && k in s.links && Propagatable(t)
    requires Draws(s.brokers[s.links[k].dialer], t)
    ensures Subscribed(s, k, t)
    ensures Draws(s.brokers[s.links[k].acceptor], t)
  {
    SettledGoal(s, k);
    var l := s.links[k];
    var d, a := s.brokers[l.dialer], s.brokers[l.acceptor];
    assert Tracks(d.interest, Wanted(d.rel));
    var held := if Wide(d.interest) then WILDCARD else t;
    assert HoldsAny(ViewOf(a.rel, l.id), held);
    assert (l.id, held) in a.rel && a.rel[(l.id, held)].mesh;
  }

  predicate SentDown(s: State, k: LinkKey, t: Topic) {
    k in s.links && s.links[k].acceptor in s.brokers && Subscribed(s, k, t)
  }

  lemma HopSent(s: State, k: LinkKey, t: Topic)
    requires Inv(s) && Settled(s) && k in s.links && Propagatable(t)
    requires s.links[k].dialer in s.brokers && Draws(s.brokers[s.links[k].dialer], t)
    ensures SentDown(s, k, t) && s.links[k].acceptor in s.brokers && Draws(s.brokers[s.links[k].acceptor], t)
  {
    Hop(s, k, t);
  }

  /** Interest reaches every broker its subscriber's broker leads to, and each link on the way is sent
      the topic. */
  lemma {:induction false} InterestTravels(s: State, x: BrokerId, ks: seq<LinkKey>, z: BrokerId, t: Topic)
    requires Inv(s) && Settled(s) && Path(s, x, ks, z) && Propagatable(t)
    requires x in s.brokers && Draws(s.brokers[x], t)
    ensures z in s.brokers && Draws(s.brokers[z], t)
    ensures forall i :: 0 <= i < |ks| ==> SentDown(s, ks[i], t)
    decreases |ks|
  {
    hide Inv, Settled, Draws, SentDown, Propagatable;
    if ks == [] {
    } else {
      var y, rest := s.links[ks[0]].acceptor, ks[1..];
      HopSent(s, ks[0], t);
      InterestTravels(s, y, rest, z, t);
      assert forall i :: 0 < i < |ks| ==> ks[i] == rest[i - 1];
    }
  }

  lemma InvWf(s: State)
    requires Inv(s)
    ensures Wf(s)
  {
  }

  lemma AcceptorThere(s: State, k: LinkKey)
    requires Inv(s) && k in s.links
    ensures s.links[k].acceptor in s.brokers && s.links[k].dialer in s.brokers
  {
  }

  /** A client wants the topic from the mesh at this broker. */
  predicate Holder(s: State, b: BrokerId, c: ClientId, t: Topic) {
    b in s.brokers && (c, t) in s.brokers[b].rel && s.brokers[b].rel[(c, t)].mesh
  }

  /** A subscriber of its own, neither a link nor left behind by one, wants the topic at this broker. */
  ghost predicate HasOwnSubscriber(s: State, b: BrokerId, t: Topic) {
    exists c :: Holder(s, b, c, t) && !PeerIdAt(s, b, c)
  }

  /** A link that hung up, or one dialed onto a session it did not start, left the topic here. */
  ghost predicate LeftBehind(s: State, b: BrokerId, t: Topic) {
    || (exists c :: Holder(s, b, c, t) && (b, c) in s.departed)
    || (exists k :: k in s.links && s.links[k].acceptor == b && t in s.links[k].stale && Holder(s, b, s.links[k].id, t))
  }

  /** Why a broker may want a topic: a subscriber of its own, something left behind, or past
      saturation. */
  ghost predicate Source(s: State, b: BrokerId, t: Topic) {
    b in s.brokers && (HasOwnSubscriber(s, b, t) || LeftBehind(s, b, t) || s.brokers[b].interest.saturated)
  }

  /** One hop back: what a broker wants it wants for a subscriber of its own, for something left behind
      or for one of the brokers that dialed it, which then wants it too or is saturated. */
  lemma HopBack(s: State, z: BrokerId, t: Topic) returns (own: bool, k: LinkKey)
    requires Inv(s) && Settled(s) && z in s.brokers && t in Wanted(s.brokers[z].rel)
    ensures own ==> Source(s, z, t)
    ensures !own ==> k in s.links && s.links[k].acceptor == z && s.links[k].dialer in s.brokers
    ensures !own ==> t in Wanted(s.brokers[s.links[k].dialer].rel) || s.brokers[s.links[k].dialer].interest.saturated
  {
    var rel := s.brokers[z].rel;
    var key :| key in rel && key.1 == t && rel[key].mesh;
    assert Holder(s, z, key.0, t);
    own, k := true, "";
    if LinkIdAt(s, z, key.0) {
      k :| k in s.links && s.links[k].acceptor == z && s.links[k].id == key.0;
      if t !in s.links[k].stale {
        own := false;
        SettledGoal(s, k);
        assert t in ViewOf(rel, key.0);
        var d := s.brokers[s.links[k].dialer];
        assert Tracks(d.interest, Wanted(d.rel));
      }
    } else {
      assert (z, key.0) in s.departed || !PeerIdAt(s, z, key.0);
    }
  }

  /** In a mesh at rest every broker that wants a topic is led to by a broker with a reason to, or by
      a dial cycle. `seen` are the brokers already walked back through, each on a path to z. */
  lemma {:induction false} WalkBack(s: State, y: BrokerId, t: Topic, ks: seq<LinkKey>, z: BrokerId, seen: set<BrokerId>)
    returns (x: BrokerId, js: seq<LinkKey>)
    requires Inv(s) && Settled(s) && y in s.brokers && t in Wanted(s.brokers[y].rel)
    requires Path(s, y, ks, z) && seen <= s.brokers.Keys && y !in seen
    requires forall b :: b in seen ==> LeadsTo(s, y, b)
    ensures Path(s, x, js, z)
    ensures Source(s, x, t) || LeadsTo(s, x, x)
    decreases |s.brokers.Keys - seen|
  {
    hide Inv, Settled, Wanted, LeadsTo, Path, LinkIdAt;
    var own, k := HopBack(s, y, t);
    if own {
      return y, ks;
    }
    var d := s.links[k].dialer;
    LeadsToCons(s, k);
    PathCons(s, k, ks, z);
    if s.brokers[d].interest.saturated || d in seen + {y} {
      return d, [k] + ks;
    }
    assert s.brokers.Keys - (seen + {y}) < s.brokers.Keys - seen;
    x, js := WalkBack(s, d, t, [k] + ks, z, seen + {y});
  }

  /** No broker wants a topic nobody asked for, short of leftovers, saturation or a dial cycle. */
  lemma InterestHasSource(s: State, z: BrokerId, t: Topic)
    requires Reachable(s) && Settled(s) && z in s.brokers && t in Wanted(s.brokers[z].rel)
    ensures exists x, ks :: Path(s, x, ks, z) && (Source(s, x, t) || LeadsTo(s, x, x))
  {
    ReachableInv(s);
    var x, ks := WalkBack(s, z, t, [], z, {});
  }

  /** The smaller uuid dials, as on every link discovery makes. */
  predicate Uphill(s: State) {
    forall k :: k in s.links ==> Text.Less(s.links[k].dialer, s.links[k].acceptor)
  }

  lemma {:induction false} UphillNoCycle(s: State, x: BrokerId, ks: seq<LinkKey>, z: BrokerId)
    requires Uphill(s) && ks != [] && Path(s, x, ks, z)
    ensures Text.Less(x, z) && x != z
    decreases |ks|
  {
    var y := s.links[ks[0]].acceptor;
    if |ks| > 1 {
      UphillNoCycle(s, y, ks[1..], z);
      Text.LessTransitive(x, y, z);
    }
    Text.LessTrichotomy(x, z);
  }

  /** In a mesh whose links all run uphill, every interest at rest has a source. */
  lemma InterestHasSourceUphill(s: State, z: BrokerId, t: Topic)
    requires Reachable(s) && Settled(s) && z in s.brokers && t in Wanted(s.brokers[z].rel)
    requires Uphill(s)
    ensures exists x, ks :: Path(s, x, ks, z) && Source(s, x, t)
  {
    ReachableInv(s);
    var x, ks := WalkBack(s, z, t, [], z, {});
    if LeadsTo(s, x, x) {
      var loop :| loop != [] && Path(s, x, loop, x);
      UphillNoCycle(s, x, loop, x);
    }
  }

  /** Every link that hung up has been noticed, and no link was dialed onto a stale session. */
  predicate NothingLeft(s: State) {
    s.departed == map[] && forall k :: k in s.links ==> s.links[k].stale == {}
  }

  /** With nothing left behind the source is a subscriber or saturation. */
  lemma SourceIsSubscriber(s: State, x: BrokerId, t: Topic)
    requires NothingLeft(s) && Source(s, x, t)
    ensures HasOwnSubscriber(s, x, t) || s.brokers[x].interest.saturated
  {
  }
}
