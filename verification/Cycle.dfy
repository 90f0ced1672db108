/** Every dial cycle can keep an interest alive: in any mesh at rest with links leading from a broker
    back to itself, a topic asked for there and given up again stays wanted with nobody asking
    (server/broker.cpp). */
module Cycle {
  import opened Keys
  import opened Registry
  import opened Interest
  import opened BrokerCore
  import opened Mesh
  import opened Aggregation
  import Replica
  import Broker
  import Text

  /** A topic a broker with room for one more takes from a client with room for one more. */
  predicate Takes(b: Core, c: ClientId, t: Topic) {
    && LegalTopic(t) && Propagatable(t) && CanSubscribe(b.rel, c, t)
    && !b.interest.saturated && (t in b.interest.topics || |b.interest.topics| < MAX_INTEREST)
  }

  lemma WantedIsInterest(b: Core, t: Topic)
    requires Ok(b) && !b.interest.saturated && Propagatable(t)
    ensures t in Wanted(b.rel) <==> t in b.interest.topics
  {
  }

  /** The first to ask makes the broker want the topic and tell its links; the others change nothing. */
  lemma Catching(b: Core, c: ClientId, t: Topic)
    requires Ok(b) && Takes(b, c, t)
    ensures var f, i := Handle(b, c, Replica.Sub(t, ANY)), b.interest;
            && f.core == Core(b.clients + {c}, b.rel[(c, t) := ANY], i.(topics := i.topics + {t}))
            && f.out == (if t in i.topics then [] else [Replica.Sub(t, ANY)])
            && f.reset == (c !in b.clients)
  {
    var rel' := b.rel[(c, t) := ANY];
    assert (c, t) in rel' && t in Wanted(rel');
    WantedIsInterest(b, t);
    if t in b.interest.topics { assert b.interest.topics + {t} == b.interest.topics; }
  }

  /** One of two leaving changes nothing but the registry. */
  lemma Releasing(b: Core, c: ClientId, t: Topic, d: ClientId)
    requires c in b.clients && c != d && (d, t) in b.rel && b.rel[(d, t)].mesh
    ensures Handle(b, c, Replica.Unsub(t)) == Effect(b.(rel := b.rel - {(c, t)}), [], false)
  {
    var rel' := b.rel - {(c, t)};
    assert (d, t) in rel' && t in Wanted(rel') && t in Wanted(b.rel);
    assert b.clients + {c} == b.clients;
  }

  // The wave a new topic makes.

  function News(t: Topic): Replica.Ctl { Replica.Sub(t, ANY) }

  /** A link at rest, or with nothing in flight but the news. */
  ghost predicate Ready(s: State, k: LinkKey, t: Topic)
    requires Wf(s) && k in s.links
  {
    var l := s.links[k];
    && (l.chan == [] || l.chan == [News(t)]) && l.resets == 0 && Roomy(l.stale) && t !in l.stale
    && l.id in s.brokers[l.acceptor].clients
    && (l.chan != [] ==> t in s.brokers[l.dialer].interest.topics)
  }

  /** And what its dialer wants has arrived unless it is in flight. */
  ghost predicate Carrying(s: State, k: LinkKey, t: Topic)
    requires Wf(s) && k in s.links
  {
    var l := s.links[k];
    && Ready(s, k, t)
    && (t in s.brokers[l.dialer].interest.topics && l.chan == [] ==> Holder(s, l.acceptor, l.id, t))
  }

  predicate HasRoom(b: Core, t: Topic) {
    !b.interest.saturated && (t in b.interest.topics || |b.interest.topics| < MAX_INTEREST)
  }

  /** Only client c of broker x has asked for the topic; the news is on its way along the links. */
  ghost predicate Wave(s: State, t: Topic, x: BrokerId, c: ClientId) {
    && Inv(s)
    && (forall k :: k in s.links ==> Carrying(s, k, t))
    && (forall d :: d in s.departed ==> s.departed[d] == SILENT)
    && (forall b :: b in s.brokers ==> HasRoom(s.brokers[b], t))
    && (forall b, d :: Holder(s, b, d, t) ==> LinkIdAt(s, b, d) || (b, d) == (x, c))
    && Holder(s, x, c, t) && !PeerIdAt(s, x, c)
  }

  /** The same links between the same brokers. */
  predicate SameEnds(s: State, s': State) {
    && s'.brokers.Keys == s.brokers.Keys && s'.links.Keys == s.links.Keys
    && forall k :: k in s.links ==>
         && s'.links[k].dialer == s.links[k].dialer && s'.links[k].acceptor == s.links[k].acceptor
         && s'.links[k].id == s.links[k].id && s'.links[k].stale == s.links[k].stale
  }

  lemma SameEndsLinkIds(s: State, s': State)
    requires SameEnds(s, s')
    ensures forall b, c :: LinkIdAt(s', b, c) <==> LinkIdAt(s, b, c)
  {
  }

  lemma {:induction false} SameEndsPath(s: State, s': State, x: BrokerId, ks: seq<LinkKey>, z: BrokerId)
    requires SameEnds(s, s') && Path(s, x, ks, z)
    ensures Path(s', x, ks, z)
    decreases |ks|
  {
    if ks == [] {
    } else {
      SameEndsPath(s, s', s.links[ks[0]].acceptor, ks[1..], z);
    }
  }

  /** Brokers yet to hear, and links with the news in flight. */
  function Unaware(s: State, t: Topic): set<BrokerId> { set b | b in s.brokers && t !in s.brokers[b].interest.topics }

  function InFlight(s: State): set<LinkKey> { set k | k in s.links && s.links[k].chan != [] }

  /** A broker hears the news from client c, on a link's behalf or its own, and passes it on if it is
      news. */
  function Heard(s: State, b: BrokerId, c: ClientId, t: Topic): State
    requires b in s.brokers
  {
    var core := s.brokers[b];
    Spread(s, b, Core(core.clients + {c}, core.rel[(c, t) := ANY], core.interest.(topics := core.interest.topics + {t})),
           if t in core.interest.topics then [] else [News(t)])
  }

  /** What hearing does to one link: another broker's is left alone, its own ones get the news if it is
      news. */
  lemma HeardLink(s: State, b: BrokerId, c: ClientId, t: Topic, k: LinkKey)
    requires b in s.brokers && k in s.links
    ensures var s', l := Heard(s, b, c, t), s.links[k];
            && SameEnds(s, s')
            && s'.links[k] == (if l.dialer == b && t !in s.brokers[b].interest.topics then l.(chan := l.chan + [News(t)]) else l)
  {
    assert s.links[k].chan + [] == s.links[k].chan;
  }

  lemma HeardBroker(s: State, b: BrokerId, c: ClientId, t: Topic)
    requires b in s.brokers
    ensures var s' := Heard(s, b, c, t);
            && s'.departed == s.departed
            && (forall a :: a in s.brokers ==> s'.brokers[a].clients == (if a == b then s.brokers[a].clients + {c} else s.brokers[a].clients))
            && (forall a :: a in s.brokers && a != b ==> s'.brokers[a] == s.brokers[a])
            && (forall a, d :: Holder(s', a, d, t) <==> Holder(s, a, d, t) || (a, d) == (b, c))
            && (forall a :: a in s.brokers ==>
                  (t in s'.brokers[a].interest.topics <==> t in s.brokers[a].interest.topics || a == b))
  {
  }

  /** News from a client or off a link's channel: the wave goes on. */
  lemma HeardCarries(s: State, b: BrokerId, c: ClientId, t: Topic, k: LinkKey)
    requires Wf(s) && b in s.brokers && k in s.links && Wf(Heard(s, b, c, t)) && Ready(s, k, t)
    requires Carrying(s, k, t) || (s.links[k].acceptor == b && s.links[k].id == c && t in s.brokers[s.links[k].dialer].interest.topics)
    ensures Carrying(Heard(s, b, c, t), k, t)
  {
    HeardLink(s, b, c, t, k);
    HeardBroker(s, b, c, t);
    hide Heard;
    var l := s.links[k];
    if l.dialer == b && t !in s.brokers[b].interest.topics {
      assert l.chan == [] && [] + [News(t)] == [News(t)];
    }
  }

  lemma HeardRoom(s: State, b: BrokerId, c: ClientId, t: Topic, a: BrokerId)
    requires b in s.brokers && a in s.brokers && HasRoom(s.brokers[a], t)
    ensures HasRoom(Heard(s, b, c, t).brokers[a], t)
  {
  }

  /** The channel's one message taken off. */
  function Popped(s: State, k: LinkKey): State
    requires k in s.links
  {
    WithLink(s, k, s.links[k].(chan := []))
  }

  lemma PoppedWf(s: State, k: LinkKey)
    requires Wf(s) && k in s.links
    ensures Wf(Popped(s, k)) && SameEnds(s, Popped(s, k))
  {
    var l := s.links[k];
    LinkWf(s, k, l.(chan := []), s.brokers[l.acceptor]);
    assert s.brokers[l.acceptor := s.brokers[l.acceptor]] == s.brokers;
  }

  lemma LinkTakes(s: State, t: Topic, k: LinkKey)
    requires Inv(s) && k in s.links && s.links[k].chan == [News(t)] && Roomy(s.links[k].stale)
    requires LegalTopic(t) && Propagatable(t) && HasRoom(s.brokers[s.links[k].acceptor], t)
    ensures Takes(s.brokers[s.links[k].acceptor], s.links[k].id, t)
  {
    hide Replica.OnTrack, LinkGoal, ViewOf, Ok;
    assert LinkOk(s, k);
    var l := s.links[k];
    NoRefusal(SessionOf(s, k), LinkGoal(s.brokers[l.dialer].interest), l.stale);
    ViewTopics(s.brokers[l.acceptor].rel, l.id);
  }

  /** Receiving the news is hearing it. */
  lemma ReceiveIsHearing(s: State, t: Topic, k: LinkKey)
    requires Inv(s) && k in s.links && Carrying(s, k, t) && s.links[k].chan != []
    requires LegalTopic(t) && Propagatable(t) && HasRoom(s.brokers[s.links[k].acceptor], t)
    ensures Step(s, Receive(k)) == Heard(Popped(s, k), s.links[k].acceptor, s.links[k].id, t)
  {
    hide Handle, Spread, Takes, Ok, Inv, HasRoom;
    InvWf(s);
    LinkTakes(s, t, k);
    var l := s.links[k];
    InvOk(s, l.acceptor);
    Catching(s.brokers[l.acceptor], l.id, t);
    assert l.chan[1..] == [];
  }

  lemma InvOk(s: State, b: BrokerId)
    requires Inv(s) && b in s.brokers
    ensures Ok(s.brokers[b])
  {
  }

  lemma HearingSpreads(s: State, b: BrokerId, c: ClientId, t: Topic)
    requires b in s.brokers
    ensures SameEnds(s, Heard(s, b, c, t))
    ensures forall a, d :: LinkIdAt(Heard(s, b, c, t), a, d) <==> LinkIdAt(s, a, d)
  {
    var s' := Heard(s, b, c, t);
    assert s'.links.Keys == s.links.Keys;
    forall k | k in s.links
      ensures SameEnds(s, s')
    {
      HeardLink(s, b, c, t, k);
    }
    SameEndsLinkIds(s, s');
  }

  /** Hearing keeps the wave going, whoever is heard. */
  lemma HearingWave(s: State, b: BrokerId, d: ClientId, t: Topic, x: BrokerId, c: ClientId)
    requires b in s.brokers && Wf(s) && Inv(Heard(s, b, d, t))
    requires forall k :: k in s.links ==> Ready(s, k, t)
    requires forall k :: k in s.links ==>
               Carrying(s, k, t) || (s.links[k].acceptor == b && s.links[k].id == d && t in s.brokers[s.links[k].dialer].interest.topics)
    requires forall a :: a in s.departed ==> s.departed[a] == SILENT
    requires forall a :: a in s.brokers ==> HasRoom(s.brokers[a], t)
    requires forall a, e :: Holder(s, a, e, t) ==> LinkIdAt(s, a, e) || (a, e) == (x, c)
    requires LinkIdAt(s, b, d) || (b, d) == (x, c)
    requires Holder(s, x, c, t) || (b, d) == (x, c)
    requires !PeerIdAt(s, x, c)
    ensures Wave(Heard(s, b, d, t), t, x, c)
  {
    hide Heard, Inv, Carrying, Ready, HasRoom, Holder, LinkIdAt;
    var s' := Heard(s, b, d, t);
    InvWf(s');
    HearingSpreads(s, b, d, t);
    HeardBroker(s, b, d, t);
    forall k | k in s'.links ensures Carrying(s', k, t) { HeardCarries(s, b, d, t, k); }
    forall a | a in s'.brokers ensures HasRoom(s'.brokers[a], t) { HeardRoom(s, b, d, t, a); }
  }

  lemma WaveStep(s: State, t: Topic, x: BrokerId, c: ClientId, k: LinkKey)
    requires Wave(s, t, x, c) && LegalTopic(t) && Propagatable(t) && k in s.links && s.links[k].chan != []
    ensures Enabled(s, Receive(k)) && Wave(Step(s, Receive(k)), t, x, c) && SameEnds(s, Step(s, Receive(k)))
  {
    hide Inv, Carrying, Ready, HasRoom, Holder, LinkIdAt, Heard, Step, Popped;
    InvWf(s);
    AcceptorThere(s, k);
    StepKeeps(s, Receive(k));
    ReceiveIsHearing(s, t, k);
    PoppedWf(s, k);
    var l, s1 := s.links[k], Popped(s, k);
    IsLinkId(s, k);
    SameEndsLinkIds(s, s1);
    PoppedAll(s, t, k);
    PoppedRest(s, t, k);
    HearingSpreads(s1, l.acceptor, l.id, t);
    HearingWave(s1, l.acceptor, l.id, t, x, c);
    SameEndsTrans(s, s1, Heard(s1, l.acceptor, l.id, t));
  }

  lemma IsLinkId(s: State, k: LinkKey)
    requires k in s.links
    ensures LinkIdAt(s, s.links[k].acceptor, s.links[k].id)
  {
  }

  lemma PoppedRest(s: State, t: Topic, k: LinkKey)
    requires k in s.links
    ensures Popped(s, k).brokers == s.brokers && Popped(s, k).departed == s.departed
    ensures forall a, e :: Holder(Popped(s, k), a, e, t) <==> Holder(s, a, e, t)
  {
  }

  lemma PoppedLink(s: State, t: Topic, k: LinkKey, j: LinkKey)
    requires Wf(s) && k in s.links && j in s.links && Carrying(s, k, t) && Carrying(s, j, t) && s.links[k].chan != []
    requires Wf(Popped(s, k))
    ensures var s1, l := Popped(s, k), s.links[k];
            && Ready(s1, j, t)
            && (Carrying(s1, j, t) || (s1.links[j].acceptor == l.acceptor && s1.links[j].id == l.id
                                       && t in s1.brokers[s1.links[j].dialer].interest.topics))
  {
    if j != k { assert Popped(s, k).links[j] == s.links[j]; }
    PoppedRest(s, t, k);
  }

  lemma PoppedAll(s: State, t: Topic, k: LinkKey)
    requires Wf(s) && k in s.links && s.links[k].chan != [] && Wf(Popped(s, k)) && SameEnds(s, Popped(s, k))
    requires forall j :: j in s.links ==> Carrying(s, j, t)
    ensures var s1, l := Popped(s, k), s.links[k];
            forall j :: j in s1.links ==>
              && Ready(s1, j, t)
              && (Carrying(s1, j, t) || (s1.links[j].acceptor == l.acceptor && s1.links[j].id == l.id
                                         && t in s1.brokers[s1.links[j].dialer].interest.topics))
  {
    hide Carrying, Ready, Popped;
    forall j | j in Popped(s, k).links
      ensures var s1, l := Popped(s, k), s.links[k];
              && Ready(s1, j, t)
              && (Carrying(s1, j, t) || (s1.links[j].acceptor == l.acceptor && s1.links[j].id == l.id
                                         && t in s1.brokers[s1.links[j].dialer].interest.topics))
    {
      PoppedLink(s, t, k, j);
    }
  }

  /** Either another broker hears, or one message less is in flight. */
  lemma WaveShrinks(s: State, t: Topic, x: BrokerId, c: ClientId, k: LinkKey)
    requires Wave(s, t, x, c) && LegalTopic(t) && Propagatable(t) && k in s.links && s.links[k].chan != []
    ensures var s' := Step(s, Receive(k));
            Unaware(s', t) < Unaware(s, t) || (Unaware(s', t) == Unaware(s, t) && InFlight(s') < InFlight(s))
  {
    hide Inv, Carrying, HasRoom, Heard, Step;
    InvWf(s);
    AcceptorThere(s, k);
    ReceiveIsHearing(s, t, k);
    var l, s1 := s.links[k], Popped(s, k);
    HearingShrinks(s1, l.acceptor, l.id, t);
    assert Unaware(s1, t) == Unaware(s, t);
    assert InFlight(s1) == InFlight(s) - {k} && k in InFlight(s);
  }

  lemma HearingShrinks(s: State, b: BrokerId, c: ClientId, t: Topic)
    requires b in s.brokers
    ensures var s' := Heard(s, b, c, t);
            Unaware(s', t) < Unaware(s, t) || (Unaware(s', t) == Unaware(s, t) && InFlight(s') == InFlight(s))
  {
    var s' := Heard(s, b, c, t);
    HeardBroker(s, b, c, t);
    HearingSpreads(s, b, c, t);
    if t in s.brokers[b].interest.topics {
      forall j | j in s.links
        ensures s'.links[j] == s.links[j]
      {
        HeardLink(s, b, c, t, j);
      }
      hide Heard;
      assert Unaware(s', t) == Unaware(s, t);
      assert InFlight(s') == InFlight(s);
    } else {
      hide Heard;
      assert b in Unaware(s, t) && b !in Unaware(s', t);
      assert Unaware(s', t) <= Unaware(s, t);
    }
  }

  /** The wave runs out, every broker's links told. */
  lemma {:induction false} WaveEnds(s: State, t: Topic, x: BrokerId, c: ClientId) returns (es: seq<Event>, s': State)
    requires Wave(s, t, x, c) && LegalTopic(t) && Propagatable(t)
    ensures Runs(s, es, s') && Wave(s', t, x, c) && SameEnds(s, s') && InFlight(s') == {}
    decreases Unaware(s, t), InFlight(s)
  {
    hide Wave, Step, Enabled, Unaware;
    if InFlight(s) == {} {
      return [], s;
    }
    var k :| k in InFlight(s);
    WaveStep(s, t, x, c, k);
    WaveShrinks(s, t, x, c, k);
    WaveWf(s, t, x, c);
    var s1 := Step(s, Receive(k));
    var rest;
    rest, s' := WaveEnds(s1, t, x, c);
    es := [Receive(k)] + rest;
    assert es[1..] == rest;
    SameEndsTrans(s, s1, s');
  }

  lemma WaveWf(s: State, t: Topic, x: BrokerId, c: ClientId)
    requires Wave(s, t, x, c)
    ensures Wf(s)
  {
  }

  lemma SameEndsTrans(a: State, b: State, c: State)
    requires SameEnds(a, b) && SameEnds(b, c)
    ensures SameEnds(a, c)
  {
  }

  /** Once it has, everywhere the first broker leads wants the topic, for the link it came over. */
  lemma {:induction false} WaveReaches(s: State, t: Topic, x: BrokerId, c: ClientId, y: BrokerId, ks: seq<LinkKey>, z: BrokerId)
    returns (k: LinkKey)
    requires Wave(s, t, x, c) && InFlight(s) == {} && Propagatable(t) && Path(s, y, ks, z) && ks != []
    requires y in s.brokers && t in s.brokers[y].interest.topics
    ensures k in s.links && s.links[k].acceptor == z && Holder(s, z, s.links[k].id, t)
    decreases |ks|
  {
    hide Wave, Propagatable;
    k := ks[0];
    WaveHop(s, t, x, c, k);
    if |ks| > 1 { k := WaveReaches(s, t, x, c, s.links[k].acceptor, ks[1..], z); }
  }

  lemma WaveHop(s: State, t: Topic, x: BrokerId, c: ClientId, k: LinkKey)
    requires Wave(s, t, x, c) && InFlight(s) == {} && Propagatable(t) && k in s.links
    requires s.links[k].dialer in s.brokers && t in s.brokers[s.links[k].dialer].interest.topics
    ensures var a := s.links[k].acceptor;
            Holder(s, a, s.links[k].id, t) && a in s.brokers && t in s.brokers[a].interest.topics
  {
    hide Inv;
    InvWf(s);
    AcceptorThere(s, k);
    assert Carrying(s, k, t) && k !in InFlight(s);
    var a := s.links[k].acceptor;
    InvOk(s, a);
    HolderWants(s.brokers[a], s.links[k].id, t);
  }

  lemma HolderWants(b: Core, c: ClientId, t: Topic)
    requires Ok(b) && !b.interest.saturated && Propagatable(t) && (c, t) in b.rel && b.rel[(c, t)].mesh
    ensures t in b.interest.topics
  {
    assert t in Wanted(b.rel);
  }

  // Starting and ending it.

  lemma {:induction false} FreshName(names: set<string>) returns (n: string)
    ensures forall m :: m in names ==> |m| < |n|
  {
    if names == {} {
      return "c";
    }
    var m :| m in names;
    n := FreshName(names - {m});
    if |m| >= |n| { n := m + "c"; }
  }

  lemma Stranger(s: State, x: BrokerId) returns (c: ClientId)
    requires x in s.brokers
    ensures c !in s.brokers[x].clients && !PeerIdAt(s, x, c)
  {
    var links := set k | k in s.links :: s.links[k].id;
    var gone := set d | d in s.departed :: d.1;
    c := FreshName(s.brokers[x].clients + links + gone);
    forall k | k in s.links ensures s.links[k].id != c { assert s.links[k].id in links; }
    forall d | d in s.departed ensures d.1 != c { assert d.1 in gone; }
  }

  /** Nobody wants the topic, no link is stale with it, and every broker has room for it. */
  ghost predicate Novel(s: State, t: Topic) {
    && LegalTopic(t) && Propagatable(t)
    && (forall b :: b in s.brokers ==>
          && t !in Wanted(s.brokers[b].rel)
          && !s.brokers[b].interest.saturated && |s.brokers[b].interest.topics| < MAX_INTEREST)
    && (forall k :: k in s.links ==> t !in s.links[k].stale)
  }

  lemma NobodyHolds(s: State, t: Topic, b: BrokerId, c: ClientId)
    requires Novel(s, t)
    ensures !Holder(s, b, c, t)
  {
    assert Holder(s, b, c, t) ==> t in Wanted(s.brokers[b].rel);
  }

  lemma StrangerTakes(b: Core, c: ClientId, t: Topic)
    requires Ok(b) && c !in b.clients && LegalTopic(t) && Propagatable(t) && HasRoom(b, t)
    ensures Takes(b, c, t)
  {
    assert TopicsOf(b.rel, c) == {};
  }

  lemma WaveStarts(s: State, t: Topic, x: BrokerId, c: ClientId)
    requires Inv(s) && Settled(s) && Novel(s, t) && x in s.brokers && c !in s.brokers[x].clients && !PeerIdAt(s, x, c)
    ensures var e := Client(x, c, Broker.Control(News(t)));
            Enabled(s, e) && Wave(Step(s, e), t, x, c) && SameEnds(s, Step(s, e))
  {
    hide Inv, Ok, Handle, Heard, Spread, Carrying, Ready, Takes, LinkIdAt;
    var e := Client(x, c, Broker.Control(News(t)));
    InvWf(s);
    InvOk(s, x);
    StepKeeps(s, e);
    StrangerTakes(s.brokers[x], c, t);
    Catching(s.brokers[x], c, t);
    AskingIsHearing(s, x, c, t);
    HearingSpreads(s, x, c, t);
    forall k | k in s.links ensures Carrying(s, k, t) && Ready(s, k, t) { NovelCarrying(s, t, k); }
    forall b, d ensures !Holder(s, b, d, t) { NobodyHolds(s, t, b, d); }
    hide Step;
    HearingWave(s, x, c, t, x, c);
  }

  lemma AskingIsHearing(s: State, x: BrokerId, c: ClientId, t: Topic)
    requires Inv(s) && x in s.brokers && !PeerIdAt(s, x, c) && Takes(s.brokers[x], c, t)
    ensures Wf(s) && Step(s, Client(x, c, Broker.Control(News(t)))) == Heard(s, x, c, t)
  {
    hide Inv, Ok, Handle, Spread, Takes;
    InvWf(s);
    InvOk(s, x);
    Catching(s.brokers[x], c, t);
  }

  lemma NovelCarrying(s: State, t: Topic, k: LinkKey)
    requires Inv(s) && Settled(s) && Novel(s, t) && k in s.links
    ensures Wf(s) && Carrying(s, k, t) && Ready(s, k, t)
  {
    hide Inv, Ok;
    InvWf(s);
    AcceptorThere(s, k);
    InvOk(s, s.links[k].dialer);
    WantedIsInterest(s.brokers[s.links[k].dialer], t);
  }

  /** With the news everywhere, the one who asked leaves: all stays as it is. */
  lemma AskerLeaves(s: State, t: Topic, x: BrokerId, c: ClientId, k: LinkKey)
    requires Wave(s, t, x, c) && InFlight(s) == {} && Propagatable(t)
    requires k in s.links && s.links[k].acceptor == x && Holder(s, x, s.links[k].id, t)
    ensures var e := Client(x, c, Broker.Control(Replica.Unsub(t)));
            && Enabled(s, e)
            && var s' := Step(s, e);
               && SameEnds(s, s') && Settled(s') && t in Wanted(s'.brokers[x].rel)
               && forall b :: !Source(s', b, t)
  {
    hide Inv, Carrying, HasRoom;
    var b, d := s.brokers[x], s.links[k].id;
    AskerKnown(s, t, x, c, k);
    var core := b.(rel := b.rel - {(c, t)});
    Releasing(b, c, t, d);
    LeftAlone(s, x, core);
    hide Handle, Spread;
    var s' := s.(brokers := s.brokers[x := core]);
    assert Step(s, Client(x, c, Broker.Control(Replica.Unsub(t)))) == s';
    hide Step;
    assert (d, t) in core.rel && t in Wanted(core.rel);
    SameEndsLinkIds(s, s');
    QuietAfter(s, t, x, c, core);
  }

  lemma AskerKnown(s: State, t: Topic, x: BrokerId, c: ClientId, k: LinkKey)
    requires Wave(s, t, x, c) && k in s.links && s.links[k].acceptor == x
    ensures Wf(s) && c in s.brokers[x].clients && s.links[k].id != c
  {
    hide Carrying, HasRoom;
    assert Ok(s.brokers[x]);
    IsLinkId(s, k);
  }

  lemma QuietAfter(s: State, t: Topic, x: BrokerId, c: ClientId, core: Core)
    requires Wave(s, t, x, c) && InFlight(s) == {} && core == s.brokers[x].(rel := s.brokers[x].rel - {(c, t)})
    ensures var s' := s.(brokers := s.brokers[x := core]); Settled(s') && forall b :: !Source(s', b, t)
  {
    var s' := s.(brokers := s.brokers[x := core]);
    hide Inv, Carrying, HasRoom;
    InvWf(s);
    SameEndsLinkIds(s, s');
    SameWf(s, s');
    forall k | k in s.links
      ensures s.links[k].chan == [] && s.links[k].resets == 0 && Roomy(s.links[k].stale) && t !in s.links[k].stale
      ensures s.links[k].acceptor in s.brokers && s.links[k].id in s'.brokers[s.links[k].acceptor].clients
    {
      AtRest(s, k, t);
    }
    forall b | b in s.brokers
      ensures !s'.brokers[b].interest.saturated
    {
      Unsaturated(s.brokers[b], t);
    }
    assert forall a, n :: Holder(s', a, n, t) ==> Holder(s, a, n, t) && (a, n) != (x, c);
    hide Wave, Holder, LinkIdAt;
    forall a ensures !Source(s', a, t) { NoSource(s', a, t); }
  }

  lemma AtRest(s: State, k: LinkKey, t: Topic)
    requires Wf(s) && k in s.links && Carrying(s, k, t) && InFlight(s) == {}
    ensures var l := s.links[k];
            && l.chan == [] && l.resets == 0 && Roomy(l.stale) && t !in l.stale
            && l.acceptor in s.brokers && l.id in s.brokers[l.acceptor].clients
  {
    assert k !in InFlight(s);
  }

  lemma Unsaturated(b: Core, t: Topic)
    requires HasRoom(b, t)
    ensures !b.interest.saturated
  {
  }

  lemma SameWf(s: State, s': State)
    requires Wf(s) && SameEnds(s, s') && s'.departed == s.departed
    ensures Wf(s')
  {
    SameEndsLinkIds(s, s');
  }

  lemma LeftAlone(s: State, x: BrokerId, core: Core)
    requires x in s.brokers
    ensures Spread(s, x, core, []) == s.(brokers := s.brokers[x := core])
  {
    var links := Spread(s, x, core, []).links;
    forall k | k in s.links
      ensures links[k] == s.links[k]
    {
      assert s.links[k].chan + [] == s.links[k].chan;
    }
    assert links == s.links;
  }

  lemma NoSource(s: State, a: BrokerId, t: Topic)
    requires Wf(s) && (forall b :: b in s.brokers ==> !s.brokers[b].interest.saturated)
    requires forall b, d :: Holder(s, b, d, t) ==> LinkIdAt(s, b, d)
    requires forall k :: k in s.links ==> t !in s.links[k].stale
    ensures !Source(s, a, t)
  {
  }

  /** The other half: whenever links lead from a broker back to itself, then from any rest and for any
      topic nobody wants and every broker has room for, some run ends at rest with the same links,
      the topic wanted and no source for it anywhere. */
  lemma CycleKeepsInterest(s: State, x: BrokerId, ks: seq<LinkKey>, t: Topic) returns (es: seq<Event>, s': State)
    requires Reachable(s) && Settled(s) && Path(s, x, ks, x) && ks != [] && Novel(s, t)
    ensures Runs(s, es, s') && SameEnds(s, s') && Settled(s')
    ensures x in s'.brokers && t in Wanted(s'.brokers[x].rel)
    ensures forall b :: !Source(s', b, t)
  {
    hide Inv, Reachable, Wave, Settled, Novel, Source, Step, Enabled, SameEnds, Path, Wanted;
    ReachableInv(s);
    PathStart(s, x, ks);
    var c := Stranger(s, x);
    var ask, leave := Client(x, c, Broker.Control(News(t))), Client(x, c, Broker.Control(Replica.Unsub(t)));
    NovelTopic(s, t);
    InvWf(s);
    WaveStarts(s, t, x, c);
    var s1 := Step(s, ask);
    var mid, s2 := WaveEnds(s1, t, x, c);
    SameEndsTrans(s, s1, s2);
    SameEndsPath(s, s2, x, ks, x);
    AskerWants(s2, t, x, c);
    var k := WaveReaches(s2, t, x, c, x, ks, x);
    AskerLeaves(s2, t, x, c, k);
    s' := Step(s2, leave);
    SameEndsTrans(s, s2, s');
    RunsSnoc(s1, mid, s2, leave);
    es := [ask] + (mid + [leave]);
    assert es[1..] == mid + [leave];
  }

  lemma PathStart(s: State, x: BrokerId, ks: seq<LinkKey>)
    requires Inv(s) && Path(s, x, ks, x) && ks != []
    ensures x in s.brokers
  {
  }

  lemma NovelTopic(s: State, t: Topic)
    requires Novel(s, t)
    ensures LegalTopic(t) && Propagatable(t)
  {
  }

  lemma AskerWants(s: State, t: Topic, x: BrokerId, c: ClientId)
    requires Wave(s, t, x, c) && Propagatable(t)
    ensures Wf(s) && x in s.brokers && t in s.brokers[x].interest.topics
  {
    hide Carrying;
    HolderWants(s.brokers[x], c, t);
  }

  /** Some broker wants the topic and there is no source for it anywhere. */
  ghost predicate Sourceless(s: State, t: Topic) {
    (exists x :: x in s.brokers && t in Wanted(s.brokers[x].rel)) && forall b :: !Source(s, b, t)
  }

  /** So interest can outlive its reasons exactly on a dial cycle: from any rest, a run that keeps the
      links can end at rest with a topic nobody wanted at first wanted without a source if and only
      if links lead from some broker back to itself. */
  lemma SourcelessIffCycle(s: State, t: Topic)
    requires Reachable(s) && Settled(s) && Novel(s, t)
    ensures (exists es, s' :: Runs(s, es, s') && SameEnds(s, s') && Settled(s') && Sourceless(s', t)) <==>
            exists x :: LeadsTo(s, x, x)
  {
    if x :| LeadsTo(s, x, x) {
      var ks :| ks != [] && Path(s, x, ks, x);
      var es, s' := CycleKeepsInterest(s, x, ks, t);
      assert Sourceless(s', t);
    }
    if es, s' :| Runs(s, es, s') && SameEnds(s, s') && Settled(s') && Sourceless(s', t) {
      var x := CycleBehind(s, es, s', t);
    }
  }

  lemma CycleBehind(s: State, es: seq<Event>, s': State, t: Topic) returns (x: BrokerId)
    requires Reachable(s) && Runs(s, es, s') && SameEnds(s, s') && Settled(s') && Sourceless(s', t)
    ensures LeadsTo(s, x, x)
  {
    hide Runs, Settled, Source, Reachable;
    ReachableOn(s, es, s');
    var z :| z in s'.brokers && t in Wanted(s'.brokers[z].rel);
    InterestHasSource(s', z, t);
    var ks;
    x, ks :| Path(s', x, ks, z) && (Source(s', x, t) || LeadsTo(s', x, x));
    var loop :| loop != [] && Path(s', x, loop, x);
    assert SameEnds(s', s);
    SameEndsPath(s', s, x, loop, x);
  }
}
