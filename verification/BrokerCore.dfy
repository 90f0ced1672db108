/** The broker's session and subscription state as a value, and what each control message and each
    client removal does to it (server/broker.cpp). */
module BrokerCore {
  import opened Keys
  import opened Registry
  import opened Replica
  import opened Interest
  import Text

  datatype Core = Core(clients: set<ClientId>, rel: Relation, interest: Interest)

  /** The new state, what every peer link is sent, and whether the sender is sent a RESET. */
  datatype Effect = Effect(core: Core, out: seq<Ctl>, reset: bool)

  const FRESH := Core({}, map[], NO_INTEREST)

  /** What the broker holds for one client. */
  function ViewOf(rel: Relation, c: ClientId): View {
    map t | t in TopicsOf(rel, c) :: rel[(c, t)]
  }

  predicate CanSubscribe(rel: Relation, c: ClientId, t: Topic) {
    (c, t) in rel || |TopicsOf(rel, c)| < MAX_SUBSCRIPTIONS
  }

  /** The relation after one control message from client c. */
  function Record(rel: Relation, c: ClientId, m: Ctl): Relation {
    match m
    case Connect => rel
    case Sub(t, scope) => if LegalTopic(t) && CanSubscribe(rel, c, t) then rel[(c, t) := scope] else rel
    case Unsub(t) => rel - {(c, t)}
  }

  /** Any message but a DISCONNECT makes its sender known, drawing a RESET from a session the broker
      does not have unless it is a CONNECT. */
  function Touch(b: Core, c: ClientId, connect: bool): Effect {
    Effect(b.(clients := b.clients + {c}), [], c !in b.clients && !connect)
  }

  function Handle(b: Core, c: ClientId, m: Ctl): Effect {
    var rel' := Record(b.rel, c, m);
    var known := Touch(b, c, m.Connect?);
    if m.Connect? then known
    else
      var n := Change(b.interest, m.topic, m.topic in Wanted(b.rel), m.topic in Wanted(rel'));
      Effect(known.core.(rel := rel', interest := n.interest), n.out, known.reset)
  }

  /** Forgets a client and everything it held, revisiting the topics that were wanted from the mesh. */
  function Remove(b: Core, c: ClientId): Effect {
    var rel' := WithoutClient(b.rel, c);
    var revisit := Text.Sorted(TopicsOf(b.rel, c) * Wanted(b.rel));
    var n := LoseUnwanted(b.interest, revisit, Wanted(rel'));
    Effect(Core(b.clients - {c}, rel', n.interest), n.out, false)
  }

  /** The interest mirrors the registry, every subscriber is a known client, and every topic held is
      one the broker accepts. */
  ghost predicate Ok(b: Core) {
    && Tracks(b.interest, Wanted(b.rel))
    && forall k :: k in b.rel ==> k.0 in b.clients && LegalTopic(k.1)
  }

  lemma FreshOk()
    ensures Ok(FRESH)
  {
    assert Wanted(FRESH.rel) == {};
  }

  /** One pair changing moves at most its own topic in or out of the wanted set. */
  lemma WantedMoves(rel: Relation, rel': Relation, c: ClientId, t: Topic)
    requires rel - {(c, t)} == rel' - {(c, t)}
    ensures Wanted(rel') == Moved(Wanted(rel), t, t in Wanted(rel'))
  {
    assert forall k :: k in rel && k != (c, t) ==> k in rel - {(c, t)} && rel[k] == (rel - {(c, t)})[k];
    assert forall k :: k in rel' && k != (c, t) ==> k in rel' - {(c, t)} && rel'[k] == (rel' - {(c, t)})[k];
  }

  lemma HandleOk(b: Core, c: ClientId, m: Ctl)
    requires Ok(b)
    ensures Ok(Handle(b, c, m).core)
    ensures b.interest.saturated ==> Handle(b, c, m).core.interest.saturated
    ensures Carries(LinkGoal(b.interest), LinkGoal(Handle(b, c, m).core.interest), Handle(b, c, m).out, LINK_BOUND)
  {
    var rel' := Record(b.rel, c, m);
    if m.Connect? {
      NothingCarries(LinkGoal(b.interest));
    } else {
      var t := m.topic;
      WantedMoves(b.rel, rel', c, t);
      if LegalTopic(t) {
        ChangeTracks(b.interest, Wanted(b.rel), t, t in Wanted(rel'));
        ChangeCarries(b.interest, t, t in Wanted(b.rel), t in Wanted(rel'));
      } else {
        assert t !in Wanted(b.rel) && t !in Wanted(rel');
        NothingCarries(LinkGoal(b.interest));
      }
    }
  }

  lemma RemoveOk(b: Core, c: ClientId)
    requires Ok(b)
    ensures Ok(Remove(b, c).core)
    ensures b.interest.saturated ==> Remove(b, c).core.interest.saturated
    ensures Carries(LinkGoal(b.interest), LinkGoal(Remove(b, c).core.interest), Remove(b, c).out, LINK_BOUND)
  {
    var rel' := WithoutClient(b.rel, c);
    var revisit := Text.Sorted(TopicsOf(b.rel, c) * Wanted(b.rel));
    Text.SortedDistinct(TopicsOf(b.rel, c) * Wanted(b.rel));
    assert forall k :: 0 <= k < |revisit| ==> revisit[k] in TopicsOf(b.rel, c) * Wanted(b.rel);
    LoseUnwantedTracks(b.interest, Wanted(b.rel), revisit, Wanted(rel'));
    LoseUnwantedCarries(b.interest, revisit, Wanted(rel'));
    StillWanted(b.rel, c, revisit);
  }

  /** Removing a client can only take from what is wanted its own topics, where nobody else wants them. */
  lemma StillWanted(rel: Relation, c: ClientId, revisit: seq<Topic>)
    requires forall t :: t in revisit <==> t in TopicsOf(rel, c) * Wanted(rel)
    ensures var rel' := WithoutClient(rel, c);
            (set t | t in Wanted(rel) && (t in revisit ==> t in Wanted(rel'))) == Wanted(rel')
  {
    var rel' := WithoutClient(rel, c);
    forall t | t in Wanted(rel) && t !in revisit
      ensures t in Wanted(rel')
    {
      var k :| k in rel && rel[k].mesh && k.1 == t;
      assert k in rel';
    }
  }

  // Each client's own subscriptions, seen alone.

  lemma ViewTopics(rel: Relation, c: ClientId)
    ensures ViewOf(rel, c).Keys == TopicsOf(rel, c)
    ensures |ViewOf(rel, c)| == |TopicsOf(rel, c)|
  {
    assert ViewOf(rel, c).Keys == TopicsOf(rel, c);
  }

  lemma RecordView(rel: Relation, c: ClientId, m: Ctl)
    ensures ViewOf(Record(rel, c, m), c) == Accept(ViewOf(rel, c), m)
  {
    ViewTopics(rel, c);
    match m
    case Connect =>
    case Sub(t, scope) => SubView1(rel, c, t, scope);
    case Unsub(t) => UnsubView1(rel, c, t);
  }

  lemma SubView1(rel: Relation, c: ClientId, t: Topic, scope: Origin)
    ensures ViewOf(rel[(c, t) := scope], c) == ViewOf(rel, c)[t := scope]
  {
  }

  lemma UnsubView1(rel: Relation, c: ClientId, t: Topic)
    ensures ViewOf(rel - {(c, t)}, c) == ViewOf(rel, c) - {t}
  {
  }

  lemma RecordOthers(rel: Relation, c: ClientId, m: Ctl, d: ClientId)
    requires d != c
    ensures ViewOf(Record(rel, c, m), d) == ViewOf(rel, d)
  {
    assert TopicsOf(Record(rel, c, m), d) == TopicsOf(rel, d);
  }

  lemma HandleView(b: Core, c: ClientId, m: Ctl)
    ensures Handle(b, c, m).core.clients == b.clients + {c}
    ensures Handle(b, c, m).reset <==> c !in b.clients && !m.Connect?
    ensures ViewOf(Handle(b, c, m).core.rel, c) == Accept(ViewOf(b.rel, c), m)
    ensures forall d :: d != c ==> ViewOf(Handle(b, c, m).core.rel, d) == ViewOf(b.rel, d)
  {
    assert Handle(b, c, m).core.rel == Record(b.rel, c, m);
    RecordView(b.rel, c, m);
    forall d | d != c
      ensures ViewOf(Record(b.rel, c, m), d) == ViewOf(b.rel, d)
    {
      RecordOthers(b.rel, c, m, d);
    }
  }

  lemma RemoveView(b: Core, c: ClientId)
    ensures Remove(b, c).core.clients == b.clients - {c}
    ensures ViewOf(Remove(b, c).core.rel, c) == map[]
    ensures forall d :: d != c ==> ViewOf(Remove(b, c).core.rel, d) == ViewOf(b.rel, d)
  {
    assert Remove(b, c).core.clients == b.clients - {c} && Remove(b, c).core.rel == WithoutClient(b.rel, c);
    hide Remove;
    WithoutView(b.rel, c);
  }

  lemma WithoutView(rel: Relation, c: ClientId)
    ensures ViewOf(WithoutClient(rel, c), c) == map[]
    ensures forall d :: d != c ==> ViewOf(WithoutClient(rel, c), d) == ViewOf(rel, d)
  {
    forall d | d != c
      ensures ViewOf(WithoutClient(rel, c), d) == ViewOf(rel, d)
    {
      assert TopicsOf(WithoutClient(rel, c), d) == TopicsOf(rel, d);
    }
  }

  lemma StrangerHoldsNothing(b: Core, c: ClientId)
    requires Ok(b) && c !in b.clients
    ensures ViewOf(b.rel, c) == map[]
  {
  }

  lemma OkSized(b: Core)
    requires Ok(b)
    ensures Sized(b.interest)
  {
  }
}
